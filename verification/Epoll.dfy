/** The epoll backend of one I/O handle: requests wait until their descriptor is
    ready, is found stale, or the request is cancelled; completions are polled.

    The handle's owner does all of this; other threads track, close, claim and
    release descriptors in between.  What the system calls answer is a parameter. */
module Epoll {
  import opened Common
  import opened Sockets
  import opened Uring

  datatype Completion = Completion(ticket: nat, request: Request, result: int)

  /** Who has the claim on a descriptor. */
  datatype Claimant = Mine(ticket: nat) | Others

  datatype Handle = Handle(
    reg: Registry,
    waiters: map<nat, Request>,        // by the ticket of their submission
    queued: seq<Completion>,
    hand: Option<Completion>,          // polled, about to be judged
    submissions: nat,
    completions: nat,
    cancellations: nat,
    claims: map<int, Claimant>,        // history: who has the claim on a descriptor
    delivered: seq<Completion>,        // history: what the caller was given
    closed: set<nat>,                  // history: tickets whose descriptor was closed before delivery
    ends: map<nat, Ending>)            // history: how a submission ended

  /** How a submission stopped waiting: what the system call answered, and whether a
      connection it accepted could be tracked. */
  datatype Ending = WasCancelled | SeenStale | Answered(result: int, tracked: bool)

  function Reported(r: Request, e: Ending): int
  {
    match e
    case WasCancelled => -ECANCELED
    case SeenStale => -ESTALE
    case Answered(result, tracked) => if r.kind.Accept? && result >= 0 && !tracked then -EMFILE else result
  }

  /** What a system call answers. */
  datatype Answer = WouldBlock | Did(result: int)

  datatype Event =
    | SubmitRequest(request: Request, memory: bool, added: bool)
    | CancelWaiter(ticket: nat, memory: bool)
    | PollQueued
    | PollStale(ticket: nat)
    | PollReady(ticket: nat, seen: bool, answer: Answer, memory: bool)
    | Deliver(shut: bool)
    | ElseTracks(fd: int, memory: bool)
    | ElseCloses(fd: int, shut: bool)
    | ElseClaims(fd: int, generation: nat)
    | ElseReleases(fd: int)

  const ECANCELED := 125

  function Opened(): Handle
  {
    Handle(map[], map[], [], None, 0, 0, 0, map[], [], {}, map[])
  }

  predicate Busy(h: Handle, r: Request)
  {
    exists t :: t in h.waiters && (h.waiters[t].id == r.id || h.waiters[t].fd == r.fd)
  }

  /** Claims the descriptor and starts to wait; without memory, or when the system
      refuses, the claim goes back. */
  function DoSubmit(h: Handle, r: Request, memory: bool, added: bool): Handle
  {
    if h.hand.Some? || r.kind.Timeout? || Busy(h, r) then h
    else
      var (reg, status) := Claim(h.reg, r.fd, r.generation);
      if !status.Ok? then h
      else if !memory || !added then h.(reg := Release(reg, r.fd, r.generation))
      else
        h.(reg := reg,
           claims := h.claims[r.fd := Mine(h.submissions)],
           waiters := h.waiters[h.submissions := r],
           submissions := h.submissions + 1)
  }

  /** The waiter goes, and its claim with it. */
  function Leave(h: Handle, t: nat): Handle
    requires t in h.waiters
  {
    var r := h.waiters[t];
    h.(waiters := h.waiters - {t},
       reg := Release(h.reg, r.fd, r.generation),
       claims := h.claims - {r.fd})
  }

  function DoCancelWaiter(h: Handle, t: nat, memory: bool): Handle
  {
    if h.hand.Some? || t !in h.waiters || !memory then h
    else
      var c := Completion(t, h.waiters[t], -ECANCELED);
      Leave(h, t).(queued := h.queued + [c],
                   ends := h.ends[t := WasCancelled],
                   cancellations := h.cancellations + 1)
  }

  /** The submissions on the descriptor that have not been delivered. */
  function Touched(h: Handle, fd: int): set<nat>
  {
    (set t | t in h.waiters && h.waiters[t].fd == fd)
    + (set i | 0 <= i < |h.queued| && h.queued[i].request.fd == fd :: h.queued[i].ticket)
    + (if h.hand.Some? && h.hand.value.request.fd == fd then {h.hand.value.ticket} else {})
  }

  function CloseSocket(h: Handle, fd: int, shut: bool): Handle
  {
    var (reg, status) := Close(h.reg, fd, shut);
    if status.Ok? then h.(reg := reg, closed := h.closed + Touched(h, fd)) else h
  }

  /** A completion reaches the caller; one whose descriptor has been closed is
      delivered as stale, and a connection it accepted is closed. */
  function Give(h: Handle, c: Completion, shut: bool): Handle
  {
    var stale := RequestIsStale(h.reg, c.request);
    var h1 := if stale && c.request.kind.Accept? && c.result >= 0 then CloseSocket(h, c.result, shut) else h;
    h1.(completions := h.completions + 1,
        delivered := h.delivered + [if stale then c.(result := -ESTALE) else c])
  }

  function DoPollQueued(h: Handle): Handle
  {
    if h.hand.Some? || h.queued == [] then h else h.(queued := h.queued[1..], hand := Some(h.queued[0]))
  }

  /** The waiter goes, and its completion is in hand. */
  function Take(h: Handle, t: nat, result: int, end: Ending): Handle
    requires t in h.waiters
  {
    Leave(h, t).(hand := Some(Completion(t, h.waiters[t], result)), ends := h.ends[t := end])
  }

  function DoPollStale(h: Handle, t: nat): Handle
  {
    if h.hand.Some? || h.queued != [] || t !in h.waiters || !RequestIsStale(h.reg, h.waiters[t]) then h
    else Take(h, t, -ESTALE, SeenStale)
  }

  /** The descriptor is ready: unless the request is seen to be stale the operation is
      tried, and completes unless it would block.  A close that comes between the look
      and the system call is not seen. */
  function DoPollReady(h: Handle, t: nat, seen: bool, answer: Answer, memory: bool): Handle
  {
    if h.hand.Some? || h.queued != [] || t !in h.waiters then h
    else
      var r := h.waiters[t];
      if seen && RequestIsStale(h.reg, r) then Take(h, t, -ESTALE, SeenStale)
      else if answer.WouldBlock? then h
      else if r.kind.Accept? && answer.result >= 0 then
        var (reg, status) := Track(h.reg, answer.result, memory);
        Take(h.(reg := reg), t, if status.Ok? then answer.result else -EMFILE, Answered(answer.result, status.Ok?))
      else Take(h, t, answer.result, Answered(answer.result, false))
  }

  function DoDeliver(h: Handle, shut: bool): Handle
  {
    if h.hand.None? then h else Give(h.(hand := None), h.hand.value, shut)
  }

  function Next(h: Handle, e: Event): Handle
  {
    match e
    case SubmitRequest(r, memory, added) => DoSubmit(h, r, memory, added)
    case CancelWaiter(t, memory) => DoCancelWaiter(h, t, memory)
    case PollQueued => DoPollQueued(h)
    case PollStale(t) => DoPollStale(h, t)
    case PollReady(t, seen, answer, memory) => DoPollReady(h, t, seen, answer, memory)
    case Deliver(shut) => DoDeliver(h, shut)
    case ElseTracks(fd, memory) => h.(reg := Track(h.reg, fd, memory).0)
    case ElseCloses(fd, shut) => CloseSocket(h, fd, shut)
    case ElseClaims(fd, generation) =>
      if Claim(h.reg, fd, generation).1.Ok?
      then h.(reg := Claim(h.reg, fd, generation).0, claims := h.claims[fd := Others]) else h
    case ElseReleases(fd) =>
      if fd in h.claims && h.claims[fd].Others? && fd in h.reg
      then h.(reg := Release(h.reg, fd, h.reg[fd].pending), claims := h.claims - {fd}) else h
  }

  // ---------------------------------------------------------------- accounting

  function Times(list: seq<Completion>, t: nat): nat
  {
    if list == [] then 0 else Once(list[0].ticket == t) + Times(list[1..], t)
  }

  lemma {:induction false} TimesSnoc(list: seq<Completion>, c: Completion, t: nat)
    ensures Times(list + [c], t) == Times(list, t) + Once(c.ticket == t)
  {
    if list != [] {
      TimesSnoc(list[1..], c, t);
      assert (list + [c])[1..] == list[1..] + [c];
    }
  }

  predicate Holds(h: Handle, t: nat)
  {
    h.hand.Some? && h.hand.value.ticket == t
  }

  /** How many places the submission with ticket t is in: waiting, completed but not
      polled, polled but not delivered, delivered. */
  function Places(h: Handle, t: nat): nat
  {
    Once(t in h.waiters) + Times(h.queued, t) + Once(Holds(h, t)) + Times(h.delivered, t)
  }

  ghost predicate Accounted(h: Handle)
  {
    && h.submissions == h.completions + |h.waiters| + |h.queued| + Once(h.hand.Some?)
    && h.completions == |h.delivered|
    && forall t: nat {:trigger Places(h, t)} :: Places(h, t) == Once(t < h.submissions)
  }

  /** A new waiter, by the next ticket. */
  lemma AddedAccounts(h: Handle, r: Request, h': Handle)
    requires Accounted(h)
    requires h' == h.(waiters := h.waiters[h.submissions := r], submissions := h.submissions + 1)
    ensures Accounted(h')
  {
    assert Places(h, h.submissions) == 0;
    assert h'.waiters.Keys == h.waiters.Keys + {h.submissions};
    forall t: nat
      ensures Places(h', t) == Once(t < h'.submissions)
    {
      assert Places(h, t) == Once(t < h.submissions);
    }
  }

  lemma SubmitAccounts(h: Handle, r: Request, memory: bool, added: bool)
    requires Accounted(h)
    ensures Accounted(DoSubmit(h, r, memory, added))
  {
    var h' := DoSubmit(h, r, memory, added);
    if h'.submissions == h.submissions {
      RegistryIsElse(h, h'.reg, h'.claims, h'.closed);
    } else {
      var h1 := h.(waiters := h'.waiters, submissions := h'.submissions);
      AddedAccounts(h, r, h1);
      RegistryIsElse(h1, h'.reg, h'.claims, h'.closed);
    }
  }

  lemma LeaveCounts(h: Handle, t: nat)
    requires t in h.waiters
    ensures |Leave(h, t).waiters| == |h.waiters| - 1
  {
    assert (h.waiters - {t}).Keys == h.waiters.Keys - {t};
  }

  lemma CancelAccounts(h: Handle, t: nat, memory: bool)
    requires Accounted(h)
    ensures Accounted(DoCancelWaiter(h, t, memory))
  {
    if t in h.waiters && memory {
      var h' := DoCancelWaiter(h, t, memory);
      LeaveCounts(h, t);
      forall u: nat
        ensures Places(h', u) == Once(u < h'.submissions)
      {
        assert Places(h, u) == Once(u < h.submissions);
        TimesSnoc(h.queued, Completion(t, h.waiters[t], -ECANCELED), u);
      }
    }
  }

  lemma GiveAccounts(h: Handle, c: Completion, shut: bool, u: nat)
    ensures Places(Give(h, c, shut), u) == Places(h, u) + Once(c.ticket == u)
  {
    var stale := RequestIsStale(h.reg, c.request);
    TimesSnoc(h.delivered, if stale then c.(result := -ESTALE) else c, u);
  }

  lemma PollQueuedAccounts(h: Handle)
    requires Accounted(h)
    ensures Accounted(DoPollQueued(h))
  {
    if h.hand.None? && h.queued != [] {
      var h' := DoPollQueued(h);
      forall u: nat
        ensures Places(h', u) == Once(u < h'.submissions)
      {
        assert Places(h, u) == Once(u < h.submissions);
      }
    }
  }

  lemma TakeAccounts(h: Handle, reg: Registry, t: nat, result: int, end: Ending)
    requires Accounted(h) && t in h.waiters && h.hand.None?
    ensures Accounted(Take(h.(reg := reg), t, result, end))
  {
    var h' := Take(h.(reg := reg), t, result, end);
    LeaveCounts(h.(reg := reg), t);
    forall u: nat
      ensures Places(h', u) == Once(u < h'.submissions)
    {
      assert Places(h, u) == Once(u < h.submissions);
    }
  }

  lemma PollAccounts(h: Handle, e: Event)
    requires Accounted(h) && (e.PollStale? || e.PollReady?)
    ensures Accounted(Next(h, e))
  {
    if h.hand.None? && h.queued == [] && e.ticket in h.waiters {
      TakeAccounts(h, h.reg, e.ticket, -ESTALE, SeenStale);
      if e.PollReady? && e.answer.Did? {
        var r := h.waiters[e.ticket];
        if r.kind.Accept? && e.answer.result >= 0 {
          var (reg, status) := Track(h.reg, e.answer.result, e.memory);
          TakeAccounts(h, reg, e.ticket, if status.Ok? then e.answer.result else -EMFILE,
                       Answered(e.answer.result, status.Ok?));
        } else {
          TakeAccounts(h, h.reg, e.ticket, e.answer.result, Answered(e.answer.result, false));
        }
      }
    }
  }

  lemma DeliverAccounts(h: Handle, shut: bool)
    requires Accounted(h)
    ensures Accounted(DoDeliver(h, shut))
  {
    if h.hand.Some? {
      var h' := DoDeliver(h, shut);
      forall u: nat
        ensures Places(h', u) == Once(u < h'.submissions)
      {
        assert Places(h, u) == Once(u < h.submissions);
        GiveAccounts(h.(hand := None), h.hand.value, shut, u);
      }
    }
  }

  lemma RegistryIsElse(h: Handle, reg: Registry, claims: map<int, Claimant>, closed: set<nat>)
    requires Accounted(h)
    ensures Accounted(h.(reg := reg, claims := claims, closed := closed))
  {
    var h' := h.(reg := reg, claims := claims, closed := closed);
    forall u: nat
      ensures Places(h', u) == Once(u < h'.submissions)
    {
      assert Places(h, u) == Once(u < h.submissions);
    }
  }

  lemma StepAccounts(h: Handle, e: Event)
    requires Accounted(h)
    ensures Accounted(Next(h, e))
  {
    match e {
      case SubmitRequest(r, memory, added) => SubmitAccounts(h, r, memory, added);
      case CancelWaiter(t, memory) => CancelAccounts(h, t, memory);
      case PollQueued => PollQueuedAccounts(h);
      case PollStale(_) => PollAccounts(h, e);
      case PollReady(_, _, _, _) => PollAccounts(h, e);
      case Deliver(shut) => DeliverAccounts(h, shut);
      case _ => RegistryIsElse(h, Next(h, e).reg, Next(h, e).claims, Next(h, e).closed);
    }
  }

  // ------------------------------------------------------------------- claims

  ghost predicate ClaimsOk(h: Handle)
  {
    && Valid(h.reg)
    && (forall t {:trigger h.waiters[t]} :: t in h.waiters ==>
          && h.waiters[t].fd in h.claims && h.claims[h.waiters[t].fd] == Mine(t) && h.waiters[t].fd in h.reg
          && h.reg[h.waiters[t].fd].pending == h.waiters[t].generation)
    && (forall fd {:trigger h.claims[fd]} :: fd in h.claims ==>
          && fd in h.reg && h.reg[fd].pending != 0
          && (h.claims[fd].Mine? ==> h.claims[fd].ticket in h.waiters && h.waiters[h.claims[fd].ticket].fd == fd))
    && (forall fd {:trigger h.reg[fd]} :: fd in h.reg && h.reg[fd].pending != 0 ==> fd in h.claims)
  }

  lemma SubmitClaims(h: Handle, r: Request, memory: bool, added: bool)
    requires ClaimsOk(h) && h.submissions !in h.waiters
    ensures ClaimsOk(DoSubmit(h, r, memory, added))
  {
    StepValid(h.reg, DoClaim(r.fd, r.generation));
    StepValid(Claim(h.reg, r.fd, r.generation).0, DoRelease(r.fd, r.generation));
  }

  lemma LeaveClaims(h: Handle, t: nat)
    requires ClaimsOk(h) && t in h.waiters
    ensures ClaimsOk(Leave(h, t))
  {
    StepValid(h.reg, DoRelease(h.waiters[t].fd, h.waiters[t].generation));
  }

  lemma TrackClaims(h: Handle, fd: int, memory: bool)
    requires ClaimsOk(h)
    ensures ClaimsOk(h.(reg := Track(h.reg, fd, memory).0))
  {
    StepValid(h.reg, DoTrack(fd, memory));
  }

  lemma CloseClaims(h: Handle, fd: int, shut: bool)
    requires ClaimsOk(h)
    ensures ClaimsOk(CloseSocket(h, fd, shut))
  {
    StepValid(h.reg, DoClose(fd, shut));
  }

  lemma GiveClaims(h: Handle, c: Completion, shut: bool)
    requires ClaimsOk(h)
    ensures ClaimsOk(Give(h, c, shut))
  {
    CloseClaims(h, c.result, shut);
  }

  lemma PollClaims(h: Handle, e: Event)
    requires ClaimsOk(h) && (e.PollStale? || e.PollReady?)
    ensures ClaimsOk(Next(h, e))
  {
    if h.hand.None? && h.queued == [] && e.ticket in h.waiters {
      TakeClaims(h, e.ticket, -ESTALE, SeenStale);
      if e.PollReady? && e.answer.Did? {
        var result := e.answer.result;
        if h.waiters[e.ticket].kind.Accept? && result >= 0 {
          var (reg, status) := Track(h.reg, result, e.memory);
          TrackClaims(h, result, e.memory);
          TakeClaims(h.(reg := reg), e.ticket, if status.Ok? then result else -EMFILE, Answered(result, status.Ok?));
        } else {
          TakeClaims(h, e.ticket, result, Answered(result, false));
        }
      }
    }
  }

  lemma TakeClaims(h: Handle, t: nat, result: int, end: Ending)
    requires ClaimsOk(h) && t in h.waiters
    ensures ClaimsOk(Take(h, t, result, end))
  {
    LeaveClaims(h, t);
  }

  lemma ElseClaimsOk(h: Handle, e: Event)
    requires ClaimsOk(h) && (e.ElseClaims? || e.ElseReleases?)
    ensures ClaimsOk(Next(h, e))
  {
    if e.ElseClaims? {
      StepValid(h.reg, DoClaim(e.fd, e.generation));
    } else if e.fd in h.reg {
      StepValid(h.reg, DoRelease(e.fd, h.reg[e.fd].pending));
    }
  }

  lemma StepClaims(h: Handle, e: Event)
    requires ClaimsOk(h) && Accounted(h)
    ensures ClaimsOk(Next(h, e))
  {
    match e {
      case SubmitRequest(r, memory, added) =>
        assert Places(h, h.submissions) == 0;
        SubmitClaims(h, r, memory, added);
      case CancelWaiter(t, memory) =>
        if t in h.waiters {
          LeaveClaims(h, t);
        }
      case PollQueued =>
      case PollStale(_) => PollClaims(h, e);
      case PollReady(_, _, _, _) => PollClaims(h, e);
      case Deliver(shut) =>
        if h.hand.Some? {
          GiveClaims(h.(hand := None), h.hand.value, shut);
        }
      case ElseTracks(fd, memory) => TrackClaims(h, fd, memory);
      case ElseCloses(fd, shut) => CloseClaims(h, fd, shut);
      case ElseClaims(_, _) => ElseClaimsOk(h, e);
      case ElseReleases(_) => ElseClaimsOk(h, e);
    }
  }

  // ---------------------------------------------------------------------- runs

  function Run(h: Handle, events: seq<Event>): Handle
    decreases |events|
  {
    if events == [] then h else Run(Next(h, events[0]), events[1..])
  }

  lemma {:induction false} RunKeeps(h: Handle, events: seq<Event>)
    requires Accounted(h) && ClaimsOk(h)
    ensures Accounted(Run(h, events)) && ClaimsOk(Run(h, events))
    decreases |events|
  {
    if events != [] {
      StepAccounts(h, events[0]);
      StepClaims(h, events[0]);
      RunKeeps(Next(h, events[0]), events[1..]);
    }
  }

  /** In every run the submissions are the completions delivered, the waiters, the
      queued completions and the one being delivered; each submission is in exactly one
      of these, once. */
  lemma SubmissionsAccounted(events: seq<Event>, t: nat)
    ensures var h := Run(Opened(), events);
            && h.submissions == h.completions + |h.waiters| + |h.queued| + Once(h.hand.Some?)
            && Once(t in h.waiters) + Times(h.queued, t) + Once(Holds(h, t)) + Times(h.delivered, t)
               == Once(t < h.submissions)
  {
    RunKeeps(Opened(), events);
    assert Places(Run(Opened(), events), t) == Once(t < Run(Opened(), events).submissions);
  }

  /** In every run each waiter has the claim on its descriptor, no two waiters share
      one, and a claim this handle has belongs to a waiter. */
  lemma WaitersHaveClaims(events: seq<Event>, t: nat, u: nat, fd: int)
    ensures var h := Run(Opened(), events);
            && (t in h.waiters ==> h.waiters[t].fd in h.reg
                                   && h.reg[h.waiters[t].fd].pending == h.waiters[t].generation != 0)
            && (t in h.waiters && u in h.waiters && t != u ==> h.waiters[t].fd != h.waiters[u].fd)
            && (fd in h.claims && h.claims[fd].Mine? ==>
                  h.claims[fd].ticket in h.waiters && h.waiters[h.claims[fd].ticket].fd == fd)
  {
    RunKeeps(Opened(), events);
  }
}
