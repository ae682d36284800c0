/** Where the completions of the epoll backend come from: which submissions are accepted,
    what ends each of them, and what becomes of the connections they accept. */
module EpollCalls {
  import opened Common
  import opened Sockets
  import opened Uring
  import opened UringInvariant
  import opened UringSteps
  import opened Epoll
  import opened EpollStale

  // ---------------------------------------------------------------- submissions

  lemma GivenBack(reg: Registry, fd: int, generation: nat)
    requires Claimable(reg, fd, generation)
    ensures Release(Claim(reg, fd, generation).0, fd, generation) == reg
  {
    assert reg[fd].(pending := generation).(pending := 0) == reg[fd];
  }

  /** A submission is accepted exactly when the operation is one of a descriptor, neither
      its request nor its descriptor waits already, the descriptor is open in the
      request's generation and unclaimed, there is memory and the system agrees.  It then
      waits by the next ticket with its claim; otherwise nothing changes. */
  lemma SubmitAccepted(h: Handle, r: Request, memory: bool, added: bool)
    requires h.hand.None?
    ensures var h' := Epoll.Next(h, SubmitRequest(r, memory, added));
            if !r.kind.Timeout? && !Busy(h, r) && Claimable(h.reg, r.fd, r.generation) && memory && added
            then && h'.waiters == h.waiters[h.submissions := r] && h'.submissions == h.submissions + 1
                 && h'.reg == h.reg[r.fd := h.reg[r.fd].(pending := r.generation)]
                 && h'.queued == h.queued && h'.hand == h.hand && h'.delivered == h.delivered
            else h' == h
  {
    if Claimable(h.reg, r.fd, r.generation) {
      GivenBack(h.reg, r.fd, r.generation);
    }
  }

  // ----------------------------------------------------------------------- runs

  /** The handle before the k-th event. */
  function At(events: seq<Event>, k: nat): Handle
    requires k <= |events|
  {
    Epoll.Run(Opened(), events[..k])
  }

  lemma StepAt(events: seq<Event>, k: nat)
    requires k < |events|
    ensures At(events, k + 1) == Epoll.Next(At(events, k), events[k])
  {
    assert events[..k + 1] == events[..k] + [events[k]];
    RunThen(Opened(), events[..k], [events[k]]);
    assert [events[k]][1..] == [];
    assert Epoll.Run(At(events, k), [events[k]]) == Epoll.Run(Epoll.Next(At(events, k), events[k]), []);
  }

  /** Event i submitted the request by that ticket. */
  predicate Submits(events: seq<Event>, i: nat, t: nat, r: Request)
  {
    i < |events| && events[i] == SubmitRequest(r, true, true) && At(events, i).submissions == t
  }

  /** What event e, in state h, makes of the waiter t with request r. */
  predicate Completes(h: Handle, e: Event, c: Completion)
  {
    && c.ticket in h.waiters && h.waiters[c.ticket] == c.request
    && h.hand.None? && (h.queued == [] || e.CancelWaiter?)
    && match e
       case CancelWaiter(t, memory) => t == c.ticket && memory && c.result == -ECANCELED
       case PollStale(t) => t == c.ticket && RequestIsStale(h.reg, c.request) && c.result == -ESTALE
       case PollReady(t, seen, answer, memory) =>
         && t == c.ticket
         && if seen && RequestIsStale(h.reg, c.request) then c.result == -ESTALE
            else answer.Did? && c.result == Yields(h.reg, c.request, answer.result, memory)
       case _ => false
  }

  /** A connection that was accepted but cannot be tracked is one descriptor too many. */
  function Yields(reg: Registry, r: Request, result: int, memory: bool): int
  {
    if r.kind.Accept? && result >= 0 && !(Trackable(reg, result) && (result in reg || memory)) then -EMFILE
    else result
  }

  /** The completion is that of the request event i submitted, made by event j. */
  predicate Made(events: seq<Event>, i: nat, j: nat, c: Completion)
  {
    i < j < |events| && Submits(events, i, c.ticket, c.request) && Completes(At(events, j), events[j], c)
  }

  // ------------------------------------------------------------------ one event

  lemma StartsWaiting(h: Handle, e: Event, t: nat)
    requires t in Epoll.Next(h, e).waiters && (t !in h.waiters || h.waiters[t] != Epoll.Next(h, e).waiters[t])
    ensures e == SubmitRequest(Epoll.Next(h, e).waiters[t], true, true) && h.submissions == t
  {
  }

  lemma ComesToHand(h: Handle, e: Event)
    requires Epoll.Next(h, e).hand.Some? && Epoll.Next(h, e).hand != h.hand
    ensures var hand := Epoll.Next(h, e).hand;
            (h.queued != [] && hand == Some(h.queued[0])) || Completes(h, e, hand.value)
  {
  }

  lemma ComesToQueue(h: Handle, e: Event, k: nat)
    requires k < |Epoll.Next(h, e).queued|
    ensures var c := Epoll.Next(h, e).queued[k];
            c in h.queued || Completes(h, e, c)
  {
  }

  lemma ComesToCaller(h: Handle, e: Event, k: nat)
    requires k < |Epoll.Next(h, e).delivered| && k >= |h.delivered|
    ensures k == |h.delivered| && e.Deliver? && h.hand.Some?
    ensures var c := h.hand.value;
            Epoll.Next(h, e).delivered[k] == if RequestIsStale(h.reg, c.request) then c.(result := -ESTALE) else c
  {
  }

  lemma GoesOn(h: Handle, e: Event, k: nat)
    requires k < |h.delivered|
    ensures k < |Epoll.Next(h, e).delivered| && Epoll.Next(h, e).delivered[k] == h.delivered[k]
  {
  }

  // ----------------------------------------------------------------- whole runs

  lemma {:induction false} WasSubmitted(events: seq<Event>, n: nat, t: nat) returns (i: nat)
    requires n <= |events| && t in At(events, n).waiters
    ensures i < n && Submits(events, i, t, At(events, n).waiters[t])
    decreases n
  {
    if n == 0 {
      assert false;
    } else {
      StepAt(events, n - 1);
      var h, r := At(events, n - 1), At(events, n).waiters[t];
      if t in h.waiters && h.waiters[t] == r {
        i := WasSubmitted(events, n - 1, t);
      } else {
        StartsWaiting(h, events[n - 1], t);
        i := n - 1;
      }
    }
  }

  lemma {:induction false} QueuedWasMade(events: seq<Event>, n: nat, c: Completion) returns (i: nat, j: nat)
    requires n <= |events| && c in At(events, n).queued
    ensures j < n && Made(events, i, j, c)
    decreases n
  {
    if n == 0 {
      assert false;
    } else {
      StepAt(events, n - 1);
      var k :| 0 <= k < |At(events, n).queued| && At(events, n).queued[k] == c;
      ComesToQueue(At(events, n - 1), events[n - 1], k);
      if c in At(events, n - 1).queued {
        i, j := QueuedWasMade(events, n - 1, c);
      } else {
        i := WasSubmitted(events, n - 1, c.ticket);
        j := n - 1;
      }
    }
  }

  lemma {:induction false} HandWasMade(events: seq<Event>, n: nat) returns (i: nat, j: nat)
    requires n <= |events| && At(events, n).hand.Some?
    ensures j < n && Made(events, i, j, At(events, n).hand.value)
    decreases n
  {
    if n == 0 {
      assert false;
    } else {
      StepAt(events, n - 1);
      var h, c := At(events, n - 1), At(events, n).hand.value;
      if h.hand == Some(c) {
        i, j := HandWasMade(events, n - 1);
      } else {
        ComesToHand(h, events[n - 1]);
        if h.queued != [] && c == h.queued[0] {
          i, j := QueuedWasMade(events, n - 1, c);
        } else {
          i := WasSubmitted(events, n - 1, c.ticket);
          j := n - 1;
        }
      }
    }
  }

  /** Event r delivers completion c as the k-th: with its result, or as stale. */
  predicate Delivers(events: seq<Event>, r: nat, c: Completion, k: nat, d: Completion)
  {
    && r < |events| && events[r].Deliver? && |At(events, r).delivered| == k
    && d == if RequestIsStale(At(events, r).reg, c.request) then c.(result := -ESTALE) else c
  }

  lemma {:induction false} WasMade(events: seq<Event>, n: nat, k: nat)
    returns (i: nat, j: nat, r: nat, c: Completion)
    requires n <= |events| && k < |At(events, n).delivered|
    ensures j < r < n && Made(events, i, j, c) && Delivers(events, r, c, k, At(events, n).delivered[k])
    decreases n
  {
    if n == 0 {
      assert false;
    } else {
      StepAt(events, n - 1);
      var h := At(events, n - 1);
      if k < |h.delivered| {
        GoesOn(h, events[n - 1], k);
        i, j, r, c := WasMade(events, n - 1, k);
      } else {
        ComesToCaller(h, events[n - 1], k);
        i, j := HandWasMade(events, n - 1);
        r, c := n - 1, h.hand.value;
      }
    }
  }

  /** In every run each delivery is that of one submission the caller made.  The event that
      ended it is the caller's cancel, a poll that found its descriptor closed, or the
      system call's answer, and gave it its result; the stale error replaces the result if
      its descriptor was closed by the time of delivery. */
  lemma DeliveredForCause(events: seq<Event>, k: nat)
    requires k < |Epoll.Run(Opened(), events).delivered|
    ensures exists i: nat, j: nat, r: nat, c: Completion ::
              j < r && Made(events, i, j, c) && Delivers(events, r, c, k, Epoll.Run(Opened(), events).delivered[k])
  {
    assert events[..|events|] == events;
    var i, j, r, c := WasMade(events, |events|, k);
  }

  // ------------------------------------------------------ connections that came in

  /** The event closes the descriptor. */
  predicate Closes(h: Handle, e: Event, fd: int)
  {
    match e
    case ElseCloses(x, shut) => x == fd && Close(h.reg, fd, shut).1.Ok?
    case Deliver(shut) =>
      && h.hand.Some? && RequestIsStale(h.reg, h.hand.value.request) && h.hand.value.request.kind.Accept?
      && h.hand.value.result == fd && fd >= 0 && Close(h.reg, fd, shut).1.Ok?
    case _ => false
  }

  /** A connection on descriptor fd, as a request on it sees it. */
  function Connection(fd: int, generation: nat): Request
  {
    Request(0, Recv, fd, generation)
  }

  lemma TakenFresh(h: Handle, t: nat, r: Request)
    requires Valid(h.reg) && t in h.waiters && FreshOk(r, false, h.reg)
    ensures Valid(Leave(h, t).reg) && FreshOk(r, false, Leave(h, t).reg)
  {
    StepValid(h.reg, DoRelease(h.waiters[t].fd, h.waiters[t].generation));
    FreshKept(r, false, h.reg, DoRelease(h.waiters[t].fd, h.waiters[t].generation));
  }

  lemma SubmitFresh(h: Handle, s: Request, memory: bool, added: bool, r: Request)
    requires Valid(h.reg) && FreshOk(r, false, h.reg)
    ensures FreshOk(r, false, DoSubmit(h, s, memory, added).reg)
  {
    var reg := Claim(h.reg, s.fd, s.generation).0;
    StepValid(h.reg, DoClaim(s.fd, s.generation));
    FreshKept(r, false, h.reg, DoClaim(s.fd, s.generation));
    FreshKept(r, false, reg, DoRelease(s.fd, s.generation));
  }

  lemma ReadyFresh(h: Handle, e: Event, r: Request)
    requires Valid(h.reg) && FreshOk(r, false, h.reg) && e.PollReady?
    ensures FreshOk(r, false, Epoll.Next(h, e).reg)
  {
    if e.ticket in h.waiters {
      TakenFresh(h, e.ticket, r);
      if e.answer.Did? {
        StepValid(h.reg, DoTrack(e.answer.result, e.memory));
        FreshKept(r, false, h.reg, DoTrack(e.answer.result, e.memory));
        TakenFresh(h.(reg := Track(h.reg, e.answer.result, e.memory).0), e.ticket, r);
      }
    }
  }

  /** What is open stays open under every event that does not close it. */
  lemma StaysFresh(h: Handle, e: Event, r: Request)
    requires Valid(h.reg) && OnSocket(r) && FreshOk(r, false, h.reg) && !Closes(h, e, r.fd)
    ensures FreshOk(r, false, Epoll.Next(h, e).reg)
  {
    match e {
      case SubmitRequest(s, memory, added) => SubmitFresh(h, s, memory, added, r);
      case CancelWaiter(t, _) =>
        if t in h.waiters {
          TakenFresh(h, t, r);
        }
      case PollQueued =>
      case PollStale(t) =>
        if t in h.waiters {
          TakenFresh(h, t, r);
        }
      case PollReady(_, _, _, _) => ReadyFresh(h, e, r);
      case Deliver(shut) =>
        if h.hand.Some? && RequestIsStale(h.reg, h.hand.value.request) && h.hand.value.request.kind.Accept?
          && h.hand.value.result >= 0 {
          FreshKept(r, false, h.reg, DoClose(h.hand.value.result, shut));
        }
      case ElseTracks(fd, memory) => FreshKept(r, false, h.reg, DoTrack(fd, memory));
      case ElseCloses(fd, shut) => FreshKept(r, false, h.reg, DoClose(fd, shut));
      case ElseClaims(fd, generation) => FreshKept(r, false, h.reg, DoClaim(fd, generation));
      case ElseReleases(fd) =>
        if fd in h.reg {
          FreshKept(r, false, h.reg, DoRelease(fd, h.reg[fd].pending));
        }
    }
  }

  lemma ValidAt(events: seq<Event>, n: nat)
    requires n <= |events|
    ensures Valid(At(events, n).reg)
  {
    RunFaithful(Opened(), events[..n]);
  }

  predicate ClosedBetween(events: seq<Event>, from: nat, end: nat, fd: int)
    requires end <= |events|
  {
    exists k: nat :: from <= k < end && Closes(At(events, k), events[k], fd)
  }

  lemma {:induction false} OpenSince(events: seq<Event>, from: nat, end: nat, r: Request)
    requires from <= end <= |events| && OnSocket(r) && FreshOk(r, false, At(events, from).reg)
    requires !ClosedBetween(events, from, end, r.fd)
    ensures FreshOk(r, false, At(events, end).reg)
    decreases end
  {
    if from < end {
      OpenSince(events, from, end - 1, r);
      ValidAt(events, end - 1);
      StepAt(events, end - 1);
      StaysFresh(At(events, end - 1), events[end - 1], r);
    }
  }

  /** A poll that takes an accepted connection tracks it: its descriptor is open, one
      generation on.  Otherwise the answer is one descriptor too many, and the descriptor
      was open already, at its last generation, or new without memory. */
  lemma AcceptTracks(h: Handle, e: Event, c: Completion)
    requires e.PollReady? && Completes(h, e, c)
    requires c.request.kind.Accept? && !(e.seen && RequestIsStale(h.reg, c.request)) && e.answer.result >= 0
    ensures var h', fd := Epoll.Next(h, e), e.answer.result;
            && h'.hand == Some(c)
            && if c.result == fd then
                 && fd in h'.reg && h'.reg[fd].active && h'.reg[fd].generation == SlotOf(h.reg, fd).generation + 1
                 && !SlotOf(h.reg, fd).active
               else
                 && c.result == -EMFILE
                 && (SlotOf(h.reg, fd).active || SlotOf(h.reg, fd).generation == MAX_GENERATION
                     || (fd !in h.reg && !e.memory))
  {
  }

  /** The generation in which event j tracked the connection it accepted. */
  function Generation(events: seq<Event>, j: nat, fd: int): nat
    requires j < |events|
  {
    SlotOf(At(events, j + 1).reg, fd).generation
  }

  lemma MadeOpen(events: seq<Event>, j: nat, c: Completion)
    requires j < |events| && events[j].PollReady? && Completes(At(events, j), events[j], c)
    requires c.request.kind.Accept? && c.result >= 0
    ensures events[j].answer == Did(c.result)
    ensures FreshOk(Connection(c.result, Generation(events, j, c.result)), false, At(events, j + 1).reg)
  {
    StepAt(events, j);
    AcceptTracks(At(events, j), events[j], c);
    ValidAt(events, j + 1);
  }

  /** Event j accepted the descriptor, which is open as it was then unless it was closed. */
  ghost predicate OpenFrom(events: seq<Event>, j: nat, fd: int)
  {
    && j < |events| && events[j].PollReady? && events[j].answer == Did(fd)
    && (ClosedBetween(events, j + 1, |events|, fd)
        || !Stale(Epoll.Run(Opened(), events).reg, fd, Generation(events, j, fd)))
  }

  lemma StillOpen(events: seq<Event>, j: nat, c: Completion)
    requires j < |events| && events[j].PollReady? && Completes(At(events, j), events[j], c)
    requires c.request.kind.Accept? && c.result >= 0
    ensures OpenFrom(events, j, c.result)
  {
    MadeOpen(events, j, c);
    assert events[..|events|] == events;
    if !ClosedBetween(events, j + 1, |events|, c.result) {
      OpenSince(events, j + 1, |events|, Connection(c.result, Generation(events, j, c.result)));
    }
  }

  /** In every run: a descriptor delivered to the caller of an accept was tracked by the poll
      that accepted it and, unless it has been closed since, is still open in that very
      generation. */
  lemma AcceptedIsOpen(events: seq<Event>, k: nat)
    requires k < |Epoll.Run(Opened(), events).delivered|
    requires var d := Epoll.Run(Opened(), events).delivered[k];
             d.request.kind.Accept? && d.result >= 0
    ensures exists j: nat :: OpenFrom(events, j, Epoll.Run(Opened(), events).delivered[k].result)
  {
    assert events[..|events|] == events;
    var i, j, r, c := WasMade(events, |events|, k);
    StillOpen(events, j, c);
  }

  // ------------------------------------------------------------------------ order

  function Tickets(list: seq<Completion>): seq<nat>
  {
    seq(|list|, i requires 0 <= i < |list| => list[i].ticket)
  }

  /** The completions delivered, the one in hand and those queued, in order. */
  function Line(h: Handle): seq<nat>
  {
    Tickets(h.delivered) + (if h.hand.Some? then [h.hand.value.ticket] else []) + Tickets(h.queued)
  }

  lemma GiveLine(h: Handle, c: Completion, shut: bool)
    requires h.hand.None?
    ensures Line(Give(h, c, shut)) == Tickets(h.delivered) + [c.ticket] + Tickets(h.queued)
  {
    var h' := Give(h, c, shut);
    assert h'.queued == h.queued && h'.hand == h.hand && |h'.delivered| == |h.delivered| + 1;
    assert Tickets(h'.delivered) == Tickets(h.delivered) + [c.ticket];
  }

  lemma TakeLine(h: Handle, t: nat, result: int, end: Ending)
    requires t in h.waiters && h.hand.None? && h.queued == []
    ensures Line(Take(h, t, result, end)) == Line(h) + [t]
  {
  }

  lemma PollLine(h: Handle, e: Event)
    requires e.PollStale? || e.PollReady?
    ensures Line(h) <= Line(Epoll.Next(h, e))
  {
    if h.hand.None? && h.queued == [] && e.ticket in h.waiters {
      TakeLine(h, e.ticket, -ESTALE, SeenStale);
      if e.PollReady? && e.answer.Did? {
        var result := e.answer.result;
        if h.waiters[e.ticket].kind.Accept? && result >= 0 {
          var (reg, status) := Track(h.reg, result, e.memory);
          TakeLine(h.(reg := reg), e.ticket, if status.Ok? then result else -EMFILE, Answered(result, status.Ok?));
        } else {
          TakeLine(h, e.ticket, result, Answered(result, false));
        }
      }
    }
  }

  lemma CancelLine(h: Handle, t: nat, memory: bool)
    ensures Line(h) <= Line(DoCancelWaiter(h, t, memory))
  {
    var h' := DoCancelWaiter(h, t, memory);
    if h' != h {
      assert Tickets(h'.queued) == Tickets(h.queued) + [t];
      assert Line(h') == Line(h) + [t];
    }
  }

  lemma PollQueuedLine(h: Handle)
    ensures Line(DoPollQueued(h)) == Line(h)
  {
    if h.hand.None? && h.queued != [] {
      assert Tickets(h.queued) == [h.queued[0].ticket] + Tickets(h.queued[1..]);
    }
  }

  lemma StepLine(h: Handle, e: Event)
    ensures Line(h) <= Line(Epoll.Next(h, e))
  {
    match e {
      case SubmitRequest(_, _, _) =>
      case CancelWaiter(t, memory) => CancelLine(h, t, memory);
      case PollQueued => PollQueuedLine(h);
      case PollStale(_) => PollLine(h, e);
      case PollReady(_, _, _, _) => PollLine(h, e);
      case Deliver(shut) =>
        if h.hand.Some? {
          GiveLine(h.(hand := None), h.hand.value, shut);
        }
      case ElseTracks(_, _) =>
      case ElseCloses(_, _) =>
      case ElseClaims(_, _) =>
      case ElseReleases(_) =>
    }
  }

  /** In every run completions are delivered in the order in which they were made. */
  lemma {:induction false} DeliveredInOrder(h: Handle, events: seq<Event>)
    ensures Line(h) <= Line(Epoll.Run(h, events))
    decreases |events|
  {
    if events != [] {
      StepLine(h, events[0]);
      DeliveredInOrder(Epoll.Next(h, events[0]), events[1..]);
    }
  }
}
