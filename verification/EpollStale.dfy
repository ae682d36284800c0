/** Completions of the epoll backend are delivered as stale exactly when their
    descriptor was closed before. */
module EpollStale {
  import opened Common
  import opened Sockets
  import opened Uring
  import opened UringInvariant
  import opened UringSteps
  import opened Epoll

  /** A request that has not been delivered is outdated exactly if its descriptor was
      closed. */
  predicate RequestFresh(r: Request, t: nat, closed: set<nat>, reg: Registry, submissions: nat)
  {
    OnSocket(r) && t < submissions && FreshOk(r, t in closed, reg)
  }

  ghost predicate Fresh(h: Handle)
  {
    && Valid(h.reg) && (forall t :: t in h.closed ==> t < h.submissions)
    && (forall t {:trigger h.waiters[t]} :: t in h.waiters ==>
          RequestFresh(h.waiters[t], t, h.closed, h.reg, h.submissions))
    && (forall i {:trigger h.queued[i]} :: 0 <= i < |h.queued| ==>
          RequestFresh(h.queued[i].request, h.queued[i].ticket, h.closed, h.reg, h.submissions))
    && (h.hand.Some? ==> RequestFresh(h.hand.value.request, h.hand.value.ticket, h.closed, h.reg, h.submissions))
  }

  /** Completed with the result its own end gives it. */
  predicate Honest(c: Completion, ends: map<nat, Ending>)
  {
    c.ticket in ends && c.result == Reported(c.request, ends[c.ticket])
  }

  /** So delivered, or as stale if its descriptor was closed. */
  predicate ToldOk(d: Completion, closed: set<nat>, ends: map<nat, Ending>)
  {
    d.ticket in ends && d.result == if d.ticket in closed then -ESTALE else Reported(d.request, ends[d.ticket])
  }

  ghost predicate Told(h: Handle)
  {
    && (forall i {:trigger h.delivered[i]} :: 0 <= i < |h.delivered| ==> ToldOk(h.delivered[i], h.closed, h.ends))
    && (forall i {:trigger h.queued[i]} :: 0 <= i < |h.queued| ==> Honest(h.queued[i], h.ends))
    && (h.hand.Some? ==> Honest(h.hand.value, h.ends))
    && (forall t :: t in h.ends && h.ends[t].SeenStale? ==> t in h.closed)
  }

  ghost predicate NotIn(list: seq<Completion>, t: nat)
  {
    forall i {:trigger list[i]} :: 0 <= i < |list| ==> list[i].ticket != t
  }

  /** What has been delivered neither waits nor is queued nor in hand. */
  ghost predicate Apart(h: Handle)
  {
    forall i {:trigger h.delivered[i]} :: 0 <= i < |h.delivered| ==>
      && h.delivered[i].ticket !in h.waiters && NotIn(h.queued, h.delivered[i].ticket)
      && !Holds(h, h.delivered[i].ticket)
  }

  /** A ticket waits, is queued or is in hand, and is queued once. */
  ghost predicate Unique(h: Handle)
  {
    && (forall i {:trigger h.queued[i]} :: 0 <= i < |h.queued| ==> h.queued[i].ticket !in h.waiters)
    && (forall i, j :: 0 <= i < j < |h.queued| ==> h.queued[i].ticket != h.queued[j].ticket)
    && (h.hand.Some? ==> h.hand.value.ticket !in h.waiters && NotIn(h.queued, h.hand.value.ticket))
  }

  // ------------------------------------------------------------------- counting

  lemma {:induction false} NotThere(list: seq<Completion>, t: nat)
    ensures Times(list, t) == 0 <==> NotIn(list, t)
    decreases |list|
  {
    if list != [] {
      NotThere(list[1..], t);
      assert forall i :: 0 <= i < |list| - 1 ==> list[1..][i] == list[i + 1];
      assert list == [list[0]] + list[1..];
    }
  }

  lemma AccountedApart(h: Handle)
    requires Accounted(h)
    ensures Apart(h)
  {
    forall i | 0 <= i < |h.delivered|
      ensures h.delivered[i].ticket !in h.waiters && NotIn(h.queued, h.delivered[i].ticket)
      ensures !Holds(h, h.delivered[i].ticket)
    {
      var t := h.delivered[i].ticket;
      NotThere(h.delivered, t);
      NotThere(h.queued, t);
      assert Places(h, t) == Once(t < h.submissions);
    }
  }

  lemma {:induction false} TimesSplit(list: seq<Completion>, i: nat, t: nat)
    requires i <= |list|
    ensures Times(list, t) == Times(list[..i], t) + Times(list[i..], t)
    decreases |list|
  {
    if i > 0 {
      TimesSplit(list[1..], i - 1, t);
      assert list[1..][..i - 1] == list[..i][1..] && list[1..][i - 1..] == list[i..];
    } else {
      assert list[..i] == [] && list[i..] == list;
    }
  }

  lemma AccountedUnique(h: Handle)
    requires Accounted(h)
    ensures Unique(h)
  {
    forall i | 0 <= i < |h.queued|
      ensures h.queued[i].ticket !in h.waiters
      ensures forall j :: 0 <= j < i ==> h.queued[j].ticket != h.queued[i].ticket
    {
      var t := h.queued[i].ticket;
      TimesSplit(h.queued, i, t);
      assert h.queued[i..][0].ticket == t;
      assert Places(h, t) == Once(t < h.submissions);
      NotThere(h.queued[..i], t);
      assert forall j :: 0 <= j < i ==> h.queued[..i][j] == h.queued[j];
    }
    if h.hand.Some? {
      HandApart(h);
    }
  }

  lemma HandApart(h: Handle)
    requires Accounted(h) && h.hand.Some?
    ensures var t := h.hand.value.ticket;
            t !in h.waiters && NotIn(h.queued, t) && NotIn(h.delivered, t)
  {
    var t := h.hand.value.ticket;
    NotThere(h.delivered, t);
    NotThere(h.queued, t);
    assert Places(h, t) == Once(t < h.submissions);
  }

  // ------------------------------------------------------------------------ steps

  lemma RegistryFresh(h: Handle, a: Action, claims: map<int, Claimant>)
    requires Fresh(h) && !a.DoClose?
    ensures Fresh(h.(reg := Sockets.Do(h.reg, a), claims := claims))
  {
    StepValid(h.reg, a);
    forall t | t in h.waiters
      ensures FreshOk(h.waiters[t], t in h.closed, Sockets.Do(h.reg, a))
    {
      FreshKept(h.waiters[t], t in h.closed, h.reg, a);
    }
    forall i | 0 <= i < |h.queued|
      ensures FreshOk(h.queued[i].request, h.queued[i].ticket in h.closed, Sockets.Do(h.reg, a))
    {
      FreshKept(h.queued[i].request, h.queued[i].ticket in h.closed, h.reg, a);
    }
    if h.hand.Some? {
      FreshKept(h.hand.value.request, h.hand.value.ticket in h.closed, h.reg, a);
    }
  }

  lemma CloseFresh(h: Handle, fd: int, shut: bool)
    requires Fresh(h) && Unique(h)
    ensures Fresh(CloseSocket(h, fd, shut))
  {
    if Close(h.reg, fd, shut).1.Ok? {
      var h' := CloseSocket(h, fd, shut);
      StepValid(h.reg, DoClose(fd, shut));
      forall t | t in h.waiters
        ensures RequestFresh(h.waiters[t], t, h'.closed, h'.reg, h.submissions)
      {
        WaiterTouched(h, t, fd);
        MarkedFresh(h, h.waiters[t], t, fd);
      }
      forall i | 0 <= i < |h.queued|
        ensures RequestFresh(h.queued[i].request, h.queued[i].ticket, h'.closed, h'.reg, h.submissions)
      {
        QueuedTouched(h, i, fd);
        MarkedFresh(h, h.queued[i].request, h.queued[i].ticket, fd);
      }
      if h.hand.Some? {
        HandTouched(h, fd);
        MarkedFresh(h, h.hand.value.request, h.hand.value.ticket, fd);
      }
    }
  }

  lemma WaiterTouched(h: Handle, t: nat, fd: int)
    requires Unique(h) && t in h.waiters
    ensures t in Touched(h, fd) <==> h.waiters[t].fd == fd
  {
  }

  lemma HandTouched(h: Handle, fd: int)
    requires Unique(h) && h.hand.Some?
    ensures h.hand.value.ticket in Touched(h, fd) <==> h.hand.value.request.fd == fd
  {
  }

  lemma QueuedTouched(h: Handle, i: nat, fd: int)
    requires Unique(h) && i < |h.queued|
    ensures h.queued[i].ticket in Touched(h, fd) <==> h.queued[i].request.fd == fd
  {
    var t := h.queued[i].ticket;
    assert t !in h.waiters;
    if t in Touched(h, fd) {
      var j :| 0 <= j < |h.queued| && h.queued[j].request.fd == fd && h.queued[j].ticket == t;
      assert j == i;
    }
  }

  /** The tickets a close touches are exactly those on the descriptor. */
  lemma MarkedFresh(h: Handle, r: Request, t: nat, fd: int)
    requires Valid(h.reg) && RequestFresh(r, t, h.closed, h.reg, h.submissions) && Close(h.reg, fd, true).1.Ok?
    requires t in Touched(h, fd) <==> r.fd == fd
    ensures RequestFresh(r, t, h.closed + Touched(h, fd), Close(h.reg, fd, true).0, h.submissions)
  {
    FreshMarked(r, t in h.closed, h.reg, fd);
  }

  lemma CloseTold(h: Handle, fd: int, shut: bool)
    requires Told(h) && Apart(h)
    ensures Told(CloseSocket(h, fd, shut))
  {
    var h' := CloseSocket(h, fd, shut);
    forall i | 0 <= i < |h.delivered|
      ensures ToldOk(h.delivered[i], h'.closed, h'.ends)
    {
      assert h.delivered[i].ticket !in Touched(h, fd);
    }
  }

  /** The completion c has left its place. */
  ghost predicate InTransit(h: Handle, c: Completion)
  {
    && Fresh(h) && Unique(h) && Told(h) && Apart(h)
    && RequestFresh(c.request, c.ticket, h.closed, h.reg, h.submissions) && Honest(c, h.ends)
    && c.ticket !in h.waiters && NotIn(h.queued, c.ticket) && NotIn(h.delivered, c.ticket) && h.hand.None?
  }

  lemma StaleIsClosed(r: Request, t: nat, closed: set<nat>, reg: Registry, submissions: nat)
    requires Valid(reg) && RequestFresh(r, t, closed, reg, submissions)
    ensures RequestIsStale(reg, r) <==> t in closed
  {
  }

  lemma GiveFresh(h: Handle, c: Completion, shut: bool)
    requires InTransit(h, c)
    ensures Fresh(Give(h, c, shut))
  {
    CloseFresh(h, c.result, shut);
    var h1, h' := CloseSocket(h, c.result, shut), Give(h, c, shut);
    assert h'.waiters == h.waiters && h'.queued == h.queued && h'.submissions == h.submissions && h'.hand == h.hand;
    assert (h'.reg == h.reg && h'.closed == h.closed) || (h'.reg == h1.reg && h'.closed == h1.closed);
  }

  lemma GiveTold(h: Handle, c: Completion, shut: bool)
    requires InTransit(h, c)
    ensures Told(Give(h, c, shut))
  {
    StaleIsClosed(c.request, c.ticket, h.closed, h.reg, h.submissions);
    CloseTold(h, c.result, shut);
    var h1, h' := CloseSocket(h, c.result, shut), Give(h, c, shut);
    assert c.ticket !in Touched(h, c.result);
    assert h'.closed == h.closed || h'.closed == h1.closed;
    forall i | 0 <= i < |h'.delivered|
      ensures ToldOk(h'.delivered[i], h'.closed, h'.ends)
    {
      if i < |h.delivered| {
        assert ToldOk(h.delivered[i], h.closed, h.ends) && ToldOk(h.delivered[i], h1.closed, h1.ends);
      }
    }
  }

  // ------------------------------------------------------------------------- events

  ghost predicate Faithful(h: Handle)
  {
    Fresh(h) && Told(h)
  }

  lemma SubmitFaithful(h: Handle, r: Request, memory: bool, added: bool)
    requires Faithful(h)
    ensures Faithful(DoSubmit(h, r, memory, added))
  {
    var h' := DoSubmit(h, r, memory, added);
    var h1 := h.(reg := Claim(h.reg, r.fd, r.generation).0, claims := h'.claims);
    RegistryFresh(h, DoClaim(r.fd, r.generation), h'.claims);
    RegistryFresh(h1, DoRelease(r.fd, r.generation), h'.claims);
    if h'.submissions > h.submissions {
      assert FreshOk(r, false, h'.reg);
      assert h.submissions !in h.closed;
    }
  }

  lemma LeaveFaithful(h: Handle, t: nat)
    requires Faithful(h) && t in h.waiters
    ensures Faithful(Leave(h, t))
  {
    RegistryFresh(h, DoRelease(h.waiters[t].fd, h.waiters[t].generation), h.claims - {h.waiters[t].fd});
  }

  lemma CancelFaithful(h: Handle, t: nat, memory: bool)
    requires Faithful(h) && Unique(h) && Apart(h)
    ensures Faithful(DoCancelWaiter(h, t, memory))
  {
    if t in h.waiters {
      LeaveFaithful(h, t);
      var r := h.waiters[t];
      FreshKept(r, t in h.closed, h.reg, DoRelease(r.fd, r.generation));
    }
  }

  lemma PollQueuedFaithful(h: Handle)
    requires Faithful(h)
    ensures Faithful(DoPollQueued(h))
  {
    if h.hand.None? && h.queued != [] {
      assert forall i :: 0 <= i < |h.queued| - 1 ==> h.queued[1..][i] == h.queued[i + 1];
    }
  }

  lemma TakeFaithful(h: Handle, t: nat, result: int, end: Ending)
    requires Faithful(h) && Unique(h) && Apart(h) && t in h.waiters && result == Reported(h.waiters[t], end)
    requires end.SeenStale? ==> t in h.closed
    ensures Faithful(Take(h, t, result, end))
  {
    var r := h.waiters[t];
    LeaveFaithful(h, t);
    FreshKept(r, t in h.closed, h.reg, DoRelease(r.fd, r.generation));
  }

  lemma AcceptFaithful(h: Handle, t: nat, fd: int, memory: bool)
    requires Faithful(h) && Unique(h) && Apart(h) && t in h.waiters && h.waiters[t].kind.Accept? && fd >= 0
    ensures var (reg, status) := Track(h.reg, fd, memory);
            Faithful(Take(h.(reg := reg), t, if status.Ok? then fd else -EMFILE, Answered(fd, status.Ok?)))
  {
    var (reg, status) := Track(h.reg, fd, memory);
    RegistryFresh(h, DoTrack(fd, memory), h.claims);
    TakeFaithful(h.(reg := reg), t, if status.Ok? then fd else -EMFILE, Answered(fd, status.Ok?));
  }

  lemma PollFaithful(h: Handle, e: Event)
    requires Faithful(h) && Unique(h) && Apart(h) && (e.PollStale? || e.PollReady?)
    ensures Faithful(Epoll.Next(h, e))
  {
    if h.hand.None? && h.queued == [] && e.ticket in h.waiters {
      if RequestIsStale(h.reg, h.waiters[e.ticket]) {
        StaleIsClosed(h.waiters[e.ticket], e.ticket, h.closed, h.reg, h.submissions);
        TakeFaithful(h, e.ticket, -ESTALE, SeenStale);
      }
      if e.PollReady? && e.answer.Did? {
        var result := e.answer.result;
        if h.waiters[e.ticket].kind.Accept? && result >= 0 {
          AcceptFaithful(h, e.ticket, result, e.memory);
        } else {
          TakeFaithful(h, e.ticket, result, Answered(result, false));
        }
      }
    }
  }

  lemma DeliverFaithful(h: Handle, shut: bool)
    requires Faithful(h) && Accounted(h) && Unique(h) && Apart(h)
    ensures Faithful(Epoll.DoDeliver(h, shut))
  {
    if h.hand.Some? {
      var h1, c := h.(hand := None), h.hand.value;
      HandApart(h);
      assert InTransit(h1, c);
      GiveFresh(h1, c, shut);
      GiveTold(h1, c, shut);
    }
  }

  lemma ElseFaithful(h: Handle, e: Event)
    requires Faithful(h) && (e.ElseTracks? || e.ElseClaims? || e.ElseReleases?)
    ensures Faithful(Epoll.Next(h, e))
  {
    match e {
      case ElseTracks(fd, memory) => RegistryFresh(h, DoTrack(fd, memory), h.claims);
      case ElseClaims(fd, generation) => RegistryFresh(h, DoClaim(fd, generation), Epoll.Next(h, e).claims);
      case ElseReleases(fd) =>
        if fd in h.reg {
          RegistryFresh(h, DoRelease(fd, h.reg[fd].pending), h.claims - {fd});
        }
    }
  }

  lemma StepFaithful(h: Handle, e: Event)
    requires Faithful(h) && Accounted(h)
    ensures Faithful(Epoll.Next(h, e))
  {
    AccountedApart(h);
    AccountedUnique(h);
    match e {
      case SubmitRequest(r, memory, added) => SubmitFaithful(h, r, memory, added);
      case CancelWaiter(t, memory) => CancelFaithful(h, t, memory);
      case PollQueued => PollQueuedFaithful(h);
      case PollStale(_) => PollFaithful(h, e);
      case PollReady(_, _, _, _) => PollFaithful(h, e);
      case Deliver(shut) => DeliverFaithful(h, shut);
      case ElseCloses(fd, shut) =>
        CloseFresh(h, fd, shut);
        CloseTold(h, fd, shut);
      case _ => ElseFaithful(h, e);
    }
  }

  lemma {:induction false} RunFaithful(h: Handle, events: seq<Event>)
    requires Faithful(h) && Accounted(h)
    ensures Faithful(Epoll.Run(h, events)) && Accounted(Epoll.Run(h, events))
    decreases |events|
  {
    if events != [] {
      StepFaithful(h, events[0]);
      StepAccounts(h, events[0]);
      RunFaithful(Epoll.Next(h, events[0]), events[1..]);
    }
  }

  // ----------------------------------------------------------------------- theorems

  /** In every run a submission that has not been delivered is stale if and only if its
      descriptor was closed since. */
  lemma StaleIffClosed(events: seq<Event>, t: nat, i: nat)
    ensures var h := Epoll.Run(Opened(), events);
            && (t in h.waiters ==> (RequestIsStale(h.reg, h.waiters[t]) <==> t in h.closed))
            && (i < |h.queued| ==> (RequestIsStale(h.reg, h.queued[i].request) <==> h.queued[i].ticket in h.closed))
            && (h.hand.Some? ==> (RequestIsStale(h.reg, h.hand.value.request) <==> h.hand.value.ticket in h.closed))
  {
    var h := Epoll.Run(Opened(), events);
    RunFaithful(Opened(), events);
    if t in h.waiters {
      StaleIsClosed(h.waiters[t], t, h.closed, h.reg, h.submissions);
    }
    if i < |h.queued| {
      StaleIsClosed(h.queued[i].request, h.queued[i].ticket, h.closed, h.reg, h.submissions);
    }
    if h.hand.Some? {
      StaleIsClosed(h.hand.value.request, h.hand.value.ticket, h.closed, h.reg, h.submissions);
    }
  }

  /** In every run what is delivered is what the submission's own end gave it: the answer
      of the system call, or that it was cancelled.  If, and only if, its descriptor was
      closed before the delivery, the stale error is delivered instead. */
  lemma DeliveredFaithfully(events: seq<Event>, i: nat)
    requires i < |Epoll.Run(Opened(), events).delivered|
    ensures var h := Epoll.Run(Opened(), events);
            var d := h.delivered[i];
            && d.ticket in h.ends && (h.ends[d.ticket].SeenStale? ==> d.ticket in h.closed)
            && d.result == if d.ticket in h.closed then -ESTALE else Reported(d.request, h.ends[d.ticket])
  {
    RunFaithful(Opened(), events);
  }

  /** Nothing takes a ticket back out. */
  lemma ClosedStays(h: Handle, e: Event)
    ensures h.closed <= Epoll.Next(h, e).closed
  {
  }

  lemma {:induction false} ClosedForever(h: Handle, events: seq<Event>)
    ensures h.closed <= Epoll.Run(h, events).closed
    decreases |events|
  {
    if events != [] {
      ClosedStays(h, events[0]);
      ClosedForever(Epoll.Next(h, events[0]), events[1..]);
    }
  }

  lemma {:induction false} RunThen(h: Handle, first: seq<Event>, second: seq<Event>)
    ensures Epoll.Run(h, first + second) == Epoll.Run(Epoll.Run(h, first), second)
    decreases |first|
  {
    if first == [] {
      assert first + second == second;
    } else {
      RunThen(Epoll.Next(h, first[0]), first[1..], second);
      assert (first + second)[1..] == first[1..] + second;
    }
  }

  /** A request whose descriptor is closed while it waits, or while its completion is
      queued or about to be judged, is never completed as a success of whatever reuses the number: however the
      run goes on, it can only be delivered as stale. */
  lemma ClosedEndsStale(before: seq<Event>, fd: int, t: nat, after: seq<Event>, i: nat)
    requires t in Touched(Epoll.Run(Opened(), before), fd) && Close(Epoll.Run(Opened(), before).reg, fd, true).1.Ok?
    requires var last := Epoll.Run(Opened(), before + ([ElseCloses(fd, true)] + after));
             i < |last.delivered| && last.delivered[i].ticket == t
    ensures Epoll.Run(Opened(), before + ([ElseCloses(fd, true)] + after)).delivered[i].result == -ESTALE
  {
    var h := Epoll.Run(Opened(), before);
    var rest := [ElseCloses(fd, true)] + after;
    RunThen(Opened(), before, rest);
    assert rest[1..] == after;
    assert t in Epoll.Next(h, ElseCloses(fd, true)).closed;
    ClosedForever(Epoll.Next(h, ElseCloses(fd, true)), after);
    DeliveredFaithfully(before + rest, i);
  }
}
