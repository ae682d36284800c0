/** The order of the queues: what joins a queue joins at its end, and who leaves is the one
    whose turn it is. */
module SchedulerQueues {
  import opened Common
  import opened GlobalQueue
  import opened Scheduler
  import opened SchedulerInvariant
  import opened SchedulerWaits
  import opened SchedulerExecution
  import opened SchedulerTheorems
  import opened SchedulerJoins
  import opened SchedulerStops

  // ------------------------------------------------------------- the global queue

  lemma SyncGrows(s: State, q: nat)
    ensures s.global <= DoSyncWake(s, q).global
  {
    var ws := Waiters(s, q);
    if ws != [] && ws[0] in s.tasks {
      WakeFrame(s.(syncs := s.syncs[q := ws[1..]]), ws[0]);
    }
  }

  lemma IoGrows(s: State, t: TaskId)
    ensures s.global <= DoIoComplete(s, t).global
  {
    if t in s.tasks && s.ioWaiting != 0 {
      WakeFrame(IoTaken(s, t), t);
    }
  }

  lemma {:induction false} CancelKeepsGlobal(s: State, list: seq<TaskId>)
    ensures CancelList(s, list).global == s.global
    decreases |list|
  {
    if list != [] {
      CancelKeepsGlobal(if list[0] in s.tasks then CancelOne(s, list[0]) else s, list[1..]);
    }
  }

  lemma AtGrows(s: State, p: nat, a: Action)
    requires p < |s.workers| && !a.TakeGlobal?
    ensures s.global <= DoAt(s, p, a).global
  {
    match a {
      case Root(_, fits) => RootFrame(s, p, fits);
      case TimerFire(_, t) => TimerFrame(s, p, t);
      case CheckCancelled(_) =>
      case BeginExecute(_) =>
      case IdleEnter(_) =>
      case _ => PlainFrame(s, p, a);
    }
  }

  /** Only a worker's scan takes tasks from the global queue; everything else adds at its
      end, so that no task is overtaken there. */
  lemma GlobalGrowsAtEnd(s: State, a: Action)
    requires !a.TakeGlobal?
    ensures s.global <= Do(s, a).global
  {
    if s.workers != [] {
      if OfWorker(a) {
        if a.p < |s.workers| {
          AtGrows(s, a.p, a);
        }
      } else {
        match a {
          case SyncWake(q) => SyncGrows(s, q);
          case IoComplete(t) => IoGrows(s, t);
          case CancelAll => CancelKeepsGlobal(s, s.all);
          case _ =>
        }
      }
    }
  }

  lemma RequeuedIs(s: State, p: nat, fits: bool)
    requires p < |s.workers| && s.workers[p].phase.Returned? && s.workers[p].phase.task in s.tasks
    requires s.workers[p].phase.outcome.FiberSuspended?
    requires var task := s.tasks[s.workers[p].phase.task];
             && task.fiber.Some? && !task.queued
             && (task.state.Runnable? || (task.wakePending && (task.state.Waiting? || task.state.Sleeping?)))
             && (task.state.Runnable? ==> !task.wakePending)
    ensures var t, s' := s.workers[p].phase.task, DoRoot(s, p, fits);
            && s'.global == s.global + [t] && t in s'.tasks && s'.tasks[t].state.Runnable? && s'.tasks[t].queued
            && s'.workers == s.workers[p := s.workers[p].(phase := LoopTop)]
  {
    RootIs(s, p, fits);
    RootRequeueIs(s, p, fits);
  }

  /** A task that comes back runnable, or with a wake pending, goes to the end of the global
      queue, never to a deque: it has a fiber. */
  lemma RequeueGoesGlobal(workers: nat, s: State, p: nat, fits: bool)
    requires Reachable(workers, s) && p < |s.workers|
    requires s.workers[p].phase.Returned? && s.workers[p].phase.outcome.FiberSuspended?
    requires s.workers[p].phase.task in s.tasks
    requires var task := s.tasks[s.workers[p].phase.task];
             task.state.Runnable? || task.wakePending
    ensures var t, s' := s.workers[p].phase.task, DoRoot(s, p, fits);
            && s'.global == s.global + [t] && t in s'.tasks && s'.tasks[t].state.Runnable? && s'.tasks[t].queued
            && s'.workers == s.workers[p := s.workers[p].(phase := LoopTop)]
  {
    var run, wait := ReachableInv(workers, s);
    ReturnedIs(s, p, run, wait);
    RequeuedIs(s, p, fits);
  }

  // ------------------------------------------------------------------ the deques

  predicate PopsBack(before: seq<TaskId>, after: seq<TaskId>, phase: Phase)
  {
    phase.Popped? && before == after + [phase.task]
  }

  predicate TakesFront(before: seq<TaskId>, after: seq<TaskId>, thief: Phase)
  {
    thief.Stealing? && thief.batch != [] && before == [thief.batch[|thief.batch| - 1]] + after
  }

  /** What an action may do to the deque of worker q: its owner adds at the back and takes
      from the back, another worker takes from the front. */
  predicate DequeMoves(s: State, s': State, a: Action, q: nat)
    requires q < |s.workers| == |s'.workers|
  {
    var before, after := s.workers[q].local, s'.workers[q].local;
    || after == before
    || (a.PopLocal? && a.p == q && PopsBack(before, after, s'.workers[q].phase))
    || ((a.TakeGlobal? || a.StealDone? || a.Root?) && a.p == q && before <= after)
    || (a.StealOne? && a.victim == q && a.p != q && a.p < |s'.workers|
        && TakesFront(before, after, s'.workers[a.p].phase))
  }

  lemma PopMoves(s: State, p: nat, q: nat)
    requires p < |s.workers| && q < |s.workers|
    ensures DequeMoves(s, DoPopLocal(s, p), PopLocal(p), q)
  {
  }

  lemma StealMoves(s: State, p: nat, victim: nat, q: nat)
    requires p < |s.workers| && q < |s.workers|
    ensures |DoStealOne(s, p, victim).workers| == |s.workers|
    ensures DequeMoves(s, DoStealOne(s, p, victim), StealOne(p, victim), q)
  {
    if DoStealOne(s, p, victim) != s && q == victim {
      var local := s.workers[victim].local;
      assert local == [local[0]] + local[1..];
    }
  }

  lemma TakeMoves(s: State, p: nat, room: nat, q: nat)
    requires p < |s.workers| && q < |s.workers|
    ensures |DoTakeGlobal(s, p, room).workers| == |s.workers|
    ensures DequeMoves(s, DoTakeGlobal(s, p, room), TakeGlobal(p, room), q)
  {
  }

  lemma ShareMoves(s: State, p: nat, fits: set<TaskId>, q: nat)
    requires p < |s.workers| && q < |s.workers|
    ensures DequeMoves(s, DoStealDone(s, p, fits), StealDone(p, fits), q)
  {
  }

  predicate SameDeques(s: State, s': State)
  {
    |s'.workers| == |s.workers| && forall q :: 0 <= q < |s.workers| ==> s'.workers[q].local == s.workers[q].local
  }

  lemma WakeDeques(s: State, t: TaskId)
    requires t in s.tasks
    ensures Wake(s, t).workers == s.workers
  {
  }

  lemma ScanDeques(s: State, p: nat, a: Action)
    requires p < |s.workers| && Scans(a) && !a.PopLocal?
    ensures SameDeques(s, DoScan(s, p, a))
  {
  }

  lemma DispatchDeques(s: State, p: nat, a: Action)
    requires p < |s.workers| && Dispatches(a)
    ensures SameDeques(s, DoDispatch(s, p, a))
  {
    match a {
      case BeginExecute(_) => BeginDeques(s, p);
      case CheckCancelled(_) => CheckDeques(s, p);
      case Resume(_, ok) => ResumeDeques(s, p, ok);
      case Suspend(_) => CheckDeques(s, p);
    }
  }

  lemma BeginDeques(s: State, p: nat)
    requires p < |s.workers|
    ensures SameDeques(s, DoBeginExecute(s, p))
  {
  }

  lemma CheckDeques(s: State, p: nat)
    requires p < |s.workers|
    ensures SameDeques(s, DoCheckCancelled(s, p)) && SameDeques(s, DoSuspend(s, p))
  {
  }

  lemma ResumeDeques(s: State, p: nat, ok: bool)
    requires p < |s.workers|
    ensures SameDeques(s, DoResume(s, p, ok))
  {
  }

  lemma ActDeques(s: State, p: nat, t: TaskId, a: Action)
    requires p < |s.workers| && t in s.tasks
    ensures SameDeques(s, DoAct(s, p, t, a))
  {
  }

  lemma IdleDeques(s: State, p: nat)
    requires p < |s.workers|
    ensures SameDeques(s, DoIdleEnter(s, p))
  {
  }

  lemma LeaveDeques(s: State, p: nat)
    requires p < |s.workers|
    ensures SameDeques(s, DoIdleLeave(s, p))
  {
  }

  lemma TimerDeques(s: State, p: nat, t: TaskId)
    requires p < |s.workers|
    ensures SameDeques(s, DoTimerFire(s, p, t))
  {
    TimerFrame(s, p, t);
  }

  /** Settling a task adds to no deque but its own worker's, and there at the back. */
  lemma SettleDeques(s: State, p: nat, t: TaskId, outcome: Outcome, fits: bool, q: nat)
    requires p < |s.workers| && t in s.tasks && q < |s.workers|
    ensures var s' := Settle(s, p, t, outcome, fits);
            && |s'.workers| == |s.workers| && s.workers[q].local <= s'.workers[q].local
            && (q != p ==> s'.workers[q].local == s.workers[q].local)
  {
    if outcome.FiberDone? {
      WakeJoinersFrame(WithTask(s, t, s.tasks[t].(state := Done, fiber := None)), t);
    }
  }

  lemma RootMoves(s: State, p: nat, fits: bool, q: nat)
    requires p < |s.workers| && q < |s.workers|
    ensures |DoRoot(s, p, fits).workers| == |s.workers| && DequeMoves(s, DoRoot(s, p, fits), Root(p, fits), q)
  {
    var phase := s.workers[p].phase;
    if phase.Returned? && phase.task in s.tasks {
      RootIs(s, p, fits);
      SettleDeques(AtRoot(s, p, phase.task, s.tasks[phase.task].(executing := false)), p, phase.task, phase.outcome,
                   fits, q);
    }
  }

  lemma RestMoves(s: State, p: nat, a: Action, q: nat)
    requires p < |s.workers| && q < |s.workers| && Rests(a) && a.p == p
    ensures |DoRest(s, p, a).workers| == |s.workers| && DequeMoves(s, DoRest(s, p, a), a, q)
  {
    match a {
      case Root(_, fits) => RootMoves(s, p, fits, q);
      case TimerFire(_, t) => TimerDeques(s, p, t);
      case IdleEnter(_) => IdleDeques(s, p);
      case IdleLeave(_) => LeaveDeques(s, p);
    }
  }

  lemma TakesMove(s: State, p: nat, a: Action, q: nat)
    requires p < |s.workers| && q < |s.workers| && Takes(a) && a.p == p
    ensures |DoTake(s, p, a).workers| == |s.workers| && DequeMoves(s, DoTake(s, p, a), a, q)
  {
    match a {
      case TakeGlobal(_, room) => TakeMoves(s, p, room, q);
      case StealOne(_, victim) => StealMoves(s, p, victim, q);
      case StealDone(_, fits) => ShareMoves(s, p, fits, q);
    }
  }

  lemma AtMoves(s: State, p: nat, a: Action, q: nat)
    requires p < |s.workers| && q < |s.workers| && OfWorker(a) && a.p == p
    ensures |DoAt(s, p, a).workers| == |s.workers| && DequeMoves(s, DoAt(s, p, a), a, q)
  {
    if a.PopLocal? {
      PopMoves(s, p, q);
    } else if Scans(a) {
      ScanDeques(s, p, a);
    } else if Takes(a) {
      TakesMove(s, p, a, q);
    } else if Dispatches(a) {
      DispatchDeques(s, p, a);
    } else if Rests(a) {
      RestMoves(s, p, a, q);
    } else if Acting(s, p).Some? {
      ActDeques(s, p, Acting(s, p).value, a);
    }
  }

  lemma EventDeques(s: State, a: Action)
    requires s.workers != [] && !OfWorker(a)
    ensures SameDeques(s, DoRuntime(s, a))
  {
    match a {
      case SyncWake(q) =>
        var ws := Waiters(s, q);
        if ws != [] && ws[0] in s.tasks {
          WakeDeques(s.(syncs := s.syncs[q := ws[1..]]), ws[0]);
        }
      case IoComplete(t) =>
        if t in s.tasks && s.ioWaiting != 0 {
          WakeDeques(IoTaken(s, t), t);
        }
      case CancelAll =>
      case RunStart =>
      case FinishRun =>
      case RequestShutdown =>
      case Spawn(_, _) =>
    }
  }

  /** Every deque is used as the lock-free queue allows: its owner works at the back, the
      others take from the front, and nothing else touches it. */
  lemma DequesAreQueues(s: State, a: Action, q: nat)
    requires q < |s.workers|
    ensures |Do(s, a).workers| == |s.workers| && DequeMoves(s, Do(s, a), a, q)
  {
    if !OfWorker(a) {
      EventDeques(s, a);
    } else if a.p < |s.workers| {
      AtMoves(s, a.p, a, q);
    }
  }

  /** The thief keeps the oldest task it took; the others follow in order, to its deque or,
      refused there, to the end of the global queue. */
  lemma StealShares(s: State, p: nat, fits: set<TaskId>)
    requires p < |s.workers| && s.workers[p].phase.Stealing? && s.workers[p].phase.batch != []
    ensures var s', batch := DoStealDone(s, p, fits), s.workers[p].phase.batch;
            && s'.workers[p].phase == Popped(batch[0])
            && s'.workers[p].local == s.workers[p].local + Filter(batch[1..], fits)
            && s'.global == s.global + Filter(batch[1..], (set t | t in batch) - fits)
            && forall q :: 0 <= q < |s.workers| && q != p ==> s'.workers[q] == s.workers[q]
  {
    var rest := s.workers[p].phase.batch[1..];
    SameFilter(rest, set t | t in rest && t !in fits, (set t | t in s.workers[p].phase.batch) - fits);
  }

  lemma {:induction false} SameFilter(q: seq<TaskId>, a: set<TaskId>, b: set<TaskId>)
    requires forall t :: t in q ==> (t in a <==> t in b)
    ensures Filter(q, a) == Filter(q, b)
  {
    if q != [] {
      SameFilter(q[1..], a, b);
    }
  }

  // ----------------------------------------------------------------------- wakes

  /** The tasks of the list that a wake queues at once: parked, and off their thread. */
  function Sleepers(tasks: map<TaskId, Task>): set<TaskId>
  {
    set t | t in tasks && (tasks[t].state.Waiting? || tasks[t].state.Sleeping?) && !tasks[t].executing
  }

  lemma WakeQueues(s: State, t: TaskId)
    requires t in s.tasks && (t in Sleepers(s.tasks) ==> !s.tasks[t].queued)
    ensures Wake(s, t).global == s.global + (if t in Sleepers(s.tasks) then [t] else [])
  {
  }

  /** A wait queue is served from its front: the oldest waiter is queued to run, or has its
      wake pending while it still has its thread; the others wait on. */
  lemma OldestIsWoken(workers: nat, s: State, q: nat)
    requires Reachable(workers, s) && Waiters(s, q) != []
    ensures var s', t := DoSyncWake(s, q), Waiters(s, q)[0];
            && Waiters(s', q) == Waiters(s, q)[1..] && t in s.tasks
            && s'.global == s.global + (if t in Sleepers(s.tasks) then [t] else [])
            && forall u :: u in s.tasks && u != t ==> u in s'.tasks && s'.tasks[u] == s.tasks[u]
  {
    var run, wait := ReachableInv(workers, s);
    var t := Waiters(s, q)[0];
    assert WaitCount(s, t, OnSync(q)) == multiset(Waiters(s, q))[t];
    assert TaskOk(s, run, wait, t);
    WakeQueues(s.(syncs := s.syncs[q := Waiters(s, q)[1..]]), t);
  }

  lemma FilterMore(t: TaskId, rest: seq<TaskId>, keep: set<TaskId>)
    ensures Filter([t] + rest, keep) == (if t in keep then [t] else []) + Filter(rest, keep)
  {
    assert ([t] + rest)[1..] == rest;
  }

  /** Nobody on the list of joiners is there twice, and those asleep are in no queue. */
  predicate JoinersOk(tasks: map<TaskId, Task>, u: TaskId)
    requires u in tasks
  {
    && (forall i, j :: 0 <= i < j < |tasks[u].waiters| ==> tasks[u].waiters[i] != tasks[u].waiters[j])
    && forall t :: t in tasks[u].waiters ==> t != u && t in tasks && (t in Sleepers(tasks) ==> !tasks[t].queued)
  }

  lemma JoinerStep(s: State, u: TaskId)
    requires u in s.tasks && s.tasks[u].waiters != [] && JoinersOk(s.tasks, u)
    ensures var s', list := WakeJoiner(s, u), s.tasks[u].waiters;
            && u in s'.tasks && s'.tasks[u].waiters == list[1..] && JoinersOk(s'.tasks, u)
            && s'.global == s.global + (if list[0] in Sleepers(s.tasks) then [list[0]] else [])
            && forall t :: t in list[1..] ==> (t in Sleepers(s'.tasks) <==> t in Sleepers(s.tasks))
  {
    var list := s.tasks[u].waiters;
    assert list[0] in list;
    JoinerTasks(s, u);
    JoinerLeft(s, u);
    WakeQueues(JoinerTaken(s, u), list[0]);
    forall t | t in list[1..]
      ensures t in list && t != list[0] && WakeJoiner(s, u).tasks[t] == s.tasks[t]
    {
    }
  }

  lemma Joined(a: seq<TaskId>, b: seq<TaskId>, c: seq<TaskId>)
    ensures (a + b) + c == a + (b + c)
  {
  }

  lemma {:induction false} JoinersInOrder(s: State, u: TaskId)
    requires u in s.tasks && JoinersOk(s.tasks, u)
    ensures WakeJoiners(s, u).global == s.global + Filter(s.tasks[u].waiters, Sleepers(s.tasks))
    decreases |s.tasks[u].waiters|
  {
    var list := s.tasks[u].waiters;
    if list != [] {
      var s1 := WakeJoiner(s, u);
      JoinerStep(s, u);
      JoinersInOrder(s1, u);
      SameFilter(list[1..], Sleepers(s1.tasks), Sleepers(s.tasks));
      assert [list[0]] + list[1..] == list;
      FilterMore(list[0], list[1..], Sleepers(s.tasks));
      Joined(s.global, if list[0] in Sleepers(s.tasks) then [list[0]] else [], Filter(list[1..], Sleepers(s.tasks)));
    }
  }

  lemma ListedOnce(s: State, u: TaskId, run: RunMap, wait: WaitMap)
    requires Inv(s, run, wait) && u in s.tasks && s.tasks[u].state.Running?
    ensures JoinersOk(s.tasks, u)
  {
    var list := s.tasks[u].waiters;
    forall t | t in list
      ensures multiset(list)[t] == 1 && t != u && t in s.tasks && (t in Sleepers(s.tasks) ==> !s.tasks[t].queued)
    {
      assert WaitCount(s, t, OnJoin(u)) == multiset(list)[t];
      assert TaskOk(s, run, wait, t) && TaskOk(s, run, wait, u);
    }
    forall i, j | 0 <= i < j < |list|
      ensures list[i] != list[j]
    {
      Twice(list, i, j);
    }
  }

  lemma Twice(list: seq<TaskId>, i: nat, j: nat)
    requires i < j < |list|
    ensures list[i] == list[j] ==> multiset(list)[list[i]] >= 2
  {
    assert list == list[..i] + [list[i]] + list[i + 1..j] + [list[j]] + list[j + 1..];
  }

  lemma RootQueuesJoiners(s: State, p: nat, fits: bool)
    requires p < |s.workers| && s.workers[p].phase.Returned? && s.workers[p].phase.outcome.FiberDone?
    requires s.workers[p].phase.task in s.tasks && JoinersOk(s.tasks, s.workers[p].phase.task)
    ensures var u := s.workers[p].phase.task;
            DoRoot(s, p, fits).global == s.global + Filter(s.tasks[u].waiters, Sleepers(s.tasks))
  {
    var u := s.workers[p].phase.task;
    RootIs(s, p, fits);
    var done := AtRoot(s, p, u, s.tasks[u].(executing := false, state := Done, fiber := None));
    assert JoinersOk(done.tasks, u);
    JoinersInOrder(done, u);
    SameFilter(s.tasks[u].waiters, Sleepers(done.tasks), Sleepers(s.tasks));
  }

  /** When a fiber returns, its joiners that have left their threads are queued in the order
      in which they joined, at the end of the global queue. */
  lemma JoinersQueueInOrder(workers: nat, s: State, p: nat, fits: bool)
    requires Reachable(workers, s) && p < |s.workers|
    requires s.workers[p].phase.Returned? && s.workers[p].phase.outcome.FiberDone?
    requires s.workers[p].phase.task in s.tasks
    ensures var u := s.workers[p].phase.task;
            DoRoot(s, p, fits).global == s.global + Filter(s.tasks[u].waiters, Sleepers(s.tasks))
  {
    var u := s.workers[p].phase.task;
    var run, wait := ReachableInv(workers, s);
    ReturnedIs(s, p, run, wait);
    ListedOnce(s, u, run, wait);
    RootQueuesJoiners(s, p, fits);
  }
}
