/** With one worker tasks are dispatched in the order they were queued. */
module SchedulerOrder {
  import opened Common
  import opened GlobalQueue
  import opened Scheduler
  import opened SchedulerInvariant
  import opened SchedulerSteps
  import opened SchedulerWaits
  import opened SchedulerTheorems
  import opened SchedulerStops

  // -------------------------------------------------- one worker, first in first out

  /** The action hands the lone worker the task at the head of the queue. */
  predicate Dispatch(s: State, a: Action)
    requires |s.workers| == 1
  {
    a.TakeGlobal? && a.p == 0 && s.workers[0].phase.TryGlobal? && s.global != []
  }

  lemma QueuedIsEligible(s: State, t: TaskId, run: RunMap, wait: WaitMap)
    requires Inv(s, run, wait) && |s.workers| == 1 && t in s.global
    ensures t in s.tasks && t in Eligible(s, 0)
  {
    HeldBy(s.global, s.workers, 0, t, run);
    assert TaskOk(s, run, wait, t);
  }

  lemma DispatchTakesHead(s: State, room: nat, run: RunMap, wait: WaitMap)
    requires Inv(s, run, wait) && |s.workers| == 1 && Dispatch(s, TakeGlobal(0, room))
    ensures var s' := DoTakeGlobal(s, 0, room);
            s'.global == s.global[1..] && |s'.workers| == 1 && s'.workers[0].phase == Hand(s.global[0])
  {
    forall t | t in s.global
      ensures t in s.tasks && t in Eligible(s, 0)
    {
      QueuedIsEligible(s, t, run, wait);
    }
    TakeAloneIsFifo(s.global, Eligible(s, 0), Unstarted(s), room);
    HeadIsTaken(s, room);
  }

  lemma HeadIsTaken(s: State, room: nat)
    requires |s.workers| == 1 && s.workers[0].phase.TryGlobal? && s.global != [] && s.global[0] in s.tasks
    requires Take(s.global, Eligible(s, 0), Unstarted(s), false, room) == Taken(Some(s.global[0]), [], s.global[1..])
    ensures var s' := DoTakeGlobal(s, 0, room);
            s'.global == s.global[1..] && |s'.workers| == 1 && s'.workers[0].phase == Hand(s.global[0])
  {
  }

  predicate Longer(s: State, s': State)
  {
    |s'.workers| == |s.workers| && s.global <= s'.global
  }

  lemma {:induction false} CancelListKeepsQueue(s: State, list: seq<TaskId>)
    ensures CancelList(s, list).global == s.global
    decreases |list|
  {
    if list != [] {
      CancelListKeepsQueue(if list[0] in s.tasks then CancelOne(s, list[0]) else s, list[1..]);
    }
  }

  lemma SyncGrows(s: State, q: nat)
    ensures Longer(s, DoSyncWake(s, q))
  {
    var ws := Waiters(s, q);
    if ws != [] && ws[0] in s.tasks {
      WakeFrame(s.(syncs := s.syncs[q := ws[1..]]), ws[0]);
    }
  }

  lemma IoGrows(s: State, u: TaskId)
    ensures Longer(s, DoIoComplete(s, u))
  {
    if DoIoComplete(s, u) != s {
      WakeFrame(IoTaken(s, u), u);
    }
  }

  lemma BeginGrows(s: State, a: Action)
    requires |s.workers| == 1 && (a.CheckCancelled? || a.BeginExecute?)
    ensures Longer(s, DoDispatch(s, 0, a))
  {
  }

  lemma EmptyTakeGrows(s: State, room: nat)
    requires |s.workers| == 1 && (s.global == [] || !s.workers[0].phase.TryGlobal?)
    ensures Longer(s, DoTakeGlobal(s, 0, room))
  {
  }

  lemma RestGrows(s: State, a: Action)
    requires |s.workers| == 1 && (a.Root? || a.TimerFire? || a.IdleEnter?)
    ensures Longer(s, DoRest(s, 0, a))
  {
    match a {
      case Root(_, fits) => RootFrame(s, 0, fits);
      case TimerFire(_, t) => TimerFrame(s, 0, t);
      case IdleEnter(_) =>
    }
  }

  lemma AtGrows(s: State, a: Action)
    requires |s.workers| == 1 && (a.TakeGlobal? ==> a.p == 0 && !Dispatch(s, a))
    ensures Longer(s, DoAt(s, 0, a))
  {
    if a.Root? || a.TimerFire? || a.IdleEnter? {
      RestGrows(s, a);
    } else if a.CheckCancelled? || a.BeginExecute? {
      BeginGrows(s, a);
    } else if a.TakeGlobal? {
      EmptyTakeGrows(s, a.room);
    } else {
      PlainFrame(s, 0, a);
    }
  }

  lemma RuntimeGrows(s: State, a: Action)
    requires s.workers != [] && !OfWorker(a)
    ensures Longer(s, DoRuntime(s, a))
  {
    match a {
      case RunStart =>
      case RequestShutdown =>
      case Spawn(_, _) =>
      case FinishRun =>
      case CancelAll => CancelListKeepsQueue(s, s.all);
      case SyncWake(q) => SyncGrows(s, q);
      case IoComplete(u) => IoGrows(s, u);
    }
  }

  lemma NoDispatchGrows(s: State, a: Action)
    requires |s.workers| == 1 && !Dispatch(s, a)
    ensures Longer(s, Do(s, a))
  {
    if !OfWorker(a) {
      RuntimeGrows(s, a);
    } else if a.p < |s.workers| {
      AtGrows(s, a);
    }
  }

  lemma DispatchIs(s: State, a: Action)
    requires |s.workers| == 1 && Dispatch(s, a)
    ensures Do(s, a) == DoTakeGlobal(s, 0, a.room)
  {
  }

  /** One step of the queue. */
  lemma FifoStep(s: State, a: Action, run: RunMap, wait: WaitMap)
    requires Inv(s, run, wait) && |s.workers| == 1
    ensures |Do(s, a).workers| == 1
    ensures s.global <= (if Dispatch(s, a) then [s.global[0]] else []) + Do(s, a).global
    ensures Dispatch(s, a) ==> Do(s, a).workers[0].phase == Hand(s.global[0])
  {
    if Dispatch(s, a) {
      DispatchTakesHead(s, a.room, run, wait);
      DispatchIs(s, a);
      assert s.global == [s.global[0]] + s.global[1..];
    } else {
      NoDispatchGrows(s, a);
    }
  }

  /** The tasks handed to the lone worker over a run, in order. */
  ghost function Dispatched(s: State, actions: seq<Action>): seq<TaskId>
    decreases |actions|
  {
    if actions == [] || |s.workers| != 1 then []
    else
      (if Dispatch(s, actions[0]) then [s.global[0]] else []) + Dispatched(Do(s, actions[0]), actions[1..])
  }

  /** Dispatch is first in, first out: over any run of one worker, the tasks
      handed out followed by the queue at the end begin with the queue at the
      start, so a task with k tasks ahead of it is exactly the one handed out
      after k others. */
  lemma {:induction false} OneWorkerIsFifo(s: State, actions: seq<Action>, last: State, run: RunMap, wait: WaitMap)
    requires Inv(s, run, wait) && |s.workers| == 1 && Reaches(s, actions, last)
    ensures s.global <= Dispatched(s, actions) + last.global
    decreases |actions|
  {
    if actions != [] {
      var a, s' := actions[0], Do(s, actions[0]);
      var run', wait' := StepKeeps(s, a, run, wait);
      FifoStep(s, a, run, wait);
      OneWorkerIsFifo(s', actions[1..], last, run', wait');
      Chain(s.global, if Dispatch(s, a) then [s.global[0]] else [], s'.global,
            Dispatched(s', actions[1..]), last.global);
    }
  }

  lemma Chain(g: seq<TaskId>, head: seq<TaskId>, g': seq<TaskId>, more: seq<TaskId>, last: seq<TaskId>)
    requires g <= head + g' && g' <= more + last
    ensures g <= (head + more) + last
  {
    assert (head + more) + last == head + (more + last);
  }
}
