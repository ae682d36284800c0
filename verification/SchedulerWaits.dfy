/** Entering and leaving the wait structures, and waking: the scheduler's
    invariant across parks and wake-ups. */
module SchedulerWaits {
  import opened Common
  import opened GlobalQueue
  import opened Scheduler
  import opened SchedulerInvariant
  import opened SchedulerSteps

  /** Moving task t, and no other, to the wait structure at. */
  lemma WaitMoved(s: State, s': State, wait: WaitMap, t: TaskId, at: WaitPlace)
    requires WaitPlaced(s, wait)
    requires forall u, place {:trigger WaitCount(s', u, place)} :: u != t ==>
               WaitCount(s', u, place) == WaitCount(s, u, place)
    requires forall place {:trigger WaitCount(s', t, place)} ::
               WaitCount(s', t, place) == Once(!place.NotWaiting? && place == at)
    ensures WaitPlaced(s', wait[t := at])
  {
    forall u, place
      ensures WaitCount(s', u, place)
           == Once(!place.NotWaiting? && u in wait[t := at] && wait[t := at][u] == place)
    {
      assert WaitCount(s, u, place) == Once(!place.NotWaiting? && u in wait && wait[u] == place);
    }
  }

  // ----------------------------------------------------------------- join lists

  lemma JoinIn(s: State, u: TaskId, t: TaskId, wait: WaitMap)
    requires WaitPlaced(s, wait) && u in s.tasks && t in wait && wait[t] == NotWaiting
    ensures WaitPlaced(WithTask(s, u, s.tasks[u].(waiters := s.tasks[u].waiters + [t])), wait[t := OnJoin(u)])
  {
    var s' := WithTask(s, u, s.tasks[u].(waiters := s.tasks[u].waiters + [t]));
    forall x, place
      ensures WaitCount(s', x, place) == WaitCount(s, x, place) + Once(x == t && place == OnJoin(u))
    {
      match place {
        case OnJoin(v) =>
        case _ =>
      }
    }
    forall place
      ensures WaitCount(s', t, place) == Once(!place.NotWaiting? && place == OnJoin(u))
    {
      assert WaitCount(s, t, place) == Once(!place.NotWaiting? && wait[t] == place);
    }
    WaitMoved(s, s', wait, t, OnJoin(u));
  }

  lemma JoinOut(s: State, u: TaskId, wait: WaitMap)
    requires WaitPlaced(s, wait) && u in s.tasks && s.tasks[u].waiters != []
    ensures var t := s.tasks[u].waiters[0];
            && t in wait && wait[t] == OnJoin(u)
            && WaitPlaced(WithTask(s, u, s.tasks[u].(waiters := s.tasks[u].waiters[1..])), wait[t := NotWaiting])
  {
    var ws := s.tasks[u].waiters;
    var t := ws[0];
    var s' := WithTask(s, u, s.tasks[u].(waiters := ws[1..]));
    forall x, place
      ensures WaitCount(s', x, place) + Once(x == t && place == OnJoin(u)) == WaitCount(s, x, place)
    {
      match place {
        case OnJoin(v) => FirstOut(ws, x);
        case _ =>
      }
    }
    assert WaitCount(s, t, OnJoin(u)) >= 1;
    forall place
      ensures WaitCount(s', t, place) == 0
    {
      assert WaitCount(s, t, place) == Once(!place.NotWaiting? && t in wait && wait[t] == place);
    }
    WaitMoved(s, s', wait, t, NotWaiting);
  }

  // ---------------------------------------------------------------- sync queues

  lemma SyncIn(s: State, q: nat, t: TaskId, wait: WaitMap)
    requires WaitPlaced(s, wait) && t in wait && wait[t] == NotWaiting
    ensures WaitPlaced(s.(syncs := s.syncs[q := Waiters(s, q) + [t]]), wait[t := OnSync(q)])
  {
    var s' := s.(syncs := s.syncs[q := Waiters(s, q) + [t]]);
    forall x, place
      ensures WaitCount(s', x, place) == WaitCount(s, x, place) + Once(x == t && place == OnSync(q))
    {
      match place {
        case OnSync(r) =>
        case _ =>
      }
    }
    forall place
      ensures WaitCount(s', t, place) == Once(!place.NotWaiting? && place == OnSync(q))
    {
      assert WaitCount(s, t, place) == Once(!place.NotWaiting? && wait[t] == place);
    }
    WaitMoved(s, s', wait, t, OnSync(q));
  }

  lemma SyncOut(s: State, q: nat, wait: WaitMap)
    requires WaitPlaced(s, wait) && Waiters(s, q) != []
    ensures var t := Waiters(s, q)[0];
            && t in wait && wait[t] == OnSync(q)
            && WaitPlaced(s.(syncs := s.syncs[q := Waiters(s, q)[1..]]), wait[t := NotWaiting])
  {
    var ws := Waiters(s, q);
    var t := ws[0];
    var s' := s.(syncs := s.syncs[q := ws[1..]]);
    forall x, place
      ensures WaitCount(s', x, place) + Once(x == t && place == OnSync(q)) == WaitCount(s, x, place)
    {
      match place {
        case OnSync(r) => FirstOut(ws, x);
        case _ =>
      }
    }
    assert WaitCount(s, t, OnSync(q)) >= 1;
    forall place
      ensures WaitCount(s', t, place) == 0
    {
      assert WaitCount(s, t, place) == Once(!place.NotWaiting? && t in wait && wait[t] == place);
    }
    WaitMoved(s, s', wait, t, NotWaiting);
  }

  // -------------------------------------------------------------- timers and I/O

  lemma TimerIn(s: State, p: nat, t: TaskId, wait: WaitMap)
    requires WaitPlaced(s, wait) && p < |s.workers| && t in wait && wait[t] == NotWaiting
    ensures t !in s.workers[p].timers
    ensures WaitPlaced(WithWorker(s, p, s.workers[p].(timers := s.workers[p].timers + {t})), wait[t := OnTimer(p)])
  {
    var s' := WithWorker(s, p, s.workers[p].(timers := s.workers[p].timers + {t}));
    assert WaitCount(s, t, OnTimer(p)) == 0;
    forall place
      ensures WaitCount(s', t, place) == Once(!place.NotWaiting? && place == OnTimer(p))
    {
      assert WaitCount(s, t, place) == Once(!place.NotWaiting? && wait[t] == place);
    }
    WaitMoved(s, s', wait, t, OnTimer(p));
  }

  lemma TimerOut(s: State, p: nat, t: TaskId, wait: WaitMap)
    requires WaitPlaced(s, wait) && p < |s.workers| && t in s.workers[p].timers
    ensures t in wait && wait[t] == OnTimer(p)
    ensures WaitPlaced(WithWorker(s, p, s.workers[p].(timers := s.workers[p].timers - {t})), wait[t := NotWaiting])
  {
    var s' := WithWorker(s, p, s.workers[p].(timers := s.workers[p].timers - {t}));
    assert WaitCount(s, t, OnTimer(p)) == 1;
    forall place
      ensures WaitCount(s', t, place) == 0
    {
      assert WaitCount(s, t, place) == Once(!place.NotWaiting? && wait[t] == place);
    }
    WaitMoved(s, s', wait, t, NotWaiting);
  }

  lemma IoIn(s: State, t: TaskId, wait: WaitMap)
    requires WaitPlaced(s, wait) && t in s.tasks && t in wait && wait[t] == NotWaiting
    ensures WaitPlaced(WithTask(s, t, s.tasks[t].(waitingForIo := true)), wait[t := OnIo])
  {
    var s' := WithTask(s, t, s.tasks[t].(waitingForIo := true));
    forall place
      ensures WaitCount(s', t, place) == Once(!place.NotWaiting? && place == OnIo)
    {
      assert WaitCount(s, t, place) == Once(!place.NotWaiting? && wait[t] == place);
    }
    WaitMoved(s, s', wait, t, OnIo);
  }

  lemma IoOut(s: State, t: TaskId, wait: WaitMap)
    requires WaitPlaced(s, wait) && t in s.tasks && s.tasks[t].waitingForIo
    ensures t in wait && wait[t] == OnIo
    ensures WaitPlaced(WithTask(s, t, s.tasks[t].(waitingForIo := false)), wait[t := NotWaiting])
  {
    var s' := WithTask(s, t, s.tasks[t].(waitingForIo := false));
    assert WaitCount(s, t, OnIo) == 1;
    forall place
      ensures WaitCount(s', t, place) == 0
    {
      assert WaitCount(s, t, place) == Once(!place.NotWaiting? && wait[t] == place);
    }
    WaitMoved(s, s', wait, t, NotWaiting);
  }

  // --------------------------------------------------------------------- waking

  ghost function WokenRun(s: State, t: TaskId, run: RunMap): RunMap
    requires t in s.tasks
  {
    var task := s.tasks[t];
    if (task.state.Waiting? || task.state.Sleeping?) && !task.executing then run[t := InGlobal] else run
  }

  /** Task t has just been taken off the wait structure it was on; the other
      tasks are in order. */
  ghost predicate Loose(s: State, t: TaskId, run: RunMap, wait: WaitMap, was: WaitPlace)
  {
    && run.Keys == s.tasks.Keys && wait.Keys == s.tasks.Keys && t in s.tasks
    && wait[t] == NotWaiting && was != NotWaiting
    && (forall u {:trigger TaskOk(s, run, wait, u)} :: u in s.tasks && u != t ==> TaskOk(s, run, wait, u))
    && RunOk(s.workers, s.tasks[t], run[t])
    && !s.tasks[t].waitingForIo
    && StateOk(s.shutdown, t in s.lost, s.tasks[t].(waitingForIo := was.OnIo?), run[t], was)
  }

  ghost predicate Detached(s: State, t: TaskId, run: RunMap, wait: WaitMap, was: WaitPlace)
  {
    && Loose(s, t, run, wait, was)
    && RunPlaced(s.global, s.workers, run)
    && WaitPlaced(s, wait)
    && Counted(s)
    && WorkersOk(s)
  }

  lemma GlobalGrows(global: seq<TaskId>, ws: seq<Worker>, t: TaskId, run: RunMap)
    requires RunPlaced(global, ws, run) && (t in run ==> run[t] == Nowhere)
    ensures RunPlaced(global + [t], ws, run[t := InGlobal])
  {
    forall u, place
      ensures RunCount(global + [t], ws, u, place)
           == Once(!place.Nowhere? && u in run[t := InGlobal] && run[t := InGlobal][u] == place)
    {
      assert RunCount(global, ws, u, place) == Once(!place.Nowhere? && u in run && run[u] == place);
    }
  }

  /** Task t is put in order, the other tasks being in order already. */
  lemma LastTaskOk(
      s: State, s': State, t: TaskId, task: Task, run: RunMap, wait: WaitMap, place: RunPlace)
    requires run.Keys == s.tasks.Keys && wait.Keys == s.tasks.Keys && t in s.tasks
    requires forall u {:trigger TaskOk(s, run, wait, u)} :: u in s.tasks && u != t ==> TaskOk(s, run, wait, u)
    requires s'.tasks == s.tasks[t := task] && s'.workers == s.workers
    requires s'.shutdown == s.shutdown && s'.lost == s.lost
    requires RunOk(s.workers, task, place) && StateOk(s.shutdown, t in s.lost, task, place, wait[t])
    ensures TasksOk(s', run[t := place], wait)
  {
    forall u | u in s'.tasks
      ensures TaskOk(s', run[t := place], wait, u)
    {
      if u != t {
        assert TaskOk(s, run, wait, u);
      }
    }
  }

  /** The task record, the queue and the place after waking t. */
  lemma WakeIs(s: State, t: TaskId, run: RunMap, was: WaitPlace)
    requires t in s.tasks && t in run && RunOk(s.workers, s.tasks[t], run[t]) && was != NotWaiting
    requires StateOk(s.shutdown, t in s.lost, s.tasks[t].(waitingForIo := was.OnIo?), run[t], was)
    requires !s.tasks[t].waitingForIo
    ensures var s' := Wake(s, t);
            var task := s'.tasks[t];
            && s' == s.(tasks := s.tasks[t := task], global := s'.global)
            && WokenRun(s, t, run) == run[t := WokenRun(s, t, run)[t]]
            && (s'.global == s.global ==> WokenRun(s, t, run)[t] == run[t])
            && (s'.global != s.global ==>
                  WokenRun(s, t, run)[t] == InGlobal && run[t] == Nowhere && s'.global == s.global + [t])
            && RunOk(s.workers, task, WokenRun(s, t, run)[t])
            && StateOk(s.shutdown, t in s.lost, task, WokenRun(s, t, run)[t], NotWaiting)
            && task.waiters == s.tasks[t].waiters && !task.waitingForIo
            && Terminal(task.state) == Terminal(s.tasks[t].state)
            && (Terminal(task.state) ==> task == s.tasks[t])
  {
    var s' := Wake(s, t);
    assert s.tasks[t := s.tasks[t]] == s.tasks;
    assert run[t := run[t]] == run;
  }

  lemma PutInOrder(
      s: State, s': State, t: TaskId, task: Task, run: RunMap, place: RunPlace, wait: WaitMap, was: WaitPlace)
    requires Detached(s, t, run, wait, was)
    requires s' == s.(tasks := s.tasks[t := task], global := s'.global)
    requires s'.global == s.global ==> place == run[t]
    requires s'.global != s.global ==> place == InGlobal && run[t] == Nowhere && s'.global == s.global + [t]
    requires RunOk(s.workers, task, place) && StateOk(s.shutdown, t in s.lost, task, place, NotWaiting)
    requires task.waiters == s.tasks[t].waiters && !task.waitingForIo
    requires Terminal(task.state) == Terminal(s.tasks[t].state)
    requires Terminal(task.state) ==> task == s.tasks[t]
    ensures Inv(s', run[t := place], wait)
  {
    LastTaskOk(s, s', t, task, run, wait, place);
    if s'.global != s.global {
      GlobalGrows(s.global, s.workers, t, run);
    } else {
      assert run[t := place] == run;
    }
    WakeBooks(s, s', t, task, wait);
  }

  /** Waking a detached task: nothing for a cancelled one, a pending wake for one
      that still has a thread, the global queue for any other. */
  lemma WakeKeeps(s: State, t: TaskId, run: RunMap, wait: WaitMap, was: WaitPlace)
    requires Detached(s, t, run, wait, was)
    ensures Inv(Wake(s, t), WokenRun(s, t, run), wait)
  {
    WakeIs(s, t, run, was);
    var s' := Wake(s, t);
    PutInOrder(s, s', t, s'.tasks[t], run, WokenRun(s, t, run)[t], wait, was);
  }

  lemma WakeBooks(s: State, s': State, t: TaskId, task: Task, wait: WaitMap)
    requires Counted(s) && WaitPlaced(s, wait) && WorkersOk(s) && t in s.tasks
    requires s' == s.(tasks := s.tasks[t := task], global := s'.global)
    requires task.waiters == s.tasks[t].waiters && task.waitingForIo == s.tasks[t].waitingForIo
    requires Terminal(task.state) == Terminal(s.tasks[t].state)
    requires Terminal(task.state) ==> task == s.tasks[t]
    ensures Counted(s') && WaitPlaced(s', wait) && WorkersOk(s')
  {
    CountedAfterTask(s, s', t, task);
    WaitFrame(s, s', wait);
  }

  /** The tasks other than t are in order after t has left its wait structure. */
  lemma OthersOk(s: State, s1: State, t: TaskId, run: RunMap, wait: WaitMap)
    requires run.Keys == s.tasks.Keys && wait.Keys == s.tasks.Keys && TasksOk(s, run, wait) && t in s.tasks
    requires s1.tasks.Keys == s.tasks.Keys && s1.shutdown == s.shutdown && s1.lost == s.lost
    requires |s1.workers| == |s.workers|
    requires forall p :: 0 <= p < |s.workers| ==> s1.workers[p].phase == s.workers[p].phase
    requires forall u :: u in s.tasks && u != t ==> s1.tasks[u] == s.tasks[u].(waiters := s1.tasks[u].waiters)
    ensures forall u {:trigger TaskOk(s1, run, wait[t := NotWaiting], u)} ::
              u in s1.tasks && u != t ==> TaskOk(s1, run, wait[t := NotWaiting], u)
  {
    forall u | u in s1.tasks && u != t
      ensures TaskOk(s1, run, wait[t := NotWaiting], u)
    {
      assert TaskOk(s, run, wait, u);
    }
  }

  lemma MakeLoose(s: State, s1: State, t: TaskId, run: RunMap, wait: WaitMap)
    requires run.Keys == s.tasks.Keys && wait.Keys == s.tasks.Keys && TasksOk(s, run, wait) && t in s.tasks
    requires s1.tasks.Keys == s.tasks.Keys && s1.shutdown == s.shutdown && s1.lost == s.lost
    requires |s1.workers| == |s.workers|
    requires forall p :: 0 <= p < |s.workers| ==> s1.workers[p].phase == s.workers[p].phase
    requires forall u :: u in s.tasks && u != t ==> s1.tasks[u] == s.tasks[u].(waiters := s1.tasks[u].waiters)
    requires s1.tasks[t] == s.tasks[t].(waiters := s1.tasks[t].waiters, waitingForIo := false)
    requires wait[t] != NotWaiting
    ensures Loose(s1, t, run, wait[t := NotWaiting], wait[t])
  {
    OthersOk(s, s1, t, run, wait);
    assert TaskOk(s, run, wait, t);
    RunOkFrame(s.workers, s1.workers, s.tasks[t], s1.tasks[t], run[t]);
    StateOkFrame(s.shutdown, t in s.lost, s.tasks[t], s1.tasks[t].(waitingForIo := wait[t].OnIo?), run[t], wait[t]);
  }

  lemma StateOkFrame(shutdown: bool, lost: bool, task: Task, task': Task, place: RunPlace, at: WaitPlace)
    requires StateOk(shutdown, lost, task, place, at)
    requires task' == task.(waiters := task'.waiters)
    ensures StateOk(shutdown, lost, task', place, at)
  {
  }

  lemma RunOkFrame(ws: seq<Worker>, ws': seq<Worker>, task: Task, task': Task, place: RunPlace)
    requires RunOk(ws, task, place) && |ws'| == |ws|
    requires forall p :: 0 <= p < |ws| ==> ws'[p].phase == ws[p].phase
    requires task' == task.(waiters := task'.waiters, waitingForIo := task'.waitingForIo)
    ensures RunOk(ws', task', place)
  {
  }

  // --------------------------------------------------------- the wake-up calls

  lemma SyncWakeKeeps(s: State, q: nat, run: RunMap, wait: WaitMap) returns (run': RunMap, wait': WaitMap)
    requires Inv(s, run, wait)
    ensures Inv(DoSyncWake(s, q), run', wait')
  {
    run', wait' := run, wait;
    var ws := Waiters(s, q);
    if ws != [] && ws[0] in s.tasks {
      var t := ws[0];
      var s1 := s.(syncs := s.syncs[q := ws[1..]]);
      wait' := wait[t := NotWaiting];
      SyncOut(s, q, wait);
      OthersOk(s, s1, t, run, wait);
      assert TaskOk(s, run, wait, t);
      assert Detached(s1, t, run, wait', OnSync(q));
      WakeKeeps(s1, t, run, wait', OnSync(q));
      run' := WokenRun(s1, t, run);
    }
  }

  lemma TimerLeft(s: State, s1: State, p: nat, t: TaskId)
    requires Counted(s) && WorkersOk(s) && p < |s.workers| && t in s.workers[p].timers
    requires s1 == s.(workers := s.workers[p := s.workers[p].(timers := s.workers[p].timers - {t})],
                      timerCount := Less(s.timerCount))
    ensures Counted(s1) && WorkersOk(s1) && s.timerCount > 0
  {
    var w' := s1.workers[p];
    TimerTotalAfter(s.workers, p, w');
    CountedAfterWorker(s, s1, p, w');
    WorkersOkAfter(s, s1, p, w');
  }

  ghost function TimerTaken(s: State, p: nat, t: TaskId): State
    requires p < |s.workers|
  {
    s.(workers := s.workers[p := s.workers[p].(timers := s.workers[p].timers - {t})],
       timerCount := Less(s.timerCount))
  }

  lemma TimerWaits(s: State, p: nat, t: TaskId, wait: WaitMap)
    requires WaitPlaced(s, wait) && p < |s.workers| && t in s.workers[p].timers
    ensures t in wait && wait[t] == OnTimer(p)
    ensures WaitPlaced(TimerTaken(s, p, t), wait[t := NotWaiting])
  {
    var w' := s.workers[p].(timers := s.workers[p].timers - {t});
    TimerOut(s, p, t, wait);
    WaitFrame(WithWorker(s, p, w'), TimerTaken(s, p, t), wait[t := NotWaiting]);
  }

  lemma TimerDetached(s: State, p: nat, t: TaskId, run: RunMap, wait: WaitMap)
    requires Inv(s, run, wait) && p < |s.workers| && t in s.workers[p].timers && t in s.tasks
    ensures Detached(TimerTaken(s, p, t), t, run, wait[t := NotWaiting], OnTimer(p))
  {
    var s1 := TimerTaken(s, p, t);
    TimerWaits(s, p, t, wait);
    RunFrame(s.global, s.workers, p, s1.workers[p], run);
    TimerLeft(s, s1, p, t);
    assert TaskOk(s, run, wait, t);
    MakeLoose(s, s1, t, run, wait);
  }

  lemma TimerFireKeeps(s: State, p: nat, t: TaskId, run: RunMap, wait: WaitMap)
    returns (run': RunMap, wait': WaitMap)
    requires Inv(s, run, wait) && p < |s.workers|
    ensures Inv(DoTimerFire(s, p, t), run', wait')
  {
    run', wait' := run, wait;
    if t in s.workers[p].timers && t in s.tasks {
      TimerDetached(s, p, t, run, wait);
      WakeKeeps(TimerTaken(s, p, t), t, run, wait[t := NotWaiting], OnTimer(p));
      run', wait' := WokenRun(TimerTaken(s, p, t), t, run), wait[t := NotWaiting];
    }
  }

  ghost function IoTaken(s: State, t: TaskId): State
    requires t in s.tasks && s.ioWaiting != 0
  {
    WithTask(s, t, s.tasks[t].(waitingForIo := false)).(ioWaiting := s.ioWaiting - 1)
  }

  lemma IoDetached(s: State, t: TaskId, run: RunMap, wait: WaitMap)
    requires Inv(s, run, wait) && t in s.tasks && s.tasks[t].waitingForIo && s.ioWaiting != 0
    ensures Detached(IoTaken(s, t), t, run, wait[t := NotWaiting], OnIo)
  {
    var s1 := IoTaken(s, t);
    IoOut(s, t, wait);
    WaitFrame(WithTask(s, t, s.tasks[t].(waitingForIo := false)), s1, wait[t := NotWaiting]);
    CountedAfterTask(s, s1, t, s1.tasks[t]);
    MakeLoose(s, s1, t, run, wait);
  }

  lemma IoCompleteKeeps(s: State, t: TaskId, run: RunMap, wait: WaitMap) returns (run': RunMap, wait': WaitMap)
    requires Inv(s, run, wait)
    ensures Inv(DoIoComplete(s, t), run', wait')
  {
    run', wait' := run, wait;
    if t in s.tasks && s.tasks[t].state.Waiting? && s.tasks[t].waitingForIo && s.ioWaiting != 0 {
      IoDetached(s, t, run, wait);
      WakeKeeps(IoTaken(s, t), t, run, wait[t := NotWaiting], OnIo);
      run', wait' := WokenRun(IoTaken(s, t), t, run), wait[t := NotWaiting];
    }
  }

  ghost function JoinerTaken(s: State, u: TaskId): State
    requires u in s.tasks && s.tasks[u].waiters != []
  {
    WithTask(s, u, s.tasks[u].(waiters := s.tasks[u].waiters[1..]))
  }

  lemma JoinerLoose(s: State, u: TaskId, run: RunMap, wait: WaitMap)
    requires run.Keys == s.tasks.Keys && wait.Keys == s.tasks.Keys && TasksOk(s, run, wait)
    requires u in s.tasks && s.tasks[u].waiters != []
    requires s.tasks[u].waiters[0] in wait && wait[s.tasks[u].waiters[0]] == OnJoin(u)
    ensures var t := s.tasks[u].waiters[0];
            Loose(JoinerTaken(s, u), t, run, wait[t := NotWaiting], OnJoin(u))
  {
    var t := s.tasks[u].waiters[0];
    assert TaskOk(s, run, wait, t);
    MakeLoose(s, JoinerTaken(s, u), t, run, wait);
  }

  lemma JoinerDetached(s: State, u: TaskId, run: RunMap, wait: WaitMap)
    requires Inv(s, run, wait) && u in s.tasks && s.tasks[u].waiters != []
    ensures var t := s.tasks[u].waiters[0];
            Detached(JoinerTaken(s, u), t, run, wait[t := NotWaiting], OnJoin(u))
  {
    var s1 := JoinerTaken(s, u);
    JoinOut(s, u, wait);
    JoinerLoose(s, u, run, wait);
    CountedAfterTask(s, s1, u, s1.tasks[u]);
  }

  lemma WakeJoinerKeeps(s: State, u: TaskId, run: RunMap, wait: WaitMap) returns (run': RunMap, wait': WaitMap)
    requires Inv(s, run, wait) && u in s.tasks && s.tasks[u].waiters != []
    ensures Inv(WakeJoiner(s, u), run', wait')
  {
    var t := s.tasks[u].waiters[0];
    JoinerDetached(s, u, run, wait);
    WakeKeeps(JoinerTaken(s, u), t, run, wait[t := NotWaiting], OnJoin(u));
    run', wait' := WokenRun(JoinerTaken(s, u), t, run), wait[t := NotWaiting];
  }

  /** A task's record after a wake. */
  function AfterWake(task: Task): Task
  {
    if !task.state.Waiting? && !task.state.Sleeping? then task
    else if task.executing then task.(wakePending := true)
    else task.(state := Runnable, queued := true)
  }

  lemma EnqueueTasks(s: State, t: TaskId)
    requires t in s.tasks && s.tasks[t].state.Runnable?
    ensures EnqueueGlobal(s, t).tasks == s.tasks[t := s.tasks[t].(queued := true)]
  {
  }

  lemma WakeTasks(s: State, t: TaskId)
    requires t in s.tasks
    ensures Wake(s, t).tasks == s.tasks[t := AfterWake(s.tasks[t])]
  {
    var task := s.tasks[t];
    if (task.state.Waiting? || task.state.Sleeping?) && !task.executing {
      var s1 := WithTask(s, t, task.(state := Runnable));
      EnqueueTasks(s1, t);
      assert s1.tasks[t := AfterWake(task)] == s.tasks[t := AfterWake(task)];
    }
  }

  lemma WakeKeepsJoinLists(s: State, t: TaskId, u: TaskId)
    requires t in s.tasks && u in s.tasks
    ensures u in Wake(s, t).tasks && Wake(s, t).tasks[u].waiters == s.tasks[u].waiters
  {
    WakeTasks(s, t);
  }

  lemma JoinerLeft(s: State, u: TaskId)
    requires u in s.tasks && s.tasks[u].waiters != []
    ensures u in WakeJoiner(s, u).tasks
    ensures WakeJoiner(s, u).tasks[u].waiters == s.tasks[u].waiters[1..]
  {
    var s1 := JoinerTaken(s, u);
    var t := s.tasks[u].waiters[0];
    if t in s1.tasks {
      WakeKeepsJoinLists(s1, t, u);
    }
  }

  lemma {:induction false} WakeJoinersKeeps(s: State, u: TaskId, run: RunMap, wait: WaitMap)
    returns (run': RunMap, wait': WaitMap)
    requires Inv(s, run, wait) && u in s.tasks
    ensures Inv(WakeJoiners(s, u), run', wait')
    decreases |s.tasks[u].waiters|
  {
    if s.tasks[u].waiters == [] {
      run', wait' := run, wait;
    } else {
      var run1, wait1 := WakeJoinerKeeps(s, u, run, wait);
      JoinerLeft(s, u);
      run', wait' := WakeJoinersKeeps(WakeJoiner(s, u), u, run1, wait1);
    }
  }
}
