/** The condition of module SchedulerStops is exact: an unsafe spawn can lose the
    task it makes.  Programs that never meet one are those with a single worker,
    and those whose owner spawns only before its first run. */
module SchedulerLoss {
  import opened Common
  import opened Paths
  import opened GlobalQueue
  import opened Scheduler
  import opened SchedulerInvariant
  import opened SchedulerSteps
  import opened SchedulerTheorems
  import opened SchedulerExecution
  import opened SchedulerStops

  // ------------------------------------------------------------- how it is lost

  /** Task t is the only one in the global queue and the run is off. */
  predicate Fresh(s: State, p: nat, t: TaskId)
  {
    && p < |s.workers| && !s.running && s.global == [t] && s.workers[p].local == []
    && t in s.tasks && s.tasks[t].state.Runnable? && s.tasks[t].fiber.None?
  }

  lemma SpawnedFresh(s: State, p: nat, t: TaskId, who: Caller, run: RunMap, wait: WaitMap)
    requires Inv(s, run, wait) && Sound(s) && !s.running && t !in s.tasks
    requires p < |s.workers| && Scanning(s.workers[p].phase) && MaySpawn(s, who)
    ensures Fresh(DoSpawn(s, t, who), p, t) && DoSpawn(s, t, who).workers == s.workers
  {
    assert WorkerQuiet(s.workers[p], s.live == 0);
    NoneLiveEmpty(s, run, wait, p);
  }

  lemma ScanReachesGlobal(s: State, p: nat, t: TaskId)
    requires Fresh(s, p, t) && Scanning(s.workers[p].phase)
    ensures var s' := DoPopLocal(s, p);
            Fresh(s', p, t) && s'.workers[p].phase.TryGlobal?
  {
  }

  lemma ScanTakes(s: State, p: nat, t: TaskId)
    requires Fresh(s, p, t) && s.workers[p].phase.TryGlobal?
    ensures var s' := DoTakeGlobal(s, p, 0);
            && !s'.running && |s'.workers| == |s.workers| && s'.workers[p].phase == Hand(t)
            && t in s'.tasks && s'.tasks[t].state.Runnable?
  {
    var r := Take(s.global, Eligible(s, p), Unstarted(s), |s.workers| > 1, 0);
    assert t in Eligible(s, p);
    assert FirstIn(s.global, Eligible(s, p)) == 0;
    assert r.task == Some(t);
  }

  lemma DroppedRun(s: State, p: nat, t: TaskId, run: RunMap, place: RunPlace)
    requires RunPlaced(s.global, s.workers, run)
    requires p < |s.workers| && s.workers[p].phase == Hand(t) && t in s.tasks
    requires s.tasks[t].state.Runnable? && !s.running
    ensures RunCount(DoBeginExecute(s, p).global, DoBeginExecute(s, p).workers, t, place) == 0
  {
    assert RunCount(s.global, s.workers, t, Held(p)) == 1;
    assert RunCount(s.global, s.workers, t, place) == Once(!place.Nowhere? && t in run && run[t] == place);
    match place {
      case Held(q) =>
      case InLocal(q) =>
      case _ =>
    }
  }

  /** A task in hand when the run is off is dropped: it stays runnable, yet is in
      no queue, in no hands and in no wait structure. */
  lemma HandIsDropped(s: State, p: nat, t: TaskId, run: RunMap, wait: WaitMap)
    requires Inv(s, run, wait) && p < |s.workers| && s.workers[p].phase == Hand(t) && t in s.tasks
    requires s.tasks[t].state.Runnable? && !s.running
    ensures LostAt(DoBeginExecute(s, p), t)
  {
    var s' := DoBeginExecute(s, p);
    assert s'.tasks == s.tasks && s'.lost == s.lost + {t};
    forall place
      ensures RunCount(s'.global, s'.workers, t, place) == 0
    {
      DroppedRun(s, p, t, run, place);
    }
    assert TaskOk(s, run, wait, t);
    forall place
      ensures WaitCount(s', t, place) == 0
    {
      assert WaitCount(s, t, place) == Once(!place.NotWaiting? && wait[t] == place);
      match place {
        case OnTimer(q) =>
        case _ =>
      }
    }
  }

  ghost predicate LostAt(s: State, t: TaskId)
  {
    && t in s.lost && t in s.tasks && s.tasks[t].state.Runnable?
    && !RunnableSomewhere(s, t) && !RegisteredSomewhere(s, t)
  }

  lemma HolderLoses(s: State, p: nat, t: TaskId, run: RunMap, wait: WaitMap)
    returns (last: State)
    requires Inv(s, run, wait) && p < |s.workers| && s.workers[p].phase == Hand(t) && t in s.tasks
    requires s.tasks[t].state.Runnable? && !s.running
    ensures Reaches(s, [BeginExecute(p)] + [], last)
    ensures LostAt(last, t)
  {
    last := DoBeginExecute(s, p);
    assert Do(s, BeginExecute(p)) == last;
    HandIsDropped(s, p, t, run, wait);
    PathOne(Do, s, BeginExecute(p), [], last);
  }

  lemma TakerLoses(s: State, p: nat, t: TaskId, run: RunMap, wait: WaitMap)
    returns (last: State)
    requires Inv(s, run, wait) && Fresh(s, p, t) && s.workers[p].phase.TryGlobal?
    ensures Reaches(s, [TakeGlobal(p, 0)] + ([BeginExecute(p)] + []), last)
    ensures LostAt(last, t)
  {
    ScanTakes(s, p, t);
    var run' := TakeGlobalKeeps(s, p, 0, run, wait);
    last := HolderLoses(DoTakeGlobal(s, p, 0), p, t, run', wait);
    TakeThen(s, p, [BeginExecute(p)] + [], last);
  }

  lemma TakeThen(s: State, p: nat, actions: seq<Action>, last: State)
    requires p < |s.workers| && Reaches(DoTakeGlobal(s, p, 0), actions, last)
    ensures Reaches(s, [TakeGlobal(p, 0)] + actions, last)
  {
    assert Do(s, TakeGlobal(p, 0)) == DoTakeGlobal(s, p, 0);
    PathOne(Do, s, TakeGlobal(p, 0), actions, last);
  }

  predicate NoSpawns(actions: seq<Action>)
  {
    forall i :: 0 <= i < |actions| ==> !actions[i].Spawn? && !actions[i].RequestShutdown?
  }

  /** What a worker that is still scanning does with the task. */
  ghost function Losing(p: nat): (actions: seq<Action>)
    ensures NoSpawns(actions)
  {
    [PopLocal(p)] + ([TakeGlobal(p, 0)] + ([BeginExecute(p)] + []))
  }

  /** A worker still scanning when the run is off takes a task spawned now and
      drops it. */
  lemma ScannerLoses(s: State, p: nat, t: TaskId, run: RunMap, wait: WaitMap)
    returns (last: State)
    requires Inv(s, run, wait) && Fresh(s, p, t) && Scanning(s.workers[p].phase)
    ensures Reaches(s, Losing(p), last)
    ensures LostAt(last, t)
  {
    var s' := DoPopLocal(s, p);
    assert Do(s, PopLocal(p)) == s';
    ScanReachesGlobal(s, p, t);
    var run' := PopLocalKeeps(s, p, run, wait);
    last := TakerLoses(s', p, t, run', wait);
    PathOne(Do, s, PopLocal(p), [TakeGlobal(p, 0)] + ([BeginExecute(p)] + []), last);
  }

  /** Every unsafe spawn can lose its task: from any state of a run that has lost
      none, spawning while a worker is still scanning after the run stopped
      leads to a state where the task is runnable but nowhere to be found. */
  lemma UnsafeSpawnLoses(s: State, t: TaskId, who: Caller, run: RunMap, wait: WaitMap)
    returns (actions: seq<Action>, last: State)
    requires Inv(s, run, wait) && Sound(s) && !SafeToSpawn(s) && t !in s.tasks && MaySpawn(s, who)
    ensures Reaches(s, [Spawn(t, who)] + actions, last) && NoSpawns(actions)
    ensures LostAt(last, t)
  {
    var p :| 0 <= p < |s.workers| && Scanning(s.workers[p].phase);
    SpawnedFresh(s, p, t, who, run, wait);
    var run', wait' := SpawnKeeps(s, t, who, run, wait);
    last := ScannerLoses(DoSpawn(s, t, who), p, t, run', wait');
    actions := Losing(p);
    SpawnThen(s, t, who, actions, last);
  }

  lemma {:induction false} NoSpawnsIsSafe(s: State, actions: seq<Action>)
    requires NoSpawns(actions)
    ensures SafeRun(s, actions)
    decreases |actions|
  {
    if actions != [] {
      assert SafeAction(s, actions[0]);
      NoSpawnsIsSafe(Do(s, actions[0]), actions[1..]);
    }
  }

  /** After spawning t the run can lose it, although nothing else is spawned and
      nobody asks for a shutdown. */
  ghost predicate CanLose(s: State, t: TaskId, who: Caller)
  {
    exists actions, last :: Reaches(s, [Spawn(t, who)] + actions, last) && NoSpawns(actions) && LostAt(last, t)
  }

  lemma SafeSpawnKeeps(
      s: State, t: TaskId, who: Caller, actions: seq<Action>, last: State, run: RunMap, wait: WaitMap)
    requires Inv(s, run, wait) && Sound(s) && SafeToSpawn(s) && NoSpawns(actions)
    requires Reaches(s, [Spawn(t, who)] + actions, last)
    ensures !LostAt(last, t)
  {
    var all := [Spawn(t, who)] + actions;
    assert all[1..] == actions;
    NoSpawnsIsSafe(Do(s, Spawn(t, who)), actions);
    var run', wait' := SafeRunSound(s, all, last, run, wait);
  }

  /** Exactly the unsafe spawns can lose their task: in any state that a safe run
      reaches, and for anyone who may spawn there, whether a worker is still
      scanning after the run stopped decides it. */
  lemma SpawnIsSafeIff(workers: nat, before: seq<Action>, s: State, t: TaskId, who: Caller)
    requires workers > 0 && Reaches(Initial(workers), before, s) && SafeRun(Initial(workers), before)
    requires t !in s.tasks && MaySpawn(s, who)
    ensures SafeToSpawn(s) <==> !CanLose(s, t, who)
  {
    var run, wait := SafeRunInv(workers, before, s);
    if SafeToSpawn(s) {
      forall actions, last | Reaches(s, [Spawn(t, who)] + actions, last) && NoSpawns(actions)
        ensures !LostAt(last, t)
      {
        SafeSpawnKeeps(s, t, who, actions, last, run, wait);
      }
    } else {
      var actions, last := UnsafeSpawnLoses(s, t, who, run, wait);
    }
  }

  lemma SpawnThen(s: State, t: TaskId, who: Caller, actions: seq<Action>, last: State)
    requires s.workers != [] && Reaches(DoSpawn(s, t, who), actions, last)
    ensures Reaches(s, [Spawn(t, who)] + actions, last)
  {
    assert Do(s, Spawn(t, who)) == DoSpawn(s, t, who);
    PathOne(Do, s, Spawn(t, who), actions, last);
  }

  // --------------------------------------------------------------- one worker

  /** A lone worker is never found scanning while the run is off. */
  predicate Alone(s: State)
  {
    |s.workers| == 1 && !s.shutdown && (s.running || !Scanning(s.workers[0].phase))
  }

  /** No scan begins while the run is off. */
  predicate NoScan(s: State, s': State)
    requires |s.workers| == 1
  {
    |s'.workers| == 1 && (!s.running && !Scanning(s.workers[0].phase) ==> !Scanning(s'.workers[0].phase))
  }

  lemma TakeNoScan(s: State, a: Action)
    requires |s.workers| == 1 && Takes(a)
    ensures NoScan(s, DoTake(s, 0, a))
  {
  }

  lemma ScanNoScan(s: State, a: Action)
    requires |s.workers| == 1 && Scans(a)
    ensures NoScan(s, DoScan(s, 0, a))
  {
  }

  lemma DispatchNoScan(s: State, a: Action)
    requires |s.workers| == 1 && Dispatches(a)
    ensures NoScan(s, DoDispatch(s, 0, a))
  {
    var s' := DoDispatch(s, 0, a);
    assert |s'.workers| == 1 && (s'.workers[0] == s.workers[0] || !Scanning(s'.workers[0].phase));
  }

  lemma IdleNoScan(s: State, a: Action)
    requires |s.workers| == 1 && a.IdleLeave?
    ensures NoScan(s, DoRest(s, 0, a))
  {
  }

  lemma ActNoScan(s: State, t: TaskId, a: Action)
    requires |s.workers| == 1 && t in s.tasks
    ensures NoScan(s, DoAct(s, 0, t, a))
  {
  }

  lemma OffNeverScans(s: State, a: Action)
    requires |s.workers| == 1 && Plain(a)
    ensures NoScan(s, DoAt(s, 0, a))
  {
    if Scans(a) {
      ScanNoScan(s, a);
    } else if Takes(a) {
      TakeNoScan(s, a);
    } else if Dispatches(a) {
      DispatchNoScan(s, a);
    } else if a.IdleLeave? {
      IdleNoScan(s, a);
    } else if Acts(a) && Acting(s, 0).Some? {
      ActNoScan(s, Acting(s, 0).value, a);
    }
  }

  lemma AlonePlain(s: State, a: Action)
    requires Alone(s) && Plain(a)
    ensures Alone(DoAt(s, 0, a))
  {
    PlainFrame(s, 0, a);
    OffNeverScans(s, a);
  }

  lemma AloneRest(s: State, a: Action)
    requires Alone(s) && (a.Root? || a.TimerFire? || a.IdleEnter?)
    ensures Alone(DoRest(s, 0, a))
  {
    match a {
      case Root(_, fits) => RootFrame(s, 0, fits);
      case TimerFire(_, t) => TimerFrame(s, 0, t);
      case IdleEnter(_) =>
    }
  }

  lemma AloneBegin(s: State, a: Action)
    requires Alone(s) && (a.CheckCancelled? || a.BeginExecute?)
    ensures Alone(DoDispatch(s, 0, a))
  {
  }

  lemma AloneAt(s: State, a: Action)
    requires Alone(s)
    ensures Alone(DoAt(s, 0, a))
  {
    if a.Root? || a.TimerFire? || a.IdleEnter? {
      AloneRest(s, a);
    } else if a.CheckCancelled? || a.BeginExecute? {
      AloneBegin(s, a);
    } else {
      AlonePlain(s, a);
    }
  }

  lemma AloneEvent(s: State, a: Action)
    requires Alone(s) && WorkersOk(s) && !a.RequestShutdown? && !OfWorker(a)
    ensures Alone(DoRuntime(s, a))
  {
    if a.SyncWake? || a.IoComplete? || a.CancelAll? || a.FinishRun? {
      EventFrame(s, a);
    }
  }

  lemma AloneWorker(s: State, a: Action)
    requires Alone(s) && OfWorker(a)
    ensures Alone(Do(s, a))
  {
    if a.p == 0 {
      assert Do(s, a) == DoAt(s, 0, a);
      AloneAt(s, a);
    } else {
      assert Do(s, a) == s;
    }
  }

  lemma AloneRuntime(s: State, a: Action)
    requires Alone(s) && WorkersOk(s) && !a.RequestShutdown? && !OfWorker(a)
    ensures Alone(Do(s, a))
  {
    assert Do(s, a) == DoRuntime(s, a);
    AloneEvent(s, a);
  }

  lemma AloneStep(s: State, a: Action, run: RunMap, wait: WaitMap)
    requires Alone(s) && Inv(s, run, wait) && !a.RequestShutdown?
    ensures Alone(Do(s, a)) && SafeAction(s, a)
  {
    if OfWorker(a) {
      AloneWorker(s, a);
    } else {
      AloneRuntime(s, a);
    }
  }

  /** With one worker every spawn is safe: only the worker itself stops the run,
      and it stops it between scans. */
  lemma {:induction false} OneWorkerIsSafe(s: State, actions: seq<Action>, run: RunMap, wait: WaitMap)
    requires Alone(s) && Inv(s, run, wait)
    requires forall a :: a in actions ==> !a.RequestShutdown?
    ensures SafeRun(s, actions)
    decreases |actions|
  {
    if actions != [] {
      var a, s' := actions[0], Do(s, actions[0]);
      assert a in actions;
      AloneStep(s, a, run, wait);
      var run', wait' := StepKeeps(s, a, run, wait);
      OneWorkerIsSafe(s', actions[1..], run', wait');
    }
  }

  // ---------------------------------------------------------- careful programs

  /** There is no shutdown, and the owner spawns nothing once it has started a run;
      task bodies may spawn whenever they like. */
  ghost predicate Careful(actions: seq<Action>)
  {
    && (forall i :: 0 <= i < |actions| ==> !actions[i].RequestShutdown?)
    && (forall i, j :: 0 <= i < j < |actions| && actions[i].RunStart? ==>
          !(actions[j].Spawn? && actions[j].who.Owner?))
  }

  /** Nothing has run yet. */
  predicate NotStarted(s: State)
  {
    !s.running && forall p :: 0 <= p < |s.workers| ==> s.workers[p].phase.Off?
  }

  lemma NotStartedAt(s: State, p: nat, a: Action)
    requires NotStarted(s) && p < |s.workers| && OfWorker(a)
    ensures NotStarted(DoAt(s, p, a))
  {
    if a.TimerFire? {
      TimerFrame(s, p, a.t);
    } else {
      assert DoAt(s, p, a) == s;
    }
  }

  lemma NotStartedEvent(s: State, a: Action)
    requires NotStarted(s) && s.workers != [] && !OfWorker(a) && !a.RunStart?
    ensures NotStarted(DoRuntime(s, a))
  {
  }

  lemma NotStartedStays(s: State, a: Action)
    requires NotStarted(s) && !a.RunStart?
    ensures NotStarted(Do(s, a))
  {
    if s.workers != [] && !OfWorker(a) {
      NotStartedEvent(s, a);
    } else if s.workers != [] && a.p < |s.workers| {
      NotStartedAt(s, a.p, a);
    }
  }

  /** While the run is off no task body can spawn. */
  lemma BodySpawnIsSafe(s: State, a: Action)
    requires Sound(s) && !a.RequestShutdown? && (a.Spawn? ==> a.who.Body?)
    ensures SafeAction(s, a)
  {
    if a.Spawn? && !s.running && a.who.p < |s.workers| {
      assert WorkerQuiet(s.workers[a.who.p], s.live == 0);
    }
  }

  lemma {:induction false} BodySpawnsAreSafe(s: State, actions: seq<Action>, run: RunMap, wait: WaitMap)
    requires Inv(s, run, wait) && Sound(s)
    requires forall i :: 0 <= i < |actions| ==>
               !actions[i].RequestShutdown? && (actions[i].Spawn? ==> actions[i].who.Body?)
    ensures SafeRun(s, actions)
    decreases |actions|
  {
    if actions != [] {
      BodySpawnIsSafe(s, actions[0]);
      var run', wait' := SoundStep(s, actions[0], run, wait);
      BodySpawnsAreSafe(Do(s, actions[0]), actions[1..], run', wait');
    }
  }

  lemma {:induction false} CarefulIsSafe(s: State, actions: seq<Action>, run: RunMap, wait: WaitMap)
    requires Inv(s, run, wait) && Sound(s) && NotStarted(s) && Careful(actions)
    ensures SafeRun(s, actions)
    decreases |actions|
  {
    if actions != [] {
      var a := actions[0];
      var run', wait' := SoundStep(s, a, run, wait);
      if a.RunStart? {
        BodySpawnsAreSafe(Do(s, a), actions[1..], run', wait');
      } else {
        NotStartedStays(s, a);
        CarefulIsSafe(Do(s, a), actions[1..], run', wait');
      }
    }
  }

  /** What a program can do to be safe, without knowing where the workers are: use
      one worker, or spawn from the owner only before its first run.  Then no task
      is ever lost. */
  lemma ProgramIsSafe(workers: nat, actions: seq<Action>, s: State)
    requires workers > 0 && Reaches(Initial(workers), actions, s)
    requires forall a :: a in actions ==> !a.RequestShutdown?
    requires workers == 1 || Careful(actions)
    ensures SafeRun(Initial(workers), actions) && s.lost == {}
  {
    InitialInv(workers);
    InitialSound(workers);
    if workers == 1 {
      OneWorkerIsSafe(Initial(workers), actions, map[], map[]);
    } else {
      CarefulIsSafe(Initial(workers), actions, map[], map[]);
    }
    var run, wait := SafeRunInv(workers, actions, s);
  }
}
