/** Concrete runs in which the runtime fails its callers: a task is lost and the
    deadlock verdict is false; and a joiner is left behind by a cancelled task. */
module SchedulerRuns {
  import opened Common
  import opened Paths
  import opened GlobalQueue
  import opened Scheduler
  import opened SchedulerTheorems
  import opened SchedulerJoins
  import opened SchedulerStops

  // ---------------------------------------------------------- a false verdict

  const QUEUED := Task(Runnable, true, None, None, false, false, false, [])
  const TAKEN := QUEUED.(queued := false)
  const STARTED := Task(Running, false, None, Some(0), true, false, false, [])
  const FINISHED := Task(Done, false, None, Some(0), false, false, false, [])

  /** Two workers and task 1, not yet finished. */
  function First(p0: Phase, p1: Phase, task: Task, global: seq<TaskId>, running: bool, active: nat): State
  {
    State([Worker(p0, false, [], {}), Worker(p1, false, [], {})], map[1 := task], [1], global, map[],
          running, false, false, 1, active, 0, 0, 0, 1, 0, 0, {})
  }

  /** Task 1 is finished, the run is over, and the workers are still at p0 and p1. */
  function Over(p0: Phase, p1: Phase): State
  {
    State([Worker(p0, false, [], {}), Worker(p1, false, [], {})], map[1 := FINISHED], [1], [], map[],
          false, false, false, 0, 0, 0, 0, 0, 1, 1, 0, {})
  }

  /** Task 2 has been spawned and lost. */
  function Second(p0: Phase, p1: Phase, idle: nat, running: bool, deadlock: bool): State
  {
    State([Worker(p0, p0.Idling?, [], {}), Worker(p1, p1.Idling?, [], {})],
          map[1 := FINISHED, 2 := TAKEN], [2, 1], [], map[],
          running, deadlock, false, 1, 0, idle, 0, 0, 2, 1, 0, {2})
  }

  const START := [Spawn(1, Owner), RunStart, Enter(1), LoopCheck(1), LoopCheck(0), PopLocal(0)]
  const FINISH := [TakeGlobal(0, 0), BeginExecute(0), Resume(0, true), Return(0), Root(0, true)]
  const LOSE := [LoopCheck(0), FinishRun, Spawn(2, Owner), PopLocal(1), TakeGlobal(1, 0)]
  const AGAIN := [BeginExecute(1), RunStart, LoopCheck(0), LoopCheck(1), PopLocal(0)]
  const VERDICT := [PopLocal(1), TakeGlobal(0, 0), TakeGlobal(1, 0), IdleEnter(0), IdleEnter(1)]

  lemma FirstMoves(p0: Phase, p1: Phase, task: Task, global: seq<TaskId>, running: bool, active: nat, phase: Phase)
    ensures WithPhase(First(p0, p1, task, global, running, active), 0, phase)
         == First(phase, p1, task, global, running, active)
    ensures WithPhase(First(p0, p1, task, global, running, active), 1, phase)
         == First(p0, phase, task, global, running, active)
  {
    var ws := First(p0, p1, task, global, running, active).workers;
    assert ws[0 := ws[0].(phase := phase)] == [Worker(phase, false, [], {}), ws[1]];
    assert ws[1 := ws[1].(phase := phase)] == [ws[0], Worker(phase, false, [], {})];
  }

  lemma SpawnAdds(s: State, t: TaskId)
    requires !s.shutdown && t !in s.tasks && MaySpawn(s, Owner)
    ensures Do(s, Spawn(t, Owner)) == s.(tasks := s.tasks[t := QUEUED], all := [t] + s.all, global := s.global + [t],
                                live := s.live + 1, spawned := s.spawned + 1)
  {
  }

  lemma SpawnsFirst()
    ensures Do(Initial(2), Spawn(1, Owner)) == First(Off, Off, QUEUED, [1], false, 0)
  {
    var s := Initial(2);
    assert s.workers == [Worker(Off, false, [], {}), Worker(Off, false, [], {})];
    assert [] + [1] == [1] && [1] + [] == [1];
    SpawnAdds(s, 1);
  }

  lemma StartsFirst()
    ensures Do(First(Off, Off, QUEUED, [1], false, 0), RunStart) == First(LoopTop, Off, QUEUED, [1], true, 0)
    ensures Do(First(LoopTop, Off, QUEUED, [1], true, 0), Enter(1)) == First(LoopTop, LoopTop, QUEUED, [1], true, 0)
  {
    FirstMoves(Off, Off, QUEUED, [1], true, 0, LoopTop);
    FirstMoves(LoopTop, Off, QUEUED, [1], true, 0, LoopTop);
  }

  lemma ScansFirst()
    ensures Do(First(LoopTop, LoopTop, QUEUED, [1], true, 0), LoopCheck(1))
         == First(LoopTop, TryLocal, QUEUED, [1], true, 0)
    ensures Do(First(LoopTop, TryLocal, QUEUED, [1], true, 0), LoopCheck(0))
         == First(TryLocal, TryLocal, QUEUED, [1], true, 0)
    ensures Do(First(TryLocal, TryLocal, QUEUED, [1], true, 0), PopLocal(0))
         == First(TryGlobal, TryLocal, QUEUED, [1], true, 0)
  {
    FirstMoves(LoopTop, LoopTop, QUEUED, [1], true, 0, TryLocal);
    FirstMoves(LoopTop, TryLocal, QUEUED, [1], true, 0, TryLocal);
    FirstMoves(TryLocal, TryLocal, QUEUED, [1], true, 0, TryGlobal);
  }

  lemma RunStarts()
    ensures Reaches(Initial(2), START, First(TryGlobal, TryLocal, QUEUED, [1], true, 0))
  {
    SpawnsFirst();
    StartsFirst();
    ScansFirst();
    FiveSteps(Do, First(Off, Off, QUEUED, [1], false, 0), RunStart,
              First(LoopTop, Off, QUEUED, [1], true, 0), Enter(1),
              First(LoopTop, LoopTop, QUEUED, [1], true, 0), LoopCheck(1),
              First(LoopTop, TryLocal, QUEUED, [1], true, 0), LoopCheck(0),
              First(TryLocal, TryLocal, QUEUED, [1], true, 0), PopLocal(0),
              First(TryGlobal, TryLocal, QUEUED, [1], true, 0));
    PathOne(Do, Initial(2), Spawn(1, Owner), START[1..], First(TryGlobal, TryLocal, QUEUED, [1], true, 0));
    assert [Spawn(1, Owner)] + START[1..] == START;
  }

  lemma TakesFirst()
    ensures Do(First(TryGlobal, TryLocal, QUEUED, [1], true, 0), TakeGlobal(0, 0))
         == First(Hand(1), TryLocal, TAKEN, [], true, 0)
  {
    var s := First(TryGlobal, TryLocal, QUEUED, [1], true, 0);
    assert 1 in Eligible(s, 0);
    assert FirstIn([1], Eligible(s, 0)) == 0;
    assert Take([1], Eligible(s, 0), Unstarted(s), true, 0) == Taken(Some(1), [], []);
    assert s.workers[0].(local := [] + []) == s.workers[0];
    assert s.workers[0 := s.workers[0]] == s.workers;
    FirstMoves(TryGlobal, TryLocal, TAKEN, [], true, 0, Hand(1));
  }

  lemma ExecutesFirst()
    ensures Do(First(Hand(1), TryLocal, TAKEN, [], true, 0), BeginExecute(0))
         == First(Started(1), TryLocal, STARTED, [], true, 1)
  {
    FirstMoves(Hand(1), TryLocal, STARTED, [], true, 1, Started(1));
  }

  lemma ResumesFirst()
    ensures Do(First(Started(1), TryLocal, STARTED, [], true, 1), Resume(0, true))
         == First(Inside(1), TryLocal, STARTED.(fiber := Some(0)), [], true, 1)
  {
    FirstMoves(Started(1), TryLocal, STARTED.(fiber := Some(0)), [], true, 1, Inside(1));
    var s := First(Started(1), TryLocal, STARTED, [], true, 1);
    assert Do(s, Resume(0, true)) == DoResume(s, 0, true);
  }

  lemma ReturnsFirst()
    ensures Do(First(Inside(1), TryLocal, STARTED.(fiber := Some(0)), [], true, 1), Return(0))
         == First(Returned(1, FiberDone), TryLocal, STARTED.(fiber := Some(0)), [], true, 1)
  {
    FirstMoves(Inside(1), TryLocal, STARTED.(fiber := Some(0)), [], true, 1, Returned(1, FiberDone));
    var s := First(Inside(1), TryLocal, STARTED.(fiber := Some(0)), [], true, 1);
    assert Acting(s, 0) == Some(1);
    assert Do(s, Return(0)) == WithPhase(s, 0, Returned(1, FiberDone));
  }

  lemma SettlesFirst()
    ensures Do(First(Returned(1, FiberDone), TryLocal, STARTED.(fiber := Some(0)), [], true, 1), Root(0, true))
         == Over(LoopTop, TryLocal)
  {
    FirstMoves(Returned(1, FiberDone), TryLocal, STARTED.(fiber := Some(0), executing := false), [], true, 0, LoopTop);
    var s := First(LoopTop, TryLocal, STARTED.(fiber := Some(0), executing := false), [], true, 0);
    assert Settle(s, 0, 1, FiberDone, true) == Over(LoopTop, TryLocal).(running := true);
  }

  lemma RunFinishes()
    ensures Reaches(First(TryGlobal, TryLocal, QUEUED, [1], true, 0), FINISH, Over(LoopTop, TryLocal))
  {
    TakesFirst();
    ExecutesFirst();
    ResumesFirst();
    ReturnsFirst();
    SettlesFirst();
    FiveSteps(Do, First(TryGlobal, TryLocal, QUEUED, [1], true, 0), TakeGlobal(0, 0),
              First(Hand(1), TryLocal, TAKEN, [], true, 0), BeginExecute(0),
              First(Started(1), TryLocal, STARTED, [], true, 1), Resume(0, true),
              First(Inside(1), TryLocal, STARTED.(fiber := Some(0)), [], true, 1), Return(0),
              First(Returned(1, FiberDone), TryLocal, STARTED.(fiber := Some(0)), [], true, 1), Root(0, true),
              Over(LoopTop, TryLocal));
  }

  lemma OverMoves(p0: Phase, p1: Phase, phase: Phase)
    ensures WithPhase(Over(p0, p1), 0, phase) == Over(phase, p1)
  {
    var ws := Over(p0, p1).workers;
    assert ws[0 := ws[0].(phase := phase)] == [Worker(phase, false, [], {}), ws[1]];
  }

  /** The owner's call returns while worker 1 is still scanning. */
  lemma RunReturns()
    ensures Do(Over(LoopTop, TryLocal), LoopCheck(0)) == Over(Draining, TryLocal)
    ensures Do(Over(Draining, TryLocal), FinishRun) == Over(Off, TryLocal)
  {
    OverMoves(LoopTop, TryLocal, Draining);
    OverMoves(Draining, TryLocal, Off);
  }

  /** Task 2 spawned, worker 1 at p1. */
  function Spawned(p1: Phase, task: Task, global: seq<TaskId>): State
  {
    State([Worker(Off, false, [], {}), Worker(p1, false, [], {})],
          map[1 := FINISHED, 2 := task], [2, 1], global, map[],
          false, false, false, 1, 0, 0, 0, 0, 2, 1, 0, {})
  }

  lemma SpawnedMoves(p1: Phase, task: Task, global: seq<TaskId>, phase: Phase)
    ensures WithPhase(Spawned(p1, task, global), 1, phase) == Spawned(phase, task, global)
  {
    var ws := Spawned(p1, task, global).workers;
    assert ws[1 := ws[1].(phase := phase)] == [ws[0], Worker(phase, false, [], {})];
  }

  lemma SpawnsSecond()
    ensures Do(Over(Off, TryLocal), Spawn(2, Owner)) == Spawned(TryLocal, QUEUED, [2])
  {
    var s := Over(Off, TryLocal);
    assert MaySpawn(s, Owner);
    SpawnAdds(s, 2);
    assert [2] + [1] == [2, 1] && [] + [2] == [2];
    assert map[1 := FINISHED][2 := QUEUED] == map[1 := FINISHED, 2 := QUEUED];
  }

  lemma PopsSecond()
    ensures Do(Spawned(TryLocal, QUEUED, [2]), PopLocal(1)) == Spawned(TryGlobal, QUEUED, [2])
  {
    SpawnedMoves(TryLocal, QUEUED, [2], TryGlobal);
  }

  lemma TakesSecond()
    ensures Do(Spawned(TryGlobal, QUEUED, [2]), TakeGlobal(1, 0)) == Spawned(Hand(2), TAKEN, [])
  {
    var s := Spawned(TryGlobal, QUEUED, [2]);
    assert 2 in Eligible(s, 1);
    assert FirstIn([2], Eligible(s, 1)) == 0;
    assert Take([2], Eligible(s, 1), Unstarted(s), true, 0) == Taken(Some(2), [], []);
    assert s.workers[1].(local := [] + []) == s.workers[1];
    assert s.workers[1 := s.workers[1]] == s.workers;
    SpawnedMoves(TryGlobal, TAKEN, [], Hand(2));
  }

  lemma DropsSecond()
    ensures Do(Spawned(Hand(2), TAKEN, []), BeginExecute(1)) == Second(Off, LoopTop, 0, false, false)
  {
    SpawnedMoves(Hand(2), TAKEN, [], LoopTop);
  }

  lemma SecondMoves(p0: Phase, p1: Phase, idle: nat, running: bool, deadlock: bool, phase: Phase)
    requires !p0.Idling? && !p1.Idling? && !phase.Idling?
    ensures WithPhase(Second(p0, p1, idle, running, deadlock), 0, phase) == Second(phase, p1, idle, running, deadlock)
    ensures WithPhase(Second(p0, p1, idle, running, deadlock), 1, phase) == Second(p0, phase, idle, running, deadlock)
  {
    var ws := Second(p0, p1, idle, running, deadlock).workers;
    assert ws[0 := ws[0].(phase := phase)] == [Worker(phase, false, [], {}), ws[1]];
    assert ws[1 := ws[1].(phase := phase)] == [ws[0], Worker(phase, false, [], {})];
  }

  lemma LosesSecond()
    ensures Reaches(Over(LoopTop, TryLocal), LOSE, Spawned(Hand(2), TAKEN, []))
  {
    RunReturns();
    SpawnsSecond();
    PopsSecond();
    TakesSecond();
    FiveSteps(Do, Over(LoopTop, TryLocal), LoopCheck(0),
              Over(Draining, TryLocal), FinishRun,
              Over(Off, TryLocal), Spawn(2, Owner),
              Spawned(TryLocal, QUEUED, [2]), PopLocal(1),
              Spawned(TryGlobal, QUEUED, [2]), TakeGlobal(1, 0),
              Spawned(Hand(2), TAKEN, []));
  }

  lemma StartsAgain()
    ensures Do(Second(Off, LoopTop, 0, false, false), RunStart) == Second(LoopTop, LoopTop, 0, true, false)
    ensures Do(Second(LoopTop, LoopTop, 0, true, false), LoopCheck(0)) == Second(TryLocal, LoopTop, 0, true, false)
  {
    SecondMoves(Off, LoopTop, 0, true, false, LoopTop);
    SecondMoves(LoopTop, LoopTop, 0, true, false, TryLocal);
  }

  lemma RunsAgain()
    ensures Reaches(Spawned(Hand(2), TAKEN, []), AGAIN, Second(TryGlobal, TryLocal, 0, true, false))
  {
    DropsSecond();
    StartsAgain();
    SecondMoves(TryLocal, LoopTop, 0, true, false, TryLocal);
    SecondMoves(TryLocal, TryLocal, 0, true, false, TryGlobal);
    FiveSteps(Do, Spawned(Hand(2), TAKEN, []), BeginExecute(1),
              Second(Off, LoopTop, 0, false, false), RunStart,
              Second(LoopTop, LoopTop, 0, true, false), LoopCheck(0),
              Second(TryLocal, LoopTop, 0, true, false), LoopCheck(1),
              Second(TryLocal, TryLocal, 0, true, false), PopLocal(0),
              Second(TryGlobal, TryLocal, 0, true, false));
  }

  lemma FindsNothing(p0: Phase, p1: Phase, p: nat)
    requires p < 2 && !p0.Idling? && !p1.Idling? && [p0, p1][p].TryGlobal?
    ensures Do(Second(p0, p1, 0, true, false), TakeGlobal(p, 0))
         == WithPhase(Second(p0, p1, 0, true, false), p, TrySteal)
  {
    var s := Second(p0, p1, 0, true, false);
    assert Take([], Eligible(s, p), Unstarted(s), true, 0) == Taken(None, [], []);
    assert s.workers[p].(local := [] + []) == s.workers[p];
    assert s.workers[p := s.workers[p]] == s.workers;
  }

  lemma IdlesFirst()
    ensures Do(Second(TrySteal, TrySteal, 0, true, false), IdleEnter(0))
         == Second(Idling, TrySteal, 1, true, false)
  {
    var ws := Second(TrySteal, TrySteal, 0, true, false).workers;
    assert ws[0 := Worker(TrySteal, true, [], {})][0 := Worker(Idling, true, [], {})]
        == [Worker(Idling, true, [], {}), ws[1]];
  }

  lemma DeclaresDeadlock()
    ensures Do(Second(Idling, TrySteal, 1, true, false), IdleEnter(1))
         == Second(Idling, Idling, 2, false, true)
  {
    var ws := Second(Idling, TrySteal, 1, true, false).workers;
    assert ws[1 := Worker(TrySteal, true, [], {})][1 := Worker(Idling, true, [], {})]
        == [ws[0], Worker(Idling, true, [], {})];
  }

  lemma ScansAgain()
    ensures Do(Second(TryGlobal, TryLocal, 0, true, false), PopLocal(1)) == Second(TryGlobal, TryGlobal, 0, true, false)
    ensures Do(Second(TryGlobal, TryGlobal, 0, true, false), TakeGlobal(0, 0))
         == Second(TrySteal, TryGlobal, 0, true, false)
    ensures Do(Second(TrySteal, TryGlobal, 0, true, false), TakeGlobal(1, 0))
         == Second(TrySteal, TrySteal, 0, true, false)
  {
    SecondMoves(TryGlobal, TryLocal, 0, true, false, TryGlobal);
    FindsNothing(TryGlobal, TryGlobal, 0);
    SecondMoves(TryGlobal, TryGlobal, 0, true, false, TrySteal);
    FindsNothing(TrySteal, TryGlobal, 1);
    SecondMoves(TrySteal, TryGlobal, 0, true, false, TrySteal);
  }

  lemma GivesVerdict()
    ensures Reaches(Second(TryGlobal, TryLocal, 0, true, false), VERDICT, Second(Idling, Idling, 2, false, true))
  {
    ScansAgain();
    IdlesFirst();
    DeclaresDeadlock();
    FiveSteps(Do, Second(TryGlobal, TryLocal, 0, true, false), PopLocal(1),
              Second(TryGlobal, TryGlobal, 0, true, false), TakeGlobal(0, 0),
              Second(TrySteal, TryGlobal, 0, true, false), TakeGlobal(1, 0),
              Second(TrySteal, TrySteal, 0, true, false), IdleEnter(0),
              Second(Idling, TrySteal, 1, true, false), IdleEnter(1),
              Second(Idling, Idling, 2, false, true));
  }

  /** The verdict is not sound in every run: with two workers, task 1 finishes, the
      owner's call returns, and the owner spawns task 2 while worker 1 has not ended
      its scan of the first run.  The next run stops as deadlocked although its only
      live task is runnable. */
  lemma FalseVerdict()
    ensures Reaches(Initial(2), START + FINISH + LOSE + AGAIN + VERDICT, Second(Idling, Idling, 2, false, true))
    ensures var s := Second(Idling, Idling, 2, false, true);
            s.deadlock && s.tasks[2].state.Runnable? && !s.shutdown && s.lost == {2}
    ensures Reaches(Over(LoopTop, TryLocal), [LoopCheck(0), FinishRun], Over(Off, TryLocal))
    ensures !SafeToSpawn(Over(Off, TryLocal)) && MaySpawn(Over(Off, TryLocal), Owner)
  {
    RunStarts();
    RunFinishes();
    PathThen(Do, Initial(2), START, First(TryGlobal, TryLocal, QUEUED, [1], true, 0), FINISH, Over(LoopTop, TryLocal));
    LosesSecond();
    PathThen(Do, Initial(2), START + FINISH, Over(LoopTop, TryLocal), LOSE, Spawned(Hand(2), TAKEN, []));
    RunsAgain();
    PathThen(Do, Initial(2), START + FINISH + LOSE, Spawned(Hand(2), TAKEN, []),
             AGAIN, Second(TryGlobal, TryLocal, 0, true, false));
    GivesVerdict();
    PathThen(Do, Initial(2), START + FINISH + LOSE + AGAIN, Second(TryGlobal, TryLocal, 0, true, false),
             VERDICT, Second(Idling, Idling, 2, false, true));
    RunReturns();
    PathTwo(Do, Over(LoopTop, TryLocal), LoopCheck(0), FinishRun);
    assert Scanning(Over(Off, TryLocal).workers[1].phase);
  }

  // ---------------------------------------------------------- a joiner left behind

  /** One worker at phase, in a run. */
  predicate Alone1(s: State, phase: Phase)
  {
    s.workers == [Worker(phase, false, [], {})] && s.running && !s.shutdown
  }

  function At(s: State, phase: Phase): State
  {
    s.(workers := [Worker(phase, false, [], {})])
  }

  lemma AtMoves(s: State, now: Phase, phase: Phase)
    requires s.workers == [Worker(now, false, [], {})]
    ensures WithPhase(s, 0, phase) == At(s, phase)
  {
    assert s.workers[0 := s.workers[0].(phase := phase)] == [Worker(phase, false, [], {})];
  }

  /** Every queued task has yet to start. */
  predicate AllNew(s: State)
  {
    forall u :: u in s.global ==> u in s.tasks && s.tasks[u].fiber.None? && s.tasks[u].state.Runnable?
  }

  const SCAN := [LoopCheck(0), PopLocal(0)]

  lemma Scans1(s: State)
    requires Alone1(s, LoopTop)
    ensures Reaches(s, SCAN, At(s, TryGlobal))
  {
    AtMoves(s, LoopTop, TryLocal);
    AtMoves(At(s, TryLocal), TryLocal, TryGlobal);
    PathTwo(Do, s, LoopCheck(0), PopLocal(0));
  }

  /** The head of the queue is started. */
  function Begun(s: State): State
    requires s.global != [] && s.global[0] in s.tasks
  {
    var t := s.global[0];
    At(s, Started(t)).(global := s.global[1..], active := s.active + 1,
      tasks := s.tasks[t := s.tasks[t].(queued := false, state := Running, executing := true, lastP := Some(0))])
  }

  /** The head of the queue is in hand. */
  function Took(s: State): State
    requires s.global != [] && s.global[0] in s.tasks
  {
    var t := s.global[0];
    At(s, Hand(t)).(global := s.global[1..], tasks := s.tasks[t := s.tasks[t].(queued := false)])
  }

  lemma TakesHead(s: State)
    requires Alone1(s, LoopTop) && AllNew(s) && s.global != []
    ensures Do(At(s, TryGlobal), TakeGlobal(0, 0)) == Took(s)
  {
    var t, s1 := s.global[0], At(s, TryGlobal);
    TakeAloneIsFifo(s.global, Eligible(s1, 0), Unstarted(s1), 0);
    assert s1.workers[0].(local := [] + []) == s1.workers[0] && s1.workers[0 := s1.workers[0]] == s1.workers;
    AtMoves(s1.(global := s.global[1..], tasks := Took(s).tasks), TryGlobal, Hand(t));
    assert Do(s1, TakeGlobal(0, 0)) == DoTakeGlobal(s1, 0, 0);
  }

  lemma BeginsHead(s: State)
    requires Alone1(s, LoopTop) && AllNew(s) && s.global != []
    ensures Do(Took(s), BeginExecute(0)) == Begun(s)
  {
    var t, s1 := s.global[0], Took(s);
    AtMoves(s1.(tasks := Begun(s).tasks), Hand(t), Started(t));
    assert s1.tasks[t := Begun(s).tasks[t]] == Begun(s).tasks;
    assert Do(s1, BeginExecute(0)) == DoBeginExecute(s1, 0);
  }

  const START_HEAD := SCAN + [TakeGlobal(0, 0), BeginExecute(0)]

  lemma StartsHead(s: State)
    requires Alone1(s, LoopTop) && AllNew(s) && s.global != []
    ensures Reaches(s, START_HEAD, Begun(s))
  {
    Scans1(s);
    TakesHead(s);
    BeginsHead(s);
    TwoSteps(Do, At(s, TryGlobal), TakeGlobal(0, 0), Took(s), BeginExecute(0), Begun(s));
    PathThen(Do, s, SCAN, At(s, TryGlobal), [TakeGlobal(0, 0), BeginExecute(0)], Begun(s));
  }

  /** The started task t joins u and parks. */
  function JoinedTo(s: State, t: TaskId, u: TaskId): State
    requires t in s.tasks && u in s.tasks
  {
    At(s, LoopTop).(active := s.active - 1,
      tasks := s.tasks[t := s.tasks[t].(state := Waiting, executing := false, fiber := Some(0))]
                      [u := s.tasks[u].(waiters := s.tasks[u].waiters + [t])])
  }

  /** The started task t is about to join u. */
  predicate Joins(s: State, t: TaskId, u: TaskId)
  {
    && Alone1(s, Started(t)) && t in s.tasks && u in s.tasks && t != u && s.live != 0
    && s.tasks[t].state.Running? && s.tasks[t].fiber.None? && !s.tasks[t].wakePending
    && !Terminal(s.tasks[u].state)
  }

  /** It has joined, and still has its thread. */
  function Joining(s: State, t: TaskId, u: TaskId): State
    requires t in s.tasks && u in s.tasks
  {
    At(s, Inside(t)).(tasks := s.tasks[t := s.tasks[t].(state := Waiting, fiber := Some(0))]
                                      [u := s.tasks[u].(waiters := s.tasks[u].waiters + [t])])
  }

  lemma ResumesAndJoins(s: State, t: TaskId, u: TaskId)
    requires Joins(s, t, u)
    ensures Do(Do(s, Resume(0, true)), Join(0, u)) == Joining(s, t, u)
  {
    var s1 := At(s, Inside(t)).(tasks := s.tasks[t := s.tasks[t].(fiber := Some(0))]);
    AtMoves(WithTask(s, t, s.tasks[t].(fiber := Some(0))), Started(t), Inside(t));
    assert Do(s, Resume(0, true)) == DoResume(s, 0, true) == s1;
    assert Acting(s1, 0) == Some(t);
    assert Do(s1, Join(0, u)) == DoJoin(s1, t, u);
    assert s1.tasks[t := s1.tasks[t].(state := Waiting)]
        == s.tasks[t := s.tasks[t].(state := Waiting, fiber := Some(0))];
  }

  lemma SuspendsWaiting(s: State, t: TaskId)
    requires Alone1(s, Inside(t)) && t in s.tasks && s.live != 0
    requires s.tasks[t].state.Waiting? && !s.tasks[t].wakePending
    ensures Do(Do(s, Suspend(0)), Root(0, true)) ==
            At(s, LoopTop).(active := s.active - 1, tasks := s.tasks[t := s.tasks[t].(executing := false)])
  {
    var s1 := At(s, Returned(t, FiberSuspended));
    AtMoves(s, Inside(t), Returned(t, FiberSuspended));
    assert Do(s, Suspend(0)) == s1;
    AtMoves(WithTask(s1, t, s.tasks[t].(executing := false)).(active := s.active - 1),
            Returned(t, FiberSuspended), LoopTop);
    assert Do(s1, Root(0, true)) == DoRoot(s1, 0, true);
  }

  lemma ParksJoined(s: State, t: TaskId, u: TaskId)
    requires Joins(s, t, u)
    ensures Do(Do(Joining(s, t, u), Suspend(0)), Root(0, true)) == JoinedTo(s, t, u)
  {
    var m := Joining(s, t, u).tasks;
    SuspendsWaiting(Joining(s, t, u), t);
    assert m[t := m[t].(executing := false)] == JoinedTo(s, t, u).tasks;
  }

  function JOIN(u: TaskId): seq<Action>
  {
    [Resume(0, true), Join(0, u)] + [Suspend(0), Root(0, true)]
  }

  lemma JoinsAway(s: State, t: TaskId, u: TaskId)
    requires Joins(s, t, u)
    ensures Reaches(s, JOIN(u), JoinedTo(s, t, u))
  {
    ResumesAndJoins(s, t, u);
    ParksJoined(s, t, u);
    PathTwo(Do, s, Resume(0, true), Join(0, u));
    PathTwo(Do, Joining(s, t, u), Suspend(0), Root(0, true));
    PathThen(Do, s, [Resume(0, true), Join(0, u)], Joining(s, t, u), [Suspend(0), Root(0, true)], JoinedTo(s, t, u));
  }

  /** The started task t has got no fiber. */
  function NotResumed(s: State, t: TaskId): State
    requires t in s.tasks
  {
    At(s, LoopTop).(active := s.active - 1, live := Less(s.live), cancelled := s.cancelled + 1,
      tasks := s.tasks[t := s.tasks[t].(state := Cancelled, executing := false, fiber := None)])
  }

  const FAIL := [Resume(0, false), Root(0, true)]

  lemma FailsToResume(s: State, t: TaskId)
    requires Alone1(s, Started(t)) && t in s.tasks && s.live > 1
    ensures Reaches(s, FAIL, NotResumed(s, t))
  {
    var s1 := At(s, Returned(t, ResumeFailed));
    AtMoves(s, Started(t), Returned(t, ResumeFailed));
    assert Do(s, Resume(0, false)) == s1;
    RootRefuses(s, s1, t);
    TwoSteps(Do, s, Resume(0, false), s1, Root(0, true), NotResumed(s, t));
  }

  lemma RootRefuses(s: State, s1: State, t: TaskId)
    requires Alone1(s, Started(t)) && t in s.tasks && s.live > 1 && s1 == At(s, Returned(t, ResumeFailed))
    ensures Do(s1, Root(0, true)) == NotResumed(s, t)
  {
    var s2 := WithTask(s1, t, s.tasks[t].(executing := false)).(active := s.active - 1);
    AtMoves(s2, Returned(t, ResumeFailed), LoopTop);
    assert s2.tasks[t := NotResumed(s, t).tasks[t]] == NotResumed(s, t).tasks;
    assert Do(s1, Root(0, true)) == DoRoot(s1, 0, true);
  }

  const GIVE_UP := SCAN + [TakeGlobal(0, 0), IdleEnter(0)]

  /** Stopped as deadlocked. */
  function GivenUp(s: State): State
  {
    s.(workers := [Worker(Idling, true, [], {})], idleWorkers := 1, running := false, deadlock := true)
  }

  lemma GivesUp(s: State)
    requires Alone1(s, LoopTop) && s.global == [] && s.live != 0 && s.timerCount == 0 && s.ioWaiting == 0
    requires s.idleWorkers == 0
    ensures Reaches(s, GIVE_UP, GivenUp(s))
  {
    var s1, s2 := At(s, TryGlobal), At(s, TrySteal);
    Scans1(s);
    assert Take([], Eligible(s1, 0), Unstarted(s1), false, 0) == Taken(None, [], []);
    assert s1.workers[0].(local := [] + []) == s1.workers[0] && s1.workers[0 := s1.workers[0]] == s1.workers;
    AtMoves(s1, TryGlobal, TrySteal);
    assert Do(s1, TakeGlobal(0, 0)) == DoTakeGlobal(s1, 0, 0) == s2;
    Stops1(s, s2);
    PathTwo(Do, s1, TakeGlobal(0, 0), IdleEnter(0));
    PathThen(Do, s, SCAN, s1, [TakeGlobal(0, 0), IdleEnter(0)], GivenUp(s));
  }

  lemma Stops1(s: State, s2: State)
    requires Alone1(s, LoopTop) && s.global == [] && s.live != 0 && s.timerCount == 0 && s.ioWaiting == 0
    requires s.idleWorkers == 0 && s2 == At(s, TrySteal)
    ensures Do(s2, IdleEnter(0)) == GivenUp(s)
  {
    var s3 := Idle(s2, 0);
    assert s3.workers == [Worker(TrySteal, true, [], {})];
    assert Stuck(s3);
    assert s3.workers[0 := Worker(Idling, true, [], {})] == [Worker(Idling, true, [], {})];
    assert Do(s2, IdleEnter(0)) == DoIdleEnter(s2, 0);
  }

  /** One worker about to look for work, and tasks 1 and 2. */
  function Pair(one: Task, two: Task, global: seq<TaskId>, live: nat, cancelled: nat): State
  {
    State([Worker(LoopTop, false, [], {})], map[1 := one, 2 := two], [2, 1], global, map[],
          true, false, false, live, 0, 0, 0, 0, 2, 0, cancelled, {})
  }

  const PARKED := Task(Waiting, false, Some(0), Some(0), false, false, false, [])
  const REFUSED := Task(Cancelled, false, None, Some(0), false, false, false, [1])
  const BOTH := [Spawn(1, Owner), Spawn(2, Owner)] + [RunStart]

  lemma SpawnsBoth()
    ensures Do(Do(Initial(1), Spawn(1, Owner)), Spawn(2, Owner)) ==
            Pair(QUEUED, QUEUED, [1, 2], 2, 0).(workers := [Worker(Off, false, [], {})], running := false)
  {
    var s := Initial(1);
    assert s.workers == [Worker(Off, false, [], {})];
    SpawnAdds(s, 1);
    var s1 := Do(s, Spawn(1, Owner));
    SpawnAdds(s1, 2);
    assert [2] + ([1] + []) == [2, 1] && [] + [1] + [2] == [1, 2];
    assert map[][1 := QUEUED][2 := QUEUED] == map[1 := QUEUED, 2 := QUEUED];
  }

  lemma BothStart()
    ensures Reaches(Initial(1), BOTH, Pair(QUEUED, QUEUED, [1, 2], 2, 0))
  {
    var s := Pair(QUEUED, QUEUED, [1, 2], 2, 0).(workers := [Worker(Off, false, [], {})], running := false);
    SpawnsBoth();
    PathTwo(Do, Initial(1), Spawn(1, Owner), Spawn(2, Owner));
    AtMoves(s.(running := true), Off, LoopTop);
    assert Do(s, RunStart) == Pair(QUEUED, QUEUED, [1, 2], 2, 0);
    PathOne(Do, s, RunStart, [], Pair(QUEUED, QUEUED, [1, 2], 2, 0));
    assert [RunStart] + [] == [RunStart];
    PathThen(Do, Initial(1), [Spawn(1, Owner), Spawn(2, Owner)], s, [RunStart], Pair(QUEUED, QUEUED, [1, 2], 2, 0));
  }

  lemma FirstJoins()
    ensures Reaches(Pair(QUEUED, QUEUED, [1, 2], 2, 0), START_HEAD + JOIN(2),
                    Pair(PARKED, QUEUED.(waiters := [1]), [2], 2, 0))
  {
    var s := Pair(QUEUED, QUEUED, [1, 2], 2, 0);
    StartsHead(s);
    var s1 := Begun(s);
    assert s1.tasks == map[1 := STARTED, 2 := QUEUED] && s1.global == [2];
    assert Joins(s1, 1, 2);
    JoinsAway(s1, 1, 2);
    assert [] + [1] == [1];
    assert JoinedTo(s1, 1, 2).tasks == map[1 := PARKED, 2 := QUEUED.(waiters := [1])];
    assert JoinedTo(s1, 1, 2) == Pair(PARKED, QUEUED.(waiters := [1]), [2], 2, 0);
    PathThen(Do, s, START_HEAD, s1, JOIN(2), JoinedTo(s1, 1, 2));
  }

  lemma SecondFails()
    ensures Reaches(Pair(PARKED, QUEUED.(waiters := [1]), [2], 2, 0), START_HEAD + FAIL,
                    Pair(PARKED, REFUSED, [], 1, 1))
  {
    var s := Pair(PARKED, QUEUED.(waiters := [1]), [2], 2, 0);
    StartsHead(s);
    var s1 := Begun(s);
    assert s1.tasks == map[1 := PARKED, 2 := STARTED.(waiters := [1])] && s1.global == [];
    FailsToResume(s1, 2);
    assert NotResumed(s1, 2).tasks == map[1 := PARKED, 2 := REFUSED];
    assert NotResumed(s1, 2) == Pair(PARKED, REFUSED, [], 1, 1);
    PathThen(Do, s, START_HEAD, s1, FAIL, NotResumed(s1, 2));
  }

  /** A run that strands a joiner: task 1 joins task 2, task 2 gets no fiber and is
      cancelled without waking task 1, and the run is stopped as deadlocked.  Nothing
      but a shutdown moves task 1 from then on. */
  lemma JoinerLeftBehind(more: seq<Action>, later: State)
    requires Reaches(GivenUp(Pair(PARKED, REFUSED, [], 1, 1)), more, later)
    ensures Reaches(Initial(1), BOTH + (START_HEAD + JOIN(2)) + (START_HEAD + FAIL) + GIVE_UP,
                    GivenUp(Pair(PARKED, REFUSED, [], 1, 1)))
    ensures var s := GivenUp(Pair(PARKED, REFUSED, [], 1, 1));
            s.deadlock && !s.shutdown && s.tasks[1].state.Waiting? && s.tasks[2].state.Cancelled? && JoinedOn(s, 1, 2)
    ensures 1 in later.tasks && (later.tasks[1].state.Waiting? || later.shutdown)
  {
    var s1, s2 := Pair(QUEUED, QUEUED, [1, 2], 2, 0), Pair(PARKED, QUEUED.(waiters := [1]), [2], 2, 0);
    var s3 := Pair(PARKED, REFUSED, [], 1, 1);
    BothStart();
    FirstJoins();
    PathThen(Do, Initial(1), BOTH, s1, START_HEAD + JOIN(2), s2);
    SecondFails();
    PathThen(Do, Initial(1), BOTH + (START_HEAD + JOIN(2)), s2, START_HEAD + FAIL, s3);
    GivesUp(s3);
    PathThen(Do, Initial(1), BOTH + (START_HEAD + JOIN(2)) + (START_HEAD + FAIL), s3, GIVE_UP, GivenUp(s3));
    StaysBehind(BOTH + (START_HEAD + JOIN(2)) + (START_HEAD + FAIL) + GIVE_UP, GivenUp(s3), more, later);
  }

  lemma StaysBehind(before: seq<Action>, s: State, more: seq<Action>, later: State)
    requires Reaches(Initial(1), before, s) && JoinedOn(s, 1, 2)
          && s.tasks[2].state.Cancelled? && Reaches(s, more, later)
    ensures 1 in later.tasks && (later.tasks[1].state.Waiting? || later.shutdown)
  {
    var run, wait := ReachableInv(1, s);
    assert Stranded(s, {1});
    StrandedForever(s, more, later, {1}, 1, run, wait);
  }
}
