/** Stealing keeps the scheduler's invariant. */
module SchedulerSteals {
  import opened Common
  import opened GlobalQueue
  import opened Scheduler
  import opened SchedulerInvariant
  import opened SchedulerSteps

  // ------------------------------------------------------------- one more item

  /** The workers after p has taken the oldest item of victim's deque. */
  ghost function Robbed(ws: seq<Worker>, p: nat, victim: nat, batch: seq<TaskId>): seq<Worker>
    requires p < |ws| && victim < |ws| && ws[victim].local != []
  {
    var v := ws[victim];
    var ws1 := ws[victim := v.(local := v.local[1..])];
    ws1[p := ws1[p].(phase := Stealing(victim, batch + [v.local[0]]))]
  }

  lemma RobbedCount(
      global: seq<TaskId>, ws: seq<Worker>, p: nat, victim: nat, batch: seq<TaskId>, u: TaskId, place: RunPlace)
    requires p < |ws| && victim < |ws| && p != victim && ws[victim].local != []
    requires Holding(ws[p].phase) == batch
    ensures var t := ws[victim].local[0];
            RunCount(global, Robbed(ws, p, victim, batch), u, place) + Once(u == t && place == InLocal(victim)) ==
            RunCount(global, ws, u, place) + Once(u == t && place == Held(p))
  {
    match place {
      case InLocal(i) => FirstOut(ws[victim].local, u);
      case _ =>
    }
  }

  lemma RobbedRun(global: seq<TaskId>, ws: seq<Worker>, p: nat, victim: nat, batch: seq<TaskId>, run: RunMap)
    requires RunPlaced(global, ws, run)
    requires p < |ws| && victim < |ws| && p != victim && ws[victim].local != []
    requires Holding(ws[p].phase) == batch
    ensures var t := ws[victim].local[0];
            && t in run && run[t] == InLocal(victim)
            && RunPlaced(global, Robbed(ws, p, victim, batch), run[t := Held(p)])
  {
    var t := ws[victim].local[0];
    HeldBy(global, ws, victim, t, run);
    forall u, place
      ensures RunCount(global, Robbed(ws, p, victim, batch), u, place)
           == Once(!place.Nowhere? && u in run[t := Held(p)] && run[t := Held(p)][u] == place)
    {
      RobbedCount(global, ws, p, victim, batch, u, place);
      assert RunCount(global, ws, u, place) == Once(!place.Nowhere? && u in run && run[u] == place);
    }
  }

  lemma RobbedTasks(s: State, p: nat, victim: nat, batch: seq<TaskId>, run: RunMap, wait: WaitMap)
    requires run.Keys == s.tasks.Keys && wait.Keys == s.tasks.Keys && TasksOk(s, run, wait)
    requires p < |s.workers| && victim < |s.workers| && p != victim && s.workers[victim].local != []
    requires s.workers[p].phase.TrySteal? || s.workers[p].phase.Stealing?
    requires s.workers[victim].local[0] in run && run[s.workers[victim].local[0]] == InLocal(victim)
    ensures TasksOk(s.(workers := Robbed(s.workers, p, victim, batch)),
                    run[s.workers[victim].local[0] := Held(p)], wait)
  {
    var s' := s.(workers := Robbed(s.workers, p, victim, batch));
    var t := s.workers[victim].local[0];
    forall u | u in s'.tasks
      ensures TaskOk(s', run[t := Held(p)], wait, u)
    {
      assert TaskOk(s, run, wait, u);
    }
  }

  lemma RobbedBooks(s: State, p: nat, victim: nat, batch: seq<TaskId>)
    requires Counted(s) && WorkersOk(s)
    requires p < |s.workers| && victim < |s.workers| && p != victim && s.workers[victim].local != []
    requires s.workers[p].phase.TrySteal? || s.workers[p].phase.Stealing?
    ensures Counted(s.(workers := Robbed(s.workers, p, victim, batch)))
    ensures WorkersOk(s.(workers := Robbed(s.workers, p, victim, batch)))
  {
    var v := s.workers[victim];
    var s1 := WithWorker(s, victim, v.(local := v.local[1..]));
    var s2 := s.(workers := Robbed(s.workers, p, victim, batch));
    CountedAfterWorker(s, s1, victim, s1.workers[victim]);
    WorkersOkAfter(s, s1, victim, s1.workers[victim]);
    CountedAfterWorker(s1, s2, p, s2.workers[p]);
    WorkersOkAfter(s1, s2, p, s2.workers[p]);
  }

  lemma StealOneKeeps(s: State, p: nat, victim: nat, run: RunMap, wait: WaitMap) returns (run': RunMap)
    requires Inv(s, run, wait) && p < |s.workers|
    ensures Inv(DoStealOne(s, p, victim), run', wait)
  {
    run' := run;
    var s' := DoStealOne(s, p, victim);
    if s' != s {
      var batch := Holding(s.workers[p].phase);
      var t := s.workers[victim].local[0];
      StealOneIs(s, p, victim);
      RobbedRun(s.global, s.workers, p, victim, batch, run);
      RobbedTasks(s, p, victim, batch, run, wait);
      RobbedBooks(s, p, victim, batch);
      WaitFrame(s, s', wait);
      run' := run[t := Held(p)];
    }
  }

  lemma StealOneIs(s: State, p: nat, victim: nat)
    requires p < |s.workers| && DoStealOne(s, p, victim) != s
    ensures victim < |s.workers| && victim != p && s.workers[victim].local != []
    ensures s.workers[p].phase.TrySteal? || s.workers[p].phase.Stealing?
    ensures DoStealOne(s, p, victim)
         == s.(workers := Robbed(s.workers, p, victim, Holding(s.workers[p].phase)))
  {
    if s.workers[p].phase.TrySteal? {
      assert [] + [s.workers[victim].local[0]] == [s.workers[victim].local[0]];
    }
  }

  // ------------------------------------------------------------ sharing it out

  lemma {:induction false} FilterCount(q: seq<TaskId>, keep: set<TaskId>, u: TaskId)
    ensures multiset(Filter(q, keep))[u] == if u in keep then multiset(q)[u] else 0
  {
    if q != [] {
      FirstOut(q, u);
      FilterCount(q[1..], keep, u);
    }
  }

  ghost function SharedRun(run: RunMap, p: nat, rest: seq<TaskId>, accepted: set<TaskId>): RunMap
  {
    map u | u in run :: if u !in rest then run[u] else if u in accepted then InLocal(p) else InGlobal
  }

  ghost function Shared(w: Worker, accepted: set<TaskId>): Worker
    requires w.phase.Stealing? && w.phase.batch != []
  {
    w.(phase := Popped(w.phase.batch[0]), local := w.local + Filter(w.phase.batch[1..], accepted))
  }

  ghost function Spilled(rest: seq<TaskId>, accepted: set<TaskId>): seq<TaskId>
  {
    Filter(rest, set t | t in rest && t !in accepted)
  }

  lemma SpilledCount(rest: seq<TaskId>, accepted: set<TaskId>, u: TaskId)
    ensures multiset(Spilled(rest, accepted))[u] == if u in accepted then 0 else multiset(rest)[u]
  {
    FilterCount(rest, (set t | t in rest && t !in accepted), u);
    assert u in rest <==> u in multiset(rest);
  }

  /** How sharing out a batch changes the count of a task at a place. */
  ghost function ShareDelta(count: nat, p: nat, accepted: bool, place: RunPlace): int
  {
    var n: int := count;
    match place
    case InGlobal => if accepted then 0 else n
    case InLocal(i) => if i == p && accepted then n else 0
    case Held(i) => if i == p then -n else 0
    case Nowhere => 0
  }

  lemma SharedCountGlobal(global: seq<TaskId>, rest: seq<TaskId>, accepted: set<TaskId>, u: TaskId)
    ensures multiset(global + Spilled(rest, accepted))[u]
         == multiset(global)[u] + if u in accepted then 0 else multiset(rest)[u]
  {
    SpilledCount(rest, accepted, u);
  }

  lemma SharedCountLocal(w: Worker, accepted: set<TaskId>, u: TaskId)
    requires w.phase.Stealing? && w.phase.batch != []
    ensures multiset(Shared(w, accepted).local)[u]
         == multiset(w.local)[u] + if u in accepted then multiset(w.phase.batch[1..])[u] else 0
  {
    FilterCount(w.phase.batch[1..], accepted, u);
  }

  lemma SharedCountHeld(w: Worker, accepted: set<TaskId>, u: TaskId)
    requires w.phase.Stealing? && w.phase.batch != []
    ensures multiset(Holding(Shared(w, accepted).phase))[u] + multiset(w.phase.batch[1..])[u]
         == multiset(Holding(w.phase))[u]
  {
    FirstOut(w.phase.batch, u);
  }

  lemma SharedCount(
      global: seq<TaskId>, ws: seq<Worker>, p: nat, accepted: set<TaskId>, u: TaskId, place: RunPlace)
    requires p < |ws| && ws[p].phase.Stealing? && ws[p].phase.batch != []
    ensures var rest := ws[p].phase.batch[1..];
            RunCount(global + Spilled(rest, accepted), ws[p := Shared(ws[p], accepted)], u, place) ==
            RunCount(global, ws, u, place) + ShareDelta(multiset(rest)[u], p, u in accepted, place)
  {
    var rest := ws[p].phase.batch[1..];
    var global': seq<TaskId> := global + Spilled(rest, accepted);
    var ws' := ws[p := Shared(ws[p], accepted)];
    match place {
      case InGlobal =>
        SharedCountGlobal(global, rest, accepted, u);
        assert RunCount(global', ws', u, place) == multiset(global')[u];
      case InLocal(_) => SharedCountLocal(ws[p], accepted, u);
      case Held(_) => SharedCountHeld(ws[p], accepted, u);
      case Nowhere =>
    }
  }

  lemma BatchHeld(global: seq<TaskId>, ws: seq<Worker>, p: nat, run: RunMap, u: TaskId)
    requires RunPlaced(global, ws, run)
    requires p < |ws| && ws[p].phase.Stealing? && ws[p].phase.batch != []
    ensures var rest := ws[p].phase.batch[1..];
            && multiset(rest)[u] <= Once(u in run && run[u] == Held(p))
            && multiset(rest)[u] == Once(u in rest)
  {
    var rest := ws[p].phase.batch[1..];
    FirstOut(ws[p].phase.batch, u);
    assert RunCount(global, ws, u, Held(p)) == multiset(ws[p].phase.batch)[u];
    assert u in rest <==> u in multiset(rest);
  }

  lemma RestHeld(global: seq<TaskId>, ws: seq<Worker>, p: nat, run: RunMap)
    requires RunPlaced(global, ws, run)
    requires p < |ws| && ws[p].phase.Stealing? && ws[p].phase.batch != []
    ensures forall u :: u in ws[p].phase.batch[1..] ==> u in run && run[u] == Held(p)
  {
    forall u | u in ws[p].phase.batch[1..]
      ensures u in run && run[u] == Held(p)
    {
      BatchHeld(global, ws, p, run, u);
    }
  }

  lemma SharedRunPlaced(global: seq<TaskId>, ws: seq<Worker>, p: nat, accepted: set<TaskId>, run: RunMap)
    requires RunPlaced(global, ws, run)
    requires p < |ws| && ws[p].phase.Stealing? && ws[p].phase.batch != []
    ensures var rest := ws[p].phase.batch[1..];
            RunPlaced(global + Spilled(rest, accepted), ws[p := Shared(ws[p], accepted)],
                      SharedRun(run, p, rest, accepted))
  {
    var rest := ws[p].phase.batch[1..];
    var run' := SharedRun(run, p, rest, accepted);
    forall u, place
      ensures RunCount(global + Spilled(rest, accepted), ws[p := Shared(ws[p], accepted)], u, place)
           == Once(!place.Nowhere? && u in run' && run'[u] == place)
    {
      SharedPlace(global, ws, p, accepted, run, u, place);
    }
  }

  lemma SharedPlace(global: seq<TaskId>, ws: seq<Worker>, p: nat, accepted: set<TaskId>, run: RunMap,
                    u: TaskId, place: RunPlace)
    requires RunPlaced(global, ws, run)
    requires p < |ws| && ws[p].phase.Stealing? && ws[p].phase.batch != []
    ensures var rest := ws[p].phase.batch[1..];
            var run' := SharedRun(run, p, rest, accepted);
            RunCount(global + Spilled(rest, accepted), ws[p := Shared(ws[p], accepted)], u, place) ==
            Once(!place.Nowhere? && u in run' && run'[u] == place)
  {
    SharedCount(global, ws, p, accepted, u, place);
    assert RunCount(global, ws, u, place) == Once(!place.Nowhere? && u in run && run[u] == place);
    BatchHeld(global, ws, p, run, u);
  }

  lemma SharedTasks(s: State, s': State, p: nat, accepted: set<TaskId>, run: RunMap, wait: WaitMap)
    requires run.Keys == s.tasks.Keys && wait.Keys == s.tasks.Keys && TasksOk(s, run, wait)
    requires p < |s.workers| && s.workers[p].phase.Stealing? && s.workers[p].phase.batch != []
    requires s'.tasks == s.tasks && s'.shutdown == s.shutdown && s'.lost == s.lost
    requires s'.workers == s.workers[p := Shared(s.workers[p], accepted)]
    requires forall u :: u in s.workers[p].phase.batch[1..] ==> u in run && run[u] == Held(p)
    ensures TasksOk(s', SharedRun(run, p, s.workers[p].phase.batch[1..], accepted), wait)
  {
    forall u | u in s'.tasks
      ensures TaskOk(s', SharedRun(run, p, s.workers[p].phase.batch[1..], accepted), wait, u)
    {
      assert TaskOk(s, run, wait, u);
    }
  }

  lemma StealDoneKeeps(s: State, p: nat, accepted: set<TaskId>, run: RunMap, wait: WaitMap) returns (run': RunMap)
    requires Inv(s, run, wait) && p < |s.workers|
    ensures Inv(DoStealDone(s, p, accepted), run', wait)
  {
    run' := run;
    var w := s.workers[p];
    if w.phase.Stealing? && w.phase.batch != [] {
      var s' := DoStealDone(s, p, accepted);
      SharedRunPlaced(s.global, s.workers, p, accepted, run);
      RestHeld(s.global, s.workers, p, run);
      SharedTasks(s, s', p, accepted, run, wait);
      WaitFrame(s, s', wait);
      CountedAfterWorker(s, s', p, s'.workers[p]);
      WorkersOkAfter(s, s', p, s'.workers[p]);
      run' := SharedRun(run, p, w.phase.batch[1..], accepted);
    }
  }
}
