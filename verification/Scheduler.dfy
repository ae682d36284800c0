/** The G/P/M scheduler: tasks, the processors that run them, the runtime's
    shared queues and counters.

    One action is one critical section of the runtime mutex, or one unlocked
    access to a deque (whose atomicity module RunQueue establishes) or to a
    task's queued flag.  Actions of different threads interleave in any order.
    The body of a task is its environment's choice: between two resumptions it
    may spawn, wake, yield, park, or return. */
module Scheduler {
  import opened Common
  import opened GlobalQueue

  datatype TaskState = Runnable | Running | Waiting | Sleeping | Done | Cancelled

  datatype Task = Task(
    state: TaskState,
    queued: bool,
    fiber: Option<nat>,          // the processor that created the fiber
    lastP: Option<nat>,
    executing: bool,
    wakePending: bool,
    waitingForIo: bool,
    waiters: seq<TaskId>)        // tasks joined on this one, oldest first

  datatype Outcome = FiberDone | FiberSuspended | ResumeFailed

  /** Where a worker thread stands. */
  datatype Phase =
    | Off                                             // outside the run loop
    | LoopTop                                         // about to look at the running flag
    | TryLocal                                        // saw the run on
    | TryGlobal                                       // own deque was empty
    | TrySteal                                        // global scan found nothing
    | Stealing(victim: nat, batch: seq<TaskId>)
    | Popped(task: TaskId)                            // queued flag not yet cleared
    | Hand(task: TaskId)
    | CancelCheck
    | Started(task: TaskId)                           // marked running, fiber not resumed yet
    | Inside(task: TaskId)                            // the task's fiber has the thread
    | Returned(task: TaskId, outcome: Outcome)        // back at the root
    | Idling
    | Draining                                        // the run is over, waiting for the others
    | Cancelling

  datatype Worker = Worker(phase: Phase, idle: bool, local: seq<TaskId>, timers: set<TaskId>)

  datatype State = State(
    workers: seq<Worker>,
    tasks: map<TaskId, Task>,
    all: seq<TaskId>,
    global: seq<TaskId>,
    syncs: map<nat, seq<TaskId>>,    // wait queues of the synchronization objects
    running: bool,
    deadlock: bool,                  // the status the run stopped with
    shutdown: bool,
    live: nat,
    active: int,
    idleWorkers: nat,
    timerCount: nat,
    ioWaiting: nat,
    spawned: nat,
    completed: nat,
    cancelled: nat,
    lost: set<TaskId>)               // history: runnable tasks a stopped run let go of

  /** Who spawns: the owner thread while it is not inside a run, or a task's body. */
  datatype Caller = Owner | Body(p: nat)

  datatype Action =
    | RunStart
    | Enter(p: nat)
    | LoopCheck(p: nat)
    | FinishRun
    | CancelAll
    | RequestShutdown
    | Spawn(t: TaskId, who: Caller)
    | PopLocal(p: nat)
    | ClearQueued(p: nat)
    | TakeGlobal(p: nat, room: nat)
    | StealOne(p: nat, victim: nat)
    | StealDone(p: nat, accepted: set<TaskId>)
    | BeginExecute(p: nat)
    | CheckCancelled(p: nat)
    | Resume(p: nat, ok: bool)
    | Yield(p: nat)
    | Join(p: nat, target: TaskId)
    | SyncPark(p: nat, q: nat)
    | Sleep(p: nat)
    | IoPark(p: nat)
    | Suspend(p: nat)
    | Return(p: nat)
    | Root(p: nat, fits: bool)
    | SyncWake(q: nat)
    | TimerFire(p: nat, t: TaskId)
    | IoComplete(t: TaskId)
    | IdleEnter(p: nat)
    | IdleLeave(p: nat)

  const STEAL_MAX := 8

  function Initial(workers: nat): State
  {
    State(seq(workers, i => Worker(Off, false, [], {})), map[], [], [], map[],
          false, false, false, 0, 0, 0, 0, 0, 0, 0, 0, {})
  }

  predicate Terminal(state: TaskState)
  {
    state.Done? || state.Cancelled?
  }

  /** The tasks a worker thread has in its hands. */
  function Holding(phase: Phase): seq<TaskId>
  {
    match phase
    case Stealing(_, batch) => batch
    case Popped(t) => [t]
    case Hand(t) => [t]
    case Started(t) => [t]
    case Inside(t) => [t]
    case Returned(t, _) => [t]
    case _ => []
  }

  predicate Executes(phase: Phase)
  {
    phase.Started? || phase.Inside? || phase.Returned?
  }

  function Waiters(s: State, q: nat): seq<TaskId>
  {
    if q in s.syncs then s.syncs[q] else []
  }

  // ------------------------------------------------------------ small updates

  function WithTask(s: State, t: TaskId, task: Task): State
  {
    s.(tasks := s.tasks[t := task])
  }

  function WithWorker(s: State, p: nat, w: Worker): State
    requires p < |s.workers|
  {
    s.(workers := s.workers[p := w])
  }

  function WithPhase(s: State, p: nat, phase: Phase): State
    requires p < |s.workers|
  {
    WithWorker(s, p, s.workers[p].(phase := phase))
  }

  function Less(n: nat): nat
  {
    if n != 0 then n - 1 else 0
  }

  function StopRun(s: State, deadlock: bool): State
  {
    if s.running then s.(running := false, deadlock := deadlock) else s
  }

  function StopIfNoneLive(s: State): State
  {
    if s.live == 0 then StopRun(s, false) else s
  }

  function EnqueueGlobal(s: State, t: TaskId): State
    requires t in s.tasks
  {
    var task := s.tasks[t];
    if !task.state.Runnable? || task.queued then s
    else WithTask(s, t, task.(queued := true)).(global := s.global + [t])
  }

  function EnqueueLocal(s: State, p: nat, t: TaskId, fits: bool): State
    requires t in s.tasks && p < |s.workers|
  {
    var task := s.tasks[t];
    if !task.state.Runnable? || task.queued then s
    else
      var s1 := WithTask(s, t, task.(queued := true));
      if |s.workers| == 1 || task.fiber.Some? || !fits then s1.(global := s1.global + [t])
      else WithWorker(s1, p, s1.workers[p].(local := s1.workers[p].local + [t]))
  }

  function Wake(s: State, t: TaskId): State
    requires t in s.tasks
  {
    var task := s.tasks[t];
    if !task.state.Waiting? && !task.state.Sleeping? then s
    else if task.executing then WithTask(s, t, task.(wakePending := true))
    else EnqueueGlobal(WithTask(s, t, task.(state := Runnable)), t)
  }

  /** Removes the oldest joiner of u and wakes it. */
  function WakeJoiner(s: State, u: TaskId): State
    requires u in s.tasks && s.tasks[u].waiters != []
  {
    var task := s.tasks[u];
    var s1 := WithTask(s, u, task.(waiters := task.waiters[1..]));
    if task.waiters[0] in s1.tasks then Wake(s1, task.waiters[0]) else s1
  }

  function WakeJoiners(s: State, u: TaskId): State
    requires u in s.tasks
    decreases |s.tasks[u].waiters|
  {
    if s.tasks[u].waiters == [] then s else WakeJoiners(WakeJoiner(s, u), u)
  }

  function Complete(s: State, t: TaskId): State
    requires t in s.tasks
  {
    var s1 := WakeJoiners(s, t);
    s1.(live := Less(s1.live), completed := s1.completed + 1)
  }

  function CancelOne(s: State, t: TaskId): State
    requires t in s.tasks
  {
    var task := s.tasks[t];
    if Terminal(task.state) || task.executing then s
    else
      var io := task.waitingForIo && s.ioWaiting != 0;
      WithTask(s, t, task.(state := Cancelled, waitingForIo := task.waitingForIo && !io))
        .(ioWaiting := if io then s.ioWaiting - 1 else s.ioWaiting,
          live := Less(s.live),
          cancelled := s.cancelled + 1)
  }

  function CancelList(s: State, list: seq<TaskId>): (r: State)
    ensures r.workers == s.workers
    decreases |list|
  {
    if list == [] then s
    else CancelList(if list[0] in s.tasks then CancelOne(s, list[0]) else s, list[1..])
  }

  function Unstarted(s: State): set<TaskId>
  {
    set t | t in s.tasks && s.tasks[t].fiber.None?
  }

  function Eligible(s: State, p: nat): set<TaskId>
  {
    set t | t in s.tasks && (s.tasks[t].fiber.None? || s.tasks[t].lastP == Some(p))
  }

  /** The items of q that are in keep, in order. */
  function Filter(q: seq<TaskId>, keep: set<TaskId>): seq<TaskId>
  {
    if q == [] then []
    else (if q[0] in keep then [q[0]] else []) + Filter(q[1..], keep)
  }

  // ------------------------------------------------------------------ actions

  function DoRunStart(s: State): State
    requires s.workers != []
  {
    if s.workers[0].phase.Off? && !s.running && s.live != 0
    then WithPhase(s.(running := true, deadlock := false, idleWorkers := 0), 0, LoopTop)
    else s
  }

  function DoFinishRun(s: State): State
    requires s.workers != []
  {
    if s.workers[0].phase.Draining? && s.active == 0
    then WithPhase(s, 0, if s.shutdown then Cancelling else Off)
    else s
  }

  function DoCancelAll(s: State): State
    requires s.workers != []
  {
    if s.workers[0].phase.Cancelling? then WithPhase(CancelList(s, s.all), 0, Off) else s
  }

  /** The task a worker is running, if its body may act now. */
  function Acting(s: State, p: nat): Option<TaskId>
  {
    if p >= |s.workers| || !s.workers[p].phase.Inside? then None
    else
      var t := s.workers[p].phase.task;
      if t in s.tasks && s.tasks[t].state.Running? then Some(t) else None
  }

  /** Nobody else gets past the check of the calling thread. */
  predicate MaySpawn(s: State, who: Caller)
  {
    match who
    case Owner => s.workers != [] && s.workers[0].phase.Off?
    case Body(p) => Acting(s, p).Some?
  }

  function DoSpawn(s: State, t: TaskId, who: Caller): State
  {
    if s.shutdown || t in s.tasks || !MaySpawn(s, who) then s
    else
      var s1 := WithTask(s, t, Task(Runnable, false, None, None, false, false, false, []));
      var s2 := EnqueueGlobal(s1.(all := [t] + s1.all), t);
      s2.(live := s2.live + 1, spawned := s2.spawned + 1)
  }

  function DoPopLocal(s: State, p: nat): State
    requires p < |s.workers|
  {
    var w := s.workers[p];
    if !w.phase.TryLocal? then s
    else if w.local == [] then WithPhase(s, p, TryGlobal)
    else WithWorker(s, p, w.(phase := Popped(w.local[|w.local| - 1]), local := w.local[..|w.local| - 1]))
  }

  function DoClearQueued(s: State, p: nat): State
    requires p < |s.workers|
  {
    var w := s.workers[p];
    if !w.phase.Popped? || w.phase.task !in s.tasks then s
    else
      var t := w.phase.task;
      WithPhase(WithTask(s, t, s.tasks[t].(queued := false)), p, Hand(t))
  }

  function DoTakeGlobal(s: State, p: nat, room: nat): State
    requires p < |s.workers|
  {
    var w := s.workers[p];
    if !w.phase.TryGlobal? then s
    else
      var r := Take(s.global, Eligible(s, p), Unstarted(s), |s.workers| > 1, room);
      var s1 := WithWorker(s, p, w.(local := w.local + r.extras)).(global := r.queue);
      if r.task.None? || r.task.value !in s.tasks then WithPhase(s1, p, TrySteal)
      else
        var t := r.task.value;
        WithPhase(WithTask(s1, t, s.tasks[t].(queued := false)), p, Hand(t))
  }

  function DoStealOne(s: State, p: nat, victim: nat): State
    requires p < |s.workers|
  {
    var w := s.workers[p];
    if victim >= |s.workers| || victim == p || s.workers[victim].local == [] then s
    else
      var v := s.workers[victim];
      var s1 := WithWorker(s, victim, v.(local := v.local[1..]));
      if w.phase.TrySteal? then WithPhase(s1, p, Stealing(victim, [v.local[0]]))
      else if w.phase.Stealing? && w.phase.victim == victim && |w.phase.batch| < STEAL_MAX
      then WithPhase(s1, p, Stealing(victim, w.phase.batch + [v.local[0]]))
      else s
  }

  /** Keeps the first stolen task; the others go to the thief's deque, or to the
      global queue when the deque refuses them. */
  function DoStealDone(s: State, p: nat, fits: set<TaskId>): State
    requires p < |s.workers|
  {
    var w := s.workers[p];
    if !w.phase.Stealing? || w.phase.batch == [] then s
    else
      var rest := w.phase.batch[1..];
      var spill := set t | t in rest && t !in fits;
      WithWorker(s, p, w.(phase := Popped(w.phase.batch[0]), local := w.local + Filter(rest, fits)))
        .(global := s.global + Filter(rest, spill))
  }

  function DoBeginExecute(s: State, p: nat): State
    requires p < |s.workers|
  {
    var w := s.workers[p];
    if !w.phase.Hand? || w.phase.task !in s.tasks then s
    else
      var t := w.phase.task;
      var task := s.tasks[t];
      if !task.state.Runnable? then WithPhase(s, p, LoopTop)
      else if !s.running then WithPhase(s, p, LoopTop).(lost := s.lost + {t})
      else if s.shutdown then
        WithPhase(WithTask(s, t, task.(state := Cancelled)), p, CancelCheck)
          .(live := Less(s.live), cancelled := s.cancelled + 1)
      else
        WithPhase(WithTask(s, t, task.(state := Running, executing := true, lastP := Some(p))), p, Started(t))
          .(active := s.active + 1)
  }

  function DoCheckCancelled(s: State, p: nat): State
    requires p < |s.workers|
  {
    if s.workers[p].phase.CancelCheck? then WithPhase(StopIfNoneLive(s), p, LoopTop) else s
  }

  function DoResume(s: State, p: nat, ok: bool): State
    requires p < |s.workers|
  {
    var w := s.workers[p];
    if !w.phase.Started? || w.phase.task !in s.tasks then s
    else
      var t := w.phase.task;
      if !ok then WithPhase(s, p, Returned(t, ResumeFailed))
      else if s.tasks[t].fiber.None? then
        WithPhase(WithTask(s, t, s.tasks[t].(fiber := Some(p))), p, Inside(t))
      else WithPhase(s, p, Inside(t))
  }

  function DoYield(s: State, t: TaskId): State
    requires t in s.tasks
  {
    WithTask(s, t, s.tasks[t].(state := Runnable))
  }

  function DoJoin(s: State, t: TaskId, target: TaskId): State
    requires t in s.tasks
  {
    if target !in s.tasks || target == t || Terminal(s.tasks[target].state) then s
    else
      var s1 := WithTask(s, t, s.tasks[t].(state := Waiting));
      WithTask(s1, target, s1.tasks[target].(waiters := s1.tasks[target].waiters + [t]))
  }

  function DoSyncPark(s: State, t: TaskId, q: nat): State
    requires t in s.tasks
  {
    WithTask(s, t, s.tasks[t].(state := Waiting)).(syncs := s.syncs[q := Waiters(s, q) + [t]])
  }

  function DoSleep(s: State, p: nat, t: TaskId): State
    requires t in s.tasks && p < |s.workers|
  {
    var w := s.workers[p];
    WithWorker(WithTask(s, t, s.tasks[t].(state := Sleeping)), p, w.(timers := w.timers + {t}))
      .(timerCount := s.timerCount + 1)
  }

  function DoIoPark(s: State, p: nat, t: TaskId): State
    requires t in s.tasks
  {
    if p != 0 || s.tasks[t].waitingForIo then s
    else WithTask(s, t, s.tasks[t].(state := Waiting, waitingForIo := true)).(ioWaiting := s.ioWaiting + 1)
  }

  function DoSuspend(s: State, p: nat): State
    requires p < |s.workers|
  {
    var w := s.workers[p];
    if w.phase.Inside? then WithPhase(s, p, Returned(w.phase.task, FiberSuspended)) else s
  }

  /** What the root does with a task whose fiber came back. */
  function Settle(s: State, p: nat, t: TaskId, outcome: Outcome, fits: bool): State
    requires p < |s.workers| && t in s.tasks
  {
    var task := s.tasks[t];
    match outcome
    case ResumeFailed =>
      WithTask(s, t, task.(state := Cancelled, fiber := None))
        .(live := Less(s.live), cancelled := s.cancelled + 1)
    case FiberDone =>
      Complete(WithTask(s, t, task.(state := Done, fiber := None)), t)
    case FiberSuspended =>
      if task.wakePending && (task.state.Waiting? || task.state.Sleeping?) then
        EnqueueLocal(WithTask(s, t, task.(wakePending := false, state := Runnable)), p, t, fits)
      else if task.state.Runnable? then EnqueueLocal(s, p, t, fits)
      else if task.state.Running? then
        WithTask(s, t, task.(state := Cancelled, fiber := None))
          .(live := Less(s.live), cancelled := s.cancelled + 1)
      else s
  }

  function DoRoot(s: State, p: nat, fits: bool): State
    requires p < |s.workers|
  {
    var w := s.workers[p];
    if !w.phase.Returned? || w.phase.task !in s.tasks then s
    else
      var t := w.phase.task;
      var s1 := WithPhase(WithTask(s, t, s.tasks[t].(executing := false)).(active := s.active - 1), p, LoopTop);
      StopIfNoneLive(Settle(s1, p, t, w.phase.outcome, fits))
  }

  function DoSyncWake(s: State, q: nat): State
  {
    var ws := Waiters(s, q);
    if ws == [] || ws[0] !in s.tasks then s
    else Wake(s.(syncs := s.syncs[q := ws[1..]]), ws[0])
  }

  function DoTimerFire(s: State, p: nat, t: TaskId): State
    requires p < |s.workers|
  {
    var w := s.workers[p];
    if t !in w.timers || t !in s.tasks then s
    else Wake(WithWorker(s, p, w.(timers := w.timers - {t})).(timerCount := Less(s.timerCount)), t)
  }

  function DoIoComplete(s: State, t: TaskId): State
  {
    if t !in s.tasks || !s.tasks[t].state.Waiting? || !s.tasks[t].waitingForIo || s.ioWaiting == 0 then s
    else Wake(WithTask(s, t, s.tasks[t].(waitingForIo := false)).(ioWaiting := s.ioWaiting - 1), t)
  }

  /** The condition under which an idle worker declares the run deadlocked. */
  predicate Stuck(s: State)
  {
    && s.idleWorkers == |s.workers|
    && s.global == []
    && s.live != 0
    && s.timerCount == 0
    && s.ioWaiting == 0
    && forall p :: 0 <= p < |s.workers| ==> s.workers[p].local == []
  }

  function Idle(s: State, p: nat): State
    requires p < |s.workers|
  {
    var w := s.workers[p];
    if w.idle then s else WithWorker(s, p, w.(idle := true)).(idleWorkers := s.idleWorkers + 1)
  }

  function DoIdleEnter(s: State, p: nat): State
    requires p < |s.workers|
  {
    if !s.workers[p].phase.TrySteal? then s
    else if !s.running then WithPhase(s, p, LoopTop)
    else
      var s1 := Idle(s, p);
      WithPhase(if Stuck(s1) then StopRun(s1, true) else s1, p, Idling)
  }

  function DoIdleLeave(s: State, p: nat): State
    requires p < |s.workers|
  {
    var w := s.workers[p];
    if !w.phase.Idling? then s
    else if !w.idle then WithPhase(s, p, LoopTop)
    else WithWorker(s, p, w.(phase := LoopTop, idle := false)).(idleWorkers := Less(s.idleWorkers))
  }

  // What each action is about.

  predicate Scans(a: Action)
  {
    a.Enter? || a.LoopCheck? || a.PopLocal? || a.ClearQueued?
  }

  predicate Takes(a: Action)
  {
    a.TakeGlobal? || a.StealOne? || a.StealDone?
  }

  predicate Dispatches(a: Action)
  {
    a.BeginExecute? || a.CheckCancelled? || a.Resume? || a.Suspend?
  }

  predicate Rests(a: Action)
  {
    a.Root? || a.TimerFire? || a.IdleEnter? || a.IdleLeave?
  }

  predicate Acts(a: Action)
  {
    a.Yield? || a.Join? || a.SyncPark? || a.Sleep? || a.IoPark? || a.Return?
  }

  /** The action is of one worker; the others are of the runtime as a whole. */
  predicate OfWorker(a: Action)
  {
    Scans(a) || Takes(a) || Dispatches(a) || Rests(a) || Acts(a)
  }

  /** One action; a thread that is not at the right place leaves the state alone. */
  function Do(s: State, a: Action): State
  {
    if s.workers == [] then s
    else if !OfWorker(a) then DoRuntime(s, a)
    else if a.p < |s.workers| then DoAt(s, a.p, a)
    else s
  }

  function DoRuntime(s: State, a: Action): State
    requires s.workers != []
  {
    match a
    case RunStart => DoRunStart(s)
    case FinishRun => DoFinishRun(s)
    case CancelAll => DoCancelAll(s)
    case RequestShutdown => s.(shutdown := true, running := false)
    case Spawn(t, who) => DoSpawn(s, t, who)
    case SyncWake(q) => DoSyncWake(s, q)
    case IoComplete(t) => DoIoComplete(s, t)
    case _ => s
  }

  function DoAt(s: State, p: nat, a: Action): State
    requires p < |s.workers|
  {
    if Scans(a) then DoScan(s, p, a)
    else if Takes(a) then DoTake(s, p, a)
    else if Dispatches(a) then DoDispatch(s, p, a)
    else if Rests(a) then DoRest(s, p, a)
    else if Acts(a) && Acting(s, p).Some? then DoAct(s, p, Acting(s, p).value, a)
    else s
  }

  function DoScan(s: State, p: nat, a: Action): State
    requires p < |s.workers|
  {
    match a
    case Enter(_) => if p != 0 && s.workers[p].phase.Off? && s.running then WithPhase(s, p, LoopTop) else s
    case LoopCheck(_) =>
      if !s.workers[p].phase.LoopTop? then s
      else WithPhase(s, p, if s.running then TryLocal else if p == 0 then Draining else Off)
    case PopLocal(_) => DoPopLocal(s, p)
    case ClearQueued(_) => DoClearQueued(s, p)
    case _ => s
  }

  function DoTake(s: State, p: nat, a: Action): State
    requires p < |s.workers|
  {
    match a
    case TakeGlobal(_, room) => DoTakeGlobal(s, p, room)
    case StealOne(_, victim) => DoStealOne(s, p, victim)
    case StealDone(_, fits) => DoStealDone(s, p, fits)
    case _ => s
  }

  function DoDispatch(s: State, p: nat, a: Action): State
    requires p < |s.workers|
  {
    match a
    case BeginExecute(_) => DoBeginExecute(s, p)
    case CheckCancelled(_) => DoCheckCancelled(s, p)
    case Resume(_, ok) => DoResume(s, p, ok)
    case Suspend(_) => DoSuspend(s, p)
    case _ => s
  }

  function DoRest(s: State, p: nat, a: Action): State
    requires p < |s.workers|
  {
    match a
    case Root(_, fits) => DoRoot(s, p, fits)
    case TimerFire(_, t) => DoTimerFire(s, p, t)
    case IdleEnter(_) => DoIdleEnter(s, p)
    case IdleLeave(_) => DoIdleLeave(s, p)
    case _ => s
  }

  /** What the running task's own body does. */
  function DoAct(s: State, p: nat, t: TaskId, a: Action): State
    requires p < |s.workers| && t in s.tasks
  {
    match a
    case Yield(_) => DoYield(s, t)
    case Join(_, target) => DoJoin(s, t, target)
    case SyncPark(_, q) => DoSyncPark(s, t, q)
    case Sleep(_) => DoSleep(s, p, t)
    case IoPark(_) => DoIoPark(s, p, t)
    case Return(_) => WithPhase(s, p, Returned(t, FiberDone))
    case _ => s
  }
}
