/** What every action of the scheduler keeps.

    The invariant names, for each task, the one place where it can be found
    among the runnable places and the one among the wait structures.  The two
    place maps are witnesses: that they exist is the claim. */
module SchedulerInvariant {
  import opened Common
  import opened GlobalQueue
  import opened Scheduler

  datatype RunPlace = Nowhere | InGlobal | InLocal(p: nat) | Held(p: nat)

  datatype WaitPlace = NotWaiting | OnJoin(u: TaskId) | OnSync(q: nat) | OnTimer(p: nat) | OnIo

  type RunMap = map<TaskId, RunPlace>
  type WaitMap = map<TaskId, WaitPlace>

  // ------------------------------------------------------------------- places

  /** How often task t occurs at a runnable place. */
  function RunCount(global: seq<TaskId>, workers: seq<Worker>, t: TaskId, place: RunPlace): nat
  {
    match place
    case Nowhere => 0
    case InGlobal => multiset(global)[t]
    case InLocal(p) => if p < |workers| then multiset(workers[p].local)[t] else 0
    case Held(p) => if p < |workers| then multiset(Holding(workers[p].phase))[t] else 0
  }

  /** How often task t occurs in a wait structure. */
  function WaitCount(s: State, t: TaskId, place: WaitPlace): nat
  {
    match place
    case NotWaiting => 0
    case OnJoin(u) => if u in s.tasks then multiset(s.tasks[u].waiters)[t] else 0
    case OnSync(q) => multiset(Waiters(s, q))[t]
    case OnTimer(p) => Once(p < |s.workers| && t in s.workers[p].timers)
    case OnIo => Once(t in s.tasks && s.tasks[t].waitingForIo)
  }

  /** Each task occurs once at the runnable place run gives it, and nowhere else. */
  ghost predicate RunPlaced(global: seq<TaskId>, workers: seq<Worker>, run: RunMap)
  {
    forall t, place {:trigger RunCount(global, workers, t, place)} ::
      RunCount(global, workers, t, place) == Once(!place.Nowhere? && t in run && run[t] == place)
  }

  /** Each task occurs once in the wait structure wait gives it, and nowhere else. */
  ghost predicate WaitPlaced(s: State, wait: WaitMap)
  {
    forall t, place {:trigger WaitCount(s, t, place)} ::
      WaitCount(s, t, place) == Once(!place.NotWaiting? && t in wait && wait[t] == place)
  }

  // -------------------------------------------------------------------- tasks

  /** A task held by worker p, against what the worker is doing with it. */
  predicate PhaseOk(phase: Phase, p: nat, task: Task)
  {
    match phase
    case Stealing(_, _) => task.queued && !task.executing && task.fiber.None?
    case Popped(_) => task.queued && !task.executing && task.fiber.None?
    case Hand(_) => !task.queued && !task.executing && (task.fiber.None? || task.lastP == Some(p))
    case Started(_) => !task.queued && task.executing && task.lastP == Some(p) && task.state.Running?
    case Inside(_) => !task.queued && task.executing && task.fiber == Some(p)
    case Returned(_, outcome) =>
      && !task.queued && task.executing && task.lastP == Some(p)
      && (outcome.FiberSuspended? || task.state.Running?)
      && (outcome.ResumeFailed? || task.fiber == Some(p))
    case _ => false
  }

  predicate FiberOk(task: Task, workers: nat)
  {
    task.fiber.Some? ==> task.lastP == task.fiber && task.fiber.value < workers
  }

  predicate RunOk(workers: seq<Worker>, task: Task, place: RunPlace)
  {
    && FiberOk(task, |workers|)
    && match place
       case Nowhere => !task.queued && !task.executing
       case InGlobal => task.queued && !task.executing
       case InLocal(p) => p < |workers| && task.queued && !task.executing && task.fiber.None?
       case Held(p) => p < |workers| && PhaseOk(workers[p].phase, p, task)
  }

  /** A task's state against the places it is in: a runnable task is somewhere to
      be found unless it was let go of, a parked one is registered or has a wake
      pending, and, until a shutdown cancels tasks where they are, a terminal one
      is nowhere. */
  predicate StateOk(shutdown: bool, lost: bool, task: Task, place: RunPlace, wait: WaitPlace)
  {
    && (wait.OnIo? <==> task.waitingForIo)
    && match task.state
       case Runnable => wait.NotWaiting? && !task.wakePending && (place.Nowhere? ==> lost)
       case Running => wait.NotWaiting? && !task.wakePending && task.executing
       case Waiting =>
         && !wait.OnTimer? && (place.Nowhere? || task.executing)
         && (task.wakePending <==> wait.NotWaiting?)
         && (task.wakePending ==> task.executing)
       case Sleeping =>
         && (wait.OnTimer? || wait.NotWaiting?) && (place.Nowhere? || task.executing)
         && (task.wakePending <==> wait.NotWaiting?)
         && (task.wakePending ==> task.executing)
       case Done => !task.executing && place.Nowhere? && wait.NotWaiting? && !task.wakePending
       case Cancelled =>
         && !task.executing && !task.wakePending
         && (!shutdown ==> place.Nowhere? && wait.NotWaiting?)
  }

  ghost predicate TaskOk(s: State, run: RunMap, wait: WaitMap, t: TaskId)
    requires t in s.tasks && t in run && t in wait
  {
    && RunOk(s.workers, s.tasks[t], run[t])
    && StateOk(s.shutdown, t in s.lost, s.tasks[t], run[t], wait[t])
  }

  ghost predicate TasksOk(s: State, run: RunMap, wait: WaitMap)
    requires run.Keys == s.tasks.Keys && wait.Keys == s.tasks.Keys
  {
    forall t {:trigger TaskOk(s, run, wait, t)} :: t in s.tasks ==> TaskOk(s, run, wait, t)
  }

  // ----------------------------------------------------------------- counters

  function Live(tasks: map<TaskId, Task>): set<TaskId>
  {
    set t | t in tasks && !Terminal(tasks[t].state)
  }

  function DoneTasks(tasks: map<TaskId, Task>): set<TaskId>
  {
    set t | t in tasks && tasks[t].state.Done?
  }

  function CancelledTasks(tasks: map<TaskId, Task>): set<TaskId>
  {
    set t | t in tasks && tasks[t].state.Cancelled?
  }

  function IoTasks(tasks: map<TaskId, Task>): set<TaskId>
  {
    set t | t in tasks && tasks[t].waitingForIo
  }

  function Executing(workers: seq<Worker>): set<nat>
  {
    set p | 0 <= p < |workers| && Executes(workers[p].phase)
  }

  function IdleSet(workers: seq<Worker>): set<nat>
  {
    set p | 0 <= p < |workers| && workers[p].idle
  }

  function TimerTotal(workers: seq<Worker>): nat
  {
    if workers == [] then 0 else TimerTotal(workers[..|workers| - 1]) + |workers[|workers| - 1].timers|
  }

  /** Every counter equals the size of the set it summarises. */
  ghost predicate Counted(s: State)
  {
    && s.live == |Live(s.tasks)|
    && s.completed == |DoneTasks(s.tasks)|
    && s.cancelled == |CancelledTasks(s.tasks)|
    && s.spawned == |s.tasks.Keys|
    && s.ioWaiting == |IoTasks(s.tasks)|
    && s.timerCount == TimerTotal(s.workers)
    && s.active == |Executing(s.workers)|
  }

  predicate WorkerOk(w: Worker, alone: bool, shutdown: bool)
  {
    && (w.idle <==> w.phase.Idling?)
    && (w.phase.Cancelling? || w.phase.CancelCheck? ==> shutdown)
    && (w.phase.Stealing? ==> w.phase.batch != [])
    && (alone ==> w.local == [] && !w.phase.Stealing?)
  }

  ghost predicate WorkersOk(s: State)
  {
    && s.workers != []
    && s.idleWorkers <= |IdleSet(s.workers)|
    && forall p :: 0 <= p < |s.workers| ==> WorkerOk(s.workers[p], |s.workers| == 1, s.shutdown)
  }

  ghost predicate Inv(s: State, run: RunMap, wait: WaitMap)
  {
    && run.Keys == s.tasks.Keys && wait.Keys == s.tasks.Keys
    && RunPlaced(s.global, s.workers, run)
    && WaitPlaced(s, wait)
    && TasksOk(s, run, wait)
    && Counted(s)
    && WorkersOk(s)
  }
}
