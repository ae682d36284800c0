/** Timer handles: arming parks the calling task, expiry and cancellation wake it,
    and the call then returns how it ended.

    The return is not atomic with the wake-up: it clears the handle's task field
    later, without the lock.  So a handle may be armed again by a second task
    while the first call is still on its way out. */
module Timers {
  import opened Common

  type Task = nat
  type Handle = nat

  datatype Outcome = Expired | Cancelled

  /** The handle's task and processor fields, and its node in the heap of home. */
  datatype Timer = Timer(task: Option<Task>, p: Option<nat>, active: bool, home: nat, deadline: nat)

  datatype Phase =
    | Idle
    | Asleep(handle: Handle)                       // parked in arm
    | Woken(handle: Handle, outcome: Outcome)      // awake again, arm has not returned

  datatype State = State(
    timers: map<Handle, Timer>,
    phases: map<Task, Phase>,
    ended: seq<(Task, Handle, Outcome)>)           // history: how arm calls returned

  const UINT64_MAX: nat := 0xFFFF_FFFF_FFFF_FFFF

  datatype Action =
    | Arm(task: Task, handle: Handle, p: nat, now: nat, delay: nat, memory: bool)
    | Expire(p: nat, now: nat)
    | Cancel(handle: Handle)
    | Return(task: Task)

  function TimerOf(s: State, h: Handle): Timer
  {
    if h in s.timers then s.timers[h] else Timer(None, None, false, 0, 0)
  }

  function PhaseOf(s: State, t: Task): Phase
  {
    if t in s.phases then s.phases[t] else Idle
  }

  function Initial(): State
  {
    State(map[], map[], [])
  }

  predicate CanArm(s: State, t: Task, h: Handle)
  {
    PhaseOf(s, t).Idle? && !TimerOf(s, h).active && TimerOf(s, h).task.None?
  }

  function DoArm(s: State, t: Task, h: Handle, p: nat, now: nat, delay: nat, memory: bool): State
  {
    if now + delay > UINT64_MAX || !CanArm(s, t, h) || !memory then s
    else
      s.(timers := s.timers[h := Timer(Some(t), Some(p), true, p, now + delay)],
         phases := s.phases[t := Asleep(h)])
  }

  predicate Due(timer: Timer, p: nat, now: nat)
  {
    timer.active && timer.home == p && timer.deadline <= now
  }

  function Cleared(timer: Timer): Timer
  {
    timer.(task := None, p := None, active := false)
  }

  /** Whether the task sleeps on a timer that is due and still knows the task. */
  predicate Rings(s: State, t: Task, p: nat, now: nat)
  {
    && PhaseOf(s, t).Asleep? && Due(TimerOf(s, PhaseOf(s, t).handle), p, now)
    && TimerOf(s, PhaseOf(s, t).handle).task == Some(t)
  }

  /** Processor p's timers that are due expire. */
  function DoExpire(s: State, p: nat, now: nat): State
  {
    s.(timers := (map h | h in s.timers ::
                    if Due(s.timers[h], p, now) then Cleared(s.timers[h]) else s.timers[h]),
       phases := (map t | t in s.phases ::
                    if Rings(s, t, p, now) then Woken(PhaseOf(s, t).handle, Expired) else s.phases[t]))
  }

  function DoCancel(s: State, h: Handle): State
  {
    var timer := TimerOf(s, h);
    if !timer.active || timer.p.None? || timer.task.None? then s
    else
      s.(timers := s.timers[h := Cleared(timer)],
         phases := if PhaseOf(s, timer.task.value) == Asleep(h)
                   then s.phases[timer.task.value := Woken(h, Cancelled)] else s.phases)
  }

  function DoReturn(s: State, t: Task): State
  {
    var phase := PhaseOf(s, t);
    if !phase.Woken? then s
    else
      s.(timers := s.timers[phase.handle := TimerOf(s, phase.handle).(task := None, p := None)],
         phases := s.phases[t := Idle],
         ended := s.ended + [(t, phase.handle, phase.outcome)])
  }

  function Do(s: State, a: Action): State
  {
    match a
    case Arm(t, h, p, now, delay, memory) => DoArm(s, t, h, p, now, delay, memory)
    case Expire(p, now) => DoExpire(s, p, now)
    case Cancel(h) => DoCancel(s, h)
    case Return(t) => DoReturn(s, t)
  }

  function Run(s: State, actions: seq<Action>): State
    decreases |actions|
  {
    if actions == [] then s else Run(Do(s, actions[0]), actions[1..])
  }

  // ------------------------------------------------------------- safe re-arming

  /** No call on the handle is still on its way out. */
  ghost predicate Settled(s: State, h: Handle)
  {
    forall t :: !(PhaseOf(s, t).Woken? && PhaseOf(s, t).handle == h)
  }

  ghost predicate SafeAction(s: State, a: Action)
  {
    a.Arm? ==> Settled(s, a.handle)
  }

  ghost predicate SafeRun(s: State, actions: seq<Action>)
    decreases |actions|
  {
    actions == [] || (SafeAction(s, actions[0]) && SafeRun(Do(s, actions[0]), actions[1..]))
  }

  /** A sleeping task and its timer know each other. */
  ghost predicate TaskOk(s: State, t: Task)
  {
    match PhaseOf(s, t)
    case Idle => true
    case Asleep(h) => TimerOf(s, h).active && TimerOf(s, h).task == Some(t)
    case Woken(h, _) => !TimerOf(s, h).active && TimerOf(s, h).task.None?
  }

  /** A timer in a heap has a task asleep on it. */
  ghost predicate TimerOk(s: State, h: Handle)
  {
    var timer := TimerOf(s, h);
    && (timer.active <==> timer.task.Some?) && (timer.active <==> timer.p.Some?)
    && (timer.active ==> PhaseOf(s, timer.task.value) == Asleep(h))
  }

  ghost predicate Inv(s: State)
  {
    && (forall t {:trigger TaskOk(s, t)} :: TaskOk(s, t))
    && (forall h {:trigger TimerOk(s, h)} :: TimerOk(s, h))
  }

  lemma ArmKeeps(s: State, a: Action)
    requires Inv(s) && a.Arm? && SafeAction(s, a)
    ensures Inv(Do(s, a))
  {
    var s' := Do(s, a);
    forall t
      ensures TaskOk(s', t)
    {
      assert TaskOk(s, t);
    }
    forall h
      ensures TimerOk(s', h)
    {
      assert TimerOk(s, h);
    }
  }

  lemma ExpireKeeps(s: State, p: nat, now: nat)
    requires Inv(s)
    ensures Inv(DoExpire(s, p, now))
  {
    var s' := DoExpire(s, p, now);
    forall t
      ensures TaskOk(s', t)
    {
      assert TaskOk(s, t);
    }
    forall h
      ensures TimerOk(s', h)
    {
      assert TimerOk(s, h);
    }
  }

  lemma CancelKeeps(s: State, h: Handle)
    requires Inv(s)
    ensures Inv(DoCancel(s, h))
  {
    var s' := DoCancel(s, h);
    assert TimerOk(s, h);
    forall t
      ensures TaskOk(s', t)
    {
      assert TaskOk(s, t);
    }
    forall g
      ensures TimerOk(s', g)
    {
      assert TimerOk(s, g);
    }
  }

  lemma ReturnKeeps(s: State, u: Task)
    requires Inv(s)
    ensures Inv(DoReturn(s, u))
  {
    var s' := DoReturn(s, u);
    assert TaskOk(s, u);
    forall t
      ensures TaskOk(s', t)
    {
      assert TaskOk(s, t);
    }
    forall h
      ensures TimerOk(s', h)
    {
      assert TimerOk(s, h);
    }
  }

  lemma StepKeeps(s: State, a: Action)
    requires Inv(s) && SafeAction(s, a)
    ensures Inv(Do(s, a))
  {
    match a {
      case Arm(_, _, _, _, _, _) => ArmKeeps(s, a);
      case Expire(p, now) => ExpireKeeps(s, p, now);
      case Cancel(h) => CancelKeeps(s, h);
      case Return(t) => ReturnKeeps(s, t);
    }
  }

  lemma {:induction false} RunKeeps(s: State, actions: seq<Action>)
    requires Inv(s) && SafeRun(s, actions)
    ensures Inv(Run(s, actions))
    decreases |actions|
  {
    if actions != [] {
      StepKeeps(s, actions[0]);
      RunKeeps(Do(s, actions[0]), actions[1..]);
    }
  }

  /** When handles are armed again only after the earlier call has returned, every
      sleeping task can be woken: its timer is in a heap, knows the task, and
      expiry and cancellation wake it with their own outcome. */
  lemma SleepersCanWake(actions: seq<Action>, t: Task)
    requires SafeRun(Initial(), actions) && PhaseOf(Run(Initial(), actions), t).Asleep?
    ensures var s := Run(Initial(), actions);
            var h := PhaseOf(s, t).handle;
            var timer := TimerOf(s, h);
            && timer.active && timer.task == Some(t)
            && PhaseOf(DoCancel(s, h), t) == Woken(h, Cancelled)
            && forall now :: PhaseOf(DoExpire(s, timer.home, now), t) ==
                             if timer.deadline <= now then Woken(h, Expired) else Asleep(h)
  {
    RunKeeps(Initial(), actions);
    var s := Run(Initial(), actions);
    assert TaskOk(s, t);
    assert TimerOk(s, PhaseOf(s, t).handle);
  }

  // ---------------------------------------------------------- one outcome per arm

  /** The number of arm calls a task has entered, and has left. */
  function Entered(s: State, actions: seq<Action>, t: Task): nat
    decreases |actions|
  {
    if actions == [] then 0
    else
      (if PhaseOf(s, t).Idle? && PhaseOf(Do(s, actions[0]), t).Asleep? then 1 else 0)
      + Entered(Do(s, actions[0]), actions[1..], t)
  }

  function Left(ended: seq<(Task, Handle, Outcome)>, t: Task): nat
  {
    if ended == [] then 0
    else Left(ended[..|ended| - 1], t) + if ended[|ended| - 1].0 == t then 1 else 0
  }

  function Busy(s: State, t: Task): nat
  {
    if PhaseOf(s, t).Idle? then 0 else 1
  }

  /** The ways a task's phase can change. */
  lemma PhaseStep(s: State, a: Action, t: Task)
    ensures var now, next := PhaseOf(s, t), PhaseOf(Do(s, a), t);
            || (next == now && Left(Do(s, a).ended, t) == Left(s.ended, t))
            || (now.Idle? && next.Asleep? && Do(s, a).ended == s.ended)
            || (now.Asleep? && next.Woken? && next.handle == now.handle && Do(s, a).ended == s.ended)
            || (now.Woken? && next.Idle? && Do(s, a).ended == s.ended + [(t, now.handle, now.outcome)])
  {
    if a.Return? && PhaseOf(s, a.task).Woken? {
      var e := (a.task, PhaseOf(s, a.task).handle, PhaseOf(s, a.task).outcome);
      assert (s.ended + [e])[..|s.ended|] == s.ended;
    }
  }

  /** In every run, safe or not, each accepted arm ends at most once, and it ends
      with the outcome it was woken with: the calls a task has entered are those
      it has left, plus one while it is in one. */
  lemma {:induction false} OneOutcomeEach(s: State, actions: seq<Action>, t: Task)
    ensures Left(s.ended, t) + Busy(s, t) + Entered(s, actions, t)
         == Left(Run(s, actions).ended, t) + Busy(Run(s, actions), t)
    decreases |actions|
  {
    if actions != [] {
      var s' := Do(s, actions[0]);
      PhaseStep(s, actions[0], t);
      if PhaseOf(s, t).Woken? && PhaseOf(s', t).Idle? {
        assert s'.ended[..|s.ended|] == s.ended;
      }
      OneOutcomeEach(s', actions[1..], t);
    }
  }

  // ------------------------------------------------------------- unsafe re-arming

  /** The task sleeps on a timer that does not know it. */
  predicate Stranded(s: State, t: Task)
  {
    PhaseOf(s, t).Asleep? && TimerOf(s, PhaseOf(s, t).handle).task != Some(t)
  }

  lemma {:induction false} StrandedForever(s: State, actions: seq<Action>, t: Task)
    requires Stranded(s, t)
    ensures Stranded(Run(s, actions), t) && PhaseOf(Run(s, actions), t) == PhaseOf(s, t)
    decreases |actions|
  {
    if actions != [] {
      StrandedForever(Do(s, actions[0]), actions[1..], t);
    }
  }

  /** Whenever a task arms a handle that a call is still on its way out of, that
      call's return strands it: no expiry and no cancellation, ever, wakes it. */
  lemma UnsafeArmStrands(s: State, a: Action, first: Task, after: seq<Action>)
    requires Inv(s) && a.Arm? && a.memory && a.now + a.delay <= UINT64_MAX && CanArm(s, a.task, a.handle)
    requires PhaseOf(s, first).Woken? && PhaseOf(s, first).handle == a.handle
    ensures var s' := DoReturn(Do(s, a), first);
            && Stranded(s', a.task) && PhaseOf(Run(s', after), a.task) == Asleep(a.handle)
            && DoCancel(s', a.handle) == s'
  {
    StrandedForever(DoReturn(Do(s, a), first), after, a.task);
  }

  /** After a arms its handle, some run strands the task, though that run itself
      arms only settled handles. */
  ghost predicate CanStrand(s: State, a: Action)
    requires a.Arm?
  {
    exists after :: SafeRun(Do(s, a), after) && Stranded(Run(Do(s, a), after), a.task)
  }

  lemma SettledNeverStrands(s: State, t: Task, after: seq<Action>)
    requires Inv(s) && SafeRun(s, after)
    ensures !Stranded(Run(s, after), t)
  {
    RunKeeps(s, after);
    assert TaskOk(Run(s, after), t);
  }

  /** Arming is safe exactly when no call on the handle is on its way out. */
  lemma ArmIsSafeIff(before: seq<Action>, a: Action)
    requires SafeRun(Initial(), before) && a.Arm? && a.memory && a.now + a.delay <= UINT64_MAX
    requires CanArm(Run(Initial(), before), a.task, a.handle)
    ensures Settled(Run(Initial(), before), a.handle) <==> !CanStrand(Run(Initial(), before), a)
  {
    var s := Run(Initial(), before);
    RunKeeps(Initial(), before);
    if Settled(s, a.handle) {
      StepKeeps(s, a);
      forall after | SafeRun(Do(s, a), after)
        ensures !Stranded(Run(Do(s, a), after), a.task)
      {
        SettledNeverStrands(Do(s, a), a.task, after);
      }
    } else {
      var first :| PhaseOf(s, first).Woken? && PhaseOf(s, first).handle == a.handle;
      UnsafeArmStrands(s, a, first, []);
      var after := [Return(first)];
      assert after[1..] == [];
      assert Run(Do(s, a), after) == DoReturn(Do(s, a), first);
      assert SafeRun(Do(s, a), after);
    }
  }

  lemma FirstFires()
    ensures var s := Do(Do(Initial(), Arm(1, 0, 0, 0, 5, true)), Expire(0, 5));
            PhaseOf(s, 1) == Woken(0, Expired) && CanArm(s, 2, 0)
  {
    var s1 := Do(Initial(), Arm(1, 0, 0, 0, 5, true));
    assert TimerOf(s1, 0) == Timer(Some(1), Some(0), true, 0, 5) && PhaseOf(s1, 1) == Asleep(0);
  }

  /** Such a run exists: task 2 arms timer 0 between task 1's wake-up and return. */
  lemma StrandingRun()
    ensures var actions := [Arm(1, 0, 0, 0, 5, true), Expire(0, 5), Arm(2, 0, 0, 5, 5, true), Return(1)];
            Stranded(Run(Initial(), actions), 2)
  {
    var s1 := Do(Initial(), Arm(1, 0, 0, 0, 5, true));
    var s2 := Do(s1, Expire(0, 5));
    var s3 := Do(s2, Arm(2, 0, 0, 5, 5, true));
    var s4 := Do(s3, Return(1));
    FirstFires();
    assert Stranded(s4, 2);
    assert Run(s3, [Return(1)]) == s4;
    assert Run(s2, [Arm(2, 0, 0, 5, 5, true), Return(1)]) == s4;
    assert Run(s1, [Expire(0, 5), Arm(2, 0, 0, 5, 5, true), Return(1)]) == s4;
  }
}
