/** Where the outcomes of arm calls come from: every call that has returned was
    accepted by one arm, was woken by one expiry or cancellation while it slept, and
    left by one return. */
module TimerCalls {
  import opened Common
  import opened Timers

  /** The state before the k-th action. */
  function At(actions: seq<Action>, k: nat): State
    requires k <= |actions|
  {
    Run(Initial(), actions[..k])
  }

  lemma {:induction false} RunSnoc(s: State, actions: seq<Action>, a: Action)
    ensures Run(s, actions + [a]) == Do(Run(s, actions), a)
    decreases |actions|
  {
    if actions == [] {
      assert (actions + [a])[1..] == [];
    } else {
      assert (actions + [a])[1..] == actions[1..] + [a];
      RunSnoc(Do(s, actions[0]), actions[1..], a);
    }
  }

  lemma StepAt(actions: seq<Action>, k: nat)
    requires k < |actions|
    ensures At(actions, k + 1) == Do(At(actions, k), actions[k])
  {
    assert actions[..k + 1] == actions[..k] + [actions[k]];
    RunSnoc(Initial(), actions[..k], actions[k]);
  }

  predicate InPhase(actions: seq<Action>, k: nat, t: Task, phase: Phase)
  {
    k <= |actions| && PhaseOf(At(actions, k), t) == phase
  }

  /** Action i puts the task to sleep on the handle, where it still is before action n. */
  ghost predicate Sleeps(actions: seq<Action>, i: nat, n: nat, t: Task, h: Handle)
  {
    && i < n <= |actions| && InPhase(actions, i, t, Idle)
    && actions[i].Arm? && actions[i].task == t && actions[i].handle == h
    && forall k {:trigger InPhase(actions, k, t, Asleep(h))} :: i < k <= n ==> InPhase(actions, k, t, Asleep(h))
  }

  /** Action a ends a sleep on handle h that action arm began with outcome o. */
  predicate Ends(arm: Action, a: Action, o: Outcome)
    requires arm.Arm?
  {
    match o
    case Expired => a.Expire? && a.p == arm.p && arm.now + arm.delay <= a.now
    case Cancelled => a == Cancel(arm.handle)
  }

  /** Action j wakes the task, which is still on its way out before action n. */
  ghost predicate Wakes(actions: seq<Action>, i: nat, j: nat, n: nat, t: Task, h: Handle, o: Outcome)
  {
    && Sleeps(actions, i, j, t, h) && j < n <= |actions| && Ends(actions[i], actions[j], o)
    && forall k {:trigger InPhase(actions, k, t, Woken(h, o))} :: j < k <= n ==> InPhase(actions, k, t, Woken(h, o))
  }

  /** The call that action i begins is woken by action j and returns by action r. */
  ghost predicate Call(actions: seq<Action>, i: nat, j: nat, r: nat, t: Task, h: Handle, o: Outcome)
  {
    Wakes(actions, i, j, r, t, h, o) && r < |actions| && actions[r] == Return(t)
  }

  // ------------------------------------------------------------------ one step

  lemma FallsAsleep(s: State, a: Action, t: Task)
    requires PhaseOf(Do(s, a), t).Asleep? && PhaseOf(Do(s, a), t) != PhaseOf(s, t)
    ensures PhaseOf(s, t).Idle? && a.Arm? && a.task == t && a.handle == PhaseOf(Do(s, a), t).handle
  {
  }

  lemma Awakes(s: State, a: Action, t: Task)
    requires PhaseOf(Do(s, a), t).Woken? && PhaseOf(Do(s, a), t) != PhaseOf(s, t)
    ensures var Woken(h, o) := PhaseOf(Do(s, a), t);
            && PhaseOf(s, t) == Asleep(h) && TimerOf(s, h).task == Some(t)
            && match o
               case Expired => a.Expire? && Due(TimerOf(s, h), a.p, a.now)
               case Cancelled => a == Cancel(h)
  {
  }

  /** A timer that knows a task that was asleep before has not changed. */
  lemma KnownIsKept(s: State, a: Action, t: Task, h: Handle)
    requires PhaseOf(s, t).Asleep? && TimerOf(Do(s, a), h).task == Some(t)
    ensures TimerOf(Do(s, a), h) == TimerOf(s, h)
  {
  }

  // ------------------------------------------------------------------ whole runs

  lemma {:induction false} Slept(actions: seq<Action>, n: nat, t: Task) returns (i: nat)
    requires n <= |actions| && PhaseOf(At(actions, n), t).Asleep?
    ensures Sleeps(actions, i, n, t, PhaseOf(At(actions, n), t).handle)
    decreases n
  {
    var h := PhaseOf(At(actions, n), t).handle;
    if n == 0 {
      assert false;
    } else {
      StepAt(actions, n - 1);
      if PhaseOf(At(actions, n - 1), t) == Asleep(h) {
        i := Slept(actions, n - 1, t);
      } else {
        FallsAsleep(At(actions, n - 1), actions[n - 1], t);
        i := n - 1;
      }
    }
  }

  /** While its timer knows the sleeping task, the timer is as it was armed. */
  lemma {:induction false} AsArmed(actions: seq<Action>, i: nat, n: nat, t: Task, h: Handle)
    requires Sleeps(actions, i, n, t, h) && TimerOf(At(actions, n), h).task == Some(t)
    ensures var timer, arm := TimerOf(At(actions, n), h), actions[i];
            timer.home == arm.p && timer.deadline == arm.now + arm.delay
    decreases n
  {
    StepAt(actions, n - 1);
    assert InPhase(actions, n, t, Asleep(h));
    if i < n - 1 {
      assert InPhase(actions, n - 1, t, Asleep(h));
      KnownIsKept(At(actions, n - 1), actions[n - 1], t, h);
      AsArmed(actions, i, n - 1, t, h);
    }
  }

  lemma {:induction false} WasWoken(actions: seq<Action>, n: nat, t: Task) returns (i: nat, j: nat)
    requires n <= |actions| && PhaseOf(At(actions, n), t).Woken?
    ensures var Woken(h, o) := PhaseOf(At(actions, n), t);
            Wakes(actions, i, j, n, t, h, o)
    decreases n
  {
    var Woken(h, o) := PhaseOf(At(actions, n), t);
    if n == 0 {
      assert false;
    } else {
      StepAt(actions, n - 1);
      if PhaseOf(At(actions, n - 1), t) == Woken(h, o) {
        i, j := WasWoken(actions, n - 1, t);
      } else {
        Awakes(At(actions, n - 1), actions[n - 1], t);
        i := Slept(actions, n - 1, t);
        j := n - 1;
        AsArmed(actions, i, j, t, h);
      }
    }
  }

  lemma {:induction false} HasCall(actions: seq<Action>, n: nat, k: nat) returns (i: nat, j: nat, r: nat)
    requires n <= |actions| && k < |At(actions, n).ended|
    ensures r < n && |At(actions, r).ended| == k
    ensures var (t, h, o) := At(actions, n).ended[k];
            Call(actions, i, j, r, t, h, o)
    decreases n
  {
    if n == 0 {
      assert false;
    } else {
      StepAt(actions, n - 1);
      if k < |At(actions, n - 1).ended| {
        i, j, r := HasCall(actions, n - 1, k);
      } else {
        i, j := WasWoken(actions, n - 1, actions[n - 1].task);
        r := n - 1;
      }
    }
  }

  /** In every run, safe or not, an arm call ends as Expired only by an expiry on its
      own processor at or after its deadline, and as Cancelled only by a cancellation
      of its handle; both find it asleep, and it returns what they woke it with. */
  lemma EndedForCause(actions: seq<Action>, k: nat)
    requires k < |Run(Initial(), actions).ended|
    ensures var (t, h, o) := Run(Initial(), actions).ended[k];
            exists i: nat, j: nat, r: nat ::
              Call(actions, i, j, r, t, h, o) && |At(actions, r).ended| == k
  {
    assert actions[..|actions|] == actions;
    var i, j, r := HasCall(actions, |actions|, k);
  }

  lemma LeavesIdle(actions: seq<Action>, r: nat, t: Task, h: Handle, o: Outcome)
    requires r < |actions| && InPhase(actions, r, t, Woken(h, o)) && actions[r] == Return(t)
    ensures InPhase(actions, r + 1, t, Idle)
  {
    StepAt(actions, r);
  }

  /** A second account of the call neither wakes it later nor returns later. */
  lemma NoLater(actions: seq<Action>, i: nat, j: nat, r: nat, j': nat, r': nat, t: Task,
                h: Handle, o: Outcome, o': Outcome)
    requires Call(actions, i, j, r, t, h, o) && Call(actions, i, j', r', t, h, o')
    ensures j' <= j && (j' == j ==> r' <= r)
  {
    assert InPhase(actions, j + 1, t, Woken(h, o));
    assert j < j' ==> InPhase(actions, j + 1, t, Asleep(h));
    LeavesIdle(actions, r, t, h, o);
    assert j' == j && r < r' ==> InPhase(actions, r + 1, t, Woken(h, o'));
  }

  /** An arm begins at most one call: how that call is woken and returns is
      determined. */
  lemma OneCallEach(actions: seq<Action>, i: nat, j: nat, r: nat, j': nat, r': nat, t: Task,
                    h: Handle, o: Outcome, o': Outcome)
    requires Call(actions, i, j, r, t, h, o) && Call(actions, i, j', r', t, h, o')
    ensures j == j' && r == r' && o == o'
  {
    NoLater(actions, i, j, r, j', r', t, h, o, o');
    NoLater(actions, i, j', r', j, r, t, h, o', o);
    assert InPhase(actions, j + 1, t, Woken(h, o)) && InPhase(actions, j + 1, t, Woken(h, o'));
  }
}
