/** The mutex that parks tasks: ownership is handed over in the order of arrival. */
module TaskMutex {
  import opened Common

  type Task = nat

  datatype Result = Done | Parked | Refused

  datatype State = State(
    owner: Option<Task>,
    waiters: seq<Task>,
    asked: seq<Task>,      // history: accepted lock calls, by arrival
    granted: seq<Task>,    // history: owners, in order
    unlocks: nat)          // history: successful unlocks

  datatype Action = Lock(task: Task, parks: bool) | Unlock(task: Task)

  function Initial(): State
  {
    State(None, [], [], [], 0)
  }

  function DoLock(s: State, t: Task, parks: bool): (State, Result)
  {
    if s.owner.None? then (s.(owner := Some(t), asked := s.asked + [t], granted := s.granted + [t]), Done)
    else if s.owner.value == t || !parks then (s, Refused)
    else (s.(waiters := s.waiters + [t], asked := s.asked + [t]), Parked)
  }

  function DoUnlock(s: State, t: Task): (State, Result)
  {
    if s.owner != Some(t) then (s, Refused)
    else if s.waiters == [] then (s.(owner := None, unlocks := s.unlocks + 1), Done)
    else
      (s.(owner := Some(s.waiters[0]), waiters := s.waiters[1..], granted := s.granted + [s.waiters[0]],
          unlocks := s.unlocks + 1), Done)
  }

  function Do(s: State, a: Action): State
  {
    match a
    case Lock(t, parks) => DoLock(s, t, parks).0
    case Unlock(t) => DoUnlock(s, t).0
  }

  function Run(s: State, actions: seq<Action>): State
    decreases |actions|
  {
    if actions == [] then s else Run(Do(s, actions[0]), actions[1..])
  }

  /** At most one task owns the mutex, waiters only wait for an owner, and owners
      come in the order of arrival. */
  ghost predicate Inv(s: State)
  {
    && s.asked == s.granted + s.waiters
    && |s.granted| == s.unlocks + (if s.owner.Some? then 1 else 0)
    && (s.owner.None? ==> s.waiters == [])
    && (s.owner.Some? ==> s.granted[|s.granted| - 1] == s.owner.value)
  }

  lemma StepKeeps(s: State, a: Action)
    requires Inv(s)
    ensures Inv(Do(s, a))
  {
  }

  lemma {:induction false} RunKeeps(s: State, actions: seq<Action>)
    requires Inv(s)
    ensures Inv(Run(s, actions))
    decreases |actions|
  {
    if actions != [] {
      StepKeeps(s, actions[0]);
      RunKeeps(Do(s, actions[0]), actions[1..]);
    }
  }

  /** Mutual exclusion with hand-over in order: in every run the number of owners
      so far exceeds the number of unlocks by at most one, the i-th owner is the
      i-th task that asked, and a free mutex has no waiters. */
  lemma MutualExclusion(actions: seq<Action>)
    ensures var s := Run(Initial(), actions);
            && s.unlocks <= |s.granted| <= s.unlocks + 1
            && s.granted <= s.asked
            && (s.owner.None? <==> |s.granted| == s.unlocks) && (s.owner.None? ==> s.waiters == [])
  {
    RunKeeps(Initial(), actions);
  }

  /** A lock is granted at once exactly when every grant has been unlocked; an
      unlock succeeds exactly for the last task granted, and the next task that
      asked, if there is one, has the mutex at once. */
  lemma OwnerHandsOver(actions: seq<Action>, t: Task, parks: bool)
    ensures var s := Run(Initial(), actions);
            var (s', r) := DoUnlock(s, t);
            && (DoLock(s, t, parks).1.Done? <==> |s.granted| == s.unlocks)
            && (r.Done? <==> |s.granted| > s.unlocks && s.granted[|s.granted| - 1] == t)
            && (r.Done? && |s.granted| < |s.asked| ==> s'.owner == Some(s.asked[|s.granted|]))
            && (r.Done? && |s.granted| == |s.asked| ==> s'.owner == None)
  {
    RunKeeps(Initial(), actions);
  }

  class Mutex {
    var owner: Option<Task>
    var waiters: seq<Task>
    ghost var asked: seq<Task>
    ghost var granted: seq<Task>
    ghost var unlocks: nat

    ghost function View(): State
      reads this
    {
      State(owner, waiters, asked, granted, unlocks)
    }

    constructor ()
      ensures View() == Initial() && Inv(View())
    {
      owner, waiters, asked, granted, unlocks := None, [], [], [], 0;
    }

    method LockMutex(t: Task, parks: bool) returns (r: Result)
      requires Inv(View())
      modifies this
      ensures Inv(View()) && (View(), r) == DoLock(old(View()), t, parks)
    {
      StepKeeps(View(), Lock(t, parks));
      if owner.None? {
        owner, asked, granted := Some(t), asked + [t], granted + [t];
        return Done;
      }
      if owner.value == t || !parks {
        return Refused;
      }
      waiters, asked := waiters + [t], asked + [t];
      r := Parked;
    }

    method UnlockMutex(t: Task) returns (r: Result, woken: Option<Task>)
      requires Inv(View())
      modifies this
      ensures Inv(View()) && (View(), r) == DoUnlock(old(View()), t)
      ensures woken == if r.Done? then owner else None
    {
      StepKeeps(View(), Unlock(t));
      woken := None;
      if owner != Some(t) {
        return Refused, None;
      }
      unlocks := unlocks + 1;
      if waiters == [] {
        owner := None;
      } else {
        woken := Some(waiters[0]);
        granted := granted + [waiters[0]];
        waiters := waiters[1..];
        owner := woken;
      }
      r := Done;
    }
  }
}

/** The semaphore that parks tasks. */
module Semaphore {
  import opened Common

  type Task = nat

  datatype Result = Done | Parked | Refused

  datatype State = State(
    permits: nat,
    waiters: seq<Task>,
    asked: seq<Task>,      // history: accepted waits, by arrival
    granted: seq<Task>,    // history: waits that got a permit, in order
    posts: nat)            // history: accepted posts

  datatype Action = Wait(task: Task, parks: bool) | Post

  function Initial(permits: nat): State
  {
    State(permits, [], [], [], 0)
  }

  function DoWait(s: State, t: Task, parks: bool): (State, Result)
  {
    if s.permits != 0 then
      (s.(permits := s.permits - 1, asked := s.asked + [t], granted := s.granted + [t]), Done)
    else if !parks then (s, Refused)
    else (s.(waiters := s.waiters + [t], asked := s.asked + [t]), Parked)
  }

  function DoPost(s: State): (State, Result)
  {
    if s.waiters != [] then
      (s.(waiters := s.waiters[1..], granted := s.granted + [s.waiters[0]], posts := s.posts + 1), Done)
    else if s.permits == SIZE_MAX then (s, Refused)
    else (s.(permits := s.permits + 1, posts := s.posts + 1), Done)
  }

  function Do(s: State, a: Action): State
  {
    match a
    case Wait(t, parks) => DoWait(s, t, parks).0
    case Post => DoPost(s).0
  }

  function Run(s: State, actions: seq<Action>): State
    decreases |actions|
  {
    if actions == [] then s else Run(Do(s, actions[0]), actions[1..])
  }

  /** Permits are conserved, none is kept from a waiter, and waiters are served in
      the order of arrival. */
  ghost predicate Inv(s: State, initial: nat)
  {
    && initial + s.posts == s.permits + |s.granted|
    && (s.permits > 0 ==> s.waiters == [])
    && s.asked == s.granted + s.waiters
    && s.permits <= SIZE_MAX
  }

  lemma StepKeeps(s: State, a: Action, initial: nat)
    requires Inv(s, initial)
    ensures Inv(Do(s, a), initial)
  {
  }

  lemma {:induction false} RunKeeps(s: State, actions: seq<Action>, initial: nat)
    requires Inv(s, initial)
    ensures Inv(Run(s, actions), initial)
    decreases |actions|
  {
    if actions != [] {
      StepKeeps(s, actions[0], initial);
      RunKeeps(Do(s, actions[0]), actions[1..], initial);
    }
  }

  lemma PermitsConserved(initial: nat, actions: seq<Action>)
    requires initial <= SIZE_MAX
    ensures var s := Run(Initial(initial), actions);
            && initial + s.posts == s.permits + |s.granted|
            && (s.permits > 0 ==> s.waiters == [])
            && s.asked == s.granted + s.waiters
  {
    RunKeeps(Initial(initial), actions, initial);
  }

  /** A wait gets its permit at once exactly when there were more permits and posts
      than grants; a post serves the next task that asked, if there is one, and is
      refused only when the permits are at their limit. */
  lemma PostServesNext(initial: nat, actions: seq<Action>, t: Task, parks: bool)
    requires initial <= SIZE_MAX
    ensures var s := Run(Initial(initial), actions);
            var (s', r) := DoPost(s);
            && (DoWait(s, t, parks).1.Done? <==> |s.granted| < initial + s.posts)
            && (r.Refused? <==> initial + s.posts == |s.granted| + SIZE_MAX)
            && (|s.granted| < |s.asked| ==> r.Done? && s'.granted == s.asked[..|s.granted| + 1])
  {
    RunKeeps(Initial(initial), actions, initial);
  }

  class TaskSemaphore {
    var permits: nat
    var waiters: seq<Task>
    ghost const initial: nat
    ghost var asked: seq<Task>
    ghost var granted: seq<Task>
    ghost var posts: nat

    ghost function View(): State
      reads this
    {
      State(permits, waiters, asked, granted, posts)
    }

    constructor (permits: nat)
      requires permits <= SIZE_MAX
      ensures View() == Initial(permits) && initial == permits && Inv(View(), initial)
    {
      this.permits, initial := permits, permits;
      waiters, asked, granted, posts := [], [], [], 0;
    }

    method WaitPermit(t: Task, parks: bool) returns (r: Result)
      requires Inv(View(), initial)
      modifies this
      ensures Inv(View(), initial) && (View(), r) == DoWait(old(View()), t, parks)
    {
      StepKeeps(View(), Wait(t, parks), initial);
      if permits != 0 {
        permits, asked, granted := permits - 1, asked + [t], granted + [t];
        return Done;
      }
      if !parks {
        return Refused;
      }
      waiters, asked := waiters + [t], asked + [t];
      r := Parked;
    }

    method PostPermit() returns (r: Result, woken: Option<Task>)
      requires Inv(View(), initial)
      modifies this
      ensures Inv(View(), initial) && (View(), r) == DoPost(old(View()))
      ensures woken == if old(waiters) != [] then Some(old(waiters)[0]) else None
    {
      StepKeeps(View(), Post, initial);
      woken := None;
      if waiters != [] {
        woken := Some(waiters[0]);
        granted := granted + [waiters[0]];
        waiters := waiters[1..];
      } else if permits == SIZE_MAX {
        return Refused, None;
      } else {
        permits := permits + 1;
      }
      posts := posts + 1;
      r := Done;
    }
  }
}

/** The wait group: a count that tasks wait for to reach zero. */
module WaitGroup {
  import opened Common

  type Task = nat

  datatype Result = Done | Parked | Refused

  const DELTA_MAX: int := 0x7FFF_FFFF_FFFF_FFFF
  const DELTA_MIN: int := -0x8000_0000_0000_0000

  /** Signed deltas, as wide as a pointer difference. */
  type Delta = d: int | DELTA_MIN <= d <= DELTA_MAX

  datatype State = State(
    count: nat,
    waiters: seq<Task>,
    deltas: seq<int>,       // history: accepted deltas
    asked: seq<Task>,       // history: tasks that parked
    released: seq<Task>)    // history: tasks that were woken

  datatype Action = Add(delta: Delta) | Wait(task: Task, parks: bool)

  function Initial(): State
  {
    State(0, [], [], [], [])
  }

  predicate Acceptable(s: State, delta: Delta)
  {
    0 <= s.count + delta <= SIZE_MAX && (delta > 0 ==> s.waiters == [])
  }

  function DoAdd(s: State, delta: Delta): (State, Result)
  {
    if !Acceptable(s, delta) then (s, Refused)
    else
      var s1 := s.(count := s.count + delta, deltas := s.deltas + [delta]);
      (if s1.count == 0 then s1.(waiters := [], released := s.released + s.waiters) else s1, Done)
  }

  function DoWait(s: State, t: Task, parks: bool): (State, Result)
  {
    if s.count == 0 then (s, Done)
    else if !parks then (s, Refused)
    else (s.(waiters := s.waiters + [t], asked := s.asked + [t]), Parked)
  }

  function Do(s: State, a: Action): State
  {
    match a
    case Add(delta) => DoAdd(s, delta).0
    case Wait(t, parks) => DoWait(s, t, parks).0
  }

  function Run(s: State, actions: seq<Action>): State
    decreases |actions|
  {
    if actions == [] then s else Run(Do(s, actions[0]), actions[1..])
  }

  function Total(deltas: seq<int>): int
  {
    if deltas == [] then 0 else Total(deltas[..|deltas| - 1]) + deltas[|deltas| - 1]
  }

  /** The count is the sum of the accepted deltas, and nobody waits for a count of
      zero. */
  ghost predicate Inv(s: State)
  {
    && s.count == Total(s.deltas) && s.count <= SIZE_MAX
    && (s.waiters != [] ==> s.count > 0)
    && s.asked == s.released + s.waiters
  }

  lemma StepKeeps(s: State, a: Action)
    requires Inv(s)
    ensures Inv(Do(s, a))
  {
    match a {
      case Add(delta) => AddKeeps(s, delta);
      case Wait(t, parks) => WaitKeeps(s, t, parks);
    }
  }

  lemma TotalSnoc(deltas: seq<int>, delta: int)
    ensures Total(deltas + [delta]) == Total(deltas) + delta
  {
    assert (deltas + [delta])[..|deltas|] == deltas;
  }

  lemma AddKeeps(s: State, delta: Delta)
    requires Inv(s)
    ensures Inv(DoAdd(s, delta).0)
  {
    TotalSnoc(s.deltas, delta);
  }

  lemma WaitKeeps(s: State, t: Task, parks: bool)
    requires Inv(s)
    ensures Inv(DoWait(s, t, parks).0)
  {
    assert s.asked + [t] == s.released + (s.waiters + [t]);
  }

  lemma {:induction false} RunKeeps(s: State, actions: seq<Action>)
    requires Inv(s)
    ensures Inv(Run(s, actions))
    decreases |actions|
  {
    if actions != [] {
      StepKeeps(s, actions[0]);
      RunKeeps(Do(s, actions[0]), actions[1..]);
    }
  }

  /** In every run parked tasks imply a positive count, the count is the sum of the
      accepted deltas, and the call that brings it to zero releases everyone. */
  lemma WaitersImplyCount(actions: seq<Action>)
    ensures var s := Run(Initial(), actions);
            && s.count == Total(s.deltas) && (s.waiters != [] ==> s.count > 0)
            && (s.count == 0 ==> s.released == s.asked)
  {
    RunKeeps(Initial(), actions);
  }

  /** A wait returns at once exactly when the accepted deltas sum to zero; a delta
      is accepted exactly when the new sum fits, and only a positive one is kept
      out while tasks are parked; reaching zero releases everyone who asked. */
  lemma DeltasDecide(actions: seq<Action>, delta: Delta, t: Task, parks: bool)
    ensures var s := Run(Initial(), actions);
            var (s', r) := DoAdd(s, delta);
            && (DoWait(s, t, parks).1.Done? <==> Total(s.deltas) == 0)
            && (r.Done? <==> 0 <= Total(s.deltas) + delta <= SIZE_MAX && (delta > 0 ==> |s.released| == |s.asked|))
            && (r.Done? && Total(s.deltas) + delta == 0 ==> s'.released == s.asked)
  {
    RunKeeps(Initial(), actions);
    CountDecides(Run(Initial(), actions), delta);
  }

  lemma CountDecides(s: State, delta: Delta)
    requires Inv(s)
    ensures var (s', r) := DoAdd(s, delta);
            && (r.Done? <==> 0 <= Total(s.deltas) + delta <= SIZE_MAX && (delta > 0 ==> |s.released| == |s.asked|))
            && (r.Done? && Total(s.deltas) + delta == 0 ==> s'.released == s.asked)
  {
  }

  /** The source's way of negating a negative delta without overflow. */
  function Magnitude(delta: Delta): (m: nat)
    requires delta < 0
    ensures m + delta == 0
  {
    var d: int := delta;
    -(d + 1) + 1
  }

  class Group {
    var count: nat
    var waiters: seq<Task>
    ghost var deltas: seq<int>
    ghost var asked: seq<Task>
    ghost var released: seq<Task>

    ghost function View(): State
      reads this
    {
      State(count, waiters, deltas, asked, released)
    }

    constructor ()
      ensures View() == Initial() && Inv(View())
    {
      count, waiters, deltas, asked, released := 0, [], [], [], [];
    }

    method WakeAll() returns (woken: seq<Task>)
      modifies `waiters
      ensures woken == old(waiters) && waiters == []
    {
      woken := [];
      while waiters != []
        invariant woken + waiters == old(waiters)
        modifies `waiters
        decreases |waiters|
      {
        woken := woken + [waiters[0]];
        waiters := waiters[1..];
      }
    }

    method AddDelta(delta: Delta) returns (r: Result, woken: seq<Task>)
      requires Inv(View())
      modifies this
      ensures Inv(View()) && (View(), r) == DoAdd(old(View()), delta)
      ensures woken == if r.Done? && count == 0 then old(waiters) else []
    {
      AddKeeps(View(), delta);
      woken := [];
      if (delta < 0 && Magnitude(delta) > count) || (delta > 0 && delta > SIZE_MAX - count)
         || (delta > 0 && waiters != []) {
        return Refused, [];
      }
      if delta < 0 {
        count := count - Magnitude(delta);
      } else {
        count := count + delta;
      }
      deltas := deltas + [delta];
      if count == 0 {
        released := released + waiters;
        woken := WakeAll();
      }
      r := Done;
    }

    method WaitZero(t: Task, parks: bool) returns (r: Result)
      requires Inv(View())
      modifies this
      ensures Inv(View()) && (View(), r) == DoWait(old(View()), t, parks)
    {
      if count == 0 {
        return Done;
      }
      if !parks {
        return Refused;
      }
      waiters, asked := waiters + [t], asked + [t];
      r := Parked;
    }
  }
}
