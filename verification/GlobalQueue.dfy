/** The runtime's global FIFO of runnable tasks and the scan a worker makes of
    it: one task to run now, and a few unstarted ones for its own deque. */
module GlobalQueue {
  import opened Common

  type TaskId = nat

  /** At most this many tasks leave the global queue in one scan. */
  const BATCH := 8

  datatype Taken = Taken(task: Option<TaskId>, extras: seq<TaskId>, queue: seq<TaskId>)

  // ------------------------------------------------------------ specification

  /** The position of the first task in ok, or |q| if there is none. */
  function FirstIn(q: seq<TaskId>, ok: set<TaskId>): (k: nat)
    ensures k <= |q|
    ensures k < |q| ==> q[k] in ok
    ensures forall i :: 0 <= i < k ==> q[i] !in ok
  {
    if q == [] || q[0] in ok then 0 else 1 + FirstIn(q[1..], ok)
  }

  /** Visits todo from the front: a task with a fiber goes to the back, a task
      without one goes to the deque, until quota tasks have gone or the deque,
      which has room for only so many, refuses one. */
  function Pull(todo: seq<TaskId>, kept: seq<TaskId>, unstarted: set<TaskId>, quota: nat, room: nat)
    : (r: (seq<TaskId>, seq<TaskId>))
    ensures |r.0| <= quota && |r.0| <= room
    ensures forall t :: t in r.0 ==> t in unstarted
    decreases |todo|
  {
    if todo == [] || quota == 0 then ([], todo + kept)
    else if todo[0] !in unstarted then
      Pull(todo[1..], kept + [todo[0]], unstarted, quota, room)
    else if room == 0 then
      ([], todo[1..] + kept + [todo[0]])
    else
      var (moved, queue) := Pull(todo[1..], kept, unstarted, quota - 1, room - 1);
      ([todo[0]] + moved, queue)
  }

  /** The scan: eligible tasks may run here, unstarted ones may go to the
      deque; with a single worker nothing goes to the deque. */
  function Take(q: seq<TaskId>, eligible: set<TaskId>, unstarted: set<TaskId>, several: bool, room: nat): Taken
  {
    var k := FirstIn(q, eligible);
    var task := if k < |q| then Some(q[k]) else None;
    var rest := if k < |q| then q[k + 1..] + q[..k] else q;
    if !several then Taken(task, [], rest)
    else
      var (extras, queue) := Pull(rest, [], unstarted, if k < |q| then BATCH - 1 else BATCH, room);
      Taken(task, extras, queue)
  }

  // --------------------------------------------------------------- properties

  function Chosen(task: Option<TaskId>): seq<TaskId>
  {
    if task.Some? then [task.value] else []
  }

  lemma {:induction false} PullConserves(
      todo: seq<TaskId>, kept: seq<TaskId>, unstarted: set<TaskId>, quota: nat, room: nat)
    ensures var r := Pull(todo, kept, unstarted, quota, room);
            multiset(r.0) + multiset(r.1) == multiset(todo) + multiset(kept)
    decreases |todo|
  {
    if todo != [] && quota > 0 {
      assert todo == [todo[0]] + todo[1..];
      if todo[0] !in unstarted {
        PullConserves(todo[1..], kept + [todo[0]], unstarted, quota, room);
      } else if room > 0 {
        PullConserves(todo[1..], kept, unstarted, quota - 1, room - 1);
        var (moved, queue) := Pull(todo[1..], kept, unstarted, quota - 1, room - 1);
        var first := multiset{todo[0]};
        assert multiset([todo[0]] + moved) + multiset(queue) == first + (multiset(moved) + multiset(queue));
        assert multiset(todo) + multiset(kept) == first + (multiset(todo[1..]) + multiset(kept));
      }
    }
  }

  lemma Rotated(q: seq<TaskId>, k: nat)
    requires k < |q|
    ensures multiset(q) == multiset([q[k]]) + multiset(q[k + 1..] + q[..k])
  {
    assert q == q[..k] + ([q[k]] + q[k + 1..]);
  }

  /** No task is lost or duplicated by a scan. */
  lemma TakeConserves(q: seq<TaskId>, eligible: set<TaskId>, unstarted: set<TaskId>, several: bool, room: nat)
    ensures var r := Take(q, eligible, unstarted, several, room);
            multiset(q) == multiset(Chosen(r.task)) + multiset(r.extras) + multiset(r.queue)
  {
    var k := FirstIn(q, eligible);
    var rest := if k < |q| then q[k + 1..] + q[..k] else q;
    PullConserves(rest, [], unstarted, if k < |q| then BATCH - 1 else BATCH, room);
    if k < |q| {
      Rotated(q, k);
    }
    var r := Take(q, eligible, unstarted, several, room);
    assert multiset(Chosen(r.task)) + multiset(r.extras) + multiset(r.queue)
        == multiset(Chosen(r.task)) + (multiset(r.extras) + multiset(r.queue));
  }

  /** The task taken is the first eligible one, and there is one to take exactly
      when some queued task is eligible; the extras are unstarted and, with the
      task, at most eight. */
  lemma TakeChoosesFirst(q: seq<TaskId>, eligible: set<TaskId>, unstarted: set<TaskId>, several: bool, room: nat)
    requires unstarted <= eligible
    ensures var r := Take(q, eligible, unstarted, several, room);
            && (r.task.Some? <==> exists i :: 0 <= i < |q| && q[i] in eligible)
            && (r.task.Some? ==>
                  exists k :: 0 <= k < |q| && q[k] == r.task.value && q[k] in eligible &&
                              forall i :: 0 <= i < k ==> q[i] !in eligible)
            && (forall t :: t in r.extras ==> t in unstarted && t in q)
            && |Chosen(r.task)| + |r.extras| <= BATCH
            && (!several ==> r.extras == [])
  {
    var k := FirstIn(q, eligible);
    var r := Take(q, eligible, unstarted, several, room);
    TakeConserves(q, eligible, unstarted, several, room);
    forall t | t in r.extras
      ensures t in q
    {
      assert t in multiset(r.extras);
      assert t in multiset(q);
    }
    if k == |q| {
      NothingUnstarted(q, [], unstarted, BATCH, room);
    }
  }

  /** The tasks of q that are in the set, in order. */
  function Those(q: seq<TaskId>, ok: set<TaskId>): seq<TaskId>
  {
    if q == [] then [] else (if q[0] in ok then [q[0]] else []) + Those(q[1..], ok)
  }

  function Least(a: nat, b: nat, c: nat): nat
  {
    if a <= b && a <= c then a else if b <= c then b else c
  }

  lemma {:induction false} PullTakesFirst(
      todo: seq<TaskId>, kept: seq<TaskId>, unstarted: set<TaskId>, quota: nat, room: nat)
    ensures var those := Those(todo, unstarted);
            Pull(todo, kept, unstarted, quota, room).0 == those[..Least(quota, room, |those|)]
    decreases |todo|
  {
    if todo != [] && quota > 0 {
      if todo[0] !in unstarted {
        PullTakesFirst(todo[1..], kept + [todo[0]], unstarted, quota, room);
        assert Those(todo, unstarted) == Those(todo[1..], unstarted);
      } else if room > 0 {
        PullTakesFirst(todo[1..], kept, unstarted, quota - 1, room - 1);
        var rest := Those(todo[1..], unstarted);
        var n := Least(quota - 1, room - 1, |rest|);
        assert ([todo[0]] + rest)[..n + 1] == [todo[0]] + rest[..n];
      }
    }
  }

  /** The extras are the first unstarted tasks behind the one taken, going round: as many as
      make eight with it, as there are, and as the deque has room for. */
  lemma TakePullsExtras(q: seq<TaskId>, eligible: set<TaskId>, unstarted: set<TaskId>, room: nat)
    ensures var r := Take(q, eligible, unstarted, true, room);
            var k := FirstIn(q, eligible);
            var those := Those(if k < |q| then q[k + 1..] + q[..k] else q, unstarted);
            r.extras == those[..Least(BATCH - |Chosen(r.task)|, room, |those|)]
  {
    var k := FirstIn(q, eligible);
    var rest := if k < |q| then q[k + 1..] + q[..k] else q;
    PullTakesFirst(rest, [], unstarted, if k < |q| then BATCH - 1 else BATCH, room);
  }

  lemma {:induction false} NothingUnstarted(
      todo: seq<TaskId>, kept: seq<TaskId>, unstarted: set<TaskId>, quota: nat, room: nat)
    requires quota > 0
    requires forall i :: 0 <= i < |todo| ==> todo[i] !in unstarted
    ensures Pull(todo, kept, unstarted, quota, room) == ([], kept + todo)
    decreases |todo|
  {
    if todo == [] {
      assert todo + kept == kept + todo;
    } else {
      NothingUnstarted(todo[1..], kept + [todo[0]], unstarted, quota, room);
      assert kept + [todo[0]] + todo[1..] == kept + todo;
    }
  }

  /** A scan that finds nothing leaves the queue in the order it found it. */
  lemma TakeNothingKeepsOrder(q: seq<TaskId>, eligible: set<TaskId>, unstarted: set<TaskId>, several: bool, room: nat)
    requires unstarted <= eligible
    requires forall t :: t in q ==> t !in eligible
    ensures Take(q, eligible, unstarted, several, room) == Taken(None, [], q)
  {
    NothingUnstarted(q, [], unstarted, BATCH, room);
  }

  /** With one worker every queued task is eligible, so the scan is a FIFO pop. */
  lemma TakeAloneIsFifo(q: seq<TaskId>, eligible: set<TaskId>, unstarted: set<TaskId>, room: nat)
    requires q != [] && forall t :: t in q ==> t in eligible
    ensures Take(q, eligible, unstarted, false, room) == Taken(Some(q[0]), [], q[1..])
  {
    assert q[0] in q;
    assert q[1..] + q[..0] == q[1..];
  }

  // ------------------------------------------------------------------- object

  /** The state the scan changes: the global queue and the worker's own deque,
      which accepts as many pushes as its free slots and the thieves allow. */
  class Scan {
    var global: seq<TaskId>
    var local: seq<TaskId>
    var globalPulls: nat
    var localPushes: nat

    constructor (global: seq<TaskId>, local: seq<TaskId>)
      ensures this.global == global && this.local == local
      ensures globalPulls == 0 && localPushes == 0
    {
      this.global, this.local := global, local;
      globalPulls, localPushes := 0, 0;
    }

    method Pop() returns (t: TaskId)
      requires global != []
      modifies this`global
      ensures t == old(global)[0] && global == old(global)[1..]
    {
      t := global[0];
      global := global[1..];
    }

    /** Takes the first eligible task, rotating the ones before it to the back. */
    method TakeFirst(eligible: set<TaskId>) returns (task: Option<TaskId>)
      modifies this`global
      ensures var k := FirstIn(old(global), eligible);
              if k < |old(global)|
              then task == Some(old(global)[k]) && global == old(global)[k + 1..] + old(global)[..k]
              else task == None && global == old(global)
    {
      var candidates := |global|;
      var index := 0;
      while index < candidates
        invariant 0 <= index <= candidates == |old(global)|
        invariant global == old(global)[index..] + old(global)[..index]
        invariant FirstIn(old(global), eligible) == index + FirstIn(old(global)[index..], eligible)
      {
        assert old(global)[index..][1..] == old(global)[index + 1..];
        assert global[1..] == old(global)[index + 1..] + old(global)[..index];
        var candidate := Pop();
        if candidate in eligible {
          return Some(candidate);
        }
        global := global + [candidate];
        assert old(global)[..index] + [candidate] == old(global)[..index + 1];
        index := index + 1;
      }
      return None;
    }

    /** Moves unstarted tasks to the deque, at most quota of them. */
    method PullExtras(unstarted: set<TaskId>, quota: nat, room: nat) returns (pulled: nat)
      modifies this`global, this`local, this`localPushes
      ensures var (m, q) := Pull(old(global), [], unstarted, quota, room);
              global == q && local == old(local) + m && pulled == |m| &&
              localPushes == old(localPushes) + |m|
    {
      pulled := 0;
      var candidates := |global|;
      ghost var goal := Pull(global, [], unstarted, quota, room);
      ghost var todo, kept, moved := global, [], [];
      var index := 0;
      while pulled < quota && index < candidates
        invariant index + |todo| == candidates && global == todo + kept
        invariant pulled == |moved| <= quota && pulled <= room
        invariant local == old(local) + moved && localPushes == old(localPushes) + pulled
        invariant Continues(goal, moved, Pull(todo, kept, unstarted, quota - pulled, room - pulled))
      {
        assert global[1..] == todo[1..] + kept && global[0] == todo[0];
        var extra := Pop();
        todo := todo[1..];
        index := index + 1;
        if extra !in unstarted {
          global := global + [extra];
          kept := kept + [extra];
          continue;
        }
        if pulled == room {
          global := global + [extra];
          return;
        }
        ghost var after := Pull(todo, kept, unstarted, quota - pulled - 1, room - pulled - 1).0;
        assert moved + ([extra] + after) == (moved + [extra]) + after;
        local := local + [extra];
        moved := moved + [extra];
        localPushes := localPushes + 1;
        pulled := pulled + 1;
      }
    }

    /** One worker's scan of the global queue. */
    method TakeGlobal(eligible: set<TaskId>, unstarted: set<TaskId>, several: bool, room: nat)
      returns (task: Option<TaskId>)
      modifies this
      ensures var r := Take(old(global), eligible, unstarted, several, room);
              && task == r.task
              && global == r.queue
              && local == old(local) + r.extras
              && globalPulls == old(globalPulls) + |Chosen(r.task)| + |r.extras|
              && localPushes == old(localPushes) + |r.extras|
    {
      task := TakeFirst(eligible);
      var pulled := |Chosen(task)|;
      if several {
        var extras := PullExtras(unstarted, BATCH - pulled, room);
        pulled := pulled + extras;
      }
      globalPulls := globalPulls + pulled;
    }
  }

  /** The extras found so far, then those the rest of the scan will find. */
  ghost predicate Continues(
      goal: (seq<TaskId>, seq<TaskId>), moved: seq<TaskId>, rest: (seq<TaskId>, seq<TaskId>))
  {
    goal.0 == moved + rest.0 && goal.1 == rest.1
  }
}
