/** The heaps behind the timers: arming, expiry and cancellation on the nodes of one
    processor's heap do to the timers what the step machine says. */
module TimerExpiry {
  import opened Common
  import opened TimerHeap
  import opened Timers

  // -------------------------------------------------------------- heap and timers

  /** The deadlines of the nodes, which do not change while a timer is armed. */
  type Snapshot = map<TimerNode?, nat>

  ghost predicate Owned(nodes: set<TimerNode?>, h: Handle)
  {
    exists n :: n in nodes && n != null && n.owner == h
  }

  /** There is one node for each active timer of processor p, with its deadline, and no other. */
  ghost predicate Stands(s: State, p: nat, nodes: set<TimerNode?>, dl: Snapshot)
  {
    && nodes <= dl.Keys
    && (forall n :: n in nodes ==>
          && n != null && TimerOf(s, n.owner).active && TimerOf(s, n.owner).home == p
          && TimerOf(s, n.owner).deadline == dl[n])
    && (forall n, m :: n in nodes && m in nodes && n != null && m != null && n.owner == m.owner ==> n == m)
    && (forall h: Handle :: TimerOf(s, h).active && TimerOf(s, h).home == p ==> Owned(nodes, h))
  }

  ghost function Deadlines(heap: Heap): Snapshot
    reads heap, heap.items, heap.Nodes()
  {
    map n | n in heap.Nodes() && n != null :: n.deadline
  }

  /** The heap holds the nodes of processor p's active timers. */
  ghost predicate Represents(heap: Heap, s: State, p: nat)
    reads heap, heap.items, heap.Nodes()
  {
    Stands(s, p, heap.Nodes(), Deadlines(heap))
  }

  /** The timer that has run out is cleared, and its task woken. */
  function Fire(s: State, h: Handle): State
  {
    var timer := TimerOf(s, h);
    s.(timers := s.timers[h := Cleared(timer)],
       phases := if timer.task.Some? && PhaseOf(s, timer.task.value) == Asleep(h)
                 then s.phases[timer.task.value := Woken(h, Expired)] else s.phases)
  }

  function FireAll(s: State, fired: seq<TimerNode>): State
  {
    if fired == [] then s else Fire(FireAll(s, fired[..|fired| - 1]), fired[|fired| - 1].owner)
  }

  // ------------------------------------------------- one by one is all at once

  /** The timers of the given handles are cleared at once, and the tasks they know woken. */
  ghost function Fired(s: State, handles: set<Handle>): State
  {
    s.(timers := (map h | h in s.timers :: if h in handles then Cleared(s.timers[h]) else s.timers[h]),
       phases := (map t | t in s.phases ::
                     if Hears(s, handles, t) then Woken(PhaseOf(s, t).handle, Expired) else s.phases[t]))
  }

  ghost predicate Hears(s: State, handles: set<Handle>, t: Task)
  {
    PhaseOf(s, t).Asleep? && PhaseOf(s, t).handle in handles && TimerOf(s, PhaseOf(s, t).handle).task == Some(t)
  }

  lemma FireOneMore(s: State, handles: set<Handle>, h: Handle)
    requires h !in handles && h in s.timers
    ensures Fire(Fired(s, handles), h) == Fired(s, handles + {h})
  {
    var one, all := Fire(Fired(s, handles), h), Fired(s, handles + {h});
    assert one.timers == all.timers;
    assert one.phases == all.phases;
  }

  ghost function Handles(fired: seq<TimerNode>): set<Handle>
  {
    set i | 0 <= i < |fired| :: fired[i].owner
  }

  lemma {:induction false} FireAllAtOnce(s: State, fired: seq<TimerNode>)
    requires forall i :: 0 <= i < |fired| ==> fired[i].owner in s.timers
    requires forall i, j :: 0 <= i < j < |fired| ==> fired[i].owner != fired[j].owner
    ensures FireAll(s, fired) == Fired(s, Handles(fired))
    decreases |fired|
  {
    if fired == [] {
      assert Fired(s, {}).timers == s.timers && Fired(s, {}).phases == s.phases;
    } else {
      var last := |fired| - 1;
      FireAllAtOnce(s, fired[..last]);
      assert Handles(fired) == Handles(fired[..last]) + {fired[last].owner};
      FireOneMore(s, Handles(fired[..last]), fired[last].owner);
    }
  }

  lemma ExpiryFires(s: State, p: nat, now: nat, handles: set<Handle>)
    requires forall h: Handle :: h in handles <==> Due(TimerOf(s, h), p, now)
    ensures DoExpire(s, p, now) == Fired(s, handles)
  {
    assert DoExpire(s, p, now).timers == Fired(s, handles).timers;
    assert DoExpire(s, p, now).phases == Fired(s, handles).phases;
  }

  // ------------------------------------------------------------------- expiry

  ghost function Members(fired: seq<TimerNode>): set<TimerNode?>
  {
    set n | n in fired
  }

  /** Takes out an earliest timer if it is due. */
  method PopDue(heap: Heap, now: nat, ghost all: set<TimerNode?>, ghost dl: Snapshot) returns (node: TimerNode?)
    requires heap.Valid() && heap.Nodes() <= all <= dl.Keys
    requires forall n :: n in all ==> n != null && n.deadline == dl[n]
    modifies heap`length, heap.items, heap.Nodes()`heapIndex, heap.Nodes()`active
    ensures heap.Valid()
    ensures forall n :: n in all ==> n != null && n.deadline == dl[n]
    ensures node == null ==>
              heap.Nodes() == old(heap.Nodes()) && forall n :: n in heap.Nodes() ==> n in dl && dl[n] > now
    ensures node != null ==>
              && node in old(heap.Nodes()) && heap.Nodes() == old(heap.Nodes()) - {node}
              && node in dl && dl[node] <= now
              && forall n :: n in heap.Nodes() ==> n in dl && dl[node] <= dl[n]
  {
    var next := heap.Peek();
    if next == null || next.deadline > now {
      return null;
    }
    node := heap.PopNode();
  }

  /** Each of the nodes is either fired, once, or left. */
  ghost predicate Split(all: set<TimerNode?>, left: set<TimerNode?>, fired: seq<TimerNode>)
  {
    all == left + Members(fired) && left !! Members(fired) && NoDup(fired)
  }

  /** Fired so far: all due, in order, and none later than what is left. */
  ghost predicate InTime(dl: Snapshot, fired: seq<TimerNode>, left: set<TimerNode?>, now: nat)
  {
    && (forall i :: 0 <= i < |fired| ==> fired[i] in dl && dl[fired[i]] <= now)
    && (forall i :: 0 < i < |fired| ==> dl[fired[i - 1]] <= dl[fired[i]])
    && (fired != [] ==> forall n :: n in left ==> n in dl && dl[fired[|fired| - 1]] <= dl[n])
  }

  ghost predicate Progress(all: set<TimerNode?>, dl: Snapshot, fired: seq<TimerNode>, left: set<TimerNode?>, now: nat)
  {
    Split(all, left, fired) && InTime(dl, fired, left, now)
  }

  lemma NextFired(all: set<TimerNode?>, dl: Snapshot, fired: seq<TimerNode>, left: set<TimerNode?>,
                  now: nat, node: TimerNode)
    requires Progress(all, dl, fired, left, now) && node in left && node in dl && dl[node] <= now
    requires forall n :: n in left - {node} ==> n in dl && dl[node] <= dl[n]
    ensures Progress(all, dl, fired + [node], left - {node}, now)
  {
  }

  /** Fires an earliest timer if it is due. */
  method FireNext(heap: Heap, now: nat, ghost all: set<TimerNode?>, ghost dl: Snapshot, ghost fired: seq<TimerNode>)
    returns (node: TimerNode?)
    requires heap.Valid() && heap.Nodes() <= all <= dl.Keys && Progress(all, dl, fired, heap.Nodes(), now)
    requires forall n :: n in all ==> n != null && n.deadline == dl[n]
    modifies heap`length, heap.items, heap.Nodes()`heapIndex, heap.Nodes()`active
    ensures heap.Valid() && heap.Nodes() <= old(heap.Nodes())
    ensures forall n :: n in all ==> n != null && n.deadline == dl[n]
    ensures node == null ==>
              heap.Nodes() == old(heap.Nodes()) && forall n :: n in heap.Nodes() ==> n in dl && dl[n] > now
    ensures node != null ==>
              heap.Nodes() < old(heap.Nodes()) && Progress(all, dl, fired + [node], heap.Nodes(), now)
  {
    node := PopDue(heap, now, all, dl);
    if node != null {
      NextFired(all, dl, fired, old(heap.Nodes()), now, node);
    }
  }

  method FireDue(heap: Heap, now: nat, s0: State, ghost all: set<TimerNode?>, ghost dl: Snapshot)
    returns (fired: seq<TimerNode>, s: State)
    requires heap.Valid() && heap.Nodes() == all <= dl.Keys
    requires forall n :: n in all ==> n != null && n.deadline == dl[n]
    modifies heap`length, heap.items, heap.Nodes()`heapIndex, heap.Nodes()`active
    ensures heap.Valid() && Progress(all, dl, fired, heap.Nodes(), now) && s == FireAll(s0, fired)
    ensures forall n :: n in heap.Nodes() ==> n in dl && dl[n] > now
    ensures forall n :: n in all ==> n != null && n.deadline == dl[n]
  {
    fired, s := [], s0;
    while true
      invariant heap.Valid() && heap.items == old(heap.items) && heap.Nodes() <= all
      invariant forall n :: n in all ==> n != null && n.deadline == dl[n]
      invariant Progress(all, dl, fired, heap.Nodes(), now) && s == FireAll(s0, fired)
      decreases heap.Nodes()
    {
      var node := FireNext(heap, now, all, dl, fired);
      if node == null {
        return;
      }
      s := Fire(s, node.owner);
      assert (fired + [node])[..|fired|] == fired;
      fired := fired + [node];
    }
  }

  lemma OwnersApart(fired: seq<TimerNode>, nodes: set<TimerNode?>)
    requires NoDup(fired) && Members(fired) <= nodes
    requires forall n, m :: n in nodes && m in nodes && n != null && m != null && n.owner == m.owner ==> n == m
    ensures forall i, j :: 0 <= i < j < |fired| ==> fired[i].owner != fired[j].owner
  {
    assert forall i :: 0 <= i < |fired| ==> fired[i] in Members(fired);
  }

  lemma FiredAreDue(s: State, p: nat, now: nat, all: set<TimerNode?>, dl: Snapshot, fired: seq<TimerNode>,
                    left: set<TimerNode?>, h: Handle)
    requires Stands(s, p, all, dl) && Progress(all, dl, fired, left, now)
    requires forall n :: n in left ==> n in dl && dl[n] > now
    ensures h in Handles(fired) <==> Due(TimerOf(s, h), p, now)
  {
    if h in Handles(fired) {
      var i :| 0 <= i < |fired| && fired[i].owner == h;
      assert fired[i] in Members(fired);
    }
    if Due(TimerOf(s, h), p, now) {
      var n :| n in all && n != null && n.owner == h;
      assert n in Members(fired);
      var i :| 0 <= i < |fired| && fired[i] == n;
    }
  }

  lemma LeftStands(s: State, p: nat, now: nat, all: set<TimerNode?>, dl: Snapshot, left: set<TimerNode?>)
    requires Stands(s, p, all, dl) && left <= all
    requires forall n :: n in left ==> n in dl && dl[n] > now
    requires forall n :: n in all - left ==> n in dl && dl[n] <= now
    ensures Stands(DoExpire(s, p, now), p, left, dl)
  {
    var s' := DoExpire(s, p, now);
    forall h: Handle | TimerOf(s', h).active && TimerOf(s', h).home == p
      ensures Owned(left, h)
    {
      assert TimerOf(s, h).active && TimerOf(s, h).home == p;
      assert Owned(all, h);
      var n :| n in all && n != null && n.owner == h;
      assert n in left;
    }
  }

  lemma ExpiresDue(s: State, p: nat, now: nat, all: set<TimerNode?>, dl: Snapshot, fired: seq<TimerNode>,
                   left: set<TimerNode?>)
    requires Stands(s, p, all, dl) && Progress(all, dl, fired, left, now)
    requires forall n :: n in left ==> n in dl && dl[n] > now
    ensures FireAll(s, fired) == DoExpire(s, p, now) && Stands(DoExpire(s, p, now), p, left, dl)
  {
    forall h: Handle
      ensures h in Handles(fired) <==> Due(TimerOf(s, h), p, now)
    {
      FiredAreDue(s, p, now, all, dl, fired, left, h);
    }
    OwnersApart(fired, all);
    assert forall i :: 0 <= i < |fired| ==> fired[i] in Members(fired);
    FireAllAtOnce(s, fired);
    ExpiryFires(s, p, now, Handles(fired));
    LeftStands(s, p, now, all, dl, left);
  }

  /** Takes out exactly the timers that are due, each once, earliest first, and wakes
      the tasks they know: if the heap represents processor p's timers, that is p's
      expiry, and the heap represents what is left. */
  method ExpireDue(heap: Heap, now: nat, s0: State, ghost p: nat) returns (fired: seq<TimerNode>, s: State)
    requires heap.Valid() && forall n :: n in heap.Nodes() ==> n != null
    modifies heap`length, heap.items, heap.Nodes()`heapIndex, heap.Nodes()`active
    ensures heap.Valid()
    ensures old(heap.Nodes()) == heap.Nodes() + Members(fired) && NoDup(fired)
    ensures forall n :: n in heap.Nodes() ==> n != null && n.deadline > now
    ensures forall i :: 0 <= i < |fired| ==> fired[i].deadline <= now
    ensures forall i :: 0 < i < |fired| ==> fired[i - 1].deadline <= fired[i].deadline
    ensures s == FireAll(s0, fired)
    ensures old(Represents(heap, s0, p)) ==> s == DoExpire(s0, p, now) && Represents(heap, s, p)
  {
    ghost var all := heap.Nodes();
    ghost var dl := Deadlines(heap);
    fired, s := FireDue(heap, now, s0, all, dl);
    assert forall i :: 0 <= i < |fired| ==> fired[i] in Members(fired);
    if old(Represents(heap, s0, p)) {
      ExpiresDue(s0, p, now, all, dl, fired, heap.Nodes());
    }
  }

  // ------------------------------------------------------- arming and cancelling

  lemma ArmStands(s: State, t: Task, node: TimerNode, p: nat, now: nat, delay: nat, nodes: set<TimerNode?>,
                  dl: Snapshot, dl': Snapshot)
    requires Stands(s, p, nodes, dl) && CanArm(s, t, node.owner) && now + delay <= UINT64_MAX
    requires dl'.Keys == nodes + {node} && dl'[node] == now + delay
    requires forall n :: n in nodes ==> dl'[n] == dl[n]
    ensures node !in nodes && Stands(DoArm(s, t, node.owner, p, now, delay, true), p, nodes + {node}, dl')
  {
    var s' := DoArm(s, t, node.owner, p, now, delay, true);
    forall h: Handle | TimerOf(s', h).active && TimerOf(s', h).home == p
      ensures Owned(nodes + {node}, h)
    {
      if h == node.owner {
        assert node in nodes + {node};
      } else {
        assert TimerOf(s, h).active && TimerOf(s, h).home == p;
        assert Owned(nodes, h);
        var n :| n in nodes && n != null && n.owner == h;
        assert n in nodes + {node};
      }
    }
  }

  /** Arming on processor p: the checks, then the node goes into p's heap, which may
      have no room for it. */
  method ArmTimer(heap: Heap, node: TimerNode, s0: State, t: Task, p: nat, now: nat, delay: nat, memory: bool)
    returns (s: State, ok: bool)
    requires heap.Valid() && Represents(heap, s0, p) && node.active == TimerOf(s0, node.owner).active
    modifies heap, heap.items, node, heap.Nodes()`heapIndex
    ensures heap.Valid() && Represents(heap, s, p) && node.active == TimerOf(s, node.owner).active
    ensures s == DoArm(s0, t, node.owner, p, now, delay, old(heap.CanGrow(memory)))
    ensures ok <==> now + delay <= UINT64_MAX && CanArm(s0, t, node.owner) && old(heap.CanGrow(memory))
  {
    s, ok := s0, false;
    if delay <= UINT64_MAX - now && CanArm(s0, t, node.owner) {
      ghost var nodes, dl := heap.Nodes(), Deadlines(heap);
      node.deadline := now + delay;
      ok := heap.Push(node, memory);
      if ok {
        s := s0.(timers := s0.timers[node.owner := Timer(Some(t), Some(p), true, p, node.deadline)],
                 phases := s0.phases[t := Asleep(node.owner)]);
        ArmStands(s0, t, node, p, now, delay, nodes, dl, Deadlines(heap));
      }
    }
  }

  lemma CancelStands(s: State, node: TimerNode, p: nat, nodes: set<TimerNode?>, dl: Snapshot)
    requires Stands(s, p, nodes, dl) && node in nodes
    requires TimerOf(s, node.owner).p.Some? && TimerOf(s, node.owner).task.Some?
    ensures Stands(DoCancel(s, node.owner), p, nodes - {node}, dl)
  {
    var s' := DoCancel(s, node.owner);
    forall h: Handle | TimerOf(s', h).active && TimerOf(s', h).home == p
      ensures Owned(nodes - {node}, h)
    {
      assert TimerOf(s, h).active && TimerOf(s, h).home == p;
      assert Owned(nodes, h);
      var n :| n in nodes && n != null && n.owner == h;
      assert n in nodes - {node};
    }
  }

  /** Cancelling takes the node out of the heap it is in, and is refused when the
      timer is in none or knows no task. */
  method CancelTimer(heap: Heap, node: TimerNode, s0: State, ghost p: nat) returns (s: State, ok: bool)
    requires heap.Valid() && Represents(heap, s0, p) && node.active == TimerOf(s0, node.owner).active
    requires node.active ==> node in heap.Nodes()
    modifies heap`length, heap.items, node`active, heap.Nodes()`heapIndex
    ensures heap.Valid() && Represents(heap, s, p) && node.active == TimerOf(s, node.owner).active
    ensures s == DoCancel(s0, node.owner)
    ensures ok <==> old(node.active) && TimerOf(s0, node.owner).p.Some? && TimerOf(s0, node.owner).task.Some?
  {
    s, ok := s0, false;
    var timer := TimerOf(s0, node.owner);
    if node.active && timer.p.Some? && timer.task.Some? {
      ghost var nodes, dl := heap.Nodes(), Deadlines(heap);
      heap.RemoveNode(node);
      s, ok := s0.(timers := s0.timers[node.owner := Cleared(timer)]), true;
      if PhaseOf(s, timer.task.value) == Asleep(node.owner) {
        s := s.(phases := s.phases[timer.task.value := Woken(node.owner, Cancelled)]);
      }
      CancelStands(s0, node, p, nodes, dl);
    }
  }
}
