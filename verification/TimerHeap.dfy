/** The heap of timers of one processor: an array of nodes ordered by deadline, in
    which every node knows its own position. */
module TimerHeap {
  import opened Common

  /** A timer's node, which knows the handle that owns it. */
  class TimerNode {
    const owner: nat
    var deadline: nat
    var heapIndex: nat
    var active: bool

    constructor (handle: nat)
      ensures owner == handle && !active
    {
      owner, deadline, heapIndex, active := handle, 0, 0, false;
    }
  }

  const POINTER_SIZE: nat := 8

  function Parent(i: int): int
  {
    (i - 1) / 2
  }

  // -------------------------------------------------------- order of deadlines

  /** The key at i is no earlier than its parent's. */
  ghost predicate InOrder(keys: seq<nat>, i: int)
  {
    0 < i < |keys| ==> keys[Parent(i)] <= keys[i]
  }

  ghost predicate Ordered(keys: seq<nat>)
  {
    forall i :: 0 < i < |keys| ==> InOrder(keys, i)
  }

  /** If i is a child of k, its key is no earlier than that of k's parent. */
  ghost predicate Spanned(keys: seq<nat>, k: nat, i: int)
  {
    0 < k < |keys| && 0 < i < |keys| && Parent(i) == k ==> keys[Parent(k)] <= keys[i]
  }

  /** Ordered, except that the key at k may be smaller than its parent. */
  ghost predicate OrderedAbove(keys: seq<nat>, k: nat)
  {
    && (forall i :: 0 < i < |keys| ==> Spanned(keys, k, i))
    && (forall i :: 0 < i < |keys| && i != k ==> InOrder(keys, i))
  }

  /** Ordered, except that the key at k may be larger than its children. */
  ghost predicate OrderedBelow(keys: seq<nat>, k: nat)
  {
    && (forall i :: 0 < i < |keys| ==> Spanned(keys, k, i))
    && (forall i :: 0 < i < |keys| && Parent(i) != k ==> InOrder(keys, i))
  }

  function Swapped(keys: seq<nat>, a: nat, b: nat): seq<nat>
    requires a < |keys| && b < |keys|
  {
    keys[a := keys[b]][b := keys[a]]
  }

  lemma UpStep(keys: seq<nat>, k: nat)
    requires 0 < k < |keys| && OrderedAbove(keys, k) && keys[k] < keys[Parent(k)]
    ensures OrderedAbove(Swapped(keys, Parent(k), k), Parent(k))
  {
    var p := Parent(k);
    var swapped := Swapped(keys, p, k);
    assert p > 0 ==> InOrder(keys, p);
    forall i | 0 < i < |keys|
      ensures Spanned(swapped, p, i)
      ensures i != p ==> InOrder(swapped, i)
    {
      assert i != k ==> InOrder(keys, i);
      assert Spanned(keys, k, i);
    }
  }

  lemma DownStep(keys: seq<nat>, k: nat, c: nat)
    requires k < |keys| && OrderedBelow(keys, k) && 0 < c < |keys| && Parent(c) == k && keys[c] < keys[k]
    requires forall i {:trigger InOrder(keys, i)} :: 0 < i < |keys| && Parent(i) == k ==> keys[c] <= keys[i]
    ensures OrderedBelow(Swapped(keys, k, c), c)
  {
    var swapped := Swapped(keys, k, c);
    forall i | 0 < i < |keys|
      ensures Spanned(swapped, c, i)
      ensures Parent(i) != c ==> InOrder(swapped, i)
    {
      assert InOrder(keys, i) || Parent(i) == k;
      assert Spanned(keys, k, c);
    }
  }

  /** The earlier child of k, if it is earlier than k itself. */
  function EarlierChild(keys: seq<nat>, k: nat): (c: nat)
    requires k < |keys|
    ensures c < |keys| && c >= k
  {
    var left, right := k * 2 + 1, k * 2 + 2;
    var c := if left < |keys| && keys[left] < keys[k] then left else k;
    if right < |keys| && keys[right] < keys[c] then right else c
  }

  lemma Children(keys: seq<nat>, k: nat, i: nat)
    requires k < |keys| && 0 < i < |keys| && Parent(i) == k
    ensures i == k * 2 + 1 || i == k * 2 + 2
    ensures keys[EarlierChild(keys, k)] <= keys[i]
    ensures EarlierChild(keys, k) != k ==> keys[EarlierChild(keys, k)] < keys[k] && Parent(EarlierChild(keys, k)) == k
  {
  }

  lemma DownDone(keys: seq<nat>, k: nat)
    requires k < |keys| && OrderedBelow(keys, k) && EarlierChild(keys, k) == k
    ensures Ordered(keys)
  {
    forall i | 0 < i < |keys|
      ensures InOrder(keys, i)
    {
      if Parent(i) == k {
        Children(keys, k, i);
      } else {
        assert InOrder(keys, i);
      }
    }
  }

  lemma DownMove(keys: seq<nat>, k: nat)
    requires k < |keys| && OrderedBelow(keys, k) && EarlierChild(keys, k) != k
    ensures OrderedBelow(Swapped(keys, k, EarlierChild(keys, k)), EarlierChild(keys, k))
  {
    var c := EarlierChild(keys, k);
    Children(keys, k, c);
    forall i | 0 < i < |keys| && Parent(i) == k
      ensures keys[c] <= keys[i]
    {
      Children(keys, k, i);
    }
    DownStep(keys, k, c);
  }

  lemma UpDone(keys: seq<nat>, k: nat)
    requires k < |keys| && OrderedAbove(keys, k) && (k == 0 || keys[Parent(k)] <= keys[k])
    ensures Ordered(keys)
  {
    forall i | 0 < i < |keys|
      ensures InOrder(keys, i)
    {
    }
  }

  lemma {:induction false} RootIsLeast(keys: seq<nat>, i: nat)
    requires Ordered(keys) && i < |keys|
    ensures keys[0] <= keys[i]
  {
    if i > 0 {
      RootIsLeast(keys, Parent(i));
      assert InOrder(keys, i);
    }
  }

  lemma SameMembers<T>(s: seq<T>, a: nat, b: nat)
    requires a < |s| && b < |s|
    ensures var t := s[a := s[b]][b := s[a]];
            (set x | x in t) == (set x | x in s)
  {
    var t := s[a := s[b]][b := s[a]];
    forall x | x in s
      ensures x in t
    {
      var i :| 0 <= i < |s| && s[i] == x;
      assert t[if i == a then b else if i == b then a else i] == x;
    }
  }

  // ------------------------------------------------------------------ the heap

  class Heap {
    var items: array<TimerNode?>
    var length: nat

    /** The nodes in the heap. */
    ghost function Nodes(): set<TimerNode?>
      reads this, items
    {
      if length <= items.Length then set n | n in items[..length] else {}
    }

    /** Every position up to the length holds an active node that knows it. */
    ghost predicate Indexed()
      reads this, items, Nodes()
    {
      && length <= items.Length
      && forall i :: 0 <= i < length ==> items[i] != null && items[i].heapIndex == i && items[i].active
    }

    /** The deadlines by position. */
    ghost function Keys(): (keys: seq<nat>)
      requires Indexed()
      reads this, items, Nodes()
      ensures |keys| == length && forall i :: 0 <= i < length ==> keys[i] == items[i].deadline
    {
      seq(length, i requires 0 <= i < length && Indexed() reads this, items, Nodes() => items[i].deadline)
    }

    ghost predicate Valid()
      reads this, items, Nodes()
    {
      Indexed() && Ordered(Keys())
    }

    constructor ()
      ensures Valid() && Nodes() == {} && fresh(items)
    {
      items := new TimerNode?[0];
      length := 0;
    }

    method Swap(left: nat, right: nat)
      requires Indexed() && left < length && right < length && left != right
      modifies items, {items[left], items[right]}`heapIndex
      ensures Indexed() && Nodes() == old(Nodes())
      ensures Keys() == Swapped(old(Keys()), left, right)
    {
      ghost var before := items[..length];
      var node := items[left];
      items[left] := items[right];
      items[right] := node;
      items[left].heapIndex := left;
      items[right].heapIndex := right;
      assert items[..length] == before[left := before[right]][right := before[left]];
      SameMembers(before, left, right);
    }

    /** One step up: the node at k is in order, or is now at c. */
    method Rise(k: nat) returns (c: nat)
      requires Indexed() && k < length && OrderedAbove(Keys(), k)
      modifies items, Nodes()`heapIndex
      ensures Indexed() && Nodes() == old(Nodes()) && c <= k < length
      ensures if c == k then Ordered(Keys()) else OrderedAbove(Keys(), c)
    {
      c := k;
      if k != 0 {
        var parent := (k - 1) / 2;
        if items[parent].deadline > items[k].deadline {
          UpStep(Keys(), k);
          Swap(parent, k);
          return parent;
        }
      }
      UpDone(Keys(), k);
    }

    /** Moves the node at index up until it is in order. */
    method Up(index: nat)
      requires Indexed() && index < length && OrderedAbove(Keys(), index)
      modifies items, Nodes()`heapIndex
      ensures Valid() && Nodes() == old(Nodes())
    {
      var k: nat := index;
      while true
        invariant k < length && Indexed() && OrderedAbove(Keys(), k) && Nodes() == old(Nodes())
        decreases k
      {
        var c := Rise(k);
        if c == k {
          return;
        }
        k := c;
      }
    }

    method Smallest(k: nat) returns (c: nat)
      requires Indexed() && k < length
      ensures c == EarlierChild(Keys(), k)
    {
      var left := k * 2 + 1;
      var right := left + 1;
      c := k;
      if left < length && items[left].deadline < items[c].deadline {
        c := left;
      }
      if right < length && items[right].deadline < items[c].deadline {
        c := right;
      }
    }

    /** One step down: the node at k is in order, or is now at c. */
    method Sink(k: nat) returns (c: nat)
      requires Indexed() && k < length && OrderedBelow(Keys(), k)
      modifies items, Nodes()`heapIndex
      ensures Indexed() && Nodes() == old(Nodes()) && k <= c < length
      ensures if c == k then Ordered(Keys()) else OrderedBelow(Keys(), c)
    {
      c := Smallest(k);
      if c == k {
        DownDone(Keys(), k);
      } else {
        DownMove(Keys(), k);
        Swap(k, c);
      }
    }

    /** Moves the node at index down until it is in order. */
    method Down(index: nat)
      requires Indexed() && index < length && OrderedBelow(Keys(), index)
      modifies items, Nodes()`heapIndex
      ensures Valid() && Nodes() == old(Nodes())
    {
      var k: nat := index;
      while true
        invariant k < length && Indexed() && OrderedBelow(Keys(), k) && Nodes() == old(Nodes())
        decreases length - k
      {
        var c := Sink(k);
        if c == k {
          return;
        }
        k := c;
      }
    }

    /** Moves the nodes to a larger array. */
    method Enlarge(capacity: nat)
      requires Indexed() && capacity >= length
      modifies `items
      ensures fresh(items) && items.Length == capacity
      ensures Indexed() && Nodes() == old(Nodes()) && Keys() == old(Keys())
    {
      ghost var keys := Keys();
      var grown := new TimerNode?[capacity];
      forall i | 0 <= i < length {
        grown[i] := items[i];
      }
      assert grown[..length] == items[..length];
      items := grown;
      assert Indexed() && Keys() == keys;
    }

    /** There is room for one more node, or the array can be doubled. */
    ghost predicate CanGrow(memory: bool)
      reads this
    {
      length < items.Length
      || (memory && (if items.Length == 0 then 16 else items.Length * 2) <= SIZE_MAX / POINTER_SIZE)
    }

    /** Doubles the array when it is full. */
    method Grow(memory: bool) returns (ok: bool)
      requires Valid()
      modifies `items
      ensures Valid() && Nodes() == old(Nodes())
      ensures ok <==> old(CanGrow(memory))
      ensures ok ==> length < items.Length && (items == old(items) || fresh(items))
      ensures !ok ==> items == old(items)
    {
      ok := true;
      if length == items.Length {
        var capacity := if items.Length == 0 then 16 else items.Length * 2;
        if capacity > SIZE_MAX / POINTER_SIZE || !memory {
          return false;
        }
        Enlarge(capacity);
      }
    }

    method Append(node: TimerNode)
      requires Indexed() && length < items.Length && node !in Nodes()
      modifies `length, items, node`active, node`heapIndex
      ensures Indexed() && length == old(length) + 1
      ensures Nodes() == old(Nodes()) + {node} && Keys() == old(Keys()) + [node.deadline]
    {
      ghost var before := items[..length];
      node.active := true;
      node.heapIndex := length;
      items[length] := node;
      length := length + 1;
      assert items[..length] == before + [node];
    }

    /** Adds a node that is in no heap; a node that is in one is refused. */
    method Push(node: TimerNode, memory: bool) returns (ok: bool)
      requires Valid() && (!node.active ==> node !in Nodes())
      modifies this, items, node`active, node`heapIndex, Nodes()`heapIndex
      ensures Valid()
      ensures ok <==> !old(node.active) && old(CanGrow(memory))
      ensures ok ==> node.active && Nodes() == old(Nodes()) + {node}
      ensures !ok ==> Nodes() == old(Nodes()) && node.active == old(node.active)
      ensures items == old(items) || fresh(items)
    {
      if node.active {
        return false;
      }
      ok := Grow(memory);
      if ok {
        AppendAbove(Keys(), node.deadline);
        Append(node);
        Up(length - 1);
      }
    }

    /** Takes the node at index out; the last node takes its position. */
    method Detach(index: nat) returns (node: TimerNode)
      requires Indexed() && index < length
      modifies `length, items, Nodes()`heapIndex, {items[index]}`active
      ensures Indexed() && length == old(length) - 1 && node == old(items[index]) && !node.active
      ensures Nodes() == old(Nodes()) - {node} && Keys() == Removed(old(Keys()), index)
    {
      ghost var before := items[..length];
      node := items[index];
      assert items[index] in Nodes();
      node.active := false;
      length := length - 1;
      if index != length {
        assert items[length] in old(Nodes());
        items[index] := items[length];
        items[index].heapIndex := index;
      }
      assert items[..length] == if index == length then before[..length] else before[index := before[length]][..length];
      MembersWithout(before, index);
    }

    /** The earliest timer, if there is one. */
    method Peek() returns (node: TimerNode?)
      requires Valid()
      ensures node == null <==> Nodes() == {}
      ensures node != null ==> node in Nodes() && forall n :: n in Nodes() ==> node.deadline <= n.deadline
    {
      if length == 0 {
        return null;
      }
      node := items[0];
      assert items[0] in Nodes();
      Earliest();
    }

    lemma Earliest()
      requires Valid() && length > 0
      ensures forall n :: n in Nodes() ==> n != null && items[0].deadline <= n.deadline
    {
      forall n | n in Nodes()
        ensures n != null && items[0].deadline <= n.deadline
      {
        var i :| 0 <= i < length && items[i] == n;
        RootIsLeast(Keys(), i);
      }
    }

    /** Takes out an earliest timer. */
    method PopNode() returns (node: TimerNode?)
      requires Valid()
      modifies `length, items, Nodes()`heapIndex, Nodes()`active
      ensures Valid()
      ensures node == null <==> old(Nodes()) == {}
      ensures node == null ==> Nodes() == old(Nodes())
      ensures node != null ==>
                && node in old(Nodes()) && !node.active && Nodes() == old(Nodes()) - {node}
                && forall n :: n in old(Nodes()) ==> node.deadline <= n.deadline
    {
      if length == 0 {
        return null;
      }
      assert items[0] in Nodes();
      Earliest();
      RemovedOrder(Keys(), 0);
      node := Detach(0);
      if length != 0 {
        Down(0);
      }
    }

    /** Takes out any timer: one sift, up or down, restores the order.  A timer that
        is in no heap is left alone. */
    method RemoveNode(node: TimerNode)
      requires Valid() && (node.active ==> node in Nodes())
      modifies `length, items, node`active, Nodes()`heapIndex
      ensures Valid() && !node.active && Nodes() == old(Nodes()) - {node}
    {
      if !node.active || node.heapIndex >= length {
        InactiveIsOut(node);
        return;
      }
      var index := node.heapIndex;
      assert items[index] == node by {
        var i :| 0 <= i < length && items[i] == node;
      }
      RemovedOrder(Keys(), index);
      var n := Detach(index);
      if index != length {
        if index != 0 && items[index].deadline < items[(index - 1) / 2].deadline {
          Up(index);
        } else {
          Down(index);
        }
      }
    }

    lemma InactiveIsOut(node: TimerNode)
      requires Indexed() && (node.active ==> node in Nodes()) && (!node.active || node.heapIndex >= length)
      ensures node !in Nodes() && !node.active
    {
    }
  }

  /** What is left when the key at k goes and the last key takes its position. */
  function Removed(keys: seq<nat>, k: nat): seq<nat>
    requires k < |keys|
  {
    var last := |keys| - 1;
    if k == last then keys[..last] else keys[k := keys[last]][..last]
  }

  /** One of the two sifts is enough. */
  lemma RemovedOrder(keys: seq<nat>, k: nat)
    requires Ordered(keys) && k < |keys|
    ensures var r := Removed(keys, k);
            if k == |keys| - 1 then Ordered(r)
            else if k != 0 && r[k] < r[Parent(k)] then OrderedAbove(r, k)
            else OrderedBelow(r, k)
  {
    var r := Removed(keys, k);
    forall i | 0 < i < |r|
      ensures i != k && Parent(i) != k ==> InOrder(r, i)
      ensures Spanned(r, k, i)
    {
      assert InOrder(keys, i);
      assert k > 0 ==> InOrder(keys, k);
    }
    forall i | 0 < i < |r|
      ensures if k != 0 && k < |r| && r[k] < r[Parent(k)] then i != k ==> InOrder(r, i)
              else Parent(i) != k ==> InOrder(r, i)
    {
      assert Spanned(r, k, i);
    }
  }

  lemma MembersWithout<T>(s: seq<T>, k: nat)
    requires k < |s| && forall i, j :: 0 <= i < j < |s| ==> s[i] != s[j]
    ensures var last := |s| - 1;
            var t := if k == last then s[..last] else s[k := s[last]][..last];
            (set x | x in t) == (set x | x in s) - {s[k]}
  {
    var last := |s| - 1;
    var t := if k == last then s[..last] else s[k := s[last]][..last];
    forall x | x in s && x != s[k]
      ensures x in t
    {
      var i :| 0 <= i < |s| && s[i] == x;
      assert t[if i == last then k else i] == x;
    }
    assert forall i :: 0 <= i < |t| ==> t[i] == if i == k then s[last] else s[i];
  }

  lemma AppendAbove(keys: seq<nat>, x: nat)
    requires Ordered(keys)
    ensures OrderedAbove(keys + [x], |keys|)
  {
    forall i | 0 < i <= |keys|
      ensures Spanned(keys + [x], |keys|, i)
      ensures i != |keys| ==> InOrder(keys + [x], i)
    {
      assert i < |keys| ==> InOrder(keys, i);
    }
  }
}
