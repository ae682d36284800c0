/** The per-processor work-stealing deque.

    Part one is the lock-free protocol: one owner thread, any number of thief
    threads, and one step per atomic access, interleaved in any order under
    sequential consistency.  Part two is the same structure as an object, when
    no other thread interferes. */
module RunQueue {
  import opened Common

  type Item = int

  // ---------------------------------------------------------------- protocol

  /** Where the owner stands between two atomic accesses. */
  datatype OwnerPc =
    | OwnerIdle
    | PushBottom(item: Item, b: nat)          // bottom loaded
    | PushRoom(item: Item, b: nat)            // top loaded, there is room
    | PushSlot(item: Item, b: nat)            // slot written, not yet published
    | PopBottom(b: nat)                       // bottom loaded; b is one below it
    | PopStored(b: nat)                       // bottom lowered to b
    | PopTake(b: nat, t: nat)                 // top loaded, t <= b
    | PopRace(b: nat, item: Item)             // last item: slot loaded, exchange next
    | PopReset(b: nat)                        // exchange done, bottom must become b + 1
    | PopEmpty(t: nat)                        // nothing left, bottom must become t

  datatype ThiefPc =
    | ThiefIdle
    | GotTop(t: nat)
    | GotBottom(t: nat)                       // bottom loaded, it was above t
    | GotItem(t: nat, item: Item)             // slot loaded, exchange next

  datatype State = State(
    capacity: nat,
    top: nat,
    bottom: nat,
    slots: seq<Item>,
    owner: OwnerPc,
    thieves: map<nat, ThiefPc>)

  datatype Action = BeginPush(item: Item) | BeginPop | Owner | Thief(id: nat)

  /** What a step makes visible to its caller. */
  datatype Event =
    | Silent
    | Pushed(item: Item)
    | PushFull
    | Popped(item: Item)
    | PopNone
    | Stole(id: nat, item: Item)
    | StealNone(id: nat)

  function Initial(capacity: nat): State
  {
    State(capacity, 0, 0, seq(capacity, i => 0), OwnerIdle, map[])
  }

  function ThiefAt(s: State, id: nat): ThiefPc
  {
    if id in s.thieves then s.thieves[id] else ThiefIdle
  }

  predicate WellFormed(s: State)
  {
    s.capacity > 0 && |s.slots| == s.capacity
  }

  /** The slot of an index in the ring; the source masks, with a power of two. */
  function Pos(index: nat, capacity: nat): (slot: nat)
    requires capacity > 0
    ensures slot < capacity
  {
    if index < capacity then index else Pos(index - capacity, capacity)
  }

  lemma {:induction false} PosIsModulo(index: nat, capacity: nat)
    requires capacity > 0
    ensures Pos(index, capacity) == index % capacity
  {
    if index >= capacity {
      PosIsModulo(index - capacity, capacity);
      ModuloShift(index - capacity, capacity);
    }
  }

  lemma AtLeastOnce(k: int, n: nat)
    requires k >= 1
    ensures k * n >= n
  {
  }

  lemma ModuloShift(index: nat, capacity: nat)
    requires capacity > 0
    ensures (index + capacity) % capacity == index % capacity
  {
    var k := index / capacity + 1 - (index + capacity) / capacity;
    assert k * capacity == (index + capacity) % capacity - index % capacity;
    if k >= 1 {
      AtLeastOnce(k, capacity);
    } else if k <= -1 {
      AtLeastOnce(-k, capacity);
    }
  }

  function Slot(s: State, index: nat): Item
    requires WellFormed(s)
  {
    s.slots[Pos(index, s.capacity)]
  }

  function OwnerNext(s: State): (State, Event)
    requires WellFormed(s)
  {
    match s.owner
    case OwnerIdle => (s, Silent)
    case PushBottom(item, b) =>
      if b >= s.top + s.capacity then (s.(owner := OwnerIdle), PushFull)
      else (s.(owner := PushRoom(item, b)), Silent)
    case PushRoom(item, b) =>
      (s.(slots := s.slots[Pos(b, s.capacity) := item], owner := PushSlot(item, b)), Silent)
    case PushSlot(item, b) =>
      (s.(bottom := b + 1, owner := OwnerIdle), Pushed(item))
    case PopBottom(b) =>
      (s.(bottom := b, owner := PopStored(b)), Silent)
    case PopStored(b) =>
      if s.top > b then (s.(owner := PopEmpty(s.top)), PopNone)
      else (s.(owner := PopTake(b, s.top)), Silent)
    case PopTake(b, t) =>
      if t == b then (s.(owner := PopRace(b, Slot(s, b))), Silent)
      else (s.(owner := OwnerIdle), Popped(Slot(s, b)))
    case PopRace(b, item) =>
      if s.top == b then (s.(top := b + 1, owner := PopReset(b)), Popped(item))
      else (s.(owner := PopReset(b)), PopNone)
    case PopReset(b) =>
      (s.(bottom := b + 1, owner := OwnerIdle), Silent)
    case PopEmpty(t) =>
      (s.(bottom := t, owner := OwnerIdle), Silent)
  }

  function ThiefNext(s: State, id: nat): (State, Event)
    requires WellFormed(s)
  {
    match ThiefAt(s, id)
    case ThiefIdle =>
      (s.(thieves := s.thieves[id := GotTop(s.top)]), Silent)
    case GotTop(t) =>
      if t >= s.bottom then (s.(thieves := s.thieves[id := ThiefIdle]), StealNone(id))
      else (s.(thieves := s.thieves[id := GotBottom(t)]), Silent)
    case GotBottom(t) =>
      (s.(thieves := s.thieves[id := GotItem(t, Slot(s, t))]), Silent)
    case GotItem(t, item) =>
      if s.top == t then (s.(top := t + 1, thieves := s.thieves[id := ThiefIdle]), Stole(id, item))
      else (s.(thieves := s.thieves[id := ThiefIdle]), StealNone(id))
  }

  /** One atomic access of one thread.  A call can begin only when the owner is
      between calls; otherwise the action changes nothing. */
  function Do(s: State, a: Action): (State, Event)
    requires WellFormed(s)
  {
    match a
    case BeginPush(item) =>
      if s.owner.OwnerIdle? then (s.(owner := PushBottom(item, s.bottom)), Silent) else (s, Silent)
    case BeginPop =>
      if !s.owner.OwnerIdle? then (s, Silent)
      else if s.bottom == 0 then (s, PopNone)
      else (s.(owner := PopBottom(s.bottom - 1)), Silent)
    case Owner => OwnerNext(s)
    case Thief(id) => ThiefNext(s, id)
  }

  // --------------------------------------------------------------- invariant

  /** One past the last index that still holds an unreturned item. */
  function End(s: State): nat
  {
    match s.owner
    case PopStored(b) => b + 1
    case PopTake(b, _) => b + 1
    case PopRace(b, _) => b + 1
    case PopReset(b) => b + 1
    case PopEmpty(t) => t
    case _ => s.bottom
  }

  /** Indices below this one may still be taken by a thief: the owner has
      reserved the last item as soon as it has seen top below it. */
  function Limit(s: State): nat
  {
    match s.owner
    case PopTake(b, t) => if t < b then b else b + 1
    case _ => End(s)
  }

  ghost predicate OwnerInv(s: State)
  {
    && s.top <= End(s) <= s.top + s.capacity
    && match s.owner
       case OwnerIdle => true
       case PushBottom(_, b) => b == s.bottom
       case PushRoom(_, b) => b == s.bottom && b < s.top + s.capacity
       case PushSlot(item, b) =>
         b == s.bottom && b < s.top + s.capacity && WellFormed(s) && Slot(s, b) == item
       case PopBottom(b) => s.bottom == b + 1
       case PopStored(b) => s.bottom == b
       case PopTake(b, t) => s.bottom == b && t <= b && t <= s.top <= Limit(s)
       case PopRace(b, item) =>
         s.bottom == b && b <= s.top && WellFormed(s) && Slot(s, b) == item
       case PopReset(b) => s.bottom == b && s.top == b + 1
       case PopEmpty(t) => s.bottom + 1 == t == s.top
  }

  /** A thief whose top is still current has read an item that is still there. */
  ghost predicate ThiefInv(s: State, pc: ThiefPc)
    requires WellFormed(s)
  {
    match pc
    case ThiefIdle => true
    case GotTop(t) => t <= s.top
    case GotBottom(t) => t <= s.top && (t == s.top ==> t < Limit(s))
    case GotItem(t, item) =>
      t <= s.top && (t == s.top ==> t < Limit(s) && item == Slot(s, t))
  }

  ghost predicate Inv(s: State)
  {
    && WellFormed(s)
    && OwnerInv(s)
    && forall id :: id in s.thieves ==> ThiefInv(s, s.thieves[id])
  }

  /** The slots at ring positions lo to hi. */
  function Ring(slots: seq<Item>, lo: nat, hi: nat): (r: seq<Item>)
    requires slots != []
    ensures |r| == if lo <= hi then hi - lo else 0
    ensures forall i :: 0 <= i < |r| ==> r[i] == slots[Pos(lo + i, |slots|)]
  {
    if lo >= hi then [] else seq(hi - lo, i requires 0 <= i < hi - lo => slots[Pos(lo + i, |slots|)])
  }

  /** The items pushed and not yet returned, oldest first. */
  function Contents(s: State): seq<Item>
    requires WellFormed(s)
  {
    Ring(s.slots, s.top, End(s))
  }

  // -------------------------------------------------------------- refinement

  /** The abstract queue: push and pop at the back, steal at the front.  Only a
      steal may report empty spuriously. */
  ghost predicate QueueStep(capacity: nat, q: seq<Item>, q': seq<Item>, e: Event)
  {
    match e
    case Silent => q' == q
    case Pushed(x) => |q| < capacity && q' == q + [x]
    case PushFull => |q| == capacity && q' == q
    case Popped(x) => q == q' + [x]
    case PopNone => q == [] && q' == []
    case Stole(_, x) => q == [x] + q'
    case StealNone(_) => q' == q
  }

  lemma {:induction false} RingDistinct(i: nat, j: nat, capacity: nat)
    requires i < j < i + capacity
    ensures Pos(i, capacity) != Pos(j, capacity)
  {
    if i >= capacity {
      RingDistinct(i - capacity, j - capacity, capacity);
    }
  }

  lemma RingGrows(slots: seq<Item>, lo: nat, hi: nat)
    requires slots != [] && lo <= hi
    ensures Ring(slots, lo, hi + 1) == Ring(slots, lo, hi) + [slots[Pos(hi, |slots|)]]
  {
  }

  lemma RingShrinks(slots: seq<Item>, lo: nat, hi: nat)
    requires slots != [] && lo < hi
    ensures Ring(slots, lo, hi) == [slots[Pos(lo, |slots|)]] + Ring(slots, lo + 1, hi)
  {
  }

  lemma RingSplits(slots: seq<Item>, lo: nat, mid: nat, hi: nat)
    requires slots != [] && lo <= mid <= hi
    ensures Ring(slots, lo, hi) == Ring(slots, lo, mid) + Ring(slots, mid, hi)
  {
  }

  /** Writing the slot past the end leaves the items in the window alone. */
  lemma RingFramed(slots: seq<Item>, lo: nat, hi: nat, item: Item)
    requires lo <= hi < lo + |slots|
    ensures Ring(slots[Pos(hi, |slots|) := item], lo, hi) == Ring(slots, lo, hi)
  {
    forall i | lo <= i < hi
      ensures Pos(i, |slots|) != Pos(hi, |slots|)
    {
      RingDistinct(i, hi, |slots|);
    }
  }

  lemma OwnerQueueStep(s: State)
    requires Inv(s)
    ensures var (s', e) := OwnerNext(s);
            WellFormed(s') && QueueStep(s.capacity, Contents(s), Contents(s'), e)
  {
    match s.owner {
      case PushRoom(item, b) => RingFramed(s.slots, s.top, b, item);
      case PushSlot(_, b) => RingGrows(s.slots, s.top, b);
      case PopTake(b, t) =>
        if t < b {
          RingGrows(s.slots, s.top, b);
        }
      case PopRace(b, _) => RingGrows(s.slots, b, b);
      case _ =>
    }
  }

  lemma OwnerKeepsThief(s: State, id: nat)
    requires Inv(s) && id in s.thieves
    ensures ThiefInv(OwnerNext(s).0, s.thieves[id])
  {
    assert ThiefInv(s, s.thieves[id]);
    if s.owner.PushRoom? && s.thieves[id].GotItem? && s.thieves[id].t == s.top {
      RingDistinct(s.top, s.owner.b, s.capacity);
    }
  }

  lemma OwnerKeepsInv(s: State)
    requires Inv(s)
    ensures Inv(OwnerNext(s).0) && OwnerNext(s).0.capacity == s.capacity
  {
    var s' := OwnerNext(s).0;
    forall id | id in s'.thieves
      ensures ThiefInv(s', s'.thieves[id])
    {
      OwnerKeepsThief(s, id);
    }
  }

  lemma ThiefQueueStep(s: State, id: nat)
    requires Inv(s)
    ensures var (s', e) := ThiefNext(s, id);
            WellFormed(s') && s'.capacity == s.capacity &&
            QueueStep(s.capacity, Contents(s), Contents(s'), e)
  {
    var pc := ThiefAt(s, id);
    assert ThiefInv(s, pc);
    if pc.GotItem? && s.top == pc.t {
      RingShrinks(s.slots, s.top, End(s));
    }
  }

  lemma AdvancingTopKeepsOwnerInv(s: State)
    requires WellFormed(s) && OwnerInv(s) && s.top < Limit(s)
    ensures OwnerInv(s.(top := s.top + 1))
  {
  }

  lemma AdvancingTopKeepsThiefInv(s: State, pc: ThiefPc)
    requires WellFormed(s) && ThiefInv(s, pc)
    ensures ThiefInv(s.(top := s.top + 1), pc)
  {
  }

  lemma MovingThiefKeepsInv(s: State, id: nat, pc: ThiefPc)
    requires Inv(s) && ThiefInv(s, pc)
    ensures Inv(s.(thieves := s.thieves[id := pc]))
  {
    var s' := s.(thieves := s.thieves[id := pc]);
    assert End(s') == End(s) && Limit(s') == Limit(s);
    forall i | i in s'.thieves
      ensures ThiefInv(s', s'.thieves[i])
    {
      assert ThiefInv(s, s'.thieves[i]);
    }
  }

  lemma ThiefKeepsInv(s: State, id: nat)
    requires Inv(s)
    ensures Inv(ThiefNext(s, id).0)
  {
    var pc := ThiefAt(s, id);
    assert ThiefInv(s, pc);
    match pc {
      case ThiefIdle => MovingThiefKeepsInv(s, id, GotTop(s.top));
      case GotTop(t) => MovingThiefKeepsInv(s, id, if t >= s.bottom then ThiefIdle else GotBottom(t));
      case GotBottom(t) => MovingThiefKeepsInv(s, id, GotItem(t, Slot(s, t)));
      case GotItem(t, _) =>
        if s.top == t {
          var s1 := s.(top := t + 1);
          AdvancingTopKeepsOwnerInv(s);
          forall i | i in s1.thieves
            ensures ThiefInv(s1, s1.thieves[i])
          {
            AdvancingTopKeepsThiefInv(s, s.thieves[i]);
          }
          MovingThiefKeepsInv(s1, id, ThiefIdle);
        } else {
          MovingThiefKeepsInv(s, id, ThiefIdle);
        }
    }
  }

  /** Every atomic access either changes nothing in the abstract queue or is one
      of its operations, with the abstract operation's own result. */
  lemma StepSimulates(s: State, a: Action)
    requires Inv(s)
    ensures var (s', e) := Do(s, a);
            Inv(s') && s'.capacity == s.capacity &&
            QueueStep(s.capacity, Contents(s), Contents(s'), e)
  {
    match a {
      case Owner =>
        OwnerKeepsInv(s);
        OwnerQueueStep(s);
      case Thief(id) =>
        ThiefKeepsInv(s, id);
        ThiefQueueStep(s, id);
      case _ =>
    }
  }

  // -------------------------------------------------------------------- runs

  ghost predicate Reaches(s: State, actions: seq<Action>, trace: seq<Event>, last: State)
    decreases |actions|
  {
    if actions == [] then trace == [] && last == s
    else
      && WellFormed(s)
      && trace != []
      && trace[0] == Do(s, actions[0]).1
      && Reaches(Do(s, actions[0]).0, actions[1..], trace[1..], last)
  }

  /** The abstract queue accepts the trace and ends with the contents q'. */
  ghost predicate Accepts(capacity: nat, q: seq<Item>, trace: seq<Event>, q': seq<Item>)
    decreases |trace|
  {
    if trace == [] then q' == q
    else exists mid :: QueueStep(capacity, q, mid, trace[0]) && Accepts(capacity, mid, trace[1..], q')
  }

  lemma {:induction false} RunSimulates(s: State, actions: seq<Action>, trace: seq<Event>, last: State)
    requires Inv(s) && Reaches(s, actions, trace, last)
    ensures Inv(last) && last.capacity == s.capacity
    ensures Accepts(s.capacity, Contents(s), trace, Contents(last))
    decreases |actions|
  {
    if actions != [] {
      var s' := Do(s, actions[0]).0;
      StepSimulates(s, actions[0]);
      RunSimulates(s', actions[1..], trace[1..], last);
      assert QueueStep(s.capacity, Contents(s), Contents(s'), trace[0]);
    }
  }

  /** Refinement: whatever the interleaving, what the callers observe is a run
      of the sequential queue, and the live slots are its contents. */
  lemma Linearizable(capacity: nat, actions: seq<Action>, trace: seq<Event>, last: State)
    requires capacity > 0 && Reaches(Initial(capacity), actions, trace, last)
    ensures Inv(last)
    ensures Accepts(capacity, [], trace, Contents(last))
  {
    assert Contents(Initial(capacity)) == [];
    RunSimulates(Initial(capacity), actions, trace, last);
  }

  function In(e: Event): multiset<Item>
  {
    if e.Pushed? then multiset{e.item} else multiset{}
  }

  function Out(e: Event): multiset<Item>
  {
    if e.Popped? || e.Stole? then multiset{e.item} else multiset{}
  }

  function AllIn(trace: seq<Event>): multiset<Item>
  {
    if trace == [] then multiset{} else In(trace[0]) + AllIn(trace[1..])
  }

  function AllOut(trace: seq<Event>): multiset<Item>
  {
    if trace == [] then multiset{} else Out(trace[0]) + AllOut(trace[1..])
  }

  lemma QueueStepConserves(capacity: nat, q: seq<Item>, q': seq<Item>, e: Event)
    requires QueueStep(capacity, q, q', e)
    ensures multiset(q) + In(e) == Out(e) + multiset(q')
  {
  }

  lemma {:induction false} AcceptedConserves(capacity: nat, q: seq<Item>, trace: seq<Event>, q': seq<Item>)
    requires Accepts(capacity, q, trace, q')
    ensures multiset(q) + AllIn(trace) == AllOut(trace) + multiset(q')
    decreases |trace|
  {
    if trace != [] {
      var mid :| QueueStep(capacity, q, mid, trace[0]) && Accepts(capacity, mid, trace[1..], q');
      QueueStepConserves(capacity, q, mid, trace[0]);
      AcceptedConserves(capacity, mid, trace[1..], q');
      var rest := trace[1..];
      assert multiset(q) + (In(trace[0]) + AllIn(rest)) == (multiset(q) + In(trace[0])) + AllIn(rest);
      assert (Out(trace[0]) + multiset(mid)) + AllIn(rest) == Out(trace[0]) + (AllOut(rest) + multiset(q'));
    }
  }

  /** Conservation: in every interleaving the items pushed are exactly the items
      returned, each once, together with those still in the queue. */
  lemma ExactlyOnce(capacity: nat, actions: seq<Action>, trace: seq<Event>, last: State)
    requires capacity > 0 && Reaches(Initial(capacity), actions, trace, last)
    ensures WellFormed(last)
    ensures AllIn(trace) == AllOut(trace) + multiset(Contents(last))
    ensures forall x :: AllIn(trace)[x] <= 1 ==> AllOut(trace)[x] <= 1
  {
    Linearizable(capacity, actions, trace, last);
    AcceptedConserves(capacity, [], trace, Contents(last));
  }

  /** A failed exchange is never a lost item: the thief lost because top moved,
      so another thread took the item at the index it had read. */
  lemma FailedStealWasOvertaken(s: State, id: nat)
    requires Inv(s) && ThiefAt(s, id).GotItem? && ThiefNext(s, id).1.StealNone?
    ensures ThiefAt(s, id).t < s.top
    ensures Contents(ThiefNext(s, id).0) == Contents(s)
  {
    assert ThiefInv(s, ThiefAt(s, id));
  }

  /** A steal that nobody interrupts returns the oldest item. */
  lemma SoloSteal(s: State, id: nat)
    requires Inv(s) && s.owner.OwnerIdle? && ThiefAt(s, id).ThiefIdle?
    ensures var s1 := Do(s, Thief(id)).0;
            var (s2, e2) := Do(s1, Thief(id));
            if Contents(s) == [] then e2 == StealNone(id)
            else Do(Do(s2, Thief(id)).0, Thief(id)).1 == Stole(id, Contents(s)[0])
  {
  }

  /** A push that nobody interrupts is refused exactly when the queue is full. */
  lemma SoloPush(s: State, item: Item)
    requires Inv(s) && s.owner.OwnerIdle?
    ensures var s1 := Do(s, BeginPush(item)).0;
            var (s2, e2) := Do(s1, Owner);
            if |Contents(s)| == s.capacity then e2 == PushFull
            else Do(Do(s2, Owner).0, Owner).1 == Pushed(item)
  {
  }

  /** A pop that nobody interrupts returns the newest item. */
  lemma SoloPop(s: State)
    requires Inv(s) && s.owner.OwnerIdle? && Contents(s) != []
    ensures var s3 := Do(Do(Do(s, BeginPop).0, Owner).0, Owner).0;
            var (s4, e4) := Do(s3, Owner);
            var newest := Contents(s)[|Contents(s)| - 1];
            if |Contents(s)| > 1 then e4 == Popped(newest) else Do(s4, Owner).1 == Popped(newest)
  {
  }

  // ------------------------------------------------------------------ object

  /** The deque as an object, run by one thread at a time. */
  class Deque {
    var top: nat
    var bottom: nat
    const slots: array<Item>

    ghost predicate Valid()
      reads this
    {
      slots.Length > 0 && top <= bottom <= top + slots.Length
    }

    function Items(): seq<Item>
      requires slots.Length > 0
      reads this, slots
    {
      Ring(slots[..], top, bottom)
    }

    constructor (capacity: nat)
      requires capacity >= 2
      ensures Valid() && fresh(slots) && slots.Length == capacity && Items() == []
    {
      slots := new Item[capacity];
      top, bottom := 0, 0;
    }

    method OwnerPush(item: Item) returns (pushed: bool)
      requires Valid()
      modifies this, slots
      ensures Valid()
      ensures pushed <==> |old(Items())| < slots.Length
      ensures Items() == if pushed then old(Items()) + [item] else old(Items())
    {
      if bottom - top >= slots.Length {
        return false;
      }
      RingFramed(slots[..], top, bottom, item);
      slots[Pos(bottom, slots.Length)] := item;
      assert slots[..] == old(slots[..])[Pos(bottom, slots.Length) := item];
      RingGrows(slots[..], top, bottom);
      bottom := bottom + 1;
      return true;
    }

    method OwnerPop() returns (item: Option<Item>)
      requires Valid()
      modifies this
      ensures Valid()
      ensures item.None? <==> old(Items()) == []
      ensures old(Items()) == if item.None? then Items() else Items() + [item.value]
    {
      if bottom == 0 {
        return None;
      }
      bottom := bottom - 1;
      if top > bottom {
        bottom := top;
        return None;
      }
      item := Some(slots[Pos(bottom, slots.Length)]);
      RingGrows(slots[..], top, bottom);
      if top == bottom {
        top := top + 1;
        bottom := top;
      }
    }

    method Steal() returns (item: Option<Item>)
      requires Valid()
      modifies this
      ensures Valid()
      ensures item.None? <==> old(Items()) == []
      ensures old(Items()) == if item.None? then Items() else [item.value] + Items()
      ensures bottom == old(bottom) && top == old(top) + (if item.None? then 0 else 1)
    {
      if top >= bottom {
        return None;
      }
      item := Some(slots[Pos(top, slots.Length)]);
      RingShrinks(slots[..], top, bottom);
      top := top + 1;
    }

    /** Fills out with the oldest items, as many as there are and fit. */
    method StealBatch(out: array<Item>) returns (count: nat)
      requires Valid() && out != slots
      modifies this, out
      ensures Valid()
      ensures count == if |old(Items())| < out.Length then |old(Items())| else out.Length
      ensures out[..count] + Items() == old(Items())
      ensures out[count..] == old(out[..])[count..]
    {
      count := 0;
      ghost var ring := slots[..];
      while count < out.Length
        invariant Valid() && slots[..] == ring && bottom == old(bottom)
        invariant count <= out.Length && top == old(top) + count
        invariant out[..count] == Ring(ring, old(top), top)
        invariant out[count..] == old(out[..])[count..]
      {
        ghost var items := Items();
        var item := Steal();
        if item.None? {
          break;
        }
        assert item.value == items[0] == ring[Pos(top - 1, |ring|)];
        RingGrows(ring, old(top), top - 1);
        ghost var taken, rest := out[..count], out[count..];
        out[count] := item.value;
        assert out[..count + 1] == taken + [item.value];
        assert out[count + 1..] == rest[1..];
        count := count + 1;
      }
      RingSplits(ring, old(top), top, bottom);
    }
  }
}
