/** The registry of socket descriptors: which generation of a descriptor number
    is in use, and which generation has an operation outstanding on it.

    Descriptor numbers are reused by the operating system; the generation tells
    a reused number from the one a request was made for. */
module Sockets {
  datatype Slot = Slot(generation: nat, pending: nat, active: bool)

  type Registry = map<int, Slot>

  datatype Status = Ok | InvalidArgument | InvalidState | OutOfMemory | SystemError

  const MAX_GENERATION: nat := 0xFFFF_FFFF_FFFF_FFFF

  // ------------------------------------------------------------ specification

  function SlotOf(reg: Registry, fd: int): Slot
  {
    if fd in reg then reg[fd] else Slot(0, 0, false)
  }

  predicate Trackable(reg: Registry, fd: int)
  {
    !SlotOf(reg, fd).active && SlotOf(reg, fd).generation != MAX_GENERATION
  }

  /** memory tells whether a new slot could be allocated. */
  function Track(reg: Registry, fd: int, memory: bool): (Registry, Status)
  {
    if fd < 0 then (reg, InvalidArgument)
    else if fd !in reg && !memory then (reg, OutOfMemory)
    else
      var slot := SlotOf(reg, fd);
      if !Trackable(reg, fd) then (reg[fd := slot], InvalidState)
      else (reg[fd := slot.(generation := slot.generation + 1, active := true)], Ok)
  }

  predicate Claimable(reg: Registry, fd: int, generation: nat)
  {
    && fd >= 0 && generation != 0 && fd in reg
    && reg[fd].active && reg[fd].generation == generation && reg[fd].pending == 0
  }

  function Claim(reg: Registry, fd: int, generation: nat): (Registry, Status)
  {
    if fd < 0 || generation == 0 then (reg, InvalidArgument)
    else if !Claimable(reg, fd, generation) then (reg, InvalidState)
    else (reg[fd := reg[fd].(pending := generation)], Ok)
  }

  function Release(reg: Registry, fd: int, generation: nat): Registry
  {
    if fd < 0 || fd !in reg || reg[fd].pending != generation then reg
    else reg[fd := reg[fd].(pending := 0)]
  }

  predicate Stale(reg: Registry, fd: int, generation: nat)
  {
    fd < 0 || fd !in reg || !reg[fd].active || reg[fd].generation != generation
  }

  /** closed tells whether the operating system closed the descriptor. */
  function Close(reg: Registry, fd: int, closed: bool): (Registry, Status)
  {
    if fd < 0 then (reg, InvalidArgument)
    else if fd !in reg || !reg[fd].active then (reg, InvalidState)
    else if !closed then (reg, SystemError)
    else
      var slot := reg[fd];
      (reg[fd := slot.(active := false,
                       generation := if slot.generation != MAX_GENERATION then slot.generation + 1
                                     else slot.generation)], Ok)
  }

  // --------------------------------------------------------------------- runs

  datatype Action =
    | DoTrack(fd: int, memory: bool)
    | DoClaim(fd: int, generation: nat)
    | DoRelease(fd: int, generation: nat)
    | DoClose(fd: int, closed: bool)

  function Do(reg: Registry, a: Action): Registry
  {
    match a
    case DoTrack(fd, memory) => Track(reg, fd, memory).0
    case DoClaim(fd, generation) => Claim(reg, fd, generation).0
    case DoRelease(fd, generation) => Release(reg, fd, generation)
    case DoClose(fd, closed) => Close(reg, fd, closed).0
  }

  function Run(reg: Registry, actions: seq<Action>): Registry
    decreases |actions|
  {
    if actions == [] then reg else Run(Do(reg, actions[0]), actions[1..])
  }

  /** Generations are odd exactly while the descriptor is tracked, except that a
      slot that has reached the last generation stays there; a claim is never
      newer than its slot. */
  predicate SlotOk(slot: Slot)
  {
    && slot.generation <= MAX_GENERATION && slot.pending <= slot.generation
    && (slot.active ==> slot.generation % 2 == 1)
    && (!slot.active && slot.generation != MAX_GENERATION ==> slot.generation % 2 == 0)
  }

  ghost predicate Valid(reg: Registry)
  {
    forall fd {:trigger reg[fd]} :: fd in reg ==> fd >= 0 && SlotOk(reg[fd])
  }

  lemma StepValid(reg: Registry, a: Action)
    requires Valid(reg)
    ensures Valid(Do(reg, a))
  {
  }

  lemma {:induction false} RunValid(reg: Registry, actions: seq<Action>)
    requires Valid(reg)
    ensures Valid(Run(reg, actions))
    decreases |actions|
  {
    if actions != [] {
      StepValid(reg, actions[0]);
      RunValid(Do(reg, actions[0]), actions[1..]);
    }
  }

  // ----------------------------------------------------------------- staleness

  /** No use of the descriptor from here on can belong to the generation. */
  predicate Outdated(reg: Registry, fd: int, generation: nat)
  {
    && fd in reg
    && (reg[fd].generation > generation || (reg[fd].generation == MAX_GENERATION && !reg[fd].active))
  }

  lemma {:induction false} OutdatedForever(reg: Registry, fd: int, generation: nat, actions: seq<Action>)
    requires Valid(reg) && generation <= MAX_GENERATION && Outdated(reg, fd, generation)
    ensures Outdated(Run(reg, actions), fd, generation) && Stale(Run(reg, actions), fd, generation)
    decreases |actions|
  {
    if actions != [] {
      StepValid(reg, actions[0]);
      OutdatedForever(Do(reg, actions[0]), fd, generation, actions[1..]);
    }
  }

  lemma CloseOutdates(reg: Registry, fd: int, generation: nat)
    requires Valid(reg) && generation <= SlotOf(reg, fd).generation && Close(reg, fd, true).1.Ok?
    ensures Outdated(Close(reg, fd, true).0, fd, generation)
  {
  }

  lemma StepMonotone(reg: Registry, a: Action, fd: int)
    requires Valid(reg)
    ensures SlotOf(reg, fd).generation <= SlotOf(Do(reg, a), fd).generation
  {
  }

  lemma {:induction false} Monotone(reg: Registry, actions: seq<Action>, fd: int)
    requires Valid(reg)
    ensures SlotOf(reg, fd).generation <= SlotOf(Run(reg, actions), fd).generation
    decreases |actions|
  {
    if actions != [] {
      StepValid(reg, actions[0]);
      StepMonotone(reg, actions[0], fd);
      Monotone(Do(reg, actions[0]), actions[1..], fd);
    }
  }

  /** Once a descriptor has been closed, requests made for it are stale for ever:
      whatever is tracked, claimed, released and closed before and after, also
      when the number is reused and when the generations have run out. */
  lemma ClosedIsStaleForever(reg: Registry, fd: int, before: seq<Action>, after: seq<Action>)
    requires Valid(reg)
    requires Close(Run(reg, before), fd, true).1.Ok?
    ensures Stale(Run(Close(Run(reg, before), fd, true).0, after), fd, SlotOf(reg, fd).generation)
  {
    var generation := SlotOf(reg, fd).generation;
    RunValid(reg, before);
    Monotone(reg, before, fd);
    CloseOutdates(Run(reg, before), fd, generation);
    StepValid(Run(reg, before), DoClose(fd, true));
    OutdatedForever(Close(Run(reg, before), fd, true).0, fd, generation, after);
  }

  lemma StepFresh(reg: Registry, a: Action, fd: int)
    requires Valid(reg) && fd in reg && reg[fd].active
    requires !(a.DoClose? && a.fd == fd && a.closed)
    ensures fd in Do(reg, a) && Do(reg, a)[fd].active && Do(reg, a)[fd].generation == reg[fd].generation
  {
  }

  /** And only then: while the descriptor is not closed, its requests stay fresh. */
  lemma {:induction false} OpenIsFresh(reg: Registry, fd: int, actions: seq<Action>)
    requires Valid(reg) && fd in reg && reg[fd].active
    requires forall a :: a in actions ==> !(a.DoClose? && a.fd == fd && a.closed)
    ensures !Stale(Run(reg, actions), fd, reg[fd].generation)
    decreases |actions|
  {
    if actions != [] {
      assert actions[0] in actions;
      StepFresh(reg, actions[0], fd);
      StepValid(reg, actions[0]);
      OpenIsFresh(Do(reg, actions[0]), fd, actions[1..]);
    }
  }

  // -------------------------------------------------------------------- claims

  /** Claims granted less claims given back, on one descriptor, over a run. */
  function Outstanding(reg: Registry, actions: seq<Action>, fd: int): int
    decreases |actions|
  {
    if actions == [] then 0
    else Change(reg, actions[0], fd) + Outstanding(Do(reg, actions[0]), actions[1..], fd)
  }

  function Change(reg: Registry, a: Action, fd: int): int
  {
    match a
    case DoClaim(f, generation) => if f == fd && Claim(reg, f, generation).1.Ok? then 1 else 0
    case DoRelease(f, generation) => if f == fd && Release(reg, f, generation) != reg then -1 else 0
    case _ => 0
  }

  function Held(reg: Registry, fd: int): int
  {
    if SlotOf(reg, fd).pending != 0 then 1 else 0
  }

  /** At most one claim is outstanding on a descriptor at any time, whatever
      generations and handles the claims come from. */
  lemma {:induction false} OneClaimPerDescriptor(reg: Registry, actions: seq<Action>, fd: int)
    requires Valid(reg)
    ensures Held(reg, fd) + Outstanding(reg, actions, fd) == Held(Run(reg, actions), fd)
    ensures Held(reg, fd) == 0 ==> 0 <= Outstanding(reg, actions, fd) <= 1
    decreases |actions|
  {
    if actions != [] {
      StepValid(reg, actions[0]);
      OneClaimPerDescriptor(Do(reg, actions[0]), actions[1..], fd);
    }
  }

  // ------------------------------------------------------------------- object

  datatype Entry = Entry(fd: int, slot: Slot)

  /** What a list of slots says: the first entry of a descriptor counts. */
  ghost function View(entries: seq<Entry>): Registry
  {
    if entries == [] then map[] else View(entries[1..])[entries[0].fd := entries[0].slot]
  }

  ghost predicate First(entries: seq<Entry>, fd: int, k: nat)
  {
    && k <= |entries| && (k < |entries| ==> entries[k].fd == fd)
    && forall i :: 0 <= i < k ==> entries[i].fd != fd
  }

  lemma {:induction false} FirstGivesView(entries: seq<Entry>, fd: int, k: nat)
    requires First(entries, fd, k)
    ensures k < |entries| <==> fd in View(entries)
    ensures k < |entries| ==> View(entries)[fd] == entries[k].slot
    decreases |entries|
  {
    if entries != [] && k > 0 {
      assert forall i :: 0 <= i < k - 1 ==> entries[1..][i] == entries[i + 1];
      FirstGivesView(entries[1..], fd, k - 1);
    }
  }

  lemma {:induction false} FirstIsUpdated(entries: seq<Entry>, fd: int, k: nat, slot: Slot)
    requires First(entries, fd, k) && k < |entries|
    ensures View(entries[k := Entry(fd, slot)]) == View(entries)[fd := slot]
    decreases |entries|
  {
    if k > 0 {
      assert forall i :: 0 <= i < k - 1 ==> entries[1..][i] == entries[i + 1];
      FirstIsUpdated(entries[1..], fd, k - 1, slot);
      assert entries[k := Entry(fd, slot)][1..] == entries[1..][k - 1 := Entry(fd, slot)];
    } else {
      assert entries[k := Entry(fd, slot)][1..] == entries[1..];
    }
  }

  /** The registry as the list of slots it is; new slots go in front. */
  class SlotList {
    var entries: seq<Entry>

    constructor ()
      ensures entries == []
    {
      entries := [];
    }

    method Find(fd: int) returns (k: nat)
      ensures First(entries, fd, k)
      ensures k < |entries| <==> fd in View(entries)
      ensures k < |entries| ==> View(entries)[fd] == entries[k].slot
    {
      k := 0;
      while k < |entries| && entries[k].fd != fd
        invariant k <= |entries|
        invariant forall i :: 0 <= i < k ==> entries[i].fd != fd
      {
        k := k + 1;
      }
      FirstGivesView(entries, fd, k);
    }

    method SetSlot(k: nat, fd: int, slot: Slot)
      requires First(entries, fd, k) && k < |entries|
      modifies this
      ensures View(entries) == old(View(entries))[fd := slot]
    {
      FirstIsUpdated(entries, fd, k, slot);
      entries := entries[k := Entry(fd, slot)];
    }

    method TrackDescriptor(fd: int, memory: bool) returns (status: Status)
      requires Valid(View(entries))
      modifies this
      ensures (View(entries), status) == Track(old(View(entries)), fd, memory)
      ensures Valid(View(entries))
    {
      StepValid(View(entries), DoTrack(fd, memory));
      if fd < 0 {
        return InvalidArgument;
      }
      var k := Find(fd);
      if k == |entries| {
        if !memory {
          return OutOfMemory;
        }
        entries := [Entry(fd, Slot(0, 0, false))] + entries;
        assert entries[1..] == old(entries);
        k := 0;
      }
      var slot := entries[k].slot;
      assert View(entries)[fd := slot] == View(entries);
      if slot.active || slot.generation == MAX_GENERATION {
        return InvalidState;
      }
      var generation := (slot.generation + 1) % (MAX_GENERATION + 1);
      if generation == 0 {
        generation := generation + 1;
      }
      SetSlot(k, fd, slot.(generation := generation, active := true));
      assert View(entries) == old(View(entries))[fd := slot.(generation := generation, active := true)];
      status := Ok;
    }

    method ClaimDescriptor(fd: int, generation: nat) returns (status: Status)
      requires Valid(View(entries))
      modifies this
      ensures (View(entries), status) == Claim(old(View(entries)), fd, generation)
      ensures Valid(View(entries))
    {
      StepValid(View(entries), DoClaim(fd, generation));
      if fd < 0 || generation == 0 {
        return InvalidArgument;
      }
      var k := Find(fd);
      if k == |entries| {
        return InvalidState;
      }
      var slot := entries[k].slot;
      if !slot.active || slot.generation != generation || slot.pending != 0 {
        return InvalidState;
      }
      SetSlot(k, fd, slot.(pending := generation));
      status := Ok;
    }

    method ReleaseDescriptor(fd: int, generation: nat)
      requires Valid(View(entries))
      modifies this
      ensures View(entries) == Release(old(View(entries)), fd, generation)
      ensures Valid(View(entries))
    {
      StepValid(View(entries), DoRelease(fd, generation));
      if fd >= 0 {
        var k := Find(fd);
        if k < |entries| && entries[k].slot.pending == generation {
          SetSlot(k, fd, entries[k].slot.(pending := 0));
        }
      }
    }

    method IsStale(fd: int, generation: nat) returns (stale: bool)
      ensures stale <==> Stale(View(entries), fd, generation)
    {
      if fd < 0 {
        return true;
      }
      var k := Find(fd);
      stale := k == |entries| || !entries[k].slot.active || entries[k].slot.generation != generation;
    }

    method CloseDescriptor(fd: int, closed: bool) returns (status: Status)
      requires Valid(View(entries))
      modifies this
      ensures (View(entries), status) == Close(old(View(entries)), fd, closed)
      ensures Valid(View(entries))
    {
      StepValid(View(entries), DoClose(fd, closed));
      if fd < 0 {
        return InvalidArgument;
      }
      var k := Find(fd);
      if k == |entries| || !entries[k].slot.active {
        return InvalidState;
      }
      if !closed {
        return SystemError;
      }
      var slot := entries[k].slot.(active := false);
      if slot.generation != MAX_GENERATION {
        var generation := (slot.generation + 1) % (MAX_GENERATION + 1);
        if generation == 0 {
          generation := generation + 1;
        }
        slot := slot.(generation := generation);
      }
      SetSlot(k, fd, slot);
      status := Ok;
    }
  }
}
