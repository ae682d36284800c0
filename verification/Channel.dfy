/** Channels between tasks: a ring of values, and queues of tasks parked in send
    and in receive.  Every operation holds the runtime's mutex, so operations are
    steps; whether a task may park is its environment's choice. */
module Channel {
  import opened Common

  type Task = nat
  type Value = int

  /** How a call ends: at once, by parking, or refused. */
  datatype Result = Done | Parked | Closed | Refused

  datatype Parcel = Parcel(task: Task, value: Value)

  datatype State = State(
    capacity: nat,
    buffer: seq<Value>,
    senders: seq<Parcel>,          // parked senders and what they send, oldest first
    receivers: seq<Task>,          // parked receivers, oldest first
    closed: bool,
    sent: seq<Value>,              // history: values of accepted sends, by arrival
    arrived: seq<Task>,            // history: accepted receives, by arrival
    delivered: seq<Parcel>,        // history: who received what
    discarded: seq<Value>,         // history: values a close threw away
    turnedAway: seq<Task>)         // history: receivers a close sent away

  datatype Action = Send(task: Task, value: Value, parks: bool) | Receive(task: Task, parks: bool) | Close

  function Initial(capacity: nat): State
  {
    State(capacity, [], [], [], false, [], [], [], [], [])
  }

  function Values(parcels: seq<Parcel>): seq<Value>
  {
    if parcels == [] then [] else [parcels[0].value] + Values(parcels[1..])
  }

  function Tasks(parcels: seq<Parcel>): seq<Task>
  {
    if parcels == [] then [] else [parcels[0].task] + Tasks(parcels[1..])
  }

  function DoSend(s: State, t: Task, v: Value, parks: bool): (State, Result)
  {
    if s.closed then (s, Closed)
    else if s.receivers != [] then
      (s.(receivers := s.receivers[1..],
          delivered := s.delivered + [Parcel(s.receivers[0], v)],
          sent := s.sent + [v]), Done)
    else if |s.buffer| < s.capacity then (s.(buffer := s.buffer + [v], sent := s.sent + [v]), Done)
    else if !parks then (s, Refused)
    else (s.(senders := s.senders + [Parcel(t, v)], sent := s.sent + [v]), Parked)
  }

  /** The oldest parked sender's value moves into the ring. */
  function Refill(s: State): State
  {
    if s.senders == [] then s
    else s.(buffer := s.buffer + [s.senders[0].value], senders := s.senders[1..])
  }

  function DoReceive(s: State, t: Task, parks: bool): (State, Result)
  {
    if s.buffer != [] then
      (Refill(s.(buffer := s.buffer[1..],
                 delivered := s.delivered + [Parcel(t, s.buffer[0])],
                 arrived := s.arrived + [t])), Done)
    else if s.senders != [] then
      (s.(senders := s.senders[1..],
          delivered := s.delivered + [Parcel(t, s.senders[0].value)],
          arrived := s.arrived + [t]), Done)
    else if s.closed then (s, Closed)
    else if !parks then (s, Refused)
    else (s.(receivers := s.receivers + [t], arrived := s.arrived + [t]), Parked)
  }

  function DoClose(s: State): (State, Result)
  {
    if s.closed then (s, Closed)
    else
      (s.(closed := true, senders := [], receivers := [],
          discarded := Values(s.senders), turnedAway := s.receivers), Done)
  }

  function Do(s: State, a: Action): State
  {
    match a
    case Send(t, v, parks) => DoSend(s, t, v, parks).0
    case Receive(t, parks) => DoReceive(s, t, parks).0
    case Close => DoClose(s).0
  }

  // ---------------------------------------------------------------- invariant

  ghost predicate Inv(s: State)
  {
    && |s.buffer| <= s.capacity
    && (s.receivers != [] ==> s.buffer == [] && s.senders == [])
    && (s.senders != [] ==> |s.buffer| == s.capacity)
    && (s.closed ==> s.senders == [] && s.receivers == [])
    && (!s.closed ==> s.discarded == [] && s.turnedAway == [])
    && (s.turnedAway != [] ==> s.buffer == [])
    && s.sent == Values(s.delivered) + s.buffer + Values(s.senders) + s.discarded
    && s.arrived == Tasks(s.delivered) + s.receivers + s.turnedAway
  }

  lemma {:induction false} Snoc(parcels: seq<Parcel>, x: Parcel)
    ensures Values(parcels + [x]) == Values(parcels) + [x.value]
    ensures Tasks(parcels + [x]) == Tasks(parcels) + [x.task]
  {
    if parcels != [] {
      Snoc(parcels[1..], x);
      assert (parcels + [x])[1..] == parcels[1..] + [x];
    }
  }

  lemma SendKeeps(s: State, t: Task, v: Value, parks: bool)
    requires Inv(s)
    ensures Inv(DoSend(s, t, v, parks).0)
  {
    if s.receivers != [] {
      Snoc(s.delivered, Parcel(s.receivers[0], v));
    }
    Snoc(s.senders, Parcel(t, v));
  }

  lemma Regroup(d: seq<Value>, x: Value, b: seq<Value>, p: seq<Value>, c: seq<Value>)
    ensures d + ([x] + b) + p + c == (d + [x]) + b + p + c
    ensures d + b + ([x] + p) + c == d + (b + [x]) + p + c
  {
  }

  lemma TakenKeeps(s: State, t: Task)
    requires Inv(s) && s.buffer != []
    ensures var d := s.delivered + [Parcel(t, s.buffer[0])];
            && s.sent == Values(d) + s.buffer[1..] + Values(s.senders) + s.discarded
            && s.arrived + [t] == Tasks(d) + s.receivers + s.turnedAway
  {
    Snoc(s.delivered, Parcel(t, s.buffer[0]));
    assert s.buffer == [s.buffer[0]] + s.buffer[1..];
    Regroup(Values(s.delivered), s.buffer[0], s.buffer[1..], Values(s.senders), s.discarded);
  }

  lemma RefillKeeps(s: State)
    requires s.senders != [] && s.sent == Values(s.delivered) + s.buffer + Values(s.senders) + s.discarded
    ensures var s' := Refill(s);
            s'.sent == Values(s'.delivered) + s'.buffer + Values(s'.senders) + s'.discarded
  {
    Regroup(Values(s.delivered), s.senders[0].value, s.buffer, Values(s.senders[1..]), s.discarded);
  }

  lemma ReceiveBufferedKeeps(s: State, t: Task)
    requires Inv(s) && s.buffer != []
    ensures Inv(DoReceive(s, t, false).0)
  {
    TakenKeeps(s, t);
    if s.senders != [] {
      RefillKeeps(s.(buffer := s.buffer[1..], delivered := s.delivered + [Parcel(t, s.buffer[0])],
                    arrived := s.arrived + [t]));
    }
  }

  lemma ReceiveKeeps(s: State, t: Task, parks: bool)
    requires Inv(s)
    ensures Inv(DoReceive(s, t, parks).0)
  {
    if s.buffer != [] {
      ReceiveBufferedKeeps(s, t);
    } else if s.senders != [] {
      Snoc(s.delivered, Parcel(t, s.senders[0].value));
    }
  }

  lemma CloseKeeps(s: State)
    requires Inv(s)
    ensures Inv(DoClose(s).0)
  {
  }

  lemma StepKeeps(s: State, a: Action)
    requires Inv(s)
    ensures Inv(Do(s, a))
  {
    match a {
      case Send(t, v, parks) => SendKeeps(s, t, v, parks);
      case Receive(t, parks) => ReceiveKeeps(s, t, parks);
      case Close => CloseKeeps(s);
    }
  }

  function Run(s: State, actions: seq<Action>): State
    decreases |actions|
  {
    if actions == [] then s else Run(Do(s, actions[0]), actions[1..])
  }

  lemma {:induction false} RunKeeps(s: State, actions: seq<Action>)
    requires Inv(s)
    ensures Inv(Run(s, actions))
    decreases |actions|
  {
    if actions != [] {
      StepKeeps(s, actions[0]);
      RunKeeps(Do(s, actions[0]), actions[1..]);
    }
  }

  // ----------------------------------------------------------------- theorems

  lemma {:induction false} ParcelAt(parcels: seq<Parcel>, i: nat)
    requires i < |parcels|
    ensures |Values(parcels)| == |Tasks(parcels)| == |parcels|
    ensures Values(parcels)[i] == parcels[i].value && Tasks(parcels)[i] == parcels[i].task
  {
    if i > 0 {
      ParcelAt(parcels[1..], i - 1);
    } else if |parcels| > 1 {
      ParcelAt(parcels[1..], 0);
    }
  }

  /** In every run, of any capacity, the i-th receive to arrive gets the value of
      the i-th accepted send. */
  lemma FirstInFirstOut(capacity: nat, actions: seq<Action>, i: nat)
    requires i < |Run(Initial(capacity), actions).delivered|
    ensures var s := Run(Initial(capacity), actions);
            && i < |s.arrived| && i < |s.sent|
            && s.delivered[i] == Parcel(s.arrived[i], s.sent[i])
  {
    RunKeeps(Initial(capacity), actions);
    var s := Run(Initial(capacity), actions);
    ParcelAt(s.delivered, i);
  }

  /** Nothing is lost, copied or reordered: what was sent is what was delivered,
      then what is buffered, then what parked senders hold, then what a close
      discarded, which is only what senders were parked with when it came. */
  lemma SentIsAccounted(capacity: nat, actions: seq<Action>)
    ensures var s := Run(Initial(capacity), actions);
            && s.sent == Values(s.delivered) + s.buffer + Values(s.senders) + s.discarded
            && s.arrived == Tasks(s.delivered) + s.receivers + s.turnedAway
            && (s.receivers != [] ==> s.buffer == [] && s.senders == [])
            && (s.senders != [] ==> |s.buffer| == s.capacity == capacity)
            && |s.buffer| <= capacity
  {
    RunKeeps(Initial(capacity), actions);
    CapacityStays(Initial(capacity), actions);
  }

  lemma {:induction false} Lengths(parcels: seq<Parcel>)
    ensures |Values(parcels)| == |Tasks(parcels)| == |parcels|
  {
    if parcels != [] {
      Lengths(parcels[1..]);
    }
  }

  /** Who has to wait: on an open channel a send is done at once exactly when the
      sends so far are ahead of the receives so far by less than the capacity, and
      a receive exactly when they are ahead at all; otherwise the caller parks, if
      it may, and is accepted all the same. */
  lemma WhoWaits(capacity: nat, actions: seq<Action>, t: Task, v: Value, parks: bool)
    requires !Run(Initial(capacity), actions).closed
    ensures var s := Run(Initial(capacity), actions);
            var (s1, r1) := DoSend(s, t, v, parks);
            var (s2, r2) := DoReceive(s, t, parks);
            && (r1.Done? <==> |s.sent| < |s.arrived| + capacity)
            && (r2.Done? <==> |s.arrived| < |s.sent|)
            && s1.sent == (if r1.Done? || parks then s.sent + [v] else s.sent)
            && s2.arrived == (if r2.Done? || parks then s.arrived + [t] else s.arrived)
  {
    var s := Run(Initial(capacity), actions);
    RunKeeps(Initial(capacity), actions);
    CapacityStays(Initial(capacity), actions);
    Lengths(s.delivered);
    Lengths(s.senders);
  }

  lemma {:induction false} CapacityStays(s: State, actions: seq<Action>)
    ensures Run(s, actions).capacity == s.capacity
    decreases |actions|
  {
    if actions != [] {
      CapacityStays(Do(s, actions[0]), actions[1..]);
    }
  }

  function Receives(tasks: seq<Task>): seq<Action>
  {
    if tasks == [] then [] else [Receive(tasks[0], true)] + Receives(tasks[1..])
  }

  /** After a close the buffered values are still delivered, in order, one to each
      receive that comes, and then every receive ends with the channel closed. */
  lemma {:induction false} ClosedDrains(s: State, tasks: seq<Task>)
    requires Inv(s) && s.closed
    ensures var n := if |tasks| < |s.buffer| then |tasks| else |s.buffer|;
            var s' := Run(s, Receives(tasks));
            && Values(s'.delivered) == Values(s.delivered) + s.buffer[..n]
            && Tasks(s'.delivered) == Tasks(s.delivered) + tasks[..n]
            && s'.buffer == s.buffer[n..] && s'.closed && s'.receivers == []
    decreases |tasks|
  {
    if s.buffer == [] {
      ClosedEmptyStays(s, tasks);
    } else if tasks != [] {
      var n := if |tasks| < |s.buffer| then |tasks| else |s.buffer|;
      StepKeeps(s, Receive(tasks[0], true));
      DrainStep(s, tasks[0]);
      FirstReceive(s, tasks);
      ClosedDrains(Do(s, Receive(tasks[0], true)), tasks[1..]);
      Regain(Values(s.delivered), s.buffer, n);
      Regain(Tasks(s.delivered), tasks, n);
    } else {
      NoReceives(s);
    }
  }

  lemma FirstReceive(s: State, tasks: seq<Task>)
    requires tasks != []
    ensures Run(s, Receives(tasks)) == Run(Do(s, Receive(tasks[0], true)), Receives(tasks[1..]))
  {
    assert Receives(tasks)[1..] == Receives(tasks[1..]);
  }

  lemma NoReceives(s: State)
    ensures Run(s, Receives([])) == s
  {
  }

  lemma Regain<T>(front: seq<T>, list: seq<T>, n: nat)
    requires 0 < n <= |list|
    ensures (front + [list[0]]) + list[1..][..n - 1] == front + list[..n] && list[1..][n - 1..] == list[n..]
  {
  }

  /** Once a closed channel is empty, receives change nothing. */
  lemma {:induction false} ClosedEmptyStays(s: State, tasks: seq<Task>)
    requires Inv(s) && s.closed && s.buffer == []
    ensures Run(s, Receives(tasks)) == s
    decreases |tasks|
  {
    if tasks != [] {
      DrainStep(s, tasks[0]);
      FirstReceive(s, tasks);
      ClosedEmptyStays(s, tasks[1..]);
    }
  }

  /** One receive on a closed channel. */
  lemma DrainStep(s: State, t: Task)
    requires Inv(s) && s.closed
    ensures var s' := Do(s, Receive(t, true));
            && s'.closed && (s.buffer == [] ==> s' == s)
            && (s.buffer != [] ==>
                  && s'.buffer == s.buffer[1..]
                  && Values(s'.delivered) == Values(s.delivered) + [s.buffer[0]]
                  && Tasks(s'.delivered) == Tasks(s.delivered) + [t])
  {
    if s.buffer != [] {
      Snoc(s.delivered, Parcel(t, s.buffer[0]));
    }
  }

  // --------------------------------------------------------------------- ring

  /** The next slot of the ring. */
  function Next(i: nat, size: nat): (r: nat)
    requires i < size
    ensures r < size
  {
    if i + 1 == size then 0 else i + 1
  }

  /** The slot n places after i. */
  function Slot(i: nat, n: nat, size: nat): (r: nat)
    requires i < size && n <= size
    ensures r < size
  {
    if i + n < size then i + n else i + n - size
  }

  lemma SlotIsModulo(i: nat, n: nat, size: nat)
    requires i < size && n <= size
    ensures (i + n) % size == Slot(i, n, size)
  {
    if i + n < size {
      Remainder(i + n, size, 0);
    } else {
      Remainder(i + n, size, 1);
    }
  }

  lemma Remainder(x: nat, size: nat, q: nat)
    requires size * q <= x < size * q + size
    ensures x % size == x - size * q
  {
    var d: int := x / size - q;
    assert x == size * (x / size) + x % size;
    assert size * (x / size) == size * q + size * d;
    assert (d >= 1 ==> size * d >= size) && (d <= -1 ==> size * d + size <= 0);
  }

  /** The values in the ring, oldest first. */
  function Ring(slots: seq<Value>, head: nat, length: nat): (r: seq<Value>)
    requires length <= |slots| && (length > 0 ==> head < |slots|)
    ensures |r| == length
    decreases length
  {
    if length == 0 then [] else [slots[head]] + Ring(slots, Next(head, |slots|), length - 1)
  }

  lemma {:induction false} RingPush(slots: seq<Value>, head: nat, length: nat, v: Value)
    requires length < |slots| && head < |slots|
    ensures Ring(slots[Slot(head, length, |slots|) := v], head, length + 1) == Ring(slots, head, length) + [v]
    decreases length
  {
    var tail := Slot(head, length, |slots|);
    if length > 0 {
      RingPush(slots, Next(head, |slots|), length - 1, v);
    }
  }

  // ------------------------------------------------------------------- object

  class Chan {
    const buffer: array<Value>
    var head: nat
    var length: nat
    var closed: bool
    var senders: seq<Parcel>
    var receivers: seq<Task>
    ghost var sent: seq<Value>
    ghost var arrived: seq<Task>
    ghost var delivered: seq<Parcel>
    ghost var discarded: seq<Value>
    ghost var turnedAway: seq<Task>

    ghost predicate RingOk()
      reads this
    {
      length <= buffer.Length && (buffer.Length > 0 ==> head < buffer.Length)
    }

    ghost predicate Valid()
      reads this, buffer
    {
      RingOk() && Inv(View())
    }

    ghost function View(): State
      requires RingOk()
      reads this, buffer
    {
      State(buffer.Length, Ring(buffer[..], head, length), senders, receivers, closed,
            sent, arrived, delivered, discarded, turnedAway)
    }

    constructor (capacity: nat)
      ensures Valid() && View() == Initial(capacity)
    {
      buffer := new Value[capacity];
      head, length, closed, senders, receivers := 0, 0, false, [], [];
      sent, arrived, delivered, discarded, turnedAway := [], [], [], [], [];
    }

    method BufferPush(v: Value)
      requires length < buffer.Length && head < buffer.Length
      modifies buffer, `length
      ensures length == old(length) + 1
      ensures Ring(buffer[..], head, length) == old(Ring(buffer[..], head, length)) + [v]
    {
      SlotIsModulo(head, length, buffer.Length);
      RingPush(buffer[..], head, length, v);
      var tail := (head + length) % buffer.Length;
      buffer[tail] := v;
      length := length + 1;
    }

    method BufferPop() returns (v: Value)
      requires 0 < length <= buffer.Length && head < buffer.Length
      modifies `head, `length
      ensures head < buffer.Length && length == old(length) - 1
      ensures [v] + Ring(buffer[..], head, length) == old(Ring(buffer[..], head, length))
    {
      v := buffer[head];
      SlotIsModulo(head, 1, buffer.Length);
      head := (head + 1) % buffer.Length;
      length := length - 1;
    }

    method Offer(t: Task, v: Value, parks: bool) returns (r: Result, woken: Option<Task>)
      requires RingOk()
      modifies this, buffer
      ensures RingOk() && (View(), r) == DoSend(old(View()), t, v, parks)
      ensures woken == if old(receivers) != [] && !old(closed) then Some(old(receivers)[0]) else None
    {
      woken := None;
      if closed {
        return Closed, None;
      }
      if receivers != [] {
        woken := Some(receivers[0]);
        delivered, sent := delivered + [Parcel(receivers[0], v)], sent + [v];
        receivers := receivers[1..];
        return Done, woken;
      }
      if length < buffer.Length {
        BufferPush(v);
        sent := sent + [v];
        return Done, None;
      }
      if !parks {
        return Refused, None;
      }
      senders, sent := senders + [Parcel(t, v)], sent + [v];
      r := Parked;
    }

    /** Hands the value to the oldest parked receiver, or buffers it, or parks. */
    method SendValue(t: Task, v: Value, parks: bool) returns (r: Result, woken: Option<Task>)
      requires Valid()
      modifies this, buffer
      ensures Valid() && (View(), r) == DoSend(old(View()), t, v, parks)
      ensures woken == if old(receivers) != [] then Some(old(receivers)[0]) else None
    {
      SendKeeps(View(), t, v, parks);
      r, woken := Offer(t, v, parks);
    }

    method TakeBuffered(t: Task) returns (v: Value, woken: Option<Task>)
      requires Valid() && length != 0
      modifies this, buffer
      ensures length <= buffer.Length && head < buffer.Length && View() == DoReceive(old(View()), t, false).0
      ensures delivered == old(delivered) + [Parcel(t, v)]
      ensures woken == if old(senders) != [] then Some(old(senders)[0].task) else None
    {
      woken := None;
      v := BufferPop();
      delivered, arrived := delivered + [Parcel(t, v)], arrived + [t];
      if senders != [] {
        woken := Some(senders[0].task);
        BufferPush(senders[0].value);
        senders := senders[1..];
      }
    }

    /** Takes the oldest buffered value, letting the oldest parked sender refill
        the ring; with an empty ring, takes from the sender itself; else parks. */
    method ReceiveValue(t: Task, parks: bool) returns (r: Result, value: Option<Value>, woken: Option<Task>)
      requires Valid()
      modifies this, buffer
      ensures Valid() && (View(), r) == DoReceive(old(View()), t, parks)
      ensures value.Some? <==> r.Done?
      ensures r.Done? ==> delivered == old(delivered) + [Parcel(t, value.value)]
      ensures woken == if old(senders) != [] then Some(old(senders)[0].task) else None
    {
      ReceiveKeeps(View(), t, parks);
      value, woken := None, None;
      if length != 0 {
        var v, w := TakeBuffered(t);
        return Done, Some(v), w;
      }
      if senders != [] {
        var sender := senders[0];
        senders := senders[1..];
        delivered, arrived := delivered + [Parcel(t, sender.value)], arrived + [t];
        return Done, Some(sender.value), Some(sender.task);
      }
      if closed {
        return Closed, None, None;
      }
      if !parks {
        return Refused, None, None;
      }
      receivers, arrived := receivers + [t], arrived + [t];
      r := Parked;
    }

    /** Wakes every parked task with the news, oldest first, senders before
        receivers, and keeps the buffered values. */
    method CloseChannel() returns (r: Result, woken: seq<Task>)
      requires Valid()
      modifies this
      ensures Valid() && (View(), r) == DoClose(old(View()))
      ensures woken == if old(closed) then [] else Tasks(old(senders)) + old(receivers)
    {
      if closed {
        return Closed, [];
      }
      ghost var goal := DoClose(View()).0;
      CloseKeeps(View());
      closed, discarded, turnedAway := true, Values(senders), receivers;
      var first := WakeSenders(senders);
      var second := WakeReceivers(receivers);
      senders, receivers := [], [];
      assert View() == goal;
      r, woken := Done, first + second;
    }
  }

  method WakeSenders(parked: seq<Parcel>) returns (woken: seq<Task>)
    ensures woken == Tasks(parked)
  {
    var queue := parked;
    woken := [];
    while queue != []
      invariant woken + Tasks(queue) == Tasks(parked)
      decreases |queue|
    {
      woken := woken + [queue[0].task];
      queue := queue[1..];
    }
  }

  method WakeReceivers(parked: seq<Task>) returns (woken: seq<Task>)
    ensures woken == parked
  {
    var queue := parked;
    woken := [];
    while queue != []
      invariant woken + queue == parked
      decreases |queue|
    {
      woken := woken + [queue[0]];
      queue := queue[1..];
    }
  }
}
