/** The life of an io_uring operation, from submission to the completion its
    caller polls.

    Three parties interleave: the owner thread that submits, cancels, polls and
    stops; the worker thread that feeds the ring; and everyone else who tracks,
    closes and claims descriptors.  One action is one critical section of the
    handle's mutex or of the descriptor registry.  The kernel answers every
    prepared operation once, when and how it likes; its answers to cancel
    requests are ignored. */
module Uring {
  import opened Common
  import opened Sockets

  type OpId = nat

  datatype Kind = Accept | Recv | Send | Connect | Timeout

  /** generation is the one the submission read, or the caller's own. */
  datatype Request = Request(id: nat, kind: Kind, fd: int, generation: nat)

  datatype Op = Op(
    request: Request,
    result: int,
    resolved: bool,
    consumed: bool,
    cancelPending: bool,
    frees: nat,          // history: how often its memory was freed
    releases: nat,       // history: how often its claim was given back
    closed: bool)        // history: its descriptor was closed since

  datatype Command = Submit(op: OpId) | Cancel(op: OpId)

  datatype Owner =
    | Free
    | Claimed(request: Request, closed: bool)         // about to queue an operation
    | Refused(request: Request)                       // about to give the claim back
    | Polled(op: OpId, request: Request, result: int) // took a completion
    | Stopping
    | Gone

  datatype Worker =
    | Waiting
    | Processing(batch: seq<Command>, failing: bool)
    | Releasing(op: OpId, result: int)
    | Resolving(op: OpId, result: int)
    | Exited

  datatype Holder = ByOwner | ByOp(op: OpId) | ByOther

  /** The kernel's answer; tracked tells whether an accepted connection was tracked. */
  datatype Answer = Answer(result: int, tracked: bool)

  datatype Delivery = Delivery(op: OpId, result: int, closed: bool)

  datatype State = State(
    reg: Registry,
    ops: map<OpId, Op>,
    commands: seq<Command>,
    active: seq<OpId>,
    completed: seq<OpId>,
    kernel: set<OpId>,
    worker: Worker,
    owner: Owner,
    failed: bool,                  // the worker's status is an error
    stopRequested: bool,
    holder: map<int, Holder>,      // history: who has the claim on a descriptor
    delivered: seq<Delivery>,      // history: what was handed to the caller
    misuse: bool,                  // history: freed memory was used
    answers: map<OpId, Answer>)    // history: what the kernel answered

  datatype Step =
    | ClaimFor(request: Request)
    | Enqueue(op: OpId, memory: bool, wrote: bool)
    | GiveBack
    | CancelRequest(id: nat, memory: bool)
    | Poll
    | Deliver(shut: bool)
    | Stop
    | DropCommands
    | DropActive
    | DropCompleted
    | DropDone
    | Detach
    | RunCommand(ok: bool)
    | EndCommands(ok: bool)
    | TakeCqe(op: OpId, result: int, memory: bool)
    | ReleaseClaim
    | Resolve(ok: bool)
    | OtherCqe(ok: bool)
    | OtherTrack(fd: int, memory: bool)
    | OtherClose(fd: int, shut: bool)
    | OtherClaim(fd: int, generation: nat)
    | OtherRelease(fd: int)

  const EMFILE := 24
  const ESTALE := 116

  function Initial(): State
  {
    State(map[], map[], [], [], [], {}, Waiting, Free, false, false, map[], [], false, map[])
  }

  predicate OnSocket(r: Request)
  {
    !r.kind.Timeout?
  }

  predicate Alive(ops: map<OpId, Op>, p: OpId)
  {
    p in ops && ops[p].frees == 0
  }

  /** Reading or writing an operation's memory. */
  function Use(s: State, p: OpId): State
  {
    s.(misuse := s.misuse || !Alive(s.ops, p))
  }

  /** Walking the list of active operations. */
  function UseActive(s: State): State
  {
    s.(misuse := s.misuse || !forall p :: p in s.active ==> Alive(s.ops, p))
  }

  function FreeOp(op: Op): Op
  {
    op.(frees := op.frees + 1)
  }

  /** The first active operation of a request. */
  function Find(ops: map<OpId, Op>, active: seq<OpId>, id: nat): (k: nat)
    ensures k <= |active|
    ensures k < |active| ==> active[k] in ops && ops[active[k]].request.id == id
    ensures forall i :: 0 <= i < k ==> active[i] !in ops || ops[active[i]].request.id != id
    decreases |active|
  {
    if active == [] || (active[0] in ops && ops[active[0]].request.id == id) then 0
    else 1 + Find(ops, active[1..], id)
  }

  /** Marks every operation on the descriptor as overtaken by a close. */
  function MarkClosed(ops: map<OpId, Op>, fd: int): map<OpId, Op>
  {
    map p | p in ops ::
      if OnSocket(ops[p].request) && ops[p].request.fd == fd then ops[p].(closed := true) else ops[p]
  }

  function MarkOwner(owner: Owner, fd: int): Owner
  {
    if owner.Claimed? && OnSocket(owner.request) && owner.request.fd == fd then owner.(closed := true) else owner
  }

  function CloseFd(s: State, fd: int, shut: bool): State
  {
    var (reg, status) := Close(s.reg, fd, shut);
    if status.Ok? then s.(reg := reg, ops := MarkClosed(s.ops, fd), owner := MarkOwner(s.owner, fd)) else s
  }

  // ---------------------------------------------------------------- the owner

  function DoClaimFor(s: State, r: Request): State
  {
    if !s.owner.Free? then s
    else if !OnSocket(r) then s.(owner := Claimed(r.(generation := 0), false))
    else
      var (reg, status) := Claim(s.reg, r.fd, r.generation);
      if !status.Ok? then s
      else s.(reg := reg, owner := Claimed(r, false), holder := s.holder[r.fd := ByOwner])
  }

  function Refuse(s: State, r: Request): State
  {
    s.(owner := if OnSocket(r) then Refused(r) else Free)
  }

  function DoEnqueue(s: State, p: OpId, memory: bool, wrote: bool): State
  {
    if !s.owner.Claimed? || p in s.ops then s
    else
      var r := s.owner.request;
      if !memory then Refuse(s, r)
      else if s.failed || Find(s.ops, s.active, r.id) < |s.active| then Refuse(UseActive(s), r)
      else
        var s1 := UseActive(s).(ops := s.ops[p := Op(r, 0, false, false, false, 0, 0, s.owner.closed)],
                     active := [p] + s.active,
                     commands := s.commands + [Submit(p)],
                     holder := if OnSocket(r) then s.holder[r.fd := ByOp(p)] else s.holder,
                     owner := Free);
        if wrote then s1 else Refuse(s1, r)
  }

  function DoGiveBack(s: State): State
  {
    if !s.owner.Refused? then s
    else
      var r := s.owner.request;
      s.(reg := Release(s.reg, r.fd, r.generation), holder := s.holder - {r.fd}, owner := Free)
  }

  function DoCancel(s: State, id: nat, memory: bool): State
  {
    var k := Find(s.ops, s.active, id);
    if !s.owner.Free? || !memory || k == |s.active| then s
    else
      var p := s.active[k];
      var s1 := UseActive(s);
      if s.ops[p].cancelPending then s1
      else s1.(ops := s.ops[p := s.ops[p].(cancelPending := true)], commands := s.commands + [Cancel(p)])
  }

  function DoPoll(s: State): State
  {
    if !s.owner.Free? || s.completed == [] || s.completed[0] !in s.ops then s
    else
      var p := s.completed[0];
      var op := s.ops[p].(consumed := true);
      Use(s, p).(completed := s.completed[1..],
                 ops := s.ops[p := if op.cancelPending then op else FreeOp(op)],
                 owner := Polled(p, op.request, op.result))
  }

  predicate RequestIsStale(reg: Registry, r: Request)
  {
    OnSocket(r) && Stale(reg, r.fd, r.generation)
  }

  function DoDeliver(s: State, shut: bool): State
  {
    if !s.owner.Polled? then s
    else
      var r, p, result := s.owner.request, s.owner.op, s.owner.result;
      var stale := RequestIsStale(s.reg, r);
      var s1 := if stale && r.kind.Accept? && result >= 0 then CloseFd(s, result, shut) else s;
      s1.(owner := Free,
          delivered := s.delivered + [Delivery(p, if stale then -ESTALE else result, p in s.ops && s.ops[p].closed)])
  }

  function DoStop(s: State): State
  {
    if s.owner.Free? then s.(owner := Stopping, stopRequested := true) else s
  }

  /** The owner has joined the worker thread and frees what is left. */
  predicate Tearing(s: State)
  {
    s.owner.Stopping? && s.worker.Exited?
  }

  function DoDropCommands(s: State): State
  {
    if Tearing(s) then s.(commands := []) else s
  }

  function DoDropActive(s: State): State
  {
    if !Tearing(s) || s.commands != [] || s.active == [] || s.active[0] !in s.ops then s
    else
      var p := s.active[0];
      var op := s.ops[p];
      var r := op.request;
      var s1 := Use(s, p).(active := s.active[1..]);
      if !OnSocket(r) then s1.(ops := s.ops[p := FreeOp(op)])
      else
        s1.(ops := s.ops[p := FreeOp(op.(releases := op.releases + 1))],
            reg := Release(s.reg, r.fd, r.generation),
            holder := s.holder - {r.fd})
  }

  function DoDropCompleted(s: State): State
  {
    if !Tearing(s) || s.commands != [] || s.active != [] || s.completed == [] || s.completed[0] !in s.ops then s
    else
      var p := s.completed[0];
      Use(s, p).(completed := s.completed[1..], ops := s.ops[p := FreeOp(s.ops[p])])
  }

  function DoDropDone(s: State): State
  {
    if Tearing(s) && s.commands == [] && s.active == [] && s.completed == [] then s.(owner := Gone) else s
  }

  // --------------------------------------------------------------- the worker

  function Exit(s: State, failed: bool): State
  {
    s.(worker := Exited, kernel := {}, failed := s.failed || failed)
  }

  function DoDetach(s: State): State
  {
    if s.worker.Waiting? then s.(worker := Processing(s.commands, false), commands := []) else s
  }

  function DoRunCommand(s: State, ok: bool): State
  {
    if !s.worker.Processing? || s.worker.batch == [] || s.worker.batch[0].op !in s.ops then s
    else
      var c, rest := s.worker.batch[0], s.worker.batch[1..];
      var op := s.ops[c.op];
      var good := ok || (c.Cancel? && op.resolved);
      var s1 := Use(s, c.op).(worker := Processing(rest, s.worker.failing || !good), failed := s.failed || !good);
      match c
      case Submit(p) => if ok then s1.(kernel := s.kernel + {p}) else s1
      case Cancel(p) =>
        var op1 := op.(cancelPending := false);
        s1.(ops := s.ops[p := if op.resolved && op.consumed then FreeOp(op1) else op1])
  }

  function DoEndCommands(s: State, ok: bool): State
  {
    if !s.worker.Processing? || s.worker.batch != [] then s
    else if s.worker.failing || s.stopRequested then Exit(s, false)
    else if !ok then Exit(s, true)
    else s.(worker := Waiting)
  }

  /** An accepted connection is tracked, or shut when it cannot be. */
  function DoTakeCqe(s: State, p: OpId, result: int, memory: bool): State
  {
    if !s.worker.Waiting? || p !in s.kernel || p !in s.ops then s
    else
      var s1 := Use(s, p).(kernel := s.kernel - {p});
      if s.ops[p].request.kind.Accept? && result >= 0 then
        var (reg, status) := Track(s.reg, result, memory);
        s1.(reg := reg, worker := Releasing(p, if status.Ok? then result else -EMFILE),
            answers := s.answers[p := Answer(result, status.Ok?)])
      else s1.(worker := Releasing(p, result), answers := s.answers[p := Answer(result, true)])
  }

  function DoReleaseClaim(s: State): State
  {
    if !s.worker.Releasing? || s.worker.op !in s.ops then s
    else
      var p := s.worker.op;
      var r := s.ops[p].request;
      var s1 := Use(s, p).(worker := Resolving(p, s.worker.result));
      if !OnSocket(r) then s1
      else
        s1.(reg := Release(s.reg, r.fd, r.generation),
            holder := s.holder - {r.fd},
            ops := s.ops[p := s.ops[p].(releases := s.ops[p].releases + 1)])
  }

  function DoResolve(s: State, ok: bool): State
  {
    if !s.worker.Resolving? || s.worker.op !in s.ops then s
    else
      var p := s.worker.op;
      var s1 := UseActive(Use(s, p));
      var s2 :=
        if s.ops[p].resolved then s1
        else
          s1.(ops := s.ops[p := s.ops[p].(resolved := true, result := s.worker.result)],
              active := Without(s.active, p),
              completed := s.completed + [p]);
      if ok then s2.(worker := Waiting) else Exit(s2, true)
  }

  function DoOtherCqe(s: State, ok: bool): State
  {
    if s.worker.Waiting? && !ok then Exit(s, true) else s
  }

  // --------------------------------------------------------------- the others

  function DoOtherClaim(s: State, fd: int, generation: nat): State
  {
    var (reg, status) := Claim(s.reg, fd, generation);
    if status.Ok? then s.(reg := reg, holder := s.holder[fd := ByOther]) else s
  }

  /** Other handles give back only the claims they have. */
  function DoOtherRelease(s: State, fd: int): State
  {
    if fd in s.holder && s.holder[fd].ByOther? && fd in s.reg
    then s.(reg := Release(s.reg, fd, s.reg[fd].pending), holder := s.holder - {fd})
    else s
  }

  function Next(s: State, a: Step): State
  {
    match a
    case ClaimFor(r) => DoClaimFor(s, r)
    case Enqueue(p, memory, wrote) => DoEnqueue(s, p, memory, wrote)
    case GiveBack => DoGiveBack(s)
    case CancelRequest(id, memory) => DoCancel(s, id, memory)
    case Poll => DoPoll(s)
    case Deliver(shut) => DoDeliver(s, shut)
    case Stop => DoStop(s)
    case DropCommands => DoDropCommands(s)
    case DropActive => DoDropActive(s)
    case DropCompleted => DoDropCompleted(s)
    case DropDone => DoDropDone(s)
    case Detach => DoDetach(s)
    case RunCommand(ok) => DoRunCommand(s, ok)
    case EndCommands(ok) => DoEndCommands(s, ok)
    case TakeCqe(p, result, memory) => DoTakeCqe(s, p, result, memory)
    case ReleaseClaim => DoReleaseClaim(s)
    case Resolve(ok) => DoResolve(s, ok)
    case OtherCqe(ok) => DoOtherCqe(s, ok)
    case OtherTrack(fd, memory) => s.(reg := Track(s.reg, fd, memory).0)
    case OtherClose(fd, shut) => CloseFd(s, fd, shut)
    case OtherClaim(fd, generation) => DoOtherClaim(s, fd, generation)
    case OtherRelease(fd) => DoOtherRelease(s, fd)
  }
}
