/** What holds of io_uring operations in every run. */
module UringTheorems {
  import opened Paths
  import opened Sockets
  import opened Uring
  import opened UringInvariant
  import opened UringSteps

  predicate ByOwnerThread(a: Step)
  {
    || a.ClaimFor? || a.Enqueue? || a.GiveBack? || a.CancelRequest? || a.Poll? || a.Deliver? || a.Stop?
    || a.DropCommands? || a.DropActive? || a.DropCompleted? || a.DropDone?
  }

  lemma OwnerKeeps(s: State, a: Step)
    requires Inv(s) && ByOwnerThread(a)
    ensures Inv(Next(s, a))
  {
    match a {
      case ClaimFor(r) => ClaimForKeeps(s, r);
      case Enqueue(p, memory, wrote) => EnqueueKeeps(s, p, memory, wrote);
      case GiveBack => GiveBackKeeps(s);
      case CancelRequest(id, memory) => CancelKeeps(s, id, memory);
      case Poll => PollKeeps(s);
      case Deliver(shut) => DeliverKeeps(s, shut);
      case Stop => StopKeeps(s);
      case DropCommands => DropCommandsKeeps(s);
      case DropActive => DropActiveKeeps(s);
      case DropCompleted => DropCompletedKeeps(s);
      case DropDone => DropDoneKeeps(s);
    }
  }

  lemma OtherKeeps(s: State, a: Step)
    requires Inv(s) && !ByOwnerThread(a)
    ensures Inv(Next(s, a))
  {
    match a {
      case Detach => DetachKeeps(s);
      case RunCommand(ok) => RunCommandKeeps(s, ok);
      case EndCommands(ok) => EndCommandsKeeps(s, ok);
      case TakeCqe(p, result, memory) => TakeCqeKeeps(s, p, result, memory);
      case ReleaseClaim => ReleaseClaimKeeps(s);
      case Resolve(ok) => ResolveKeeps(s, ok);
      case OtherCqe(ok) => OtherCqeKeeps(s, ok);
      case OtherTrack(fd, memory) => OtherTrackKeeps(s, fd, memory);
      case OtherClose(fd, shut) => CloseFdKeeps(s, fd, shut);
      case OtherClaim(fd, generation) => OtherClaimKeeps(s, fd, generation);
      case OtherRelease(fd) => OtherReleaseKeeps(s, fd);
    }
  }

  /** Every step of every thread keeps the invariant. */
  lemma StepKeeps(s: State, a: Step)
    requires Inv(s)
    ensures Inv(Next(s, a))
  {
    if ByOwnerThread(a) {
      OwnerKeeps(s, a);
    } else {
      OtherKeeps(s, a);
    }
  }

  // -------------------------------------------------------------------- claims

  predicate Claims(owner: Owner)
  {
    (owner.Claimed? || owner.Refused?) && OnSocket(owner.request)
  }

  predicate HoldsSlot(reg: Registry, holder: map<int, Holder>, r: Request, who: Holder)
  {
    && r.fd in holder && holder[r.fd] == who && r.generation != 0
    && r.fd in reg && reg[r.fd].pending == r.generation
  }

  /** The claim is given back once: before the operation is resolved, or when the
      handle is torn down. */
  predicate OpClaimOk(op: Op, p: OpId, reg: Registry, holder: map<int, Holder>, worker: Worker)
  {
    if !OnSocket(op.request) then op.releases == 0
    else
      && op.releases <= 1
      && (op.releases == 0 ==> HoldsSlot(reg, holder, op.request, ByOp(p)))
      && (op.releases == 1 <==> op.resolved || op.frees == 1 || (worker.Resolving? && worker.op == p))
  }

  predicate HolderOk(ops: map<OpId, Op>, reg: Registry, holder: map<int, Holder>, owner: Owner, fd: int)
    requires fd in holder
  {
    && fd in reg && reg[fd].pending != 0
    && match holder[fd]
       case ByOp(p) => p in ops && OnSocket(ops[p].request) && ops[p].request.fd == fd && ops[p].releases == 0
       case ByOwner => Claims(owner) && owner.request.fd == fd
       case ByOther => true
  }

  /** Every pending claim of the registry has one holder: the owner between claim
      and submission, one unresolved operation, or another handle. */
  ghost predicate ClaimsOk(ops: map<OpId, Op>, reg: Registry, holder: map<int, Holder>, owner: Owner, worker: Worker)
  {
    && (forall p {:trigger ops[p]} :: p in ops ==> OpClaimOk(ops[p], p, reg, holder, worker))
    && (forall fd {:trigger holder[fd]} :: fd in holder ==> HolderOk(ops, reg, holder, owner, fd))
    && (forall fd {:trigger reg[fd]} :: fd in reg && reg[fd].pending != 0 ==> fd in holder)
    && (Claims(owner) ==> HoldsSlot(reg, holder, owner.request, ByOwner))
    && (owner.Refused? ==> OnSocket(owner.request))
  }

  ghost predicate Claimed(s: State)
  {
    ClaimsOk(s.ops, s.reg, s.holder, s.owner, s.worker)
  }

  /** The write that wakes the worker succeeds. */
  predicate Wakes(a: Step)
  {
    a.Enqueue? ==> a.wrote
  }

  lemma NewClaim(s: State, r: Request)
    requires Claimed(s) && s.owner.Free? && OnSocket(r) && Claim(s.reg, r.fd, r.generation).1.Ok?
    ensures ClaimsOk(s.ops, Claim(s.reg, r.fd, r.generation).0, s.holder[r.fd := ByOwner], Owner.Claimed(r, false),
                     s.worker)
  {
    assert r.fd !in s.holder;
  }

  lemma ClaimForClaims(s: State, r: Request)
    requires Claimed(s)
    ensures Claimed(DoClaimFor(s, r))
  {
    if s.owner.Free? && OnSocket(r) && Claim(s.reg, r.fd, r.generation).1.Ok? {
      NewClaim(s, r);
    }
  }

  /** The owner's claim becomes the new operation's. */
  lemma SubmittedClaims(s: State, p: OpId, op: Op)
    requires Claimed(s) && s.owner.Claimed? && p !in s.ops && !InHand(s.worker, p)
    requires op == Op(s.owner.request, 0, false, false, false, 0, 0, s.owner.closed)
    ensures ClaimsOk(s.ops[p := op], s.reg,
                     if OnSocket(op.request) then s.holder[op.request.fd := ByOp(p)] else s.holder,
                     Free, s.worker)
  {
    if OnSocket(op.request) {
      assert HoldsSlot(s.reg, s.holder, op.request, ByOwner);
    }
  }

  lemma RefusedClaims(s: State)
    requires Claimed(s) && s.owner.Claimed?
    ensures Claimed(Refuse(s, s.owner.request))
  {
  }

  lemma EnqueueClaims(s: State, p: OpId, memory: bool)
    requires Claimed(s) && (InHand(s.worker, p) ==> p in s.ops)
    ensures Claimed(DoEnqueue(s, p, memory, true))
  {
    if s.owner.Claimed? && p !in s.ops {
      var s' := DoEnqueue(s, p, memory, true);
      if !memory || s.failed || Find(s.ops, s.active, s.owner.request.id) < |s.active| {
        RefusedClaims(s);
        assert s'.owner == Refuse(s, s.owner.request).owner;
        assert s'.ops == s.ops && s'.reg == s.reg && s'.holder == s.holder && s'.worker == s.worker;
      } else {
        SubmittedClaims(s, p, s'.ops[p]);
      }
    } else {
      assert DoEnqueue(s, p, memory, true) == s;
    }
  }

  lemma GiveBackClaims(s: State)
    requires Inv(s) && Claimed(s)
    ensures Claimed(DoGiveBack(s))
  {
  }

  lemma CancelClaims(s: State, id: nat, memory: bool)
    requires Inv(s) && Claimed(s)
    ensures Claimed(DoCancel(s, id, memory))
  {
    var k := Find(s.ops, s.active, id);
    if s.owner.Free? && memory && k < |s.active| && !s.ops[s.active[k]].cancelPending {
      CancelPendingClaims(s, s.active[k]);
    } else {
      var s' := DoCancel(s, id, memory);
      assert s'.ops == s.ops && s'.reg == s.reg && s'.holder == s.holder;
      assert s'.owner == s.owner && s'.worker == s.worker;
    }
  }

  lemma CancelPendingClaims(s: State, p: OpId)
    requires Claimed(s) && p in s.ops
    ensures ClaimsOk(s.ops[p := s.ops[p].(cancelPending := true)], s.reg, s.holder, s.owner, s.worker)
  {
  }

  lemma PollClaims(s: State)
    requires Inv(s) && Claimed(s)
    ensures Claimed(DoPoll(s))
  {
  }

  lemma CloseFdClaims(s: State, fd: int, shut: bool)
    requires Claimed(s)
    ensures Claimed(CloseFd(s, fd, shut))
  {
  }

  lemma DeliverClaims(s: State, shut: bool)
    requires Inv(s) && Claimed(s)
    ensures Claimed(DoDeliver(s, shut))
  {
    if s.owner.Polled? {
      CloseFdClaims(s, s.owner.result, shut);
      assert MarkOwner(s.owner, s.owner.result) == s.owner;
    }
  }

  lemma DroppedClaims(s: State, p: OpId)
    requires Claimed(s) && Valid(s.reg) && p in s.ops && s.ops[p].frees == 0 && !s.ops[p].resolved
    requires s.worker.Exited? && OnSocket(s.ops[p].request)
    ensures var op := s.ops[p];
            ClaimsOk(s.ops[p := FreeOp(op.(releases := op.releases + 1))],
                     Release(s.reg, op.request.fd, op.request.generation), s.holder - {op.request.fd},
                     s.owner, s.worker)
  {
    var op := s.ops[p];
    assert HoldsSlot(s.reg, s.holder, op.request, ByOp(p));
    var ops := s.ops[p := FreeOp(op.(releases := op.releases + 1))];
    var reg := Release(s.reg, op.request.fd, op.request.generation);
    assert reg == s.reg[op.request.fd := s.reg[op.request.fd].(pending := 0)];
    assert ClaimsOk(ops, reg, s.holder - {op.request.fd}, s.owner, s.worker);
  }

  lemma TimeoutDroppedClaims(s: State, p: OpId)
    requires Claimed(s) && p in s.ops && !OnSocket(s.ops[p].request)
    ensures ClaimsOk(s.ops[p := FreeOp(s.ops[p])], s.reg, s.holder, s.owner, s.worker)
  {
  }

  lemma DropActiveClaims(s: State)
    requires Inv(s) && Claimed(s)
    ensures Claimed(DoDropActive(s))
  {
    if Tearing(s) && s.commands == [] && s.active != [] && s.active[0] in s.ops {
      var p := s.active[0];
      assert OpOk(s.ops[p], p, s.active, s.completed, TearingDown(s.owner, s.worker));
      if OnSocket(s.ops[p].request) {
        DroppedClaims(s, p);
      } else {
        TimeoutDroppedClaims(s, p);
      }
    } else {
      assert DoDropActive(s) == s;
    }
  }

  lemma DropCompletedClaims(s: State)
    requires Inv(s) && Claimed(s)
    ensures Claimed(DoDropCompleted(s))
  {
  }

  lemma CancelRunClaims(s: State, p: OpId, op: Op, worker: Worker)
    requires Claimed(s) && p in s.ops && op == s.ops[p].(cancelPending := false, frees := op.frees)
    requires (s.ops[p].resolved || op.frees == s.ops[p].frees) && s.worker.Processing? && worker.Processing?
    ensures ClaimsOk(s.ops[p := op], s.reg, s.holder, s.owner, worker)
  {
  }

  lemma RunCommandClaims(s: State, ok: bool)
    requires Inv(s) && Claimed(s)
    ensures Claimed(DoRunCommand(s, ok))
  {
    if s.worker.Processing? && s.worker.batch != [] {
      NextCommand(s);
      if s.worker.batch[0].Cancel? {
        var p := s.worker.batch[0].op;
        CancelOpIs(s, ok);
        CancelRunIs(s, ok);
        CancelRunClaims(s, p, DoRunCommand(s, ok).ops[p], DoRunCommand(s, ok).worker);
      }
    }
  }

  lemma TrackClaims(s: State, fd: int, memory: bool)
    requires Claimed(s)
    ensures Claimed(s.(reg := Track(s.reg, fd, memory).0))
  {
  }

  lemma TakeCqeClaims(s: State, p: OpId, result: int, memory: bool)
    requires Claimed(s) && (p in s.kernel ==> Alive(s.ops, p))
    ensures Claimed(DoTakeCqe(s, p, result, memory))
  {
    if s.worker.Waiting? && p in s.kernel {
      TrackClaims(s, result, memory);
      TakeCqeIs(s, p, result, memory);
      var s' := DoTakeCqe(s, p, result, memory);
      assert s'.reg == s.reg || s'.reg == Track(s.reg, result, memory).0;
    }
  }

  lemma BackClaims(s: State, p: OpId, result: int)
    requires Claimed(s) && Valid(s.reg) && s.worker.Releasing? && s.worker.op == p
    requires p in s.ops && OnSocket(s.ops[p].request) && !s.ops[p].resolved && s.ops[p].frees == 0
    ensures var s' := Back(s, p);
            ClaimsOk(s'.ops, s'.reg, s'.holder, s'.owner, Resolving(p, result))
  {
    assert OpClaimOk(s.ops[p], p, s.reg, s.holder, s.worker);
  }

  lemma TimeoutBackClaims(s: State, p: OpId, result: int)
    requires Claimed(s) && s.worker.Releasing? && s.worker.op == p
    requires p in s.ops && !OnSocket(s.ops[p].request)
    ensures ClaimsOk(s.ops, s.reg, s.holder, s.owner, Resolving(p, result))
  {
  }

  lemma HandFacts(s: State)
    requires Inv(s) && (s.worker.Releasing? || s.worker.Resolving?)
    ensures Alive(s.ops, s.worker.op) && !s.ops[s.worker.op].resolved && Valid(s.reg)
  {
    assert InHand(s.worker, s.worker.op);
  }

  lemma HandedOnClaims(s: State)
    requires Claimed(s) && s.worker.Releasing? && Valid(s.reg)
    requires Alive(s.ops, s.worker.op) && !s.ops[s.worker.op].resolved
    ensures Claimed(DoReleaseClaim(s))
  {
    ReleaseClaimIs(s);
    if OnSocket(s.ops[s.worker.op].request) {
      BackClaims(s, s.worker.op, s.worker.result);
    } else {
      TimeoutBackClaims(s, s.worker.op, s.worker.result);
    }
  }

  lemma ReleaseClaimClaims(s: State)
    requires Inv(s) && Claimed(s)
    ensures Claimed(DoReleaseClaim(s))
  {
    if s.worker.Releasing? {
      HandFacts(s);
      HandedOnClaims(s);
    }
  }

  lemma ResolvedClaims(s: State, p: OpId, op: Op, worker: Worker)
    requires Claimed(s) && p in s.ops && s.worker == Resolving(p, op.result)
    requires op == s.ops[p].(resolved := true, result := op.result) && (worker.Waiting? || worker.Exited?)
    ensures ClaimsOk(s.ops[p := op], s.reg, s.holder, s.owner, worker)
  {
  }

  lemma ResolveClaims(s: State, ok: bool)
    requires Inv(s) && Claimed(s)
    ensures Claimed(DoResolve(s, ok))
  {
    if s.worker.Resolving? {
      HandFacts(s);
      var p, s' := s.worker.op, DoResolve(s, ok);
      var op := s.ops[p].(resolved := true, result := s.worker.result);
      assert s'.ops == s.ops[p := op] && s'.reg == s.reg && s'.holder == s.holder && s'.owner == s.owner;
      ResolvedClaims(s, p, op, s'.worker);
    } else {
      assert DoResolve(s, ok) == s;
    }
  }

  lemma OtherClaimClaims(s: State, fd: int, generation: nat)
    requires Claimed(s)
    ensures Claimed(DoOtherClaim(s, fd, generation))
  {
  }

  lemma OtherReleaseClaims(s: State, fd: int)
    requires Claimed(s) && Valid(s.reg)
    ensures Claimed(DoOtherRelease(s, fd))
  {
  }

  /** As long as the wake-up writes succeed, every step keeps the claims. */
  lemma StepClaims(s: State, a: Step)
    requires Inv(s) && Claimed(s) && Wakes(a)
    ensures Claimed(Next(s, a))
  {
    match a {
      case ClaimFor(r) => ClaimForClaims(s, r);
      case Enqueue(p, memory, wrote) => EnqueueClaims(s, p, memory);
      case GiveBack => GiveBackClaims(s);
      case CancelRequest(id, memory) => CancelClaims(s, id, memory);
      case Poll => PollClaims(s);
      case Deliver(shut) => DeliverClaims(s, shut);
      case DropActive => DropActiveClaims(s);
      case DropCompleted => DropCompletedClaims(s);
      case RunCommand(ok) => RunCommandClaims(s, ok);
      case TakeCqe(p, result, memory) => TakeCqeClaims(s, p, result, memory);
      case ReleaseClaim => ReleaseClaimClaims(s);
      case Resolve(ok) => ResolveClaims(s, ok);
      case OtherTrack(fd, memory) => TrackClaims(s, fd, memory);
      case OtherClose(fd, shut) => CloseFdClaims(s, fd, shut);
      case OtherClaim(fd, generation) => OtherClaimClaims(s, fd, generation);
      case OtherRelease(fd) => OtherReleaseClaims(s, fd);
      case _ => QuietClaims(s, a);
    }
  }

  /** Only the threads themselves have moved. */
  predicate ThreadsMoved(s: State, s': State)
  {
    && s'.ops == s.ops && s'.reg == s.reg && s'.holder == s.holder
    && (s'.owner == s.owner || ((s.owner.Free? || s.owner.Stopping?) && (s'.owner.Stopping? || s'.owner.Gone?)))
    && (s'.worker == s.worker || (!s.worker.Resolving? && !s'.worker.Resolving?))
  }

  lemma OwnerFrame(s: State, a: Step)
    requires a.Stop? || a.DropCommands? || a.DropDone?
    ensures ThreadsMoved(s, Next(s, a))
  {
  }

  lemma DetachFrame(s: State)
    ensures ThreadsMoved(s, DoDetach(s))
  {
  }

  lemma EndCommandsFrame(s: State, ok: bool)
    ensures ThreadsMoved(s, DoEndCommands(s, ok))
  {
    if s.worker.Processing? && s.worker.batch == [] {
      if s.worker.failing || s.stopRequested || !ok {
        assert DoEndCommands(s, ok) == Exit(s, !s.worker.failing && !s.stopRequested);
      } else {
        assert DoEndCommands(s, ok) == s.(worker := Waiting);
      }
    } else {
      assert DoEndCommands(s, ok) == s;
    }
  }

  lemma OtherCqeFrame(s: State, ok: bool)
    ensures ThreadsMoved(s, DoOtherCqe(s, ok))
  {
  }

  lemma WorkerFrame(s: State, a: Step)
    requires a.Detach? || a.EndCommands? || a.OtherCqe?
    ensures ThreadsMoved(s, Next(s, a))
  {
    match a {
      case Detach => DetachFrame(s);
      case EndCommands(ok) => EndCommandsFrame(s, ok);
      case OtherCqe(ok) => OtherCqeFrame(s, ok);
    }
  }

  lemma ThreadsClaims(s: State, s': State)
    requires Claimed(s) && ThreadsMoved(s, s')
    ensures Claimed(s')
  {
  }

  lemma QuietClaims(s: State, a: Step)
    requires Claimed(s)
    requires a.Stop? || a.DropCommands? || a.DropDone? || a.Detach? || a.EndCommands? || a.OtherCqe?
    ensures Claimed(Next(s, a))
  {
    if ByOwnerThread(a) {
      OwnerFrame(s, a);
    } else {
      WorkerFrame(s, a);
    }
    ThreadsClaims(s, Next(s, a));
  }

  // ---------------------------------------------------------------------- runs

  ghost predicate Reaches(s: State, steps: seq<Step>, last: State)
  {
    Path(Next, s, steps, last)
  }

  ghost predicate Reachable(s: State)
  {
    exists steps :: Reaches(Initial(), steps, s)
  }

  /** s is reached by a run in which every wake-up write succeeded. */
  ghost predicate ReachableAwake(s: State)
  {
    exists steps :: Reaches(Initial(), steps, s) && forall a :: a in steps ==> Wakes(a)
  }

  lemma {:induction false} RunKeeps(s: State, steps: seq<Step>, last: State)
    requires Inv(s) && Reaches(s, steps, last)
    ensures Inv(last)
    ensures Claimed(s) && (forall a :: a in steps ==> Wakes(a)) ==> Claimed(last)
    decreases |steps|
  {
    if steps != [] {
      StepKeeps(s, steps[0]);
      if Claimed(s) && forall a :: a in steps ==> Wakes(a) {
        assert steps[0] in steps;
        StepClaims(s, steps[0]);
      }
      RunKeeps(Next(s, steps[0]), steps[1..], last);
    }
  }

  lemma InitialStages()
    ensures var s := Initial();
            && CommandsOk(s.ops, Pending(s), false) && StagesOk(s.ops, Pending(s), s.kernel, s.worker, false)
            && LateCancelsOk(s.ops, s.commands, s.worker, false)
  {
    assert Pending(Initial()) == [];
  }

  lemma InitialInv()
    ensures Inv(Initial())
  {
    InitialStages();
  }

  lemma InitialKeeps()
    ensures Inv(Initial()) && Claimed(Initial())
  {
    InitialInv();
  }

  lemma ReachableInv(s: State)
    requires Reachable(s)
    ensures Inv(s)
  {
    InitialKeeps();
    var steps :| Reaches(Initial(), steps, s);
    RunKeeps(Initial(), steps, s);
  }

  lemma ReachableClaims(s: State)
    requires ReachableAwake(s)
    ensures Inv(s) && Claimed(s)
  {
    InitialKeeps();
    var steps :| Reaches(Initial(), steps, s) && forall a :: a in steps ==> Wakes(a);
    RunKeeps(Initial(), steps, s);
  }

  // ------------------------------------------------------------------ theorems

  /** In every run freed memory is never used and no operation is freed twice. */
  lemma MemoryIsSafe(s: State)
    requires Reachable(s)
    ensures !s.misuse
    ensures forall p :: p in s.ops ==> s.ops[p].frees <= 1
    ensures forall p :: p in s.active || p in s.completed || p in s.kernel || InHand(s.worker, p) ==> Alive(s.ops, p)
    ensures !TearingDown(s.owner, s.worker) ==> forall c :: c in Pending(s) ==> Alive(s.ops, c.op)
  {
    ReachableInv(s);
    forall c | c in Pending(s) && !TearingDown(s.owner, s.worker)
      ensures Alive(s.ops, c.op)
    {
      PendingAlive(s, c);
    }
    forall p | p in s.kernel || InHand(s.worker, p)
      ensures Alive(s.ops, p)
    {
      StageAlive(s, p);
    }
  }

  lemma StageAlive(s: State, p: OpId)
    requires Inv(s) && (p in s.kernel || InHand(s.worker, p))
    ensures Alive(s.ops, p)
  {
  }

  lemma PendingAlive(s: State, c: Command)
    requires Inv(s) && c in Pending(s) && !TearingDown(s.owner, s.worker)
    ensures Alive(s.ops, c.op)
  {
    assert c == Submit(c.op) || c == Cancel(c.op);
  }

  /** The number of places an unresolved operation is in. */
  function Stages(s: State, p: OpId): nat
  {
    (if Submit(p) in Pending(s) then 1 else 0)
    + (if p in s.kernel then 1 else 0)
    + (if InHand(s.worker, p) then 1 else 0)
    + (if p in s.completed then 1 else 0)
    + (if s.owner.Polled? && s.owner.op == p then 1 else 0)
    + (if exists d :: d in s.delivered && d.op == p then 1 else 0)
  }

  /** Exactly-once completion: at every moment an accepted operation is waiting
      as a command, or with the kernel, or in the worker's hand, or published and
      not polled, or being delivered, or delivered: in one of these only, and,
      until the worker fails or the handle is stopped, in one of them. Whatever
      was delivered was delivered once. */
  lemma ExactlyOneCompletion(s: State, p: OpId)
    requires Reachable(s) && p in s.ops
    ensures Stages(s, p) <= 1
    ensures !s.failed && !s.worker.Exited? ==> Stages(s, p) == 1
    ensures forall i, j :: 0 <= i < j < |s.delivered| ==> s.delivered[i].op != s.delivered[j].op
  {
    ReachableInv(s);
    StageCount(s, p);
  }

  lemma StageCount(s: State, p: OpId)
    requires Inv(s) && p in s.ops
    ensures Stages(s, p) <= 1
    ensures !s.failed && !s.worker.Exited? ==> Stages(s, p) == 1
  {
    var gone := exists d :: d in s.delivered && d.op == p;
    if s.ops[p].consumed {
      assert gone <==> !(s.owner.Polled? && s.owner.op == p);
    } else {
      assert !gone && !(s.owner.Polled? && s.owner.op == p);
    }
  }

  /** A completion is delivered as stale only when the descriptor was closed after the
      request had claimed it; otherwise the published result is delivered. */
  lemma DeliveredIsPublished(s: State, d: Delivery)
    requires Reachable(s) && d in s.delivered
    ensures d.op in s.ops && s.ops[d.op].resolved && s.ops[d.op].consumed
    ensures d.result == if d.closed then -ESTALE else s.ops[d.op].result
    ensures d.closed ==> s.ops[d.op].closed && OnSocket(s.ops[d.op].request)
  {
    ReachableInv(s);
  }

  /** At the moment of delivery the stale result is used if and only if the
      descriptor was closed since the claim. */
  lemma StaleIffClosed(s: State, shut: bool)
    requires Reachable(s) && s.owner.Polled?
    ensures s.owner.op in s.ops
    ensures RequestIsStale(s.reg, s.owner.request) <==> s.ops[s.owner.op].closed
    ensures var s' := DoDeliver(s, shut);
            && s'.delivered != []
            && var d := s'.delivered[|s.delivered|];
               d.op == s.owner.op && d.result == if s.ops[s.owner.op].closed then -ESTALE else s.owner.result
  {
    ReachableInv(s);
    StaleIsClosed(s);
  }

  /** In a run whose wake-up writes succeed, each claim is given back exactly once
      and by its own operation, and at any time a descriptor has at most one
      unreleased operation, over all handles. */
  lemma ClaimsAreExact(s: State, p: OpId)
    requires ReachableAwake(s) && p in s.ops && OnSocket(s.ops[p].request)
    ensures s.ops[p].releases <= 1
    ensures s.ops[p].resolved || s.ops[p].frees == 1 ==> s.ops[p].releases == 1
    ensures s.ops[p].releases == 0 ==>
              && s.ops[p].request.fd in s.reg
              && s.reg[s.ops[p].request.fd].pending == s.ops[p].request.generation
              && !Claimable(s.reg, s.ops[p].request.fd, s.ops[p].request.generation)
    ensures s.ops[p].releases == 0 ==>
              forall q :: q in s.ops && q != p && OnSocket(s.ops[q].request) && s.ops[q].releases == 0 ==>
                s.ops[q].request.fd != s.ops[p].request.fd
  {
    ReachableClaims(s);
  }

  lemma GoneIsEmpty(s: State)
    requires Inv(s) && s.owner.Gone?
    ensures forall p :: p in s.ops && s.ops[p].frees == 0 ==> s.ops[p].consumed && s.ops[p].cancelPending
  {
  }

  /** What is left when the handle is gone: every operation was freed, except one
      that was polled while its cancel command was never carried out, and that
      happens only to a worker that failed; with wake-up writes that succeed, no
      claim of this handle is left. */
  lemma AfterTeardown(s: State, p: OpId)
    requires Reachable(s) && s.owner.Gone? && p in s.ops
    ensures s.ops[p].frees == 1 <==> !(s.ops[p].consumed && s.ops[p].cancelPending)
    ensures s.ops[p].consumed && s.ops[p].cancelPending ==> s.failed
    ensures ReachableAwake(s) && OnSocket(s.ops[p].request) ==> s.ops[p].releases == 1
  {
    ReachableInv(s);
    GoneIsEmpty(s);
    if ReachableAwake(s) {
      ReachableClaims(s);
    }
  }

  // ------------------------------------------------------- a write that fails

  /** When the wake-up write fails for an operation that was accepted, the claim
      is given back while the operation is still in flight, and the descriptor
      can be claimed again. */
  lemma FailedWriteReleasesEarly(s: State, p: OpId)
    requires Inv(s) && Claimed(s) && s.owner.Claimed? && OnSocket(s.owner.request) && p !in s.ops
    requires !s.failed && Find(s.ops, s.active, s.owner.request.id) == |s.active|
    ensures var r := s.owner.request;
            var s' := DoGiveBack(DoEnqueue(s, p, true, false));
            && p in s'.ops && p in s'.active && Submit(p) in s'.commands
            && s'.ops[p].releases == 0 && r.fd in s'.reg && s'.reg[r.fd].pending == 0
            && !Claimed(s')
            && (!s.owner.closed ==> Claim(s'.reg, r.fd, r.generation).1.Ok?)
  {
    var s1 := DoEnqueue(s, p, true, false);
    var s' := DoGiveBack(s1);
    assert s'.ops == s1.ops && p in s'.ops && s'.ops[p].releases == 0;
    assert !OpClaimOk(s'.ops[p], p, s'.reg, s'.holder, s'.worker);
  }

  /** The enqueue accepts the operation and then fails to wake the worker. */
  predicate WriteFails(s: State, memory: bool, wrote: bool)
  {
    && s.owner.Claimed? && OnSocket(s.owner.request) && !wrote
    && memory && !s.failed && Find(s.ops, s.active, s.owner.request.id) == |s.active|
  }

  lemma KeptUnlessWriteFails(s: State, p: OpId, memory: bool, wrote: bool)
    requires Inv(s) && Claimed(s) && p !in s.ops && !WriteFails(s, memory, wrote)
    ensures Claimed(DoEnqueue(s, p, memory, wrote))
  {
    EnqueueClaims(s, p, memory);
    assert DoEnqueue(s, p, memory, wrote) == DoEnqueue(s, p, memory, true);
  }

  /** Exactly the failed write breaks the claims: whatever else goes wrong with an
      enqueue, its claim is then with the operation or given back, never both. */
  lemma ClaimsNeedTheWrite(s: State, p: OpId, memory: bool, wrote: bool)
    requires Inv(s) && Claimed(s) && s.owner.Claimed? && p !in s.ops
    ensures Claimed(DoGiveBack(DoEnqueue(s, p, memory, wrote))) <==> !WriteFails(s, memory, wrote)
  {
    if WriteFails(s, memory, wrote) {
      FailedWriteReleasesEarly(s, p);
    } else {
      KeptUnlessWriteFails(s, p, memory, wrote);
      StepKeeps(s, Enqueue(p, memory, wrote));
      GiveBackClaims(DoEnqueue(s, p, memory, wrote));
    }
  }

  /** So without working wake-up writes, two operations can be in flight on one
      descriptor. */
  lemma TwoInFlight()
    ensures var r, q := Request(0, Recv, 3, 1), Request(1, Recv, 3, 1);
            var steps := [OtherTrack(3, true), ClaimFor(r), Enqueue(7, true, false), GiveBack,
                          ClaimFor(q), Enqueue(8, true, true)];
            exists s :: Reaches(Initial(), steps, s) && InFlightOn(s, 7, 3) && InFlightOn(s, 8, 3)
  {
    var r, q := Request(0, Recv, 3, 1), Request(1, Recv, 3, 1);
    FirstInFlight(r);
    SecondInFlight(r, q);
    ReachesSix(Initial(), OtherTrack(3, true), ClaimFor(r), Enqueue(7, true, false), GiveBack,
               ClaimFor(q), Enqueue(8, true, true));
  }

  /** Descriptor 3 is open and free again, with an operation for r in flight on it. */
  function OneInFlight(r: Request): State
  {
    Initial().(reg := map[3 := Slot(1, 0, true)], ops := map[7 := Op(r, 0, false, false, false, 0, 0, false)],
               active := [7], commands := [Submit(7)])
  }

  lemma FirstInFlight(r: Request)
    requires r == Request(0, Recv, 3, 1)
    ensures Next(Next(Next(Next(Initial(), OtherTrack(3, true)), ClaimFor(r)), Enqueue(7, true, false)), GiveBack)
         == OneInFlight(r)
  {
    var s1 := Initial().(reg := map[3 := Slot(1, 0, true)]);
    assert Next(Initial(), OtherTrack(3, true)) == s1;
    var s2 := s1.(reg := map[3 := Slot(1, 1, true)], owner := Owner.Claimed(r, false), holder := map[3 := ByOwner]);
    assert Next(s1, ClaimFor(r)) == s2;
    var s3 := OneInFlight(r).(reg := map[3 := Slot(1, 1, true)], holder := map[3 := ByOp(7)], owner := Refused(r));
    assert [7] + [] == [7] && [] + [Submit(7)] == [Submit(7)];
    assert Next(s2, Enqueue(7, true, false)) == s3;
    assert map[3 := ByOp(7)] - {3} == map[]
           && map[3 := Slot(1, 1, true)][3 := Slot(1, 0, true)] == map[3 := Slot(1, 0, true)];
  }

  lemma SecondInFlight(r: Request, q: Request)
    requires r == Request(0, Recv, 3, 1) && q == Request(1, Recv, 3, 1)
    ensures var s := Next(Next(OneInFlight(r), ClaimFor(q)), Enqueue(8, true, true));
            InFlightOn(s, 7, 3) && InFlightOn(s, 8, 3)
  {
    var s1 := OneInFlight(r).(reg := map[3 := Slot(1, 1, true)], owner := Owner.Claimed(q, false),
                                 holder := map[3 := ByOwner]);
    assert Next(OneInFlight(r), ClaimFor(q)) == s1;
    assert Find(s1.ops, [7], 1) == 1;
    assert [8] + [7] == [8, 7];
  }

  predicate InFlightOn(s: State, p: OpId, fd: int)
  {
    p in s.active && p in s.ops && !s.ops[p].resolved && s.ops[p].request.fd == fd && s.ops[p].releases == 0
  }

  lemma ReachesSix(s: State, a: Step, b: Step, c: Step, d: Step, e: Step, f: Step)
    ensures Reaches(s, [a, b, c, d, e, f], Next(Next(Next(Next(Next(Next(s, a), b), c), d), e), f))
  {
    var mid := Next(Next(Next(Next(s, a), b), c), d);
    PathFour(Next, s, a, b, c, d);
    PathTwo(Next, mid, e, f);
    PathThen(Next, s, [a, b, c, d], mid, [e, f], Next(Next(mid, e), f));
    assert [a, b, c, d] + [e, f] == [a, b, c, d, e, f];
  }
}
