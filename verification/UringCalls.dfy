/** What the owner's calls do: which submissions are accepted, which operation a cancel
    is sent for, and in which order completions are polled. */
module UringCalls {
  import opened Sockets
  import opened Uring
  import opened UringInvariant
  import opened UringSteps
  import opened UringTheorems

  // ------------------------------------------------------------------- one call

  /** An operation the cancel of a request is meant for. */
  predicate Target(s: State, id: nat, p: OpId)
  {
    p in s.active && p in s.ops && s.ops[p].request.id == id && !s.ops[p].cancelPending
  }

  /** The cancel of operation p has been queued, and nothing else happened. */
  function CancelSent(s: State, p: OpId): State
    requires p in s.ops
  {
    s.(ops := s.ops[p := s.ops[p].(cancelPending := true)], commands := s.commands + [Cancel(p)])
  }

  lemma TargetIsFound(s: State, id: nat, p: OpId)
    requires RequestsDistinct(s.ops, s.active) && p in s.active && p in s.ops && s.ops[p].request.id == id
    ensures var k := Find(s.ops, s.active, id);
            k < |s.active| && s.active[k] == p
  {
  }

  /** In every reachable state a cancel is sent for the one operation of that request
      that is active and has no cancel under way; without such an operation, without
      memory, or while the owner is busy the call does nothing. */
  lemma CancelHits(s: State, id: nat, memory: bool)
    requires Reachable(s)
    ensures forall p, q :: Target(s, id, p) && Target(s, id, q) ==> p == q
    ensures forall p :: s.owner.Free? && memory && Target(s, id, p) ==>
              Next(s, CancelRequest(id, memory)) == CancelSent(s, p)
    ensures !s.owner.Free? || !memory || (forall p :: !Target(s, id, p)) ==> Next(s, CancelRequest(id, memory)) == s
  {
    ReachableInv(s);
    ActiveAlive(s);
    var k := Find(s.ops, s.active, id);
    if k < |s.active| && !s.ops[s.active[k]].cancelPending {
      assert Target(s, id, s.active[k]);
    }
    forall p | Target(s, id, p)
      ensures k < |s.active| && s.active[k] == p
    {
      TargetIsFound(s, id, p);
    }
  }

  /** An operation of the request is active. */
  ghost predicate InUse(s: State, id: nat)
  {
    exists p :: p in s.active && p in s.ops && s.ops[p].request.id == id
  }

  /** In every reachable state a submission is accepted exactly when there is memory, the
      worker has not failed and no operation of the request is active; the operation then
      carries the caller's request, and its command is the newest. */
  lemma SubmitAccepted(s: State, p: OpId, memory: bool, wrote: bool)
    requires Reachable(s) && s.owner.Claimed? && p !in s.ops
    ensures var s', r := Next(s, Enqueue(p, memory, wrote)), s.owner.request;
            if memory && !s.failed && !InUse(s, r.id)
            then && s'.ops == s.ops[p := Op(r, 0, false, false, false, 0, 0, s.owner.closed)]
                 && s'.active == [p] + s.active && s'.commands == s.commands + [Submit(p)]
                 && s'.kernel == s.kernel && s'.completed == s.completed && s'.worker == s.worker
            else s' == Refuse(s, r)
  {
    ReachableInv(s);
    ActiveAlive(s);
    var k := Find(s.ops, s.active, s.owner.request.id);
    if k < |s.active| {
      assert s.active[k] in s.active;
    }
  }

  // --------------------------------------------------------------------- frames

  predicate SameRequests(ops: map<OpId, Op>, ops': map<OpId, Op>)
  {
    forall p :: p in ops ==> p in ops' && ops'[p].request == ops[p].request
  }

  ghost predicate NoNewCancel(s: State, s': State)
  {
    forall p :: Cancel(p) in Pending(s') ==> Cancel(p) in Pending(s)
  }

  /** The operations delivered, the one polled and those waiting to be polled, in order. */
  function Line(s: State): seq<OpId>
  {
    seq(|s.delivered|, i requires 0 <= i < |s.delivered| => s.delivered[i].op)
    + (if s.owner.Polled? then [s.owner.op] else []) + s.completed
  }

  ghost predicate Calm(s: State, s': State)
  {
    SameRequests(s.ops, s'.ops) && NoNewCancel(s, s') && Line(s) <= Line(s')
  }

  lemma SameLine(s: State, s': State)
    requires s'.delivered == s.delivered && s'.completed == s.completed
    requires s'.owner == s.owner || (!s.owner.Polled? && !s'.owner.Polled?)
    ensures Line(s') == Line(s)
  {
  }

  /** Only the registry and the threads have moved. */
  lemma Untouched(s: State, s': State)
    requires s'.ops == s.ops && s'.delivered == s.delivered && s'.completed == s.completed
    requires s'.owner == s.owner || (!s.owner.Polled? && !s'.owner.Polled?)
    requires s'.commands == s.commands && Batch(s'.worker) == Batch(s.worker)
    ensures Calm(s, s')
  {
    SameLine(s, s');
  }

  lemma ClaimCalm(s: State, r: Request)
    ensures Calm(s, DoClaimFor(s, r))
  {
    var s' := DoClaimFor(s, r);
    assert s' == s.(reg := s'.reg, owner := s'.owner, holder := s'.holder);
    assert s'.owner == s.owner || (s.owner.Free? && s'.owner.Claimed?);
    Untouched(s, s');
  }

  lemma GiveBackCalm(s: State)
    ensures Calm(s, DoGiveBack(s))
  {
    Untouched(s, DoGiveBack(s));
  }

  predicate OneOp(ops: map<OpId, Op>, ops': map<OpId, Op>, p: OpId)
  {
    ops' == ops || (p in ops' && ops' == ops[p := ops'[p]] && (p in ops ==> ops'[p].request == ops[p].request))
  }

  /** At most operation p, its submission and its completion are new. */
  lemma OneCalm(s: State, s': State, p: OpId)
    requires OneOp(s.ops, s'.ops, p) && s'.delivered == s.delivered && Batch(s'.worker) == Batch(s.worker)
    requires s'.owner == s.owner || (!s.owner.Polled? && !s'.owner.Polled?)
    requires s'.commands == s.commands || s'.commands == s.commands + [Submit(p)]
    requires s'.completed == s.completed || s'.completed == s.completed + [p]
    ensures Calm(s, s')
  {
    assert Line(s') == Line(s) + s'.completed[|s.completed|..];
  }

  lemma EnqueueCalm(s: State, p: OpId, memory: bool, wrote: bool)
    ensures Calm(s, DoEnqueue(s, p, memory, wrote))
  {
    OneCalm(s, DoEnqueue(s, p, memory, wrote), p);
  }

  lemma PollCalm(s: State)
    ensures Calm(s, DoPoll(s))
  {
    var s' := DoPoll(s);
    if s' != s {
      assert s.completed == [s.completed[0]] + s.completed[1..];
      assert Line(s') == Line(s);
    }
  }

  lemma DeliverCalm(s: State, shut: bool)
    ensures Calm(s, DoDeliver(s, shut))
  {
    var s' := DoDeliver(s, shut);
    if s.owner.Polled? {
      assert s'.completed == s.completed && |s'.delivered| == |s.delivered| + 1;
      assert Line(s') == Line(s);
    }
  }

  lemma StopCalm(s: State)
    ensures Calm(s, DoStop(s))
  {
    Untouched(s, DoStop(s));
  }

  lemma DropDoneCalm(s: State)
    ensures Calm(s, DoDropDone(s))
  {
    Untouched(s, DoDropDone(s));
  }

  lemma DropCommandsCalm(s: State)
    ensures Calm(s, DoDropCommands(s))
  {
    SameLine(s, DoDropCommands(s));
  }

  lemma DropActiveCalm(s: State)
    ensures Calm(s, DoDropActive(s))
  {
    OneCalm(s, DoDropActive(s), if s.active == [] then 0 else s.active[0]);
  }

  lemma DetachCalm(s: State)
    ensures Calm(s, DoDetach(s))
  {
    SameLine(s, DoDetach(s));
  }

  lemma EndCommandsCalm(s: State, ok: bool)
    ensures Calm(s, DoEndCommands(s, ok))
  {
    EndCommandsFrame(s, ok);
    Untouched(s, DoEndCommands(s, ok));
  }

  lemma OtherCqeCalm(s: State, ok: bool)
    ensures Calm(s, DoOtherCqe(s, ok))
  {
    OtherCqeFrame(s, ok);
    Untouched(s, DoOtherCqe(s, ok));
  }

  lemma OneDone(s: State, s': State)
    requires s.worker.Processing? && s.worker.batch != [] && s'.commands == s.commands
    requires Batch(s'.worker) == s.worker.batch[1..]
    ensures NoNewCancel(s, s')
  {
  }

  lemma RunCommandCalm(s: State, ok: bool)
    ensures Calm(s, DoRunCommand(s, ok))
  {
    var s' := DoRunCommand(s, ok);
    if s.worker.Processing? && s.worker.batch != [] && s.worker.batch[0].op in s.ops {
      var p := s.worker.batch[0].op;
      SameLine(s, s');
      OneDone(s, s');
      assert s'.ops == s.ops || s'.ops == s.ops[p := s'.ops[p]];
    } else {
      assert s' == s;
    }
  }

  lemma TakeCalm(s: State, p: OpId, result: int, memory: bool)
    ensures Calm(s, DoTakeCqe(s, p, result, memory))
  {
    Untouched(s, DoTakeCqe(s, p, result, memory));
  }

  lemma ReleaseCalm(s: State)
    ensures Calm(s, DoReleaseClaim(s))
  {
    OneCalm(s, DoReleaseClaim(s), if s.worker.Releasing? then s.worker.op else 0);
  }

  lemma ResolveCalm(s: State, ok: bool)
    ensures Calm(s, DoResolve(s, ok))
  {
    if s.worker.Resolving? && s.worker.op in s.ops {
      ResolveIs(s, ok);
      OneCalm(s, DoResolve(s, ok), s.worker.op);
    } else {
      assert DoResolve(s, ok) == s;
    }
  }

  lemma ResolveIs(s: State, ok: bool)
    requires s.worker.Resolving? && s.worker.op in s.ops
    ensures var s', p := DoResolve(s, ok), s.worker.op;
            && s'.delivered == s.delivered && s'.owner == s.owner && s'.commands == s.commands
            && (s'.worker.Waiting? || s'.worker.Exited?)
            && if s.ops[p].resolved then s'.ops == s.ops && s'.completed == s.completed
               else && s'.ops == s.ops[p := s.ops[p].(resolved := true, result := s.worker.result)]
                    && s'.completed == s.completed + [p]
  {
    if s.ops[s.worker.op].resolved {
      assert DoResolve(s, ok).ops == s.ops;
    }
  }

  lemma CloseCalm(s: State, fd: int, shut: bool)
    ensures Calm(s, CloseFd(s, fd, shut))
  {
    SameLine(s, CloseFd(s, fd, shut));
  }

  lemma OthersCalm(s: State, a: Step)
    requires a.OtherTrack? || a.OtherClaim? || a.OtherRelease?
    ensures Calm(s, Next(s, a))
  {
    SameLine(s, Next(s, a));
  }

  lemma StepCalm(s: State, a: Step)
    requires !a.CancelRequest? && !a.DropCompleted?
    ensures Calm(s, Next(s, a))
  {
    match a {
      case ClaimFor(r) => ClaimCalm(s, r);
      case Enqueue(p, memory, wrote) => EnqueueCalm(s, p, memory, wrote);
      case GiveBack => GiveBackCalm(s);
      case Poll => PollCalm(s);
      case Deliver(shut) => DeliverCalm(s, shut);
      case Stop => StopCalm(s);
      case DropCommands => DropCommandsCalm(s);
      case DropDone => DropDoneCalm(s);
      case DropActive => DropActiveCalm(s);
      case Detach => DetachCalm(s);
      case RunCommand(ok) => RunCommandCalm(s, ok);
      case EndCommands(ok) => EndCommandsCalm(s, ok);
      case TakeCqe(p, result, memory) => TakeCalm(s, p, result, memory);
      case ReleaseClaim => ReleaseCalm(s);
      case Resolve(ok) => ResolveCalm(s, ok);
      case OtherCqe(ok) => OtherCqeCalm(s, ok);
      case OtherClose(fd, shut) => CloseCalm(s, fd, shut);
      case OtherTrack(_, _) => OthersCalm(s, a);
      case OtherClaim(_, _) => OthersCalm(s, a);
      case OtherRelease(_) => OthersCalm(s, a);
    }
  }

  // ----------------------------------------------------------------- whole runs

  lemma AddsCancel(s: State, s': State, p: OpId)
    requires s'.delivered == s.delivered && s'.completed == s.completed && s'.owner == s.owner && s'.worker == s.worker
    requires || (s'.ops == s.ops && s'.commands == s.commands)
             || (p in s.ops && s'.ops == s.ops[p := s.ops[p].(cancelPending := true)]
                 && s'.commands == s.commands + [Cancel(p)])
    ensures SameRequests(s.ops, s'.ops) && Line(s') == Line(s)
    ensures forall q :: Cancel(q) in Pending(s') ==> Cancel(q) in Pending(s) || (q == p && s'.commands != s.commands)
  {
    SameLine(s, s');
  }

  lemma CancelStep(s: State, id: nat, memory: bool)
    ensures var s' := DoCancel(s, id, memory);
            && SameRequests(s.ops, s'.ops) && Line(s') == Line(s)
            && forall p :: Cancel(p) in Pending(s') ==>
                 Cancel(p) in Pending(s) || (memory && p in s.ops && s.ops[p].request.id == id)
  {
    var k := Find(s.ops, s.active, id);
    AddsCancel(s, DoCancel(s, id, memory), if k < |s.active| then s.active[k] else 0);
  }

  lemma DropStep(s: State)
    ensures var s' := DoDropCompleted(s);
            SameRequests(s.ops, s'.ops) && NoNewCancel(s, s')
  {
  }

  lemma {:induction false} RequestsStay(s: State, steps: seq<Step>, last: State)
    requires Reaches(s, steps, last)
    ensures SameRequests(s.ops, last.ops)
    decreases |steps|
  {
    if steps != [] {
      var a := steps[0];
      if a.CancelRequest? {
        CancelStep(s, a.id, a.memory);
      } else if a.DropCompleted? {
        DropStep(s);
      } else {
        StepCalm(s, a);
      }
      RequestsStay(Next(s, a), steps[1..], last);
    }
  }

  /** The caller asked for the request to be cancelled. */
  ghost predicate Asked(steps: seq<Step>, id: nat)
  {
    exists i :: 0 <= i < |steps| && steps[i] == CancelRequest(id, true)
  }

  lemma AskedLater(a: Step, steps: seq<Step>, id: nat)
    requires Asked(steps, id) || a == CancelRequest(id, true)
    ensures Asked([a] + steps, id)
  {
    if a == CancelRequest(id, true) {
      assert ([a] + steps)[0] == a;
    } else {
      var i :| 0 <= i < |steps| && steps[i] == CancelRequest(id, true);
      assert ([a] + steps)[i + 1] == CancelRequest(id, true);
    }
  }

  lemma CancelCameFrom(s: State, a: Step, p: OpId)
    requires Cancel(p) in Pending(Next(s, a))
    ensures Cancel(p) in Pending(s) || (a.CancelRequest? && a.memory && p in s.ops && s.ops[p].request.id == a.id)
  {
    if a.CancelRequest? {
      CancelStep(s, a.id, a.memory);
    } else if a.DropCompleted? {
      DropStep(s);
    } else {
      StepCalm(s, a);
    }
  }

  lemma {:induction false} CancelsAsked(s: State, steps: seq<Step>, last: State, p: OpId)
    requires Reaches(s, steps, last) && Cancel(p) in Pending(last) && p in last.ops
    ensures Cancel(p) in Pending(s) || Asked(steps, last.ops[p].request.id)
    decreases |steps|
  {
    if steps != [] && Cancel(p) !in Pending(s) {
      var id := last.ops[p].request.id;
      CancelsAsked(Next(s, steps[0]), steps[1..], last, p);
      if Cancel(p) in Pending(Next(s, steps[0])) {
        CancelCameFrom(s, steps[0], p);
        RequestsStay(s, steps, last);
      }
      AskedLater(steps[0], steps[1..], id);
      assert [steps[0]] + steps[1..] == steps;
    }
  }

  /** In every run a cancel command that is still to be carried out was asked for: the
      caller cancelled that operation's own request. */
  lemma CancelsAreAsked(steps: seq<Step>, s: State, p: OpId)
    requires Reaches(Initial(), steps, s) && Cancel(p) in Pending(s)
    ensures p in s.ops && Asked(steps, s.ops[p].request.id)
  {
    InitialInv();
    RunKeeps(Initial(), steps, s);
    CancelsAsked(Initial(), steps, s, p);
  }

  /** Until the handle is torn down completions are polled, and delivered, in the order in
      which they were published. */
  lemma {:induction false} PolledInOrder(s: State, steps: seq<Step>, last: State)
    requires Reaches(s, steps, last) && forall i :: 0 <= i < |steps| ==> !steps[i].DropCompleted?
    ensures Line(s) <= Line(last)
    decreases |steps|
  {
    if steps != [] {
      var a := steps[0];
      if a.CancelRequest? {
        CancelStep(s, a.id, a.memory);
      } else {
        StepCalm(s, a);
      }
      PolledInOrder(Next(s, a), steps[1..], last);
    }
  }

  // --------------------------------------------------------------------- the worker

  /** Commands are carried out in the order in which they were queued: a step adds one at the
      end, carries out the first, moves them on, or drops those left at teardown. */
  predicate InTurn(before: seq<Command>, after: seq<Command>, a: Step)
  {
    || after == before
    || (a.Enqueue? && after == before + [Submit(a.op)])
    || (a.CancelRequest? && |after| == |before| + 1 && after[..|before|] == before && after[|before|].Cancel?)
    || (a.RunCommand? && before != [] && after == before[1..])
    || (a.DropCommands? && after <= before)
  }

  lemma Appended(s: State, s': State, c: Command)
    requires s'.worker == s.worker && s'.commands == s.commands + [c]
    ensures Pending(s') == Pending(s) + [c]
  {
  }

  lemma EnqueueInTurn(s: State, p: OpId, memory: bool, wrote: bool)
    ensures InTurn(Pending(s), Pending(DoEnqueue(s, p, memory, wrote)), Enqueue(p, memory, wrote))
  {
    var s' := DoEnqueue(s, p, memory, wrote);
    if s'.commands == s.commands {
      SamePending(s, s');
    } else {
      Appended(s, s', Submit(p));
    }
  }

  lemma CancelInTurn(s: State, id: nat, memory: bool)
    ensures InTurn(Pending(s), Pending(DoCancel(s, id, memory)), CancelRequest(id, memory))
  {
    var s', k := DoCancel(s, id, memory), Find(s.ops, s.active, id);
    if s'.commands == s.commands {
      SamePending(s, s');
    } else {
      Appended(s, s', Cancel(s.active[k]));
    }
  }

  lemma FirstGone(batch: seq<Command>, commands: seq<Command>)
    requires batch != []
    ensures batch[1..] + commands == (batch + commands)[1..]
  {
  }

  lemma RunInTurn(s: State, ok: bool)
    ensures InTurn(Pending(s), Pending(DoRunCommand(s, ok)), RunCommand(ok))
  {
    var s' := DoRunCommand(s, ok);
    if s.worker.Processing? && s.worker.batch != [] && s.worker.batch[0].op in s.ops {
      assert s'.commands == s.commands && s'.worker.Processing? && s'.worker.batch == s.worker.batch[1..];
      FirstGone(s.worker.batch, s.commands);
    } else {
      assert s' == s;
    }
  }

  lemma SamePending(s: State, s': State)
    requires s'.commands == s.commands && Batch(s'.worker) == Batch(s.worker)
    ensures Pending(s') == Pending(s)
  {
  }

  lemma WorkerInTurn(s: State, a: Step)
    requires a.Detach? || a.EndCommands? || a.OtherCqe?
    ensures Pending(Next(s, a)) == Pending(s)
  {
    match a {
      case Detach =>
        assert Next(s, a) == DoDetach(s);
        if s.worker.Waiting? {
          assert s.commands + [] == [] + s.commands;
        }
      case EndCommands(ok) =>
        EndCommandsFrame(s, ok);
        SamePending(s, DoEndCommands(s, ok));
      case OtherCqe(ok) =>
        OtherCqeFrame(s, ok);
        SamePending(s, DoOtherCqe(s, ok));
    }
  }

  lemma KernelInTurn(s: State, a: Step)
    requires a.TakeCqe? || a.ReleaseClaim? || a.Resolve?
    ensures Pending(Next(s, a)) == Pending(s)
  {
    match a {
      case TakeCqe(p, result, memory) => SamePending(s, DoTakeCqe(s, p, result, memory));
      case ReleaseClaim => SamePending(s, DoReleaseClaim(s));
      case Resolve(ok) =>
        if s.worker.Resolving? && s.worker.op in s.ops {
          ResolveIs(s, ok);
          SamePending(s, DoResolve(s, ok));
        } else {
          assert DoResolve(s, ok) == s;
        }
    }
  }

  lemma DropInTurn(s: State)
    ensures Pending(DoDropCommands(s)) <= Pending(s)
  {
    var s' := DoDropCommands(s);
    assert Pending(s') == Batch(s.worker) + s'.commands;
  }

  lemma OwnerRests(s: State, a: Step)
    requires a.ClaimFor? || a.GiveBack? || a.Poll? || a.Deliver? || a.Stop?
    ensures Pending(Next(s, a)) == Pending(s)
  {
    match a {
      case ClaimFor(r) => SamePending(s, DoClaimFor(s, r));
      case GiveBack => SamePending(s, DoGiveBack(s));
      case Poll => SamePending(s, DoPoll(s));
      case Deliver(shut) => SamePending(s, DoDeliver(s, shut));
      case Stop => SamePending(s, DoStop(s));
    }
  }

  lemma DropsRest(s: State, a: Step)
    requires a.DropActive? || a.DropCompleted? || a.DropDone?
    ensures Pending(Next(s, a)) == Pending(s)
  {
    match a {
      case DropActive => SamePending(s, DoDropActive(s));
      case DropCompleted => SamePending(s, DoDropCompleted(s));
      case DropDone => SamePending(s, DoDropDone(s));
    }
  }

  lemma OthersRest(s: State, a: Step)
    requires a.OtherTrack? || a.OtherClose? || a.OtherClaim? || a.OtherRelease?
    ensures Pending(Next(s, a)) == Pending(s)
  {
    match a {
      case OtherTrack(_, _) => SamePending(s, Next(s, a));
      case OtherClose(fd, shut) => SamePending(s, CloseFd(s, fd, shut));
      case OtherClaim(fd, generation) => SamePending(s, DoOtherClaim(s, fd, generation));
      case OtherRelease(fd) => SamePending(s, DoOtherRelease(s, fd));
    }
  }

  lemma CommandsInTurn(s: State, a: Step)
    ensures InTurn(Pending(s), Pending(Next(s, a)), a)
  {
    match a {
      case Enqueue(p, memory, wrote) => EnqueueInTurn(s, p, memory, wrote);
      case CancelRequest(id, memory) => CancelInTurn(s, id, memory);
      case RunCommand(ok) => RunInTurn(s, ok);
      case Detach => WorkerInTurn(s, a);
      case EndCommands(_) => WorkerInTurn(s, a);
      case OtherCqe(_) => WorkerInTurn(s, a);
      case TakeCqe(_, _, _) => KernelInTurn(s, a);
      case ReleaseClaim => KernelInTurn(s, a);
      case Resolve(_) => KernelInTurn(s, a);
      case DropCommands => DropInTurn(s);
      case ClaimFor(_) => OwnerRests(s, a);
      case GiveBack => OwnerRests(s, a);
      case Poll => OwnerRests(s, a);
      case Deliver(_) => OwnerRests(s, a);
      case Stop => OwnerRests(s, a);
      case DropActive => DropsRest(s, a);
      case DropCompleted => DropsRest(s, a);
      case DropDone => DropsRest(s, a);
      case OtherTrack(_, _) => OthersRest(s, a);
      case OtherClose(_, _) => OthersRest(s, a);
      case OtherClaim(_, _) => OthersRest(s, a);
      case OtherRelease(_) => OthersRest(s, a);
    }
  }

  /** In every reachable state: the worker that takes an accepted connection tracks it, one
      generation on, or answers that it is one descriptor too many, and that exactly when
      the descriptor is open already, at its last generation, or new without memory. */
  lemma TakeTracks(s: State, p: OpId, fd: int, memory: bool)
    requires Reachable(s) && s.worker.Waiting? && p in s.kernel && p in s.ops
    requires s.ops[p].request.kind.Accept? && fd >= 0
    ensures var s', slot := Next(s, TakeCqe(p, fd, memory)), SlotOf(s.reg, fd);
            && s'.worker.Releasing? && s'.worker.op == p
            && if !slot.active && slot.generation != MAX_GENERATION && (fd in s.reg || memory)
               then && s'.worker.result == fd && fd in s'.reg
                    && s'.reg == s.reg[fd := slot.(generation := slot.generation + 1, active := true)]
               else && s'.worker.result == -EMFILE
                    && forall x :: SlotOf(s'.reg, x) == SlotOf(s.reg, x)
  {
  }
}
