/** What callers are told is what the kernel answered. */
module UringAnswers {
  import opened Uring
  import opened UringInvariant
  import opened UringTheorems

  /** The result of an answer: an accepted connection that cannot be tracked is shut and
      reported as one descriptor too many. */
  function Reported(r: Request, a: Answer): int
  {
    if r.kind.Accept? && a.result >= 0 && !a.tracked then -EMFILE else a.result
  }

  predicate Answered(r: Request, result: int, answers: map<OpId, Answer>, p: OpId)
  {
    p in answers && result == Reported(r, answers[p])
  }

  /** The operations with an answer are those in the worker's hand and the resolved ones,
      and both have the result of their answer. */
  ghost predicate AnswersOk(ops: map<OpId, Op>, worker: Worker, answers: map<OpId, Answer>)
  {
    && (forall p {:trigger ops[p]} :: p in ops && ops[p].resolved ==>
          Answered(ops[p].request, ops[p].result, answers, p))
    && (forall p {:trigger ops[p]} :: p in ops && InHand(worker, p) ==>
          Answered(ops[p].request, worker.result, answers, p))
    && (forall p {:trigger answers[p]} :: p in answers ==> p in ops && (ops[p].resolved || InHand(worker, p)))
  }

  ghost predicate Truthful(s: State)
  {
    AnswersOk(s.ops, s.worker, s.answers)
  }

  /** The worker holds the same operation, with the same result. */
  predicate SameHand(worker: Worker, worker': Worker)
  {
    if worker.Releasing? || worker.Resolving?
    then (worker'.Releasing? || worker'.Resolving?) && worker'.op == worker.op && worker'.result == worker.result
    else !worker'.Releasing? && !worker'.Resolving?
  }

  predicate SameResult(op: Op, op': Op)
  {
    op'.request == op.request && op'.result == op.result && op'.resolved == op.resolved
  }

  /** Every operation has the same result; a new one has none. */
  ghost predicate SameResults(ops: map<OpId, Op>, ops': map<OpId, Op>, worker: Worker)
  {
    && (forall p :: p in ops ==> p in ops')
    && (forall p {:trigger ops'[p]} :: p in ops' ==>
          if p in ops then SameResult(ops[p], ops'[p]) else !ops'[p].resolved && !InHand(worker, p))
  }

  lemma OneChanged(ops: map<OpId, Op>, p: OpId, op: Op, worker: Worker)
    requires if p in ops then SameResult(ops[p], op) else !op.resolved && !InHand(worker, p)
    ensures SameResults(ops, ops[p := op], worker)
  {
  }

  /** No operation has been answered, resolved or taken in hand. */
  ghost predicate NothingAnswered(s: State, s': State)
  {
    s'.answers == s.answers && SameHand(s.worker, s'.worker) && SameResults(s.ops, s'.ops, s.worker)
  }

  lemma NothingKeeps(s: State, s': State)
    requires Truthful(s) && NothingAnswered(s, s')
    ensures Truthful(s')
  {
  }

  lemma EnqueueAnswers(s: State, p: OpId, memory: bool, wrote: bool)
    requires InHand(s.worker, p) ==> p in s.ops
    ensures NothingAnswered(s, DoEnqueue(s, p, memory, wrote))
  {
    var s' := DoEnqueue(s, p, memory, wrote);
    if s.owner.Claimed? && p !in s.ops {
      var op := Op(s.owner.request, 0, false, false, false, 0, 0, s.owner.closed);
      OneChanged(s.ops, p, op, s.worker);
      assert s'.ops == s.ops || s'.ops == s.ops[p := op];
      assert s'.worker == s.worker && s'.answers == s.answers;
    } else {
      assert s' == s;
    }
  }

  lemma CancelAnswers(s: State, id: nat, memory: bool)
    ensures NothingAnswered(s, DoCancel(s, id, memory))
  {
  }

  lemma CloseAnswers(s: State, fd: int, shut: bool)
    ensures NothingAnswered(s, CloseFd(s, fd, shut))
  {
  }

  lemma PollAnswers(s: State)
    ensures NothingAnswered(s, DoPoll(s))
  {
    var s' := DoPoll(s);
    if s.owner.Free? && s.completed != [] && s.completed[0] in s.ops {
      var p := s.completed[0];
      OneChanged(s.ops, p, s'.ops[p], s.worker);
      assert s'.ops == s.ops[p := s'.ops[p]];
    }
  }

  lemma DeliverAnswers(s: State, shut: bool)
    ensures NothingAnswered(s, DoDeliver(s, shut))
  {
    if s.owner.Polled? {
      CloseAnswers(s, s.owner.result, shut);
      var s1 := CloseFd(s, s.owner.result, shut);
      var s' := DoDeliver(s, shut);
      assert s'.answers == s.answers && s'.worker == s.worker && (s'.ops == s.ops || s'.ops == s1.ops);
    } else {
      assert DoDeliver(s, shut) == s;
    }
  }

  lemma UntouchedAnswers(s: State, s': State)
    requires s'.ops == s.ops && s'.answers == s.answers && s'.worker == s.worker
    ensures NothingAnswered(s, s')
  {
  }

  lemma ClaimAnswers(s: State, r: Request)
    ensures NothingAnswered(s, DoClaimFor(s, r))
  {
    UntouchedAnswers(s, DoClaimFor(s, r));
  }

  lemma GiveBackAnswers(s: State)
    ensures NothingAnswered(s, DoGiveBack(s))
  {
    UntouchedAnswers(s, DoGiveBack(s));
  }

  lemma DropActiveAnswers(s: State)
    ensures NothingAnswered(s, DoDropActive(s))
  {
    var s' := DoDropActive(s);
    if Tearing(s) && s.commands == [] && s.active != [] && s.active[0] in s.ops {
      var p := s.active[0];
      OneChanged(s.ops, p, s'.ops[p], s.worker);
      assert s'.ops == s.ops[p := s'.ops[p]] && s'.answers == s.answers && s'.worker == s.worker;
    } else {
      assert s' == s;
    }
  }

  lemma DropCompletedAnswers(s: State)
    ensures NothingAnswered(s, DoDropCompleted(s))
  {
    var s' := DoDropCompleted(s);
    if Tearing(s) && s.commands == [] && s.active == [] && s.completed != [] && s.completed[0] in s.ops {
      var p := s.completed[0];
      OneChanged(s.ops, p, s'.ops[p], s.worker);
      assert s'.ops == s.ops[p := s'.ops[p]] && s'.answers == s.answers && s'.worker == s.worker;
    } else {
      assert s' == s;
    }
  }

  lemma StopAnswers(s: State)
    ensures NothingAnswered(s, DoStop(s)) && NothingAnswered(s, DoDropDone(s))
  {
    UntouchedAnswers(s, DoStop(s));
    UntouchedAnswers(s, DoDropDone(s));
  }

  lemma DropCommandsAnswers(s: State)
    ensures NothingAnswered(s, DoDropCommands(s))
  {
    UntouchedAnswers(s, DoDropCommands(s));
  }

  lemma OwnerAnswers(s: State, a: Step)
    requires Inv(s) && ByOwnerThread(a)
    ensures NothingAnswered(s, Next(s, a))
  {
    match a {
      case Enqueue(p, memory, wrote) =>
        assert InHand(s.worker, p) ==> p in s.ops;
        EnqueueAnswers(s, p, memory, wrote);
      case CancelRequest(id, memory) => CancelAnswers(s, id, memory);
      case ClaimFor(r) => ClaimAnswers(s, r);
      case GiveBack => GiveBackAnswers(s);
      case Poll => PollAnswers(s);
      case Deliver(shut) => DeliverAnswers(s, shut);
      case DropActive => DropActiveAnswers(s);
      case DropCompleted => DropCompletedAnswers(s);
      case Stop => StopAnswers(s);
      case DropCommands => DropCommandsAnswers(s);
      case DropDone => StopAnswers(s);
    }
  }

  lemma RunAnswers(s: State, ok: bool)
    ensures NothingAnswered(s, DoRunCommand(s, ok))
  {
    var s' := DoRunCommand(s, ok);
    if s.worker.Processing? && s.worker.batch != [] && s.worker.batch[0].op in s.ops {
      var p := s.worker.batch[0].op;
      OneChanged(s.ops, p, s'.ops[p], s.worker);
      assert s.ops == s.ops[p := s.ops[p]];
      assert s'.ops == s.ops[p := s'.ops[p]] && s'.answers == s.answers && s'.worker.Processing?;
    } else {
      assert s' == s;
    }
  }

  lemma ReleaseAnswers(s: State)
    ensures NothingAnswered(s, DoReleaseClaim(s))
  {
  }

  lemma EndAnswers(s: State, a: Step)
    requires a.Detach? || a.EndCommands? || a.OtherCqe?
    ensures NothingAnswered(s, Next(s, a))
  {
    WorkerFrame(s, a);
    match a {
      case Detach => assert Next(s, a) == DoDetach(s);
      case EndCommands(ok) => assert Next(s, a) == DoEndCommands(s, ok);
      case OtherCqe(ok) => assert Next(s, a) == DoOtherCqe(s, ok);
    }
  }

  lemma ElseAnswers(s: State, a: Step)
    requires a.OtherTrack? || a.OtherClaim? || a.OtherRelease?
    ensures NothingAnswered(s, Next(s, a))
  {
  }

  lemma OtherAnswers(s: State, a: Step)
    requires !ByOwnerThread(a) && !a.TakeCqe? && !a.Resolve?
    ensures NothingAnswered(s, Next(s, a))
  {
    match a {
      case RunCommand(ok) => RunAnswers(s, ok);
      case ReleaseClaim => ReleaseAnswers(s);
      case OtherClose(fd, shut) => CloseAnswers(s, fd, shut);
      case OtherTrack(_, _) => ElseAnswers(s, a);
      case OtherClaim(_, _) => ElseAnswers(s, a);
      case OtherRelease(_) => ElseAnswers(s, a);
      case _ => EndAnswers(s, a);
    }
  }

  lemma KernelFacts(s: State, p: OpId)
    requires Inv(s) && p in s.kernel
    ensures p in s.ops && !s.ops[p].resolved
  {
  }

  lemma TakenAnswers(ops: map<OpId, Op>, worker: Worker, answers: map<OpId, Answer>, p: OpId, a: Answer)
    requires AnswersOk(ops, worker, answers) && worker.Waiting? && p in ops && !ops[p].resolved
    ensures AnswersOk(ops, Releasing(p, Reported(ops[p].request, a)), answers[p := a])
  {
  }

  lemma TakeAnswers(s: State, p: OpId, result: int, memory: bool)
    requires Truthful(s) && (p in s.kernel ==> p in s.ops && !s.ops[p].resolved)
    ensures Truthful(DoTakeCqe(s, p, result, memory))
  {
    if s.worker.Waiting? && p in s.kernel {
      var s' := DoTakeCqe(s, p, result, memory);
      TakenAnswers(s.ops, s.worker, s.answers, p, s'.answers[p]);
      assert s'.ops == s.ops && s'.answers == s.answers[p := s'.answers[p]];
      assert s'.worker == Releasing(p, Reported(s.ops[p].request, s'.answers[p]));
    } else {
      assert DoTakeCqe(s, p, result, memory) == s;
    }
  }

  lemma ResolvedAnswers(ops: map<OpId, Op>, worker: Worker, worker': Worker, answers: map<OpId, Answer>)
    requires AnswersOk(ops, worker, answers) && worker.Resolving? && worker.op in ops
    requires worker'.Waiting? || worker'.Exited?
    ensures AnswersOk(ops[worker.op := ops[worker.op].(resolved := true, result := worker.result)], worker', answers)
  {
    assert InHand(worker, worker.op);
  }

  lemma ResolveAnswers(s: State, ok: bool)
    requires Truthful(s) && (s.worker.Resolving? ==> s.worker.op in s.ops)
    ensures Truthful(DoResolve(s, ok))
  {
    if s.worker.Resolving? {
      var p, s' := s.worker.op, DoResolve(s, ok);
      ResolvedAnswers(s.ops, s.worker, s'.worker, s.answers);
      assert s'.ops == s.ops[p := s.ops[p].(resolved := true, result := s.worker.result)];
      assert s'.answers == s.answers;
    } else {
      assert DoResolve(s, ok) == s;
    }
  }

  lemma StepAnswers(s: State, a: Step)
    requires Inv(s) && Truthful(s)
    ensures Truthful(Next(s, a))
  {
    if a.TakeCqe? {
      if a.op in s.kernel {
        KernelFacts(s, a.op);
      }
      TakeAnswers(s, a.op, a.result, a.memory);
    } else if a.Resolve? {
      if s.worker.Resolving? {
        HandFacts(s);
      }
      ResolveAnswers(s, a.ok);
    } else {
      if ByOwnerThread(a) {
        OwnerAnswers(s, a);
      } else {
        OtherAnswers(s, a);
      }
      NothingKeeps(s, Next(s, a));
    }
  }

  lemma {:induction false} RunTruthful(s: State, steps: seq<Step>, last: State)
    requires Inv(s) && Truthful(s) && Reaches(s, steps, last)
    ensures Truthful(last)
    decreases |steps|
  {
    if steps != [] {
      StepAnswers(s, steps[0]);
      StepKeeps(s, steps[0]);
      RunTruthful(Next(s, steps[0]), steps[1..], last);
    }
  }

  lemma ReachableTruthful(s: State)
    requires Reachable(s)
    ensures Inv(s) && Truthful(s)
  {
    var steps :| Reaches(Initial(), steps, s);
    InitialInv();
    RunTruthful(Initial(), steps, s);
    ReachableInv(s);
  }

  /** The kernel answers an operation at most once, and the answer stays. */
  lemma AnsweredOnce(s: State, a: Step, p: OpId)
    requires Reachable(s) && p in s.answers
    ensures p in Next(s, a).answers && Next(s, a).answers[p] == s.answers[p]
  {
    ReachableTruthful(s);
    assert s.ops[p].resolved || InHand(s.worker, p);
    if a.TakeCqe? && a.op in s.kernel {
      assert a.op != p;
    } else if !a.TakeCqe? {
      NoNewAnswers(s, a);
    }
  }

  lemma NoNewAnswers(s: State, a: Step)
    requires Inv(s) && !a.TakeCqe?
    ensures Next(s, a).answers == s.answers
  {
    if a.Resolve? {
      assert Next(s, a) == DoResolve(s, a.ok);
    } else if ByOwnerThread(a) {
      OwnerAnswers(s, a);
    } else {
      OtherAnswers(s, a);
    }
  }

  /** Whatever is delivered is the kernel's own answer to that very operation, an
      accepted connection that could not be tracked excepted; or it is the stale error,
      and then the descriptor was closed after the request had claimed it. Requests
      without a descriptor are never stale. */
  lemma DeliveredFaithfully(s: State, d: Delivery)
    requires Reachable(s) && d in s.delivered
    ensures d.op in s.ops && s.ops[d.op].resolved && s.ops[d.op].consumed && d.op in s.answers
    ensures d.result == if d.closed then -ESTALE else Reported(s.ops[d.op].request, s.answers[d.op])
    ensures d.closed ==> s.ops[d.op].closed && OnSocket(s.ops[d.op].request)
  {
    ReachableTruthful(s);
    DeliveredIsPublished(s, d);
  }

  /** So is what is published and not yet taken. */
  lemma PublishedFaithfully(s: State, p: OpId)
    requires Reachable(s) && p in s.completed
    ensures p in s.ops && p in s.answers && s.ops[p].result == Reported(s.ops[p].request, s.answers[p])
  {
    ReachableTruthful(s);
    assert OpOk(s.ops[p], p, s.active, s.completed, TearingDown(s.owner, s.worker));
  }
}
