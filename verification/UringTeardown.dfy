/** What tearing the handle down leaves behind: an operation whose caller has its
    completion, while the command to cancel it was never carried out. */
module UringTeardown {
  import opened Common
  import opened Paths
  import opened Uring
  import opened UringInvariant
  import opened UringTheorems

  // ------------------------------------------------------- decided beforehand

  /** Teardown starts with this step: the worker has ended and the owner stops. */
  predicate StartsTeardown(s: State, a: Step)
  {
    !TearingDown(s.owner, s.worker) && TearingDown(Next(s, a).owner, Next(s, a).worker)
  }

  /** The caller has polled p, and the command to cancel p is still queued. */
  predicate LeftUndone(s: State, p: OpId)
  {
    p in s.ops && s.ops[p].consumed && Cancel(p) in s.commands
  }

  /** The flags of every operation that decide its end are the same. */
  ghost predicate SameFlags(ops: map<OpId, Op>, ops': map<OpId, Op>)
  {
    && ops'.Keys == ops.Keys
    && forall p {:trigger ops'[p]} :: p in ops ==>
         ops'[p].consumed == ops[p].consumed && ops'[p].cancelPending == ops[p].cancelPending
  }

  predicate Drops(a: Step)
  {
    a.DropCommands? || a.DropActive? || a.DropCompleted? || a.DropDone?
  }

  lemma DropsLater(s: State, a: Step)
    requires Drops(a) && !Tearing(s)
    ensures Next(s, a) == s
  {
  }

  /** The owner has not begun to stop. */
  predicate NotStopping(s: State, s': State)
  {
    s'.worker == s.worker && (s'.owner == s.owner || (!s'.owner.Stopping? && !s'.owner.Gone?))
  }

  lemma EnqueueOnly(s: State, p: OpId, memory: bool, wrote: bool)
    ensures NotStopping(s, DoEnqueue(s, p, memory, wrote))
  {
  }

  lemma ClaimOnly(s: State, r: Request)
    ensures NotStopping(s, DoClaimFor(s, r))
  {
  }

  lemma GiveBackOnly(s: State)
    ensures NotStopping(s, DoGiveBack(s))
  {
  }

  lemma CancelOnly(s: State, id: nat, memory: bool)
    ensures NotStopping(s, DoCancel(s, id, memory))
  {
  }

  lemma SubmitsOnly(s: State, a: Step)
    requires a.ClaimFor? || a.Enqueue? || a.GiveBack? || a.CancelRequest?
    ensures NotStopping(s, Next(s, a))
  {
    match a {
      case Enqueue(p, memory, wrote) => EnqueueOnly(s, p, memory, wrote);
      case CancelRequest(id, memory) => CancelOnly(s, id, memory);
      case ClaimFor(r) => ClaimOnly(s, r);
      case GiveBack => GiveBackOnly(s);
    }
  }

  lemma PollsOnly(s: State, a: Step)
    requires a.Poll? || a.Deliver?
    ensures NotStopping(s, Next(s, a))
  {
  }

  lemma OwnerStarts(s: State, a: Step)
    requires StartsTeardown(s, a) && ByOwnerThread(a)
    ensures Next(s, a) == DoStop(s) && s.worker.Exited?
  {
    if Drops(a) {
      DropsLater(s, a);
    } else if a.Poll? || a.Deliver? {
      PollsOnly(s, a);
    } else if !a.Stop? {
      SubmitsOnly(s, a);
    }
  }

  lemma OtherStarts(s: State, a: Step)
    requires StartsTeardown(s, a) && !ByOwnerThread(a)
    ensures a.EndCommands? || a.Resolve? || a.OtherCqe?
  {
  }

  lemma EndStarts(s: State, a: Step)
    requires StartsTeardown(s, a) && (a.EndCommands? || a.OtherCqe?)
    ensures Next(s, a).ops == s.ops && Next(s, a).commands == s.commands && Batch(s.worker) == []
  {
  }

  lemma ResolveKeepsFlags(s: State, ok: bool)
    requires s.worker.Resolving? && s.worker.op in s.ops
    ensures SameFlags(s.ops, DoResolve(s, ok).ops) && DoResolve(s, ok).commands == s.commands
  {
    var p := s.worker.op;
    var op := s.ops[p].(resolved := true, result := s.worker.result);
    var s' := DoResolve(s, ok);
    assert s'.ops == s.ops || s'.ops == s.ops[p := op];
  }

  lemma ResolveStarts(s: State, ok: bool)
    requires StartsTeardown(s, Resolve(ok))
    ensures s.worker.Resolving? && s.worker.op in s.ops && Next(s, Resolve(ok)) == DoResolve(s, ok)
  {
  }

  /** Teardown starts with every command that was never carried out still queued. */
  lemma StartIs(s: State, a: Step)
    requires StartsTeardown(s, a)
    ensures Next(s, a).commands == Pending(s) && SameFlags(s.ops, Next(s, a).ops)
  {
    if ByOwnerThread(a) {
      OwnerStarts(s, a);
    } else {
      OtherStarts(s, a);
      if a.Resolve? {
        ResolveStarts(s, a.ok);
        ResolveKeepsFlags(s, a.ok);
      } else {
        EndStarts(s, a);
      }
    }
    assert [] + s.commands == s.commands;
  }

  lemma PendingIsQueued(s: State, a: Step, p: OpId)
    requires Inv(s) && StartsTeardown(s, a) && p in s.ops
    ensures var s' := Next(s, a);
            p in s'.ops && (s'.ops[p].cancelPending <==> Cancel(p) in s'.commands)
  {
    StartIs(s, a);
  }

  /** While the handle is torn down nothing touches these flags. */
  lemma DropKeepsFlags(s: State, a: Step)
    requires TearingDown(s.owner, s.worker) && Drops(a)
    ensures TearingDown(Next(s, a).owner, Next(s, a).worker) && SameFlags(s.ops, Next(s, a).ops)
  {
    match a {
      case DropCommands => assert Next(s, a) == DoDropCommands(s);
      case DropActive => ActiveKeepsFlags(s);
      case DropCompleted => assert Next(s, a) == DoDropCompleted(s);
      case DropDone => assert Next(s, a) == DoDropDone(s);
    }
  }

  lemma ActiveKeepsFlags(s: State)
    requires TearingDown(s.owner, s.worker)
    ensures var s' := DoDropActive(s);
            TearingDown(s'.owner, s'.worker) && SameFlags(s.ops, s'.ops)
  {
  }

  lemma OwnerTeardown(s: State, a: Step)
    requires TearingDown(s.owner, s.worker) && ByOwnerThread(a)
    ensures TearingDown(Next(s, a).owner, Next(s, a).worker) && SameFlags(s.ops, Next(s, a).ops)
  {
    if Drops(a) {
      DropKeepsFlags(s, a);
    } else {
      assert Next(s, a) == s;
    }
  }

  predicate OfWorker(a: Step)
  {
    a.Detach? || a.RunCommand? || a.EndCommands? || a.TakeCqe? || a.ReleaseClaim? || a.Resolve? || a.OtherCqe?
  }

  lemma OtherTeardown(s: State, a: Step)
    requires TearingDown(s.owner, s.worker) && !ByOwnerThread(a)
    ensures TearingDown(Next(s, a).owner, Next(s, a).worker) && SameFlags(s.ops, Next(s, a).ops)
  {
    if OfWorker(a) {
      assert Next(s, a) == s;
    } else if a.OtherClose? {
      assert Next(s, a) == CloseFd(s, a.fd, a.shut);
    } else {
      assert Next(s, a).ops == s.ops && Next(s, a).owner == s.owner && Next(s, a).worker == s.worker;
    }
  }

  lemma {:induction false} TeardownKeepsFlags(s: State, steps: seq<Step>, last: State)
    requires TearingDown(s.owner, s.worker) && Reaches(s, steps, last)
    ensures SameFlags(s.ops, last.ops)
    decreases |steps|
  {
    if steps != [] {
      if ByOwnerThread(steps[0]) {
        OwnerTeardown(s, steps[0]);
      } else {
        OtherTeardown(s, steps[0]);
      }
      TeardownKeepsFlags(Next(s, steps[0]), steps[1..], last);
    }
  }

  /** When teardown starts it is decided what will leak: once the handle is gone, an
      operation was never freed if and only if its caller had already polled it while
      the command to cancel it was still queued. */
  lemma LeakIff(s: State, a: Step, after: seq<Step>, last: State, p: OpId)
    requires Reachable(s) && StartsTeardown(s, a) && Reaches(Next(s, a), after, last)
    requires last.owner.Gone? && p in last.ops
    ensures last.ops[p].frees == 0 <==> LeftUndone(Next(s, a), p)
  {
    ReachableInv(s);
    StepKeeps(s, a);
    RunKeeps(Next(s, a), after, last);
    TeardownKeepsFlags(Next(s, a), after, last);
    StartIs(s, a);
    PendingIsQueued(s, a, p);
    GoneIsEmpty(last);
    GoneFrees(last, p);
  }

  lemma GoneFrees(s: State, p: OpId)
    requires Inv(s) && s.owner.Gone? && p in s.ops
    ensures s.ops[p].frees == 0 <==> s.ops[p].consumed && s.ops[p].cancelPending
  {
    GoneIsEmpty(s);
    assert OpOk(s.ops[p], p, s.active, s.completed, TearingDown(s.owner, s.worker));
  }

  // ----------------------------------------------------------- a run that leaks

  const TIMER := Request(0, Timeout, -1, 0)
  const NEW := Op(TIMER, 0, false, false, false, 0, 0, false)

  /** The handle with operation 7 alone. */
  function Lone(op: Op, worker: Worker, owner: Owner): State
  {
    Initial().(ops := map[7 := op], worker := worker, owner := owner)
  }

  const WITH_KERNEL := Lone(NEW, Waiting, Free).(active := [7], kernel := {7})
  const CANCELLING := NEW.(cancelPending := true)
  const ANSWERS := map[7 := Answer(-1, true)]
  const IN_HAND :=
    Lone(CANCELLING, Resolving(7, -1), Free).(active := [7], commands := [Cancel(7)], answers := ANSWERS)
  const ENDED := CANCELLING.(resolved := true, result := -1)
  const FAILED :=
    Lone(ENDED, Exited, Free).(completed := [7], commands := [Cancel(7)], failed := true, answers := ANSWERS)
  const TAKEN := ENDED.(consumed := true)
  const GIVEN :=
    Lone(TAKEN, Exited, Free).(commands := [Cancel(7)], failed := true, delivered := [Delivery(7, -1, false)],
                               answers := ANSWERS)
  const LEAKED := GIVEN.(owner := Gone, stopRequested := true, commands := [])

  const FEED := [ClaimFor(TIMER)] + [Enqueue(7, true, true), Detach, RunCommand(true), EndCommands(true)]
  const ANSWER := [CancelRequest(0, true), TakeCqe(7, -1, true), ReleaseClaim, Resolve(false)]
  const TAKE := [Poll, Deliver(true)]
  const DROP := [Stop] + [DropCommands, DropDone]

  lemma Feeds()
    ensures Reaches(Initial(), FEED, WITH_KERNEL)
  {
    var s0 := Initial().(owner := Owner.Claimed(TIMER, false));
    assert Next(Initial(), ClaimFor(TIMER)) == s0;
    Enqueues(s0);
    FeedsRing();
    PathFour(Next, s0, Enqueue(7, true, true), Detach, RunCommand(true), EndCommands(true));
    PathOne(Next, Initial(), ClaimFor(TIMER),
            [Enqueue(7, true, true), Detach, RunCommand(true), EndCommands(true)], WITH_KERNEL);
  }

  lemma Enqueues(s0: State)
    requires s0 == Initial().(owner := Owner.Claimed(TIMER, false))
    ensures Next(s0, Enqueue(7, true, true)) == Lone(NEW, Waiting, Free).(active := [7], commands := [Submit(7)])
  {
    assert [7] + [] == [7] && [] + [Submit(7)] == [Submit(7)] && map[][7 := NEW] == map[7 := NEW];
  }

  lemma FeedsRing()
    ensures var s1 := Lone(NEW, Waiting, Free).(active := [7], commands := [Submit(7)]);
            Next(Next(Next(s1, Detach), RunCommand(true)), EndCommands(true)) == WITH_KERNEL
  {
    var s2 := Lone(NEW, Processing([Submit(7)], false), Free).(active := [7]);
    assert Next(Lone(NEW, Waiting, Free).(active := [7], commands := [Submit(7)]), Detach) == s2;
    var s3 := Lone(NEW, Processing([], false), Free).(active := [7], kernel := {7});
    assert [Submit(7)][1..] == [] && {} + {7} == {7};
    assert Next(s2, RunCommand(true)) == s3;
  }

  lemma Cancels()
    ensures Next(WITH_KERNEL, CancelRequest(0, true))
         == Lone(CANCELLING, Waiting, Free).(active := [7], kernel := {7}, commands := [Cancel(7)])
  {
    assert Find(map[7 := NEW], [7], 0) == 0;
    assert [] + [Cancel(7)] == [Cancel(7)] && map[7 := NEW][7 := CANCELLING] == map[7 := CANCELLING];
  }

  lemma Answers()
    ensures var s := Lone(CANCELLING, Waiting, Free).(active := [7], kernel := {7}, commands := [Cancel(7)]);
            Next(Next(s, TakeCqe(7, -1, true)), ReleaseClaim) == IN_HAND
  {
    assert {7} - {7} == {};
  }

  lemma Fails()
    ensures Next(IN_HAND, Resolve(false)) == FAILED
  {
    assert Without([7], 7) == [] && [] + [7] == [7];
    assert map[7 := CANCELLING][7 := ENDED] == map[7 := ENDED];
  }

  lemma IsAnswered()
    ensures Reaches(WITH_KERNEL, ANSWER, FAILED)
  {
    Cancels();
    Answers();
    Fails();
    PathFour(Next, WITH_KERNEL, CancelRequest(0, true), TakeCqe(7, -1, true), ReleaseClaim, Resolve(false));
  }

  lemma IsTaken()
    ensures Reaches(FAILED, TAKE, GIVEN)
  {
    var s1 := GIVEN.(owner := Polled(7, TIMER, -1), delivered := []);
    assert [7][1..] == [] && map[7 := ENDED][7 := TAKEN] == map[7 := TAKEN];
    assert Next(FAILED, Poll) == s1;
    assert [] + [Delivery(7, -1, false)] == [Delivery(7, -1, false)];
    assert Next(s1, Deliver(true)) == GIVEN;
    TwoSteps(Next, FAILED, Poll, s1, Deliver(true), GIVEN);
  }

  lemma IsDropped()
    ensures Reaches(GIVEN, DROP, LEAKED)
    ensures StartsTeardown(GIVEN, Stop) && LeftUndone(Next(GIVEN, Stop), 7)
  {
    var s1 := GIVEN.(owner := Stopping, stopRequested := true);
    assert Next(GIVEN, Stop) == s1;
    assert Next(s1, DropCommands) == s1.(commands := []);
    TwoSteps(Next, s1, DropCommands, s1.(commands := []), DropDone, LEAKED);
    PathOne(Next, GIVEN, Stop, [DropCommands, DropDone], LEAKED);
  }

  /** Such a run: a request is cancelled, the kernel answers it, the worker fails before
      it comes to the cancel command, the caller takes the completion and closes the
      handle.  The operation is never freed. */
  lemma LeakRun()
    ensures Reaches(Initial(), FEED + ANSWER + TAKE + DROP, LEAKED)
    ensures LEAKED.owner.Gone? && LEAKED.ops[7].frees == 0
    ensures StartsTeardown(GIVEN, Stop) && LeftUndone(Next(GIVEN, Stop), 7)
  {
    Feeds();
    IsAnswered();
    PathThen(Next, Initial(), FEED, WITH_KERNEL, ANSWER, FAILED);
    IsTaken();
    PathThen(Next, Initial(), FEED + ANSWER, FAILED, TAKE, GIVEN);
    IsDropped();
    PathThen(Next, Initial(), FEED + ANSWER + TAKE, GIVEN, DROP, LEAKED);
  }
}
