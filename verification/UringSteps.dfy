/** Each step of the io_uring protocol keeps the invariant. */
module UringSteps {
  import opened Common
  import opened Sockets
  import opened Uring
  import opened UringInvariant

  // -------------------------------------------------------------------- lists

  lemma NoDupTail<T>(list: seq<T>)
    requires NoDup(list) && list != []
    ensures NoDup(list[1..]) && list[0] !in list[1..]
  {
  }

  lemma NoDupSnoc<T>(list: seq<T>, x: T)
    requires NoDup(list) && x !in list
    ensures NoDup(list + [x])
  {
  }

  lemma NoDupCons<T>(list: seq<T>, x: T)
    requires NoDup(list) && x !in list
    ensures NoDup([x] + list)
  {
  }

  lemma {:induction false} WithoutIs(list: seq<OpId>, p: OpId)
    requires NoDup(list)
    ensures NoDup(Without(list, p))
    ensures forall q :: q in Without(list, p) <==> q in list && q != p
  {
    if list != [] {
      NoDupTail(list);
      if list[0] != p {
        WithoutIs(list[1..], p);
        NoDupCons(Without(list[1..], p), list[0]);
      }
    }
  }

  // ----------------------------------------------------------------- freshness

  lemma FreshKept(r: Request, closed: bool, reg: Registry, a: Action)
    requires Valid(reg) && FreshOk(r, closed, reg)
    requires !closed && a.DoClose? && a.fd == r.fd ==> !Close(reg, a.fd, a.closed).1.Ok?
    ensures FreshOk(r, closed, Sockets.Do(reg, a))
  {
  }

  lemma FreshStep(ops: map<OpId, Op>, owner: Owner, reg: Registry, a: Action)
    requires AllFresh(ops, owner, reg) && !a.DoClose?
    ensures AllFresh(ops, owner, Sockets.Do(reg, a))
  {
    StepValid(reg, a);
    forall p | p in ops
      ensures FreshOk(ops[p].request, ops[p].closed, Sockets.Do(reg, a))
    {
      FreshKept(ops[p].request, ops[p].closed, reg, a);
    }
    if owner.Claimed? {
      FreshKept(owner.request, owner.closed, reg, a);
    }
  }

  lemma FreshMarked(r: Request, closed: bool, reg: Registry, fd: int)
    requires Valid(reg) && FreshOk(r, closed, reg) && Close(reg, fd, true).1.Ok?
    ensures FreshOk(r, closed || (OnSocket(r) && r.fd == fd), Close(reg, fd, true).0)
  {
  }

  lemma FreshClose(ops: map<OpId, Op>, owner: Owner, reg: Registry, fd: int)
    requires AllFresh(ops, owner, reg) && Close(reg, fd, true).1.Ok?
    ensures AllFresh(MarkClosed(ops, fd), MarkOwner(owner, fd), Close(reg, fd, true).0)
  {
    StepValid(reg, DoClose(fd, true));
    var ops', reg' := MarkClosed(ops, fd), Close(reg, fd, true).0;
    forall p | p in ops'
      ensures FreshOk(ops'[p].request, ops'[p].closed, reg')
    {
      FreshMarked(ops[p].request, ops[p].closed, reg, fd);
    }
    if owner.Claimed? {
      FreshMarked(owner.request, owner.closed, reg, fd);
    }
  }

  // ------------------------------------------------------------ small changes

  /** Only the history fields differ. */
  ghost predicate Similar(ops: map<OpId, Op>, ops': map<OpId, Op>)
  {
    && ops'.Keys == ops.Keys
    && forall p {:trigger ops'[p]} {:trigger ops[p]} :: p in ops ==>
         && ops'[p] == ops[p].(releases := ops'[p].releases, closed := ops'[p].closed)
         && (ops[p].closed ==> ops'[p].closed)
  }

  lemma SimilarLists(s: State, ops': map<OpId, Op>)
    requires Inv(s) && Similar(s.ops, ops')
    ensures ListsOk(ops', s.active, s.completed, TearingDown(s.owner, s.worker))
    ensures RequestsDistinct(ops', s.active)
    ensures LeaksOk(ops', TearingDown(s.owner, s.worker), s.failed)
  {
  }

  lemma SimilarCommands(s: State, ops': map<OpId, Op>)
    requires Inv(s) && Similar(s.ops, ops')
    ensures CommandsOk(ops', Pending(s), TearingDown(s.owner, s.worker))
    ensures StagesOk(ops', Pending(s), s.kernel, s.worker, s.failed || s.worker.Exited?)
    ensures LateCancelsOk(ops', s.commands, s.worker, s.failed)
    ensures DeliveredOk(ops', s.delivered, s.owner)
  {
  }

  lemma SimilarKeeps(s: State, ops': map<OpId, Op>, owner': Owner, reg': Registry, holder': map<int, Holder>)
    requires Inv(s) && Similar(s.ops, ops') && AllFresh(ops', owner', reg')
    requires owner' == s.owner || (owner'.Claimed? && s.owner.Claimed?)
    ensures Inv(s.(ops := ops', owner := owner', reg := reg', holder := holder'))
  {
    SimilarLists(s, ops');
    SimilarCommands(s, ops');
  }

  // -------------------------------------------------------------------- steps

  lemma ClaimForKeeps(s: State, r: Request)
    requires Inv(s)
    ensures Inv(DoClaimFor(s, r))
  {
    if s.owner.Free? && OnSocket(r) {
      FreshStep(s.ops, s.owner, s.reg, DoClaim(r.fd, r.generation));
    }
  }

  /** Deliveries look only at polled operations. */
  lemma DeliveredAlike(ops: map<OpId, Op>, ops': map<OpId, Op>, delivered: seq<Delivery>, owner: Owner, owner': Owner)
    requires DeliveredOk(ops, delivered, owner) && ops.Keys <= ops'.Keys
    requires owner == owner' || (!owner.Polled? && !owner'.Polled?)
    requires forall p {:trigger ops[p]} :: p in ops && ops[p].consumed ==>
               && ops'[p].consumed && ops'[p].request == ops[p].request && ops'[p].result == ops[p].result
               && (ops[p].closed ==> ops'[p].closed)
    requires forall p {:trigger ops'[p]} :: p in ops' && ops'[p].consumed ==> p in ops && ops[p].consumed
    ensures DeliveredOk(ops', delivered, owner')
  {
  }

  lemma FreshAlike(ops: map<OpId, Op>, p: OpId, op: Op, owner: Owner, owner': Owner, reg: Registry)
    requires AllFresh(ops, owner, reg) && FreshOk(op.request, op.closed, reg)
    requires owner'.Claimed? ==> owner' == owner
    ensures AllFresh(ops[p := op], owner', reg)
  {
  }

  lemma EnqueueLists(s: State, p: OpId, op: Op)
    requires Inv(s) && p !in s.ops && !TearingDown(s.owner, s.worker)
    requires !op.resolved && !op.consumed && op.frees == 0 && Find(s.ops, s.active, op.request.id) == |s.active|
    ensures ListsOk(s.ops[p := op], [p] + s.active, s.completed, false)
    ensures RequestsDistinct(s.ops[p := op], [p] + s.active)
  {
    NoDupCons(s.active, p);
  }

  lemma EnqueueCommands(s: State, p: OpId, op: Op)
    requires Inv(s) && p !in s.ops && !TearingDown(s.owner, s.worker)
    requires !op.resolved && !op.consumed && !op.cancelPending
    ensures CommandsOk(s.ops[p := op], Pending(s) + [Submit(p)], false)
    ensures StagesOk(s.ops[p := op], Pending(s) + [Submit(p)], s.kernel, s.worker, s.failed || s.worker.Exited?)
    ensures LateCancelsOk(s.ops[p := op], s.commands + [Submit(p)], s.worker, s.failed)
  {
    NoDupSnoc(Pending(s), Submit(p));
  }

  lemma EnqueuedKeeps(s: State, p: OpId, owner: Owner)
    requires Inv(s) && s.owner.Claimed? && p !in s.ops && Find(s.ops, s.active, s.owner.request.id) == |s.active|
    requires owner.Free? || owner.Refused?
    ensures var op := Op(s.owner.request, 0, false, false, false, 0, 0, s.owner.closed);
            Inv(s.(ops := s.ops[p := op], active := [p] + s.active, commands := s.commands + [Submit(p)],
                   owner := owner))
  {
    var op := Op(s.owner.request, 0, false, false, false, 0, 0, s.owner.closed);
    EnqueueLists(s, p, op);
    EnqueueCommands(s, p, op);
    EnqueueOthers(s, p, op, owner);
    var s' := s.(ops := s.ops[p := op], active := [p] + s.active, commands := s.commands + [Submit(p)],
                 owner := owner);
    assert Pending(s') == Pending(s) + [Submit(p)];
  }

  lemma EnqueueOthers(s: State, p: OpId, op: Op, owner: Owner)
    requires Inv(s) && s.owner.Claimed? && p !in s.ops && (owner.Free? || owner.Refused?)
    requires op == Op(s.owner.request, 0, false, false, false, 0, 0, s.owner.closed)
    ensures DeliveredOk(s.ops[p := op], s.delivered, owner) && AllFresh(s.ops[p := op], owner, s.reg)
    ensures LateCancelsOk(s.ops[p := op], s.commands + [Submit(p)], s.worker, s.failed)
  {
    DeliveredAlike(s.ops, s.ops[p := op], s.delivered, s.owner, owner);
    FreshAlike(s.ops, p, op, s.owner, owner, s.reg);
  }

  lemma ActiveAlive(s: State)
    requires Inv(s)
    ensures UseActive(s) == s
    ensures forall p :: p in s.active ==> Alive(s.ops, p)
  {
  }

  lemma RefusedKeeps(s: State)
    requires Inv(s) && s.owner.Claimed?
    ensures Inv(Refuse(s, s.owner.request))
  {
  }

  /** The holders are history, which the invariant does not look at. */
  lemma HolderKeeps(s: State, holder: map<int, Holder>)
    requires Inv(s)
    ensures Inv(s.(holder := holder))
  {
  }

  lemma EnqueueKeeps(s: State, p: OpId, memory: bool, wrote: bool)
    requires Inv(s)
    ensures Inv(DoEnqueue(s, p, memory, wrote))
  {
    if s.owner.Claimed? && p !in s.ops {
      ActiveAlive(s);
      var s' := DoEnqueue(s, p, memory, wrote);
      if memory && !s.failed && Find(s.ops, s.active, s.owner.request.id) == |s.active| {
        EnqueuedKeeps(s, p, s'.owner);
        var s1 := s.(ops := s'.ops, active := s'.active, commands := s'.commands, owner := s'.owner);
        HolderKeeps(s1, s'.holder);
        assert s' == s1.(holder := s'.holder);
      } else {
        RefusedKeeps(s);
        assert s' == Refuse(s, s.owner.request);
      }
    }
  }

  lemma GiveBackKeeps(s: State)
    requires Inv(s)
    ensures Inv(DoGiveBack(s))
  {
    if s.owner.Refused? {
      FreshStep(s.ops, s.owner, s.reg, DoRelease(s.owner.request.fd, s.owner.request.generation));
    }
  }

  lemma CancelLists(s: State, p: OpId)
    requires ListsOk(s.ops, s.active, s.completed, false) && RequestsDistinct(s.ops, s.active)
    requires p in s.active && p in s.ops
    ensures var ops' := s.ops[p := s.ops[p].(cancelPending := true)];
            ListsOk(ops', s.active, s.completed, false) && RequestsDistinct(ops', s.active)
  {
  }

  lemma CancelCommands(ops: map<OpId, Op>, pending: seq<Command>, p: OpId)
    requires CommandsOk(ops, pending, false) && p in ops && !ops[p].cancelPending
    ensures CommandsOk(ops[p := ops[p].(cancelPending := true)], pending + [Cancel(p)], false)
  {
    NoDupSnoc(pending, Cancel(p));
  }

  lemma CancelStages(ops: map<OpId, Op>, pending: seq<Command>, kernel: set<OpId>,
                     worker: Worker, broken: bool, p: OpId)
    requires StagesOk(ops, pending, kernel, worker, broken) && p in ops
    ensures StagesOk(ops[p := ops[p].(cancelPending := true)], pending + [Cancel(p)], kernel, worker, broken)
  {
  }

  lemma CancelledKeeps(s: State, p: OpId)
    requires Inv(s) && s.owner.Free? && p in s.active && p in s.ops && !s.ops[p].cancelPending
    ensures Inv(s.(ops := s.ops[p := s.ops[p].(cancelPending := true)], commands := s.commands + [Cancel(p)]))
  {
    var s' := s.(ops := s.ops[p := s.ops[p].(cancelPending := true)], commands := s.commands + [Cancel(p)]);
    assert Pending(s') == Pending(s) + [Cancel(p)];
    CancelLists(s, p);
    CancelCommands(s.ops, Pending(s), p);
    CancelStages(s.ops, Pending(s), s.kernel, s.worker, s.failed || s.worker.Exited?, p);
    DeliveredAlike(s.ops, s'.ops, s.delivered, s.owner, s.owner);
    FreshAlike(s.ops, p, s'.ops[p], s.owner, s.owner, s.reg);
  }

  lemma CancelKeeps(s: State, id: nat, memory: bool)
    requires Inv(s)
    ensures Inv(DoCancel(s, id, memory))
  {
    var k := Find(s.ops, s.active, id);
    if s.owner.Free? && memory && k < |s.active| {
      ActiveAlive(s);
      if !s.ops[s.active[k]].cancelPending {
        CancelledKeeps(s, s.active[k]);
      }
    }
  }

  lemma PolledLists(s: State)
    requires Inv(s) && s.owner.Free? && s.completed != []
    ensures var s' := DoPoll(s);
            && ListsOk(s'.ops, s'.active, s'.completed, false) && RequestsDistinct(s'.ops, s'.active)
            && CommandsOk(s'.ops, Pending(s'), false)
            && StagesOk(s'.ops, Pending(s'), s'.kernel, s'.worker, s'.failed || s'.worker.Exited?)
            && LateCancelsOk(s'.ops, s'.commands, s'.worker, s'.failed)
  {
    assert Pending(DoPoll(s)) == Pending(s);
  }

  lemma PolledOnce(s: State)
    requires Inv(s) && s.owner.Free? && s.completed != []
    ensures var s' := DoPoll(s);
            && DeliveredOk(s'.ops, s'.delivered, s'.owner) && AllFresh(s'.ops, s'.owner, s'.reg)
            && ThreadsOk(s') && !s'.misuse
  {
    var p := s.completed[0];
    assert OpOk(s.ops[p], p, s.active, s.completed, false);
  }

  lemma PollKeeps(s: State)
    requires Inv(s)
    ensures Inv(DoPoll(s))
  {
    if s.owner.Free? && s.completed != [] {
      PolledLists(s);
      PolledOnce(s);
    } else {
      assert DoPoll(s) == s;
    }
  }

  lemma DeliveredOnce(s: State, d: Delivery)
    requires Inv(s) && s.owner.Polled? && d.op == s.owner.op
    requires d.result == if d.closed then -ESTALE else s.owner.result
    requires d.closed ==> d.op in s.ops && s.ops[d.op].closed
    ensures Inv(s.(owner := Free, delivered := s.delivered + [d]))
  {
    var s' := s.(owner := Free, delivered := s.delivered + [d]);
    OneMore(s.ops, s.delivered, s.owner, d);
    assert Pending(s') == Pending(s);
  }

  lemma OneMore(ops: map<OpId, Op>, delivered: seq<Delivery>, owner: Owner, d: Delivery)
    requires DeliveredOk(ops, delivered, owner) && owner.Polled? && d.op == owner.op
    requires d.result == if d.closed then -ESTALE else owner.result
    requires d.closed ==> d.op in ops && ops[d.op].closed
    ensures DeliveredOk(ops, delivered + [d], Free)
  {
    assert d in delivered + [d];
    forall p | p in ops && ops[p].consumed
      ensures exists e :: e in delivered + [d] && e.op == p
    {
      if p != d.op {
        var e :| e in delivered && e.op == p;
        assert e in delivered + [d];
      }
    }
  }

  /** The delivered result is the stale one exactly when the descriptor was closed
      after the request was made. */
  lemma StaleIsClosed(s: State)
    requires Inv(s) && s.owner.Polled?
    ensures s.owner.op in s.ops
    ensures OnSocket(s.owner.request) ==> (RequestIsStale(s.reg, s.owner.request) <==> s.ops[s.owner.op].closed)
  {
  }

  lemma DeliverKeeps(s: State, shut: bool)
    requires Inv(s)
    ensures Inv(DoDeliver(s, shut))
  {
    if s.owner.Polled? {
      StaleIsClosed(s);
      var r, p, result := s.owner.request, s.owner.op, s.owner.result;
      var stale := RequestIsStale(s.reg, r);
      var s1 := if stale && r.kind.Accept? && result >= 0 then CloseFd(s, result, shut) else s;
      var d := Delivery(p, if stale then -ESTALE else result, s.ops[p].closed);
      CloseFdKeeps(s, result, shut);
      ClosePolled(s, result, shut);
      DeliveredOnce(s1, d);
      assert DoDeliver(s, shut) == s1.(owner := Free, delivered := s.delivered + [d]);
    } else {
      assert DoDeliver(s, shut) == s;
    }
  }

  lemma ClosePolled(s: State, fd: int, shut: bool)
    requires s.owner.Polled?
    ensures var s' := CloseFd(s, fd, shut);
            && s'.owner == s.owner && s'.delivered == s.delivered && s'.ops.Keys == s.ops.Keys
            && forall p {:trigger s'.ops[p]} :: p in s.ops && s.ops[p].closed ==> s'.ops[p].closed
  {
  }

  lemma StopKeeps(s: State)
    requires Inv(s)
    ensures Inv(DoStop(s))
  {
  }

  lemma DropCommandsKeeps(s: State)
    requires Inv(s)
    ensures Inv(DoDropCommands(s))
  {
  }

  lemma DroppedLists(s: State, p: OpId, op: Op)
    requires ListsOk(s.ops, s.active, s.completed, true) && RequestsDistinct(s.ops, s.active)
    requires s.active != [] && p == s.active[0] && op.frees == 1 && !op.resolved && !op.consumed
    requires p in s.ops && op.request == s.ops[p].request
    ensures ListsOk(s.ops[p := op], s.active[1..], s.completed, true) && RequestsDistinct(s.ops[p := op], s.active[1..])
  {
    NoDupTail(s.active);
    assert s.active == [p] + s.active[1..];
  }

  lemma DroppedKeeps(s: State, op: Op)
    requires Inv(s) && Tearing(s) && s.commands == [] && s.active != [] && s.active[0] in s.ops
    requires op == FreeOp(s.ops[s.active[0]]).(releases := op.releases)
    ensures Inv(s.(ops := s.ops[s.active[0] := op], active := s.active[1..]))
  {
    var p := s.active[0];
    DroppedLists(s, p, op);
    DeliveredAlike(s.ops, s.ops[p := op], s.delivered, s.owner, s.owner);
    FreshAlike(s.ops, p, op, s.owner, s.owner, s.reg);
  }

  lemma GivenBackKeeps(s: State, r: Request, holder: map<int, Holder>)
    requires Inv(s)
    ensures Inv(s.(reg := Release(s.reg, r.fd, r.generation), holder := holder))
  {
    var reg := Release(s.reg, r.fd, r.generation);
    FreshStep(s.ops, s.owner, s.reg, DoRelease(r.fd, r.generation));
    RegistryKeeps(s, reg);
    HolderKeeps(s.(reg := reg), holder);
  }

  lemma DropActiveKeeps(s: State)
    requires Inv(s)
    ensures Inv(DoDropActive(s))
  {
    if DoDropActive(s) != s {
      var p := s.active[0];
      var r := s.ops[p].request;
      ActiveAlive(s);
      var s1 := s.(ops := DoDropActive(s).ops, active := s.active[1..]);
      DroppedKeeps(s, DoDropActive(s).ops[p]);
      if OnSocket(r) {
        GivenBackKeeps(s1, r, s.holder - {r.fd});
      } else {
        assert DoDropActive(s) == s1;
      }
    }
  }

  lemma DropCompletedKeeps(s: State)
    requires Inv(s)
    ensures Inv(DoDropCompleted(s))
  {
  }

  lemma DropDoneKeeps(s: State)
    requires Inv(s)
    ensures Inv(DoDropDone(s))
  {
  }

  lemma DetachKeeps(s: State)
    requires Inv(s)
    ensures Inv(DoDetach(s))
  {
    assert Pending(DoDetach(s)) == Pending(s);
  }

  lemma CommandDone(ops: map<OpId, Op>, pending: seq<Command>, dropped: bool)
    requires CommandsOk(ops, pending, dropped) && pending != [] && pending[0].Submit?
    ensures CommandsOk(ops, pending[1..], dropped)
  {
    NoDupTail(pending);
    assert pending == [pending[0]] + pending[1..];
  }

  lemma SubmitStages(ops: map<OpId, Op>, pending: seq<Command>, kernel: set<OpId>, worker: Worker, worker': Worker,
                     broken: bool, ok: bool)
    requires CommandsOk(ops, pending, false) && StagesOk(ops, pending, kernel, worker, broken)
    requires pending != [] && pending[0].Submit? && worker.Processing? && worker'.Processing?
    ensures StagesOk(ops, pending[1..], if ok then kernel + {pending[0].op} else kernel, worker', broken || !ok)
  {
    var p, rest := pending[0].op, pending[1..];
    SubmitFirst(pending);
    if ok {
      assert StagesOk(ops, rest, kernel + {p}, worker', broken);
    } else {
      assert StagesOk(ops, rest, kernel, worker', true);
    }
  }

  lemma SubmitFirst(pending: seq<Command>)
    requires NoDup(pending) && pending != [] && pending[0].Submit?
    ensures Submit(pending[0].op) in pending && Submit(pending[0].op) !in pending[1..]
    ensures forall q :: Submit(q) in pending <==> q == pending[0].op || Submit(q) in pending[1..]
  {
    assert pending == [pending[0]] + pending[1..];
  }

  /** The worker's next command. */
  lemma NextCommand(s: State)
    requires Inv(s) && s.worker.Processing? && s.worker.batch != []
    ensures Pending(s) != [] && Pending(s)[0] == s.worker.batch[0]
    ensures Pending(s)[1..] == s.worker.batch[1..] + s.commands
    ensures Alive(s.ops, s.worker.batch[0].op) && Use(s, s.worker.batch[0].op) == s
  {
    var c := s.worker.batch[0];
    assert c in Pending(s);
    assert c == Submit(c.op) || c == Cancel(c.op);
    assert Pending(s)[1..] == s.worker.batch[1..] + s.commands;
  }

  lemma SubmitRunKeeps(s: State, ok: bool)
    requires Inv(s) && s.worker.Processing? && s.worker.batch != [] && s.worker.batch[0].Submit?
    ensures Inv(DoRunCommand(s, ok))
  {
    NextCommand(s);
    var s' := DoRunCommand(s, ok);
    assert Pending(s') == Pending(s)[1..];
    CommandDone(s.ops, Pending(s), false);
    SubmitStages(s.ops, Pending(s), s.kernel, s.worker, s'.worker, s.failed, ok);
  }

  lemma CancelDone(ops: map<OpId, Op>, pending: seq<Command>, op: Op)
    requires CommandsOk(ops, pending, false) && pending != [] && pending[0].Cancel?
    requires pending[0].op in ops && op.resolved == ops[pending[0].op].resolved && !op.cancelPending
    ensures CommandsOk(ops[pending[0].op := op], pending[1..], false)
  {
    NoDupTail(pending);
    assert pending == [pending[0]] + pending[1..];
  }

  lemma CancelDoneStages(ops: map<OpId, Op>, pending: seq<Command>, kernel: set<OpId>, worker: Worker,
                         worker': Worker, broken: bool, op: Op)
    requires StagesOk(ops, pending, kernel, worker, broken)
    requires pending != [] && pending[0].Cancel? && worker.Processing? && worker'.Processing?
    requires pending[0].op in ops && op.resolved == ops[pending[0].op].resolved
    ensures StagesOk(ops[pending[0].op := op], pending[1..], kernel, worker', broken)
  {
    assert pending == [pending[0]] + pending[1..];
  }

  lemma CancelDoneLists(s: State, p: OpId, op: Op)
    requires ListsOk(s.ops, s.active, s.completed, false) && RequestsDistinct(s.ops, s.active)
    requires p in s.ops && s.ops[p].cancelPending
    requires op == s.ops[p].(cancelPending := false, frees := if s.ops[p].consumed then 1 else 0)
    ensures ListsOk(s.ops[p := op], s.active, s.completed, false) && RequestsDistinct(s.ops[p := op], s.active)
  {
  }

  lemma CancelOpIs(s: State, ok: bool)
    requires Inv(s) && s.worker.Processing? && s.worker.batch != [] && s.worker.batch[0].Cancel?
    ensures var p := s.worker.batch[0].op;
            && p in s.ops && s.ops[p].cancelPending
            && DoRunCommand(s, ok).ops == s.ops[p := s.ops[p].(cancelPending := false,
                                                               frees := if s.ops[p].consumed then 1 else 0)]
  {
    NextCommand(s);
    assert s.worker.batch[0] in Pending(s);
  }

  lemma CancelDoneLate(s: State, p: OpId, op: Op, worker: Worker, failed: bool)
    requires LateCancelsOk(s.ops, s.commands, s.worker, s.failed) && s.worker.Processing?
    requires p in s.ops && op.resolved == s.ops[p].resolved && worker.Processing?
    ensures LateCancelsOk(s.ops[p := op], s.commands, worker, failed)
  {
  }

  lemma CancelRunIs(s: State, ok: bool)
    requires s.worker.Processing? && s.worker.batch != [] && s.worker.batch[0].Cancel?
    requires Use(s, s.worker.batch[0].op) == s && s.worker.batch[0].op in s.ops
    ensures var s' := DoRunCommand(s, ok);
            && s'.worker.Processing? && s'.worker.batch == s.worker.batch[1..]
            && (s'.worker.failing == s.worker.failing || s'.failed)
            && s' == s.(worker := s'.worker, failed := s'.failed, ops := s'.ops)
            && (s.failed ==> s'.failed)
  {
  }

  lemma Gather(s: State, s': State)
    requires ThreadsOk(s) && !s.misuse && s.worker.Processing? && s'.worker.Processing?
    requires s' == s.(worker := s'.worker, failed := s'.failed, ops := s'.ops) && (s.failed ==> s'.failed)
    requires s'.worker.failing == s.worker.failing || s'.failed
    requires ListsOk(s'.ops, s.active, s.completed, false) && RequestsDistinct(s'.ops, s.active)
    requires CommandsOk(s'.ops, s'.worker.batch + s.commands, false)
    requires StagesOk(s'.ops, s'.worker.batch + s.commands, s.kernel, s'.worker, s.failed)
    requires LateCancelsOk(s'.ops, s.commands, s'.worker, s'.failed)
    requires DeliveredOk(s'.ops, s.delivered, s.owner) && AllFresh(s'.ops, s.owner, s.reg)
    ensures Inv(s')
  {
  }

  lemma CancelGathers(s: State, s': State)
    requires Inv(s) && s.worker.Processing? && s.worker.batch != [] && s.worker.batch[0].Cancel?
    requires Pending(s) != [] && Pending(s)[0] == s.worker.batch[0]
    requires Pending(s)[1..] == s.worker.batch[1..] + s.commands
    requires s'.worker.Processing? && s'.worker.batch == s.worker.batch[1..]
    requires s'.worker.failing == s.worker.failing || s'.failed
    requires s' == s.(worker := s'.worker, failed := s'.failed, ops := s'.ops) && (s.failed ==> s'.failed)
    requires var p := s.worker.batch[0].op;
             && p in s.ops && s.ops[p].cancelPending
             && s'.ops == s.ops[p := s.ops[p].(cancelPending := false, frees := if s.ops[p].consumed then 1 else 0)]
    ensures Inv(s')
  {
    var p := s.worker.batch[0].op;
    CancelDone(s.ops, Pending(s), s'.ops[p]);
    CancelDoneStages(s.ops, Pending(s), s.kernel, s.worker, s'.worker, s.failed, s'.ops[p]);
    CancelDoneLists(s, p, s'.ops[p]);
    CancelDoneLate(s, p, s'.ops[p], s'.worker, s'.failed);
    DeliveredAlike(s.ops, s'.ops, s.delivered, s.owner, s.owner);
    FreshAlike(s.ops, p, s'.ops[p], s.owner, s.owner, s.reg);
    Gather(s, s');
  }

  lemma CancelRunKeeps(s: State, ok: bool)
    requires Inv(s) && s.worker.Processing? && s.worker.batch != [] && s.worker.batch[0].Cancel?
    ensures Inv(DoRunCommand(s, ok))
  {
    NextCommand(s);
    CancelOpIs(s, ok);
    CancelRunIs(s, ok);
    CancelGathers(s, DoRunCommand(s, ok));
  }

  lemma RunCommandKeeps(s: State, ok: bool)
    requires Inv(s)
    ensures Inv(DoRunCommand(s, ok))
  {
    if s.worker.Processing? && s.worker.batch != [] {
      match s.worker.batch[0] {
        case Submit(_) => SubmitRunKeeps(s, ok);
        case Cancel(_) => CancelRunKeeps(s, ok);
      }
    }
  }

  /** The worker may end when it has nothing in hand; without a failure, only
      after a pass over the commands. */
  lemma ExitKeeps(s: State, failed: bool)
    requires Inv(s) && (s.worker.Waiting? || (s.worker.Processing? && s.worker.batch == []))
    requires s.worker.Waiting? ==> failed
    ensures Inv(Exit(s, failed))
  {
    var s' := Exit(s, failed);
    assert Pending(s') == Pending(s) == s.commands;
    ExitLeaks(s, s'.failed);
  }

  lemma ExitLeaks(s: State, failed: bool)
    requires LateCancelsOk(s.ops, s.commands, s.worker, s.failed) && (s.worker.Processing? || failed)
    requires CommandsOk(s.ops, s.commands, false) && ListsOk(s.ops, s.active, s.completed, false)
    ensures LeaksOk(s.ops, true, failed)
  {
  }

  lemma EndCommandsKeeps(s: State, ok: bool)
    requires Inv(s)
    ensures Inv(DoEndCommands(s, ok))
  {
    if s.worker.Processing? && s.worker.batch == [] {
      if s.worker.failing || s.stopRequested {
        ExitKeeps(s, false);
      } else if !ok {
        ExitKeeps(s, true);
      } else {
        assert Pending(s.(worker := Waiting)) == Pending(s);
      }
    }
  }

  lemma TakenKeeps(s: State, p: OpId, result: int, answers: map<OpId, Answer>)
    requires Inv(s) && s.worker.Waiting? && p in s.kernel
    ensures Alive(s.ops, p)
    ensures Inv(s.(kernel := s.kernel - {p}, worker := Releasing(p, result), answers := answers))
  {
    var s' := s.(kernel := s.kernel - {p}, worker := Releasing(p, result), answers := answers);
    assert Pending(s') == Pending(s);
  }

  lemma RegistryKeeps(s: State, reg: Registry)
    requires Inv(s) && AllFresh(s.ops, s.owner, reg)
    ensures Inv(s.(reg := reg))
  {
    assert Pending(s.(reg := reg)) == Pending(s);
  }

  lemma TakeCqeIs(s: State, p: OpId, result: int, memory: bool)
    requires s.worker.Waiting? && p in s.kernel && Alive(s.ops, p)
    ensures var s' := DoTakeCqe(s, p, result, memory);
            && s'.worker.Releasing?
            && s' == s.(kernel := s.kernel - {p}, worker := Releasing(p, s'.worker.result), answers := s'.answers,
                        reg := s'.reg)
            && (s'.reg == s.reg || s'.reg == Sockets.Do(s.reg, DoTrack(result, memory)))
  {
    var s' := DoTakeCqe(s, p, result, memory);
    assert Use(s, p) == s;
    assert s'.worker == Releasing(p, s'.worker.result);
  }

  lemma TakeCqeKeeps(s: State, p: OpId, result: int, memory: bool)
    requires Inv(s)
    ensures Inv(DoTakeCqe(s, p, result, memory))
  {
    if s.worker.Waiting? && p in s.kernel {
      var s' := DoTakeCqe(s, p, result, memory);
      var s1 := s.(kernel := s.kernel - {p}, worker := Releasing(p, s'.worker.result), answers := s'.answers);
      TakenKeeps(s, p, s'.worker.result, s'.answers);
      TakeCqeIs(s, p, result, memory);
      FreshStep(s.ops, s.owner, s.reg, DoTrack(result, memory));
      RegistryKeeps(s1, s'.reg);
    }
  }

  lemma ReleasedKeeps(s: State)
    requires Inv(s) && s.worker.Releasing?
    ensures Alive(s.ops, s.worker.op)
    ensures Inv(s.(worker := Resolving(s.worker.op, s.worker.result)))
  {
    assert InHand(s.worker, s.worker.op);
    var s' := s.(worker := Resolving(s.worker.op, s.worker.result));
    assert Pending(s') == Pending(s);
    assert forall p :: InHand(s'.worker, p) <==> InHand(s.worker, p);
  }

  lemma GivenBackFresh(s: State, p: OpId)
    requires AllFresh(s.ops, s.owner, s.reg) && p in s.ops
    ensures var r := s.ops[p].request;
            AllFresh(s.ops[p := s.ops[p].(releases := s.ops[p].releases + 1)], s.owner,
                     Release(s.reg, r.fd, r.generation))
  {
    FreshStep(s.ops, s.owner, s.reg, DoRelease(s.ops[p].request.fd, s.ops[p].request.generation));
  }

  /** The operation's claim has been given back. */
  function Back(s: State, p: OpId): State
    requires p in s.ops
  {
    var r := s.ops[p].request;
    s.(ops := s.ops[p := s.ops[p].(releases := s.ops[p].releases + 1)],
       reg := Release(s.reg, r.fd, r.generation),
       holder := s.holder - {r.fd})
  }

  lemma BackSimilar(s: State, p: OpId)
    requires p in s.ops && AllFresh(s.ops, s.owner, s.reg)
    ensures var s' := Back(s, p);
            && Similar(s.ops, s'.ops) && AllFresh(s'.ops, s.owner, s'.reg)
            && s' == s.(ops := s'.ops, owner := s.owner, reg := s'.reg, holder := s'.holder)
  {
    GivenBackFresh(s, p);
  }

  lemma BackKeeps(s: State, p: OpId)
    requires Inv(s) && p in s.ops
    ensures Inv(Back(s, p))
  {
    BackSimilar(s, p);
    var s' := Back(s, p);
    SimilarKeeps(s, s'.ops, s.owner, s'.reg, s'.holder);
  }

  lemma ReleaseClaimIs(s: State)
    requires s.worker.Releasing? && Alive(s.ops, s.worker.op)
    ensures var s1 := s.(worker := Resolving(s.worker.op, s.worker.result));
            DoReleaseClaim(s) == if OnSocket(s.ops[s.worker.op].request) then Back(s1, s.worker.op) else s1
  {
  }

  lemma ReleaseClaimKeeps(s: State)
    requires Inv(s)
    ensures Inv(DoReleaseClaim(s))
  {
    if s.worker.Releasing? {
      ReleasedKeeps(s);
      ReleaseClaimIs(s);
      BackKeeps(s.(worker := Resolving(s.worker.op, s.worker.result)), s.worker.op);
    }
  }

  lemma ResolvedLists(s: State, p: OpId, op: Op)
    requires ListsOk(s.ops, s.active, s.completed, false) && RequestsDistinct(s.ops, s.active)
    requires p in s.ops && !s.ops[p].resolved && s.ops[p].frees == 0
    requires op == s.ops[p].(resolved := true, result := op.result)
    ensures ListsOk(s.ops[p := op], Without(s.active, p), s.completed + [p], false)
    ensures RequestsDistinct(s.ops[p := op], Without(s.active, p))
  {
    WithoutIs(s.active, p);
    NoDupSnoc(s.completed, p);
  }

  lemma ResolvedStages(ops: map<OpId, Op>, pending: seq<Command>, kernel: set<OpId>,
                       worker: Worker, broken: bool, op: Op)
    requires CommandsOk(ops, pending, false) && StagesOk(ops, pending, kernel, worker, broken)
    requires worker.Resolving? && worker.op in ops && op.resolved && op.cancelPending == ops[worker.op].cancelPending
    ensures StagesOk(ops[worker.op := op], pending, kernel, Waiting, broken)
    ensures CommandsOk(ops[worker.op := op], pending, false)
  {
    assert InHand(worker, worker.op);
  }

  lemma ResolvedKeeps(s: State)
    requires Inv(s) && s.worker.Resolving?
    ensures var p := s.worker.op;
            && Alive(s.ops, p) && !s.ops[p].resolved
            && Inv(s.(worker := Waiting,
                      ops := s.ops[p := s.ops[p].(resolved := true, result := s.worker.result)],
                      active := Without(s.active, p),
                      completed := s.completed + [p]))
  {
    var p := s.worker.op;
    assert InHand(s.worker, p);
    var op := s.ops[p].(resolved := true, result := s.worker.result);
    var s' := s.(worker := Waiting, ops := s.ops[p := op], active := Without(s.active, p),
                 completed := s.completed + [p]);
    assert Pending(s') == Pending(s);
    ResolvedLists(s, p, op);
    ResolvedStages(s.ops, Pending(s), s.kernel, s.worker, s.failed, op);
    DeliveredAlike(s.ops, s'.ops, s.delivered, s.owner, s.owner);
    FreshAlike(s.ops, p, op, s.owner, s.owner, s.reg);
  }

  lemma ResolveKeeps(s: State, ok: bool)
    requires Inv(s)
    ensures Inv(DoResolve(s, ok))
  {
    if s.worker.Resolving? {
      ResolvedKeeps(s);
      ActiveAlive(s);
      if !ok {
        ExitKeeps(DoResolve(s, true), true);
      }
    }
  }

  lemma OtherCqeKeeps(s: State, ok: bool)
    requires Inv(s)
    ensures Inv(DoOtherCqe(s, ok))
  {
    if s.worker.Waiting? && !ok {
      ExitKeeps(s, true);
    }
  }

  lemma OtherTrackKeeps(s: State, fd: int, memory: bool)
    requires Inv(s)
    ensures Inv(s.(reg := Track(s.reg, fd, memory).0))
  {
  }

  lemma ClosedKeeps(s: State, fd: int)
    requires Inv(s) && Close(s.reg, fd, true).1.Ok?
    ensures Inv(s.(reg := Close(s.reg, fd, true).0, ops := MarkClosed(s.ops, fd), owner := MarkOwner(s.owner, fd)))
  {
    FreshClose(s.ops, s.owner, s.reg, fd);
    SimilarKeeps(s, MarkClosed(s.ops, fd), MarkOwner(s.owner, fd), Close(s.reg, fd, true).0, s.holder);
  }

  lemma CloseFdKeeps(s: State, fd: int, shut: bool)
    requires Inv(s)
    ensures Inv(CloseFd(s, fd, shut))
  {
    if Close(s.reg, fd, shut).1.Ok? {
      ClosedKeeps(s, fd);
      assert CloseFd(s, fd, shut) ==
             s.(reg := Close(s.reg, fd, true).0, ops := MarkClosed(s.ops, fd), owner := MarkOwner(s.owner, fd));
    } else {
      assert CloseFd(s, fd, shut) == s;
    }
  }

  lemma OtherClaimKeeps(s: State, fd: int, generation: nat)
    requires Inv(s)
    ensures Inv(DoOtherClaim(s, fd, generation))
  {
  }

  lemma OtherReleaseKeeps(s: State, fd: int)
    requires Inv(s)
    ensures Inv(DoOtherRelease(s, fd))
  {
  }
}
