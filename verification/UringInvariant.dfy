/** What every step of the io_uring protocol keeps. */
module UringInvariant {
  import opened Common
  import opened Sockets
  import opened Uring

  // ------------------------------------------------------------------- memory

  /** An operation's flags against its lists.  It is active until it is resolved,
      then on the completed list until it is polled; its memory is freed at most
      once, and only when it is in neither list. */
  predicate OpOk(op: Op, p: OpId, active: seq<OpId>, completed: seq<OpId>, tearing: bool)
  {
    && op.frees <= 1
    && (op.consumed ==> op.resolved && (op.frees == 0 <==> op.cancelPending))
    && (p in active <==> !op.resolved && op.frees == 0)
    && (p in completed <==> op.resolved && !op.consumed && op.frees == 0)
    && (op.frees == 1 && !op.consumed ==> tearing)
  }

  ghost predicate ListsOk(ops: map<OpId, Op>, active: seq<OpId>, completed: seq<OpId>, tearing: bool)
  {
    && NoDup(active) && NoDup(completed)
    && (forall p :: p in active ==> p in ops)
    && (forall p :: p in completed ==> p in ops)
    && (forall p {:trigger ops[p]} :: p in ops ==> OpOk(ops[p], p, active, completed, tearing))
  }

  /** No two active operations are for one request. */
  ghost predicate RequestsDistinct(ops: map<OpId, Op>, active: seq<OpId>)
  {
    forall p, q :: p in active && q in active && p in ops && q in ops && p != q ==>
      ops[p].request.id != ops[q].request.id
  }

  // ----------------------------------------------------------------- commands

  function Batch(worker: Worker): seq<Command>
  {
    if worker.Processing? then worker.batch else []
  }

  /** The commands not yet carried out, oldest first. */
  function Pending(s: State): seq<Command>
  {
    Batch(s.worker) + s.commands
  }

  ghost predicate CommandsOk(ops: map<OpId, Op>, pending: seq<Command>, dropped: bool)
  {
    && NoDup(pending)
    && (forall p :: Submit(p) in pending ==> p in ops && !ops[p].resolved)
    && (forall p :: Cancel(p) in pending ==> p in ops && ops[p].cancelPending)
    && (!dropped ==> forall p :: p in ops && ops[p].cancelPending ==> Cancel(p) in pending)
  }

  predicate InHand(worker: Worker, p: OpId)
  {
    (worker.Releasing? || worker.Resolving?) && worker.op == p
  }

  /** An unresolved operation waits as a command, or is with the kernel, or is in
      the worker's hand: never in two of these, and in one unless the worker has
      failed or ended. */
  ghost predicate StagesOk(ops: map<OpId, Op>, pending: seq<Command>, kernel: set<OpId>, worker: Worker, broken: bool)
  {
    && (forall p :: p in kernel ==> p in ops && !ops[p].resolved && Submit(p) !in pending && !InHand(worker, p))
    && (forall p :: InHand(worker, p) ==> p in ops && !ops[p].resolved && Submit(p) !in pending)
    && (!broken ==> forall p :: p in ops && !ops[p].resolved ==>
          Submit(p) in pending || p in kernel || InHand(worker, p))
  }

  /** Cancel commands that the worker's current pass will not reach are for
      unresolved operations, so an orderly end leaves none for a polled one. */
  ghost predicate LateCancelsOk(ops: map<OpId, Op>, commands: seq<Command>, worker: Worker, failed: bool)
  {
    worker.Processing? || (worker.Exited? && !failed) ==>
      forall p :: Cancel(p) in commands ==> p in ops && !ops[p].resolved
  }

  // --------------------------------------------------------------- deliveries

  ghost predicate DeliveredOk(ops: map<OpId, Op>, delivered: seq<Delivery>, owner: Owner)
  {
    && (forall i, j :: 0 <= i < j < |delivered| ==> delivered[i].op != delivered[j].op)
    && (forall d :: d in delivered ==> d.op in ops && ops[d.op].consumed && (owner.Polled? ==> owner.op != d.op))
    && (owner.Polled? ==> owner.op in ops && ops[owner.op].consumed
                          && owner.request == ops[owner.op].request && owner.result == ops[owner.op].result)
    && (forall p :: p in ops && ops[p].consumed ==>
          (owner.Polled? && owner.op == p) || exists d :: d in delivered && d.op == p)
    && (forall d :: d in delivered ==> d.result == if d.closed then -ESTALE else ops[d.op].result)
    && (forall d :: d in delivered && d.closed ==> ops[d.op].closed)
  }

  /** A request's descriptor is outdated once it was closed, and current before. */
  predicate FreshOk(r: Request, closed: bool, reg: Registry)
  {
    if !OnSocket(r) then !closed
    else
      && r.generation <= MAX_GENERATION
      && (if closed then Outdated(reg, r.fd, r.generation)
          else r.fd in reg && reg[r.fd].active && reg[r.fd].generation == r.generation)
  }

  ghost predicate AllFresh(ops: map<OpId, Op>, owner: Owner, reg: Registry)
  {
    && Valid(reg)
    && (forall p {:trigger ops[p]} :: p in ops ==> FreshOk(ops[p].request, ops[p].closed, reg))
    && (owner.Claimed? ==> FreshOk(owner.request, owner.closed, reg))
  }

  // ---------------------------------------------------------------- the whole

  predicate TearingDown(owner: Owner, worker: Worker)
  {
    worker.Exited? && (owner.Stopping? || owner.Gone?)
  }

  predicate ThreadsOk(s: State)
  {
    && (s.owner.Gone? ==> s.worker.Exited?)
    && (s.worker.Processing? && s.worker.failing ==> s.failed)
    && (s.worker.Exited? ==> s.kernel == {})
    && (s.stopRequested <==> s.owner.Stopping? || s.owner.Gone?)
    && (s.owner.Gone? ==> s.active == [] && s.completed == [])
  }

  /** A polled operation still waiting for its cancel command when the worker
      ended was left by a worker that failed. */
  ghost predicate LeaksOk(ops: map<OpId, Op>, tearing: bool, failed: bool)
  {
    tearing && !failed ==> forall p :: p in ops ==> !(ops[p].consumed && ops[p].cancelPending)
  }

  ghost predicate Inv(s: State)
  {
    && ListsOk(s.ops, s.active, s.completed, TearingDown(s.owner, s.worker))
    && RequestsDistinct(s.ops, s.active)
    && CommandsOk(s.ops, Pending(s), TearingDown(s.owner, s.worker))
    && StagesOk(s.ops, Pending(s), s.kernel, s.worker, s.failed || s.worker.Exited?)
    && LateCancelsOk(s.ops, s.commands, s.worker, s.failed)
    && LeaksOk(s.ops, TearingDown(s.owner, s.worker), s.failed)
    && DeliveredOk(s.ops, s.delivered, s.owner)
    && AllFresh(s.ops, s.owner, s.reg)
    && ThreadsOk(s)
    && !s.misuse
  }
}
