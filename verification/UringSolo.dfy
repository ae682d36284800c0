/** One operation on its own: from a quiet handle, an accepted operation that nobody
    interrupts goes through every stage and ends with the kernel's own result. */
module UringSolo {
  import opened Common
  import opened Paths
  import opened Sockets
  import opened Uring
  import opened UringInvariant
  import opened UringSteps
  import opened UringTheorems
  import opened UringAnswers

  /** The owner has claimed a descriptor that is still open, and everyone else rests. */
  ghost predicate Ready(s: State, p: OpId)
  {
    && Inv(s) && s.worker.Waiting? && s.owner.Claimed? && !s.owner.closed && !s.failed && !s.stopRequested
    && s.commands == [] && s.completed == [] && p !in s.ops
    && Find(s.ops, s.active, s.owner.request.id) == |s.active|
  }

  function Fresh(r: Request): Op
  {
    Op(r, 0, false, false, false, 0, 0, false)
  }

  /** With the kernel: the operation is prepared and nothing else has changed. */
  ghost function WithKernel(s: State, p: OpId): State
    requires s.owner.Claimed?
  {
    var r := s.owner.request;
    s.(ops := s.ops[p := Fresh(r)], active := [p] + s.active, kernel := s.kernel + {p}, owner := Free,
       holder := if OnSocket(r) then s.holder[r.fd := ByOp(p)] else s.holder)
  }

  lemma SoloEnqueue(s: State, p: OpId)
    requires Ready(s, p)
    ensures Next(s, Enqueue(p, true, true)) == WithKernel(s, p).(kernel := s.kernel, commands := [Submit(p)])
  {
    assert UseActive(s) == s;
    assert s.commands + [Submit(p)] == [Submit(p)];
    assert Next(s, Enqueue(p, true, true)) == DoEnqueue(s, p, true, true);
  }

  lemma SoloFeed(k: State, s1: State, p: OpId)
    requires k.worker.Waiting? && !k.failed && !k.stopRequested && k.commands == [] && Alive(k.ops, p) && p in k.kernel
    requires s1 == k.(kernel := s1.kernel, commands := [Submit(p)]) && k.kernel == s1.kernel + {p}
    ensures Next(Next(Next(s1, Detach), RunCommand(true)), EndCommands(true)) == k
  {
    var s2 := Next(s1, Detach);
    assert s2 == s1.(worker := Processing([Submit(p)], false), commands := []);
    assert Use(s2, p) == s2 && [Submit(p)][1..] == [];
    var s3 := Next(s2, RunCommand(true));
    assert s3 == k.(worker := Processing([], false));
  }

  lemma SoloSubmit(s: State, p: OpId)
    requires Ready(s, p)
    ensures Next(Next(Next(Next(s, Enqueue(p, true, true)), Detach), RunCommand(true)), EndCommands(true))
         == WithKernel(s, p)
  {
    SoloEnqueue(s, p);
    SoloFeed(WithKernel(s, p), WithKernel(s, p).(kernel := s.kernel, commands := [Submit(p)]), p);
  }

  /** Published: resolved with the result, its claim given back. */
  ghost function Published(s: State, p: OpId, result: int): State
    requires s.owner.Claimed?
  {
    var r := s.owner.request;
    var op := Fresh(r).(result := result, resolved := true, releases := if OnSocket(r) then 1 else 0);
    s.(ops := s.ops[p := op], completed := [p], owner := Free,
       reg := if OnSocket(r) then Release(s.reg, r.fd, r.generation) else s.reg,
       holder := if OnSocket(r) then s.holder - {r.fd} else s.holder)
  }

  /** The same, not yet published. */
  ghost function Answered(s: State, p: OpId, result: int): State
    requires s.owner.Claimed?
  {
    var s' := Published(s, p, result);
    s'.(worker := Resolving(p, result), active := [p] + s.active, completed := [],
        ops := s.ops[p := s'.ops[p].(resolved := false, result := 0)])
  }

  /** The state with the kernel's answer noted, and an accepted connection tracked. */
  ghost function Noted(s: State, p: OpId, result: int, memory: bool): State
    requires s.owner.Claimed?
  {
    if s.owner.request.kind.Accept? && result >= 0 then
      var (reg, status) := Track(s.reg, result, memory);
      s.(reg := reg, answers := s.answers[p := Answer(result, status.Ok?)])
    else s.(answers := s.answers[p := Answer(result, true)])
  }

  lemma NotedReady(s: State, p: OpId, result: int, memory: bool)
    requires Ready(s, p)
    ensures Ready(Noted(s, p, result, memory), p)
  {
    var t := Noted(s, p, result, memory);
    FreshStep(s.ops, s.owner, s.reg, DoTrack(result, memory));
    assert t.reg == s.reg || t.reg == Sockets.Do(s.reg, DoTrack(result, memory));
    AnswersElsewhere(s, t.answers);
    RegistryKeeps(s.(answers := t.answers), t.reg);
    assert t == s.(answers := t.answers).(reg := t.reg);
  }

  lemma AnswersElsewhere(s: State, answers: map<OpId, Answer>)
    requires Inv(s)
    ensures Inv(s.(answers := answers))
  {
    assert Pending(s.(answers := answers)) == Pending(s);
  }

  lemma SoloTake(s: State, p: OpId, result: int, memory: bool)
    requires Ready(s, p) && p !in s.kernel
    ensures var t := Noted(s, p, result, memory);
            Next(WithKernel(s, p), TakeCqe(p, result, memory)) ==
            WithKernel(t, p).(kernel := s.kernel, worker := Releasing(p, Reported(s.owner.request, t.answers[p])))
  {
    var k, t := WithKernel(s, p), Noted(s, p, result, memory);
    assert s.kernel + {p} - {p} == s.kernel;
    var s' := DoTakeCqe(k, p, result, memory);
    TakeNotes(s, k, p, result, memory);
    assert s' == k.(kernel := s.kernel, reg := t.reg, answers := t.answers, worker := s'.worker);
  }

  lemma TakeNotes(s: State, k: State, p: OpId, result: int, memory: bool)
    requires Ready(s, p) && k == WithKernel(s, p)
    ensures var t, s' := Noted(s, p, result, memory), DoTakeCqe(k, p, result, memory);
            && s' == k.(kernel := k.kernel - {p}, reg := t.reg, answers := t.answers, worker := s'.worker)
            && s'.worker == Releasing(p, Reported(s.owner.request, t.answers[p]))
  {
    assert Use(k, p) == k;
  }

  lemma SoloRelease(s: State, p: OpId, result: int)
    requires Ready(s, p)
    ensures Next(WithKernel(s, p).(kernel := s.kernel, worker := Releasing(p, result)), ReleaseClaim)
         == Answered(s, p, result)
  {
    var s1 := WithKernel(s, p).(kernel := s.kernel, worker := Releasing(p, result));
    assert Use(s1, p) == s1;
    if OnSocket(s.owner.request) {
      assert s1.holder - {s.owner.request.fd} == s.holder - {s.owner.request.fd};
      assert s1.ops[p := s1.ops[p].(releases := 1)] == s.ops[p := s1.ops[p].(releases := 1)];
    }
  }

  lemma AllAlive(s: State, p: OpId, result: int)
    requires Ready(s, p)
    ensures UseActive(Use(Answered(s, p, result), p)) == Answered(s, p, result)
  {
    var s1 := Answered(s, p, result);
    forall q | q in s1.active
      ensures Alive(s1.ops, q)
    {
      assert q == p || q in s.active;
    }
  }

  lemma SoloPublish(s: State, p: OpId, result: int)
    requires Ready(s, p)
    ensures Next(Answered(s, p, result), Resolve(true)) == Published(s, p, result)
  {
    var s1, s2 := Answered(s, p, result), Published(s, p, result);
    AllAlive(s, p, result);
    assert Next(s1, Resolve(true)) == DoResolve(s1, true);
    assert ([p] + s.active)[1..] == s.active && Without([p] + s.active, p) == s.active;
    assert s1.ops[p := s2.ops[p]] == s.ops[p := s2.ops[p]];
  }

  /** Delivered, and freed. */
  ghost function Delivered(s: State, p: OpId, result: int): State
    requires s.owner.Claimed?
  {
    var s' := Published(s, p, result);
    s'.(ops := s.ops[p := FreeOp(s'.ops[p].(consumed := true))], completed := [],
        delivered := s.delivered + [Delivery(p, result, false)])
  }

  lemma SoloPoll(s: State, p: OpId, result: int, shut: bool)
    requires Ready(s, p) && !RequestIsStale(Published(s, p, result).reg, s.owner.request)
    ensures Next(Next(Published(s, p, result), Poll), Deliver(shut)) == Delivered(s, p, result)
  {
    var s1, s3 := Published(s, p, result), Delivered(s, p, result);
    assert Use(s1, p) == s1 && [p][1..] == [];
    assert s1.ops[p := s3.ops[p]] == s3.ops;
    assert Next(s1, Poll) == s3.(delivered := s.delivered, owner := Polled(p, s.owner.request, result));
  }

  function Steps(p: OpId, result: int, memory: bool, shut: bool): seq<Step>
  {
    [Enqueue(p, true, true), Detach, RunCommand(true), EndCommands(true)]
    + ([TakeCqe(p, result, memory), ReleaseClaim] + ([Resolve(true)] + [Poll, Deliver(shut)]))
  }

  lemma ReadyFacts(s: State, p: OpId, result: int)
    requires Ready(s, p)
    ensures p !in s.kernel && !RequestIsStale(Published(s, p, result).reg, s.owner.request)
  {
    assert FreshOk(s.owner.request, false, s.reg);
  }

  lemma SoloPath(s: State, s1: State, s2: State, s3: State, s4: State, p: OpId, result: int, memory: bool, shut: bool)
    requires Next(Next(Next(Next(s, Enqueue(p, true, true)), Detach), RunCommand(true)), EndCommands(true)) == s1
    requires Next(Next(s1, TakeCqe(p, result, memory)), ReleaseClaim) == s2 && Next(s2, Resolve(true)) == s3
    requires Next(Next(s3, Poll), Deliver(shut)) == s4
    ensures Reaches(s, Steps(p, result, memory, shut), s4)
  {
    PathTwo(Next, s3, Poll, Deliver(shut));
    PathOne(Next, s2, Resolve(true), [Poll, Deliver(shut)], s4);
    PathTwo(Next, s1, TakeCqe(p, result, memory), ReleaseClaim);
    PathThen(Next, s1, [TakeCqe(p, result, memory), ReleaseClaim], s2, [Resolve(true)] + [Poll, Deliver(shut)], s4);
    PathFour(Next, s, Enqueue(p, true, true), Detach, RunCommand(true), EndCommands(true));
    PathThen(Next, s, [Enqueue(p, true, true), Detach, RunCommand(true), EndCommands(true)], s1,
             [TakeCqe(p, result, memory), ReleaseClaim] + ([Resolve(true)] + [Poll, Deliver(shut)]), s4);
  }

  /** Delivered with the result, freed, and its claim given back. */
  ghost predicate Over(s: State, p: OpId, result: int, s': State)
    requires s.owner.Claimed?
  {
    var r := s.owner.request;
    && p in s'.ops && s'.delivered == s.delivered + [Delivery(p, result, false)] && s'.ops[p].frees == 1
    && s'.active == s.active && s'.kernel == s.kernel && s'.worker == s.worker && s'.owner.Free?
    && (OnSocket(r) ==> s'.ops[p].releases == 1)
    && (OnSocket(r) && UringTheorems.Claimed(s) ==> Claimable(s'.reg, r.fd, r.generation))
  }

  lemma SoloEnds(s: State, p: OpId, result: int)
    requires Ready(s, p)
    ensures Over(s, p, result, Delivered(s, p, result))
  {
    var r := s.owner.request;
    if OnSocket(r) {
      assert FreshOk(r, false, s.reg);
      assert UringTheorems.Claimed(s) ==> HoldsSlot(s.reg, s.holder, r, ByOwner);
    }
  }

  /** Tracking an accepted connection leaves the claim alone. */
  lemma NotedClaims(s: State, p: OpId, result: int, memory: bool)
    requires Ready(s, p) && UringTheorems.Claimed(s)
    ensures UringTheorems.Claimed(Noted(s, p, result, memory))
  {
    TrackClaims(s, result, memory);
  }

  /** The operation is delivered with the kernel's answer, freed, its claim given
      back, and the handle is as quiet as before; an accepted connection that is
      delivered is tracked. */
  lemma SoloOperation(s: State, p: OpId, result: int, memory: bool, shut: bool)
    requires Ready(s, p)
    ensures var t := Noted(s, p, result, memory);
            var told := Reported(s.owner.request, t.answers[p]);
            && Reaches(s, Steps(p, result, memory, shut), Delivered(t, p, told))
            && Over(s, p, told, Delivered(t, p, told))
            && (s.owner.request.kind.Accept? && told >= 0 ==>
                  told == result && Open(Delivered(t, p, told).reg, result))
  {
    var t := Noted(s, p, result, memory);
    var told := Reported(s.owner.request, t.answers[p]);
    NotedReady(s, p, result, memory);
    ReadyFacts(s, p, result);
    ReadyFacts(t, p, told);
    SoloSubmit(s, p);
    SoloTake(s, p, result, memory);
    SoloRelease(t, p, told);
    SoloPublish(t, p, told);
    SoloPoll(t, p, told, shut);
    SoloPath(s, WithKernel(s, p), Answered(t, p, told), Published(t, p, told), Delivered(t, p, told),
             p, result, memory, shut);
    SoloOver(s, t, p, result, memory);
  }

  predicate Open(reg: Registry, fd: int)
  {
    fd in reg && reg[fd].active
  }

  lemma StaysOpen(reg: Registry, fd: int, generation: nat, other: int)
    requires Open(reg, other)
    ensures Open(Release(reg, fd, generation), other)
  {
  }

  lemma SoloOpen(s: State, t: State, p: OpId, result: int, memory: bool)
    requires s.owner.Claimed? && OnSocket(s.owner.request) && t == Noted(s, p, result, memory)
    requires s.owner.request.kind.Accept? && Reported(s.owner.request, t.answers[p]) >= 0
    ensures var told := Reported(s.owner.request, t.answers[p]);
            told == result && Open(Delivered(t, p, told).reg, result)
  {
    assert Open(t.reg, result);
    StaysOpen(t.reg, s.owner.request.fd, s.owner.request.generation, result);
  }

  lemma SoloOver(s: State, t: State, p: OpId, result: int, memory: bool)
    requires Ready(s, p) && t == Noted(s, p, result, memory) && Ready(t, p)
    ensures var told := Reported(s.owner.request, t.answers[p]);
            && Over(s, p, told, Delivered(t, p, told))
            && (s.owner.request.kind.Accept? && told >= 0 ==>
                  told == result && Open(Delivered(t, p, told).reg, result))
  {
    var told := Reported(s.owner.request, t.answers[p]);
    SoloEnds(t, p, told);
    if s.owner.request.kind.Accept? && told >= 0 {
      SoloOpen(s, t, p, result, memory);
    }
    if UringTheorems.Claimed(s) {
      NotedClaims(s, p, result, memory);
    }
  }
}
