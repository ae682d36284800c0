/** Which lists objects go to and come from: the order in which caches are filled, used
    and drained. */
module MemoryLists {
  import opened Memory
  import opened MemoryInvariant
  import opened MemoryUse

  function Min(a: nat, b: nat): nat
  {
    if a <= b then a else b
  }

  function Backwards<T>(s: seq<T>): seq<T>
  {
    if s == [] then [] else [s[|s| - 1]] + Backwards(s[..|s| - 1])
  }

  // ------------------------------------------------------------------- draining

  /** The object is on its span's central list, or its span has gone. */
  predicate Homed(s: State, o: Obj)
  {
    o.span !in s.spans || o in s.spans[o.span].central
  }

  /** No span is new, and what was on a central list still is, or its span has gone. */
  ghost predicate CentralKept(s: State, s': State)
  {
    forall id {:trigger s'.spans[id]} :: id in s'.spans ==>
      id in s.spans && forall o :: o in s.spans[id].central ==> o in s'.spans[id].central
  }

  /** The first n objects of the cache went home, in order; spans this left empty went. */
  ghost predicate Drained(s: State, s': State, k: Key, n: nat)
  {
    var list := At(s.caches, k).list;
    && n <= |list| && At(s'.caches, k).list == list[n..] && OthersKept(s, s', k) && s'.remote == s.remote
    && (forall i :: 0 <= i < n ==> Homed(s', list[i]))
    && CentralKept(s, s') && (Tidy(s) ==> Tidy(s'))
  }

  lemma NoneDrained(s: State, k: Key)
    ensures Drained(s, s, k, 0)
  {
  }

  lemma DrainedMore(s: State, s1: State, s': State, k: Key, n: nat)
    requires Drained(s, s1, k, n) && Drained(s1, s', k, 1)
    ensures Drained(s, s', k, n + 1)
  {
    var list := At(s.caches, k).list;
    assert list[n..][0] == list[n] && list[n..][1..] == list[n + 1..];
    forall i | 0 <= i < n + 1
      ensures Homed(s', list[i])
    {
      assert i < n ==> Homed(s1, list[i]);
    }
  }

  lemma OneDrained(s: State, k: Key)
    requires At(s.caches, k).list != [] && At(s.caches, k).list[0].span in s.spans
    ensures Drained(s, Reclaim(ToCentral(s, k), At(s.caches, k).list[0].span), k, 1)
  {
    var o := At(s.caches, k).list[0];
    var s1 := ToCentral(s, k);
    var s' := Reclaim(s1, o.span);
    assert o in s1.spans[o.span].central;
    forall id | id in s'.spans
      ensures id in s.spans && forall x :: x in s.spans[id].central ==> x in s'.spans[id].central
      ensures Tidy(s) ==> !Empty(s'.spans[id])
    {
    }
  }

  lemma HeadReturned(s: State, k: Key)
    requires Sane(s) && At(s.caches, k).list != []
    ensures var o := At(s.caches, k).list[0];
            && o.span in s.spans
            && var s' := Reclaim(ToCentral(s, k), o.span);
               Sane(s') && Moved(s, s', k) && Drained(s, s', k, 1)
  {
    ToCentralSane(s, k);
    ToCentralMoves(s, k);
    ReclaimSane(ToCentral(s, k), At(s.caches, k).list[0].span);
    OneDrained(s, k);
  }

  // ------------------------------------------------------------------ giving back

  /** Where a freed object goes: to the front of its owner's cache, or of the owner's queue
      when another processor frees it.  When that list was full the freeing processor's
      own cache is drained. */
  ghost predicate Freed(s: State, s': State, o: Obj, p: nat)
    requires o in s.headers && o.span in s.spans
  {
    var c := s.spans[o.span].sizeClass;
    var owner, mine := Key(Clamp(s.headers[o].owner), c), Key(Clamp(p), c);
    var list := if mine == owner then [o] + At(s.caches, mine).list else At(s.caches, mine).list;
    var full := |if mine == owner then At(s.caches, owner).list else At(s.remote, owner).list| >= CACHE_MAX;
    var n := if full then Min(REFILL, |list|) else 0;
    && At(s'.caches, mine).list == list[n..] && OthersKept(s, s', mine)
    && (forall i :: 0 <= i < n ==> Homed(s', list[i]))
    && At(s'.remote, owner).list == (if mine == owner then [] else [o]) + At(s.remote, owner).list
    && (forall j :: j != owner ==> At(s'.remote, j) == At(s.remote, j))
    && s'.spans.Keys <= s.spans.Keys && s'.large == s.large && s'.largeHeaders == s.largeHeaders
  }

  lemma TakenBackTidy(s: State, o: Obj, home: bool)
    requires Placed(s) && Tidy(s) && o in s.headers && o.span in s.spans
    ensures Tidy(TakeBack(s, o, home))
  {
    assert SpanOk(s.spans[o.span], o.span, s.place);
  }

  lemma FreedPlain(s: State, o: Obj, p: nat)
    requires o in s.headers && o.span in s.spans
    requires var c := s.spans[o.span].sizeClass;
             var owner := Key(Clamp(s.headers[o].owner), c);
             |if Clamp(p) == owner.p then At(s.caches, owner).list else At(s.remote, owner).list| < CACHE_MAX
    ensures Freed(s, TakeBack(s, o, Clamp(p) == Clamp(s.headers[o].owner)), o, p)
  {
  }

  lemma FreedDrained(s: State, s1: State, s': State, o: Obj, p: nat)
    requires o in s.headers && o.span in s.spans && s1 == TakeBack(s, o, Clamp(p) == Clamp(s.headers[o].owner))
    requires var c := s.spans[o.span].sizeClass;
             var owner, mine := Key(Clamp(s.headers[o].owner), c), Key(Clamp(p), c);
             && |if mine == owner then At(s.caches, owner).list else At(s.remote, owner).list| >= CACHE_MAX
             && Drained(s1, s', mine, Min(REFILL, |At(s1.caches, mine).list|)) && Moved(s1, s', mine)
    ensures Freed(s, s', o, p)
  {
  }

  // -------------------------------------------------------------------- filling

  /** The first n free objects of the span have gone to the cache, the last one on top. */
  ghost predicate Taking(s: State, s': State, id: SpanId, k: Key, n: nat)
  {
    && id in s.spans && n <= |s.spans[id].central| && id in s'.spans && s'.spans[id].sizeClass == k.c
    && Moved(s, s', k) && s'.remote == s.remote && s'.spans == s.spans[id := s'.spans[id]]
    && At(s'.caches, k).list == Backwards(s.spans[id].central[..n]) + At(s.caches, k).list
    && s'.spans[id].central == s.spans[id].central[n..]
    && (n > 0 ==> !Empty(s'.spans[id]))
  }

  lemma NoneTaken(s: State, id: SpanId, k: Key)
    requires id in s.spans && s.spans[id].sizeClass == k.c
    ensures Taking(s, s, id, k, 0)
  {
    assert [] + At(s.caches, k).list == At(s.caches, k).list;
  }

  lemma OneTaken(s: State, id: SpanId, k: Key)
    requires Placed(s) && id in s.spans && s.spans[id].central != [] && s.spans[id].sizeClass == k.c
    ensures Taking(s, TakeCentral(s, id, k), id, k, 1)
  {
    assert SpanOk(s.spans[id], id, s.place);
    OneMore(s.spans[id].central, 0);
    assert s.spans[id].central[..0] == [];
  }

  lemma TakingMore(s: State, s1: State, s': State, id: SpanId, k: Key, n: nat)
    requires Taking(s, s1, id, k, n) && Taking(s1, s', id, k, 1)
    ensures Taking(s, s', id, k, n + 1)
  {
    var source := s.spans[id].central;
    OneMore(source, n);
    assert s1.spans[id].central[..1] == [source[n]];
    OneMore(s1.spans[id].central, 0);
    assert s1.spans[id].central[..0] == [];
  }

  /** The free objects a refill can take: a span's central list, or a new span's. */
  ghost predicate SourceOf(s: State, c: nat, mapped: seq<Obj>, source: seq<Obj>)
  {
    || (mapped != [] && source == mapped)
    || exists id :: id in s.spans && s.spans[id].sizeClass == c && s.spans[id].central == source
  }

  /** An empty cache is filled from the queue of objects freed elsewhere and then from one
      source, to REFILL objects or as far as these reach; the last one taken is on top. */
  ghost predicate Refilled(s: State, s': State, k: Key, source: seq<Obj>)
  {
    var queue := At(s.remote, k).list;
    var n := Min(REFILL, |queue|);
    && At(s'.caches, k).list == Backwards(source[..Min(REFILL - n, |source|)]) + Backwards(queue[..n])
    && At(s'.remote, k).list == queue[n..]
    && forall j :: j != k ==> At(s'.remote, j) == At(s.remote, j)
  }

  lemma OneMore<T>(s: seq<T>, i: nat)
    requires i < |s|
    ensures Backwards(s[..i + 1]) == [s[i]] + Backwards(s[..i])
    ensures s[i..] == [s[i]] + s[i + 1..]
  {
    assert s[..i + 1][..i] == s[..i];
  }

  lemma {:induction false} BackwardsLength<T>(s: seq<T>)
    ensures |Backwards(s)| == |s|
  {
    if s != [] {
      BackwardsLength(s[..|s| - 1]);
    }
  }

  lemma RefilledLength(s: State, s': State, k: Key, source: seq<Obj>)
    requires Refilled(s, s', k, source)
    ensures |At(s'.caches, k).list| <= REFILL
    ensures source != [] || At(s.remote, k).list != [] ==> At(s'.caches, k).list != []
  {
    var queue := At(s.remote, k).list;
    var n := Min(REFILL, |queue|);
    BackwardsLength(queue[..n]);
    BackwardsLength(source[..Min(REFILL - n, |source|)]);
  }

  /** The first objects of the queue have come home to an empty cache. */
  ghost predicate Brought(s: State, s': State, k: Key, n: nat)
  {
    var queue := At(s.remote, k).list;
    && n == Min(REFILL, |queue|) == |At(s'.caches, k).list| && At(s'.caches, k).list == Backwards(queue[..n])
    && At(s'.remote, k).list == queue[n..] && (forall j :: j != k ==> At(s'.remote, j) == At(s.remote, j))
    && Moved(s, s', k) && s'.spans == s.spans && s'.central == s.central && s'.all == s.all
  }

  lemma BroughtIs(s: State, s': State, k: Key, n: nat)
    requires Brought(s, s', k, n) && Tidy(s)
    ensures Refilled(s, s', k, []) && Tidy(s') && Moved(s, s', k)
  {
    assert Backwards<Obj>([]) + At(s'.caches, k).list == At(s'.caches, k).list;
  }

  /** Only the given span may have no object in use or in a cache. */
  ghost predicate TidyBut(s: State, id: SpanId)
  {
    forall j {:trigger s.spans[j]} :: j in s.spans && j != id ==> !Empty(s.spans[j])
  }

  /** The queue's first objects are home, and nothing else has moved between lists. */
  ghost predicate Home(s: State, s': State, k: Key, n: nat)
  {
    var queue := At(s.remote, k).list;
    && n == Min(REFILL, |queue|) && At(s'.caches, k).list == Backwards(queue[..n])
    && At(s'.remote, k).list == queue[n..] && (forall j :: j != k ==> At(s'.remote, j) == At(s.remote, j))
    && Moved(s, s', k)
  }

  lemma BroughtHome(s: State, s1: State, s': State, k: Key, n: nat)
    requires Brought(s, s1, k, n) && Moved(s1, s', k) && s'.caches == s1.caches && s'.remote == s1.remote
    ensures Home(s, s', k, n)
  {
    MovedAgain(s, s1, s', k);
  }

  lemma TakenRefills(s: State, s1: State, s': State, k: Key, id: SpanId, count: nat, n: nat)
    requires Home(s, s1, k, count) && Taking(s1, s', id, k, n) && n == Min(REFILL - count, |s1.spans[id].central|)
    ensures Refilled(s, s', k, s1.spans[id].central)
  {
  }

  lemma TakenTidy(s: State, s': State, k: Key, id: SpanId, n: nat)
    requires TidyBut(s, id) && Taking(s, s', id, k, n) && n > 0
    ensures Tidy(s')
  {
  }

  lemma FilledUp(s: State, s1: State, s': State, k: Key, id: SpanId, count: nat, n: nat)
    requires Home(s, s1, k, count) && TidyBut(s1, id) && count < REFILL
    requires Taking(s1, s', id, k, n) && n == Min(REFILL - count, |s1.spans[id].central|) && n > 0
    ensures Refilled(s, s', k, s1.spans[id].central) && Moved(s, s', k) && Tidy(s')
  {
    TakenRefills(s, s1, s', k, id, count, n);
    TakenTidy(s1, s', k, id, n);
    MovedAgain(s, s1, s', k);
  }
}
