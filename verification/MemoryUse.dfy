/** What callers hold, and the totals the allocator reports about it. */
module MemoryUse {
  import opened Common
  import opened SizeClass
  import opened Memory
  import opened MemoryInvariant

  // --------------------------------------------------------------------- sums

  ghost function Sum(m: map<Ptr, nat>): nat
  {
    if m == map[] then 0
    else
      var k :| k in m;
      m[k] + Sum(m - {k})
  }

  lemma {:induction false} SumWithout(m: map<Ptr, nat>, k: Ptr)
    requires k in m
    ensures Sum(m) == m[k] + Sum(m - {k})
    decreases |m|
  {
    var j :| j in m && Sum(m) == m[j] + Sum(m - {j});
    if j != k {
      SumWithout(m - {j}, k);
      SumWithout(m - {k}, j);
      assert m - {j} - {k} == m - {k} - {j};
    }
  }

  lemma SumAdd(m: map<Ptr, nat>, k: Ptr, n: nat)
    requires k !in m
    ensures Sum(m[k := n]) == Sum(m) + n && |m[k := n]| == |m| + 1
  {
    SumWithout(m[k := n], k);
    assert m[k := n] - {k} == m;
    assert m[k := n].Keys == m.Keys + {k};
  }

  lemma SumRemove(m: map<Ptr, nat>, k: Ptr)
    requires k in m
    ensures Sum(m - {k}) == Sum(m) - m[k] && |m - {k}| == |m| - 1
  {
    SumWithout(m, k);
    assert (m - {k}).Keys == m.Keys - {k};
  }

  lemma SumChange(m: map<Ptr, nat>, k: Ptr, n: nat)
    requires k in m
    ensures Sum(m[k := n]) == Sum(m) - m[k] + n && |m[k := n]| == |m|
  {
    SumWithout(m, k);
    SumWithout(m[k := n], k);
    assert m[k := n] - {k} == m - {k};
    assert m[k := n].Keys == m.Keys;
  }

  // ---------------------------------------------------------------- invariant

  predicate HeaderOk(h: Header, o: Obj, span: Span, live: map<Ptr, nat>)
  {
    && h.capacity == Capacity(span.sizeClass) && h.owner == span.owner
    && (h.inUse <==> Small(o) in live)
    && (h.inUse ==> live[Small(o)] == h.requested <= h.capacity)
  }

  ghost predicate HeaderAt(headers: map<Obj, Header>, spans: map<SpanId, Span>, live: map<Ptr, nat>, o: Obj)
  {
    o in headers ==> o.span in spans && HeaderOk(headers[o], o, spans[o.span], live)
  }

  ghost predicate HeadersOk(headers: map<Obj, Header>, spans: map<SpanId, Span>, live: map<Ptr, nat>)
  {
    forall o {:trigger HeaderAt(headers, spans, live, o)} :: HeaderAt(headers, spans, live, o)
  }

  ghost predicate ActiveOk(place: map<Obj, Place>, live: map<Ptr, nat>)
  {
    forall o {:trigger Small(o)} :: Small(o) in live <==> o in place && place[o].Active?
  }

  ghost predicate LargeOk(large: seq<nat>, headers: map<nat, Header>, live: map<Ptr, nat>)
  {
    && (forall id {:trigger multiset(large)[id]} :: multiset(large)[id] == Once(id in headers))
    && (forall id {:trigger Large(id)} :: Large(id) in live <==> id in headers)
    && (forall id {:trigger headers[id]} :: id in headers ==>
          headers[id].inUse && Large(id) in live && live[Large(id)] == headers[id].requested <= headers[id].capacity)
  }

  ghost predicate TotalsOk(s: State)
  {
    s.activeBytes == Sum(s.live) <= SIZE_MAX && s.activeObjects == |s.live| <= SIZE_MAX
  }

  ghost predicate LiveOk(s: State)
  {
    && HeadersOk(s.headers, s.spans, s.live)
    && ActiveOk(s.place, s.live)
    && LargeOk(s.large, s.largeHeaders, s.live)
    && TotalsOk(s)
  }

  /** A processor's cache holds at most CACHE_MAX objects. */
  ghost predicate Bounded(s: State)
  {
    forall k {:trigger At(s.caches, k)} :: |At(s.caches, k).list| <= CACHE_MAX
  }

  /** Between calls every mapped span has an object in use or in a cache. */
  ghost predicate Tidy(s: State)
  {
    forall id {:trigger s.spans[id]} :: id in s.spans ==> !Empty(s.spans[id])
  }

  ghost predicate Inv(s: State)
  {
    Placed(s) && LiveOk(s) && Bounded(s) && Tidy(s)
  }

  // ------------------------------------------------------- moves of free objects

  /** What moving free objects about leaves alone. */
  ghost predicate FreeMoves(s: State, s': State)
  {
    && s'.live == s.live && s'.activeBytes == s.activeBytes && s'.activeObjects == s.activeObjects
    && s'.large == s.large && s'.largeHeaders == s.largeHeaders
  }

  lemma HeadersMoved(headers: map<Obj, Header>, spans: map<SpanId, Span>, live: map<Ptr, nat>, id: SpanId, span: Span)
    requires HeadersOk(headers, spans, live) && id in spans
    requires span.sizeClass == spans[id].sizeClass && span.owner == spans[id].owner
    ensures HeadersOk(headers, spans[id := span], live)
  {
    var spans' := spans[id := span];
    forall o
      ensures HeaderAt(headers, spans', live, o)
    {
      assert HeaderAt(headers, spans, live, o);
    }
  }

  lemma ActiveMoved(place: map<Obj, Place>, live: map<Ptr, nat>, o: Obj, r: Place)
    requires ActiveOk(place, live) && o in place && !place[o].Active? && !r.Active?
    ensures ActiveOk(place[o := r], live)
  {
  }

  lemma TakeRemoteLive(s: State, k: Key)
    requires Placed(s) && LiveOk(s) && At(s.remote, k).list != []
    ensures LiveOk(TakeRemote(s, k))
  {
    CachesPopped(s.remote, s.place, true, k, InCache(k));
    ActiveMoved(s.place, s.live, At(s.remote, k).list[0], InCache(k));
  }

  lemma TakeCentralLive(s: State, id: SpanId, k: Key)
    requires Placed(s) && LiveOk(s) && id in s.spans && s.spans[id].central != []
    ensures LiveOk(TakeCentral(s, id, k))
  {
    FromCentral(s.spans[id], id, s.place, InCache(k));
    ActiveMoved(s.place, s.live, s.spans[id].central[0], InCache(k));
    HeadersMoved(s.headers, s.spans, s.live, id, TakeCentral(s, id, k).spans[id]);
  }

  lemma ToCentralLive(s: State, k: Key)
    requires Placed(s) && LiveOk(s) && At(s.caches, k).list != []
    ensures At(s.caches, k).list[0].span in s.spans
    ensures LiveOk(ToCentral(s, k))
  {
    var o := At(s.caches, k).list[0];
    CachesPopped(s.caches, s.place, false, k, Central);
    HasSpan(s.place, s.spans, o);
    ActiveMoved(s.place, s.live, o, Central);
    HeadersMoved(s.headers, s.spans, s.live, o.span, ToCentral(s, k).spans[o.span]);
  }

  lemma ReclaimHeaders(s: State, id: SpanId)
    requires HeadersOk(s.headers, s.spans, s.live) && PlacesOk(s.place, s.spans) && s.headers.Keys == s.place.Keys
    requires id in s.spans
    ensures HeadersOk(s.headers - ObjectsOf(id, s.spans[id].objects), s.spans - {id}, s.live)
  {
    var headers', spans' := s.headers - ObjectsOf(id, s.spans[id].objects), s.spans - {id};
    forall o
      ensures HeaderAt(headers', spans', s.live, o)
    {
      assert HeaderAt(s.headers, s.spans, s.live, o);
      assert PlacedAt(s.place, s.spans, o);
      ObjectsAre(id, s.spans[id].objects, o);
    }
  }

  lemma ReclaimActive(s: State, id: SpanId)
    requires Placed(s) && ActiveOk(s.place, s.live) && id in s.spans && Empty(s.spans[id])
    ensures ActiveOk(s.place - ObjectsOf(id, s.spans[id].objects), s.live)
  {
    forall o | o in s.place && o.span == id
      ensures s.place[o].Central?
    {
      EmptySpan(s, id, o);
    }
  }

  lemma ReclaimLive(s: State, id: SpanId)
    requires Placed(s) && LiveOk(s) && id in s.spans
    ensures LiveOk(Reclaim(s, id))
  {
    if Empty(s.spans[id]) {
      ReclaimHeaders(s, id);
      ReclaimActive(s, id);
    }
  }

  lemma CreateHeaders(s: State, c: nat, p: nat, id: SpanId, n: nat)
    requires PlacesOk(s.place, s.spans) && s.headers.Keys == s.place.Keys && id !in s.spans
    requires HeadersOk(s.headers, s.spans, s.live) && ActiveOk(s.place, s.live)
    ensures HeadersOk(Create(s, c, p, id, n).headers, Create(s, c, p, id, n).spans, s.live)
    ensures ActiveOk(Create(s, c, p, id, n).place, s.live)
  {
    CreateExtends(s, c, p, id, n);
    var s' := Create(s, c, p, id, n);
    forall o
      ensures HeaderAt(s'.headers, s'.spans, s.live, o)
    {
      assert HeaderAt(s.headers, s.spans, s.live, o);
      ObjectsAre(id, n, o);
      assert Small(o) in s.live ==> o in s.place;
    }
  }

  lemma CreateLive(s: State, c: nat, p: nat, id: SpanId, n: nat)
    requires Placed(s) && LiveOk(s) && id !in s.spans && c < CLASS_COUNT && p < MAX_P
    ensures LiveOk(Create(s, c, p, id, n))
  {
    CreateHeaders(s, c, p, id, n);
  }

  // -------------------------------------------------------------------- loops

  ghost predicate Sane(s: State)
  {
    Placed(s) && LiveOk(s)
  }

  lemma TakeRemoteSane(s: State, k: Key)
    requires Sane(s) && At(s.remote, k).list != []
    ensures Sane(TakeRemote(s, k))
  {
    TakeRemoteKeeps(s, k);
    TakeRemoteLive(s, k);
  }

  lemma TakeCentralSane(s: State, id: SpanId, k: Key)
    requires Sane(s) && id in s.spans && s.spans[id].central != [] && k.c == s.spans[id].sizeClass
    ensures Sane(TakeCentral(s, id, k))
    ensures id in TakeCentral(s, id, k).spans && TakeCentral(s, id, k).spans[id].sizeClass == k.c
  {
    TakeCentralKeeps(s, id, k);
    TakeCentralLive(s, id, k);
  }

  lemma CreateSane(s: State, c: nat, p: nat, id: SpanId, n: nat)
    requires Sane(s) && id !in s.spans && c < CLASS_COUNT && p < MAX_P
    ensures Sane(Create(s, c, p, id, n))
  {
    CreateKeeps(s, c, p, id, n);
    CreateLive(s, c, p, id, n);
  }

  lemma ToCentralSane(s: State, k: Key)
    requires Sane(s) && At(s.caches, k).list != []
    ensures At(s.caches, k).list[0].span in s.spans
    ensures Sane(ToCentral(s, k))
  {
    ToCentralKeeps(s, k);
    ToCentralLive(s, k);
  }

  lemma ReclaimSane(s: State, id: SpanId)
    requires Sane(s) && id in s.spans
    ensures Sane(Reclaim(s, id))
  {
    ReclaimKeeps(s, id);
    ReclaimLive(s, id);
  }

  /** Only the cache of k differs. */
  ghost predicate OthersKept(s: State, s': State, k: Key)
  {
    forall j {:trigger At(s'.caches, j)} :: j != k ==> At(s'.caches, j) == At(s.caches, j)
  }

  ghost predicate Moved(s: State, s': State, k: Key)
  {
    FreeMoves(s, s') && OthersKept(s, s', k)
  }

  ghost predicate Stocked(s: State, c: nat)
  {
    exists id :: id in s.spans && s.spans[id].sizeClass == c && s.spans[id].central != []
  }

  lemma MovedAgain(s: State, s': State, s'': State, k: Key)
    requires Moved(s, s', k) && Moved(s', s'', k)
    ensures Moved(s, s'', k)
  {
  }

  lemma ToCentralMoves(s: State, k: Key)
    requires At(s.caches, k).list != [] && At(s.caches, k).list[0].span in s.spans
    ensures var s' := Reclaim(ToCentral(s, k), At(s.caches, k).list[0].span);
            Moved(s, s', k) && At(s'.caches, k).list == At(s.caches, k).list[1..]
  {
  }

  // ------------------------------------------------- what a call gives and takes

  /** A caller now holds ptr. */
  function Hold(s: State, ptr: Ptr, size: nat): State
  {
    s.(activeBytes := s.activeBytes + size, activeObjects := s.activeObjects + 1, live := s.live[ptr := size])
  }

  /** A caller no longer holds ptr. */
  function Drop(s: State, ptr: Ptr, size: nat): State
  {
    s.(activeBytes := s.activeBytes - size, activeObjects := s.activeObjects - 1, live := s.live - {ptr})
  }

  predicate CanAllocate(s: State, size: nat)
  {
    size <= SIZE_MAX && s.activeBytes <= SIZE_MAX - size && s.activeObjects != SIZE_MAX
  }

  /** The head of the cache is handed out for size bytes. */
  function HandOut(s: State, k: Key, size: nat): State
    requires At(s.caches, k).list != [] && At(s.caches, k).list[0].span in s.spans
  {
    var o := At(s.caches, k).list[0];
    var s1 := TakeCached(s, k);
    Hold(s1.(headers := s.headers[o := Header(true, size, Capacity(k.c), s.spans[o.span].owner)]), Small(o), size)
  }

  lemma HandOutHeaders(s: State, k: Key, o: Obj, size: nat, span: Span)
    requires HeadersOk(s.headers, s.spans, s.live) && o.span in s.spans && size <= Capacity(k.c)
    requires s.spans[o.span].sizeClass == k.c == span.sizeClass && span.owner == s.spans[o.span].owner
    ensures HeadersOk(s.headers[o := Header(true, size, Capacity(k.c), s.spans[o.span].owner)],
                      s.spans[o.span := span], s.live[Small(o) := size])
  {
    var headers' := s.headers[o := Header(true, size, Capacity(k.c), s.spans[o.span].owner)];
    var spans', live' := s.spans[o.span := span], s.live[Small(o) := size];
    forall x
      ensures HeaderAt(headers', spans', live', x)
    {
      assert HeaderAt(s.headers, s.spans, s.live, x);
    }
  }

  lemma HandOutSane(s: State, k: Key, size: nat)
    requires Sane(s) && At(s.caches, k).list != [] && size <= Capacity(k.c) && CanAllocate(s, size)
    ensures var o := At(s.caches, k).list[0];
            o.span in s.spans && o in s.place && s.place[o] == InCache(k)
            && Small(o) !in s.live && Sane(HandOut(s, k, size))
  {
    var o := At(s.caches, k).list[0];
    CachesPopped(s.caches, s.place, false, k, Active);
    HasSpan(s.place, s.spans, o);
    TakeCachedKeeps(s, k);
    assert Small(o) !in s.live;
    SumAdd(s.live, Small(o), size);
    HandOutHeaders(s, k, o, size, TakeCached(s, k).spans[o.span]);
  }

  /** An object in use is given back, to its owner's cache or its owner's queue. */
  function TakeBack(s: State, o: Obj, home: bool): State
    requires o.span in s.spans && o in s.headers
  {
    var h := s.headers[o];
    PutBack(Drop(s.(headers := s.headers[o := h.(inUse := false)]), Small(o), h.requested), o, Clamp(h.owner), home)
  }

  lemma TakeBackHeaders(s: State, o: Obj, span: Span)
    requires HeadersOk(s.headers, s.spans, s.live) && o.span in s.spans && o in s.headers
    requires s.spans[o.span].sizeClass == span.sizeClass && span.owner == s.spans[o.span].owner
    ensures HeadersOk(s.headers[o := s.headers[o].(inUse := false)], s.spans[o.span := span], s.live - {Small(o)})
  {
    var headers' := s.headers[o := s.headers[o].(inUse := false)];
    var spans', live' := s.spans[o.span := span], s.live - {Small(o)};
    forall x
      ensures HeaderAt(headers', spans', live', x)
    {
      assert HeaderAt(s.headers, s.spans, s.live, x);
    }
  }

  /** The caller's pointer, as the headers show it. */
  lemma InUseIs(s: State, o: Obj)
    requires Sane(s) && o in s.headers && s.headers[o].inUse
    ensures o.span in s.spans && o in s.place && s.place[o].Active? && Small(o) in s.live
    ensures s.live[Small(o)] == s.headers[o].requested && s.headers[o].owner == s.spans[o.span].owner < MAX_P
    ensures s.activeObjects > 0 && s.activeBytes >= s.headers[o].requested
  {
    assert HeaderAt(s.headers, s.spans, s.live, o);
    assert Small(o) in s.live;
    assert SpanOk(s.spans[o.span], o.span, s.place);
    SumRemove(s.live, Small(o));
  }

  lemma DroppedPlaced(s: State, o: Obj)
    requires Placed(s) && o in s.headers
    ensures Placed(Drop(s.(headers := s.headers[o := s.headers[o].(inUse := false)]), Small(o), s.headers[o].requested))
  {
  }

  lemma TakeBackPlaced(s: State, o: Obj, home: bool)
    requires Sane(s) && o in s.headers && s.headers[o].inUse
    ensures o.span in s.spans
    ensures Placed(TakeBack(s, o, home))
  {
    InUseIs(s, o);
    DroppedPlaced(s, o);
    var s0 := Drop(s.(headers := s.headers[o := s.headers[o].(inUse := false)]), Small(o), s.headers[o].requested);
    if home {
      PutHomeKeeps(s0, o);
    } else {
      PutAwayKeeps(s0, o);
    }
  }

  lemma TakeBackLive(s: State, o: Obj, home: bool)
    requires Sane(s) && o in s.headers && s.headers[o].inUse
    ensures o.span in s.spans
    ensures LiveOk(TakeBack(s, o, home))
  {
    InUseIs(s, o);
    SumRemove(s.live, Small(o));
    TakeBackHeaders(s, o, Released(s.spans[o.span]));
  }

  // ------------------------------------------------------------- large objects

  function MapLarge(s: State, id: nat, size: nat, p: nat): State
  {
    Hold(s.(large := [id] + s.large, largeHeaders := s.largeHeaders[id := Header(true, size, size, p)]),
         Large(id), size)
  }

  lemma MapLargeSane(s: State, id: nat, size: nat, p: nat)
    requires Sane(s) && id !in s.largeHeaders && CanAllocate(s, size)
    ensures Large(id) !in s.live && Sane(MapLarge(s, id, size, p))
  {
    assert Large(id) !in s.live;
    SumAdd(s.live, Large(id), size);
    LiveGrows(s, Large(id), size);
    MapLargeList(s, id, size, p);
  }

  lemma LiveGrows(s: State, ptr: Ptr, size: nat)
    requires HeadersOk(s.headers, s.spans, s.live) && ptr.Large?
    ensures HeadersOk(s.headers, s.spans, s.live[ptr := size])
  {
    var live' := s.live[ptr := size];
    forall x
      ensures HeaderAt(s.headers, s.spans, live', x)
    {
      assert HeaderAt(s.headers, s.spans, s.live, x);
    }
  }

  lemma MapLargeList(s: State, id: nat, size: nat, p: nat)
    requires LargeOk(s.large, s.largeHeaders, s.live) && id !in s.largeHeaders
    ensures LargeOk([id] + s.large, s.largeHeaders[id := Header(true, size, size, p)], s.live[Large(id) := size])
  {
  }

  function UnmapLarge(s: State, id: nat): State
    requires id in s.largeHeaders
  {
    Drop(s.(large := Without(s.large, id), largeHeaders := s.largeHeaders - {id}),
         Large(id), s.largeHeaders[id].requested)
  }

  lemma UnmapLargeList(s: State, id: nat)
    requires LargeOk(s.large, s.largeHeaders, s.live) && id in s.largeHeaders
    ensures LargeOk(Without(s.large, id), s.largeHeaders - {id}, s.live - {Large(id)})
  {
    assert multiset(s.large)[id] == 1;
    WithoutIs(s.large, id);
  }

  lemma LiveShrinks(s: State, ptr: Ptr)
    requires HeadersOk(s.headers, s.spans, s.live) && ptr.Large?
    ensures HeadersOk(s.headers, s.spans, s.live - {ptr})
  {
    var live' := s.live - {ptr};
    forall x
      ensures HeaderAt(s.headers, s.spans, live', x)
    {
      assert HeaderAt(s.headers, s.spans, s.live, x);
    }
  }

  lemma UnmapLargeSane(s: State, id: nat)
    requires Sane(s) && id in s.largeHeaders
    ensures Large(id) in s.live && s.live[Large(id)] == s.largeHeaders[id].requested && s.largeHeaders[id].inUse
    ensures s.activeObjects > 0 && s.activeBytes >= s.largeHeaders[id].requested
    ensures Sane(UnmapLarge(s, id))
  {
    assert Large(id) in s.live;
    SumRemove(s.live, Large(id));
    LiveShrinks(s, Large(id));
    UnmapLargeList(s, id);
  }

  // ------------------------------------------------------------ change in place

  function Resize(s: State, ptr: Ptr, h: Header, size: nat): State
  {
    var s1 := s.(activeBytes := s.activeBytes - h.requested + size, live := s.live[ptr := size]);
    match ptr
    case Small(o) => s1.(headers := s.headers[o := h.(requested := size)])
    case Large(id) => s1.(largeHeaders := s.largeHeaders[id := h.(requested := size)])
  }

  lemma ResizeSmallSane(s: State, o: Obj, size: nat)
    requires Sane(s) && o in s.headers && s.headers[o].inUse && size <= s.headers[o].capacity
    requires s.activeBytes - s.headers[o].requested <= SIZE_MAX - size
    ensures Sane(Resize(s, Small(o), s.headers[o], size))
  {
    InUseIs(s, o);
    SumChange(s.live, Small(o), size);
    var s' := Resize(s, Small(o), s.headers[o], size);
    assert s'.headers.Keys == s.headers.Keys;
    forall x
      ensures HeaderAt(s'.headers, s'.spans, s'.live, x)
    {
      assert HeaderAt(s.headers, s.spans, s.live, x);
    }
  }

  lemma ResizeLargeSane(s: State, id: nat, size: nat)
    requires Sane(s) && id in s.largeHeaders && size <= s.largeHeaders[id].capacity
    requires s.activeBytes - s.largeHeaders[id].requested <= SIZE_MAX - size
    ensures Sane(Resize(s, Large(id), s.largeHeaders[id], size))
  {
    assert Large(id) in s.live;
    SumChange(s.live, Large(id), size);
    LiveGrows(s, Large(id), size);
  }
}
