/** Where objects are: what every elementary move of the allocator keeps. */
module MemoryInvariant {
  import opened Common
  import opened SizeClass
  import opened Memory

  function Slot(remote: bool, k: Key): Place
  {
    if remote then InRemote(k) else InCache(k)
  }

  predicate InSlot(remote: bool, q: Place)
  {
    if remote then q.InRemote? else q.InCache?
  }

  // --------------------------------------------------------------- components

  /** A list holds exactly the objects that are at its place, each once. */
  ghost predicate ListOk(list: seq<Obj>, count: int, place: map<Obj, Place>, q: Place)
  {
    NoDup(list) && count == |list| && forall o :: o in list <==> o in place && place[o] == q
  }

  ghost predicate CacheOk(caches: map<Key, Cache>, place: map<Obj, Place>, remote: bool, k: Key)
  {
    ListOk(At(caches, k).list, At(caches, k).count, place, Slot(remote, k))
  }

  ghost predicate CachesOk(caches: map<Key, Cache>, place: map<Obj, Place>, remote: bool)
  {
    forall k {:trigger CacheOk(caches, place, remote, k)} :: CacheOk(caches, place, remote, k)
  }

  ghost function ActiveIn(place: map<Obj, Place>, id: SpanId): set<Obj>
  {
    set o | o in place && o.span == id && place[o].Active?
  }

  ghost function CachedIn(place: map<Obj, Place>, id: SpanId): set<Obj>
  {
    set o | o in place && o.span == id && (place[o].InCache? || place[o].InRemote?)
  }

  /** A span's central list and counters against where its objects are. */
  ghost predicate SpanOk(span: Span, id: SpanId, place: map<Obj, Place>)
  {
    && NoDup(span.central) && span.centralCount == |span.central|
    && (forall o :: o in span.central <==> o in place && o.span == id && place[o].Central?)
    && span.activeCount == |ActiveIn(place, id)|
    && span.cachedCount == |CachedIn(place, id)|
    && span.freeCount == span.centralCount + span.cachedCount
    && span.objects == span.activeCount + span.freeCount
    && span.owner < MAX_P && span.sizeClass < CLASS_COUNT
  }

  ghost predicate SpansOk(spans: map<SpanId, Span>, place: map<Obj, Place>)
  {
    forall id {:trigger SpanOk(spans[id], id, place)} :: id in spans ==> SpanOk(spans[id], id, place)
  }

  /** An object is cached under its own class, and queued only for its owner. */
  predicate PlaceOk(q: Place, span: Span)
  {
    match q
    case InCache(k) => k.c == span.sizeClass
    case InRemote(k) => k == Key(span.owner, span.sizeClass)
    case _ => true
  }

  ghost predicate PlacedAt(place: map<Obj, Place>, spans: map<SpanId, Span>, o: Obj)
  {
    if o.span in spans && o.index < spans[o.span].objects
    then o in place && PlaceOk(place[o], spans[o.span])
    else o !in place
  }

  /** Exactly the objects of the mapped spans have a place. */
  ghost predicate PlacesOk(place: map<Obj, Place>, spans: map<SpanId, Span>)
  {
    forall o {:trigger PlacedAt(place, spans, o)} :: PlacedAt(place, spans, o)
  }

  /** Each mapped span is once on the list of all spans and once on its class's. */
  ghost predicate SpanListsOk(spans: map<SpanId, Span>, central: map<nat, seq<SpanId>>, all: seq<SpanId>)
  {
    && (forall id {:trigger multiset(all)[id]} :: multiset(all)[id] == Once(id in spans))
    && (forall c, id {:trigger multiset(SpansOf(central, c))[id]} ::
          multiset(SpansOf(central, c))[id] == Once(id in spans && spans[id].sizeClass == c))
  }

  ghost predicate Placed(s: State)
  {
    && CachesOk(s.caches, s.place, false)
    && CachesOk(s.remote, s.place, true)
    && SpansOk(s.spans, s.place)
    && PlacesOk(s.place, s.spans)
    && SpanListsOk(s.spans, s.central, s.all)
    && s.headers.Keys == s.place.Keys
  }

  // --------------------------------------------------------- one object moves

  lemma ListKept(list: seq<Obj>, count: int, place: map<Obj, Place>, q: Place, o: Obj, r: Place)
    requires ListOk(list, count, place, q) && (o in place ==> place[o] != q) && r != q
    ensures ListOk(list, count, place[o := r], q)
  {
  }

  lemma ListPushed(list: seq<Obj>, count: int, place: map<Obj, Place>, q: Place, o: Obj)
    requires ListOk(list, count, place, q) && (o in place ==> place[o] != q)
    ensures ListOk([o] + list, count + 1, place[o := q], q)
  {
  }

  lemma ListPopped(list: seq<Obj>, count: int, place: map<Obj, Place>, q: Place, r: Place)
    requires ListOk(list, count, place, q) && list != [] && r != q
    ensures ListOk(list[1..], count - 1, place[list[0] := r], q)
    ensures list[0] in place && place[list[0]] == q
  {
    assert list == [list[0]] + list[1..];
  }

  lemma CachesKept(caches: map<Key, Cache>, place: map<Obj, Place>, remote: bool, o: Obj, r: Place)
    requires CachesOk(caches, place, remote) && (o in place ==> !InSlot(remote, place[o])) && !InSlot(remote, r)
    ensures CachesOk(caches, place[o := r], remote)
  {
    var place' := place[o := r];
    forall k
      ensures CacheOk(caches, place', remote, k)
    {
      assert CacheOk(caches, place, remote, k);
      ListKept(At(caches, k).list, At(caches, k).count, place, Slot(remote, k), o, r);
    }
  }

  lemma CachesPushed(caches: map<Key, Cache>, place: map<Obj, Place>, remote: bool, k: Key, o: Obj)
    requires CachesOk(caches, place, remote) && (o in place ==> !InSlot(remote, place[o]))
    ensures CachesOk(caches[k := Push(At(caches, k), o)], place[o := Slot(remote, k)], remote)
  {
    var caches', place' := caches[k := Push(At(caches, k), o)], place[o := Slot(remote, k)];
    forall j
      ensures CacheOk(caches', place', remote, j)
    {
      assert CacheOk(caches, place, remote, j);
      var cache := At(caches, j);
      if j == k {
        ListPushed(cache.list, cache.count, place, Slot(remote, k), o);
      } else {
        assert At(caches', j) == cache;
        ListKept(cache.list, cache.count, place, Slot(remote, j), o, Slot(remote, k));
      }
    }
  }

  lemma CachesPopped(caches: map<Key, Cache>, place: map<Obj, Place>, remote: bool, k: Key, r: Place)
    requires CachesOk(caches, place, remote) && At(caches, k).list != [] && !InSlot(remote, r)
    ensures var o := At(caches, k).list[0];
            && o in place && place[o] == Slot(remote, k)
            && CachesOk(caches[k := Pop(At(caches, k))], place[o := r], remote)
  {
    var o := At(caches, k).list[0];
    var caches' := caches[k := Pop(At(caches, k))];
    assert CacheOk(caches, place, remote, k);
    ListPopped(At(caches, k).list, At(caches, k).count, place, Slot(remote, k), r);
    var place' := place[o := r];
    forall j
      ensures CacheOk(caches', place', remote, j)
    {
      assert CacheOk(caches, place, remote, j);
      var cache := At(caches, j);
      if j != k {
        assert At(caches', j) == cache;
        ListKept(cache.list, cache.count, place, Slot(remote, j), o, r);
      }
    }
  }

  predicate Cached(q: Place)
  {
    q.InCache? || q.InRemote?
  }

  lemma SpanElsewhere(span: Span, id: SpanId, place: map<Obj, Place>, o: Obj, r: Place)
    requires SpanOk(span, id, place) && o.span != id
    ensures SpanOk(span, id, place[o := r])
  {
    assert ActiveIn(place[o := r], id) == ActiveIn(place, id);
    assert CachedIn(place[o := r], id) == CachedIn(place, id);
  }

  lemma SpansMoved(spans: map<SpanId, Span>, place: map<Obj, Place>, o: Obj, r: Place, span: Span)
    requires SpansOk(spans, place) && SpanOk(span, o.span, place[o := r])
    ensures SpansOk(spans[o.span := span], place[o := r])
  {
    forall id | id in spans && id != o.span
      ensures SpanOk(spans[id], id, place[o := r])
    {
      SpanElsewhere(spans[id], id, place, o, r);
    }
  }

  lemma PlacesMoved(place: map<Obj, Place>, spans: map<SpanId, Span>, o: Obj, r: Place, span: Span)
    requires PlacesOk(place, spans) && o in place && PlaceOk(r, span)
    requires o.span in spans && span.objects == spans[o.span].objects
    requires span.sizeClass == spans[o.span].sizeClass && span.owner == spans[o.span].owner
    ensures PlacesOk(place[o := r], spans[o.span := span])
  {
    var place', spans' := place[o := r], spans[o.span := span];
    forall x
      ensures PlacedAt(place', spans', x)
    {
      assert PlacedAt(place, spans, x);
    }
  }

  lemma HasSpan(place: map<Obj, Place>, spans: map<SpanId, Span>, o: Obj)
    requires PlacesOk(place, spans) && o in place
    ensures o.span in spans && o.index < spans[o.span].objects && PlaceOk(place[o], spans[o.span])
  {
    assert PlacedAt(place, spans, o);
  }

  lemma SpanListsMoved(s: State, id: SpanId, span: Span)
    requires SpanListsOk(s.spans, s.central, s.all) && id in s.spans && span.sizeClass == s.spans[id].sizeClass
    ensures SpanListsOk(s.spans[id := span], s.central, s.all)
  {
  }

  // -------------------------------------------------------------- each move

  lemma CachedAgain(span: Span, id: SpanId, place: map<Obj, Place>, o: Obj, r: Place)
    requires SpanOk(span, id, place) && o.span == id && o in place && Cached(place[o]) && Cached(r)
    ensures SpanOk(span, id, place[o := r])
  {
    assert ActiveIn(place[o := r], id) == ActiveIn(place, id);
    assert CachedIn(place[o := r], id) == CachedIn(place, id);
  }

  lemma TakeRemoteKeeps(s: State, k: Key)
    requires Placed(s) && At(s.remote, k).list != []
    ensures Placed(TakeRemote(s, k))
  {
    var o := At(s.remote, k).list[0];
    CachesPopped(s.remote, s.place, true, k, InCache(k));
    CachesPushed(s.caches, s.place, false, k, o);
    HasSpan(s.place, s.spans, o);
    var span := s.spans[o.span];
    CachedAgain(span, o.span, s.place, o, InCache(k));
    SpansMoved(s.spans, s.place, o, InCache(k), span);
    PlacesMoved(s.place, s.spans, o, InCache(k), span);
    assert s.spans[o.span := span] == s.spans;
  }

  lemma CachedGains(place: map<Obj, Place>, id: SpanId, o: Obj, r: Place)
    requires o in place && o.span == id && place[o].Central? && Cached(r)
    ensures |ActiveIn(place[o := r], id)| == |ActiveIn(place, id)|
    ensures |CachedIn(place[o := r], id)| == |CachedIn(place, id)| + 1
  {
    assert ActiveIn(place[o := r], id) == ActiveIn(place, id);
    assert CachedIn(place[o := r], id) == CachedIn(place, id) + {o};
  }

  lemma FromCentral(span: Span, id: SpanId, place: map<Obj, Place>, r: Place)
    requires SpanOk(span, id, place) && span.central != [] && Cached(r)
    ensures span.central[0] in place && span.central[0].span == id && place[span.central[0]].Central?
    ensures SpanOk(span.(central := span.central[1..], centralCount := span.centralCount - 1,
                         cachedCount := span.cachedCount + 1), id, place[span.central[0] := r])
  {
    var o := span.central[0];
    assert o in span.central;
    CachedGains(place, id, o, r);
    assert span.central == [o] + span.central[1..];
  }

  lemma TakeCentralKeeps(s: State, id: SpanId, k: Key)
    requires Placed(s) && id in s.spans && s.spans[id].central != [] && k.c == s.spans[id].sizeClass
    ensures Placed(TakeCentral(s, id, k))
  {
    var span := s.spans[id];
    var o := span.central[0];
    FromCentral(span, id, s.place, InCache(k));
    CachesKept(s.remote, s.place, true, o, InCache(k));
    CachesPushed(s.caches, s.place, false, k, o);
    var span' := TakeCentral(s, id, k).spans[id];
    SpansMoved(s.spans, s.place, o, InCache(k), span');
    PlacesMoved(s.place, s.spans, o, InCache(k), span');
    SpanListsMoved(s, id, span');
  }

  lemma ToActive(span: Span, id: SpanId, place: map<Obj, Place>, o: Obj)
    requires SpanOk(span, id, place) && o.span == id && o in place && Cached(place[o])
    ensures SpanOk(span.(cachedCount := span.cachedCount - 1, freeCount := span.freeCount - 1,
                         activeCount := span.activeCount + 1), id, place[o := Active])
  {
    assert ActiveIn(place[o := Active], id) == ActiveIn(place, id) + {o};
    assert CachedIn(place, id) == CachedIn(place[o := Active], id) + {o};
  }

  lemma TakeCachedKeeps(s: State, k: Key)
    requires Placed(s) && At(s.caches, k).list != []
    ensures At(s.caches, k).list[0].span in s.spans
    ensures Placed(TakeCached(s, k))
  {
    var o := At(s.caches, k).list[0];
    CachesPopped(s.caches, s.place, false, k, Active);
    CachesKept(s.remote, s.place, true, o, Active);
    HasSpan(s.place, s.spans, o);
    var span := s.spans[o.span];
    ToActive(span, o.span, s.place, o);
    var span' := TakeCached(s, k).spans[o.span];
    SpansMoved(s.spans, s.place, o, Active, span');
    PlacesMoved(s.place, s.spans, o, Active, span');
    SpanListsMoved(s, o.span, span');
  }

  lemma FromActive(span: Span, id: SpanId, place: map<Obj, Place>, o: Obj, r: Place)
    requires SpanOk(span, id, place) && o.span == id && o in place && place[o].Active? && Cached(r)
    ensures SpanOk(Released(span), id, place[o := r])
  {
    assert ActiveIn(place, id) == ActiveIn(place[o := r], id) + {o};
    assert CachedIn(place[o := r], id) == CachedIn(place, id) + {o};
  }

  lemma SentHome(s: State, o: Obj)
    requires Placed(s) && o in s.place && s.place[o].Active?
    ensures o.span in s.spans
    ensures var k := Key(s.spans[o.span].owner, s.spans[o.span].sizeClass);
            && CachesOk(s.caches[k := Push(At(s.caches, k), o)], s.place[o := InCache(k)], false)
            && CachesOk(s.remote, s.place[o := InCache(k)], true)
  {
    HasSpan(s.place, s.spans, o);
    var k := Key(s.spans[o.span].owner, s.spans[o.span].sizeClass);
    CachesPushed(s.caches, s.place, false, k, o);
    CachesKept(s.remote, s.place, true, o, InCache(k));
  }

  lemma SentAway(s: State, o: Obj)
    requires Placed(s) && o in s.place && s.place[o].Active?
    ensures o.span in s.spans
    ensures var k := Key(s.spans[o.span].owner, s.spans[o.span].sizeClass);
            && CachesOk(s.remote[k := Push(At(s.remote, k), o)], s.place[o := InRemote(k)], true)
            && CachesOk(s.caches, s.place[o := InRemote(k)], false)
  {
    HasSpan(s.place, s.spans, o);
    var k := Key(s.spans[o.span].owner, s.spans[o.span].sizeClass);
    CachesPushed(s.remote, s.place, true, k, o);
    CachesKept(s.caches, s.place, false, o, InRemote(k));
  }

  lemma SentSpans(s: State, o: Obj, r: Place)
    requires Placed(s) && o in s.place && s.place[o].Active? && Cached(r)
    requires o.span in s.spans && PlaceOk(r, s.spans[o.span])
    ensures var spans := s.spans[o.span := Released(s.spans[o.span])];
            && SpansOk(spans, s.place[o := r]) && PlacesOk(s.place[o := r], spans)
            && SpanListsOk(spans, s.central, s.all)
  {
    var span := s.spans[o.span];
    FromActive(span, o.span, s.place, o, r);
    SpansMoved(s.spans, s.place, o, r, Released(span));
    PlacesMoved(s.place, s.spans, o, r, Released(span));
    SpanListsMoved(s, o.span, Released(span));
  }

  lemma PutHomeKeeps(s: State, o: Obj)
    requires Placed(s) && o in s.place && s.place[o].Active?
    ensures o.span in s.spans
    ensures Placed(PutBack(s, o, s.spans[o.span].owner, true))
  {
    SentHome(s, o);
    SentSpans(s, o, InCache(Key(s.spans[o.span].owner, s.spans[o.span].sizeClass)));
  }

  lemma PutAwayKeeps(s: State, o: Obj)
    requires Placed(s) && o in s.place && s.place[o].Active?
    ensures o.span in s.spans
    ensures Placed(PutBack(s, o, s.spans[o.span].owner, false))
  {
    SentAway(s, o);
    SentSpans(s, o, InRemote(Key(s.spans[o.span].owner, s.spans[o.span].sizeClass)));
  }

  lemma BackToCentral(span: Span, id: SpanId, place: map<Obj, Place>, o: Obj)
    requires SpanOk(span, id, place) && o.span == id && o in place && Cached(place[o])
    ensures span.cachedCount > 0
    ensures SpanOk(span.(central := [o] + span.central, centralCount := span.centralCount + 1,
                         cachedCount := span.cachedCount - 1), id, place[o := Central])
  {
    assert ActiveIn(place[o := Central], id) == ActiveIn(place, id);
    assert CachedIn(place, id) == CachedIn(place[o := Central], id) + {o};
  }

  /** The saturating decrement of a span's cached count never saturates. */
  lemma ToCentralKeeps(s: State, k: Key)
    requires Placed(s) && At(s.caches, k).list != []
    ensures At(s.caches, k).list[0].span in s.spans
    ensures s.spans[At(s.caches, k).list[0].span].cachedCount > 0
    ensures Placed(ToCentral(s, k))
  {
    var o := At(s.caches, k).list[0];
    CachesPopped(s.caches, s.place, false, k, Central);
    CachesKept(s.remote, s.place, true, o, Central);
    HasSpan(s.place, s.spans, o);
    var span := s.spans[o.span];
    BackToCentral(span, o.span, s.place, o);
    var span' := ToCentral(s, k).spans[o.span];
    SpansMoved(s.spans, s.place, o, Central, span');
    PlacesMoved(s.place, s.spans, o, Central, span');
    SpanListsMoved(s, o.span, span');
  }

  // ------------------------------------------------------- spans come and go

  /** An empty span's objects are all on its central list, so nothing else refers
      to the memory that goes. */
  lemma EmptySpan(s: State, id: SpanId, o: Obj)
    requires Placed(s) && id in s.spans && Empty(s.spans[id]) && o in s.place && o.span == id
    ensures s.place[o].Central?
  {
    assert SpanOk(s.spans[id], id, s.place);
    assert o !in ActiveIn(s.place, id);
    assert o !in CachedIn(s.place, id);
  }

  lemma {:induction false} WithoutIs(list: seq<nat>, x: nat)
    requires multiset(list)[x] <= 1
    ensures forall y {:trigger multiset(Without(list, x))[y]} ::
              multiset(Without(list, x))[y] == if y == x then 0 else multiset(list)[y]
  {
    if list != [] {
      assert list == [list[0]] + list[1..];
      if list[0] != x {
        WithoutIs(list[1..], x);
      }
    }
  }

  lemma ReclaimCaches(s: State, id: SpanId, remote: bool)
    requires Placed(s) && id in s.spans && Empty(s.spans[id])
    ensures CachesOk(if remote then s.remote else s.caches, s.place - ObjectsOf(id, s.spans[id].objects), remote)
  {
    var caches := if remote then s.remote else s.caches;
    var gone := ObjectsOf(id, s.spans[id].objects);
    forall k
      ensures CacheOk(caches, s.place - gone, remote, k)
    {
      assert CacheOk(caches, s.place, remote, k);
      forall o
        ensures o in At(caches, k).list <==> o in s.place - gone && (s.place - gone)[o] == Slot(remote, k)
      {
        if o in s.place && o in gone {
          EmptySpan(s, id, o);
        }
      }
    }
  }

  lemma ReclaimSpan(s: State, id: SpanId, j: SpanId)
    requires Placed(s) && id in s.spans && j in s.spans && j != id
    ensures SpanOk(s.spans[j], j, s.place - ObjectsOf(id, s.spans[id].objects))
  {
    var place' := s.place - ObjectsOf(id, s.spans[id].objects);
    assert SpanOk(s.spans[j], j, s.place);
    assert ActiveIn(place', j) == ActiveIn(s.place, j);
    assert CachedIn(place', j) == CachedIn(s.place, j);
  }

  lemma ObjectsAre(id: SpanId, n: nat, o: Obj)
    ensures o in ObjectsOf(id, n) <==> o.span == id && o.index < n
  {
    if o.span == id && o.index < n {
      assert o == Obj(id, o.index);
    }
  }

  lemma ReclaimSpans(s: State, id: SpanId)
    requires Placed(s) && id in s.spans
    ensures var gone := ObjectsOf(id, s.spans[id].objects);
            SpansOk(s.spans - {id}, s.place - gone) && PlacesOk(s.place - gone, s.spans - {id})
  {
    var place', spans' := s.place - ObjectsOf(id, s.spans[id].objects), s.spans - {id};
    forall j | j in spans'
      ensures SpanOk(spans'[j], j, place')
    {
      ReclaimSpan(s, id, j);
    }
    forall o
      ensures PlacedAt(place', spans', o)
    {
      assert PlacedAt(s.place, s.spans, o);
      ObjectsAre(id, s.spans[id].objects, o);
    }
  }

  lemma ListsShrink(s: State, id: SpanId, list: seq<SpanId>, all: seq<SpanId>)
    requires SpanListsOk(s.spans, s.central, s.all) && id in s.spans
    requires forall x {:trigger multiset(all)[x]} :: multiset(all)[x] == Once(x in s.spans && x != id)
    requires forall x {:trigger multiset(list)[x]} ::
               multiset(list)[x] == Once(x in s.spans && x != id && s.spans[x].sizeClass == s.spans[id].sizeClass)
    ensures SpanListsOk(s.spans - {id}, s.central[s.spans[id].sizeClass := list], all)
  {
    var central' := s.central[s.spans[id].sizeClass := list];
    forall b
      ensures SpansOf(central', b) == if b == s.spans[id].sizeClass then list else SpansOf(s.central, b)
    {
    }
  }

  lemma ReclaimLists(s: State, id: SpanId)
    requires SpanListsOk(s.spans, s.central, s.all) && id in s.spans
    ensures var c := s.spans[id].sizeClass;
            SpanListsOk(s.spans - {id}, s.central[c := Without(SpansOf(s.central, c), id)], Without(s.all, id))
  {
    var c := s.spans[id].sizeClass;
    assert multiset(s.all)[id] == 1;
    assert multiset(SpansOf(s.central, c))[id] == 1;
    WithoutIs(s.all, id);
    WithoutIs(SpansOf(s.central, c), id);
    ListsShrink(s, id, Without(SpansOf(s.central, c), id), Without(s.all, id));
  }

  lemma ReclaimKeeps(s: State, id: SpanId)
    requires Placed(s) && id in s.spans
    ensures Placed(Reclaim(s, id))
  {
    if Empty(s.spans[id]) {
      ReclaimCaches(s, id, false);
      ReclaimCaches(s, id, true);
      ReclaimSpans(s, id);
      ReclaimLists(s, id);
      var gone := ObjectsOf(id, s.spans[id].objects);
      assert (s.headers - gone).Keys == s.headers.Keys - gone;
      assert (s.place - gone).Keys == s.place.Keys - gone;
    }
  }

  lemma {:induction false} FreeListIs(id: SpanId, n: nat)
    ensures NoDup(FreeList(id, n)) && |FreeList(id, n)| == n
    ensures forall o :: o in FreeList(id, n) <==> o.span == id && o.index < n
  {
    if n > 0 {
      FreeListIs(id, n - 1);
    }
  }

  ghost predicate Extends(place: map<Obj, Place>, place': map<Obj, Place>, id: SpanId, n: nat)
  {
    && (forall o :: o in place' <==> o in place || (o.span == id && o.index < n))
    && (forall o :: o in place' ==> place'[o] == if o in place then place[o] else Central)
  }

  lemma CreateExtends(s: State, c: nat, p: nat, id: SpanId, n: nat)
    requires PlacesOk(s.place, s.spans) && id !in s.spans && s.headers.Keys == s.place.Keys
    ensures Extends(s.place, Create(s, c, p, id, n).place, id, n)
    ensures Create(s, c, p, id, n).headers.Keys == Create(s, c, p, id, n).place.Keys
    ensures forall o :: o in s.place ==> o.span != id
  {
    forall o
      ensures o in ObjectsOf(id, n) <==> o.span == id && o.index < n
      ensures o in s.place ==> o.span != id
    {
      ObjectsAre(id, n, o);
      assert PlacedAt(s.place, s.spans, o);
    }
  }

  lemma OldSpan(span: Span, j: SpanId, place: map<Obj, Place>, place': map<Obj, Place>, id: SpanId, n: nat)
    requires SpanOk(span, j, place) && j != id && Extends(place, place', id, n)
    ensures SpanOk(span, j, place')
  {
    assert ActiveIn(place', j) == ActiveIn(place, j);
    assert CachedIn(place', j) == CachedIn(place, j);
  }

  lemma NewSpan(place: map<Obj, Place>, place': map<Obj, Place>, c: nat, p: nat, id: SpanId, n: nat)
    requires Extends(place, place', id, n) && (forall o :: o in place ==> o.span != id)
    requires c < CLASS_COUNT && p < MAX_P
    ensures SpanOk(Span(c, p, n, FreeList(id, n), n, n, 0, 0), id, place')
  {
    FreeListIs(id, n);
    assert ActiveIn(place', id) == {};
    assert CachedIn(place', id) == {};
  }

  lemma CreateSpans(s: State, c: nat, p: nat, id: SpanId, n: nat, place': map<Obj, Place>)
    requires Placed(s) && id !in s.spans && c < CLASS_COUNT && p < MAX_P && Extends(s.place, place', id, n)
    requires forall o :: o in s.place ==> o.span != id
    ensures var spans' := s.spans[id := Span(c, p, n, FreeList(id, n), n, n, 0, 0)];
            SpansOk(spans', place')
  {
    var spans' := s.spans[id := Span(c, p, n, FreeList(id, n), n, n, 0, 0)];
    NewSpan(s.place, place', c, p, id, n);
    forall j | j in spans'
      ensures SpanOk(spans'[j], j, place')
    {
      if j != id {
        OldSpan(s.spans[j], j, s.place, place', id, n);
      }
    }
  }

  lemma CreatePlaces(s: State, span: Span, id: SpanId, place': map<Obj, Place>)
    requires PlacesOk(s.place, s.spans) && id !in s.spans && Extends(s.place, place', id, span.objects)
    ensures PlacesOk(place', s.spans[id := span])
  {
    var spans' := s.spans[id := span];
    forall o
      ensures PlacedAt(place', spans', o)
    {
      assert PlacedAt(s.place, s.spans, o);
    }
  }

  lemma CreateCaches(caches: map<Key, Cache>, remote: bool, place: map<Obj, Place>,
                     place': map<Obj, Place>, id: SpanId, n: nat)
    requires CachesOk(caches, place, remote) && Extends(place, place', id, n)
    ensures CachesOk(caches, place', remote)
  {
    forall k
      ensures CacheOk(caches, place', remote, k)
    {
      assert CacheOk(caches, place, remote, k);
    }
  }

  lemma CreateLists(s: State, span: Span, id: SpanId)
    requires SpanListsOk(s.spans, s.central, s.all) && id !in s.spans
    ensures var c := span.sizeClass;
            SpanListsOk(s.spans[id := span], s.central[c := [id] + SpansOf(s.central, c)], [id] + s.all)
  {
    var c := span.sizeClass;
    assert id !in SpansOf(s.central, c);
    var central' := s.central[c := [id] + SpansOf(s.central, c)];
    forall b
      ensures SpansOf(central', b) == if b == c then [id] + SpansOf(s.central, c) else SpansOf(s.central, b)
    {
    }
  }

  lemma CreateKeeps(s: State, c: nat, p: nat, id: SpanId, n: nat)
    requires Placed(s) && id !in s.spans && c < CLASS_COUNT && p < MAX_P
    ensures Placed(Create(s, c, p, id, n))
  {
    var place' := Create(s, c, p, id, n).place;
    CreateExtends(s, c, p, id, n);
    CreateSpans(s, c, p, id, n, place');
    CreatePlaces(s, Span(c, p, n, FreeList(id, n), n, n, 0, 0), id, place');
    CreateCaches(s.caches, false, s.place, place', id, n);
    CreateCaches(s.remote, true, s.place, place', id, n);
    CreateLists(s, Span(c, p, n, FreeList(id, n), n, n, 0, 0), id);
  }
}
