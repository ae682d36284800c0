/** The allocator itself: malloc, free and realloc with their refill and drain
    loops.  The system's answers to requests for memory are parameters. */
module Allocator {
  import opened Common
  import opened SizeClass
  import opened SpanLayout
  import opened Memory
  import opened MemoryInvariant
  import opened MemoryUse
  import opened MemoryLists

  /** Neither the cache nor what it is refilled from has an object. */
  ghost predicate Exhausted(s: State, k: Key)
  {
    At(s.caches, k).list == [] && |At(s.remote, k).list| < REFILL && !Stocked(s, k.c)
  }

  predicate LargeRefused(size: nat, page: PageSize, granted: Option<nat>)
  {
    HEADER_SIZE + size > SIZE_MAX || HEADER_SIZE + size + page - 1 > SIZE_MAX || granted.None?
  }

  /** Exactly when an allocation of size bytes fails: the totals are full, or the
      system gives no memory that is needed: m is where it maps a span, granted a large
      object. */
  ghost predicate Refused(s: State, p: nat, size: nat, page: PageSize, m: Option<SpanId>, granted: Option<nat>)
  {
    || !CanAllocate(s, size)
    || (if ClassOf(size) < CLASS_COUNT then Exhausted(s, Key(Clamp(p), ClassOf(size))) && m.None?
        else LargeRefused(size, page, granted))
  }

  /** The room an object in use has where it is. */
  function Room(s: State, ptr: Ptr): nat
    requires match ptr case Small(o) => o in s.headers case Large(id) => id in s.largeHeaders
  {
    match ptr case Small(o) => s.headers[o].capacity case Large(id) => s.largeHeaders[id].capacity
  }

  /** Takes x out of a list, walking it from the head. */
  method Unlink(list: seq<nat>, x: nat) returns (r: seq<nat>)
    ensures r == Without(list, x)
  {
    var i := 0;
    while i < |list| && list[i] != x
      invariant i <= |list|
      invariant Without(list, x) == list[..i] + Without(list[i..], x)
    {
      assert list[i..][1..] == list[i + 1..];
      assert list[..i] + [list[i]] == list[..i + 1];
      i := i + 1;
    }
    if i < |list| {
      assert list[i..][1..] == list[i + 1..];
      r := list[..i] + list[i + 1..];
    } else {
      assert list[..i] == list;
      r := list;
    }
  }

  /** Writes the headers of a new span's objects and threads its free list. */
  method ThreadObjects(id: SpanId, n: nat, h: Header) returns (list: seq<Obj>, added: map<Obj, Header>)
    ensures list == FreeList(id, n)
    ensures added == NewHeaders(id, n, h)
  {
    list, added := [], map[];
    for i := 0 to n
      invariant list == FreeList(id, i)
      invariant added == NewHeaders(id, i, h)
    {
      assert ObjectsOf(id, i + 1) == ObjectsOf(id, i) + {Obj(id, i)};
      added := added[Obj(id, i) := h];
      list := [Obj(id, i)] + list;
    }
  }

  class Heap {
    const page: PageSize
    var caches: map<Key, Cache>
    var remote: map<Key, Cache>
    var spans: map<SpanId, Span>
    var central: map<nat, seq<SpanId>>
    var all: seq<SpanId>
    var headers: map<Obj, Header>
    var large: seq<nat>
    var largeHeaders: map<nat, Header>
    var activeBytes: int
    var activeObjects: int
    ghost var place: map<Obj, Place>
    ghost var live: map<Ptr, nat>

    ghost function View(): State
      reads this
    {
      State(caches, remote, spans, central, all, headers, large, largeHeaders, activeBytes, activeObjects, place, live)
    }

    constructor (pageSize: PageSize)
      ensures View() == Initial() && Inv(View()) && page == pageSize
    {
      page := pageSize;
      caches, remote, spans, central, all, headers := map[], map[], map[], map[], [], map[];
      large, largeHeaders, activeBytes, activeObjects, place, live := [], map[], 0, 0, map[], map[];
      new;
      InitialInv();
    }

    // ------------------------------------------------------------------ spans

    method FindRefillSpan(c: nat) returns (r: Option<SpanId>)
      requires SpanListsOk(spans, central, all)
      ensures r.Some? <==> Stocked(View(), c)
      ensures r.Some? ==> r.value in spans && spans[r.value].sizeClass == c && spans[r.value].central != []
    {
      var list := SpansOf(central, c);
      var i := 0;
      while i < |list| && !(list[i] in spans && spans[list[i]].central != [])
        invariant i <= |list|
        invariant forall j :: 0 <= j < i ==> list[j] !in spans || spans[list[j]].central == []
      {
        i := i + 1;
      }
      if i < |list| {
        assert multiset(SpansOf(central, c))[list[i]] > 0;
        r := Some(list[i]);
      } else {
        r := None;
        forall id | id in spans && spans[id].sizeClass == c
          ensures spans[id].central == []
        {
          assert multiset(SpansOf(central, c))[id] == 1;
          assert id in list;
        }
      }
    }

    method AddObjects(id: SpanId, n: nat, h: Header) returns (list: seq<Obj>)
      modifies `headers, `place
      ensures list == FreeList(id, n) && headers == old(headers) + NewHeaders(id, n, h)
      ensures place == old(place) + NewPlaces(id, n)
    {
      var added;
      list, added := ThreadObjects(id, n, h);
      headers := headers + added;
      place := place + NewPlaces(id, n);
    }

    method LinkSpan(c: nat, p: nat, id: SpanId, n: nat)
      requires c < CLASS_COUNT && p < MAX_P && id !in spans
      modifies this
      ensures View() == Create(old(View()), c, p, id, n)
    {
      var list := AddObjects(id, n, Header(false, 0, Capacity(c), p));
      spans := spans[id := Span(c, p, n, list, n, n, 0, 0)];
      all := [id] + all;
      central := central[c := [id] + SpansOf(central, c)];
    }

    method CreateSpan(c: nat, p: nat, m: Option<SpanId>) returns (r: Option<SpanId>)
      requires c < CLASS_COUNT && p < MAX_P && (m.Some? ==> m.value !in spans)
      modifies this
      ensures r == m
      ensures View() == if m.Some? then Create(old(View()), c, p, m.value, ObjectCount(c, page)) else old(View())
    {
      if m.None? {
        return None;
      }
      var n := CountObjects(c, page);
      LinkSpan(c, p, m.value, n);
      r := m;
    }

    method ReclaimIfEmpty(id: SpanId)
      requires id in spans
      modifies this
      ensures View() == Reclaim(old(View()), id)
    {
      var span := spans[id];
      if span.activeCount == 0 && span.cachedCount == 0 && span.centralCount == span.objects {
        var list := Unlink(SpansOf(central, span.sizeClass), id);
        central := central[span.sizeClass := list];
        all := Unlink(all, id);
        spans := spans - {id};
        headers := headers - ObjectsOf(id, span.objects);
        place := place - ObjectsOf(id, span.objects);
      }
    }

    // ----------------------------------------------------------------- caches

    /** An object that another processor freed comes home. */
    method BringHome(k: Key)
      requires Sane(View()) && At(remote, k).list != []
      modifies this
      ensures Sane(View()) && Moved(old(View()), View(), k)
      ensures At(caches, k).list == [old(At(remote, k).list[0])] + old(At(caches, k).list)
      ensures At(remote, k).list == old(At(remote, k).list[1..])
      ensures forall j :: j != k ==> At(remote, j) == old(At(remote, j))
      ensures spans == old(spans) && central == old(central) && all == old(all)
    {
      TakeRemoteSane(View(), k);
      var o := At(remote, k).list[0];
      remote := remote[k := Pop(At(remote, k))];
      caches := caches[k := Push(At(caches, k), o)];
      place := place[o := InCache(k)];
      assert View() == TakeRemote(old(View()), k);
    }

    /** The first free object of a span goes to the cache. */
    method TakeFromSpan(id: SpanId, k: Key)
      requires Sane(View()) && id in spans && spans[id].central != [] && spans[id].sizeClass == k.c
      modifies this
      ensures Sane(View()) && Taking(old(View()), View(), id, k, 1)
    {
      TakeCentralSane(View(), id, k);
      var span := spans[id];
      var o := span.central[0];
      spans := spans[id := span.(central := span.central[1..],
                                 centralCount := span.centralCount - 1,
                                 cachedCount := span.cachedCount + 1)];
      caches := caches[k := Push(At(caches, k), o)];
      place := place[o := InCache(k)];
      assert View() == TakeCentral(old(View()), id, k);
      OneTaken(old(View()), id, k);
    }

    /** The objects other processors freed come home, the first REFILL of them. */
    method BringAllHome(k: Key) returns (count: nat)
      requires Sane(View()) && At(caches, k).list == []
      modifies this
      ensures Sane(View()) && Brought(old(View()), View(), k, count)
    {
      count := 0;
      ghost var queue := At(remote, k).list;
      while At(remote, k).list != [] && count < REFILL
        invariant Sane(View()) && Moved(old(View()), View(), k)
        invariant count <= REFILL && count <= |queue|
        invariant At(caches, k).list == Backwards(queue[..count]) && At(remote, k).list == queue[count..]
        invariant forall j :: j != k ==> At(remote, j) == old(At(remote, j))
        invariant spans == old(spans) && central == old(central) && all == old(all)
        decreases REFILL - count
      {
        ghost var s := View();
        BringHome(k);
        MovedAgain(old(View()), s, View(), k);
        OneMore(queue, count);
        count := count + 1;
      }
      BackwardsLength(queue[..count]);
    }

    /** A span's free objects go to the cache, until it has REFILL or the span none. */
    method TakeSome(id: SpanId, k: Key, count0: nat) returns (ghost n: nat)
      requires Sane(View()) && id in spans && spans[id].central != [] && spans[id].sizeClass == k.c
      requires count0 < REFILL
      modifies this
      ensures Sane(View()) && n == Min(REFILL - count0, old(|spans[id].central|))
      ensures Taking(old(View()), View(), id, k, n)
    {
      var count := count0;
      n := 0;
      NoneTaken(View(), id, k);
      while count < REFILL && spans[id].central != []
        invariant Sane(View()) && Taking(old(View()), View(), id, k, n)
        invariant count == count0 + n <= REFILL
        decreases REFILL - count
      {
        ghost var s := View();
        TakeFromSpan(id, k);
        TakingMore(old(View()), s, View(), id, k, n);
        count, n := count + 1, n + 1;
      }
    }

    /** The span to take objects from: the one found, or else a new one. */
    method FindOrCreate(k: Key, found: Option<SpanId>, m: Option<SpanId>) returns (span: Option<SpanId>)
      requires Sane(View()) && Tidy(View()) && k.p < MAX_P && k.c < CLASS_COUNT && (m.Some? ==> m.value !in spans)
      requires found.Some? ==> found.value in spans && spans[found.value].sizeClass == k.c
                               && spans[found.value].central != []
      modifies this
      ensures span == if found.Some? then found else m
      ensures span.None? || found.Some? ==> View() == old(View())
      ensures Sane(View()) && Moved(old(View()), View(), k) && caches == old(caches) && remote == old(remote)
      ensures span.Some? ==> span.value in spans && spans[span.value].sizeClass == k.c
                             && spans[span.value].central != [] && TidyBut(View(), span.value)
      ensures span.Some? && found.None? ==> spans[span.value].central == FreeList(m.value, ObjectCount(k.c, page))
    {
      span := found;
      if found.None? {
        NewSpanSane(View(), k, page, m);
        span := CreateSpan(k.c, k.p, m);
      }
    }

    /** Fills an empty cache.  It fails exactly when the queue of objects freed
        elsewhere has fewer than REFILL, no span of the class has a free object
        and the system grants no mapping; then the queue's objects are in the
        cache all the same. */
    method RefillCache(k: Key, m: Option<SpanId>) returns (ok: bool, ghost source: seq<Obj>)
      requires Sane(View()) && Tidy(View()) && At(caches, k).list == [] && k.p < MAX_P && k.c < CLASS_COUNT
      requires m.Some? ==> m.value !in spans
      modifies this
      ensures Sane(View()) && Tidy(View()) && Moved(old(View()), View(), k)
      ensures |At(caches, k).list| <= REFILL && (ok ==> At(caches, k).list != [])
      ensures ok <==> |old(At(remote, k).list)| >= REFILL || old(Stocked(View(), k.c)) || m.Some?
      ensures Refilled(old(View()), View(), k, source)
      ensures ok && source != [] ==>
                SourceOf(old(View()), k.c, if m.Some? then FreeList(m.value, ObjectCount(k.c, page)) else [], source)
      ensures ok ==> source != [] || |old(At(remote, k).list)| >= REFILL
      ensures !ok ==> source == []
    {
      source := [];
      ghost var s := View();
      var span := FindRefillSpan(k.c);
      var count := BringAllHome(k);
      BroughtIs(s, View(), k, count);
      RefilledLength(s, View(), k, []);
      if count == REFILL {
        return true, source;
      }
      ghost var s0 := View();
      span := FindOrCreate(k, span, m);
      if span.None? {
        return false, source;
      }
      source := spans[span.value].central;
      ghost var s1 := View();
      BroughtHome(s, s0, s1, k, count);
      ghost var n := TakeSome(span.value, k, count);
      FilledUp(s, s1, View(), k, span.value, count, n);
      RefilledLength(s, View(), k, source);
      ok := true;
    }

    method MoveHome(k: Key) returns (o: Obj)
      requires At(caches, k).list != [] && At(caches, k).list[0].span in spans
      modifies this
      ensures o == old(At(caches, k).list[0]) && View() == ToCentral(old(View()), k)
    {
      o := At(caches, k).list[0];
      var span := spans[o.span];
      caches := caches[k := Pop(At(caches, k))];
      spans := spans[o.span := span.(central := [o] + span.central,
                                     centralCount := span.centralCount + 1,
                                     cachedCount := if span.cachedCount > 0 then span.cachedCount - 1
                                                    else span.cachedCount)];
      place := place[o := Central];
    }

    /** The head of a cache goes back to its span, and the span goes if that
        empties it. */
    method ReturnHead(k: Key)
      requires Sane(View()) && At(caches, k).list != []
      modifies this
      ensures Sane(View()) && Moved(old(View()), View(), k) && Drained(old(View()), View(), k, 1)
    {
      HeadReturned(View(), k);
      var o := MoveHome(k);
      ReclaimIfEmpty(o.span);
    }

    /** Draining gives back exactly the first REFILL objects, or all there are. */
    method DrainCache(k: Key)
      requires Sane(View())
      modifies this
      ensures Sane(View()) && Moved(old(View()), View(), k)
      ensures Drained(old(View()), View(), k, Min(REFILL, old(|At(caches, k).list|)))
    {
      var count := 0;
      NoneDrained(View(), k);
      while count < REFILL && At(caches, k).list != []
        invariant count <= REFILL
        invariant Sane(View()) && Moved(old(View()), View(), k)
        invariant Drained(old(View()), View(), k, count)
        decreases REFILL - count
      {
        ghost var s := View();
        ReturnHead(k);
        MovedAgain(old(View()), s, View(), k);
        DrainedMore(old(View()), s, View(), k, count);
        count := count + 1;
      }
    }

    // ------------------------------------------------------------------ calls

    method MarkFree(o: Obj)
      requires o in headers
      modifies this
      ensures View() == Drop(old(View()).(headers := old(headers)[o := old(headers[o]).(inUse := false)]),
                             Small(o), old(headers[o].requested))
    {
      var h := headers[o];
      headers := headers[o := h.(inUse := false)];
      activeBytes, activeObjects := activeBytes - h.requested, activeObjects - 1;
      live := live - {Small(o)};
    }

    /** The object goes to its owner's cache or, freed by another processor, to
        its owner's queue; count is the length of the list it went to. */
    method LinkBack(o: Obj, owner: nat, home: bool) returns (count: int)
      requires o.span in spans
      modifies this
      ensures View() == PutBack(old(View()), o, owner, home)
      ensures var k := Key(owner, old(spans[o.span].sizeClass));
              count == if home then At(caches, k).count else At(remote, k).count
    {
      var k := Key(owner, spans[o.span].sizeClass);
      spans := spans[o.span := Released(spans[o.span])];
      if home {
        caches := caches[k := Push(At(caches, k), o)];
        place := place[o := InCache(k)];
        count := At(caches, k).count;
      } else {
        remote := remote[k := Push(At(remote, k), o)];
        place := place[o := InRemote(k)];
        count := At(remote, k).count;
      }
    }

    /** Gives an object back.  A list grown too long drains the current
        processor's own cache, also when the long list is another's queue. */
    method FreeSmall(o: Obj, p: nat)
      requires Inv(View()) && o in headers && headers[o].inUse
      modifies this
      ensures Inv(View()) && live == old(live) - {Small(o)}
      ensures o.span in old(spans) && Freed(old(View()), View(), o, p)
    {
      InUseIs(View(), o);
      ghost var s := View();
      var home := Clamp(p) == Clamp(headers[o].owner);
      var c := spans[o.span].sizeClass;
      TakeBackSane(s, o, home);
      TakeBackIs(s, o, home);
      TakenBackTidy(s, o, home);
      var owner := Clamp(headers[o].owner);
      MarkFree(o);
      var count := LinkBack(o, owner, home);
      CountIs(s, View(), o, home);
      if count > CACHE_MAX {
        ghost var s1 := View();
        DrainCache(Key(Clamp(p), c));
        DrainBounded(s, s1, View(), o, Clamp(p), home);
        FreedDrained(s, s1, View(), o, p);
      } else {
        NoDrainBounded(s, View(), o, home);
        FreedPlain(s, o, p);
      }
    }

    method TakeHead(k: Key) returns (o: Obj)
      requires At(caches, k).list != [] && At(caches, k).list[0].span in spans
      modifies this
      ensures o == old(At(caches, k).list[0]) && View() == TakeCached(old(View()), k)
    {
      o := At(caches, k).list[0];
      var span := spans[o.span];
      caches := caches[k := Pop(At(caches, k))];
      spans := spans[o.span := span.(cachedCount := span.cachedCount - 1,
                                     freeCount := span.freeCount - 1,
                                     activeCount := span.activeCount + 1)];
      place := place[o := Active];
    }

    method Record(o: Obj, h: Header)
      modifies this
      ensures View() == Hold(old(View()).(headers := old(headers)[o := h]), Small(o), h.requested)
    {
      headers := headers[o := h];
      activeBytes, activeObjects := activeBytes + h.requested, activeObjects + 1;
      live := live[Small(o) := h.requested];
    }

    /** A small object: the call fails exactly when the cache is empty and cannot
        be refilled. */
    method MallocSmall(p: nat, size: nat, m: Option<SpanId>) returns (r: Option<Ptr>)
      requires Inv(View()) && CanAllocate(View(), size) && ClassOf(size) < CLASS_COUNT
      requires m.Some? ==> m.value !in spans
      modifies this
      ensures Inv(View())
      ensures r.Some? ==> r.value.Small? && r.value !in old(live) && live == old(live)[r.value := size]
      ensures r.None? ==> live == old(live)
      ensures r.None? <==> old(Exhausted(View(), Key(Clamp(p), ClassOf(size)))) && m.None?
      ensures var k := Key(Clamp(p), ClassOf(size));
              old(At(caches, k).list) != [] ==>
                && r == Some(Small(old(At(caches, k).list[0]))) && At(caches, k).list == old(At(caches, k).list[1..])
                && OthersKept(old(View()), View(), k) && remote == old(remote)
    {
      var c := IndexOf(size);
      var k := Key(Clamp(p), c);
      if At(caches, k).list == [] {
        var ok, source := RefillCache(k, m);
        RefillBounded(old(View()), View(), k);
        if !ok {
          return None;
        }
      }
      ghost var s := View();
      HandOutSane(s, k, size);
      HandOutBounded(s, k, size);
      HandOutTidy(s, k, size);
      var o := TakeHead(k);
      Record(o, Header(true, size, Capacity(c), spans[o.span].owner));
      assert View() == HandOut(s, k, size);
      r := Some(Small(o));
    }

    method InsertLarge(id: nat, h: Header)
      modifies this
      ensures View() == Hold(old(View()).(large := [id] + old(large), largeHeaders := old(largeHeaders)[id := h]),
                             Large(id), h.requested)
    {
      large, largeHeaders := [id] + large, largeHeaders[id := h];
      activeBytes, activeObjects := activeBytes + h.requested, activeObjects + 1;
      live := live[Large(id) := h.requested];
    }

    method RemoveLarge(id: nat)
      requires id in largeHeaders
      modifies this
      ensures View() == UnmapLarge(old(View()), id)
    {
      var h := largeHeaders[id];
      large := Unlink(large, id);
      largeHeaders := largeHeaders - {id};
      activeBytes, activeObjects := activeBytes - h.requested, activeObjects - 1;
      live := live - {Large(id)};
    }

    method MallocLarge(p: nat, size: nat, granted: Option<nat>) returns (r: Option<Ptr>)
      requires Inv(View()) && CanAllocate(View(), size) && (granted.Some? ==> granted.value !in largeHeaders)
      modifies this
      ensures Inv(View())
      ensures r.Some? ==> r.value.Large? && r.value !in old(live) && live == old(live)[r.value := size]
      ensures r.None? ==> View() == old(View())
      ensures r.None? <==> LargeRefused(size, page, granted)
    {
      if size > SIZE_MAX - HEADER_SIZE {
        return None;
      }
      var bytes := HEADER_SIZE + size;
      if bytes > SIZE_MAX - (page - 1) || granted.None? {
        return None;
      }
      var id := granted.value;
      MapLargeSane(View(), id, size, Clamp(p));
      InsertLarge(id, Header(true, size, size, Clamp(p)));
      r := Some(Large(id));
    }

    /** What malloc gives is nobody else's, and is as large as was asked; when it
        gives nothing, which is exactly when it has to refuse, callers hold what
        they held. */
    method Malloc(p: nat, asked: nat, m: Option<SpanId>, granted: Option<nat>) returns (r: Option<Ptr>)
      requires Inv(View()) && (m.Some? ==> m.value !in spans) && (granted.Some? ==> granted.value !in largeHeaders)
      modifies this
      ensures Inv(View())
      ensures r.Some? ==> r.value !in old(live) && live == old(live)[r.value := if asked == 0 then 1 else asked]
      ensures r.None? ==> live == old(live)
      ensures r.None? <==> old(Refused(View(), p, if asked == 0 then 1 else asked, page, m, granted))
      ensures var k := Key(Clamp(p), ClassOf(if asked == 0 then 1 else asked));
              r.Some? && k.c < CLASS_COUNT && old(At(caches, k).list) != [] ==>
                && r == Some(Small(old(At(caches, k).list[0]))) && At(caches, k).list == old(At(caches, k).list[1..])
                && OthersKept(old(View()), View(), k) && remote == old(remote)
      ensures old(!CanAllocate(View(), if asked == 0 then 1 else asked)) ==> View() == old(View())
    {
      var size := if asked == 0 then 1 else asked;
      if !(size <= SIZE_MAX && activeBytes <= SIZE_MAX - size && activeObjects != SIZE_MAX) {
        return None;
      }
      var c := IndexOf(size);
      if c >= CLASS_COUNT {
        r := MallocLarge(p, size, granted);
      } else {
        r := MallocSmall(p, size, m);
      }
    }

    ghost predicate Mapped(ptr: Ptr)
      reads this
    {
      match ptr
      case Small(o) => o in headers
      case Large(id) => id in largeHeaders
    }

    /** Free takes back what the caller holds; freeing nothing, or an object that is
        mapped but not in use, changes nothing. */
    method Free(p: nat, ptr: Option<Ptr>)
      requires Inv(View()) && (ptr.Some? ==> Mapped(ptr.value))
      modifies this
      ensures Inv(View()) && live == if ptr.Some? then old(live) - {ptr.value} else old(live)
      ensures ptr.None? || ptr.value !in old(live) ==> View() == old(View())
      ensures ptr.Some? && ptr.value.Small? && ptr.value in old(live) ==>
                ptr.value.obj.span in old(spans) && Freed(old(View()), View(), ptr.value.obj, p)
    {
      if ptr.Some? {
        FreeMapped(p, ptr.value);
      }
    }

    method FreeMapped(p: nat, ptr: Ptr)
      requires Inv(View()) && Mapped(ptr)
      modifies this
      ensures Inv(View()) && live == old(live) - {ptr}
      ensures ptr !in old(live) ==> View() == old(View())
      ensures ptr.Small? && ptr in old(live) ==>
                ptr.obj.span in old(spans) && Freed(old(View()), View(), ptr.obj, p)
    {
      match ptr {
        case Small(o) => FreeObject(p, o);
        case Large(id) => FreeLarge(id);
      }
    }

    method FreeObject(p: nat, o: Obj)
      requires Inv(View()) && o in headers
      modifies this
      ensures Inv(View()) && live == old(live) - {Small(o)}
      ensures Small(o) !in old(live) ==> View() == old(View())
      ensures Small(o) in old(live) ==> o.span in old(spans) && Freed(old(View()), View(), o, p)
    {
      NotInUseIs(View(), o);
      if headers[o].inUse {
        InUseIs(View(), o);
        if activeObjects == 0 || activeBytes < headers[o].requested {
          return;
        }
        FreeSmall(o, p);
      }
    }

    method FreeLarge(id: nat)
      requires Inv(View()) && id in largeHeaders
      modifies this
      ensures Inv(View()) && live == old(live) - {Large(id)} && Large(id) in old(live)
    {
      UnmapLargeSane(View(), id);
      var h := largeHeaders[id];
      if !h.inUse || activeObjects == 0 || activeBytes < h.requested {
        return;
      }
      RemoveLarge(id);
    }

    method ResizeInPlace(ptr: Ptr, h: Header, size: nat)
      modifies this
      ensures View() == Resize(old(View()), ptr, h, size)
    {
      match ptr {
        case Small(o) => headers := headers[o := h.(requested := size)];
        case Large(id) => largeHeaders := largeHeaders[id := h.(requested := size)];
      }
      activeBytes, live := activeBytes - h.requested + size, live[ptr := size];
    }

    method ReallocMapped(p: nat, ptr: Ptr, size: nat, m: Option<SpanId>, granted: Option<nat>)
      returns (r: Option<Ptr>)
      requires Inv(View()) && Mapped(ptr)
      requires (m.Some? ==> m.value !in spans) && (granted.Some? ==> granted.value !in largeHeaders)
      modifies this
      ensures Inv(View())
      ensures size == 0 ==> r.None? && live == old(live) - {ptr}
      ensures size != 0 && r.None? ==> live == old(live)
      ensures r.Some? ==> ptr in old(live)
      ensures r.Some? && r.value == ptr ==> live == old(live)[ptr := size]
      ensures r.Some? && r.value != ptr ==> r.value !in old(live) && live == old(live)[r.value := size] - {ptr}
      ensures size != 0 && ptr in old(live) ==>
                if size <= old(Room(View(), ptr))
                then r == if old(activeBytes - live[ptr]) + size <= SIZE_MAX then Some(ptr) else None
                else r != Some(ptr) && (r.None? <==> old(Refused(View(), p, size, page, m, granted)))
    {
      if size == 0 {
        FreeMapped(p, ptr);
        return None;
      }
      var h := match ptr case Small(o) => headers[o] case Large(id) => largeHeaders[id];
      HeldIs(View(), ptr, h);
      if !h.inUse {
        return None;
      }
      if size <= h.capacity {
        if activeBytes < h.requested || activeBytes - h.requested > SIZE_MAX - size {
          return None;
        }
        ResizeInv(View(), ptr, h, size);
        ResizeInPlace(ptr, h, size);
        return Some(ptr);
      }
      r := Malloc(p, size, m, granted);
      if r.Some? {
        StillMapped(View(), ptr);
        FreeMapped(p, ptr);
      }
    }

    /** Within its capacity an object keeps its place; otherwise the new object is
        taken before the old one goes, and a failure leaves the old one held.  A
        pointer that is not in use gets nothing, and without one this is malloc. */
    method Realloc(p: nat, ptr: Option<Ptr>, size: nat, m: Option<SpanId>, granted: Option<nat>)
      returns (r: Option<Ptr>)
      requires Inv(View()) && (ptr.Some? ==> Mapped(ptr.value))
      requires (m.Some? ==> m.value !in spans) && (granted.Some? ==> granted.value !in largeHeaders)
      modifies this
      ensures Inv(View())
      ensures r.None? ==> live == if ptr.Some? && size == 0 then old(live) - {ptr.value} else old(live)
      ensures ptr.Some? && size == 0 ==> r.None?
      ensures ptr.Some? && r.Some? ==> ptr.value in old(live)
      ensures r.Some? && r == ptr ==> live == old(live)[r.value := size]
      ensures r.Some? && r != ptr ==>
                && r.value !in old(live)
                && live == if ptr.None? then old(live)[r.value := if size == 0 then 1 else size]
                           else old(live)[r.value := size] - {ptr.value}
      ensures ptr.Some? && size != 0 && ptr.value in old(live) ==>
                if size <= old(Room(View(), ptr.value))
                then r == if old(activeBytes - live[ptr.value]) + size <= SIZE_MAX then ptr else None
                else r != ptr && (r.None? <==> old(Refused(View(), p, size, page, m, granted)))
      ensures ptr.None? ==> (r.None? <==> old(Refused(View(), p, if size == 0 then 1 else size, page, m, granted)))
    {
      if ptr.None? {
        r := Malloc(p, size, m, granted);
      } else {
        r := ReallocMapped(p, ptr.value, size, m, granted);
      }
    }
  }

  /** The processor owns the object it holds, and its cache is not full. */
  ghost predicate Reusable(s: State, o: Obj, p: nat, size: nat)
  {
    && Inv(s) && o in s.headers && o.span in s.spans && Small(o) in s.live && 0 < size <= s.live[Small(o)]
    && Clamp(p) == Clamp(s.headers[o].owner) && ClassOf(size) == s.spans[o.span].sizeClass
    && |At(s.caches, Key(Clamp(p), ClassOf(size))).list| < CACHE_MAX
  }

  lemma FreedReady(s: State, s': State, o: Obj, p: nat, size: nat)
    requires Reusable(s, o, p, size) && Freed(s, s', o, p) && Inv(s') && s'.live == s.live - {Small(o)}
    ensures var k := Key(Clamp(p), ClassOf(size));
            && k.c < CLASS_COUNT && At(s'.caches, k).list == [o] + At(s.caches, k).list && OthersKept(s, s', k)
            && CanAllocate(s', size) && s'.spans.Keys <= s.spans.Keys && s'.largeHeaders == s.largeHeaders
  {
    SumRemove(s.live, Small(o));
    assert SpanOk(s.spans[o.span], o.span, s.place);
  }

  lemma Restored(s: State, s1: State, s': State, k: Key, o: Obj, size: nat)
    requires At(s1.caches, k).list == [o] + At(s.caches, k).list && OthersKept(s, s1, k)
    requires At(s'.caches, k).list == At(s1.caches, k).list[1..] && OthersKept(s1, s', k)
    requires Small(o) in s.live && s1.live == s.live - {Small(o)} && s'.live == s1.live[Small(o) := size]
    ensures s'.live == s.live[Small(o) := size] && forall j :: At(s'.caches, j).list == At(s.caches, j).list
  {
  }

  /** An object its own processor frees and then allocates again comes back, unless the
      free drained the cache. */
  method FreeThenMalloc(heap: Heap, p: nat, o: Obj, size: nat, m: Option<SpanId>, granted: Option<nat>)
    returns (r: Option<Ptr>)
    requires Reusable(heap.View(), o, p, size)
    requires (m.Some? ==> m.value !in heap.spans) && (granted.Some? ==> granted.value !in heap.largeHeaders)
    modifies heap
    ensures r == Some(Small(o)) && Inv(heap.View()) && heap.live == old(heap.live)[Small(o) := size]
    ensures forall k :: At(heap.caches, k).list == old(At(heap.caches, k).list)
  {
    ghost var s := heap.View();
    heap.Free(p, Some(Small(o)));
    ghost var s1 := heap.View();
    FreedReady(s, s1, o, p, size);
    r := heap.Malloc(p, size, m, granted);
    Restored(s, s1, heap.View(), Key(Clamp(p), ClassOf(size)), o, size);
  }

  predicate IsHeader(s: State, ptr: Ptr, h: Header)
  {
    match ptr
    case Small(o) => o in s.headers && s.headers[o] == h
    case Large(id) => id in s.largeHeaders && s.largeHeaders[id] == h
  }

  lemma ResizeInv(s: State, ptr: Ptr, h: Header, size: nat)
    requires Inv(s) && IsHeader(s, ptr, h) && h.inUse && size <= h.capacity
    requires s.activeBytes - h.requested <= SIZE_MAX - size
    ensures Inv(Resize(s, ptr, h, size))
  {
    match ptr {
      case Small(o) => ResizeSmallSane(s, o, size);
      case Large(id) => ResizeLargeSane(s, id, size);
    }
  }

  lemma RefillBounded(s: State, s': State, k: Key)
    requires Bounded(s) && Moved(s, s', k) && |At(s'.caches, k).list| <= REFILL
    ensures Bounded(s')
  {
    forall j
      ensures |At(s'.caches, j).list| <= CACHE_MAX
    {
      assert |At(s.caches, j).list| <= CACHE_MAX;
    }
  }

  lemma HandOutBounded(s: State, k: Key, size: nat)
    requires Bounded(s) && At(s.caches, k).list != [] && At(s.caches, k).list[0].span in s.spans
    ensures Bounded(HandOut(s, k, size))
  {
    var s' := HandOut(s, k, size);
    forall j
      ensures |At(s'.caches, j).list| <= CACHE_MAX
    {
      assert |At(s.caches, j).list| <= CACHE_MAX;
    }
  }

  lemma HandOutTidy(s: State, k: Key, size: nat)
    requires Placed(s) && Tidy(s) && At(s.caches, k).list != [] && At(s.caches, k).list[0].span in s.spans
    ensures Tidy(HandOut(s, k, size))
  {
    var id := At(s.caches, k).list[0].span;
    assert SpanOk(s.spans[id], id, s.place);
  }

  lemma NotInUseIs(s: State, o: Obj)
    requires Sane(s) && o in s.headers
    ensures s.headers[o].inUse <==> Small(o) in s.live
  {
    assert HeaderAt(s.headers, s.spans, s.live, o);
  }

  /** The header of a pointer tells whether a caller holds it, and how much. */
  lemma HeldIs(s: State, ptr: Ptr, h: Header)
    requires Sane(s) && IsHeader(s, ptr, h)
    ensures h.inUse <==> ptr in s.live
    ensures h.inUse ==> h.requested == s.live[ptr] && s.activeBytes >= h.requested
  {
    match ptr {
      case Small(o) =>
        NotInUseIs(s, o);
        if h.inUse {
          InUseIs(s, o);
        }
      case Large(id) => UnmapLargeSane(s, id);
    }
  }

  /** What a caller holds is mapped memory. */
  lemma StillMapped(s: State, ptr: Ptr)
    requires Sane(s) && ptr in s.live
    ensures match ptr case Small(o) => o in s.headers case Large(id) => id in s.largeHeaders
  {
  }

  lemma TakeBackSane(s: State, o: Obj, home: bool)
    requires Sane(s) && o in s.headers && s.headers[o].inUse
    ensures o.span in s.spans && Sane(TakeBack(s, o, home))
  {
    TakeBackPlaced(s, o, home);
    TakeBackLive(s, o, home);
  }

  /** What giving an object back does to the caches. */
  lemma TakeBackIs(s: State, o: Obj, home: bool)
    requires o in s.headers && o.span in s.spans
    ensures var s' := TakeBack(s, o, home);
            var k := Key(Clamp(s.headers[o].owner), s.spans[o.span].sizeClass);
            && s'.live == s.live - {Small(o)} && OthersKept(s, s', k)
            && At(s'.caches, k) == (if home then Push(At(s.caches, k), o) else At(s.caches, k))
  {
  }

  /** The list an object went to counts its objects. */
  lemma CountIs(s: State, s': State, o: Obj, home: bool)
    requires Placed(s') && o in s.headers && o.span in s.spans && s' == TakeBack(s, o, home)
    ensures var k := Key(Clamp(s.headers[o].owner), s.spans[o.span].sizeClass);
            if home then At(s'.caches, k).count == |At(s.caches, k).list| + 1
            else At(s'.remote, k).count == |At(s.remote, k).list| + 1
  {
    var k := Key(Clamp(s.headers[o].owner), s.spans[o.span].sizeClass);
    assert CacheOk(s'.caches, s'.place, false, k);
    assert CacheOk(s'.remote, s'.place, true, k);
  }

  lemma NoDrainBounded(s: State, s': State, o: Obj, home: bool)
    requires Bounded(s) && Placed(s') && o in s.headers && o.span in s.spans && s' == TakeBack(s, o, home)
    requires var k := Key(Clamp(s.headers[o].owner), s.spans[o.span].sizeClass);
             home ==> At(s'.caches, k).count <= CACHE_MAX
    ensures Bounded(s')
  {
    var k := Key(Clamp(s.headers[o].owner), s.spans[o.span].sizeClass);
    TakeBackIs(s, o, home);
    assert CacheOk(s'.caches, s'.place, false, k);
  }

  lemma DrainBounded(s: State, s1: State, s': State, o: Obj, p: nat, home: bool)
    requires Bounded(s) && o in s.headers && o.span in s.spans && s1 == TakeBack(s, o, home)
    requires home <==> p == Clamp(s.headers[o].owner)
    requires var k := Key(p, s.spans[o.span].sizeClass);
             && Moved(s1, s', k)
             && At(s'.caches, k).list == At(s1.caches, k).list[Min(REFILL, |At(s1.caches, k).list|)..]
    ensures Bounded(s')
  {
    TakeBackIs(s, o, home);
    var k, own := Key(p, s.spans[o.span].sizeClass), Key(Clamp(s.headers[o].owner), s.spans[o.span].sizeClass);
    forall j
      ensures |At(s'.caches, j).list| <= CACHE_MAX
    {
      assert |At(s.caches, j).list| <= CACHE_MAX;
      assert j != own ==> At(s1.caches, j) == At(s.caches, j);
    }
  }

  lemma NewSpanSane(s: State, k: Key, page: PageSize, m: Option<SpanId>)
    requires Sane(s) && k.p < MAX_P && k.c < CLASS_COUNT && (m.Some? ==> m.value !in s.spans)
    ensures m.Some? ==>
              var s' := Create(s, k.c, k.p, m.value, ObjectCount(k.c, page));
              && Sane(s') && Moved(s, s', k) && s'.caches == s.caches
              && m.value in s'.spans && s'.spans[m.value].sizeClass == k.c && s'.spans[m.value].central != []
  {
    if m.Some? {
      var n := ObjectCount(k.c, page);
      SpanHasRoom(k.c, page);
      CreateSane(s, k.c, k.p, m.value, n);
      FreeListIs(m.value, n);
    }
  }

  // ----------------------------------------------------- what the invariant says

  lemma InitialInv()
    ensures Inv(Initial())
  {
    forall k
      ensures CacheOk(Initial().caches, Initial().place, false, k)
      ensures CacheOk(Initial().remote, Initial().place, true, k)
    {
    }
  }

  /** Each object of each mapped span is in exactly one of: a caller's hands, its
      span's central list, one processor's cache, its owner's queue. */
  lemma OneOfFourPlaces(s: State, o: Obj)
    requires Inv(s) && o.span in s.spans && o.index < s.spans[o.span].objects
    ensures Once(Small(o) in s.live) + Once(o in s.spans[o.span].central)
            + Once(exists k :: o in At(s.caches, k).list) + Once(exists k :: o in At(s.remote, k).list) == 1
    ensures forall k, j :: o in At(s.caches, k).list && o in At(s.caches, j).list ==> k == j
    ensures forall k :: o in At(s.remote, k).list ==> k == Key(s.spans[o.span].owner, s.spans[o.span].sizeClass)
    ensures forall k :: o in At(s.caches, k).list ==> k.c == s.spans[o.span].sizeClass
  {
    assert PlacedAt(s.place, s.spans, o);
    assert SpanOk(s.spans[o.span], o.span, s.place);
    assert Small(o) in s.live <==> s.place[o].Active?;
    forall k
      ensures o in At(s.caches, k).list <==> s.place[o] == InCache(k)
      ensures o in At(s.remote, k).list <==> s.place[o] == InRemote(k)
    {
      assert CacheOk(s.caches, s.place, false, k);
      assert CacheOk(s.remote, s.place, true, k);
    }
  }

  /** No list and no caller refers to an object outside the mapped spans. */
  lemma OnlyMappedMemory(s: State, o: Obj, k: Key)
    requires Inv(s)
    requires Small(o) in s.live || o in At(s.caches, k).list || o in At(s.remote, k).list
    ensures o.span in s.spans && o.index < s.spans[o.span].objects
  {
    assert CacheOk(s.caches, s.place, false, k);
    assert CacheOk(s.remote, s.place, true, k);
    assert Small(o) in s.live ==> o in s.place;
    HasSpan(s.place, s.spans, o);
  }

  /** A span is unmapped exactly when every one of its objects is on its own central
      list. */
  lemma UnmappedIffFree(s: State, id: SpanId)
    requires Sane(s) && id in s.spans
    ensures id !in Reclaim(s, id).spans <==>
            forall i: nat :: i < s.spans[id].objects ==> Obj(id, i) in s.spans[id].central
  {
    assert SpanOk(s.spans[id], id, s.place);
    if Empty(s.spans[id]) {
      forall i: nat | i < s.spans[id].objects
        ensures Obj(id, i) in s.spans[id].central
      {
        assert PlacedAt(s.place, s.spans, Obj(id, i));
        EmptySpan(s, id, Obj(id, i));
      }
    } else if forall i: nat :: i < s.spans[id].objects ==> Obj(id, i) in s.spans[id].central {
      AllCentral(s, id);
    }
  }

  lemma AllCentral(s: State, id: SpanId)
    requires Placed(s) && id in s.spans
    requires forall i: nat :: i < s.spans[id].objects ==> Obj(id, i) in s.spans[id].central
    ensures Empty(s.spans[id])
  {
    assert SpanOk(s.spans[id], id, s.place);
    forall o | o in s.place && o.span == id
      ensures s.place[o].Central?
    {
      assert PlacedAt(s.place, s.spans, o);
      assert Obj(id, o.index) in s.spans[id].central;
    }
    assert ActiveIn(s.place, id) == {} && CachedIn(s.place, id) == {};
  }

  /** Between calls no mapping is kept for nothing: every span has an object that is in
      use, in a cache or in a queue. */
  lemma NoEmptySpan(s: State, id: SpanId)
    requires Inv(s) && id in s.spans
    ensures exists i: nat :: i < s.spans[id].objects && Obj(id, i) !in s.spans[id].central
  {
    UnmappedIffFree(s, id);
  }

  /** The counters of a span count its objects, and the totals are the sums over
      what callers hold. */
  lemma AccountsBalance(s: State, id: SpanId)
    requires Inv(s) && id in s.spans
    ensures var span := s.spans[id];
            && span.objects == span.activeCount + span.freeCount
            && span.freeCount == span.centralCount + span.cachedCount
            && span.centralCount == |span.central| && span.cachedCount >= 0 && span.activeCount >= 0
            && span.activeCount == |ActiveIn(s.place, id)| && span.cachedCount == |CachedIn(s.place, id)|
    ensures s.activeBytes == Sum(s.live) && s.activeObjects == |s.live|
  {
    assert SpanOk(s.spans[id], id, s.place);
  }
}
