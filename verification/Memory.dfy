/** The allocator's bookkeeping as a value, and its elementary moves.

    Small objects live in spans.  A free object is on its span's central list,
    in the cache of some processor, or in the queue of objects freed by other
    processors than the span's owner.  Every call holds one lock, so calls are
    steps. */
module Memory {
  import opened Common
  import opened SizeClass

  type SpanId = nat

  datatype Obj = Obj(span: SpanId, index: nat)

  datatype Ptr = Small(obj: Obj) | Large(id: nat)

  /** A processor and a size class. */
  datatype Key = Key(p: nat, c: nat)

  datatype Cache = Cache(list: seq<Obj>, count: int)

  datatype Span = Span(
    sizeClass: nat,
    owner: nat,
    objects: nat,
    central: seq<Obj>,
    centralCount: int,
    freeCount: int,
    activeCount: int,
    cachedCount: int)

  datatype Header = Header(inUse: bool, requested: nat, capacity: nat, owner: nat)

  /** Where an object is. */
  datatype Place = Active | Central | InCache(key: Key) | InRemote(key: Key)

  datatype State = State(
    caches: map<Key, Cache>,
    remote: map<Key, Cache>,
    spans: map<SpanId, Span>,
    central: map<nat, seq<SpanId>>,
    all: seq<SpanId>,
    headers: map<Obj, Header>,
    large: seq<nat>,
    largeHeaders: map<nat, Header>,
    activeBytes: int,
    activeObjects: int,
    place: map<Obj, Place>,        // history: where each object of a mapped span is
    live: map<Ptr, nat>)           // history: what callers hold, and how much they asked for

  const CACHE_MAX := 64
  const REFILL := 32
  const MAX_P := 64

  function Initial(): State
  {
    State(map[], map[], map[], map[], [], map[], [], map[], 0, 0, map[], map[])
  }

  function At(caches: map<Key, Cache>, k: Key): Cache
  {
    if k in caches then caches[k] else Cache([], 0)
  }

  function SpansOf(central: map<nat, seq<SpanId>>, c: nat): seq<SpanId>
  {
    if c in central then central[c] else []
  }

  function Push(cache: Cache, o: Obj): Cache
  {
    Cache([o] + cache.list, cache.count + 1)
  }

  function Pop(cache: Cache): Cache
    requires cache.list != []
  {
    Cache(cache.list[1..], cache.count - 1)
  }

  function Clamp(p: nat): nat
  {
    if p < MAX_P then p else 0
  }

  function ObjectsOf(id: SpanId, n: nat): set<Obj>
  {
    set i | 0 <= i < n :: Obj(id, i)
  }

  // -------------------------------------------------------------------- moves

  /** An object freed by another processor comes home. */
  function TakeRemote(s: State, k: Key): State
    requires At(s.remote, k).list != []
  {
    var o := At(s.remote, k).list[0];
    s.(remote := s.remote[k := Pop(At(s.remote, k))],
       caches := s.caches[k := Push(At(s.caches, k), o)],
       place := s.place[o := InCache(k)])
  }

  function TakeCentral(s: State, id: SpanId, k: Key): State
    requires id in s.spans && s.spans[id].central != []
  {
    var span := s.spans[id];
    var o := span.central[0];
    s.(spans := s.spans[id := span.(central := span.central[1..],
                                    centralCount := span.centralCount - 1,
                                    cachedCount := span.cachedCount + 1)],
       caches := s.caches[k := Push(At(s.caches, k), o)],
       place := s.place[o := InCache(k)])
  }

  /** The head of a cache becomes active. */
  function TakeCached(s: State, k: Key): State
    requires At(s.caches, k).list != [] && At(s.caches, k).list[0].span in s.spans
  {
    var o := At(s.caches, k).list[0];
    var span := s.spans[o.span];
    s.(spans := s.spans[o.span := span.(cachedCount := span.cachedCount - 1,
                                        freeCount := span.freeCount - 1,
                                        activeCount := span.activeCount + 1)],
       caches := s.caches[k := Pop(At(s.caches, k))],
       place := s.place[o := Active])
  }

  function Released(span: Span): Span
  {
    span.(cachedCount := span.cachedCount + 1,
          freeCount := span.freeCount + 1,
          activeCount := span.activeCount - 1)
  }

  /** An active object goes to its owner's cache, or to the owner's queue when
      another processor frees it. */
  function PutBack(s: State, o: Obj, owner: nat, home: bool): State
    requires o.span in s.spans
  {
    var k := Key(owner, s.spans[o.span].sizeClass);
    var s1 := s.(spans := s.spans[o.span := Released(s.spans[o.span])]);
    if home then
      s1.(caches := s.caches[k := Push(At(s.caches, k), o)], place := s.place[o := InCache(k)])
    else
      s1.(remote := s.remote[k := Push(At(s.remote, k), o)], place := s.place[o := InRemote(k)])
  }

  /** The head of a cache goes back to its span. */
  function ToCentral(s: State, k: Key): State
    requires At(s.caches, k).list != [] && At(s.caches, k).list[0].span in s.spans
  {
    var o := At(s.caches, k).list[0];
    var span := s.spans[o.span];
    s.(caches := s.caches[k := Pop(At(s.caches, k))],
       spans := s.spans[o.span := span.(central := [o] + span.central,
                                        centralCount := span.centralCount + 1,
                                        cachedCount := if span.cachedCount > 0 then span.cachedCount - 1
                                                       else span.cachedCount)],
       place := s.place[o := Central])
  }

  predicate Empty(span: Span)
  {
    span.activeCount == 0 && span.cachedCount == 0 && span.centralCount == span.objects
  }

  /** Unmaps the span when all its objects are on its central list. */
  function Reclaim(s: State, id: SpanId): State
    requires id in s.spans
  {
    var span := s.spans[id];
    if !Empty(span) then s
    else
      s.(central := s.central[span.sizeClass := Without(SpansOf(s.central, span.sizeClass), id)],
         all := Without(s.all, id),
         spans := s.spans - {id},
         headers := s.headers - ObjectsOf(id, span.objects),
         place := s.place - ObjectsOf(id, span.objects))
  }

  /** The objects of a new span, the last one first. */
  function FreeList(id: SpanId, n: nat): seq<Obj>
  {
    if n == 0 then [] else [Obj(id, n - 1)] + FreeList(id, n - 1)
  }

  function NewHeaders(id: SpanId, n: nat, h: Header): map<Obj, Header>
  {
    map o | o in ObjectsOf(id, n) :: h
  }

  function NewPlaces(id: SpanId, n: nat): map<Obj, Place>
  {
    map o | o in ObjectsOf(id, n) :: Central
  }

  /** A new span of n objects, mapped at id. */
  function Create(s: State, c: nat, p: nat, id: SpanId, n: nat): State
  {
    s.(spans := s.spans[id := Span(c, p, n, FreeList(id, n), n, n, 0, 0)],
       headers := s.headers + NewHeaders(id, n, Header(false, 0, Capacity(c), p)),
       all := [id] + s.all,
       central := s.central[c := [id] + SpansOf(s.central, c)],
       place := s.place + NewPlaces(id, n))
  }
}
