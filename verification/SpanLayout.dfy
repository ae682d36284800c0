/** How a span's mapping is laid out: one page for the span itself, then its objects,
    each with its header in front. */
module SpanLayout {
  import opened SizeClass

  const HEADER_SIZE := 80
  const ALIGNMENT := 16
  const OBJECT_AREA := 64 * 1024

  type PageSize = page: nat | page > 0 witness 4096

  function AlignUp(bytes: nat): nat
  {
    (bytes + ALIGNMENT - 1) / ALIGNMENT * ALIGNMENT
  }

  function Stride(c: nat): (stride: nat)
    ensures stride >= HEADER_SIZE
  {
    AlignUp(HEADER_SIZE + Capacity(c))
  }

  /** The pages for the objects: room for two, or the usual area if that is more. */
  function ObjectPages(c: nat, page: PageSize): nat
  {
    var area := if Stride(c) > OBJECT_AREA / 2 then Stride(c) * 2 else OBJECT_AREA;
    (area + page - 1) / page
  }

  function Area(c: nat, page: PageSize): nat
  {
    ObjectPages(c, page) * page
  }

  /** One page more is mapped, for the span itself. */
  function MappingSize(c: nat, page: PageSize): nat
  {
    Area(c, page) + page
  }

  /** How many of stride bytes fit in a number of bytes. */
  function Fitting(bytes: nat, stride: nat): nat
    requires stride > 0
  {
    bytes / stride
  }

  function ObjectCount(c: nat, page: PageSize): nat
  {
    Fitting(Area(c, page), Stride(c))
  }

  /** Where the i-th object's header starts in the mapping. */
  function Offset(c: nat, page: PageSize, i: nat): nat
  {
    page + i * Stride(c)
  }

  lemma StrideFits(c: nat)
    ensures HEADER_SIZE + Capacity(c) <= Stride(c) < HEADER_SIZE + Capacity(c) + ALIGNMENT
    ensures Stride(c) % ALIGNMENT == 0
  {
  }

  /** The quotient q of a by d, rounded up, covers a. */
  lemma RoundedUp(a: nat, d: nat)
    requires d > 0
    ensures a <= (a + d - 1) / d * d
  {
    var q := (a + d - 1) / d;
    assert a + d - 1 == q * d + (a + d - 1) % d;
  }

  lemma Quotient(a: nat, d: nat)
    requires d > 0
    ensures Fitting(a, d) * d <= a < (Fitting(a, d) + 1) * d
  {
    assert a == a / d * d + a % d;
    assert (a / d + 1) * d == a / d * d + d;
  }

  lemma Scaled(x: nat, y: nat, d: nat)
    requires x <= y
    ensures x * d <= y * d
  {
  }

  lemma AtLeast(a: nat, d: nat, k: nat)
    requires d > 0 && k * d <= a
    ensures k <= Fitting(a, d)
  {
    Quotient(a, d);
    if k > Fitting(a, d) {
      Scaled(Fitting(a, d) + 1, k, d);
    }
  }

  /** The i-th of objects d apart ends before the j-th starts. */
  lemma Spaced(i: nat, j: nat, d: nat)
    requires i < j
    ensures i * d + d <= j * d
  {
    Scaled(i + 1, j, d);
    assert (i + 1) * d == i * d + d;
  }

  lemma AreaHoldsTwo(c: nat, page: PageSize)
    ensures Area(c, page) >= 2 * Stride(c)
  {
    RoundedUp(if Stride(c) > OBJECT_AREA / 2 then Stride(c) * 2 else OBJECT_AREA, page);
  }

  /** A span always has room for two objects, so a mapping that is granted is used. */
  lemma SpanHasRoom(c: nat, page: PageSize)
    ensures ObjectCount(c, page) >= 2
  {
    AreaHoldsTwo(c, page);
    AtLeast(Area(c, page), Stride(c), 2);
  }

  method CountPages(c: nat, page: PageSize) returns (pages: nat)
    ensures pages == ObjectPages(c, page)
  {
    var stride := AlignUp(HEADER_SIZE + Capacity(c));
    var area := OBJECT_AREA;
    if stride > area / 2 {
      area := stride * 2;
    }
    pages := (area + page - 1) / page;
  }

  /** The number of objects in a new mapping, which is never none. */
  method CountObjects(c: nat, page: PageSize) returns (n: nat)
    ensures n == ObjectCount(c, page) >= 2
  {
    var pages := CountPages(c, page);
    var mapped := (pages + 1) * page;
    assert mapped == pages * page + page;
    n := Fitting(mapped - page, AlignUp(HEADER_SIZE + Capacity(c)));
    SpanHasRoom(c, page);
  }

  lemma FitsWithin(bytes: nat, stride: nat, j: nat)
    requires stride > 0 && j < Fitting(bytes, stride)
    ensures j * stride + stride <= bytes < Fitting(bytes, stride) * stride + stride
  {
    var n := Fitting(bytes, stride);
    Quotient(bytes, stride);
    Spaced(j, n, stride);
    assert (n + 1) * stride == n * stride + stride;
  }

  lemma Within(c: nat, page: PageSize, j: nat)
    requires j < ObjectCount(c, page)
    ensures Offset(c, page, j) + Stride(c) <= MappingSize(c, page)
    ensures Offset(c, page, ObjectCount(c, page)) + Stride(c) > MappingSize(c, page)
  {
    FitsWithin(Area(c, page), Stride(c), j);
  }

  lemma Aligned(page: nat, j: nat, stride: nat)
    requires page % ALIGNMENT == 0 && stride % ALIGNMENT == 0
    ensures (page + j * stride + HEADER_SIZE) % ALIGNMENT == 0
  {
    var p, k := page / ALIGNMENT, stride / ALIGNMENT;
    assert stride == ALIGNMENT * k;
    assert j * (ALIGNMENT * k) == ALIGNMENT * (j * k);
    assert page + j * stride + HEADER_SIZE == ALIGNMENT * (p + j * k + HEADER_SIZE / ALIGNMENT);
  }

  /** The objects do not overlap and lie within the mapping, behind the span's page; each
      has room for its header and its class's capacity, and if pages are aligned so is
      the memory the caller gets.  One more would not fit. */
  lemma ObjectsApart(c: nat, page: PageSize, i: nat, j: nat)
    requires i < j < ObjectCount(c, page)
    ensures page <= Offset(c, page, i) && Offset(c, page, i) + HEADER_SIZE + Capacity(c) <= Offset(c, page, j)
    ensures Offset(c, page, j) + HEADER_SIZE + Capacity(c) <= MappingSize(c, page)
    ensures page % ALIGNMENT == 0 ==> (Offset(c, page, j) + HEADER_SIZE) % ALIGNMENT == 0
    ensures Offset(c, page, ObjectCount(c, page)) + Stride(c) > MappingSize(c, page)
  {
    StrideFits(c);
    Spaced(i, j, Stride(c));
    Within(c, page, j);
    if page % ALIGNMENT == 0 {
      Aligned(page, j, Stride(c));
    }
  }
}
