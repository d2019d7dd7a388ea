/** The fixed-size segment planner, with Go's 64-bit arithmetic written out. */
module SegmentPlan {

  const MAX_INT64: int := 0x7fff_ffff_ffff_ffff
  const TWO_64: int := 0x1_0000_0000_0000_0000

  type int64 = x: int | -MAX_INT64 - 1 <= x <= MAX_INT64

  datatype Option<+T> = None | Some(value: T)

  datatype Result<+T> = Ok(value: T) | Err

  /** Two's-complement wrap-around of a Go int64 operation. */
  function Wrap64(x: int): (r: int64)
    ensures (x - r) % TWO_64 == 0
    ensures -MAX_INT64 - 1 <= x <= MAX_INT64 ==> r == x
  {
    (x + MAX_INT64 + 1) % TWO_64 - MAX_INT64 - 1
  }

  /** Go's integer division: the quotient is truncated toward zero. */
  function TruncDiv(a: int, b: int): (q: int)
    requires b > 0
    ensures a >= 0 ==> q == a / b
    ensures a <= 0 ==> q <= 0
  {
    if a >= 0 then a / b else -((-a) / b)
  }

  /** One inclusive byte range. */
  datatype Segment = Segment(index: int64, start: int64, end: int64) {
    function Size(): (n: int)
      ensures n >= 0
    {
      if end < start then 0 else end - start + 1
    }
  }

  datatype Planner = Planner(size: int64, segmentSize: int64, count: int64) {

    /** The count is the least number of segments that covers the file. */
    ghost predicate Valid() {
      && size >= 0 && segmentSize > 0 && count >= 0
      && (size == 0 ==> count == 0)
      && (size > 0 ==> count > 0 && (count - 1) * segmentSize < size <= count * segmentSize)
    }

    /** No segment start is refused by the overflow guard of SegmentAt. */
    ghost predicate Fits() {
      Valid() && count * segmentSize <= MAX_INT64
    }

    function SegmentAt(index: int64): (r: Result<Segment>)
    {
      if index < 0 || index >= count then Err
      else
        var start := Wrap64(index * segmentSize);
        if start < 0 || start > MAX_INT64 - segmentSize then Err
        else
          var end := Wrap64(start + segmentSize - 1);
          Ok(Segment(index, start, if end >= size then Wrap64(size - 1) else end))
    }

    // The ideal range of a segment, without machine arithmetic.
    function First(index: int): int { index * segmentSize }

    function Bound(index: int): int {
      if (index + 1) * segmentSize < size then (index + 1) * segmentSize else size
    }

    function SizeOf(index: int): int { Bound(index) - First(index) }

    /** Bytes of the segments below n that belong to set. */
    function SumSizes(done: set<int>, n: nat): (total: int)
    {
      if n == 0 then 0
      else SumSizes(done, n - 1) + (if n - 1 in done then SizeOf(n - 1) else 0)
    }

    /** What bytes_committed must be for a resume bitmap. */
    function Committed(done: set<int>): (total: int)
      requires count >= 0
    {
      SumSizes(done, count)
    }
  }

  function NewSegmentPlanner(size: int64, segmentSize: int64): (r: Result<Planner>)
    ensures r.Ok? <==> size >= 0 && segmentSize > 0
    ensures r.Ok? ==> r.value.Valid() && r.value.size == size && r.value.segmentSize == segmentSize
  {
    if size < 0 || segmentSize <= 0 then Err
    else if size == 0 then Ok(Planner(size, segmentSize, 0))
    else
      DivBounds(size - 1, segmentSize);
      assert ((size - 1) / segmentSize + 1) * segmentSize == (size - 1) / segmentSize * segmentSize + segmentSize;
      Ok(Planner(size, segmentSize, (size - 1) / segmentSize + 1))
  }

  /** Euclidean division of a non-negative number, without a division in the conclusion's bounds. */
  lemma DivBounds(a: int, s: int)
    requires a >= 0 && s > 0
    ensures 0 <= a / s <= a
    ensures a / s * s <= a < a / s * s + s
  {
    var q := a / s;
    assert q * s + a % s == a;
    if q < 0 { MulMono(q, -1, s); }
    if q > a { MulMono(a + 1, q, s); MulMono(1, s, a + 1); }
  }

  /** The segment count that the API writes when it creates a file row. */
  function CreateTimeCount(size: int64, segmentSize: int64): (n: int)
    requires size >= 0 && segmentSize > 0
  {
    if size > 0 then TruncDiv(Wrap64(Wrap64(size + segmentSize) - 1), segmentSize) else 0
  }

  // ----- where a segment lies

  lemma RangeOf(p: Planner, i: int)
    requires p.Valid() && 0 <= i < p.count
    ensures 0 <= p.First(i) < p.Bound(i) <= p.size
    ensures p.Bound(i) <= p.First(i) + p.segmentSize
    ensures i + 1 < p.count ==> p.Bound(i) == p.First(i + 1)
    ensures i + 1 == p.count ==> p.Bound(i) == p.size
  {
    var s := p.segmentSize;
    MulMono(0, i, s);
    MulMono(i, p.count - 1, s);
    assert (i + 1) * s == i * s + s;
    if i + 1 < p.count { MulMono(i + 1, p.count - 1, s); }
  }

  lemma MulMono(a: int, b: int, s: int)
    requires a <= b && s >= 0
    ensures a * s <= b * s
  {
    assert (b - a) * s >= 0;
    assert (b - a) * s == b * s - a * s;
  }

  lemma RangesApart(p: Planner, i: int, j: int)
    requires p.Valid() && 0 <= i < j < p.count
    ensures p.Bound(i) <= p.First(j)
  {
    RangeOf(p, i);
    MulMono(i + 1, j, p.segmentSize);
  }

  /** SegmentAt succeeds exactly below the overflow guard, and then returns the ideal range. */
  lemma SegmentAtExact(p: Planner, i: int64)
    requires p.Valid()
    ensures p.SegmentAt(i).Ok? <==> 0 <= i < p.count && (i + 1) * p.segmentSize <= MAX_INT64
    ensures p.SegmentAt(i).Ok? ==>
              var s := p.SegmentAt(i).value;
              s.index == i && s.start == p.First(i) && s.end == p.Bound(i) - 1 && s.Size() == p.SizeOf(i) > 0
  {
    if 0 <= i < p.count {
      RangeOf(p, i);
      assert (i + 1) * p.segmentSize == i * p.segmentSize + p.segmentSize;
    }
  }

  /** Every segment can be planned exactly when the planner fits 64 bits; the stated sufficient
      condition on the inputs implies it. */
  lemma PlanFitsIff(p: Planner)
    requires p.Valid()
    ensures (forall i: int64 :: 0 <= i < p.count ==> p.SegmentAt(i).Ok?) <==> p.Fits()
    ensures p.size - 1 + p.segmentSize <= MAX_INT64 ==> p.Fits()
  {
    if p.count > 0 {
      var last: int64 := p.count - 1;
      RangeOf(p, last);
      SegmentAtExact(p, last);
      assert (last + 1) * p.segmentSize == last * p.segmentSize + p.segmentSize;
      forall i: int64 | 0 <= i < p.count ensures p.Fits() ==> p.SegmentAt(i).Ok? {
        SegmentAtExact(p, i);
        MulMono(i + 1, p.count, p.segmentSize);
      }
    } else {
      assert p.count * p.segmentSize == 0;
    }
  }

  lemma ByteInRange(p: Planner, byte: int, k: int, i: int)
    requires p.Valid() && 0 <= byte < p.size && 0 <= i < p.count && 0 <= k < p.count
    requires k * p.segmentSize <= byte < k * p.segmentSize + p.segmentSize
    ensures p.First(i) <= byte < p.Bound(i) <==> i == k
  {
    RangeOf(p, i);
    assert (i + 1) * p.segmentSize == i * p.segmentSize + p.segmentSize;
    if i < k { RangesApart(p, i, k); }
    if k < i { MulMono(k + 1, i, p.segmentSize); assert (k + 1) * p.segmentSize == k * p.segmentSize + p.segmentSize; }
  }

  /** The planned segments partition [0, size): each byte lies in segment byte / segmentSize and
      in no other. */
  lemma SegmentsPartition(p: Planner, byte: int)
    requires p.Valid() && 0 <= byte < p.size
    ensures 0 <= byte / p.segmentSize < p.count
    ensures forall i :: 0 <= i < p.count ==>
              (p.First(i) <= byte < p.Bound(i) <==> i == byte / p.segmentSize)
  {
    var s, k := p.segmentSize, byte / p.segmentSize;
    DivBounds(byte, s);
    if k >= p.count { MulMono(p.count, k, s); }
    forall i | 0 <= i < p.count
      ensures p.First(i) <= byte < p.Bound(i) <==> i == k
    {
      ByteInRange(p, byte, k, i);
    }
  }

  /** The count written at creation equals the planner's count exactly when the sum it forms does
      not overflow. */
  lemma CreateTimeCountAgreesIff(size: int64, segmentSize: int64)
    requires size >= 0 && segmentSize > 0
    ensures CreateTimeCount(size, segmentSize) == NewSegmentPlanner(size, segmentSize).value.count
            <==> size == 0 || size - 1 + segmentSize <= MAX_INT64
  {
    if size > 0 {
      DivBounds(size - 1, segmentSize);
      var sum := size - 1 + segmentSize;
      if sum <= MAX_INT64 {
        assert Wrap64(Wrap64(size + segmentSize) - 1) == sum;
        assert sum == (size - 1) + 1 * segmentSize;
        DivShift(size - 1, segmentSize);
      } else {
        var w := Wrap64(Wrap64(size + segmentSize) - 1);
        assert w == sum - TWO_64 < 0;
      }
    }
  }

  lemma DivShift(a: int, s: int)
    requires a >= 0 && s > 0
    ensures (a + s) / s == a / s + 1
  {
    var q := a / s;
    assert a == q * s + a % s;
    assert (q + 1) * s == q * s + s;
    QuotientIs(a + s, q + 1, a % s, s);
  }

  lemma QuotientIs(a: int, q: int, r: int, s: int)
    requires s > 0 && 0 <= r < s && a == q * s + r
    ensures a / s == q && a % s == r
  {
    var d := a / s - q;
    assert a == (a / s) * s + a % s;
    assert d * s == (a / s) * s - q * s;
    if d >= 1 { MulMono(1, d, s); }
    if d <= -1 { MulMono(d, -1, s); }
  }

  // ----- byte accounting

  lemma {:induction false} SumSizesAdd(p: Planner, done: set<int>, i: int, n: nat)
    requires i !in done && 0 <= i
    ensures p.SumSizes(done + {i}, n) == p.SumSizes(done, n) + (if i < n then p.SizeOf(i) else 0)
  {
    if n > 0 { SumSizesAdd(p, done, i, n - 1); }
  }

  /** Marking one more segment adds exactly its size. */
  lemma CommittedAdd(p: Planner, done: set<int>, i: int)
    requires p.Valid() && 0 <= i < p.count && i !in done
    ensures p.Committed(done + {i}) == p.Committed(done) + p.SizeOf(i)
  {
    SumSizesAdd(p, done, i, p.count);
  }

  lemma {:induction false} SumSizesBounds(p: Planner, done: set<int>, n: nat)
    requires p.Valid() && n <= p.count
    ensures 0 <= p.SumSizes(done, n) <= (if n == 0 then 0 else p.Bound(n - 1))
    ensures p.SumSizes(done, n) == (if n == 0 then 0 else p.Bound(n - 1))
            <==> forall i :: 0 <= i < n ==> i in done
  {
    if n > 0 {
      SumSizesBounds(p, done, n - 1);
      RangeOf(p, n - 1);
      if n > 1 { RangeOf(p, n - 2); }
    }
  }

  /** Committed bytes never exceed the size, and equal it exactly for a full bitmap. */
  lemma CommittedBounds(p: Planner, done: set<int>)
    requires p.Valid()
    ensures 0 <= p.Committed(done) <= p.size
    ensures p.Committed(done) == p.size <==> forall i :: 0 <= i < p.count ==> i in done
  {
    SumSizesBounds(p, done, p.count);
    if p.count > 0 { RangeOf(p, p.count - 1); }
  }

  /** The loop of committedBytes. Segments that SegmentAt refuses are skipped, as in the source;
      none is refused when the plan fits 64 bits (PlanFitsIff). */
  method CommittedBytes(p: Planner, isSet: int -> bool) returns (committed: int)
    requires p.Valid()
    ensures committed == p.Committed(Counted(p, isSet))
    ensures 0 <= committed <= p.size
    ensures p.Fits() ==> committed == p.Committed(set i | 0 <= i < p.count && isSet(i))
  {
    ghost var done := Counted(p, isSet);
    committed := 0;
    var index: int64 := 0;
    while index < p.count
      invariant 0 <= index <= p.count
      invariant committed == p.SumSizes(done, index)
    {
      if isSet(index) {
        var segment := p.SegmentAt(index);
        SegmentAtExact(p, index);
        if segment.Ok? {
          committed := committed + segment.value.Size();
        }
      }
      index := index + 1;
    }
    CommittedBounds(p, done);
    if p.Fits() { CountedIsAll(p, isSet); }
  }

  ghost function Counted(p: Planner, isSet: int -> bool): set<int>
  {
    set i: int64 | 0 <= i < p.count && isSet(i) && p.SegmentAt(i).Ok? :: i as int
  }

  lemma CountedIsAll(p: Planner, isSet: int -> bool)
    requires p.Fits()
    ensures Counted(p, isSet) == set i | 0 <= i < p.count && isSet(i)
  {
    PlanFitsIff(p);
    forall i | 0 <= i < p.count && isSet(i) ensures i in Counted(p, isSet) {
      var j: int64 := i;
      assert p.SegmentAt(j).Ok?;
    }
  }
}
