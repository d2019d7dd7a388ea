/** The byte bitmap of completed segments, as an implementation of a set of indices. */
module Bitmap {
  import opened SegmentPlan

  const MAX_BITMAP_BYTES: int := 0x800_0000

  /** The byte 1 << k. */
  function Mask(k: int): (m: bv8)
    requires 0 <= k < 8
  {
    if k == 0 then 1 else if k == 1 then 2 else if k == 2 then 4 else if k == 3 then 8
    else if k == 4 then 16 else if k == 5 then 32 else if k == 6 then 64 else 128
  }

  predicate InRange(b: seq<bv8>, index: int) { 0 <= index < 8 * |b| }

  /** IsSet: an index outside the bitmap is reported as not set. */
  predicate IsSet(b: seq<bv8>, index: int) {
    InRange(b, index) && b[index / 8] & Mask(index % 8) != 0
  }

  /** The set of segment indices a bitmap denotes. */
  ghost function Members(b: seq<bv8>): set<int> {
    set i | 0 <= i < 8 * |b| && IsSet(b, i)
  }

  // ----- single bytes

  lemma BitOfOr(b: bv8, j: int, k: int)
    requires 0 <= j < 8 && 0 <= k < 8
    ensures (b | Mask(j)) & Mask(k) != 0 <==> j == k || b & Mask(k) != 0
  {
  }

  lemma BitOfAndNot(b: bv8, j: int, k: int)
    requires 0 <= j < 8 && 0 <= k < 8
    ensures b & !Mask(j) & Mask(k) != 0 <==> j != k && b & Mask(k) != 0
  {
  }

  lemma BitsPastLowMask(b: bv8, used: int)
    requires 0 < used < 8
    ensures b & !(Mask(used) - 1) == 0 <==> ClearFrom(b, used)
  {
    assert ClearFrom(b, used)
      <==> (used <= 1 ==> Bit(b, 1) == 0) && (used <= 2 ==> Bit(b, 2) == 0)
           && (used <= 3 ==> Bit(b, 3) == 0) && (used <= 4 ==> Bit(b, 4) == 0)
           && (used <= 5 ==> Bit(b, 5) == 0) && (used <= 6 ==> Bit(b, 6) == 0)
           && Bit(b, 7) == 0;
  }

  lemma OrAddsMember(was: seq<bv8>, index: int)
    requires InRange(was, index)
    ensures Members(was[index / 8 := was[index / 8] | Mask(index % 8)]) == Members(was) + {index}
  {
    var now := was[index / 8 := was[index / 8] | Mask(index % 8)];
    forall i | 0 <= i < 8 * |was| ensures IsSet(now, i) <==> i == index || IsSet(was, i) {
      if i / 8 == index / 8 { BitOfOr(was[index / 8], index % 8, i % 8); }
    }
  }

  lemma AndNotDropsMember(was: seq<bv8>, index: int)
    requires InRange(was, index)
    ensures Members(was[index / 8 := was[index / 8] & !Mask(index % 8)]) == Members(was) - {index}
  {
    var now := was[index / 8 := was[index / 8] & !Mask(index % 8)];
    forall i | 0 <= i < 8 * |was| ensures IsSet(now, i) <==> i != index && IsSet(was, i) {
      if i / 8 == index / 8 { BitOfAndNot(was[index / 8], index % 8, i % 8); }
    }
  }

  // ----- Set and Clear

  /** Set: one more member, nothing else changed; an index outside the bitmap is refused. */
  method Set(b: array<bv8>, index: int) returns (ok: bool)
    modifies b
    ensures ok <==> InRange(old(b[..]), index)
    ensures Members(b[..]) == if ok then old(Members(b[..])) + {index} else old(Members(b[..]))
  {
    if index < 0 || index / 8 >= b.Length { return false; }
    ghost var was := b[..];
    b[index / 8] := b[index / 8] | Mask(index % 8);
    assert b[..] == was[index / 8 := was[index / 8] | Mask(index % 8)];
    OrAddsMember(was, index);
    return true;
  }

  /** Clear: one member fewer, nothing else changed. */
  method Clear(b: array<bv8>, index: int) returns (ok: bool)
    modifies b
    ensures ok <==> InRange(old(b[..]), index)
    ensures Members(b[..]) == if ok then old(Members(b[..])) - {index} else old(Members(b[..]))
  {
    if index < 0 || index / 8 >= b.Length { return false; }
    ghost var was := b[..];
    b[index / 8] := b[index / 8] & !Mask(index % 8);
    assert b[..] == was[index / 8 := was[index / 8] & !Mask(index % 8)];
    AndNotDropsMember(was, index);
    return true;
  }

  // ----- Count

  function Bit(b: bv8, k: int): (n: nat)
    requires 0 <= k < 8
    ensures n <= 1
  {
    if b & Mask(k) != 0 then 1 else 0
  }

  /** The number of one bits of a byte. */
  function Ones(b: bv8): (n: nat) {
    Bit(b, 0) + Bit(b, 1) + Bit(b, 2) + Bit(b, 3) + Bit(b, 4) + Bit(b, 5) + Bit(b, 6) + Bit(b, 7)
  }

  lemma ClearLowestBit(b: bv8)
    requires b != 0
    ensures Ones(b & (b - 1)) == Ones(b) - 1
  {
  }

  /** popcount8: each round clears the lowest one bit. */
  method PopCount8(value: bv8) returns (count: int)
    ensures count == Ones(value)
  {
    var v := value;
    count := 0;
    while v != 0
      invariant count + Ones(v) == Ones(value)
      decreases Ones(v)
    {
      ClearLowestBit(v);
      v := v & (v - 1);
      count := count + 1;
    }
  }

  ghost function Below(m: set<int>, n: nat): set<int> {
    set i | i in m && 0 <= i < n
  }

  ghost function CountBelow(m: set<int>, n: nat): nat {
    if n == 0 then 0 else CountBelow(m, n - 1) + (if n - 1 in m then 1 else 0)
  }

  lemma {:induction false} CountBelowIsCardinality(m: set<int>, n: nat)
    ensures CountBelow(m, n) == |Below(m, n)|
  {
    if n == 0 {
      assert Below(m, 0) == {};
    } else {
      CountBelowIsCardinality(m, n - 1);
      assert Below(m, n) == if n - 1 in m then Below(m, n - 1) + {n - 1} else Below(m, n - 1);
    }
  }

  lemma MemberIsBit(b: seq<bv8>, i: nat, k: nat)
    requires i < |b| && k < 8
    ensures 8 * i + k in Members(b) <==> Bit(b[i], k) == 1
  {
    assert (8 * i + k) / 8 == i && (8 * i + k) % 8 == k;
  }

  function OnesBelow(b: bv8, k: nat): nat
    requires k <= 8
  {
    if k == 0 then 0 else OnesBelow(b, k - 1) + Bit(b, k - 1)
  }

  lemma {:induction false} BitsOfByte(b: seq<bv8>, i: nat, k: nat)
    requires i < |b| && k <= 8
    ensures CountBelow(Members(b), 8 * i + k) == CountBelow(Members(b), 8 * i) + OnesBelow(b[i], k)
  {
    if k > 0 {
      BitsOfByte(b, i, k - 1);
      MemberIsBit(b, i, k - 1);
    }
  }

  lemma OnesBelowAll(b: bv8)
    ensures OnesBelow(b, 8) == Ones(b)
  {
    assert OnesBelow(b, 1) == Bit(b, 0);
    assert OnesBelow(b, 2) == OnesBelow(b, 1) + Bit(b, 1);
    assert OnesBelow(b, 3) == OnesBelow(b, 2) + Bit(b, 2);
    assert OnesBelow(b, 4) == OnesBelow(b, 3) + Bit(b, 3);
    assert OnesBelow(b, 5) == OnesBelow(b, 4) + Bit(b, 4);
    assert OnesBelow(b, 6) == OnesBelow(b, 5) + Bit(b, 5);
    assert OnesBelow(b, 7) == OnesBelow(b, 6) + Bit(b, 6);
    assert OnesBelow(b, 8) == OnesBelow(b, 7) + Bit(b, 7);
  }

  lemma ByteStep(b: seq<bv8>, i: nat)
    requires i < |b|
    ensures CountBelow(Members(b), 8 * (i + 1)) == CountBelow(Members(b), 8 * i) + Ones(b[i])
  {
    BitsOfByte(b, i, 8);
    OnesBelowAll(b[i]);
    assert 8 * (i + 1) == 8 * i + 8;
  }

  /** Count: the number of marked segments. */
  method Count(b: seq<bv8>) returns (count: int)
    ensures count == |Members(b)|
  {
    count := 0;
    for i := 0 to |b|
      invariant count == CountBelow(Members(b), 8 * i)
    {
      var ones := PopCount8(b[i]);
      ByteStep(b, i);
      count := count + ones;
    }
    CountBelowIsCardinality(Members(b), 8 * |b|);
    assert Below(Members(b), 8 * |b|) == Members(b);
  }

  // ----- Validate and the persisted form

  function ByteCount(count: nat): (r: Result<nat>)
    ensures r.Ok? ==> 8 * r.value - 7 <= count <= 8 * r.value || count == r.value == 0
    ensures r.Err? <==> count > 8 * MAX_BITMAP_BYTES
  {
    if count == 0 then Ok(0)
    else
      var bytes := (count - 1) / 8 + 1;
      if bytes > MAX_BITMAP_BYTES then Err else Ok(bytes)
  }

  ghost predicate ClearFrom(b: bv8, used: int)
    requires 0 <= used
  {
    forall k :: used <= k < 8 ==> Bit(b, k) == 0
  }

  lemma MembersBelowCount(b: seq<bv8>, used: int)
    requires |b| > 0 && 0 < used < 8
    ensures ClearFrom(b[|b| - 1], used) <==> forall i :: i in Members(b) ==> i < 8 * |b| - 8 + used
  {
    var last, top := 8 * |b| - 8, b[|b| - 1];
    forall i | last + used <= i < 8 * |b| ensures i in Members(b) <==> Bit(top, i - last) == 1 {
      MemberIsBit(b, |b| - 1, i - last);
    }
    if k :| used <= k < 8 && Bit(top, k) == 1 {
      assert last + k in Members(b);
    }
  }

  lemma UnusedBitsClear(b: seq<bv8>, count: nat)
    requires count % 8 != 0 && 8 * |b| < count + 8 && count <= 8 * |b|
    ensures b[|b| - 1] & !(Mask(count % 8) - 1) == 0 <==> forall i :: i in Members(b) ==> i < count
  {
    BitsPastLowMask(b[|b| - 1], count % 8);
    MembersBelowCount(b, count % 8);
    assert 8 * |b| - 8 + count % 8 == count;
  }

  /** Validate accepts exactly the bitmaps of the right length with no member at or past count.
      Every caller passes the planner's count, which is never negative. */
  method Validate(b: seq<bv8>, count: nat) returns (ok: bool)
    ensures ok <==> && count <= 8 * MAX_BITMAP_BYTES
                    && 8 * |b| < count + 8 && count <= 8 * |b|
                    && (forall i :: i in Members(b) ==> i < count)
  {
    var bytes := ByteCount(count);
    if bytes.Err? { return false; }
    if |b| != bytes.value { return false; }
    if count == 0 { return true; }
    var used := count % 8;
    if used != 0 {
      UnusedBitsClear(b, count);
      if b[|b| - 1] & !(Mask(used) - 1) != 0 { return false; }
    }
    return true;
  }

  /** bitmapForFile: an empty stored bitmap starts from nothing; any other must be valid. */
  method BitmapForFile(stored: seq<bv8>, count: nat) returns (r: Result<seq<bv8>>)
    ensures r.Ok? ==> |r.value| == if count == 0 then 0 else (count - 1) / 8 + 1
    ensures r.Ok? ==> Members(r.value) == Members(stored) && forall i :: i in Members(r.value) ==> i < count
    ensures r.Ok? <==> && count <= 8 * MAX_BITMAP_BYTES
                       && (stored == [] || (8 * |stored| < count + 8 && count <= 8 * |stored|
                           && forall i :: i in Members(stored) ==> i < count))
  {
    if |stored| == 0 && count > 0 {
      var bytes := ByteCount(count);
      if bytes.Err? { return Err; }
      var fresh0 := seq(bytes.value, _ => 0 as bv8);
      assert Members(fresh0) == {};
      return Ok(fresh0);
    }
    var ok := Validate(stored, count);
    r := if ok then Ok(stored) else Err;
  }
}
