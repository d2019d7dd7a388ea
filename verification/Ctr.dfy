/** AES-CTR positioned at an arbitrary plaintext offset (section 6.5 of NIST SP 800-38A). AES itself
    is an uninterpreted function on 16-byte blocks, carried by the key. */
module Ctr {
  import opened SegmentPlan

  type byte = x: int | 0 <= x < 256
  type Block = s: seq<byte> | |s| == 16 witness [0, 0, 0, 0, 0, 0, 0, 0, 0, 0, 0, 0, 0, 0, 0, 0]
  type Half = s: seq<byte> | |s| == 8 witness [0, 0, 0, 0, 0, 0, 0, 0]

  datatype FileKey = FileKey(encrypt: Block -> Block, nonce: Half, metaMac: Half)

  function Pow2(k: nat): (p: int)
    ensures p > 0
  {
    if k == 0 then 1 else 2 * Pow2(k - 1)
  }

  /** Exclusive or of two k-bit numbers, bit by bit. */
  function XorBits(a: nat, b: nat, k: nat): (r: nat)
    ensures r < Pow2(k)
  {
    if k == 0 then 0 else 2 * XorBits(a / 2, b / 2, k - 1) + (a + b) % 2
  }

  function Xor(a: byte, b: byte): (r: byte) {
    assert Pow2(8) == 2 * 2 * 2 * 2 * Pow2(4);
    XorBits(a, b, 8)
  }

  lemma HalfAndBit(x: nat, a: nat, b: nat)
    ensures (2 * x + (a + b) % 2) / 2 == x
    ensures (2 * x + (a + b) % 2 + b) % 2 == a % 2
  {
  }

  lemma {:induction false} XorBitsTwice(a: nat, b: nat, k: nat)
    requires a < Pow2(k)
    ensures XorBits(XorBits(a, b, k), b, k) == a
  {
    if k > 0 {
      XorBitsTwice(a / 2, b / 2, k - 1);
      HalfAndBit(XorBits(a / 2, b / 2, k - 1), a, b);
    }
  }

  lemma XorTwice(a: byte, b: byte)
    ensures Xor(Xor(a, b), b) == a
  {
    assert Pow2(8) == 2 * 2 * 2 * 2 * Pow2(4);
    XorBitsTwice(a, b, 8);
  }

  /** Bit i of a number, from the least significant on. */
  function BitAt(x: nat, i: nat): nat {
    if i == 0 then x % 2 else BitAt(x / 2, i - 1)
  }

  lemma {:induction false} XorBitsAt(a: nat, b: nat, k: nat, i: nat)
    requires i < k
    ensures BitAt(XorBits(a, b, k), i) == 1 <==> BitAt(a, i) != BitAt(b, i)
  {
    HalfAndBit(XorBits(a / 2, b / 2, k - 1), a, b);
    if i > 0 {
      XorBitsAt(a / 2, b / 2, k - 1, i - 1);
    } else {
      assert XorBits(a, b, k) % 2 == (a + b) % 2;
    }
  }

  /** Exclusive or: a bit of the result is set exactly if the two bits differ. */
  lemma XorAt(a: byte, b: byte, i: nat)
    requires i < 8
    ensures BitAt(Xor(a, b), i) == 1 <==> BitAt(a, i) != BitAt(b, i)
  {
    XorBitsAt(a, b, 8, i);
  }

  // ----- the big-endian counter block

  function Pow256(k: nat): (p: int)
    ensures p > 0
  {
    if k == 0 then 1 else 256 * Pow256(k - 1)
  }

  /** The low k bytes of n, most significant first. */
  function BigEndian(n: nat, k: nat): (s: seq<byte>)
    ensures |s| == k
  {
    if k == 0 then [] else BigEndian(n / 256, k - 1) + [n % 256]
  }

  /** The number that bytes write, most significant first. */
  function Value(s: seq<byte>): nat {
    if s == [] then 0 else 256 * Value(s[..|s| - 1]) + s[|s| - 1]
  }

  lemma {:induction false} ValueOfBigEndian(n: nat, k: nat)
    requires n < Pow256(k)
    ensures Value(BigEndian(n, k)) == n
  {
    if k > 0 {
      ValueOfBigEndian(n / 256, k - 1);
      assert BigEndian(n, k)[..k - 1] == BigEndian(n / 256, k - 1);
    }
  }

  lemma {:induction false} ValueIsInjective(a: seq<byte>, b: seq<byte>)
    requires |a| == |b| && Value(a) == Value(b)
    ensures a == b
  {
    if a != [] {
      var k := |a| - 1;
      assert a[k] == b[k] && Value(a[..k]) == Value(b[..k]);
      ValueIsInjective(a[..k], b[..k]);
      assert a == a[..k] + [a[k]] && b == b[..k] + [b[k]];
    }
  }

  /** The counter increment of CTR mode: it works on the whole block and wraps around. */
  function Increment(s: seq<byte>): (r: seq<byte>)
    ensures |r| == |s|
  {
    if s == [] then []
    else
      var init, last := s[..|s| - 1], s[|s| - 1];
      if last < 255 then init + [last + 1] else Increment(init) + [0]
  }

  /** Incrementing a counter block leaves the prefix alone unless the index part overflows. */
  lemma {:induction false} IncrementStaysInIndex(prefix: seq<byte>, n: nat, k: nat)
    requires n + 1 < Pow256(k)
    ensures Increment(prefix + BigEndian(n, k)) == prefix + BigEndian(n + 1, k)
  {
    if k > 0 {
      var s := prefix + BigEndian(n, k);
      var init := prefix + BigEndian(n / 256, k - 1);
      assert s == init + [n % 256];
      assert s[..|s| - 1] == init;
      if n % 256 < 255 {
        assert (n + 1) / 256 == n / 256 && (n + 1) % 256 == n % 256 + 1;
      } else {
        assert (n + 1) / 256 == n / 256 + 1 && (n + 1) % 256 == 0;
        IncrementStaysInIndex(prefix, n / 256, k - 1);
      }
      assert Increment(s) == prefix + BigEndian((n + 1) / 256, k - 1) + [(n + 1) % 256];
    }
  }

  /** The counter block of the block with the given index. */
  function CounterBlock(key: FileKey, index: nat): (c: Block)
    ensures c[..8] == key.nonce
  {
    key.nonce + BigEndian(index, 8)
  }

  lemma Pow256Eight()
    ensures Pow256(8) == TWO_64
  {
    assert Pow256(4) == 0x1_0000_0000;
  }

  /** The bytes of a stream before its block index overflows 64 bits. No 64-bit offset, and no slice
      that begins at one, reaches beyond them. */
  const STREAM_BYTES: int := 16 * (TWO_64 - 1)

  /** Before that the counter never carries into the nonce. */
  lemma CounterNeverCarries(key: FileKey, index: nat)
    requires index + 1 < TWO_64
    ensures Increment(CounterBlock(key, index)) == CounterBlock(key, index + 1)
    ensures Increment(CounterBlock(key, index))[..8] == key.nonce
  {
    Pow256Eight();
    IncrementStaysInIndex(key.nonce, index, 8);
  }

  // ----- the specification

  /** The key stream byte for an absolute file offset. */
  function KeyByte(key: FileKey, offset: nat): byte {
    key.encrypt(CounterBlock(key, offset / 16))[offset % 16]
  }

  /** The transform of data that starts at an absolute file offset. */
  function Crypt(key: FileKey, data: seq<byte>, offset: nat): (r: seq<byte>)
    ensures |r| == |data|
  {
    if data == [] then []
    else [Xor(data[0], KeyByte(key, offset))] + Crypt(key, data[1..], offset + 1)
  }

  lemma {:induction false} CryptAppend(key: FileKey, a: seq<byte>, b: seq<byte>, offset: nat)
    ensures Crypt(key, a + b, offset) == Crypt(key, a, offset) + Crypt(key, b, offset + |a|)
  {
    if a == [] {
      assert a + b == b;
    } else {
      assert (a + b)[1..] == a[1..] + b;
      CryptAppend(key, a[1..], b, offset + 1);
    }
  }

  /** Transforming a slice at its own offset gives that slice of the transform. */
  lemma CryptSlice(key: FileKey, data: seq<byte>, offset: nat, from: nat, to: nat)
    requires from <= to <= |data|
    ensures Crypt(key, data[from..to], offset + from) == Crypt(key, data, offset)[from..to]
  {
    var a, b, c := data[..from], data[from..to], data[to..];
    assert data == a + (b + c);
    CryptAppend(key, a, b + c, offset);
    CryptAppend(key, b, c, offset + from);
  }

  /** Parallel equals sequential: transforming any slice at its own offset gives that slice of the
      single transform of the whole file from offset 0. */
  lemma SliceOfWhole(key: FileKey, whole: seq<byte>, from: nat, to: nat)
    requires from <= to <= |whole|
    ensures Crypt(key, whole[from..to], from) == Crypt(key, whole, 0)[from..to]
  {
    CryptSlice(key, whole, 0, from, to);
  }

  /** Encryption and decryption are the same operation, at every offset. */
  lemma {:induction false} CryptRoundTrip(key: FileKey, data: seq<byte>, offset: nat)
    ensures Crypt(key, Crypt(key, data, offset), offset) == data
  {
    if data != [] {
      XorTwice(data[0], KeyByte(key, offset));
      CryptRoundTrip(key, data[1..], offset + 1);
      assert Crypt(key, data, offset)[1..] == Crypt(key, data[1..], offset + 1);
    }
  }

  lemma {:induction false} CryptAt(key: FileKey, data: seq<byte>, offset: nat, j: nat)
    requires j < |data|
    ensures Crypt(key, data, offset)[j] == Xor(data[j], KeyByte(key, offset + j))
  {
    if j > 0 { CryptAt(key, data[1..], offset + 1, j - 1); }
  }

  /** The equation of CTR mode, bit by bit: with the counter block that holds the nonce and, as a
      big-endian number, the index of the byte's block, each bit of the result is the data's bit
      flipped exactly where the encrypted counter block has a one. */
  lemma CtrEquation(key: FileKey, data: seq<byte>, offset: nat, counter: Block, j: nat, i: nat)
    requires j < |data| && i < 8 && offset + j < STREAM_BYTES
    requires counter[..8] == key.nonce && Value(counter[8..]) == (offset + j) / 16
    ensures BitAt(Crypt(key, data, offset)[j], i) == 1 <==>
              BitAt(data[j], i) != BitAt(key.encrypt(counter)[(offset + j) % 16], i)
  {
    var index := (offset + j) / 16;
    Pow256Eight();
    ValueOfBigEndian(index, 8);
    ValueIsInjective(counter[8..], BigEndian(index, 8));
    assert counter == counter[..8] + counter[8..] == CounterBlock(key, index);
    CryptAt(key, data, offset, j);
    XorAt(data[j], KeyByte(key, offset + j), i);
  }

  /** The n key stream bytes from an offset on. */
  function KeyBytes(key: FileKey, offset: nat, n: nat): (r: seq<byte>)
    ensures |r| == n
  {
    if n == 0 then [] else KeyBytes(key, offset, n - 1) + [KeyByte(key, offset + n - 1)]
  }

  lemma {:induction false} CryptFromPad(key: FileKey, was: seq<byte>, now: seq<byte>, pad: seq<byte>, offset: nat)
    requires |now| == |was| == |pad| && pad == KeyBytes(key, offset, |was|)
    requires forall j :: 0 <= j < |was| ==> now[j] == Xor(was[j], pad[j])
    ensures now == Crypt(key, was, offset)
  {
    hide Xor, KeyByte;
    if was != [] {
      var n := |was| - 1;
      CryptFromPad(key, was[..n], now[..n], pad[..n], offset);
      CryptAppend(key, was[..n], was[n..], offset);
      assert was == was[..n] + was[n..] && was[n..][1..] == [];
      assert now == now[..n] + [now[n]];
    }
  }

  // ----- the stream

  /** buffer[..n] is xored in place with n pad bytes. */
  method XorInto(buffer: array<byte>, pads: seq<byte>)
    requires |pads| <= buffer.Length
    modifies buffer
    ensures forall j :: 0 <= j < |pads| ==> buffer[j] == Xor(old(buffer[j]), pads[j])
    ensures buffer[|pads|..] == old(buffer[|pads|..])
  {
    for i := 0 to |pads|
      invariant forall j :: 0 <= j < i ==> buffer[j] == Xor(old(buffer[j]), pads[j])
      invariant forall j :: i <= j < buffer.Length ==> buffer[j] == old(buffer[j])
    {
      buffer[i] := Xor(buffer[i], pads[i]);
    }
  }

  /** A CTR stream: the next counter block, and the unused part of the current key stream block. */
  class Stream {
    const key: FileKey
    var counter: Block
    var pad: Block
    var used: nat
    ghost var position: nat  // absolute offset of the next byte

    ghost predicate Valid()
      reads this
    {
      && used <= 16
      && if used == 16 then
           position % 16 == 0 && counter == CounterBlock(key, position / 16)
         else
           && used == position % 16
           && pad == key.encrypt(CounterBlock(key, position / 16))
           && counter == CounterBlock(key, position / 16 + 1)
    }

    /** A stream at the start of the block with the given index. */
    constructor AtBlock(k: FileKey, index: nat)
      ensures Valid() && key == k && position == 16 * index
    {
      assert 16 * index % 16 == 0 && 16 * index / 16 == index;
      key := k;
      counter := CounterBlock(k, index);
      pad := CounterBlock(k, index);
      used := 16;
      position := 16 * index;
    }

    /** XORKeyStream over the first n bytes of a buffer, in place. */
    method XorKeyStream(buffer: array<byte>, n: nat)
      requires Valid() && n <= buffer.Length && position + n <= STREAM_BYTES
      modifies this, buffer
      ensures Valid() && position == old(position) + n
      ensures buffer[..n] == Crypt(key, old(buffer[..n]), old(position))
      ensures buffer[n..] == old(buffer[n..])
    {
      var pads := TakePad(n);
      XorInto(buffer, pads);
      CryptFromPad(key, old(buffer[..n]), buffer[..n], pads, old(position));
    }

    /** The next n key stream bytes. */
    method TakePad(n: nat) returns (pads: seq<byte>)
      requires Valid() && position + n <= STREAM_BYTES
      modifies this
      ensures Valid() && position == old(position) + n
      ensures pads == KeyBytes(key, old(position), n)
    {
      pads := [];
      for i := 0 to n
        invariant Valid() && position == old(position) + i
        invariant pads == KeyBytes(key, old(position), i)
      {
        var k := NextKeyByte();
        pads := pads + [k];
      }
    }

    /** The next key stream byte; an exhausted block is replaced and the counter incremented. */
    method NextKeyByte() returns (k: byte)
      requires Valid() && position < STREAM_BYTES
      modifies this
      ensures Valid() && position == old(position) + 1
      ensures k == KeyByte(key, old(position))
    {
      if used == 16 {
        pad := key.encrypt(counter);
        CounterNeverCarries(key, position / 16);
        counter := Increment(counter);
        used := 0;
      }
      k := pad[used];
      assert (position + 1) % 16 == (used + 1) % 16;
      assert (position + 1) / 16 == if used == 15 then position / 16 + 1 else position / 16;
      used := used + 1;
      position := position + 1;
    }
  }

  /** NewCTR: the first partial block is discarded before the caller receives the stream. */
  method NewCtr(key: FileKey, offset: int64) returns (ok: bool, stream: Stream)
    ensures ok <==> offset >= 0
    ensures fresh(stream) && stream.Valid() && stream.key == key
    ensures ok ==> stream.position == offset
  {
    ok := offset >= 0;
    if !ok {
      stream := new Stream.AtBlock(key, 0);
      return;
    }
    stream := new Stream.AtBlock(key, offset / 16);
    var remainder := offset % 16;
    if remainder != 0 {
      var skip := new byte[remainder](_ => 0);
      stream.XorKeyStream(skip, remainder);
    }
  }

  /** DecryptAt (and CryptAt, which calls it). The length of a slice is a 64-bit number. */
  method DecryptAt(ciphertext: seq<byte>, key: FileKey, offset: int64) returns (r: Result<seq<byte>>)
    requires |ciphertext| <= MAX_INT64
    ensures r.Ok? <==> offset >= 0
    ensures r.Ok? ==> r.value == Crypt(key, ciphertext, offset)
  {
    var ok, stream := NewCtr(key, offset);
    if !ok { return Err; }
    var buffer := new byte[|ciphertext|](i requires 0 <= i < |ciphertext| => ciphertext[i]);
    assert buffer[..|ciphertext|] == ciphertext;
    stream.XorKeyStream(buffer, |ciphertext|);
    r := Ok(buffer[..|ciphertext|]);
  }
}
