/** The condensed MAC of a file: CBC chains (section 6.2 of NIST SP 800-38A) over a growing chunk
    schedule, verified while streaming. */
module Integrity {
  import opened SegmentPlan
  import opened Ctr

  const FIRST_CHUNK: int := 0x2_0000
  const STEADY_CHUNK: int := 0x10_0000
  const ZERO_BLOCK: Block := [0, 0, 0, 0, 0, 0, 0, 0, 0, 0, 0, 0, 0, 0, 0, 0]
  const ZERO_HALF: Half := [0, 0, 0, 0, 0, 0, 0, 0]

  // ----- specification

  function XorBlock(a: Block, b: Block): (r: Block) {
    seq(16, i requires 0 <= i < 16 => Xor(a[i], b[i]))
  }

  /** CBC encryption of whole blocks: every ciphertext block feeds the next. */
  function Cbc(encrypt: Block -> Block, iv: Block, blocks: seq<Block>): (r: seq<Block>)
    ensures |r| == |blocks|
    decreases |blocks|
  {
    if blocks == [] then []
    else
      var c := encrypt(XorBlock(blocks[0], iv));
      [c] + Cbc(encrypt, c, blocks[1..])
  }

  /** The chaining value after the blocks: the last ciphertext block. */
  function Chain(encrypt: Block -> Block, iv: Block, blocks: seq<Block>): (r: Block) {
    var c := Cbc(encrypt, iv, blocks);
    if c == [] then iv else c[|c| - 1]
  }

  function ZeroPad(data: seq<byte>): (r: seq<byte>)
    ensures |r| % 16 == 0 && |data| <= |r| < |data| + 16 && data <= r
    ensures forall i :: |data| <= i < |r| ==> r[i] == 0
  {
    var size := (|data| + 15) / 16 * 16;
    data + seq(size - |data|, _ => 0)
  }

  function Blocks(data: seq<byte>): (r: seq<Block>)
    requires |data| % 16 == 0
    ensures |r| == |data| / 16
  {
    if data == [] then [] else [data[..16]] + Blocks(data[16..])
  }

  function ChunkSize(number: int): (n: int)
    requires number >= 1
    ensures FIRST_CHUNK <= n <= STEADY_CHUNK
  {
    if number <= 8 then number * FIRST_CHUNK else STEADY_CHUNK
  }

  function Least(a: int, b: int): int { if a < b then a else b }

  /** The chunk schedule from a chunk number on. */
  function Chunks(data: seq<byte>, number: int): (r: seq<seq<byte>>)
    requires number >= 1
    decreases |data|
  {
    if data == [] then []
    else
      var k := Least(ChunkSize(number), |data|);
      [data[..k]] + Chunks(data[k..], number + 1)
  }

  function Flatten(s: seq<seq<byte>>): seq<byte> {
    if s == [] then [] else s[0] + Flatten(s[1..])
  }

  function ChunkIv(key: FileKey): Block { key.nonce + key.nonce }

  function ChunkMac(key: FileKey, chunk: seq<byte>): Block {
    Chain(key.encrypt, ChunkIv(key), Blocks(ZeroPad(chunk)))
  }

  function ChunkMacs(key: FileKey, chunks: seq<seq<byte>>): (r: seq<Block>)
    ensures |r| == |chunks|
  {
    if chunks == [] then [] else [ChunkMac(key, chunks[0])] + ChunkMacs(key, chunks[1..])
  }

  /** Each half of the block, its two words xored. */
  function Fold(b: Block): (r: Half) {
    seq(8, i requires 0 <= i < 8 => if i < 4 then Xor(b[i], b[i + 4]) else Xor(b[i + 4], b[i + 8]))
  }

  function CondensedMac(key: FileKey, data: seq<byte>): Half {
    if data == [] then ZERO_HALF
    else Fold(Chain(key.encrypt, ZERO_BLOCK, ChunkMacs(key, Chunks(data, 1))))
  }

  /** The verdict on a whole file. */
  predicate Genuine(key: FileKey, data: seq<byte>) {
    CondensedMac(key, data) == key.metaMac
  }

  // ----- properties of the specification

  /** The schedule partitions the data: the chunks in order are the data, none is empty, and every
      chunk but the last has the full size of its number. */
  lemma {:induction false} ChunksPartition(data: seq<byte>, number: int)
    requires number >= 1
    ensures Flatten(Chunks(data, number)) == data
    ensures var c := Chunks(data, number);
            forall i :: 0 <= i < |c| ==>
              0 < |c[i]| <= ChunkSize(number + i) && (i < |c| - 1 ==> |c[i]| == ChunkSize(number + i))
    decreases |data|
  {
    if data != [] {
      var k := Least(ChunkSize(number), |data|);
      ChunksPartition(data[k..], number + 1);
      var rest, c := Chunks(data[k..], number + 1), Chunks(data, number);
      assert c == [data[..k]] + rest && c[1..] == rest;
      assert data == data[..k] + data[k..];
      forall i | 0 <= i < |c|
        ensures 0 < |c[i]| <= ChunkSize(number + i) && (i < |c| - 1 ==> |c[i]| == ChunkSize(number + i))
      {
        if i > 0 { assert c[i] == rest[i - 1] && number + i == number + 1 + (i - 1); }
        else if |c| > 1 { assert data[k..] != []; }
      }
    }
  }

  /** The decryption equation of CBC (section 6.2 of NIST SP 800-38A), byte by byte: every ciphertext
      block decrypts to its plaintext block xored with the ciphertext block before it. */
  lemma {:induction false} CbcEquation(e: Block -> Block, d: Block -> Block, iv: Block, a: seq<Block>, j: nat, i: nat)
    requires (forall x :: d(e(x)) == x) && j < |a| && i < 16
    ensures d(Cbc(e, iv, a)[j])[i] == Xor(a[j][i], (if j == 0 then iv else Cbc(e, iv, a)[j - 1])[i])
    decreases |a|
  {
    var c := e(XorBlock(a[0], iv));
    if j > 0 {
      CbcEquation(e, d, c, a[1..], j - 1, i);
    } else {
      assert d(c) == XorBlock(a[0], iv);
    }
  }

  /** Every block counts: with an invertible cipher, messages that differ in one block have different
      chaining values. */
  lemma OneBlockMatters(e: Block -> Block, d: Block -> Block, iv: Block, p: seq<Block>, x: Block, y: Block,
                        q: seq<Block>)
    requires (forall z :: d(e(z)) == z) && x != y
    ensures Chain(e, iv, p + [x] + q) != Chain(e, iv, p + [y] + q)
  {
    var v := Chain(e, iv, p);
    ChainAppend(e, iv, p + [x], q);
    ChainAppend(e, iv, p + [y], q);
    ChainAppend(e, iv, p, [x]);
    ChainAppend(e, iv, p, [y]);
    ChainOne(e, v, x);
    ChainOne(e, v, y);
    hide Chain, XorBlock;
    XorBlockInjective(x, y, v);
    assert d(e(XorBlock(x, v))) != d(e(XorBlock(y, v)));
    ChainsStayApart(e, d, e(XorBlock(x, v)), e(XorBlock(y, v)), q);
  }

  lemma XorBlockInjective(x: Block, y: Block, v: Block)
    ensures XorBlock(x, v) == XorBlock(y, v) ==> x == y
  {
    if XorBlock(x, v) == XorBlock(y, v) {
      forall i | 0 <= i < 16 ensures x[i] == y[i] {
        XorTwice(x[i], v[i]);
        XorTwice(y[i], v[i]);
        assert XorBlock(x, v)[i] == XorBlock(y, v)[i];
      }
    }
  }

  lemma XorBlockCommutes(x: Block, v: Block, w: Block)
    ensures XorBlock(x, v) == XorBlock(x, w) ==> v == w
  {
    if XorBlock(x, v) == XorBlock(x, w) {
      forall i | 0 <= i < 16 ensures v[i] == w[i] {
        XorSwaps(x[i], v[i]);
        XorSwaps(x[i], w[i]);
        XorTwice(v[i], x[i]);
        XorTwice(w[i], x[i]);
        assert XorBlock(x, v)[i] == XorBlock(x, w)[i];
      }
    }
  }

  lemma {:induction false} ChainsStayApart(e: Block -> Block, d: Block -> Block, v: Block, w: Block, q: seq<Block>)
    requires (forall z :: d(e(z)) == z) && v != w
    ensures Chain(e, v, q) != Chain(e, w, q)
    decreases |q|
  {
    hide XorBlock;
    if q == [] {
      ChainOfNone(e, v, q);
      ChainOfNone(e, w, q);
    } else {
      hide Chain;
      XorBlockCommutes(q[0], v, w);
      assert d(e(XorBlock(q[0], v))) != d(e(XorBlock(q[0], w)));
      ChainStep(e, v, q);
      ChainStep(e, w, q);
      ChainsStayApart(e, d, e(XorBlock(q[0], v)), e(XorBlock(q[0], w)), q[1..]);
    }
  }

  // ----- the words of the MAC

  lemma {:induction false} XorBitsSwap(a: nat, b: nat, k: nat)
    ensures XorBits(a, b, k) == XorBits(b, a, k)
  {
    if k > 0 { XorBitsSwap(a / 2, b / 2, k - 1); }
  }

  lemma XorSwaps(a: byte, b: byte)
    ensures Xor(a, b) == Xor(b, a)
  {
    XorBitsSwap(a, b, 8);
  }

  /** a with m zero bits appended. */
  function Shifted(a: nat, m: nat): nat { if m == 0 then a else 2 * Shifted(a, m - 1) }

  /** Exclusive or works on the low m bits and on the rest separately. */
  lemma {:induction false} XorBitsSplit(a: nat, x: nat, b: nat, y: nat, m: nat, k: nat)
    requires x < Pow2(m) && y < Pow2(m)
    ensures XorBits(Shifted(a, m) + x, Shifted(b, m) + y, m + k) == Shifted(XorBits(a, b, k), m) + XorBits(x, y, m)
  {
    if m > 0 {
      hide XorBits;
      var x', y' := x / 2, y / 2;
      XorBitsSplit(a, x', b, y', m - 1, k);
      hide Pow2;
      var r := Shifted(XorBits(a, b, k), m - 1);
      SplitStep(Shifted(a, m - 1), x', x - 2 * x', Shifted(b, m - 1), y', y - 2 * y', r, m, k);
    }
  }

  lemma SplitStep(a: nat, x: nat, s: nat, b: nat, y: nat, t: nat, r: nat, m: nat, k: nat)
    requires m > 0 && s < 2 && t < 2 && XorBits(a + x, b + y, m - 1 + k) == r + XorBits(x, y, m - 1)
    ensures XorBits(2 * a + (2 * x + s), 2 * b + (2 * y + t), m + k) == 2 * r + XorBits(2 * x + s, 2 * y + t, m)
  {
    XorBitsStep(x, s, y, t, m - 1);
    XorBitsStep(a + x, s, b + y, t, m - 1 + k);
    hide XorBits;
    assert 2 * (a + x) + s == 2 * a + (2 * x + s) && 2 * (b + y) + t == 2 * b + (2 * y + t);
  }

  /** One step of XorBits, with the lowest bits apart. */
  lemma XorBitsStep(u: nat, s: nat, v: nat, t: nat, k: nat)
    requires s < 2 && t < 2
    ensures XorBits(2 * u + s, 2 * v + t, k + 1) == 2 * XorBits(u, v, k) + (s + t) % 2
  {
    assert (2 * u + s) / 2 == u && (2 * v + t) / 2 == v;
  }

  lemma ShiftedByte(a: nat)
    ensures Shifted(a, 8) == 256 * a
  {
    assert Shifted(a, 1) == 2 * a && Shifted(a, 2) == 4 * a && Shifted(a, 3) == 8 * a && Shifted(a, 4) == 16 * a;
    assert Shifted(a, 5) == 32 * a && Shifted(a, 6) == 64 * a && Shifted(a, 7) == 128 * a;
  }

  /** Xor of bytes written as one number. */
  lemma {:induction false} XorOfValues(u: seq<byte>, v: seq<byte>, r: seq<byte>)
    requires |u| == |v| == |r| && forall i :: 0 <= i < |u| ==> r[i] == Xor(u[i], v[i])
    ensures Value(r) == XorBits(Value(u), Value(v), 8 * |u|)
  {
    if u != [] {
      var k := |u| - 1;
      XorOfValues(u[..k], v[..k], r[..k]);
      assert Pow2(8) == 256 by { assert Pow2(4) == 16; }
      ShiftedByte(Value(u[..k]));
      ShiftedByte(Value(v[..k]));
      ShiftedByte(XorBits(Value(u[..k]), Value(v[..k]), 8 * k));
      XorBitsSplit(Value(u[..k]), u[k], Value(v[..k]), v[k], 8, 8 * k);
    }
  }

  /** The condensed value: the exclusive or of the first two big-endian words of the block, then of the
      last two. */
  lemma FoldWords(b: Block)
    ensures Value(Fold(b)[..4]) == XorBits(Value(b[0..4]), Value(b[4..8]), 32)
    ensures Value(Fold(b)[4..8]) == XorBits(Value(b[8..12]), Value(b[12..16]), 32)
  {
    XorOfValues(b[0..4], b[4..8], Fold(b)[..4]);
    XorOfValues(b[8..12], b[12..16], Fold(b)[4..8]);
  }

  /** Every chunk starts from the nonce written twice. */
  lemma ChunkIvIsNonceTwice(key: FileKey, i: nat)
    requires i < 8
    ensures ChunkIv(key)[i] == key.nonce[i] && ChunkIv(key)[8 + i] == key.nonce[i]
  {
  }

  /** Where the chunk with a number begins. */
  function ChunkStart(number: int): int
    requires number >= 1
  {
    if number == 1 then 0 else ChunkStart(number - 1) + ChunkSize(number - 1)
  }

  /** The schedule in closed form: eight chunks that grow by 128 KiB, then chunks of 1 MiB. */
  lemma {:induction false} ChunkStarts(number: int)
    requires number >= 1
    ensures ChunkStart(number) ==
              if number <= 9 then 65536 * number * (number - 1) else 4718592 + (number - 9) * 1048576
  {
    if number > 1 { ChunkStarts(number - 1); }
  }

  /** Block-at-a-time CBC equals whole-message CBC: encrypting a message in two calls that share the
      chaining value gives the ciphertext of one call. */
  lemma {:induction false} CbcAppend(encrypt: Block -> Block, iv: Block, a: seq<Block>, b: seq<Block>)
    ensures Cbc(encrypt, iv, a + b) == Cbc(encrypt, iv, a) + Cbc(encrypt, Chain(encrypt, iv, a), b)
    decreases |a|
  {
    hide XorBlock, Chain;
    if a == [] {
      ChainOfNone(encrypt, iv, a);
      assert a + b == b;
    } else {
      var c := encrypt(XorBlock(a[0], iv));
      CbcAppend(encrypt, c, a[1..], b);
      assert (a + b)[1..] == a[1..] + b;
      ChainStep(encrypt, iv, a);
    }
  }

  lemma ChainOfNone(encrypt: Block -> Block, iv: Block, a: seq<Block>)
    requires a == []
    ensures Chain(encrypt, iv, a) == iv
  {
  }

  lemma ChainStep(encrypt: Block -> Block, iv: Block, a: seq<Block>)
    requires a != []
    ensures Chain(encrypt, iv, a) == Chain(encrypt, encrypt(XorBlock(a[0], iv)), a[1..])
  {
  }

  lemma ChainAppend(encrypt: Block -> Block, iv: Block, a: seq<Block>, b: seq<Block>)
    ensures Chain(encrypt, iv, a + b) == Chain(encrypt, Chain(encrypt, iv, a), b)
  {
    CbcAppend(encrypt, iv, a, b);
  }

  lemma ChainOne(encrypt: Block -> Block, iv: Block, b: Block)
    ensures Chain(encrypt, iv, [b]) == encrypt(XorBlock(b, iv))
  {
    assert [b][1..] == [];
  }

  lemma {:induction false} BlocksAppend(a: seq<byte>, b: seq<byte>)
    requires |a| % 16 == 0 && |b| % 16 == 0
    ensures Blocks(a + b) == Blocks(a) + Blocks(b)
  {
    if a == [] {
      assert a + b == b;
    } else {
      assert (a + b)[..16] == a[..16] && (a + b)[16..] == a[16..] + b;
      BlocksAppend(a[16..], b);
    }
  }

  // ----- the streaming verifier

  /** A CBC encrypter that keeps its chaining value between calls. */
  class CbcEncrypter {
    const encrypt: Block -> Block
    var chain: Block

    constructor (e: Block -> Block, iv: Block)
      ensures encrypt == e && chain == iv
    {
      encrypt, chain := e, iv;
    }

    method CryptBlock(source: Block) returns (out: Block)
      modifies this
      ensures out == chain == Chain(encrypt, old(chain), [source])
    {
      ChainOne(encrypt, chain, source);
      out := encrypt(XorBlock(source, chain));
      chain := out;
    }
  }

  /** One chunk, block by block. */
  method MacOfChunk(key: FileKey, plain: seq<byte>) returns (mac: Block)
    requires plain != []
    ensures mac == ChunkMac(key, plain)
  {
    var padded := ZeroPad(plain);
    var cipher := new CbcEncrypter(key.encrypt, ChunkIv(key));
    mac := ZERO_BLOCK;
    var offset := 0;
    assert padded[..0] == [];
    while offset < |padded|
      invariant 0 <= offset <= |padded| && offset % 16 == 0
      invariant cipher.encrypt == key.encrypt
      invariant cipher.chain == Chain(key.encrypt, ChunkIv(key), Blocks(padded[..offset]))
      invariant offset > 0 ==> mac == cipher.chain
    {
      NextBlock(key.encrypt, ChunkIv(key), padded, offset);
      mac := cipher.CryptBlock(padded[offset..offset + 16]);
      offset := offset + 16;
    }
    assert padded[..offset] == padded;
  }

  lemma NextBlock(encrypt: Block -> Block, iv: Block, data: seq<byte>, offset: nat)
    requires |data| % 16 == 0 && offset % 16 == 0 && offset + 16 <= |data|
    ensures Chain(encrypt, iv, Blocks(data[..offset + 16]))
            == Chain(encrypt, Chain(encrypt, iv, Blocks(data[..offset])), [data[offset..offset + 16]])
  {
    var block := data[offset..offset + 16];
    assert data[..offset + 16] == data[..offset] + block;
    BlocksAppend(data[..offset], block);
    assert block[..16] == block && block[16..] == [];
    assert Blocks(block) == [block];
    ChainAppend(encrypt, iv, Blocks(data[..offset]), [block]);
  }

  /** VerifyIntegrity: accepts exactly when the reader supplies size bytes whose condensed MAC is the
      key's, and then has consumed exactly size bytes. */
  method VerifyIntegrity(reader: seq<byte>, size: int64, key: FileKey) returns (ok: bool, consumed: nat)
    ensures ok <==> 0 <= size <= |reader| && Genuine(key, reader[..size])
    ensures 0 <= size <= |reader| ==> consumed == size
    ensures consumed <= |reader| && (size < 0 ==> consumed == 0) && (size >= 0 ==> consumed <= size)
  {
    if size < 0 { return false, 0; }
    if size == 0 { return ZERO_HALF == key.metaMac, 0; }
    var complete, chain;
    complete, chain, consumed := ScanChunks(reader, size, key);
    if !complete { return false, consumed; }
    assert reader[..size] == reader[0..size];
    ok := Fold(chain) == key.metaMac;
  }

  /** The chunk loop: false if the reader ends before size bytes. */
  method ScanChunks(reader: seq<byte>, size: int64, key: FileKey) returns (complete: bool, chain: Block, consumed: nat)
    requires size > 0
    ensures complete <==> size <= |reader|
    ensures complete ==> consumed == size && chain == FileChain(key, ZERO_BLOCK, reader[0..size], 1)
    ensures consumed <= size && consumed <= |reader|
  {
    hide FileChain;
    var macs := new CbcEncrypter(key.encrypt, ZERO_BLOCK);
    var number := 1;
    consumed := 0;
    ghost var target := if size <= |reader| then FileChain(key, ZERO_BLOCK, reader[0..size], 1) else ZERO_BLOCK;
    while consumed < size
      invariant consumed <= size && consumed <= |reader| && number >= 1
      invariant macs.encrypt == key.encrypt
      invariant size <= |reader| ==> FileChain(key, macs.chain, reader[consumed..size], number) == target
    {
      var chunk := Least(ChunkSize(number), size - consumed);
      if |reader| - consumed < chunk { return false, macs.chain, |reader|; }
      Absorb(macs, key, reader, consumed, chunk, size, number);
      consumed := consumed + chunk;
      number := number + 1;
    }
    ChainOfNothing(key, macs.chain, reader[consumed..size], number);
    return true, macs.chain, consumed;
  }

  lemma ChainOfNothing(key: FileKey, chain: Block, data: seq<byte>, number: int)
    requires number >= 1 && |data| == 0
    ensures FileChain(key, chain, data, number) == chain
  {
  }

  /** One chunk enters the file chain; what the chain will be at the end does not change. */
  method Absorb(macs: CbcEncrypter, key: FileKey, reader: seq<byte>, consumed: nat, chunk: nat, ghost size: nat,
                ghost number: int)
    requires macs.encrypt == key.encrypt && number >= 1 && consumed < size && consumed + chunk <= |reader|
    requires chunk == Least(ChunkSize(number), size - consumed)
    modifies macs
    ensures size <= |reader| ==> FileChain(key, macs.chain, reader[consumed + chunk..size], number + 1)
                                 == old(FileChain(key, macs.chain, reader[consumed..size], number))
  {
    if size <= |reader| { NextChunkAt(key, macs.chain, reader, consumed, size, number); }
    var mac := MacOfChunk(key, reader[consumed..consumed + chunk]);
    var out := macs.CryptBlock(mac);
  }

  /** The final chaining value over the chunks of data, from a chaining value and a chunk number. */
  function FileChain(key: FileKey, chain: Block, data: seq<byte>, number: int): Block
    requires number >= 1
  {
    Chain(key.encrypt, chain, ChunkMacs(key, Chunks(data, number)))
  }

  lemma NextChunkAt(key: FileKey, chain: Block, reader: seq<byte>, consumed: nat, size: nat, number: int)
    requires number >= 1 && consumed < size <= |reader|
    ensures var chunk := Least(ChunkSize(number), size - consumed);
            FileChain(key, chain, reader[consumed..size], number)
            == FileChain(key, Chain(key.encrypt, chain, [ChunkMac(key, reader[consumed..consumed + chunk])]),
                         reader[consumed + chunk..size], number + 1)
  {
    hide FileChain, Chain, ChunkMac;
    var data, chunk := reader[consumed..size], Least(ChunkSize(number), size - consumed);
    NextChunk(key, chain, data, number);
    assert data[..chunk] == reader[consumed..consumed + chunk] && data[chunk..] == reader[consumed + chunk..size];
  }

  lemma NextChunk(key: FileKey, chain: Block, data: seq<byte>, number: int)
    requires number >= 1 && data != []
    ensures var k := Least(ChunkSize(number), |data|);
            FileChain(key, chain, data, number)
            == FileChain(key, Chain(key.encrypt, chain, [ChunkMac(key, data[..k])]), data[k..], number + 1)
  {
    var k := Least(ChunkSize(number), |data|);
    var c := Chunks(data, number);
    assert c[0] == data[..k] && c[1..] == Chunks(data[k..], number + 1);
    ChainAppend(key.encrypt, chain, [ChunkMac(key, data[..k])], ChunkMacs(key, c[1..]));
  }

  /** VerifyPartialFileContext on an open file: the length must match before the scan. */
  method VerifyFile(content: seq<byte>, size: int64, key: FileKey) returns (ok: bool)
    ensures ok <==> |content| == size && Genuine(key, content)
  {
    if size < 0 { return false; }
    if |content| != size { return false; }
    var good, consumed := VerifyIntegrity(content, size, key);
    assert content[..size] == content;
    return good;
  }
}
