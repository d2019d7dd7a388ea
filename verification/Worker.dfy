/** The range worker: fetch one encrypted range, decrypt it and write it into the part file. What the
    network, the limiter and the file system do is given by arbitrary functions of the call number. */
module Worker {
  import opened SegmentPlan
  import opened Ctr

  const TRANSFER_BUFFER: int := 0x8_0000
  const PARTIAL_CONTENT: int := 206

  /** How the operating system answers one write: bytes accepted, and whether it reports an error. */
  datatype WriteOutcome = WriteOutcome(accepted: nat, fails: bool)

  /** How one read of the body ends: bytes offered, or an error other than end of file. */
  datatype ReadOutcome = ReadOutcome(offered: nat, fails: bool)

  /** The parsed Content-Range header: first byte, last byte, total size. */
  datatype ContentRange = ContentRange(first: int, last: int, total: int)

  datatype Response =
    | NoResponse
    | Response(status: int, range: Option<ContentRange>, contentLength: int, body: seq<byte>)

  datatype Network = Network(
    response: Response,
    read: nat -> ReadOutcome,
    waitFails: nat -> bool,
    write: (nat, nat) -> WriteOutcome,  // by chunk and by write of the chunk
    tailFails: bool)

  /** The first n bytes of data have replaced those of was at offset; nothing else changed. */
  ghost predicate Overlay(now: seq<byte>, was: seq<byte>, data: seq<byte>, offset: int, n: int)
    requires 0 <= n <= |data|
  {
    && |now| == |was|
    && (n > 0 ==> 0 <= offset && offset + n <= |was|)
    && forall b :: 0 <= b < |was| ==> now[b] == if offset <= b < offset + n then data[b - offset] else was[b]
  }

  /** PartialFile: the open descriptor and the length it was sized to. */
  class PartialFile {
    var content: array<byte>
    var open: bool

    constructor (data: seq<byte>)
      ensures open && fresh(content) && content[..] == data
    {
      content := new byte[|data|](i requires 0 <= i < |data| => data[i]);
      open := true;
    }

    /** WriteAt: refused outside the file's bounds; otherwise some prefix of data is written. */
    method WriteAt(data: seq<byte>, offset: int64, os: WriteOutcome) returns (n: nat, err: bool)
      modifies content
      ensures n <= |data| && Overlay(content[..], old(content[..]), data, offset, n)
      ensures !open || offset < 0 || offset + |data| > content.Length ==> n == 0 && err
      ensures open && 0 <= offset && offset + |data| <= content.Length ==>
                err == os.fails && n == if os.accepted < |data| then os.accepted else |data|
    {
      if !open { return 0, true; }
      if offset < 0 || offset > content.Length || |data| > content.Length - offset { return 0, true; }
      n := if os.accepted < |data| then os.accepted else |data|;
      err := os.fails;
      forall i | 0 <= i < n { content[offset + i] := data[i]; }
    }
  }

  /** Every write accepts a byte at least and none reports an error. */
  ghost predicate Accepting(os: nat -> WriteOutcome) {
    forall k: nat :: os(k).accepted > 0 && !os(k).fails
  }

  /** writeAllAt: repeats short writes. Success means all of data; failure leaves a prefix. Inside an
      open file and with accepting writes it succeeds. */
  method WriteAllAt(file: PartialFile, data: seq<byte>, offset: int64, os: nat -> WriteOutcome)
      returns (ok: bool, ghost total: nat)
    requires offset + |data| <= MAX_INT64
    modifies file.content
    ensures total <= |data| && Overlay(file.content[..], old(file.content[..]), data, offset, total)
    ensures ok ==> total == |data|
    ensures Accepting(os) && file.open && 0 <= offset && offset + |data| <= file.content.Length ==> ok
  {
    var rest, at: int, call := data, offset, 0;
    total := 0;
    while |rest| > 0
      invariant total <= |data| && rest == data[total..] && at == offset + total
      invariant Overlay(file.content[..], old(file.content[..]), data, offset, total)
      decreases |rest|
    {
      var n, err := file.WriteAt(rest, at, os(call));
      call := call + 1;
      if n > 0 {
        at := at + n;
        rest := rest[n..];
        total := total + n;
      }
      if err { return false, total; }
      if n == 0 { return false, total; }
    }
    return true, total;
  }

  /** The header checks of DownloadRangeWithOptions. */
  predicate Acceptable(response: Response, segment: Segment, fileSize: int64)
  {
    && response.Response?
    && response.status == PARTIAL_CONTENT
    && response.range == Some(ContentRange(segment.start, segment.end, fileSize))
    && (response.contentLength >= 0 ==> response.contentLength == segment.Size())
  }

  /** What a segment's bytes become once a body has been decrypted over them. */
  ghost function Plain(key: FileKey, segment: Segment, body: seq<byte>): seq<byte>
    requires segment.start >= 0
  {
    Crypt(key, if |body| <= segment.Size() then body else body[..segment.Size()], segment.start)
  }

  function BodyOf(response: Response): seq<byte> {
    if response.NoResponse? then [] else response.body
  }

  function Min(a: int, b: int): int { if a < b then a else b }

  function Max(a: int, b: int): int { if a < b then b else a }

  method DecryptChunk(stream: Stream, buffer: array<byte>, limited: seq<byte>, done: nat, n: nat, start: int64,
                      ghost plain: seq<byte>)
    requires stream.Valid() && stream.position == start + done && done + n <= |limited| && n <= buffer.Length
    requires 0 <= start && start + |limited| <= MAX_INT64 && plain == Crypt(stream.key, limited, start)
    modifies stream, buffer
    ensures stream.Valid() && stream.position == start + done + n
    ensures buffer[..n] == plain[done..done + n]
  {
    hide Crypt, KeyByte, Xor;
    ghost var chunk := limited[done..done + n];
    assert Crypt(stream.key, chunk, start + done) == plain[done..done + n] by {
      CryptSlice(stream.key, limited, start, done, done + n);
    }
    forall i | 0 <= i < n { buffer[i] := limited[done + i]; }
    assert buffer[..n] == chunk;
    stream.XorKeyStream(buffer, n);
  }

  /** One round of the loop: the n bytes just read are decrypted in the reused buffer and written. */
  method TransferChunk(file: PartialFile, stream: Stream, buffer: array<byte>, limited: seq<byte>, done: nat, n: nat,
                       start: int64, os: nat -> WriteOutcome, ghost was: seq<byte>, ghost plain: seq<byte>)
      returns (stored: bool, ghost total: nat)
    requires stream.Valid() && stream.position == start + done && done + n <= |limited| && n <= buffer.Length
    requires buffer != file.content && 0 <= start && start + |limited| <= MAX_INT64
    requires plain == Crypt(stream.key, limited, start) && Overlay(file.content[..], was, plain, start, done)
    modifies file.content, stream, buffer
    ensures stream.Valid() && stream.position == start + done + n
    ensures total <= n && (stored ==> total == n)
    ensures Overlay(file.content[..], was, plain, start, done + total)
    ensures Accepting(os) && file.open && start + done + n <= file.content.Length ==> stored
  {
    ghost var before, piece := file.content[..], plain[done..done + n];
    DecryptChunk(stream, buffer, limited, done, n, start, plain);
    stored, total := WriteAllAt(file, buffer[..n], start + done, os);
    OverlayExtends(file.content[..], before, was, plain, piece, start, done, n, total);
  }

  /** No wait, read or write fails. */
  ghost predicate Untroubled(net: Network) {
    && (forall k: nat :: !net.waitFails(k)) && (forall k: nat :: !net.read(k).fails)
    && forall k: nat, i: nat :: net.write(k, i).accepted > 0 && !net.write(k, i).fails
  }

  /** The read loop over the limited body, with any read sizes, waits and failures. */
  method CopyBody(file: PartialFile, stream: Stream, limited: seq<byte>, want: nat, start: int64, net: Network,
                  ghost plain: seq<byte>)
      returns (written: int, ok: bool, ghost touched: nat)
    requires stream.Valid() && stream.position == start && start + want <= MAX_INT64 && |limited| <= want
    requires plain == Crypt(stream.key, limited, start)
    modifies file.content, stream
    ensures 0 <= written <= touched <= |limited| && (ok ==> written == touched == want)
    ensures Overlay(file.content[..], old(file.content[..]), plain, start, touched)
    ensures Untroubled(net) && |limited| == want && file.open && start + want <= file.content.Length ==> ok
  {
    ghost var was := file.content[..];
    var buffer := new byte[TRANSFER_BUFFER];
    written, touched := 0, 0;
    var call := 0;
    while written < want
      invariant 0 <= written == touched <= |limited|
      invariant stream.Valid() && stream.position == start + written
      invariant buffer.Length == TRANSFER_BUFFER
      invariant Overlay(file.content[..], was, plain, start, touched)
      decreases want - written
    {
      if net.waitFails(call) { return written, false, touched; }
      // io.ReadAtLeast with a minimum of one byte: data or an error, never both
      if net.read(call).fails || written == |limited| { return written, false, touched; }
      var readSize := Min(want - written, buffer.Length);
      var n := Min(Min(readSize, |limited| - written), Max(1, net.read(call).offered));
      var stored, total := TransferChunk(file, stream, buffer, limited, written, n, start,
                                         (i: nat) => net.write(call, i), was, plain);
      touched := touched + total;
      if !stored { return written, false, touched; }
      written := written + n;
      call := call + 1;
    }
    return written, true, touched;
  }

  /** The answer that a segment needs: status 206, exactly its range of the file, a content length that
      agrees if there is one, and a body of exactly its size. */
  ghost predicate Answers(response: Response, segment: Segment, fileSize: int64) {
    && response.Response? && response.status == 206
    && response.range == Some(ContentRange(segment.start, segment.end, fileSize))
    && (response.contentLength < 0 || response.contentLength == segment.end - segment.start + 1)
    && |response.body| == segment.end - segment.start + 1
  }

  /** A segment of the file, answered as it needs, with nothing going wrong on the way. */
  ghost predicate Delivers(net: Network, segment: Segment, fileSize: int64) {
    && 0 <= segment.start <= segment.end < fileSize
    && Answers(net.response, segment, fileSize) && Untroubled(net) && !net.tailFails
  }

  /** DownloadRangeWithOptions: whatever the read sizes, a success has written exactly the decryption
      of a body of exactly the segment's size; a failure has written a prefix of the decryption; and
      no byte outside the segment ever changes. It succeeds only on the answer that the segment needs, and
      on that answer it does when nothing goes wrong on the way. */
  method DownloadRange(file: PartialFile, key: FileKey, segment: Segment, fileSize: int64, net: Network)
      returns (written: int, ok: bool, ghost touched: nat)
    modifies file.content
    ensures 0 <= written <= touched <= segment.Size()
    ensures touched > 0 ==> && 0 <= segment.start && touched <= |Plain(key, segment, BodyOf(net.response))|
                            && Overlay(file.content[..], old(file.content[..]),
                                       Plain(key, segment, BodyOf(net.response)), segment.start, touched)
    ensures touched == 0 ==> file.content[..] == old(file.content[..])
    ensures ok ==> written == touched == segment.Size() == |BodyOf(net.response)| > 0
    ensures ok ==> 0 <= segment.start <= segment.end < fileSize && Answers(net.response, segment, fileSize)
    ensures Delivers(net, segment, fileSize) && file.open && segment.end < file.content.Length ==> ok
  {
    if segment.start < 0 || segment.end < segment.start || segment.end >= fileSize { return 0, false, 0; }
    if !Acceptable(net.response, segment, fileSize) { return 0, false, 0; }
    var want := segment.Size();
    var body := net.response.body;
    var created, stream := NewCtr(key, segment.start);
    if !created { return 0, false, 0; }
    var limited := if |body| <= want then body else body[..want];
    written, ok, touched := CopyBody(file, stream, limited, want, segment.start, net, Plain(key, segment, body));
    if ok && (|body| > want || net.tailFails) { ok := false; }
  }

  /** Writing the next chunk of the plaintext after a prefix of it gives a longer prefix. */
  lemma OverlayExtends(now: seq<byte>, before: seq<byte>, was: seq<byte>, plain: seq<byte>,
                       piece: seq<byte>, start: nat, done: nat, n: nat, total: nat)
    requires done + n <= |plain| && total <= n
    requires Overlay(before, was, plain, start, done)
    requires piece == plain[done..done + n] && Overlay(now, before, piece, start + done, total)
    ensures Overlay(now, was, plain, start, done + total)
  {
  }

  // ----- retries

  datatype RetryClass = RetryNone | RetryTransport | RetryRateLimit | RetryServer | RetryRefreshUrl | RetryQuota

  datatype Attempt = Attempt(net: Network, retryClass: RetryClass, refreshed: bool, afterRefresh: RetryClass,
      cancelled: bool)

  /** Every body the server sends agrees with the file's ciphertext over the segment. */
  ghost predicate Serves(attempts: nat -> Attempt, cipher: seq<byte>, segment: Segment)
  {
    0 <= segment.start && forall k: nat :: Agrees(BodyOf(attempts(k).net.response), cipher, segment)
  }

  ghost predicate Agrees(body: seq<byte>, cipher: seq<byte>, segment: Segment)
    requires 0 <= segment.start
  {
    forall i :: 0 <= i < |body| && i < segment.Size() ==>
      segment.start + i < |cipher| && body[i] == cipher[segment.start + i]
  }

  /** Each byte of now is the old one or, inside the segment's first n bytes, the file's plaintext. */
  ghost predicate PlainPrefix(now: seq<byte>, was: seq<byte>, plain: seq<byte>, start: int, n: int) {
    && |now| == |was| && 0 <= start && 0 <= n
    && (n > 0 ==> start + n <= |was| && start + n <= |plain|)
    && forall b :: 0 <= b < |was| ==> now[b] == if start <= b < start + n then plain[b] else was[b]
  }

  /** One attempt, as it adds to what earlier attempts left in the segment. */
  method TryOnce(file: PartialFile, key: FileKey, segment: Segment, fileSize: int64, net: Network,
                 ghost was: seq<byte>, ghost cipher: seq<byte>, ghost before: nat, ghost serves: bool)
      returns (written: int, ok: bool, ghost reached: nat)
    requires before <= segment.Size() && file.content.Length == |was|
    requires forall b :: 0 <= b < |was| && !(segment.start <= b <= segment.end) ==> file.content[b] == was[b]
    requires serves ==> && 0 <= segment.start && Agrees(BodyOf(net.response), cipher, segment)
                        && PlainPrefix(file.content[..], was, Crypt(key, cipher, 0), segment.start, before)
    modifies file.content
    ensures reached <= segment.Size()
    ensures forall b :: 0 <= b < |was| && !(segment.start <= b <= segment.end) ==> file.content[b] == was[b]
    ensures serves ==> PlainPrefix(file.content[..], was, Crypt(key, cipher, 0), segment.start, reached)
    ensures ok ==> written == reached == segment.Size() > 0
    ensures ok ==> Answers(net.response, segment, fileSize)
    ensures Delivers(net, segment, fileSize) && file.open && segment.end < file.content.Length ==> ok
  {
    ghost var touched: nat;
    written, ok, touched := DownloadRange(file, key, segment, fileSize, net);
    reached := Max(touched, before);
    if serves {
      PlainIsSlice(key, cipher, segment, BodyOf(net.response));
      PlainPrefixGrows(file.content[..], old(file.content[..]), was, Crypt(key, cipher, 0), segment.start,
                       Plain(key, segment, BodyOf(net.response)), before, touched);
    }
  }

  predicate TriedAgain(kind: RetryClass) { kind in {RetryTransport, RetryRateLimit, RetryServer} }

  /** A failed attempt j after which the loop goes on, provided no address was refreshed before: the address
      is refreshed, or the failure (that of the refresh, if it fails) is tried again within the limit. */
  predicate GoesOn(attempt: Attempt, j: nat, retryLimit: nat) {
    var again := !attempt.cancelled && j < retryLimit;
    if attempt.retryClass == RetryRefreshUrl then attempt.refreshed || (again && TriedAgain(attempt.afterRefresh))
    else again && TriedAgain(attempt.retryClass)
  }

  /** Attempt k delivers, the loop goes on after each one before it, and at most one asks for a refresh. */
  ghost predicate DeliversAt(attempts: nat -> Attempt, k: nat, retryLimit: nat, segment: Segment, fileSize: int64) {
    && Delivers(attempts(k).net, segment, fileSize)
    && (forall j: nat :: j < k ==> GoesOn(attempts(j), j, retryLimit))
    && (forall i: nat, j: nat :: i < j < k && attempts(i).retryClass == RetryRefreshUrl ==>
          attempts(j).retryClass != RetryRefreshUrl)
  }

  /** downloadSegmentWithRetry: over any sequence of attempts the part file holds, inside the segment,
      only old bytes and bytes of the whole-file decryption; on success all of the latter. If some attempt
      delivers and the loop goes on after those before it, it succeeds; success always rests on an
      attempt whose answer is the one the segment needs. */
  method DownloadSegmentWithRetry(file: PartialFile, key: FileKey, segment: Segment, fileSize: int64,
                                  attempts: nat -> Attempt, retryLimit: nat, ghost cipher: seq<byte>)
      returns (written: int, ok: bool, ghost reached: nat)
    modifies file.content
    ensures reached <= segment.Size()
    ensures |file.content[..]| == |old(file.content[..])|
    ensures forall b :: 0 <= b < file.content.Length && !(segment.start <= b <= segment.end) ==>
              file.content[b] == old(file.content[b])
    ensures Serves(attempts, cipher, segment) ==>
              PlainPrefix(file.content[..], old(file.content[..]), Crypt(key, cipher, 0), segment.start, reached)
    ensures ok ==> written == reached == segment.Size() > 0
    ensures ok ==> exists k: nat :: Answers(attempts(k).net.response, segment, fileSize)
    ensures file.open && segment.end < file.content.Length ==>
              (exists k: nat :: DeliversAt(attempts, k, retryLimit, segment, fileSize)) ==> ok
  {
    ghost var promised := file.open && segment.end < file.content.Length
                          && exists k: nat :: DeliversAt(attempts, k, retryLimit, segment, fileSize);
    ghost var last: nat := 0;
    if promised { last :| DeliversAt(attempts, last, retryLimit, segment, fileSize); }
    var refreshes, retry := 0, 0;
    ghost var was := file.content[..];
    reached := 0;
    while true
      invariant 0 <= refreshes <= 1 && 0 <= retry <= retryLimit + refreshes
      invariant reached <= segment.Size() && file.content.Length == |was|
      invariant forall b :: 0 <= b < |was| && !(segment.start <= b <= segment.end) ==> file.content[b] == was[b]
      invariant Serves(attempts, cipher, segment) ==> PlainPrefix(file.content[..], was, Crypt(key, cipher, 0),
                segment.start, reached)
      invariant promised ==> retry <= last && DeliversAt(attempts, last, retryLimit, segment, fileSize)
      invariant promised && refreshes == 1 ==> exists j: nat :: j < retry && attempts(j).retryClass == RetryRefreshUrl
      decreases 3 + retryLimit - retry - 2 * refreshes
    {
      var attempt := attempts(retry);
      assert Serves(attempts, cipher, segment) ==> Agrees(BodyOf(attempts(retry).net.response), cipher, segment);
      var good: bool;
      written, good, reached := TryOnce(file, key, segment, fileSize, attempt.net, was, cipher, reached,
          Serves(attempts, cipher, segment));
      if good { return written, true, reached; }
      var kind := attempt.retryClass;
      if kind == RetryQuota { return written, false, reached; }
      if kind == RetryRefreshUrl && refreshes < 1 {
        refreshes := refreshes + 1;
        if attempt.refreshed {
          retry := retry + 1;
          continue;
        }
        kind := attempt.afterRefresh;
      }
      if (kind != RetryTransport && kind != RetryRateLimit && kind != RetryServer) || retry >= retryLimit {
        return written, false, reached;
      }
      if attempt.cancelled { return written, false, reached; }
      retry := retry + 1;
    }
  }

  lemma AgreesUpTo(body: seq<byte>, cipher: seq<byte>, segment: Segment, n: nat)
    requires segment.start >= 0 && Agrees(body, cipher, segment) && 0 < n <= |body| && n <= segment.Size()
    ensures segment.start + n <= |cipher| && body[..n] == cipher[segment.start..segment.start + n]
  {
    var last := body[n - 1];
    assert segment.start + (n - 1) < |cipher|;
  }

  /** The decryption of an agreeing body is a slice of the decryption of the whole file. */
  lemma PlainIsSlice(key: FileKey, cipher: seq<byte>, segment: Segment, body: seq<byte>)
    requires segment.start >= 0 && Agrees(body, cipher, segment)
    ensures var piece := Plain(key, segment, body);
            |piece| == Min(|body|, segment.Size())
            && (|piece| > 0 ==> segment.start + |piece| <= |cipher|
                                && piece == Crypt(key, cipher, 0)[segment.start..segment.start + |piece|])
  {
    hide Crypt, KeyByte, Xor, Agrees;
    var n := Min(|body|, segment.Size());
    var used := if |body| <= segment.Size() then body else body[..segment.Size()];
    if n > 0 {
      AgreesUpTo(body, cipher, segment, n);
      assert used == body[..n] == cipher[segment.start..segment.start + n];
      SliceOfWhole(key, cipher, segment.start, segment.start + n);
    }
  }

  lemma PlainPrefixGrows(now: seq<byte>, before: seq<byte>, was: seq<byte>, plain: seq<byte>,
                         start: nat, piece: seq<byte>, reached: nat, touched: nat)
    requires |piece| > 0 ==> start + |piece| <= |plain| && piece == plain[start..start + |piece|]
    requires PlainPrefix(before, was, plain, start, reached)
    requires touched == 0 ==> now == before
    requires touched > 0 ==> touched <= |piece| && Overlay(now, before, piece, start, touched)
    ensures PlainPrefix(now, was, plain, start, Max(touched, reached))
  {
  }
}
