/** What every step of the transfer keeps, and what follows for whole runs. */
module TransferSafety {
  import opened SegmentPlan
  import opened Ctr
  import opened Transfer

  /** The index a worker is responsible for, or -1. */
  function Slot(k: Worker): int {
    match k
    case Holding(i) => i
    case Writing(i, _) => i
    case Reporting(x) => x.index
    case _ => -1
  }

  ghost predicate ResultOk(c: Config, bytes: seq<byte>, r: Run, x: SegmentResult) {
    && x.index in r.claims && x.index !in r.bitmap
    && (x.Success? ==> x.written == c.plan.SizeOf(x.index) && Holds(c, bytes, x.index))
  }

  ghost predicate WorkerOk(c: Config, bytes: seq<byte>, r: Run, k: Worker) {
    match k
    case Holding(i) => 0 <= i < r.next && i !in r.claims
    case Writing(i, n) => i in r.claims && i !in r.bitmap && 0 <= n <= c.plan.SizeOf(i) && PrefixHolds(c, bytes, i, n)
    case Reporting(x) => ResultOk(c, bytes, r, x)
    case _ => true
  }

  ghost predicate BytesOk(c: Config, bytes: seq<byte>, r: Run) {
    && (forall i :: i in r.bitmap ==> Holds(c, bytes, i))
    && (forall w :: w in r.workers ==> WorkerOk(c, bytes, r, r.workers[w]))
    && (forall k :: 0 <= k < |r.results| ==> ResultOk(c, bytes, r, r.results[k]))
  }

  /** Claims are distinct, in range, and never of a segment that was set at the start. */
  ghost predicate ClaimsOk(c: Config, r: Run) {
    && 0 <= r.next && r.start <= r.bitmap
    && (forall i :: i in r.claims ==> 0 <= i < c.plan.count && i < r.next && i !in r.start)
    && (forall a, b :: 0 <= a < b < |r.claims| ==> r.claims[a] != r.claims[b])
    && (forall i :: i in r.bitmap ==> 0 <= i < c.plan.count && (i in r.start || i in r.claims))
  }

  /** No index is in two places at once. */
  ghost predicate Apart(r: Run) {
    && (forall v, w :: v in r.workers && w in r.workers && v != w && Slot(r.workers[v]) >= 0 ==>
          Slot(r.workers[v]) != Slot(r.workers[w]))
    && (forall a, b :: 0 <= a < b < |r.results| ==> r.results[a].index != r.results[b].index)
    && (forall w, a :: w in r.workers && 0 <= a < |r.results| && Slot(r.workers[w]) >= 0 ==>
          Slot(r.workers[w]) != r.results[a].index)
  }

  ghost predicate InFlight(r: Run, i: int) {
    || (exists w :: w in r.workers && Slot(r.workers[w]) == i)
    || (exists a :: 0 <= a < |r.results| && r.results[a].index == i)
  }

  ghost predicate Full(c: Config, bitmap: set<int>) {
    forall i :: 0 <= i < c.plan.count ==> i in bitmap
  }

  /** Until the run is stopped, every index handed out is set or still in flight. */
  ghost predicate Covered(c: Config, r: Run) {
    !r.stopped ==>
      && (forall i :: 0 <= i < r.next && i < c.plan.count ==> i in r.bitmap || InFlight(r, i))
      && (forall w :: w in r.workers && r.workers[w] == Exited ==> r.next >= c.plan.count)
      && (r.workers == map[] ==> Full(c, r.bitmap))
  }

  ghost predicate Closed(c: Config, r: Run) {
    AllExited(r) && r.results == [] && !r.failed && (r.stopped || Full(c, r.bitmap))
  }

  ghost predicate CloneOk(c: Config, r: Run, bitmap: set<int>, committed: int, after: After) {
    bitmap == r.bitmap && committed == r.committed && (after.ThenVerify? ==> Closed(c, r))
  }

  ghost predicate PhaseOk(c: Config, p: Part, r: Run) {
    match r.phase
    case Cloned(b, n, after) => CloneOk(c, r, b, n, after)
    case Syncing(b, n, after) =>
      CloneOk(c, r, b, n, after) && forall i :: i in b ==> i !in p.unsynced || i in p.flushing
    case Synced(b, n, after) => CloneOk(c, r, b, n, after) && p.linked && forall i :: i in b ==> i !in p.unsynced
    case AtVerification => Closed(c, r) && !r.dirty
    case _ => true
  }

  ghost predicate RunInv(c: Config, p: Part, row: Row, r: Run)
    requires c.plan.Valid()
  {
    && row.bitmap <= r.bitmap
    && r.committed == c.plan.Committed(r.bitmap)
    && (!r.dirty ==> row == Row(r.bitmap, r.committed))
    && (r.failed ==> r.stopped)
    && ClaimsOk(c, r) && BytesOk(c, p.bytes, r) && Apart(r) && Covered(c, r) && PhaseOk(c, p, r)
  }

  /** Every persisted segment is synced and correct, in a file whose name is durable. */
  ghost predicate RowInv(c: Config, part: Option<Part>, row: Row)
    requires c.plan.Valid()
  {
    && row.committed == c.plan.Committed(row.bitmap)
    && forall i :: i in row.bitmap ==>
         && 0 <= i < c.plan.count
         && part.Some? && part.value.linked && i !in part.value.unsynced && Holds(c, part.value.bytes, i)
  }

  ghost predicate Inv(c: Config, s: State)
    requires c.plan.Valid()
  {
    && (s.part.Some? ==> |s.part.value.bytes| == c.plan.size)
    && RowInv(c, s.part, s.row)
    && (s.run.Some? ==> s.part.Some? && RunInv(c, s.part.value, s.row, s.run.value))
  }

  /** A step of a run leaves the part file, the row and the run in order. */
  ghost predicate Kept(c: Config, p: Part, row: Row, r: Run, x: Step)
    requires c.plan.Valid() && EnabledStep(c, p, r, x)
  {
    var q, row', t := DoPart(c, p, r, x), DoRow(c, p, row, r, x), DoRun(c, p, r, x);
    |q.bytes| == c.plan.size && RowInv(c, Some(q), row') && RunInv(c, q, row', t)
  }

  // ----- opening

  lemma SubsetOfFullSize(small: set<int>, big: set<int>)
    requires small <= big && |small| >= |big|
    ensures small == big
  {
    var extra := big - small;
    assert big == small + extra;
    assert |big| == |small| + |extra|;
  }

  lemma OpenKeepsInv(c: Config, s: State)
    requires ValidConfig(c) && Inv(c, s) && Enabled(c, s, Open)
    ensures Inv(c, Do(c, s, Open))
  {
    var t := Do(c, s, Open);
    var r := t.run.value;
    assert s.part.None? ==> s.row.bitmap == {} by {
      assert forall i :: i in s.row.bitmap ==> s.part.Some?;
    }
    if r.workers == map[] {
      var n := WorkerCount(c, c.plan.count - |r.bitmap|);
      assert 0 !in r.workers;
      assert r.bitmap <= UpTo(c.plan.count);
      SubsetOfFullSize(r.bitmap, UpTo(c.plan.count));
    }
    assert Covered(c, r);
  }

  // ----- worker steps

  /** t is r after a step of worker w: only that worker, the counter, the claims and the tail of the
      results channel may differ. */
  ghost predicate WorkerStep(r: Run, t: Run, w: nat) {
    && w in r.workers && !r.workers[w].Exited?
    && t.workers.Keys == r.workers.Keys
    && (forall v :: v in r.workers && v != w ==> t.workers[v] == r.workers[v])
    && r.next <= t.next && r.results <= t.results
    && t.start == r.start && t.bitmap == r.bitmap && t.committed == r.committed && t.dirty == r.dirty
    && t.failed == r.failed && t.phase == r.phase && (r.stopped ==> t.stopped)
  }

  /** The new index of worker w is the old one, none, or one that was nowhere before. */
  ghost predicate NewSlot(r: Run, t: Run, w: nat)
    requires w in r.workers && w in t.workers
  {
    var i := Slot(t.workers[w]);
    i == Slot(r.workers[w]) || i < 0
    || ((forall v :: v in r.workers ==> Slot(r.workers[v]) != i)
        && (forall a :: 0 <= a < |r.results| ==> r.results[a].index != i))
  }

  lemma ApartAfter(r: Run, t: Run, w: nat)
    requires Apart(r) && WorkerStep(r, t, w) && NewSlot(r, t, w) && t.results == r.results
    ensures Apart(t)
  {
  }

  lemma CoveredAfter(c: Config, r: Run, t: Run, w: nat)
    requires Covered(c, r) && WorkerStep(r, t, w)
    requires t.next == r.next || (t.next == r.next + 1 && Slot(t.workers[w]) == r.next)
    requires var i := Slot(r.workers[w]);
             0 <= i < c.plan.count && i !in r.bitmap && !t.stopped ==> InFlight(t, i)
    requires t.workers[w].Exited? ==> t.stopped || t.next >= c.plan.count
    ensures Covered(c, t)
  {
    if !t.stopped {
      forall j | 0 <= j < t.next && j < c.plan.count ensures j in t.bitmap || InFlight(t, j) {
        if j == r.next { assert Slot(t.workers[w]) == j; }
        else if j != Slot(r.workers[w]) && j !in r.bitmap { FlightKept(r, t, w, j); }
      }
      forall v | v in t.workers && t.workers[v] == Exited ensures t.next >= c.plan.count {
        if v != w { assert r.workers[v] == Exited; }
      }
      assert w in t.workers;
    }
  }

  lemma PhaseAfterWorker(c: Config, p: Part, r: Run, t: Run, w: nat)
    requires PhaseOk(c, p, r) && WorkerStep(r, t, w)
    ensures PhaseOk(c, p, t)
  {
    assert !AllExited(r);
  }

  /** An index in flight elsewhere stays in flight. */
  lemma FlightKept(r: Run, t: Run, w: nat, i: int)
    requires WorkerStep(r, t, w) && Slot(r.workers[w]) != i && InFlight(r, i)
    ensures InFlight(t, i)
  {
    if v :| v in r.workers && Slot(r.workers[v]) == i {
      assert v in t.workers && Slot(t.workers[v]) == i;
    } else {
      var a :| 0 <= a < |r.results| && r.results[a].index == i;
      assert t.results[a].index == i;
    }
  }

  lemma BytesAfter(c: Config, bytes: seq<byte>, r: Run, t: Run, w: nat)
    requires BytesOk(c, bytes, r) && WorkerStep(r, t, w) && t.results == r.results
    requires t.claims == r.claims || (t.claims == r.claims + [Slot(r.workers[w])] && Slot(r.workers[w]) >= 0
              && Apart(r))
    requires WorkerOk(c, bytes, t, t.workers[w])
    ensures BytesOk(c, bytes, t)
  {
    forall v | v in t.workers ensures WorkerOk(c, bytes, t, t.workers[v]) {
      if v != w {
        assert WorkerOk(c, bytes, r, r.workers[v]);
        assert t.claims != r.claims ==> Slot(r.workers[v]) != Slot(r.workers[w]);
      }
    }
    forall k | 0 <= k < |t.results| ensures ResultOk(c, bytes, t, t.results[k]) {
      assert ResultOk(c, bytes, r, r.results[k]);
    }
  }

  lemma FetchKeepsInv(c: Config, p: Part, row: Row, r: Run, w: nat)
    requires c.plan.Valid() && RunInv(c, p, row, r) && EnabledStep(c, p, r, Fetch(w))
    ensures RunInv(c, p, row, DoRun(c, p, r, Fetch(w)))
  {
    var t := DoRun(c, p, r, Fetch(w));
    SlotsBelowNext(c, p.bytes, r);
    ApartAfter(r, t, w);
    CoveredAfter(c, r, t, w);
    BytesAfter(c, p.bytes, r, t, w);
    PhaseAfterWorker(c, p, r, t, w);
  }

  lemma SlotsBelowNext(c: Config, bytes: seq<byte>, r: Run)
    requires BytesOk(c, bytes, r) && ClaimsOk(c, r)
    ensures forall w :: w in r.workers ==> Slot(r.workers[w]) < r.next
    ensures forall a :: 0 <= a < |r.results| ==> 0 <= r.results[a].index < r.next
    ensures r.next !in r.claims
  {
    forall w | w in r.workers ensures Slot(r.workers[w]) < r.next {
      assert WorkerOk(c, bytes, r, r.workers[w]);
    }
    forall a | 0 <= a < |r.results| ensures 0 <= r.results[a].index < r.next {
      assert ResultOk(c, bytes, r, r.results[a]);
    }
  }

  lemma ClaimKeepsClaims(c: Config, r: Run, t: Run, i: int)
    requires ClaimsOk(c, r) && t.start == r.start && t.bitmap == r.bitmap && t.next == r.next
    requires t.claims == r.claims + [i] && 0 <= i < c.plan.count && i < r.next && i !in r.start && i !in r.claims
    ensures ClaimsOk(c, t)
  {
    assert forall j :: j in t.claims <==> j in r.claims || j == i;
  }

  lemma DecideKeepsInv(c: Config, p: Part, row: Row, r: Run, w: nat)
    requires ValidConfig(c) && RunInv(c, p, row, r) && EnabledStep(c, p, r, Decide(w))
    ensures RunInv(c, p, row, DoRun(c, p, r, Decide(w)))
  {
    hide WriteBytes, Crypt, Apart, Covered, PhaseOk;
    var t, i := DoRun(c, p, r, Decide(w)), r.workers[w].index;
    assert WorkerOk(c, p.bytes, r, r.workers[w]);
    assert WorkerStep(r, t, w);
    if t.workers[w].Writing? {
      RangeOf(c.plan, i);
      ClaimKeepsClaims(c, r, t, i);
      assert Slot(t.workers[w]) == i;
      assert WorkerOk(c, p.bytes, t, t.workers[w]);
    } else {
      SameClaims(c, r, t);
    }
    DecideRest(c, p, r, t, w);
  }

  lemma SameClaims(c: Config, r: Run, t: Run)
    requires ClaimsOk(c, r)
    requires t.start == r.start && t.bitmap == r.bitmap && t.next == r.next && t.claims == r.claims
    ensures ClaimsOk(c, t)
  {
  }

  lemma DecideRest(c: Config, p: Part, r: Run, t: Run, w: nat)
    requires Apart(r) && Covered(c, r) && BytesOk(c, p.bytes, r) && PhaseOk(c, p, r)
    requires WorkerStep(r, t, w) && t.results == r.results && t.next == r.next && WorkerOk(c, p.bytes, t, t.workers[w])
    requires Slot(t.workers[w]) == Slot(r.workers[w]) || Slot(t.workers[w]) < 0
    requires t.claims == r.claims || (t.claims == r.claims + [Slot(r.workers[w])] && Slot(r.workers[w]) >= 0)
    requires t.workers[w].Exited? ==> t.stopped || t.next >= c.plan.count
    requires var i := Slot(r.workers[w]);
             0 <= i < c.plan.count && i !in r.bitmap && !t.stopped ==> Slot(t.workers[w]) == i
    ensures Apart(t) && Covered(c, t) && BytesOk(c, p.bytes, t) && PhaseOk(c, p, t)
  {
    ApartAfter(r, t, w);
    CoveredAfter(c, r, t, w);
    BytesAfter(c, p.bytes, r, t, w);
    PhaseAfterWorker(c, p, r, t, w);
  }

  /** What Retry, Finish and Fail make of a writing worker. */
  function Moved(k: Worker, a: Step): Worker
    requires k.Writing?
  {
    match a
    case Retry(_) => Writing(k.index, 0)
    case Finish(_) => Reporting(Success(k.index, k.written))
    case _ => Reporting(Failure(k.index))
  }

  lemma MoveDoes(c: Config, p: Part, r: Run, w: nat, a: Step)
    requires EnabledStep(c, p, r, a) && (a == Retry(w) || a == Finish(w) || a == Fail(w))
    ensures w in r.workers && r.workers[w].Writing? && DoRun(c, p, r, a) == SetWorker(r, w, Moved(r.workers[w], a))
    ensures a.Finish? ==> r.workers[w].written == c.plan.SizeOf(r.workers[w].index)
  {
  }

  lemma MovedIsOk(c: Config, bytes: seq<byte>, r: Run, t: Run, k: Worker, a: Step)
    requires ValidConfig(c) && k.Writing? && WorkerOk(c, bytes, r, k) && ClaimsOk(c, r)
    requires t.claims == r.claims && t.bitmap == r.bitmap && (a.Retry? || a.Finish? || a.Fail?)
    requires a.Finish? ==> k.written == c.plan.SizeOf(k.index)
    ensures WorkerOk(c, bytes, t, Moved(k, a))
  {
    ConfigHasPlan(c);
    RangeOf(c.plan, k.index);
    hide ValidConfig;
  }

  /** A worker that keeps its index and does not leave keeps everything else. */
  lemma SlotKeepsInv(c: Config, p: Part, row: Row, r: Run, w: nat, k: Worker)
    requires c.plan.Valid() && RunInv(c, p, row, r) && w in r.workers && r.workers[w].Writing?
    requires !k.Exited? && Slot(k) == Slot(r.workers[w]) && WorkerOk(c, p.bytes, SetWorker(r, w, k), k)
    ensures RunInv(c, p, row, SetWorker(r, w, k))
  {
    var t := SetWorker(r, w, k);
    assert t.workers[w] == k;
    hide ClaimsOk, Apart, Covered, PhaseOk, BytesOk, WorkerOk;
    SameClaims(c, r, t);
    DecideRest(c, p, r, t, w);
  }

  /** Steps of worker w that keep its index: Retry, Finish, Fail. */
  lemma MoveKeepsInv(c: Config, p: Part, row: Row, r: Run, w: nat, a: Step)
    requires ValidConfig(c) && RunInv(c, p, row, r) && EnabledStep(c, p, r, a)
    requires a == Retry(w) || a == Finish(w) || a == Fail(w)
    ensures RunInv(c, p, row, DoRun(c, p, r, a))
  {
    MoveDoes(c, p, r, w, a);
    hide EnabledStep, DoRun, ValidConfig, WorkerOk, ClaimsOk, Apart, Covered, PhaseOk;
    var k := r.workers[w];
    assert WorkerOk(c, p.bytes, r, k);
    MovedIsOk(c, p.bytes, r, SetWorker(r, w, Moved(k, a)), k, a);
    hide RunInv, BytesOk;
    SlotKeepsInv(c, p, row, r, w, Moved(k, a));
  }

  lemma SendKeepsInv(c: Config, p: Part, row: Row, r: Run, w: nat)
    requires c.plan.Valid() && RunInv(c, p, row, r) && EnabledStep(c, p, r, Send(w))
    ensures RunInv(c, p, row, DoRun(c, p, r, Send(w)))
  {
    var x := r.workers[w].result;
    assert DoRun(c, p, r, Send(w)) == DoSend(r, w, x);
    assert WorkerOk(c, p.bytes, r, r.workers[w]);
    hide Apart, Covered, PhaseOk, ClaimsOk, BytesOk, WorkerOk, InFlight, DoRun, EnabledStep, DoSend, WorkerStep;
    var t := DoSend(r, w, x);
    SendDoes(r, w, x);
    SameClaims(c, r, t);
    SendApart(r, t, w);
    CoveredAfter(c, r, t, w);
    SendBytes(c, p.bytes, r, t, w);
    PhaseAfterWorker(c, p, r, t, w);
  }

  lemma SendDoes(r: Run, w: nat, x: SegmentResult)
    requires w in r.workers && r.workers[w] == Reporting(x)
    ensures var t := DoSend(r, w, x);
            && WorkerStep(r, t, w) && t.results == r.results + [x] && InFlight(t, x.index) && w in t.workers
            && t.claims == r.claims && t.next == r.next && t.start == r.start && t.bitmap == r.bitmap
            && t.committed == r.committed && t.dirty == r.dirty && t.failed == r.failed && (r.stopped ==> t.stopped)
            && (t.workers[w].Idle? || (t.workers[w].Exited? && t.stopped))
  {
    assert DoSend(r, w, x).results[|r.results|] == x;
  }

  lemma SendBytes(c: Config, bytes: seq<byte>, r: Run, t: Run, w: nat)
    requires BytesOk(c, bytes, r) && WorkerStep(r, t, w) && t.claims == r.claims && t.next == r.next
    requires r.workers[w].Reporting? && t.results == r.results + [r.workers[w].result]
    requires t.workers[w].Idle? || t.workers[w].Exited?
    ensures BytesOk(c, bytes, t)
  {
    forall v | v in t.workers ensures WorkerOk(c, bytes, t, t.workers[v]) {
      if v != w { assert WorkerOk(c, bytes, r, r.workers[v]); }
    }
    forall k | 0 <= k < |t.results| ensures ResultOk(c, bytes, t, t.results[k]) {
      if k < |r.results| { assert ResultOk(c, bytes, r, r.results[k]); }
      else { assert WorkerOk(c, bytes, r, r.workers[w]); }
    }
  }

  lemma SendApart(r: Run, t: Run, w: nat)
    requires Apart(r) && WorkerStep(r, t, w) && Slot(r.workers[w]) >= 0 && Slot(t.workers[w]) < 0
    requires |t.results| == |r.results| + 1 && t.results[|r.results|].index == Slot(r.workers[w])
    ensures Apart(t)
  {
  }

  // ----- writing

  /** A write inside segment i leaves every other segment alone and extends the prefix of i. */
  lemma WriteKeepsOthers(c: Config, bytes: seq<byte>, i: int, k: int, n: nat, j: int)
    requires ValidConfig(c) && |bytes| == c.plan.size && 0 <= i < c.plan.count && 0 <= j < c.plan.count
    requires 0 <= k && k + n <= c.plan.SizeOf(i)
    ensures c.plan.First(i) + k + n <= |bytes| && 0 <= c.plan.First(i)
    ensures var now := WriteBytes(c, bytes, c.plan.First(i) + k, n);
            && (j != i ==>
                  forall m :: 0 <= m <= c.plan.SizeOf(j) && PrefixHolds(c, bytes, j, m) ==> PrefixHolds(c, now, j, m))
            && (PrefixHolds(c, bytes, i, k) ==> PrefixHolds(c, now, i, k + n))
  {
    RangeOf(c.plan, i);
    RangeOf(c.plan, j);
    if i < j { RangesApart(c.plan, i, j); }
    if j < i { RangesApart(c.plan, j, i); }
    WriteStoresPlain(c, bytes, c.plan.First(i) + k, n);
    hide WriteBytes;
  }

  /** Parallel equals sequential: what a worker decrypts at its own offset is that stretch of the single
      decryption of the whole file. */
  lemma WriteStoresPlain(c: Config, bytes: seq<byte>, at: int, n: nat)
    requires ValidConfig(c) && |bytes| == c.plan.size && 0 <= at && at + n <= |bytes|
    ensures var now := WriteBytes(c, bytes, at, n);
            |now| == |bytes| && forall b :: 0 <= b < |bytes| ==> now[b] == if at <= b < at + n then c.plain[b]
                else bytes[b]
  {
    SliceOfWhole(c.key, c.cipher, at, at + n);
    hide Crypt;
  }

  /** The bytes part of the invariant survives a write by worker w. */
  lemma WriteKeepsBytes(c: Config, p: Part, r: Run, w: nat, n: nat)
    requires ValidConfig(c) && |p.bytes| == c.plan.size && BytesOk(c, p.bytes, r) && ClaimsOk(c, r) && Apart(r)
    requires EnabledStep(c, p, r, Write(w, n))
    ensures var q := DoPart(c, p, r, Write(w, n));
            && BytesOk(c, q.bytes, DoRun(c, p, r, Write(w, n)))
            && forall j :: 0 <= j < c.plan.count && j != r.workers[w].index && Holds(c, p.bytes, j) ==>
                 Holds(c, q.bytes, j)
  {
    hide WriteBytes, Crypt;
    var q, t := DoPart(c, p, r, Write(w, n)), DoRun(c, p, r, Write(w, n));
    var i, k := r.workers[w].index, r.workers[w].written;
    assert WorkerOk(c, p.bytes, r, r.workers[w]);
    WriteKeepsOthers(c, p.bytes, i, k, n, i);
    forall j | 0 <= j < c.plan.count && j != i
      ensures forall m :: 0 <= m <= c.plan.SizeOf(j) && PrefixHolds(c, p.bytes, j, m) ==> PrefixHolds(c, q.bytes, j, m)
      ensures Holds(c, p.bytes, j) ==> Holds(c, q.bytes, j)
    {
      WriteKeepsOthers(c, p.bytes, i, k, n, j);
      RangeOf(c.plan, j);
    }
    forall v | v in t.workers ensures WorkerOk(c, q.bytes, t, t.workers[v]) {
      assert WorkerOk(c, p.bytes, r, r.workers[v]);
      assert v != w && Slot(r.workers[v]) >= 0 ==> Slot(r.workers[v]) != Slot(r.workers[w]);
    }
    forall a | 0 <= a < |t.results| ensures ResultOk(c, q.bytes, t, t.results[a]) {
      assert ResultOk(c, p.bytes, r, r.results[a]);
      assert Slot(r.workers[w]) != r.results[a].index;
    }
  }

  lemma WriteKeepsOrder(c: Config, p: Part, r: Run, w: nat, n: nat)
    requires Apart(r) && Covered(c, r) && PhaseOk(c, p, r) && EnabledStep(c, p, r, Write(w, n))
    ensures var t := DoRun(c, p, r, Write(w, n)); Apart(t) && Covered(c, t) && PhaseOk(c, p, t)
  {
    var t := DoRun(c, p, r, Write(w, n));
    assert Slot(t.workers[w]) == Slot(r.workers[w]) && WorkerStep(r, t, w);
    hide EnabledStep, DoRun;
    ApartAfter(r, t, w);
    CoveredAfter(c, r, t, w);
    PhaseAfterWorker(c, p, r, t, w);
  }

  lemma WriteKeepsInv(c: Config, p: Part, row: Row, r: Run, w: nat, n: nat)
    requires ValidConfig(c) && |p.bytes| == c.plan.size && RowInv(c, Some(p), row) && RunInv(c, p, row, r)
    requires EnabledStep(c, p, r, Write(w, n))
    ensures Kept(c, p, row, r, Write(w, n))
  {
    hide WriteBytes, Crypt;
    var x := Write(w, n);
    var q, t := DoPart(c, p, r, x), DoRun(c, p, r, x);
    assert WorkerOk(c, p.bytes, r, r.workers[w]);
    WriteKeepsBytes(c, p, r, w, n);
    WriteKeepsOrder(c, p, r, w, n);
    hide Apart, Covered;
    PhaseAfterWrite(c, p, q, t, r.workers[w].index);
  }

  lemma PhaseAfterWrite(c: Config, p: Part, q: Part, t: Run, i: int)
    requires PhaseOk(c, p, t) && i !in t.bitmap
    requires q.unsynced == p.unsynced + {i} && q.flushing == p.flushing - {i} && q.linked == p.linked
    ensures PhaseOk(c, q, t)
  {
  }

  // ----- collector steps

  /** t is r after the collector has taken the first result and perhaps marked its segment. */
  ghost predicate Popped(r: Run, t: Run) {
    && |r.results| > 0 && t.results == r.results[1..]
    && t == r.(results := t.results, bitmap := t.bitmap, committed := t.committed, dirty := t.dirty,
       failed := t.failed, stopped := t.stopped)
    && (t.bitmap == r.bitmap || t.bitmap == r.bitmap + {r.results[0].index})
    && (r.stopped ==> t.stopped)
  }

  lemma CollectApart(r: Run, t: Run)
    requires Apart(r) && Popped(r, t)
    ensures Apart(t)
  {
    assert forall k :: 0 <= k < |t.results| ==> t.results[k] == r.results[k + 1];
  }

  lemma CollectBytes(c: Config, bytes: seq<byte>, r: Run, t: Run)
    requires BytesOk(c, bytes, r) && ClaimsOk(c, r) && Apart(r) && Popped(r, t)
    requires t.bitmap != r.bitmap ==> r.results[0].Success?
    ensures BytesOk(c, bytes, t) && ClaimsOk(c, t)
  {
    var x := r.results[0];
    assert ResultOk(c, bytes, r, x);
    forall v | v in t.workers ensures WorkerOk(c, bytes, t, t.workers[v]) {
      assert WorkerOk(c, bytes, r, r.workers[v]);
      assert Slot(r.workers[v]) >= 0 ==> Slot(r.workers[v]) != x.index;
    }
    forall k | 0 <= k < |t.results| ensures ResultOk(c, bytes, t, t.results[k]) {
      assert t.results[k] == r.results[k + 1];
      assert ResultOk(c, bytes, r, r.results[k + 1]);
    }
  }

  lemma CollectCovered(c: Config, r: Run, t: Run)
    requires Covered(c, r) && Popped(r, t)
    requires t.stopped || r.results[0].index in t.bitmap
    ensures Covered(c, t)
  {
    forall j | !t.stopped && 0 <= j < t.next && j < c.plan.count ensures j in t.bitmap || InFlight(t, j) {
      if j !in t.bitmap { FlightKeptByPop(r, t, j); }
    }
  }

  lemma CollectKeepsInv(c: Config, p: Part, row: Row, r: Run)
    requires ValidConfig(c) && RunInv(c, p, row, r) && EnabledStep(c, p, r, Collect)
    ensures RunInv(c, p, row, DoRun(c, p, r, Collect))
  {
    var t, x := DoRun(c, p, r, Collect), r.results[0];
    assert ResultOk(c, p.bytes, r, x);
    assert Popped(r, t);
    if x.Success? && !r.failed {
      CommittedAdd(c.plan, r.bitmap, x.index);
    }
    CollectApart(r, t);
    CollectBytes(c, p.bytes, r, t);
    CollectCovered(c, r, t);
  }

  lemma FlightKeptByPop(r: Run, t: Run, i: int)
    requires |r.results| > 0 && t.results == r.results[1..] && t.workers == r.workers
    requires r.results[0].index != i && InFlight(r, i)
    ensures InFlight(t, i)
  {
    if a :| 0 <= a < |r.results| && r.results[a].index == i {
      assert t.results[a - 1].index == i;
    } else {
      var w :| w in r.workers && Slot(r.workers[w]) == i;
      assert Slot(t.workers[w]) == i;
    }
  }

  lemma CloseKeepsInv(c: Config, p: Part, row: Row, r: Run)
    requires c.plan.Valid() && RunInv(c, p, row, r) && EnabledStep(c, p, r, CloseResults)
    ensures RunInv(c, p, row, DoRun(c, p, r, CloseResults))
  {
    var t := DoRun(c, p, r, CloseResults);
    if !r.stopped {
      if r.workers != map[] {
        var w :| w in r.workers;
        assert r.workers[w] == Exited;
        forall i | 0 <= i < c.plan.count ensures i in r.bitmap {
          assert !InFlight(r, i);
        }
      }
      assert Full(c, r.bitmap);
    }
    CalmRun(c, p, r, t);
  }

  /** Steps that touch neither workers, results nor the bitmap. */
  lemma CalmRun(c: Config, p: Part, r: Run, t: Run)
    requires ClaimsOk(c, r) && BytesOk(c, p.bytes, r) && Apart(r) && Covered(c, r)
    requires t == r.(dirty := t.dirty, stopped := t.stopped, failed := t.failed, phase := t.phase) && (r.stopped
              ==> t.stopped)
    ensures ClaimsOk(c, t) && BytesOk(c, p.bytes, t) && Apart(t) && Covered(c, t)
  {
    assert forall v :: v in r.workers ==> (WorkerOk(c, p.bytes, r, r.workers[v])
           <==> WorkerOk(c, p.bytes, t, t.workers[v]));
    assert forall k :: 0 <= k < |r.results| ==> (ResultOk(c, p.bytes, r, r.results[k])
           <==> ResultOk(c, p.bytes, t, t.results[k]));
    assert forall i :: InFlight(r, i) ==> InFlight(t, i);
  }

  lemma CalmKeepsInv(c: Config, p: Part, row: Row, r: Run, a: Step)
    requires ValidConfig(c) && RunInv(c, p, row, r) && EnabledStep(c, p, r, a)
    requires a.Cancel? || a.Checkpoint? || a.SyncFail? || a.PersistFail?
    ensures RunInv(c, p, row, DoRun(c, p, r, a))
  {
    hide WriteBytes, ValidConfig, ClaimsOk, BytesOk, Apart, Covered;
    var t := DoRun(c, p, r, a);
    CalmRun(c, p, r, t);
    assert PhaseOk(c, p, t);
  }

  /** The three steps of the durability barrier. */
  lemma BarrierKeepsInv(c: Config, p: Part, row: Row, r: Run, x: Step)
    requires ValidConfig(c) && |p.bytes| == c.plan.size && RowInv(c, Some(p), row) && RunInv(c, p, row, r)
    requires EnabledStep(c, p, r, x) && (x.SyncBegin? || x.SyncEnd? || x.Persist?)
    ensures Kept(c, p, row, r, x)
  {
    hide WriteBytes, ValidConfig, ClaimsOk, BytesOk, Apart, Covered;
    assert c.plan.Valid() by { ConfigHasPlan(c); }
    var q, t := DoPart(c, p, r, x), DoRun(c, p, r, x);
    assert q.bytes == p.bytes;
    CalmRun(c, q, r, t);
    BarrierPhase(c, p, r, x);
    assert RowInv(c, Some(q), DoRow(c, p, row, r, x));
  }

  lemma BarrierPhase(c: Config, p: Part, r: Run, x: Step)
    requires PhaseOk(c, p, r) && EnabledStep(c, p, r, x)
    requires x.SyncBegin? || x.SyncEnd? || x.Persist?
    ensures PhaseOk(c, DoPart(c, p, r, x), DoRun(c, p, r, x))
  {
  }

  lemma ConfigHasPlan(c: Config)
    requires ValidConfig(c)
    ensures c.plan.Valid()
  {
  }

  lemma WorkerKeepsInv(c: Config, p: Part, row: Row, r: Run, a: Step)
    requires ValidConfig(c) && RunInv(c, p, row, r) && EnabledStep(c, p, r, a)
    requires a.Fetch? || a.Decide? || a.Retry? || a.Finish? || a.Fail? || a.Send?
    ensures RunInv(c, p, row, DoRun(c, p, r, a))
  {
    hide RunInv, EnabledStep, DoRun, ValidConfig;
    assert c.plan.Valid() by { ConfigHasPlan(c); }
    match a
    case Fetch(w) => FetchKeepsInv(c, p, row, r, w);
    case Decide(w) => DecideKeepsInv(c, p, row, r, w);
    case Send(w) => SendKeepsInv(c, p, row, r, w);
    case Retry(w) => MoveKeepsInv(c, p, row, r, w, a);
    case Finish(w) => MoveKeepsInv(c, p, row, r, w, a);
    case Fail(w) => MoveKeepsInv(c, p, row, r, w, a);
  }

  /** Steps that change neither the part file nor the row. */
  lemma QuietKeepsInv(c: Config, p: Part, row: Row, r: Run, x: Step)
    requires ValidConfig(c) && RunInv(c, p, row, r) && EnabledStep(c, p, r, x)
    requires !x.Write? && !x.SyncBegin? && !x.SyncEnd? && !x.Persist?
    ensures RunInv(c, p, row, DoRun(c, p, r, x))
  {
    hide RunInv, EnabledStep, DoRun, ValidConfig;
    assert c.plan.Valid() by { ConfigHasPlan(c); }
    match x
    case Collect => CollectKeepsInv(c, p, row, r);
    case CloseResults => CloseKeepsInv(c, p, row, r);
    case Cancel => CalmKeepsInv(c, p, row, r, x);
    case Checkpoint => CalmKeepsInv(c, p, row, r, x);
    case SyncFail => CalmKeepsInv(c, p, row, r, x);
    case PersistFail => CalmKeepsInv(c, p, row, r, x);
    case _ => WorkerKeepsInv(c, p, row, r, x);
  }

  lemma RunStepKeepsInv(c: Config, p: Part, row: Row, r: Run, x: Step)
    requires ValidConfig(c) && |p.bytes| == c.plan.size && RowInv(c, Some(p), row) && RunInv(c, p, row, r)
    requires EnabledStep(c, p, r, x)
    ensures Kept(c, p, row, r, x)
  {
    if x.Write? {
      WriteKeepsInv(c, p, row, r, x.w, x.n);
    } else if x.SyncBegin? || x.SyncEnd? || x.Persist? {
      BarrierKeepsInv(c, p, row, r, x);
    } else {
      QuietKeepsInv(c, p, row, r, x);
      assert DoPart(c, p, r, x) == p && DoRow(c, p, row, r, x) == row;
    }
  }

  /** Every step keeps the invariant, provided the part file is not removed under a bitmap. */
  lemma StepKeepsInv(c: Config, s: State, a: Action)
    requires ValidConfig(c) && Inv(c, s) && Enabled(c, s, a)
    requires a.DeletePart? ==> s.row.bitmap == {}
    ensures Inv(c, Do(c, s, a))
  {
    match a
    case InRun(x) => RunStepKeepsInv(c, s.part.value, s.row, s.run.value, x);
    case Open => OpenKeepsInv(c, s);
    case Exit =>
    case Kill =>
    case Crash(image) => CrashKeepsInv(c, s, image);
    case DeletePart =>
  }

  lemma ImageHolds(c: Config, s: State, image: Option<seq<byte>>, i: int)
    requires ValidConfig(c) && Inv(c, s) && CrashImage(c, s.part, image) && i in s.row.bitmap
    ensures image.Some? && |image.value| == c.plan.size && Holds(c, image.value, i)
  {
    RangeOf(c.plan, i);
    assert SameSegment(c, image.value, s.part.value.bytes, i);
  }

  lemma CrashKeepsInv(c: Config, s: State, image: Option<seq<byte>>)
    requires ValidConfig(c) && Inv(c, s) && CrashImage(c, s.part, image)
    ensures Inv(c, Do(c, s, Crash(image)))
  {
    forall i | i in s.row.bitmap ensures image.Some? && |image.value| == c.plan.size && Holds(c, image.value, i) {
      ImageHolds(c, s, image, i);
    }
  }

  // ----- whole runs

  lemma {:induction false} RunKeepsInv(c: Config, s: State, actions: seq<Action>)
    requires ValidConfig(c) && Inv(c, s) && Runs(c, s, actions) && KeepsPart(c, s, actions)
    ensures Inv(c, Last(c, s, actions))
    decreases |actions|
  {
    if actions != [] {
      StepKeepsInv(c, s, actions[0]);
      RunKeepsInv(c, Do(c, s, actions[0]), actions[1..]);
    }
  }

  /** Crash durability, over every interleaving, crash and restart. */
  lemma CrashDurability(c: Config, s: State, actions: seq<Action>)
    requires ValidConfig(c) && Init(c, s) && Runs(c, s, actions) && KeepsPart(c, s, actions)
    ensures Durable(c, Last(c, s, actions))
  {
    InitInv(c, s);
    RunKeepsInv(c, s, actions);
    var t := Last(c, s, actions);
    forall image, i | CrashImage(c, t.part, image) && i in t.row.bitmap
      ensures image.Some? && Holds(c, image.value, i)
    {
      ImageHolds(c, t, image, i);
    }
  }

  lemma {:induction false} SumSizesEmpty(p: Planner, n: nat)
    ensures p.SumSizes({}, n) == 0
  {
    if n > 0 { SumSizesEmpty(p, n - 1); }
  }

  lemma InitInv(c: Config, s: State)
    requires ValidConfig(c) && Init(c, s)
    ensures Inv(c, s)
  {
    SumSizesEmpty(c.plan, c.plan.count);
  }

  /** The bitmap is full and persisted, all bytes are committed, and the part file is the single
      decryption of the whole ciphertext. */
  ghost predicate Complete(c: Config, t: State) {
    && c.plan.count >= 0 && t.run.Some? && t.run.value.bitmap == t.row.bitmap == UpTo(c.plan.count)
    && t.run.value.committed == t.row.committed == c.plan.size
    && t.part.Some? && t.part.value.bytes == Crypt(c.key, c.cipher, 0)
  }

  /** For any number of workers and any interleaving, a run that reaches verification without
      cancellation is complete. */
  lemma VerificationIsComplete(c: Config, s: State, actions: seq<Action>)
    requires ValidConfig(c) && Init(c, s) && Runs(c, s, actions) && KeepsPart(c, s, actions)
    requires var t := Last(c, s, actions); t.run.Some? && t.run.value.phase.AtVerification? && !t.run.value.stopped
    ensures Complete(c, Last(c, s, actions))
  {
    InitInv(c, s);
    RunKeepsInv(c, s, actions);
    InvIsComplete(c, Last(c, s, actions));
  }

  lemma InvIsComplete(c: Config, t: State)
    requires ValidConfig(c) && Inv(c, t) && t.run.Some? && t.run.value.phase.AtVerification?
    requires !t.run.value.stopped || c.plan.count == 0
    ensures Complete(c, t)
  {
    hide Crypt;
    CommittedBounds(c.plan, t.row.bitmap);
    assert t.row.bitmap == UpTo(c.plan.count);
    var bytes := t.part.value.bytes;
    forall b | 0 <= b < |bytes| ensures bytes[b] == c.plain[b] {
      SegmentsPartition(c.plan, b);
      var i := b / c.plan.segmentSize;
      assert Holds(c, bytes, i);
    }
  }

  // ----- where the laws stop

  /** Removing the part file between runs keeps the law exactly when nothing was persisted. */
  lemma DeletionSafeIff(c: Config, s: State)
    requires ValidConfig(c) && Inv(c, s) && Enabled(c, s, DeletePart)
    ensures Durable(c, Do(c, s, DeletePart)) <==> forall i :: i !in s.row.bitmap
  {
    var t := Do(c, s, DeletePart);
    var gone: Option<seq<byte>> := None;
    assert CrashImage(c, t.part, gone);
    if i :| i in s.row.bitmap {
      assert i in t.row.bitmap && !gone.Some?;
    }
  }

  ghost predicate TrustsWrongBytes(c: Config, s: State, i: int) {
    s.run.Some? && s.part.Some? && i in s.run.value.bitmap && !Holds(c, s.part.value.bytes, i)
  }

  /** A file of the right length in which every byte is wrong. */
  function Garbage(c: Config): (bytes: seq<byte>)
    ensures |bytes| == |c.plain| && forall b :: 0 <= b < |bytes| ==> bytes[b] != c.plain[b]
  {
    seq(|c.plain|, b requires 0 <= b < |c.plain| => if c.plain[b] == 0 then 1 else 0)
  }

  /** The bitmap reset for a missing part file lives in memory only: after a deletion, a restart that
      crashes before its first checkpoint leaves a file whose wrong bytes the next run trusts. */
  lemma DeletedPartIsTrusted(c: Config, s: State, i: int)
    requires ValidConfig(c) && Inv(c, s) && s.run.None? && i in s.row.bitmap
    ensures Runs(c, s, [DeletePart, Open, Crash(Some(Garbage(c))), Open])
    ensures TrustsWrongBytes(c, Last(c, s, [DeletePart, Open, Crash(Some(Garbage(c))), Open]), i)
  {
    var crash := Crash(Some(Garbage(c)));
    var s1 := Do(c, s, DeletePart);
    var s2 := Do(c, s1, Open);
    assert s2.part == Some(OpenedPart(c, None));
    assert CrashImage(c, s2.part, crash.image);
    var s3 := Do(c, s2, crash);
    assert s3 == State(Some(Part(Garbage(c), {}, {}, true)), s.row, None);
    var s4 := Do(c, s3, Open);
    FourSteps(c, s, DeletePart, Open, crash, Open);
    RangeOf(c.plan, i);
    assert Garbage(c)[c.plan.First(i)] != c.plain[c.plan.First(i)];
  }

  lemma FourSteps(c: Config, s: State, a0: Action, a1: Action, a2: Action, a3: Action)
    requires Enabled(c, s, a0) && Enabled(c, Do(c, s, a0), a1) && Enabled(c, Do(c, Do(c, s, a0), a1), a2)
    requires Enabled(c, Do(c, Do(c, Do(c, s, a0), a1), a2), a3)
    ensures Runs(c, s, [a0, a1, a2, a3])
    ensures Last(c, s, [a0, a1, a2, a3]) == Do(c, Do(c, Do(c, Do(c, s, a0), a1), a2), a3)
  {
    var s1 := Do(c, s, a0);
    var s2 := Do(c, s1, a1);
    var s3 := Do(c, s2, a2);
    var s4 := Do(c, s3, a3);
    assert Runs(c, s4, []) && Last(c, s4, []) == s4;
    assert [a3][1..] == [] && Runs(c, s3, [a3]) && Last(c, s3, [a3]) == s4;
    assert [a2, a3][1..] == [a3] && Runs(c, s2, [a2, a3]) && Last(c, s2, [a2, a3]) == s4;
    assert [a1, a2, a3][1..] == [a2, a3] && Runs(c, s1, [a1, a2, a3]) && Last(c, s1, [a1, a2, a3]) == s4;
    assert [a0, a1, a2, a3][1..] == [a1, a2, a3];
  }
}
