/** The resumable transfer of one file, as a step system: segment workers that claim indices from an
    atomic counter, one collector, clone/sync/commit checkpoints, crashes and restarts. Every atomic
    operation, lock region, channel operation and system call is one step. */
module Transfer {
  import opened SegmentPlan
  import opened Ctr

  /** The plan of the file, its key and ciphertext, the single decryption of the whole ciphertext from
      offset 0, and the configured worker count. */
  datatype Config = Config(plan: Planner, key: FileKey, cipher: seq<byte>, plain: seq<byte>, workersPerFile: nat)

  ghost predicate ValidConfig(c: Config) {
    && c.plan.Fits() && |c.cipher| == c.plan.size && c.plain == Crypt(c.key, c.cipher, 0)
    && c.workersPerFile >= 1
  }

  datatype SegmentResult = Success(index: int, written: int) | Failure(index: int)

  /** Where a segment worker stands. Holding is the result of one atomic add, not yet checked. */
  datatype Worker =
    | Idle
    | Holding(index: int)
    | Writing(index: int, written: int)
    | Reporting(result: SegmentResult)
    | Exited

  /** The part file. unsynced: segments written since they were last covered by a completed sync;
      flushing: those of them that the sync in progress covers; linked: its name is durable. */
  datatype Part = Part(bytes: seq<byte>, unsynced: set<int>, flushing: set<int>, linked: bool)

  /** The persisted row: the resume bitmap (as the set it denotes) and bytes_committed. */
  datatype Row = Row(bitmap: set<int>, committed: int)

  datatype After = KeepCollecting | ThenVerify | ThenReturn

  datatype Phase =
    | Collecting
    | Cloned(bitmap: set<int>, committed: int, after: After)
    | Syncing(bitmap: set<int>, committed: int, after: After)
    | Synced(bitmap: set<int>, committed: int, after: After)
    | AtVerification
    | Returned

  /** The memory of one run of processFileWithTransfer. start is the bitmap workers skip by; claims
      records every claim in order. */
  datatype Run = Run(
    start: set<int>, bitmap: set<int>, committed: int, dirty: bool,
    next: int, workers: map<nat, Worker>, results: seq<SegmentResult>, capacity: nat,
    stopped: bool, failed: bool, phase: Phase, claims: seq<int>)

  datatype State = State(part: Option<Part>, row: Row, run: Option<Run>)

  /** The steps of a run in progress. */
  datatype Step =
    | Cancel
    | Fetch(w: nat) | Decide(w: nat) | Write(w: nat, n: nat) | Retry(w: nat)
    | Finish(w: nat) | Fail(w: nat) | Send(w: nat)
    | Collect | Checkpoint | CloseResults
    | SyncBegin | SyncEnd | SyncFail | Persist | PersistFail

  /** Kill: the process stops and the page cache survives. Crash: the machine stops. */
  datatype Action = InRun(step: Step) | Open | Exit | Kill | Crash(image: Option<seq<byte>>) | DeletePart

  // ----- contents

  /** The first n bytes of segment i are the plaintext's. */
  ghost predicate PrefixHolds(c: Config, bytes: seq<byte>, i: int, n: int)
  {
    forall b :: 0 <= b < |bytes| && b < |c.plain| && c.plan.First(i) <= b < c.plan.First(i) + n
        ==> bytes[b] == c.plain[b]
  }

  ghost predicate Holds(c: Config, bytes: seq<byte>, i: int) {
    PrefixHolds(c, bytes, i, c.plan.SizeOf(i))
  }

  ghost predicate SameSegment(c: Config, a: seq<byte>, b: seq<byte>, i: int)
    requires |a| == |b|
  {
    forall k :: 0 <= k < |a| && c.plan.First(i) <= k < c.plan.Bound(i) ==> a[k] == b[k]
  }

  /** What a crash may leave on disk: anything in unsynced segments, the exact bytes elsewhere; the
      file itself may be gone only if its name never became durable. */
  ghost predicate CrashImage(c: Config, part: Option<Part>, image: Option<seq<byte>>) {
    match image
    case None => part.None? || !part.value.linked
    case Some(bytes) =>
      && part.Some? && |bytes| == |part.value.bytes|
      && forall i :: 0 <= i < c.plan.count && i !in part.value.unsynced ==> SameSegment(c, bytes, part.value.bytes, i)
  }

  /** The law of the checkpoint: whatever a crash leaves, every persisted segment has its plaintext. */
  ghost predicate Durable(c: Config, s: State) {
    forall image, i :: CrashImage(c, s.part, image) && i in s.row.bitmap ==> image.Some? && Holds(c, image.value, i)
  }

  // ----- steps

  /** The indices below n. */
  function UpTo(n: nat): (r: set<int>)
    ensures |r| == n && forall i :: i in r <==> 0 <= i < n
  {
    if n == 0 then {} else UpTo(n - 1) + {n - 1}
  }

  function IdleWorkers(n: nat): (r: map<nat, Worker>)
    ensures forall w: nat :: (w in r <==> w < n) && (w in r ==> r[w] == Idle)
  {
    if n == 0 then map[] else IdleWorkers(n - 1)[n - 1 := Idle]
  }

  function WorkerCount(c: Config, pending: int): nat {
    if pending <= 0 then 0 else if pending < c.workersPerFile then pending else c.workersPerFile
  }

  function OpenedPart(c: Config, part: Option<Part>): Part
    requires c.plan.Valid()
  {
    match part
    case Some(p) => p
    case None => Part(seq(c.plan.size, _ => 0), UpTo(c.plan.count), {}, false)
  }

  /** The run that opening the part file starts. A missing part file resets the bitmap in memory. */
  function OpenedRun(c: Config, s: State): Run
    requires c.plan.Valid()
  {
    var bitmap := if s.part.None? then {} else s.row.bitmap;
    var n := WorkerCount(c, c.plan.count - |bitmap|);
    Run(bitmap, bitmap, c.plan.Committed(bitmap), false,
        0, IdleWorkers(n), [], 2 * n + 1, false, false, Collecting, [])
  }

  /** A worker decrypts n ciphertext bytes at their offset and writes them there. */
  function WriteBytes(c: Config, bytes: seq<byte>, at: int, n: nat): (r: seq<byte>)
    requires 0 <= at && at + n <= |bytes| && at + n <= |c.cipher|
    ensures |r| == |bytes|
  {
    bytes[..at] + Crypt(c.key, c.cipher[at..at + n], at) + bytes[at + n..]
  }

  ghost predicate AllExited(r: Run) {
    forall w :: w in r.workers ==> r.workers[w] == Exited
  }

  ghost predicate EnabledStep(c: Config, p: Part, r: Run, x: Step)
  {
    match x
    case Cancel => true
    case Fetch(w) => w in r.workers && r.workers[w].Idle?
    case Decide(w) => w in r.workers && r.workers[w].Holding?
    case Write(w, n) =>
      w in r.workers && r.workers[w].Writing? &&
      var Writing(i, k) := r.workers[w];
      // the worker's contract: no write leaves its segment
      0 <= k && 0 <= c.plan.First(i) && k + n <= c.plan.SizeOf(i) && c.plan.Bound(i) <= |p.bytes|
          && c.plan.Bound(i) <= |c.cipher|
    case Retry(w) => w in r.workers && r.workers[w].Writing?
    case Finish(w) => w in r.workers && r.workers[w].Writing?
        && r.workers[w].written == c.plan.SizeOf(r.workers[w].index)
    case Fail(w) => w in r.workers && r.workers[w].Writing?
    case Send(w) => w in r.workers && r.workers[w].Reporting? && |r.results| < r.capacity
    case Collect => r.phase.Collecting? && |r.results| > 0
    case Checkpoint => r.phase.Collecting? && r.dirty && !r.failed
    case CloseResults => r.phase.Collecting? && r.results == [] && AllExited(r)
    case SyncBegin => r.phase.Cloned?
    case SyncEnd => r.phase.Syncing?
    case SyncFail => r.phase.Syncing?
    case Persist => r.phase.Synced?
    case PersistFail => r.phase.Synced?
  }

  function SetWorker(r: Run, w: nat, k: Worker): Run {
    r.(workers := r.workers[w := k])
  }

  /** One atomic add has returned i: skip a set segment, leave past the end or when cancelled, else claim. */
  function DoDecide(c: Config, r: Run, w: nat, i: int): Run {
    if i < c.plan.count && i in r.start then SetWorker(r, w, Idle)
    else if i >= c.plan.count || r.stopped then SetWorker(r, w, Exited)
    else SetWorker(r, w, Writing(i, 0)).(claims := r.claims + [i])
  }

  /** A worker sends its result; after an error it cancels the others and leaves. */
  function DoSend(r: Run, w: nat, x: SegmentResult): Run {
    var sent := r.(results := r.results + [x]);
    if x.Failure? then SetWorker(sent, w, Exited).(stopped := true) else SetWorker(sent, w, Idle)
  }

  /** The collector takes one result. */
  function DoCollect(c: Config, r: Run): Run
    requires |r.results| > 0
  {
    var rest := r.(results := r.results[1..]);
    match r.results[0]
    case Failure(_) => rest.(failed := true, stopped := true)
    case Success(i, written) =>
      if r.failed then rest
      else if written != c.plan.SizeOf(i) then rest.(failed := true, stopped := true)
      else rest.(bitmap := r.bitmap + {i}, committed := r.committed + c.plan.SizeOf(i), dirty := true)
  }

  /** The results channel is closed and empty. */
  function DoClose(c: Config, r: Run): Run {
    if r.failed then
      r.(phase := if r.dirty then Cloned(r.bitmap, r.committed, ThenReturn) else Returned)
    else
      r.(phase := if r.dirty || c.plan.count == 0 then Cloned(r.bitmap, r.committed, ThenVerify) else AtVerification)
  }

  function PhaseAfter(after: After): Phase {
    match after
    case KeepCollecting => Collecting
    case ThenVerify => AtVerification
    case ThenReturn => Returned
  }

  /** A checkpoint failed at the sync or in the database. */
  function DoCheckpointFailed(r: Run, after: After): Run {
    if after.KeepCollecting? then r.(phase := Collecting, failed := true, stopped := true) else r.(phase := Returned)
  }

  function DoRun(c: Config, p: Part, r: Run, x: Step): Run
    requires EnabledStep(c, p, r, x)
  {
    match x
    case Cancel => r.(stopped := true)
    case Fetch(w) => SetWorker(r, w, Holding(r.next)).(next := r.next + 1)
    case Decide(w) => DoDecide(c, r, w, r.workers[w].index)
    case Write(w, n) => SetWorker(r, w, Writing(r.workers[w].index, r.workers[w].written + n))
    case Retry(w) => SetWorker(r, w, Writing(r.workers[w].index, 0))
    case Finish(w) => SetWorker(r, w, Reporting(Success(r.workers[w].index, r.workers[w].written)))
    case Fail(w) => SetWorker(r, w, Reporting(Failure(r.workers[w].index)))
    case Send(w) => DoSend(r, w, r.workers[w].result)
    case Collect => DoCollect(c, r)
    case Checkpoint => r.(phase := Cloned(r.bitmap, r.committed, KeepCollecting))
    case CloseResults => DoClose(c, r)
    case SyncBegin => r.(phase := Syncing(r.phase.bitmap, r.phase.committed, r.phase.after))
    case SyncEnd => r.(phase := Synced(r.phase.bitmap, r.phase.committed, r.phase.after))
    case SyncFail => DoCheckpointFailed(r, r.phase.after)
    case Persist => r.(dirty := false, phase := PhaseAfter(r.phase.after))
    case PersistFail => DoCheckpointFailed(r, r.phase.after)
  }

  /** What a step does to the part file. A sync covers the writes made before it began. */
  function DoPart(c: Config, p: Part, r: Run, x: Step): Part
    requires EnabledStep(c, p, r, x)
  {
    match x
    case Write(w, n) =>
      var i := r.workers[w].index;
      Part(WriteBytes(c, p.bytes, c.plan.First(i) + r.workers[w].written, n), p.unsynced + {i}, p.flushing - {i},
          p.linked)
    case SyncBegin => p.(flushing := p.unsynced)
    case SyncEnd => p.(unsynced := p.unsynced - p.flushing, flushing := {}, linked := true)
    case _ => p
  }

  /** What a step does to the persisted row: only the last step of a checkpoint writes it. */
  function DoRow(c: Config, p: Part, row: Row, r: Run, x: Step): Row
    requires EnabledStep(c, p, r, x)
  {
    if x.Persist? then Row(r.phase.bitmap, r.phase.committed) else row
  }

  ghost predicate Enabled(c: Config, s: State, a: Action)
  {
    match a
    case InRun(x) => s.run.Some? && s.part.Some? && EnabledStep(c, s.part.value, s.run.value, x)
    case Open => s.run.None? && c.plan.Valid()
    case Exit => s.run.Some? && (s.run.value.phase.Returned? || s.run.value.phase.AtVerification?)
    case Kill => true
    case Crash(image) => CrashImage(c, s.part, image)
    case DeletePart => s.run.None?
  }

  function Do(c: Config, s: State, a: Action): State
    requires Enabled(c, s, a)
  {
    match a
    case InRun(x) =>
      var p, r := s.part.value, s.run.value;
      State(Some(DoPart(c, p, r, x)), DoRow(c, p, s.row, r, x), Some(DoRun(c, p, r, x)))
    case Open => State(Some(OpenedPart(c, s.part)), s.row, Some(OpenedRun(c, s)))
    case Exit => State(s.part, s.row, None)
    case Kill => State(s.part, s.row, None)
    case Crash(None) => State(None, s.row, None)
    case Crash(Some(bytes)) => State(Some(Part(bytes, {}, {}, true)), s.row, None)
    case DeletePart => State(None, s.row, None)
  }

  /** A fresh row: nothing downloaded, no part file. */
  ghost predicate Init(c: Config, s: State) {
    s == State(None, Row({}, 0), None)
  }

  ghost predicate Runs(c: Config, s: State, actions: seq<Action>)
    decreases |actions|
  {
    actions == [] || (Enabled(c, s, actions[0]) && Runs(c, Do(c, s, actions[0]), actions[1..]))
  }

  ghost function Last(c: Config, s: State, actions: seq<Action>): State
    requires Runs(c, s, actions)
    decreases |actions|
  {
    if actions == [] then s else Last(c, Do(c, s, actions[0]), actions[1..])
  }

  /** Nobody removes the part file while the persisted bitmap is non-empty. */
  ghost predicate KeepsPart(c: Config, s: State, actions: seq<Action>)
    requires Runs(c, s, actions)
    decreases |actions|
  {
    actions == [] || ((actions[0].DeletePart? ==> s.row.bitmap == {})
        && KeepsPart(c, Do(c, s, actions[0]), actions[1..]))
  }
}
