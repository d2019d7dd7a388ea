/** What holds of every run of the transfer, also after somebody removed the part file under a bitmap,
    and exactly when a cancelled run may still be trusted. */
module TransferAnyRun {
  import opened SegmentPlan
  import opened Ctr
  import opened Transfer
  import opened TransferSafety

  // ----- the invariant without the bytes

  /** No bytes, nothing unsynced: what RunInv says about such a part file is about the run alone. */
  function NoPart(): Part { Part([], {}, {}, true) }

  ghost predicate RunOk(c: Config, r: Run)
    requires c.plan.Valid()
  {
    RunInv(c, NoPart(), Row(r.bitmap, r.committed), r)
  }

  ghost predicate Sound(c: Config, s: State)
    requires c.plan.Valid()
  {
    && s.row.committed == c.plan.Committed(s.row.bitmap) && (forall i :: i in s.row.bitmap ==> 0 <= i < c.plan.count)
    && (s.run.Some? ==> RunOk(c, s.run.value))
  }

  lemma RowFollows(c: Config, row: Row, r: Run)
    requires c.plan.Valid() && RunInv(c, NoPart(), row, r)
    ensures RunOk(c, r)
  {
    hide ClaimsOk, BytesOk, Apart, Covered, PhaseOk;
  }

  lemma ForgetsBytes(c: Config, p: Part, row: Row, r: Run)
    requires c.plan.Valid() && RunInv(c, p, row, r) && r.phase.Collecting?
    ensures RunOk(c, r)
  {
    hide ClaimsOk, Apart, Covered;
    forall w | w in r.workers ensures WorkerOk(c, [], r, r.workers[w]) {
      assert WorkerOk(c, p.bytes, r, r.workers[w]);
    }
    forall k | 0 <= k < |r.results| ensures ResultOk(c, [], r, r.results[k]) {
      assert ResultOk(c, p.bytes, r, r.results[k]);
    }
  }

  /** The same bitmap over a part file that holds the plaintext, all of it synced. */
  function Righted(c: Config, s: State): State
    requires c.plan.Valid()
  {
    var bitmap := if s.part.None? then {} else s.row.bitmap;
    State(Some(Part(c.plain, {}, {}, true)), Row(bitmap, c.plan.Committed(bitmap)), None)
  }

  lemma RightedIsFine(c: Config, s: State)
    requires ValidConfig(c) && Sound(c, s)
    ensures Inv(c, Righted(c, s))
  {
    hide Crypt, RunOk;
  }

  lemma RightedOpens(c: Config, s: State)
    requires ValidConfig(c) && Enabled(c, s, Open)
    ensures var t := Do(c, Righted(c, s), Open);
            && Enabled(c, Righted(c, s), Open) && t.run == Some(OpenedRun(c, s)) && t.part.Some?
            && OpenedRun(c, s).phase.Collecting?
    ensures Do(c, s, Open).row == s.row && Do(c, s, Open).run == Some(OpenedRun(c, s))
  {
    hide Crypt;
  }

  /** A run starts in order whatever the part file holds: it would over a file that is all right. */
  lemma OpenIsSound(c: Config, s: State)
    requires ValidConfig(c) && Sound(c, s) && Enabled(c, s, Open)
    ensures Sound(c, Do(c, s, Open))
  {
    RightedIsFine(c, s);
    RightedOpens(c, s);
    hide Crypt, RunInv, RunOk, RowInv, Do, Enabled, Righted, OpenedRun;
    OpenKeepsInv(c, Righted(c, s));
    var t := Do(c, Righted(c, s), Open);
    ForgetsBytes(c, t.part.value, t.row, t.run.value);
  }

  lemma WriteIsSound(c: Config, p: Part, r: Run, w: nat, n: nat)
    requires ValidConfig(c) && RunOk(c, r) && EnabledStep(c, p, r, Write(w, n))
    ensures RunOk(c, DoRun(c, p, r, Write(w, n)))
  {
    hide WriteBytes, Crypt;
    var t := DoRun(c, p, r, Write(w, n));
    assert WorkerOk(c, [], r, r.workers[w]);
    assert WorkerStep(r, t, w) && WorkerOk(c, [], t, t.workers[w]);
    SameClaims(c, r, t);
    hide BytesOk, WorkerOk, ClaimsOk;
    DecideRest(c, NoPart(), r, t, w);
  }

  lemma BarrierIsSound(c: Config, p: Part, r: Run, x: Step)
    requires ValidConfig(c) && RunOk(c, r) && EnabledStep(c, p, r, x) && (x.SyncBegin? || x.SyncEnd? || x.Persist?)
    ensures RunOk(c, DoRun(c, p, r, x))
    ensures x.Persist? ==> r.phase.bitmap == r.bitmap && r.phase.committed == r.committed
  {
    hide ClaimsOk, BytesOk, Apart, Covered, Crypt, WriteBytes;
    var t := DoRun(c, p, r, x);
    CalmRun(c, NoPart(), r, t);
    assert PhaseOk(c, NoPart(), t);
  }

  lemma QuietIsSound(c: Config, p: Part, r: Run, x: Step)
    requires ValidConfig(c) && RunOk(c, r) && EnabledStep(c, p, r, x)
    requires !x.Write? && !x.SyncBegin? && !x.SyncEnd? && !x.Persist?
    ensures RunOk(c, DoRun(c, p, r, x))
  {
    assert EnabledStep(c, NoPart(), r, x) && DoRun(c, NoPart(), r, x) == DoRun(c, p, r, x);
    hide RunInv, EnabledStep, DoRun;
    QuietKeepsInv(c, NoPart(), Row(r.bitmap, r.committed), r, x);
    RowFollows(c, Row(r.bitmap, r.committed), DoRun(c, p, r, x));
  }

  lemma BitmapInRange(c: Config, r: Run)
    requires c.plan.Valid() && RunOk(c, r)
    ensures r.committed == c.plan.Committed(r.bitmap) && forall i :: i in r.bitmap ==> 0 <= i < c.plan.count
  {
    hide BytesOk, Apart, Covered, PhaseOk;
  }

  lemma StepIsSound(c: Config, s: State, a: Action)
    requires ValidConfig(c) && Sound(c, s) && Enabled(c, s, a)
    ensures Sound(c, Do(c, s, a))
  {
    match a
    case InRun(x) =>
      var p, r := s.part.value, s.run.value;
      BitmapInRange(c, r);
      hide RunOk, EnabledStep, DoRun, DoPart;
      if x.Write? { WriteIsSound(c, p, r, x.w, x.n); }
      else if x.SyncBegin? || x.SyncEnd? || x.Persist? { BarrierIsSound(c, p, r, x); }
      else { QuietIsSound(c, p, r, x); }
    case Open => OpenIsSound(c, s);
    case Exit =>
    case Kill =>
    case Crash(_) =>
    case DeletePart =>
  }

  lemma {:induction false} RunIsSound(c: Config, s: State, actions: seq<Action>)
    requires ValidConfig(c) && Sound(c, s) && Runs(c, s, actions)
    ensures Sound(c, Last(c, s, actions))
    decreases |actions|
  {
    hide Sound, Enabled, Do, ValidConfig;
    ConfigHasPlan(c);
    if actions != [] {
      StepIsSound(c, s, actions[0]);
      RunIsSound(c, Do(c, s, actions[0]), actions[1..]);
    }
  }

  lemma StartIsSound(c: Config, s: State)
    requires ValidConfig(c) && Init(c, s)
    ensures Sound(c, s)
  {
    SumSizesEmpty(c.plan, c.plan.count);
  }

  /** Exactly-once claims: no segment is claimed twice in a run, and none that was set at its start;
      every set segment was set at the start or claimed. */
  lemma ClaimedAtMostOnce(c: Config, s: State, actions: seq<Action>)
    requires ValidConfig(c) && Init(c, s) && Runs(c, s, actions) && Last(c, s, actions).run.Some?
    ensures var r := Last(c, s, actions).run.value;
            && (forall a, b :: 0 <= a < b < |r.claims| ==> r.claims[a] != r.claims[b])
            && (forall i :: i in r.claims ==> 0 <= i < c.plan.count && i !in r.start)
            && (forall i :: i in r.bitmap ==> i in r.start || i in r.claims)
  {
    StartIsSound(c, s);
    RunIsSound(c, s, actions);
    hide Runs, Last, Crypt;
  }

  /** Byte accounting: in memory and as persisted, bytes_committed is the summed size of the set
      segments and never exceeds the file size. */
  lemma CommittedAlwaysExact(c: Config, s: State, actions: seq<Action>)
    requires ValidConfig(c) && Init(c, s) && Runs(c, s, actions)
    ensures var t := Last(c, s, actions);
            && t.row.committed == c.plan.Committed(t.row.bitmap) <= c.plan.size
            && (t.run.Some? ==> t.run.value.committed == c.plan.Committed(t.run.value.bitmap) <= c.plan.size)
  {
    StartIsSound(c, s);
    RunIsSound(c, s, actions);
    var t := Last(c, s, actions);
    hide Runs, Last, Crypt;
    CommittedBounds(c.plan, t.row.bitmap);
    if t.run.Some? {
      BitmapInRange(c, t.run.value);
      CommittedBounds(c.plan, t.run.value.bitmap);
    }
  }

  ghost predicate SameCrew(c: Config, r: Run) {
    |r.workers| == WorkerCount(c, c.plan.count - |r.start|) && r.capacity == 2 * |r.workers| + 1
  }

  lemma {:induction false} IdleCount(n: nat)
    ensures |IdleWorkers(n)| == n
  {
    if n > 0 {
      IdleCount(n - 1);
      assert IdleWorkers(n).Keys == IdleWorkers(n - 1).Keys + {n - 1};
      assert |IdleWorkers(n).Keys| == |IdleWorkers(n)| && |IdleWorkers(n - 1).Keys| == |IdleWorkers(n - 1)|;
    }
  }

  lemma StepKeepsCrew(c: Config, s: State, a: Action)
    requires Enabled(c, s, a) && (s.run.Some? ==> SameCrew(c, s.run.value))
    ensures Do(c, s, a).run.Some? ==> SameCrew(c, Do(c, s, a).run.value)
  {
    match a
    case Open => IdleCount(WorkerCount(c, c.plan.count - |OpenedRun(c, s).bitmap|));
    case InRun(x) =>
      var r, t := s.run.value, Do(c, s, a).run.value;
      KeysKept(c, s.part.value, r, x);
      assert |t.workers.Keys| == |t.workers| && |r.workers.Keys| == |r.workers|;
      hide DoRun, EnabledStep;
    case _ =>
  }

  lemma KeysKept(c: Config, p: Part, r: Run, x: Step)
    requires EnabledStep(c, p, r, x)
    ensures var t := DoRun(c, p, r, x);
            t.workers.Keys == r.workers.Keys && t.capacity == r.capacity && t.start == r.start
  {
    hide DoDecide, DoSend, DoCollect, DoClose, AllExited;
    match x
    case Decide(w) => DecideKeepsKeys(c, r, w, r.workers[w].index);
    case Send(w) => SendKeepsKeys(r, w, r.workers[w].result);
    case Collect => CollectKeepsKeys(c, r);
    case CloseResults => CloseKeepsKeys(c, r);
    case _ =>
  }

  lemma DecideKeepsKeys(c: Config, r: Run, w: nat, i: int)
    requires w in r.workers
    ensures var t := DoDecide(c, r, w, i);
            t.workers.Keys == r.workers.Keys && t.capacity == r.capacity && t.start == r.start
  {
  }

  lemma SendKeepsKeys(r: Run, w: nat, x: SegmentResult)
    requires w in r.workers
    ensures var t := DoSend(r, w, x);
            t.workers.Keys == r.workers.Keys && t.capacity == r.capacity && t.start == r.start
  {
  }

  lemma CollectKeepsKeys(c: Config, r: Run)
    requires |r.results| > 0
    ensures var t := DoCollect(c, r);
            t.workers == r.workers && t.capacity == r.capacity && t.start == r.start
  {
  }

  lemma CloseKeepsKeys(c: Config, r: Run)
    ensures var t := DoClose(c, r);
            t.workers == r.workers && t.capacity == r.capacity && t.start == r.start
  {
  }

  lemma {:induction false} RunKeepsCrew(c: Config, s: State, actions: seq<Action>)
    requires Runs(c, s, actions) && (s.run.Some? ==> SameCrew(c, s.run.value))
    ensures Last(c, s, actions).run.Some? ==> SameCrew(c, Last(c, s, actions).run.value)
    decreases |actions|
  {
    hide Enabled, Do, SameCrew;
    if actions != [] {
      StepKeepsCrew(c, s, actions[0]);
      RunKeepsCrew(c, Do(c, s, actions[0]), actions[1..]);
    }
  }

  /** A run never has more workers than configured or than segments were missing when it began, and it has
      some whenever any were. */
  lemma WorkersAreBounded(c: Config, s: State, actions: seq<Action>)
    requires ValidConfig(c) && Init(c, s) && Runs(c, s, actions) && Last(c, s, actions).run.Some?
    ensures var r := Last(c, s, actions).run.value;
            var missing := c.plan.count - |r.start|;
            && |r.workers| <= c.workersPerFile && (missing >= 0 ==> |r.workers| <= missing)
            && (|r.workers| == 0 <==> missing <= 0)
            && (|r.workers| == c.workersPerFile || |r.workers| == missing || missing <= 0)
  {
    RunKeepsCrew(c, s, actions);
    hide Runs, Last, Init, Crypt;
  }

  // ----- cancelled runs

  lemma Then(c: Config, s: State, a: Action, rest: seq<Action>)
    requires Enabled(c, s, a) && Runs(c, Do(c, s, a), rest)
    ensures Runs(c, s, [a] + rest) && Last(c, s, [a] + rest) == Last(c, Do(c, s, a), rest)
    ensures !a.DeletePart? && KeepsPart(c, Do(c, s, a), rest) ==> KeepsPart(c, s, [a] + rest)
  {
    assert ([a] + rest)[1..] == rest;
  }

  /** A cancelled run over an empty bitmap in which the workers below k have left and the others have
      not begun. */
  ghost predicate Emptying(c: Config, s: State, k: nat, n: nat) {
    && s.run.Some? && s.part.Some? && k <= n
    && var r := s.run.value;
       && r.stopped && !r.failed && !r.dirty && r.phase.Collecting? && r.start == {} && r.bitmap == {}
          && r.results == []
       && forall w: nat :: (w in r.workers <==> w < n) && (w in r.workers ==> r.workers[w] == if w < k
          then Exited else Idle)
  }

  lemma OneLeaves(c: Config, s: State, k: nat, n: nat)
    requires ValidConfig(c) && Emptying(c, s, k, n) && k < n
    ensures var f, d := InRun(Fetch(k)), InRun(Decide(k));
            && Enabled(c, s, f) && Enabled(c, Do(c, s, f), d) && Emptying(c, Do(c, Do(c, s, f), d), k + 1, n)
  {
    hide Crypt, WriteBytes;
  }

  ghost predicate VerifiesNothing(s: State) {
    s.run.Some? && s.run.value.phase.AtVerification? && !s.run.value.failed && s.run.value.bitmap == {}
  }

  lemma {:induction false} AllLeave(c: Config, s: State, k: nat, n: nat) returns (actions: seq<Action>)
    requires ValidConfig(c) && Emptying(c, s, k, n) && c.plan.count > 0
    ensures Runs(c, s, actions) && KeepsPart(c, s, actions) && VerifiesNothing(Last(c, s, actions))
    decreases n - k
  {
    hide ValidConfig;
    if k == n {
      var close := InRun(CloseResults);
      var t := Do(c, s, close);
      assert Runs(c, t, []) && Last(c, t, []) == t && KeepsPart(c, t, []);
      Then(c, s, close, []);
      actions := [close] + [];
    } else {
      OneLeaves(c, s, k, n);
      hide Emptying, Enabled, Do, VerifiesNothing;
      var f, d := InRun(Fetch(k)), InRun(Decide(k));
      var rest := AllLeave(c, Do(c, Do(c, s, f), d), k + 1, n);
      Then(c, Do(c, s, f), d, rest);
      Then(c, s, f, [d] + rest);
      actions := [f] + ([d] + rest);
    }
  }

  /** Workers that see the cancelled context leave without an error: for every number of workers,
      verification is reached with nothing downloaded. */
  lemma CancelledRunReachesVerification(c: Config, s: State) returns (actions: seq<Action>)
    requires ValidConfig(c) && Init(c, s) && c.plan.count > 0
    ensures Runs(c, s, actions) && KeepsPart(c, s, actions) && VerifiesNothing(Last(c, s, actions))
  {
    hide Crypt, WriteBytes;
    var s1 := Do(c, s, Open);
    var s2 := Do(c, s1, InRun(Cancel));
    var n := WorkerCount(c, c.plan.count);
    assert Emptying(c, s2, 0, n);
    var rest := AllLeave(c, s2, 0, n);
    hide Runs, Last, KeepsPart, Do, Enabled;
    Then(c, s1, InRun(Cancel), rest);
    Then(c, s, Open, [InRun(Cancel)] + rest);
    actions := [Open] + ([InRun(Cancel)] + rest);
  }

  /** A run, cancelled or not, that has reached verification. */
  ghost predicate Verifying(c: Config, s: State, actions: seq<Action>) {
    && Init(c, s) && Runs(c, s, actions) && KeepsPart(c, s, actions)
    && var t := Last(c, s, actions); t.run.Some? && t.run.value.phase.AtVerification?
  }

  /** Exactly when cancelled runs too are complete at verification: the file is empty. */
  lemma CancelledRunsCompleteIff(c: Config)
    requires ValidConfig(c)
    ensures (forall s, actions :: Verifying(c, s, actions) ==> Complete(c, Last(c, s, actions))) <==> c.plan.count == 0
  {
    if c.plan.count == 0 {
      forall s, actions | Verifying(c, s, actions) ensures Complete(c, Last(c, s, actions)) {
        hide Complete;
        InitInv(c, s);
        RunKeepsInv(c, s, actions);
        InvIsComplete(c, Last(c, s, actions));
      }
    } else {
      hide ValidConfig;
      var s := State(None, Row({}, 0), None);
      var actions := CancelledRunReachesVerification(c, s);
      assert Verifying(c, s, actions);
      assert 0 in UpTo(c.plan.count);
      assert !Complete(c, Last(c, s, actions));
    }
  }
}
