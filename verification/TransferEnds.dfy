/** How a run of the transfer ends: at verification exactly if nothing failed, and otherwise with
    everything it collected persisted. */
module TransferEnds {
  import opened SegmentPlan
  import opened Ctr
  import opened Transfer
  import opened TransferSafety
  import opened TransferAnyRun

  /** A step that fails: an attempt at a segment for good, or a checkpoint. */
  predicate Fails(x: Step) { x.Fail? || x.SyncFail? || x.PersistFail? }

  predicate CheckpointFails(x: Step) { x.SyncFail? || x.PersistFail? }

  /** The actions are steps of one run. */
  ghost predicate OneRun(actions: seq<Action>) {
    forall i :: 0 <= i < |actions| ==> actions[i].InRun?
  }

  /** The file opens after some history, and the run makes the given steps. */
  ghost predicate RunFrom(c: Config, s0: State, before: seq<Action>, actions: seq<Action>) {
    && ValidConfig(c) && Init(c, s0) && Runs(c, s0, before) && Enabled(c, Last(c, s0, before), Open)
    && OneRun(actions) && Runs(c, Do(c, Last(c, s0, before), Open), actions)
  }

  ghost function EndOf(c: Config, s0: State, before: seq<Action>, actions: seq<Action>): State
    requires RunFrom(c, s0, before, actions)
  {
    Last(c, Do(c, Last(c, s0, before), Open), actions)
  }

  // ----- what a checkpoint saves

  /** A checkpoint under way holds what has been collected. */
  ghost predicate CloneSaves(r: Run, bitmap: set<int>, committed: int, after: After) {
    bitmap == r.bitmap && committed == r.committed && (after.ThenReturn? ==> r.failed)
  }

  /** Unless dirty, everything collected is persisted; there: the part file was there at the start. */
  ghost predicate Saved(row: Row, r: Run, there: bool) {
    && (!r.dirty ==> r.bitmap <= row.bitmap && (there ==> row == Row(r.bitmap, r.committed)))
    && match r.phase
       case Cloned(b, n, after) => CloneSaves(r, b, n, after)
       case Syncing(b, n, after) => CloneSaves(r, b, n, after)
       case Synced(b, n, after) => CloneSaves(r, b, n, after)
       case Returned => !r.dirty && r.failed
       case _ => true
  }

  lemma OpenSaves(c: Config, s: State)
    requires c.plan.Valid() && s.row.committed == c.plan.Committed(s.row.bitmap) && Enabled(c, s, Open)
    ensures var t := Do(c, s, Open); t.run.Some? && t.part.Some? && Saved(t.row, t.run.value, s.part.Some?)
  {
  }

  lemma StepSaves(c: Config, p: Part, row: Row, r: Run, x: Step, there: bool)
    requires EnabledStep(c, p, r, x) && Saved(row, r, there) && !CheckpointFails(x)
    ensures Saved(DoRow(c, p, row, r, x), DoRun(c, p, r, x), there)
  {
  }

  lemma {:induction false} StepsSave(c: Config, s: State, actions: seq<Action>, there: bool)
    requires OneRun(actions) && Runs(c, s, actions) && s.run.Some? && s.part.Some?
    requires Saved(s.row, s.run.value, there)
    requires forall i :: 0 <= i < |actions| ==> !CheckpointFails(actions[i].step)
    ensures var t := Last(c, s, actions); t.run.Some? && Saved(t.row, t.run.value, there)
    decreases |actions|
  {
    hide EnabledStep, DoRun, DoPart, DoRow, Saved;
    if actions != [] {
      StepSaves(c, s.part.value, s.row, s.run.value, actions[0].step, there);
      StepsSave(c, Do(c, s, actions[0]), actions[1..], there);
    }
  }

  /** A checkpoint in the middle of a run, undisturbed, persists exactly what has been collected, covers
      every write made before it, and the run goes on as it was. */
  lemma CheckpointSaves(c: Config, s: State)
    requires s.run.Some? && s.part.Some? && Enabled(c, s, InRun(Checkpoint))
    ensures var actions := [InRun(Checkpoint), InRun(SyncBegin), InRun(SyncEnd), InRun(Persist)];
            && Runs(c, s, actions)
            && var t, r := Last(c, s, actions), s.run.value;
               && t.row == Row(r.bitmap, r.committed) && t.run == Some(r.(dirty := false))
               && t.part == Some(Part(s.part.value.bytes, {}, {}, true))
  {
    var r, p := s.run.value, s.part.value;
    var s1 := Do(c, s, InRun(Checkpoint));
    var s2 := Do(c, s1, InRun(SyncBegin));
    var s3 := Do(c, s2, InRun(SyncEnd));
    var t := Do(c, s3, InRun(Persist));
    assert s3.part.value.unsynced == {};
    assert t == State(Some(Part(p.bytes, {}, {}, true)), Row(r.bitmap, r.committed), Some(r.(dirty := false)));
    hide Do, Enabled;
    assert Runs(c, t, []) && Last(c, t, []) == t;
    hide Runs, Last, KeepsPart;
    Then(c, s3, InRun(Persist), []);
    Then(c, s2, InRun(SyncEnd), [InRun(Persist)]);
    Then(c, s1, InRun(SyncBegin), [InRun(SyncEnd), InRun(Persist)]);
    Then(c, s, InRun(Checkpoint), [InRun(SyncBegin), InRun(SyncEnd), InRun(Persist)]);
  }

  /** A run that returns has failed; and unless a checkpoint failed, every segment it collected is
      persisted, and if the part file was there, the row is exactly what was collected. */
  lemma FailedRunHasSaved(c: Config, s0: State, before: seq<Action>, actions: seq<Action>)
    requires RunFrom(c, s0, before, actions)
    requires forall i :: 0 <= i < |actions| ==> !CheckpointFails(actions[i].step)
    ensures var t := EndOf(c, s0, before, actions);
            && t.run.Some?
            && var r := t.run.value;
               r.phase.Returned? ==>
                 && r.failed && r.bitmap <= t.row.bitmap
                 && (Last(c, s0, before).part.Some? ==> t.row == Row(r.bitmap, r.committed))
  {
    StartIsSound(c, s0);
    RunIsSound(c, s0, before);
    var s := Last(c, s0, before);
    ConfigHasPlan(c);
    OpenSaves(c, s);
    StepsSave(c, Do(c, s, Open), actions, s.part.Some?);
    hide Runs, Last, Do, Enabled, ValidConfig;
  }

  // ----- verification exactly if nothing failed

  ghost predicate Bad(c: Config, x: SegmentResult) {
    x.Failure? || x.written != c.plan.SizeOf(x.index)
  }

  /** An error has been seen, or is on its way to the collector. */
  ghost predicate Troubled(c: Config, r: Run) {
    || r.failed
    || (exists w :: w in r.workers && r.workers[w].Reporting? && Bad(c, r.workers[w].result))
    || (exists k :: 0 <= k < |r.results| && Bad(c, r.results[k]))
  }

  predicate Verifies(phase: Phase) {
    match phase
    case Cloned(_, _, after) => after.ThenVerify?
    case Syncing(_, _, after) => after.ThenVerify?
    case Synced(_, _, after) => after.ThenVerify?
    case AtVerification => true
    case _ => false
  }

  predicate Returns(phase: Phase) {
    match phase
    case Cloned(_, _, after) => after.ThenReturn?
    case Syncing(_, _, after) => after.ThenReturn?
    case Synced(_, _, after) => after.ThenReturn?
    case Returned => true
    case _ => false
  }

  /** The run cannot reach verification any more. */
  ghost predicate Doomed(c: Config, r: Run) {
    r.phase.Returned? || (Troubled(c, r) && !Verifies(r.phase))
  }

  /** Nothing has failed. */
  ghost predicate Clean(c: Config, r: Run) {
    !Troubled(c, r) && !Returns(r.phase)
  }

  /** Worker w has moved on; failed and the results are the same. */
  lemma WorkerTrouble(c: Config, r: Run, t: Run, w: nat)
    requires w in r.workers && !r.workers[w].Reporting? && w in t.workers && t.workers == r.workers[w := t.workers[w]]
    requires t.failed == r.failed && t.results == r.results
    ensures Troubled(c, t) <==> Troubled(c, r) || (t.workers[w].Reporting? && Bad(c, t.workers[w].result))
  {
    hide Bad;
    if v :| v in r.workers && r.workers[v].Reporting? && Bad(c, r.workers[v].result) {
      assert t.workers[v] == r.workers[v];
    }
  }

  /** Worker w has passed its result to the channel. */
  lemma SentTrouble(c: Config, r: Run, t: Run, w: nat, x: SegmentResult)
    requires w in r.workers && r.workers[w] == Reporting(x) && w in t.workers && !t.workers[w].Reporting?
    requires t.workers == r.workers[w := t.workers[w]] && t.failed == r.failed && t.results == r.results + [x]
    ensures Troubled(c, t) <==> Troubled(c, r)
  {
    hide Bad;
    assert t.results[|r.results|] == x;
    if v :| v in r.workers && v != w && r.workers[v].Reporting? && Bad(c, r.workers[v].result) {
      assert t.workers[v] == r.workers[v];
    }
    if k :| 0 <= k < |r.results| && Bad(c, r.results[k]) { assert t.results[k] == r.results[k]; }
  }

  lemma CollectTrouble(c: Config, r: Run)
    requires |r.results| > 0
    ensures Troubled(c, DoCollect(c, r)) <==> Troubled(c, r)
  {
    var t := DoCollect(c, r);
    assert t.workers == r.workers && t.results == r.results[1..];
    assert t.failed == (r.failed || Bad(c, r.results[0]));
    hide DoCollect, Bad;
    if k :| 0 <= k < |r.results| && Bad(c, r.results[k]) {
      if k > 0 { assert t.results[k - 1] == r.results[k]; }
    }
  }

  /** Trouble comes only from a failing step, and it stays. */
  lemma TroubleKept(c: Config, p: Part, r: Run, x: Step)
    requires EnabledStep(c, p, r, x) && !Fails(x)
    ensures Troubled(c, DoRun(c, p, r, x)) <==> Troubled(c, r)
  {
    var t := DoRun(c, p, r, x);
    hide Troubled;
    match x
    case Fetch(w) => WorkerTrouble(c, r, t, w);
    case Decide(w) => WorkerTrouble(c, r, t, w);
    case Write(w, _) => WorkerTrouble(c, r, t, w);
    case Retry(w) => WorkerTrouble(c, r, t, w);
    case Finish(w) => WorkerTrouble(c, r, t, w);
    case Send(w) => SentTrouble(c, r, t, w, r.workers[w].result);
    case Collect => CollectTrouble(c, r);
    case _ => SameTrouble(c, r, t);
  }

  lemma SameTrouble(c: Config, r: Run, t: Run)
    requires t.failed == r.failed && t.workers == r.workers && t.results == r.results
    ensures Troubled(c, t) <==> Troubled(c, r)
  {
    hide Bad;
  }

  /** With everybody gone and the channel empty, trouble has been seen. */
  lemma SeenTrouble(c: Config, r: Run)
    requires AllExited(r) && r.results == []
    ensures Troubled(c, r) <==> r.failed
  {
    hide Bad;
  }

  lemma StepStaysClean(c: Config, p: Part, r: Run, x: Step)
    requires EnabledStep(c, p, r, x) && Clean(c, r) && !Fails(x)
    ensures Clean(c, DoRun(c, p, r, x))
  {
    TroubleKept(c, p, r, x);
    if x.CloseResults? { SeenTrouble(c, r); }
    hide Troubled, AllExited, DoCollect;
  }

  lemma StepStaysDoomed(c: Config, p: Part, r: Run, x: Step)
    requires EnabledStep(c, p, r, x) && Doomed(c, r)
    ensures Doomed(c, DoRun(c, p, r, x))
  {
    if Fails(x) { FailDooms(c, p, r, x); } else { TroubleKept(c, p, r, x); }
    if x.CloseResults? { SeenTrouble(c, r); }
    hide Troubled, AllExited, DoCollect;
  }

  /** After a failing step the run cannot reach verification: no worker is left when a run is about to. */
  lemma FailDooms(c: Config, p: Part, r: Run, x: Step)
    requires EnabledStep(c, p, r, x) && Fails(x) && (x.Fail? ==> !Verifies(r.phase))
    ensures Doomed(c, DoRun(c, p, r, x))
  {
    var t := DoRun(c, p, r, x);
    if x.Fail? { WorkerTrouble(c, r, t, x.w); }
    if t.failed { assert Troubled(c, t); }
    hide Troubled, AllExited;
  }

  lemma NobodyLeft(c: Config, r: Run)
    requires c.plan.Valid() && RunOk(c, r) && Verifies(r.phase)
    ensures AllExited(r)
  {
    hide ClaimsOk, BytesOk, Apart, Covered;
  }

  lemma {:induction false} StepsDecide(c: Config, s: State, actions: seq<Action>)
    requires ValidConfig(c) && Sound(c, s) && OneRun(actions) && Runs(c, s, actions)
    requires s.run.Some? && s.part.Some? && (Clean(c, s.run.value) || Doomed(c, s.run.value))
    ensures var t := Last(c, s, actions);
            && t.run.Some?
            && (Doomed(c, s.run.value) ==> Doomed(c, t.run.value))
            && (Clean(c, s.run.value) ==>
                  if exists i :: 0 <= i < |actions| && Fails(actions[i].step) then Doomed(c, t.run.value)
                  else Clean(c, t.run.value))
    decreases |actions|
  {
    hide EnabledStep, DoRun, DoPart, DoRow, Doomed, Clean, ValidConfig, Sound, Fails;
    if actions != [] {
      var p, r, x, n := s.part.value, s.run.value, actions[0].step, Do(c, s, actions[0]);
      StepIsSound(c, s, actions[0]);
      StepDecides(c, s, x);
      StepsDecide(c, n, actions[1..]);
      assert actions == [actions[0]] + actions[1..];
    }
  }

  lemma StepDecides(c: Config, s: State, x: Step)
    requires ValidConfig(c) && Sound(c, s) && Enabled(c, s, InRun(x))
    requires Clean(c, s.run.value) || Doomed(c, s.run.value)
    ensures var r, t := s.run.value, Do(c, s, InRun(x)).run.value;
            && (Doomed(c, r) ==> Doomed(c, t))
            && (Clean(c, r) ==> if Fails(x) then Doomed(c, t) else Clean(c, t))
  {
    var p, r := s.part.value, s.run.value;
    hide DoRun, DoPart, DoRow, Doomed, Clean;
    if Doomed(c, r) { StepStaysDoomed(c, p, r, x); }
    if Clean(c, r) {
      if Fails(x) {
        if x.Fail? && Verifies(r.phase) {
          ConfigHasPlan(c);
          NobodyLeft(c, r);
        }
        FailDooms(c, p, r, x);
      } else {
        StepStaysClean(c, p, r, x);
      }
    }
  }

  lemma OpenIsClean(c: Config, s: State)
    requires Enabled(c, s, Open)
    ensures var t := Do(c, s, Open); t.run.Some? && t.part.Some? && Clean(c, t.run.value)
  {
  }

  /** Over every run that comes to its end: it goes on to verification exactly if no attempt at a
      segment failed for good and no checkpoint failed; a cancellation alone does not stop it. */
  lemma VerifiesIffNothingFailed(c: Config, s0: State, before: seq<Action>, actions: seq<Action>)
    requires RunFrom(c, s0, before, actions)
    ensures var t := EndOf(c, s0, before, actions);
            && t.run.Some?
            && var phase := t.run.value.phase;
               phase.AtVerification? || phase.Returned? ==>
                 (phase.AtVerification? <==> forall i :: 0 <= i < |actions| ==> !Fails(actions[i].step))
  {
    StartIsSound(c, s0);
    RunIsSound(c, s0, before);
    var s := Last(c, s0, before);
    StepIsSound(c, s, Open);
    OpenIsClean(c, s);
    StepsDecide(c, Do(c, s, Open), actions);
    hide Runs, Last, Do, Enabled, ValidConfig, Troubled, Sound, Init;
  }

  // ----- the part file at verification

  /** The name of the part file is durable once a checkpoint has synced it, also for an empty file, which
      goes through a checkpoint of its own. */
  ghost predicate Linked(c: Config, s: State) {
    s.run.Some? && s.part.Some? ==>
      && (s.run.value.phase.Synced? ==> s.part.value.linked)
      && (c.plan.count == 0 && s.run.value.phase.AtVerification? ==> s.part.value.linked)
  }

  lemma StepLinks(c: Config, s: State, a: Action)
    requires Enabled(c, s, a) && Linked(c, s)
    ensures Linked(c, Do(c, s, a))
  {
    if a.InRun? { hide AllExited, WriteBytes, DoSend, DoCollect; RunStepLinks(c, s, a.step); }
  }

  lemma RunStepLinks(c: Config, s: State, x: Step)
    requires Enabled(c, s, InRun(x)) && Linked(c, s)
    ensures Linked(c, Do(c, s, InRun(x)))
  {
    var r := s.run.value;
    hide AllExited, WriteBytes, DoSend, DoCollect, DoDecide;
    if x.Send? { SendKeepsPhase(r, x.w, r.workers[x.w].result); }
    if x.Collect? { CollectKeepsPhase(c, r); }
    if x.Decide? { DecideKeepsPhase(c, r, x.w, r.workers[x.w].index); }
  }

  lemma SendKeepsPhase(r: Run, w: nat, x: SegmentResult)
    ensures DoSend(r, w, x).phase == r.phase
  {
  }

  lemma CollectKeepsPhase(c: Config, r: Run)
    requires |r.results| > 0
    ensures DoCollect(c, r).phase == r.phase
  {
  }

  lemma DecideKeepsPhase(c: Config, r: Run, w: nat, i: int)
    ensures DoDecide(c, r, w, i).phase == r.phase
  {
  }

  lemma {:induction false} StepsLink(c: Config, s: State, actions: seq<Action>)
    requires Runs(c, s, actions) && Linked(c, s)
    ensures Linked(c, Last(c, s, actions))
    decreases |actions|
  {
    hide Enabled, Do, Linked;
    if actions != [] {
      StepLinks(c, s, actions[0]);
      StepsLink(c, Do(c, s, actions[0]), actions[1..]);
    }
  }

  /** What an uncancelled run hands over to verification is durable as it stands: the name of the part
      file and every segment in it survive any crash, so the crash leaves exactly the decrypted file. */
  lemma VerifiedPartIsDurable(c: Config, s: State, actions: seq<Action>, image: Option<seq<byte>>)
    requires ValidConfig(c) && Init(c, s) && Runs(c, s, actions) && KeepsPart(c, s, actions)
    requires var t := Last(c, s, actions); t.run.Some? && t.run.value.phase.AtVerification? && !t.run.value.stopped
    requires CrashImage(c, Last(c, s, actions).part, image)
    ensures image == Some(Crypt(c.key, c.cipher, 0))
  {
    StepsLink(c, s, actions);
    VerificationIsComplete(c, s, actions);
    InitInv(c, s);
    RunKeepsInv(c, s, actions);
    var t := Last(c, s, actions);
    hide Runs, Last, Init, KeepsPart, Crypt;
    ImageIsWhole(c, t, image);
  }

  lemma ImageIsWhole(c: Config, t: State, image: Option<seq<byte>>)
    requires ValidConfig(c) && Inv(c, t) && Complete(c, t) && Linked(c, t) && t.run.value.phase.AtVerification?
    requires CrashImage(c, t.part, image)
    ensures image == Some(Crypt(c.key, c.cipher, 0))
  {
    hide Crypt, RunInv;
    var p := t.part.value;
    if c.plan.count > 0 { assert 0 in t.row.bitmap; }
    assert p.linked;
    var bytes := image.value;
    forall b | 0 <= b < |bytes| ensures bytes[b] == p.bytes[b] {
      SegmentsPartition(c.plan, b);
      var i := b / c.plan.segmentSize;
      assert i in t.row.bitmap && SameSegment(c, bytes, p.bytes, i);
    }
    assert bytes == p.bytes;
  }
}
