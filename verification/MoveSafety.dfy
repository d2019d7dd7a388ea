/** What the move protocol keeps over every run, and where its laws stop. */
module MoveSafety {
  import opened SegmentPlan
  import opened Ctr
  import opened States
  import opened Move

  // ----- every run, however it is interrupted

  ghost predicate PartPasses(c: Config, d: Disk) {
    d.part.Some? && Passes(c, d.part.value)
  }

  ghost predicate LandedHold(c: Config, d: Disk) {
    forall path :: path in d.landed ==> Holds(c, d, path)
  }

  /** What each position of a run has established. */
  ghost predicate PhaseSafe(c: Config, s: State) {
    match s.phase
    case Finalizing(_, _) => PartPasses(c, s.disk)
    case Planned(_, _, _) => PartPasses(c, s.disk)
    case Prepared(_, _, target) => PartPasses(c, s.disk) && s.row.state == FileMoving && s.row.target == target
    case Renamed(target) => target in s.disk.landed && s.row.state == FileMoving && s.row.target == target
    case TargetSynced(target) => target in s.disk.landed && s.row.state == FileMoving && s.row.target == target
    case Settled(target) => target in s.disk.landed && s.row.state == FileMoving && s.row.target == target
    case Inspecting => s.row.state == FileMoving
    case Inspected(_) => s.row.state == FileMoving
    case Accepted(_) => s.row.target in s.disk.landed && s.row.state == FileMoving
    case Unlinked => s.row.target in s.disk.landed && s.row.state == FileMoving
    case _ => true
  }

  ghost predicate Safe(c: Config, s: State) {
    LandedHold(c, s.disk) && PhaseSafe(c, s)
  }

  lemma {:induction false} CrashKeepsLanded(c: Config, d: Disk, image: Disk)
    requires LandedHold(c, d) && CrashImage(d, image)
    ensures LandedHold(c, image)
    decreases |d.undo|
  {
    if d.undo != [] && CrashImage(Rewound(d), image) {
      assert LandedHold(c, Rewound(d));
      CrashKeepsLanded(c, Rewound(d), image);
    }
  }

  lemma StepKeepsSafe(c: Config, s: State, x: Step)
    requires Safe(c, s) && Enabled(c, s, x)
    ensures Safe(c, Do(c, s, x))
  {
    hide Passes, CrashImage, FileEdge, MayPlan, DropSynced;
    if x.PowerLoss? { CrashKeepsLanded(c, s.disk, x.image); }
  }

  lemma {:induction false} RunKeepsSafe(c: Config, s: State, steps: seq<Step>)
    requires Safe(c, s) && Runs(c, s, steps)
    ensures Safe(c, Last(c, s, steps))
    decreases |steps|
  {
    if steps != [] {
      StepKeepsSafe(c, s, steps[0]);
      RunKeepsSafe(c, Do(c, s, steps[0]), steps[1..]);
    }
  }

  /** No row becomes completed unless the bytes at its target passed the size and MAC check and are
      still there; this holds after pauses, failures and overruled rows too. */
  lemma CompletedOnlyIfVerified(c: Config, s: State, steps: seq<Step>, x: Step)
    requires Init(s) && Runs(c, s, steps) && Enabled(c, Last(c, s, steps), x)
    ensures var before, after := Last(c, s, steps), Do(c, Last(c, s, steps), x);
            after.row.state == FileCompleted && before.row.state != FileCompleted ==>
              Holds(c, after.disk, after.row.target)
  {
    RunKeepsSafe(c, s, steps);
  }

  // ----- stops that are crashes

  /** Before the first successful verification: no move has begun, and a full bitmap is only persisted
      over synced bytes. */
  ghost predicate Early(c: Config, s: State) {
    var d := s.disk;
    && s.row.state != FileMoving && s.row.state != FileCompleted && d.landed == {} && d.undo == []
    && (s.row.full ==> d.part.Some? && d.flushed && |d.part.value| == c.size)
    && match s.phase
       case Idle => true
       case Opening(_) => true
       case Fetching(_, full, dirty) =>
         && d.part.Some? && |d.part.value| == c.size && (s.row.full ==> full)
         && (full && !dirty ==> d.flushed && s.row.full)
       case Checking(_) => d.part.Some? && d.flushed && s.row.full
       case _ => false
  }

  /** Since: the payload is at the part path, or at the persisted target of a row that says so. */
  ghost predicate Kept(c: Config, s: State) {
    || PartPasses(c, s.disk)
    || (s.row.state in {FileMoving, FileCompleted} && Holds(c, s.disk, s.row.target))
  }

  ghost predicate UndoFits(c: Config, row: Row, d: Disk) {
    && |d.undo| <= 1
    && (d.undo != [] ==> d.part.None? && Passes(c, d.undo[0].source))
    && (d.undo != [] && d.undo[0].Unrename? ==> d.undo[0].target == row.target)
  }

  /** The row and the disk after verification, whatever the run does. */
  ghost predicate LateDisk(c: Config, row: Row, d: Disk) {
    && row.full && d.flushed && UndoFits(c, row, d)
    && (d.part.Some? ==> Passes(c, d.part.value))
    && (d.part.None? ==> row.target in d.landed && row.state in {FileMoving, FileCompleted})
  }

  ghost predicate LatePhase(row: Row, d: Disk, phase: Phase) {
    match phase
    case Opening(_) => d.part.Some? && row.state == FileDownloading
    case Fetching(_, full, dirty) => d.part.Some? && full && row.state == FileDownloading
    case Checking(_) => d.part.Some? && row.state == FileVerifying
    case TargetSynced(_) => d.undo != [] && d.undo[0].Unrename? ==> d.undo[0].targetSynced
    case Settled(_) => d.undo == []
    case Inspected(there) => there == d.part.Some?
    case Accepted(there) => there == d.part.Some?
    case Unlinked => d.part.None?
    case _ => true
  }

  ghost predicate Late(c: Config, s: State) {
    LateDisk(c, s.row, s.disk) && LatePhase(s.row, s.disk, s.phase)
  }

  ghost predicate Tracked(c: Config, s: State) {
    Safe(c, s) && (if s.verified then Late(c, s) else Early(c, s))
  }

  lemma StepKeepsEarly(c: Config, s: State, x: Step)
    requires Safe(c, s) && !s.verified && Early(c, s) && Enabled(c, s, x)
    ensures var t := Do(c, s, x); if t.verified then Late(c, t) else Early(c, t)
  {
    hide Passes;
  }

  /** The fate of the part file in a power loss after verification. */
  lemma CrashKeepsPayload(c: Config, s: State, image: Disk)
    requires LandedHold(c, s.disk) && Late(c, s) && CrashImage(s.disk, image)
    ensures image.flushed && image.undo == []
    ensures image.part.Some? ==> Passes(c, image.part.value)
    ensures image.part.None? ==> s.disk.part.None? && s.row.target in image.landed
  {
    hide Passes;
  }

  lemma OneUndo(u: Undo)
    ensures DropSynced([u]) == if u.Unrename? && !u.targetSynced then [u] else []
    ensures MarkSynced([u]) == [if u.Unrename? then u.(targetSynced := true) else u]
  {
    assert Front([u]) == [];
  }

  predicate Fetches(x: Step) { x.Start? || x.OpenPart? || x.Fetch? || x.Checkpoint? || x.BeginVerify? || x.Verify? }

  predicate Finalizes(x: Step) {
    x.Plan? || x.Prepare? || x.DoRename? || x.Conflict? || x.Complete? || x.FinalizeError?
  }

  predicate Syncs(x: Step) { x.SyncTarget? || x.SyncSource? || x.SyncRemoval? }

  predicate Recovers(x: Step) { x.LookForPart? || x.LookAtTarget? || x.RemovePart? || x.CompleteRecovered? }

  lemma FetchKeepsLate(c: Config, s: State, x: Step)
    requires Safe(c, s) && s.verified && Late(c, s) && Enabled(c, s, x) && Fetches(x)
    ensures Late(c, Do(c, s, x))
  {
    if s.disk.part.Some? { assert |s.disk.part.value| == c.size; }
    hide Passes, CrashImage, MayPlan, DropSynced, MarkSynced, AfterRename, DoLookAtTarget;
  }

  lemma FinalizeKeepsLate(c: Config, s: State, x: Step)
    requires Safe(c, s) && s.verified && Late(c, s) && Enabled(c, s, x) && Finalizes(x)
    ensures Late(c, Do(c, s, x))
  {
    hide Passes, CrashImage, MayPlan, DropSynced, MarkSynced, DoLookAtTarget, DoStart;
  }

  /** What the two directory syncs do to at most one pending change. */
  lemma SyncsKeepUndoFits(c: Config, row: Row, d: Disk)
    requires UndoFits(c, row, d)
    ensures UndoFits(c, row, d.(undo := MarkSynced(d.undo))) && UndoFits(c, row, d.(undo := DropSynced(d.undo)))
    ensures |MarkSynced(d.undo)| == 0 || MarkSynced(d.undo)[0].Unremove? || MarkSynced(d.undo)[0].targetSynced
    ensures d.undo == [] || d.undo[0].Unremove? || d.undo[0].targetSynced ==> DropSynced(d.undo) == []
  {
    hide Passes;
    if d.undo != [] { assert d.undo == [d.undo[0]]; OneUndo(d.undo[0]); }
  }

  lemma SyncKeepsLate(c: Config, s: State, x: Step)
    requires Safe(c, s) && s.verified && Late(c, s) && Enabled(c, s, x) && Syncs(x)
    ensures Late(c, Do(c, s, x))
  {
    var d := s.disk;
    SyncsKeepUndoFits(c, s.row, d);
    match x
    case SyncTarget =>
      assert Do(c, s, x) == s.(disk := d.(undo := MarkSynced(d.undo)), phase := TargetSynced(s.phase.target));
    case SyncSource =>
      assert Do(c, s, x) == s.(disk := d.(undo := DropSynced(d.undo)), phase := Settled(s.phase.target));
    case SyncRemoval =>
      assert Do(c, s, x) == s.(disk := d.(undo := DropSynced(d.undo)), phase := Accepted(false));
  }

  lemma RecoverKeepsLate(c: Config, s: State, x: Step)
    requires Safe(c, s) && s.verified && Late(c, s) && Enabled(c, s, x) && Recovers(x)
    ensures Late(c, Do(c, s, x))
  {
    hide Passes, CrashImage, MayPlan, DropSynced, MarkSynced, AfterRename, DoStart, FileEdge;
  }

  lemma OutsideKeepsLate(c: Config, s: State, x: Step)
    requires Safe(c, s) && s.verified && Late(c, s) && Enabled(c, s, x) && StepOrderly(s, x)
    requires !Fetches(x) && !Finalizes(x) && !Syncs(x) && !Recovers(x)
    ensures Late(c, Do(c, s, x))
  {
    if x.PowerLoss? { CrashKeepsPayload(c, s, x.image); }
    hide Passes, CrashImage, MayPlan, DropSynced, MarkSynced, AfterRename, DoLookAtTarget, DoStart;
  }

  lemma StepKeepsLate(c: Config, s: State, x: Step)
    requires Safe(c, s) && s.verified && Late(c, s) && Enabled(c, s, x) && StepOrderly(s, x)
    ensures Late(c, Do(c, s, x))
  {
    hide *;
    if Fetches(x) { FetchKeepsLate(c, s, x); }
    else if Finalizes(x) { FinalizeKeepsLate(c, s, x); }
    else if Syncs(x) { SyncKeepsLate(c, s, x); }
    else if Recovers(x) { RecoverKeepsLate(c, s, x); }
    else { OutsideKeepsLate(c, s, x); }
  }

  lemma StepKeepsTracked(c: Config, s: State, x: Step)
    requires Tracked(c, s) && Enabled(c, s, x) && StepOrderly(s, x)
    ensures Tracked(c, Do(c, s, x)) && (s.verified ==> Do(c, s, x).verified)
  {
    hide Safe, Early, Late;
    StepKeepsSafe(c, s, x);
    if s.verified { StepKeepsLate(c, s, x); } else { StepKeepsEarly(c, s, x); }
  }

  lemma {:induction false} RunKeepsTracked(c: Config, s: State, steps: seq<Step>)
    requires Tracked(c, s) && Runs(c, s, steps) && Orderly(c, s, steps)
    ensures Tracked(c, Last(c, s, steps))
    decreases |steps|
  {
    if steps != [] {
      StepKeepsTracked(c, s, steps[0]);
      RunKeepsTracked(c, Do(c, s, steps[0]), steps[1..]);
    }
  }

  // ----- the laws of the move

  /** The verified payload is always at the part path or at the persisted target. */
  lemma PayloadIsNeverLost(c: Config, s: State, steps: seq<Step>)
    requires Init(s) && Runs(c, s, steps) && Orderly(c, s, steps)
    ensures Last(c, s, steps).verified ==> Kept(c, Last(c, s, steps))
  {
    RunKeepsTracked(c, s, steps);
  }

  /** After a successful verification no byte is fetched again. */
  lemma NothingIsRefetched(c: Config, s: State, steps: seq<Step>, bytes: seq<byte>, full: bool)
    requires Init(s) && Runs(c, s, steps) && Orderly(c, s, steps)
    ensures Last(c, s, steps).verified ==> !Enabled(c, Last(c, s, steps), Fetch(bytes, full))
  {
    RunKeepsTracked(c, s, steps);
  }

  /** The steps of one undisturbed recovery pass over a moving row. */
  ghost function RecoverySteps(c: Config, s: State): seq<Step> {
    if !Holds(c, s.disk, s.row.target) then [Start, LookForPart, LookAtTarget]
    else if s.disk.part.Some? then [Start, LookForPart, LookAtTarget, RemovePart, SyncRemoval, CompleteRecovered]
    else [Start, LookForPart, LookAtTarget, CompleteRecovered]
  }

  lemma Then(c: Config, s: State, x: Step, rest: seq<Step>)
    requires Enabled(c, s, x) && Runs(c, Do(c, s, x), rest)
    ensures Runs(c, s, [x] + rest) && Last(c, s, [x] + rest) == Last(c, Do(c, s, x), rest)
  {
    assert ([x] + rest)[1..] == rest;
  }

  /** The row is completed in place: no fetch, the target holds the payload, the part name is gone. */
  ghost predicate CompletedInPlace(c: Config, s: State, t: State) {
    && t.row == s.row.(state := FileCompleted) && Holds(c, t.disk, t.row.target) && t.disk.part.None?
    && t.disk.dir == s.disk.dir
  }

  /** The run goes on from the part file with every segment already there. */
  ghost predicate ResumesFromPart(c: Config, s: State, t: State) {
    && t.row.state == FileDownloading && t.phase.Opening? && t.disk == s.disk && PartPasses(c, t.disk)
    && Do(c, t, OpenPart).disk == t.disk && Do(c, t, OpenPart).phase.full
  }

  /** The state in which recoverMovedFile has looked at both places. */
  ghost function Looked(c: Config, s: State): State {
    DoLookAtTarget(c, s.(phase := Inspected(s.disk.part.Some?)), s.disk.part.Some?)
  }

  lemma Look(c: Config, s: State, rest: seq<Step>)
    requires s.phase.Idle? && s.row.state == FileMoving && Runs(c, Looked(c, s), rest)
    ensures var steps := [Start, LookForPart, LookAtTarget] + rest;
            Runs(c, s, steps) && Last(c, s, steps) == Last(c, Looked(c, s), rest)
  {
    var s1 := Do(c, s, Start);
    var s2 := Do(c, s1, LookForPart);
    assert Do(c, s2, LookAtTarget) == Looked(c, s);
    hide Do, Enabled, Looked;
    Then(c, s2, LookAtTarget, rest);
    Then(c, s1, LookForPart, [LookAtTarget] + rest);
    assert [LookForPart] + ([LookAtTarget] + rest) == [LookForPart, LookAtTarget] + rest;
    Then(c, s, Start, [LookForPart, LookAtTarget] + rest);
    assert [Start] + ([LookForPart, LookAtTarget] + rest) == [Start, LookForPart, LookAtTarget] + rest;
  }

  lemma Nothing(c: Config, s: State)
    ensures Runs(c, s, []) && Last(c, s, []) == s
  {
  }

  lemma AcceptedCompletes(c: Config, s: State)
    requires s.phase == Accepted(s.disk.part.Some?)
    ensures var rest := if s.disk.part.Some? then [RemovePart, SyncRemoval, CompleteRecovered] else [CompleteRecovered];
            && Runs(c, s, rest)
            && var t := Last(c, s, rest);
               && t.row == s.row.(state := FileCompleted) && t.disk.part.None?
               && t.disk.dir == s.disk.dir && t.disk.landed == s.disk.landed
               && (s.disk.part.None? ==> t.disk == s.disk)
  {
    hide DropSynced;
    var t := s;
    if s.disk.part.Some? {
      var s1 := Do(c, s, RemovePart);
      t := Do(c, s1, SyncRemoval);
      var u := Do(c, t, CompleteRecovered);
      hide Do, Enabled;
      Nothing(c, u);
      Then(c, t, CompleteRecovered, []);
      Then(c, s1, SyncRemoval, [CompleteRecovered]);
      Then(c, s, RemovePart, [SyncRemoval, CompleteRecovered]);
    } else {
      var u := Do(c, s, CompleteRecovered);
      hide Do, Enabled;
      Nothing(c, u);
      Then(c, s, CompleteRecovered, []);
    }
  }

  lemma RecoveryCompletes(c: Config, s: State)
    requires s.phase.Idle? && s.row.state == FileMoving && Holds(c, s.disk, s.row.target)
    ensures Runs(c, s, RecoverySteps(c, s)) && CompletedInPlace(c, s, Last(c, s, RecoverySteps(c, s)))
  {
    hide Passes, Do, Enabled, Runs, Last;
    AcceptedCompletes(c, Looked(c, s));
    var rest := if s.disk.part.Some? then [RemovePart, SyncRemoval, CompleteRecovered] else [CompleteRecovered];
    Look(c, s, rest);
    assert RecoverySteps(c, s) == [Start, LookForPart, LookAtTarget] + rest;
  }

  lemma RecoveryResumes(c: Config, s: State)
    requires Tracked(c, s) && s.verified && s.phase.Idle? && s.row.state == FileMoving
              && !Holds(c, s.disk, s.row.target)
    ensures Runs(c, s, RecoverySteps(c, s)) && PartPasses(c, s.disk) && s.row.target !in s.disk.landed
    ensures var t := Last(c, s, RecoverySteps(c, s));
            if s.row.target in s.disk.dir && s.disk.dir[s.row.target].Link?
            then t.row.state == FileFailed && t.disk == s.disk
            else ResumesFromPart(c, s, t)
  {
    if s.disk.part.Some? { assert |s.disk.part.value| == c.size; }
    hide Passes, Runs, Last;
    Nothing(c, Looked(c, s));
    Look(c, s, []);
    assert RecoverySteps(c, s) == [Start, LookForPart, LookAtTarget] + [];
  }

  /** One recovery pass, from any state a crash leaves with a moving row: it completes in place exactly
      when the target holds bytes that pass, always if the rename took effect; otherwise the part file
      is intact and the run resumes from it without fetching, or, if a symbolic link has appeared
      at the target, the row fails with the part file intact. */
  lemma RecoveryPass(c: Config, s: State, steps: seq<Step>)
    requires Init(s) && Runs(c, s, steps) && Orderly(c, s, steps)
    requires var t := Last(c, s, steps); t.phase.Idle? && t.row.state == FileMoving
    ensures var t := Last(c, s, steps); Runs(c, t, RecoverySteps(c, t))
    ensures var t := Last(c, s, steps);
            var u := Last(c, t, RecoverySteps(c, t));
            && (u.row.state == FileCompleted <==> Holds(c, t.disk, t.row.target))
            && (t.row.target in t.disk.landed || t.disk.part.None? ==> Holds(c, t.disk, t.row.target))
            && (u.row.state == FileCompleted ==> CompletedInPlace(c, t, u))
            && (u.row.state != FileCompleted ==>
                  PartPasses(c, u.disk) && (u.row.state == FileFailed || ResumesFromPart(c, t, u)))
  {
    RunKeepsTracked(c, s, steps);
    var t := Last(c, s, steps);
    assert t.verified;
    if Holds(c, t.disk, t.row.target) { RecoveryCompletes(c, t); } else { RecoveryResumes(c, t); }
  }

  // ----- where the laws stop

  /** The row is rewritten outside a run, or failed by an error inside move recovery. */
  predicate Rewrites(x: Step) {
    (x.Overrule? && x.state in {FilePaused, FileWaiting, FileFailed}) || x.RecoveryError?
  }

  /** A row rewritten outside a run (a pause, a quota wait, a failure elsewhere) or failed inside move
      recovery keeps the no-refetch law exactly when the part file is still there, or there is nothing
      to fetch. Every file stays where it is. */
  lemma OverruleKeepsPayloadIff(c: Config, s: State, x: Step)
    requires Tracked(c, s) && s.verified && Rewrites(x) && Enabled(c, s, x)
    ensures var t := Do(c, s, x);
            && t.disk == s.disk && t.row.target == s.row.target
            && Runs(c, t, [Start, OpenPart]) && Last(c, t, [Start, OpenPart]).phase.Fetching?
            && (Last(c, t, [Start, OpenPart]).phase.full <==> s.disk.part.Some? || c.size == 0)
  {
    hide Passes, CrashImage, MayPlan;
    var t := Do(c, s, x);
    var t1 := Do(c, t, Start);
    var t2 := Do(c, t1, OpenPart);
    Nothing(c, t2);
    Then(c, t1, OpenPart, []);
    Then(c, t, Start, [OpenPart]);
  }

  ghost predicate RenameDurable(undo: seq<Undo>) {
    forall i :: 0 <= i < |undo| && undo[i].Unrename? ==> undo[i].targetSynced
  }

  /** A completed row survives every power loss exactly when its rename has been synced. */
  lemma CompletionDurableIff(c: Config, s: State)
    requires Tracked(c, s) && s.verified && s.row.state == FileCompleted && s.row.target in s.disk.landed
    ensures (forall image :: CrashImage(s.disk, image) ==> s.row.target in image.landed) <==> RenameDurable(s.disk.undo)
  {
    hide Passes;
    var d := s.disk;
    if !RenameDurable(d.undo) {
      var image := Rewound(d);
      assert Front(d.undo) == [];
      assert CrashImage(image, image);
      assert CrashImage(d, image);
    }
  }

  /** finalize completes only after both syncs. */
  lemma OrdinaryCompletionIsDurable(c: Config, s: State, steps: seq<Step>)
    requires Init(s) && Runs(c, s, steps) && Orderly(c, s, steps) && Enabled(c, Last(c, s, steps), Complete)
    ensures var t := Do(c, Last(c, s, steps), Complete);
            t.disk.undo == [] && forall image :: CrashImage(t.disk, image) ==> Holds(c, image, t.row.target)
  {
    RunKeepsTracked(c, s, steps);
    var t := Do(c, Last(c, s, steps), Complete);
    StepKeepsTracked(c, Last(c, s, steps), Complete);
    forall image | CrashImage(t.disk, image) ensures Holds(c, image, t.row.target) {
      assert image == t.disk.(undo := []);
    }
  }

  /** recoverMovedFile does not sync the complete directory: a process stopped between the rename and
      the sync, restarted and recovered, has a completed row that a power loss can leave without
      its file. The payload is then back at the part path. */
  lemma RecoveredCompletionIsNotDurable(c: Config, s: State)
    requires Tracked(c, s) && s.verified && s.phase.Prepared? && s.phase.target !in s.disk.dir
    ensures var steps := [DoRename(false), Kill, Start, LookForPart, LookAtTarget, CompleteRecovered];
            && Runs(c, s, steps)
            && Last(c, s, steps).row.state == FileCompleted
            && CrashImage(Last(c, s, steps).disk, s.disk)
            && s.row.target !in s.disk.dir && PartPasses(c, s.disk)
  {
    hide Passes;
    var s1 := Do(c, s, DoRename(false));
    var s2 := Do(c, s1, Kill);
    assert s2 == s.(disk := AfterRename(s.disk, s.phase.target, false), phase := Idle);
    RenameCanBeLost(s.disk, s.phase.target);
    var s3 := Looked(c, s2);
    assert s3 == s2.(phase := Accepted(false));
    hide Do, Enabled, Looked, Safe, Late, Runs, Last, CrashImage;
    AcceptedCompletes(c, s3);
    Look(c, s2, [CompleteRecovered]);
    assert [Start, LookForPart, LookAtTarget] + [CompleteRecovered]
        == [Start, LookForPart, LookAtTarget, CompleteRecovered];
    Then(c, s1, Kill, [Start, LookForPart, LookAtTarget, CompleteRecovered]);
    Then(c, s, DoRename(false), [Kill, Start, LookForPart, LookAtTarget, CompleteRecovered]);
  }

  lemma RenameCanBeLost(d: Disk, target: string)
    requires d.part.Some? && d.flushed && d.undo == [] && target !in d.dir && target !in d.landed
    ensures CrashImage(AfterRename(d, target, false), d)
  {
    var e := AfterRename(d, target, false);
    assert Front(e.undo) == [];
    assert Rewound(e) == d;
    assert CrashImage(d, d);
  }
}
