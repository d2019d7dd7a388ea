/** How a move comes to its end: what the check decides, where the payload lands, and how a run goes on
    after a stop. */
module MoveEnds {
  import opened SegmentPlan
  import opened Ctr
  import opened States
  import opened Move
  import opened MoveSafety

  /** The check lets a file go on to its move exactly if the part file has the size and the MAC; and
      if not, the row fails and the part file stays as it was. */
  lemma CheckDecides(c: Config, s: State, policy: Policy)
    requires Enabled(c, s, Verify(policy))
    ensures var t := Do(c, s, Verify(policy));
            && t.disk == s.disk
            && (Passes(c, s.disk.part.value) <==> t.phase == Finalizing(s.phase.wanted, policy))
            && (!Passes(c, s.disk.part.value) ==> t.row == s.row.(state := FileFailed) && t.phase == Idle)
  {
  }

  /** The steps of an undisturbed move to a target. */
  function MoveSteps(target: string): seq<Step> {
    [Plan(target), Prepare, DoRename(false), SyncTarget, SyncSource, Complete]
  }

  /** The payload lies at the target, under a completed row that names it; no other path has changed. */
  ghost predicate MovedTo(s: State, t: State, target: string)
    requires s.disk.part.Some?
  {
    && t.phase == Idle && t.row.state == FileCompleted && t.row.target == target
    && t.disk.part.None? && t.disk.dir == s.disk.dir[target := Regular(s.disk.part.value)] && target in t.disk.landed
  }

  /** The first three steps of a move. */
  ghost predicate RenamedTo(s: State, t: State, target: string)
    requires s.disk.part.Some?
  {
    && t.phase == Renamed(target) && t.row.state == FileMoving && t.row.target == target
    && t.disk.part.None? && t.disk.dir == s.disk.dir[target := Regular(s.disk.part.value)] && target in t.disk.landed
  }

  lemma RenamesTo(c: Config, s: State, target: string)
    requires s.phase.Finalizing? && s.disk.part.Some?
    requires MayPlan(s.disk.dir, s.phase.wanted, s.phase.policy, target)
    ensures Enabled(c, s, Plan(target))
    ensures var s1 := Do(c, s, Plan(target));
            && Enabled(c, s1, Prepare)
            && var s2 := Do(c, s1, Prepare);
               Enabled(c, s2, DoRename(false)) && RenamedTo(s, Do(c, s2, DoRename(false)), target)
  {
    hide CrashImage, Passes, FileEdge, DoLookAtTarget;
  }

  lemma SettlesAt(c: Config, s: State)
    requires s.phase.Renamed?
    ensures var rest := [SyncTarget, SyncSource, Complete];
            && Runs(c, s, rest)
            && var t := Last(c, s, rest);
               && t.phase == Idle && t.row == s.row.(state := FileCompleted, target := s.phase.target)
               && t.disk == s.disk.(undo := t.disk.undo)
  {
    hide CrashImage, Passes, FileEdge, DoLookAtTarget, MayPlan, DropSynced, MarkSynced;
    var s1 := Do(c, s, SyncTarget);
    var s2 := Do(c, s1, SyncSource);
    var t := Do(c, s2, Complete);
    hide Do, Enabled, Runs, Last;
    Nothing(c, t);
    Then(c, s2, Complete, []);
    Then(c, s1, SyncSource, [Complete]);
    Then(c, s, SyncTarget, [SyncSource, Complete]);
  }

  /** Undisturbed, a verified file is moved to whatever target the policy lets the run plan. */
  lemma MoveCompletes(c: Config, s: State, target: string)
    requires s.phase.Finalizing? && s.disk.part.Some?
    requires MayPlan(s.disk.dir, s.phase.wanted, s.phase.policy, target)
    ensures Runs(c, s, MoveSteps(target)) && MovedTo(s, Last(c, s, MoveSteps(target)), target)
  {
    RenamesTo(c, s, target);
    var s1 := Do(c, s, Plan(target));
    var s2 := Do(c, s1, Prepare);
    var s3 := Do(c, s2, DoRename(false));
    SettlesAt(c, s3);
    var rest := [SyncTarget, SyncSource, Complete];
    hide Do, Enabled, Runs, Last, MayPlan;
    Then(c, s2, DoRename(false), rest);
    Then(c, s1, Prepare, [DoRename(false)] + rest);
    Then(c, s, Plan(target), [Prepare] + ([DoRename(false)] + rest));
    assert [Plan(target)] + ([Prepare] + ([DoRename(false)] + rest)) == MoveSteps(target);
  }

  /** Under the rename policy a target that somebody else took between the plan and the rename costs
      nothing: the same run moves the file to any other free path and completes there, and what took
      the first one stays. Another policy has no such second try. */
  lemma LostRaceEndsElsewhere(c: Config, s0: State, before: seq<Step>, other: string)
    requires Init(s0) && Runs(c, s0, before)
    requires var s := Last(c, s0, before); s.phase.Prepared? && s.phase.target in s.disk.dir && other !in s.disk.dir
    ensures var s := Last(c, s0, before);
            var steps := [Conflict] + MoveSteps(other);
            && s.disk.part.Some?
            && (Enabled(c, s, Conflict) <==> s.phase.policy == Rename)
            && (s.phase.policy == Rename ==>
                  && !Enabled(c, s, DoRename(false)) && !Enabled(c, s, DoRename(true))
                  && Runs(c, s, steps) && MovedTo(s, Last(c, s, steps), other) && other != s.phase.target
                  && Holds(c, Last(c, s, steps).disk, other))
  {
    RunKeepsSafe(c, s0, before);
    var s := Last(c, s0, before);
    assert PartPasses(c, s.disk);
    hide Passes, CrashImage, Safe, MayPlan, Runs, Last;
    FreeMayBePlanned(s.disk.dir, s.phase.wanted, other);
    if s.phase.policy == Rename {
      var s1 := Do(c, s, Conflict);
      assert s1 == s.(phase := Finalizing(s.phase.wanted, Rename));
      MoveCompletes(c, s1, other);
      hide Do, Enabled, MoveSteps;
      Then(c, s, Conflict, MoveSteps(other));
    }
  }

  lemma FreeMayBePlanned(dir: map<string, Entry>, wanted: string, target: string)
    requires target !in dir
    ensures MayPlan(dir, wanted, Rename, target)
  {
  }

  /** After a stop while fetching or verifying, the next start goes on from the part file: nothing
      fetched before the last checkpoint is lost, and with a full bitmap nothing more is fetched. */
  lemma RestartGoesOn(c: Config, s: State)
    requires s.phase == Idle && s.row.state in {FileDownloading, FileVerifying}
    ensures var steps := [MarkForRecovery, Start, OpenPart];
            && Runs(c, s, steps)
            && var t := Last(c, s, steps);
               && t.row == s.row.(state := FileDownloading)
               && t.phase == Fetching(s.row.target, (s.row.full && s.disk.part.Some?) || c.size == 0, c.size == 0)
               && (s.disk.part.Some? && |s.disk.part.value| == c.size ==> t.disk == s.disk)
  {
    hide CrashImage, Passes, DoLookAtTarget, MayPlan;
    var s1 := Do(c, s, MarkForRecovery);
    var s2 := Do(c, s1, Start);
    assert s2.phase == Opening(s.row.target) && s2.disk == s.disk && s2.row == s.row.(state := FileDownloading);
    var t := Do(c, s2, OpenPart);
    hide Do, Enabled, Runs, Last;
    Nothing(c, t);
    Then(c, s2, OpenPart, []);
    Then(c, s1, Start, [OpenPart]);
    Then(c, s, MarkForRecovery, [Start, OpenPart]);
  }

  /** An error while finalizing, such as a conflict that the policy does not resolve, fails the row and
      costs no data: every file stays, and the next start finds all segments there. */
  lemma FinalizeErrorLosesNothing(c: Config, s0: State, before: seq<Step>)
    requires Init(s0) && Runs(c, s0, before) && Orderly(c, s0, before)
    requires Enabled(c, Last(c, s0, before), FinalizeError) && Last(c, s0, before).verified
    ensures var s := Last(c, s0, before);
            var t := Do(c, s, FinalizeError);
            && t.disk == s.disk && t.row == s.row.(state := FileFailed) && t.phase == Idle && PartPasses(c, t.disk)
            && Runs(c, t, [Start, OpenPart])
            && var u := Last(c, t, [Start, OpenPart]);
               u.phase == Fetching(s.row.target, true, c.size == 0) && u.disk == s.disk
  {
    RunKeepsTracked(c, s0, before);
    var s := Last(c, s0, before);
    assert PartPasses(c, s.disk) && s.row.full && |s.disk.part.value| == c.size;
    hide Runs, Last, Tracked, Orderly, Init, PartPasses;
    FailedGoesOn(c, s);
  }

  lemma FailedGoesOn(c: Config, s: State)
    requires Enabled(c, s, FinalizeError) && s.row.full && s.disk.part.Some? && |s.disk.part.value| == c.size
    ensures var t := Do(c, s, FinalizeError);
            && t.disk == s.disk && t.row == s.row.(state := FileFailed) && t.phase == Idle
            && Runs(c, t, [Start, OpenPart])
            && var u := Last(c, t, [Start, OpenPart]);
               u.phase == Fetching(s.row.target, true, c.size == 0) && u.disk == s.disk
  {
    var t := Do(c, s, FinalizeError);
    hide Passes, CrashImage, MayPlan, Runs, Last;
    var t1 := Do(c, t, Start);
    assert t1.phase == Opening(s.row.target) && t1.disk == s.disk && t1.row.full;
    var u := Do(c, t1, OpenPart);
    hide Do, Enabled;
    Nothing(c, u);
    Then(c, t1, OpenPart, []);
    Then(c, t, Start, [OpenPart]);
  }
}
