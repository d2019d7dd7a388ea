/** How the runs and operations of a job end, row by row and state by state, when nothing disturbs them. */
module JobEnds {
  import opened SegmentPlan
  import opened States
  import opened JobLifecycle
  import opened JobSafety

  // ----- sweeps

  /** A sweep over n more rows, and its end. */
  function Sweeps(n: nat): seq<Step> {
    if n == 0 then [SweepEnd] else [SweepRow] + Sweeps(n - 1)
  }

  lemma Onward(s: State, x: Step, rest: seq<Step>)
    requires Enabled(s, x) && Runs(Do(s, x), rest)
    ensures Runs(s, [x] + rest) && Last(s, [x] + rest) == Last(Do(s, x), rest)
  {
    assert ([x] + rest)[1..] == rest;
  }

  lemma Stays(s: State)
    ensures Runs(s, []) && Last(s, []) == s
  {
  }

  lemma {:induction false} SweepRuns(s: State, sweep: Sweep, k: nat, seen: JobState)
    requires s.phase == Sweeping(sweep, k, seen) && k <= |s.files|
    ensures Runs(s, Sweeps(|s.files| - k))
    ensures var t := Last(s, Sweeps(|s.files| - k));
            && t.phase.Off? && t.job == SweptJob(sweep, seen, s.job) && |t.files| == |s.files|
            && forall i :: 0 <= i < |s.files| ==> t.files[i] == if i >= k then Swept(sweep, s.files[i]) else s.files[i]
    decreases |s.files| - k
  {
    hide Swept, SweptJob;
    var x := if k == |s.files| then SweepEnd else SweepRow;
    var t := Do(s, x);
    assert Enabled(s, x);
    if k == |s.files| {
      assert t.phase.Off? && t.job == SweptJob(sweep, seen, s.job) && t.files == s.files;
      hide Do, Enabled, Runs, Last;
      Stays(t);
      Onward(s, SweepEnd, []);
      assert [SweepEnd] + [] == [SweepEnd];
    } else {
      assert t == s.(files := s.files[k := Swept(sweep, s.files[k])], phase := Sweeping(sweep, k + 1, seen));
      hide Do, Enabled, Runs, Last;
      SweepRuns(t, sweep, k + 1, seen);
      Onward(s, SweepRow, Sweeps(|s.files| - k - 1));
    }
  }

  /** A step that begins a sweep, and the sweep. */
  lemma ThenSweeps(s: State, x: Step, sweep: Sweep, seen: JobState)
    requires Enabled(s, x) && Do(s, x).phase == Sweeping(sweep, 0, seen)
    ensures var t, steps := Do(s, x), [x] + Sweeps(|Do(s, x).files|);
            && Runs(s, steps) && Last(s, steps).phase.Off? && Last(s, steps).job == SweptJob(sweep, seen, t.job)
            && |Last(s, steps).files| == |t.files|
            && forall i :: 0 <= i < |t.files| ==> Last(s, steps).files[i] == Swept(sweep, t.files[i])
  {
    hide Do, Enabled, Runs, Last, Swept, SweptJob;
    SweepRuns(Do(s, x), sweep, 0, seen);
    Onward(s, x, Sweeps(|Do(s, x).files|));
  }

  // ----- the end of a run

  predicate QuotaEnd(first: Option<Failure>) { first.Some? && first.value.kind == Quota }

  predicate StopEnd(first: Option<Failure>, cancelled: bool) {
    !QuotaEnd(first) && (cancelled || (first.Some? && first.value.kind == Cancellation))
  }

  predicate PendingEnd(first: Option<Failure>, cancelled: bool) {
    !cancelled && first.Some? && first.value.kind == FinalizationPending
  }

  predicate FailEnd(first: Option<Failure>, cancelled: bool) {
    !cancelled && first.Some? && first.value.kind == Other
  }

  predicate GoodEnd(first: Option<Failure>, cancelled: bool) { !cancelled && first.None? }

  /** The steps with which a run ends once all workers have left. */
  function EndOfRun(rows: nat, first: Option<Failure>, cancelled: bool): seq<Step> {
    [Join] + if GoodEnd(first, cancelled) then [Finish] else if PendingEnd(first, cancelled) then [] else Sweeps(rows)
  }

  ghost predicate RowsBecome(files: seq<FileState>, after: seq<FileState>, open: FileState) {
    && |after| == |files|
    && forall i :: 0 <= i < |files| ==> after[i] == if files[i] == FileCompleted then FileCompleted else open
  }

  ghost predicate RowsPaused(files: seq<FileState>, after: seq<FileState>) {
    && |after| == |files|
    && forall i :: 0 <= i < |files| ==>
         after[i] == if files[i] in {FileDownloading, FileVerifying, FileMoving} then FilePaused else files[i]
  }

  ghost predicate AtJoin(s: State) {
    RowsOk(s) && JobOk(s) && Enabled(s, Join)
  }

  /** What Join finds. */
  lemma JoinFinds(s: State)
    requires AtJoin(s)
    ensures s.phase.Working? && Enabled(s, Join)
    ensures s.phase.first.Some? ==>
              s.phase.first.value.file < |s.files| && s.files[s.phase.first.value.file] != FileCompleted
    ensures Do(s, Join) == DoJoin(s, s.phase.first) && s.job == JobDownloading
  {
    hide Undisturbed, AllCompleted;
  }

  lemma QuotaRun(s: State)
    requires AtJoin(s) && QuotaEnd(s.phase.first)
    ensures var steps := EndOfRun(|s.files|, s.phase.first, s.cancelled);
            && Runs(s, steps) && Last(s, steps).phase.Off? && Last(s, steps).job == JobWaitingQuota
            && RowsBecome(s.files, Last(s, steps).files, FileWaiting)
  {
    hide AtJoin, Do, Enabled, Runs, Last;
    JoinFinds(s);
    ThenSweeps(s, Join, QuotaSweep, JobWaitingQuota);
  }

  lemma StopRun(s: State)
    requires AtJoin(s) && StopEnd(s.phase.first, s.cancelled)
    ensures var steps := EndOfRun(|s.files|, s.phase.first, s.cancelled);
            && Runs(s, steps) && Last(s, steps).phase.Off? && Last(s, steps).job == JobPaused
            && RowsPaused(s.files, Last(s, steps).files)
  {
    hide AtJoin, Do, Enabled, Runs, Last;
    JoinFinds(s);
    ThenSweeps(s, Join, PauseSweep, JobDownloading);
  }

  lemma PendingRun(s: State)
    requires AtJoin(s) && PendingEnd(s.phase.first, s.cancelled)
    ensures var steps := EndOfRun(|s.files|, s.phase.first, s.cancelled);
            && Runs(s, steps) && Last(s, steps).phase.Off? && Last(s, steps).job == JobPausedRecovery
            && Last(s, steps).files == s.files
  {
    hide AtJoin, Do, Enabled, Runs, Last;
    JoinFinds(s);
    Stays(Do(s, Join));
    Onward(s, Join, []);
  }

  lemma FailRun(s: State)
    requires AtJoin(s) && FailEnd(s.phase.first, s.cancelled)
    ensures var steps := EndOfRun(|s.files|, s.phase.first, s.cancelled);
            && Runs(s, steps) && Last(s, steps).phase.Off? && Last(s, steps).job == JobFailed
            && RowsBecome(s.files, Last(s, steps).files, FileFailed)
  {
    hide AtJoin, Do, Enabled, Runs, Last;
    JoinFinds(s);
    var i := s.phase.first.value.file;
    assert Do(s, Join) == DoFail(s, i);
    assert DoFail(s, i).files == s.files[i := FileFailed];
    ThenSweeps(s, Join, FailSweep, JobDownloading);
  }

  lemma GoodRun(s: State)
    requires AtJoin(s) && GoodEnd(s.phase.first, s.cancelled)
    ensures var steps := EndOfRun(|s.files|, s.phase.first, s.cancelled);
            && Runs(s, steps) && Last(s, steps).phase.Off? && Last(s, steps).job == JobCompleted
            && AllCompleted(Last(s, steps).files) && Last(s, steps).files == s.files
  {
    StepKeepsRows(s, Join);
    var t := Do(s, Join);
    assert t.phase == Completing && t.files == s.files && AllCompleted(t.files);
    var u := Do(t, Finish);
    Stays(u);
    hide RowsOk, JobOk, Runs, Last, AllCompleted;
    Onward(t, Finish, []);
    Onward(s, Join, [Finish]);
    assert [Finish] + [] == [Finish];
  }

  /** Which end of a run belongs to which error, over every run whose workers have all left: a quota
      error makes the job and its open rows wait; otherwise a cancellation pauses job and rows; a pending
      finalization parks the job and changes no row; any other error fails the job and its open rows;
      and without an error the job and all its rows are completed. */
  lemma RunEndsBy(s0: State, before: seq<Step>)
    requires Init(s0) && Runs(s0, before) && Punctual(s0, before) && Enabled(Last(s0, before), Join)
    ensures var s := Last(s0, before);
            var first := s.phase.first;
            var steps := EndOfRun(|s.files|, first, s.cancelled);
            && Runs(s, steps)
            && var t := Last(s, steps);
               && t.phase.Off?
               && (t.job == JobWaitingQuota <==> QuotaEnd(first))
               && (QuotaEnd(first) ==> RowsBecome(s.files, t.files, FileWaiting))
               && (t.job == JobPaused <==> StopEnd(first, s.cancelled))
               && (StopEnd(first, s.cancelled) ==> RowsPaused(s.files, t.files))
               && (t.job == JobPausedRecovery <==> PendingEnd(first, s.cancelled))
               && (PendingEnd(first, s.cancelled) ==> t.files == s.files)
               && (t.job == JobFailed <==> FailEnd(first, s.cancelled))
               && (FailEnd(first, s.cancelled) ==> RowsBecome(s.files, t.files, FileFailed))
               && (t.job == JobCompleted <==> GoodEnd(first, s.cancelled))
               && (GoodEnd(first, s.cancelled) ==> AllCompleted(t.files))
  {
    RunKeepsRows(s0, before);
    RunKeepsJob(s0, before);
    var s := Last(s0, before);
    assert AtJoin(s);
    hide RowsOk, JobOk, Runs, Last, Enabled, AllCompleted, EndOfRun, AtJoin;
    if QuotaEnd(s.phase.first) { QuotaRun(s); }
    else if StopEnd(s.phase.first, s.cancelled) { StopRun(s); }
    else if PendingEnd(s.phase.first, s.cancelled) { PendingRun(s); }
    else if FailEnd(s.phase.first, s.cancelled) { FailRun(s); }
    else { GoodRun(s); }
  }

  /** The first failure of a file along the steps. */
  ghost function FirstError(s: State, steps: seq<Step>): Option<Failure>
    requires Runs(s, steps)
    decreases |steps|
  {
    if steps == [] then None
    else if steps[0].FailFile? then Some(Failure(s.phase.workers[steps[0].w].file, steps[0].kind))
    else FirstError(Do(s, steps[0]), steps[1..])
  }

  /** The steps while the file workers are at work. */
  ghost predicate AtWork(steps: seq<Step>) { Join !in steps && Stop !in steps }

  lemma WorkStep(s: State, x: Step)
    requires Enabled(s, x) && s.phase.Working? && x != Join && x != Stop
    ensures var t := Do(s, x);
            && t.phase.Working? && (t.cancelled <==> s.cancelled || x == CancelRun)
            && t.phase.first == if s.phase.first.None? && x.FailFile?
                                then Some(Failure(s.phase.workers[x.w].file, x.kind)) else s.phase.first
  {
    hide AllGone, AllCompleted, FileEdge, JobEdge;
  }

  lemma {:induction false} WorkSteps(s: State, steps: seq<Step>)
    requires Runs(s, steps) && s.phase.Working? && AtWork(steps)
    ensures var t := Last(s, steps);
            && t.phase.Working? && (t.cancelled <==> s.cancelled || CancelRun in steps)
            && t.phase.first == if s.phase.first.Some? then s.phase.first else FirstError(s, steps)
    decreases |steps|
  {
    hide Do, Enabled;
    if steps != [] {
      WorkStep(s, steps[0]);
      assert steps == [steps[0]] + steps[1..];
      assert forall y :: y in steps <==> y == steps[0] || y in steps[1..];
      WorkSteps(Do(s, steps[0]), steps[1..]);
    }
  }

  /** The error that RunEndsBy speaks of is the first one since the workers began: whichever worker fails
      first decides, and no later error changes it. The run counts as cancelled exactly if it was. */
  lemma FirstErrorStands(s0: State, before: seq<Step>, count: nat, steps: seq<Step>)
    requires Init(s0) && Runs(s0, before) && Enabled(Last(s0, before), BeginWork(count))
    requires !Last(s0, before).cancelled && Runs(Do(Last(s0, before), BeginWork(count)), steps) && AtWork(steps)
    ensures var s := Do(Last(s0, before), BeginWork(count));
            var t := Last(s, steps);
            && t.phase.Working? && t.phase.first == FirstError(s, steps) && (t.cancelled <==> CancelRun in steps)
  {
    WorkSteps(Do(Last(s0, before), BeginWork(count)), steps);
    hide Runs, Last, Init, FreeWorkers, AllCompleted;
  }

  // ----- operations outside a run

  lemma MayPause(job: JobState)
    ensures JobEdge(job, JobPaused) <==> job in {JobQueued, JobReady, JobDownloading, JobPaused, JobWaitingQuota}
  {
  }

  /** Pausing a job that does not run: every busy row is paused, and the job where the table has an edge. */
  lemma PauseEnds(s: State)
    requires Enabled(s, Pause)
    ensures var steps := [Pause] + Sweeps(|s.files|);
            && Runs(s, steps) && Last(s, steps).phase.Off? && RowsPaused(s.files, Last(s, steps).files)
            && Last(s, steps).job ==
                 if s.job in {JobQueued, JobReady, JobDownloading, JobPaused, JobWaitingQuota} then JobPaused else s.job
  {
    assert Do(s, Pause) == s.(phase := Sweeping(PauseSweep, 0, s.job));
    MayPause(s.job);
    hide Do, Enabled, Runs, Last, JobEdge;
    ThenSweeps(s, Pause, PauseSweep, s.job);
  }

  /** Cancelling a job that is neither completed nor cancelled cancels it and every open row. */
  lemma CancelEnds(s: State)
    requires Enabled(s, Cancel)
    ensures var steps := [Cancel] + Sweeps(|s.files|);
            && Runs(s, steps) && Last(s, steps).phase.Off? && Last(s, steps).job == JobCancelled
            && RowsBecome(s.files, Last(s, steps).files, FileCancelled)
  {
    assert Do(s, Cancel) == s.(phase := Sweeping(CancelSweep, 0, s.job));
    hide Do, Enabled, Runs, Last;
    ThenSweeps(s, Cancel, CancelSweep, s.job);
  }

  /** Recovery parks exactly the jobs that were busy, and pauses exactly the rows of a parked job whose
      work was cut off; a moving row is left for move recovery. */
  lemma RecoveryParks(s: State)
    requires Enabled(s, Recover)
    ensures var t := Do(s, Recover);
            && t.job == (if s.job in {JobResolving, JobDownloading, JobFinalizing} then JobPausedRecovery else s.job)
            && |t.files| == |s.files|
            && forall i :: 0 <= i < |s.files| ==>
                 (t.files[i] != s.files[i] <==>
                  t.job == JobPausedRecovery && s.files[i] in {FileDownloading, FileVerifying})
                 && (t.files[i] != s.files[i] ==> t.files[i] == FilePaused)
  {
  }

  // ----- the rows a run begins with

  ghost predicate PreparedUpTo(s: State) {
    s.phase.Preparing? ==>
      forall i :: 0 <= i < s.phase.next && i < |s.files| ==> s.files[i] in {FileCompleted, FileDownloading}
  }

  lemma StepKeepsPrepared(s: State, x: Step)
    requires RowsOk(s) && PreparedUpTo(s) && Enabled(s, x)
    ensures PreparedUpTo(Do(s, x))
  {
    if s.phase.Preparing? && x.PrepareFile? {
      var k := s.phase.next;
      assert Do(s, x) == DoPrepare(s, k, x.check);
      assert s.loaded[k] == FileCompleted ==> s.files[k] == FileCompleted;
      hide Do, Enabled, FileEdge, RowsOk, Knows;
    } else {
      hide RowsOk, Enabled, Do;
      OthersKeepPrepared(s, x);
    }
  }

  lemma OthersKeepPrepared(s: State, x: Step)
    requires PreparedUpTo(s) && Enabled(s, x) && !(s.phase.Preparing? && x.PrepareFile?)
    ensures PreparedUpTo(Do(s, x))
  {
    hide FreeWorkers, AllGone, AllCompleted, FileEdge, JobEdge, TerminalJob, Swept, SweptJob, DoPrepare;
  }

  lemma {:induction false} RunKeepsPrepared(s: State, steps: seq<Step>)
    requires RowsOk(s) && PreparedUpTo(s) && Runs(s, steps)
    ensures RowsOk(Last(s, steps)) && PreparedUpTo(Last(s, steps))
    decreases |steps|
  {
    hide RowsOk, PreparedUpTo, Enabled, Do;
    if steps != [] {
      StepKeepsRows(s, steps[0]);
      StepKeepsPrepared(s, steps[0]);
      RunKeepsPrepared(Do(s, steps[0]), steps[1..]);
    }
  }

  /** When the file workers begin, every row is completed or downloading. */
  lemma WorkBeginsPrepared(s: State, steps: seq<Step>, count: nat)
    requires Init(s) && Runs(s, steps) && Enabled(Last(s, steps), BeginWork(count))
    ensures forall row :: row in Last(s, steps).files ==> row in {FileCompleted, FileDownloading}
  {
    RunKeepsPrepared(s, steps);
  }

  /** A row that makes the run fail before any worker begins. */
  predicate Unfit(row: FileState, check: MoveCheck) {
    row in {FileVerifying, FileCancelled} || (row == FileMoving && check.RecoveryError?)
  }

  predicate AlreadyThere(row: FileState, check: MoveCheck) {
    row == FileCompleted || (row == FileMoving && check.Recovered?)
  }

  lemma FitRows(row: FileState)
    ensures FileEdge(row, FileDownloading) <==> row !in {FileVerifying, FileCompleted, FileCancelled}
  {
  }

  lemma UnfitFails(s: State, check: MoveCheck)
    requires RowsOk(s) && JobOk(s) && Enabled(s, PrepareFile(check)) && Unfit(s.loaded[s.phase.next], check)
    ensures var steps := [PrepareFile(check)] + Sweeps(|s.files|);
            && Runs(s, steps)
            && var t := Last(s, steps);
               t.phase.Off? && t.job == JobFailed && RowsBecome(s.files, t.files, FileFailed)
  {
    var k := s.phase.next;
    FitRows(s.loaded[k]);
    assert s.loaded[k] != FileCompleted && s.files[k] != FileCompleted;
    assert Do(s, PrepareFile(check)) == DoPrepare(s, k, check);
    assert DoPrepare(s, k, check) == DoFail(s, k);
    assert s.job == JobDownloading;
    hide Do, Enabled, Runs, Last, RowsOk, JobOk, DoPrepare, FileEdge;
    ThenSweeps(s, PrepareFile(check), FailSweep, JobDownloading);
  }

  /** What becomes of each row before the workers begin, over every run: one that is verifying or
      cancelled, or whose move recovery ends in an error, fails the job and all open rows; one that is
      completed or recovered is completed; any other is downloading. */
  lemma PrepareDecides(s0: State, before: seq<Step>, check: MoveCheck)
    requires Init(s0) && Runs(s0, before) && Punctual(s0, before) && Enabled(Last(s0, before), PrepareFile(check))
    ensures var s := Last(s0, before);
            var k := s.phase.next;
            var steps := [PrepareFile(check)] + Sweeps(|s.files|);
            if Unfit(s.loaded[k], check) then
              && Runs(s, steps) && Last(s, steps).phase.Off? && Last(s, steps).job == JobFailed
              && RowsBecome(s.files, Last(s, steps).files, FileFailed)
            else
              var t := Do(s, PrepareFile(check));
              && t.phase == Preparing(k + 1) && t.job == s.job
              && t.files == s.files[k := if AlreadyThere(s.loaded[k], check) then FileCompleted else FileDownloading]
  {
    RunKeepsRows(s0, before);
    RunKeepsJob(s0, before);
    var s := Last(s0, before);
    if Unfit(s.loaded[s.phase.next], check) {
      UnfitFails(s, check);
    } else {
      FitRows(s.loaded[s.phase.next]);
      FitGoesOn(s, check);
    }
    hide Runs, Last, Do, RowsOk, JobOk, Unfit, AlreadyThere;
  }

  lemma FitGoesOn(s: State, check: MoveCheck)
    requires RowsOk(s) && Enabled(s, PrepareFile(check)) && !Unfit(s.loaded[s.phase.next], check)
    ensures var k, t := s.phase.next, Do(s, PrepareFile(check));
            && t.phase == Preparing(k + 1) && t.job == s.job
            && t.files == s.files[k := if AlreadyThere(s.loaded[k], check) then FileCompleted else FileDownloading]
  {
    var k := s.phase.next;
    FitRows(s.loaded[k]);
    assert Do(s, PrepareFile(check)) == DoPrepare(s, k, check);
    assert s.loaded[k] == FileCompleted ==> s.files[k] == FileCompleted;
    hide Do, Enabled, FileEdge, RowsOk;
  }

  /** A run that was cancelled before its workers begin pauses job and rows. */
  lemma CancelledBeforeWork(s0: State, before: seq<Step>, count: nat)
    requires Init(s0) && Runs(s0, before) && Punctual(s0, before) && Enabled(Last(s0, before), BeginWork(count))
    requires Last(s0, before).cancelled
    ensures var s := Last(s0, before);
            var steps := [BeginWork(count)] + Sweeps(|s.files|);
            && Runs(s, steps) && Last(s, steps).phase.Off? && Last(s, steps).job == JobPaused
            && RowsPaused(s.files, Last(s, steps).files)
  {
    RunKeepsJob(s0, before);
    var s := Last(s0, before);
    assert s.job == JobDownloading && Do(s, BeginWork(count)) == s.(phase := Sweeping(PauseSweep, 0, JobDownloading));
    hide Do, Enabled, Runs, Last, JobOk;
    ThenSweeps(s, BeginWork(count), PauseSweep, JobDownloading);
  }

  // ----- the rows while the workers are at work

  function StageRow(stage: Stage): FileState {
    match stage
    case Fetching => FileDownloading
    case Verifying => FileVerifying
    case Moving => FileMoving
  }

  /** What the row of a worker's file shows. */
  ghost predicate WorkerShows(files: seq<FileState>, worker: Worker) {
    match worker
    case Claimed(i) => i < |files| ==> files[i] in {FileCompleted, FileDownloading}
    case Busy(i, stage) => i < |files| ==> files[i] == StageRow(stage)
    case _ => true
  }

  /** Rows show the stage of whoever works on them; rows not claimed yet are as prepared. */
  ghost predicate RowsShow(s: State) {
    s.phase.Working? ==>
      && (forall w :: w in s.phase.workers ==> WorkerShows(s.files, s.phase.workers[w]))
      && (forall i :: s.phase.counter <= i < |s.files| ==> s.files[i] in {FileCompleted, FileDownloading})
  }

  /** Worker w and the row of its file change, and nothing else that RowsShow speaks of. */
  lemma OneShows(s: State, t: State, w: nat, i: nat, row: FileState)
    requires RowsOk(s) && RowsShow(s) && Is(s, w) && Holding(s.phase.workers[w]) && s.phase.workers[w].file == i
    requires t.phase.Working? && t.phase.counter == s.phase.counter && i < |s.files|
    requires w in t.phase.workers && t.phase.workers == s.phase.workers[w := t.phase.workers[w]]
    requires t.files == s.files[i := row] && WorkerShows(t.files, t.phase.workers[w])
    ensures RowsShow(t)
  {
    hide Knows, Undisturbed, AllCompleted;
    forall v | v in t.phase.workers ensures WorkerShows(t.files, t.phase.workers[v]) {
      if v != w { assert WorkerShows(s.files, s.phase.workers[v]); }
    }
  }

  lemma ClaimShows(s: State, w: nat)
    requires RowsOk(s) && RowsShow(s) && Enabled(s, Claim(w))
    ensures RowsShow(Do(s, Claim(w)))
  {
    hide Exclusive, Undisturbed, AllCompleted;
    var t := Do(s, Claim(w));
    forall v | v in t.phase.workers ensures WorkerShows(t.files, t.phase.workers[v]) {
      if v != w { assert WorkerShows(s.files, s.phase.workers[v]); }
    }
  }

  lemma WorkerStepShows(s: State, x: Step)
    requires RowsOk(s) && RowsShow(s) && Enabled(s, x) && ByWorker(x)
    ensures RowsShow(Do(s, x))
  {
    if x.Claim? {
      ClaimShows(s, x.w);
    } else {
      var worker, t := s.phase.workers[x.w], Do(s, x);
      HeldIsOpen(s, x.w, worker.file);
      assert WorkerShows(s.files, worker);
      hide RowsOk, RowsShow, AllGone;
      assert s.files == s.files[worker.file := s.files[worker.file]];
      OneShows(s, t, x.w, worker.file, t.files[worker.file]);
    }
  }

  lemma StepShows(s: State, x: Step)
    requires RowsOk(s) && PreparedUpTo(s) && RowsShow(s) && Enabled(s, x)
    ensures RowsShow(Do(s, x))
  {
    if ByWorker(x) {
      WorkerStepShows(s, x);
    } else if x.BeginWork? {
      hide AllCompleted;
    } else {
      hide RowsOk, PreparedUpTo, FreeWorkers, AllGone, AllCompleted, FileEdge, JobEdge, TerminalJob, WorkerShows;
    }
  }

  lemma {:induction false} RunShows(s: State, steps: seq<Step>)
    requires RowsOk(s) && PreparedUpTo(s) && RowsShow(s) && Runs(s, steps)
    ensures RowsOk(Last(s, steps)) && RowsShow(Last(s, steps))
    decreases |steps|
  {
    hide RowsOk, PreparedUpTo, RowsShow, Enabled, Do;
    if steps != [] {
      StepKeepsRows(s, steps[0]);
      StepKeepsPrepared(s, steps[0]);
      StepShows(s, steps[0]);
      RunShows(Do(s, steps[0]), steps[1..]);
    }
  }

  /** Over every run: the persisted row of a file shows what its worker is doing. */
  lemma BusyRowsShowStage(s: State, steps: seq<Step>, w: nat)
    requires Init(s) && Runs(s, steps) && Is(Last(s, steps), w) && Last(s, steps).phase.workers[w].Busy?
    ensures var t := Last(s, steps);
            var i := t.phase.workers[w].file;
            && i < |t.files|
            && t.files[i] == match t.phase.workers[w].stage
                             case Fetching => FileDownloading
                             case Verifying => FileVerifying
                             case Moving => FileMoving
  {
    RunShows(s, steps);
    var t := Last(s, steps);
    hide Runs, Last, Init;
    HeldIsOpen(t, w, t.phase.workers[w].file);
    assert WorkerShows(t.files, t.phase.workers[w]);
  }

  /** A worker whose file fails leaves, and the row is failed if the failure is one of the file itself, or
      else keeps showing how far the file got; no other row and no other worker changes. */
  lemma FailureShows(s0: State, steps: seq<Step>, w: nat, kind: ErrorKind, markRow: bool)
    requires Init(s0) && Runs(s0, steps) && Enabled(Last(s0, steps), FailFile(w, kind, markRow))
    ensures var s := Last(s0, steps);
            var i, stage, t := s.phase.workers[w].file, s.phase.workers[w].stage, Do(s, FailFile(w, kind, markRow));
            && i < |s.files| && t.phase.Working? && t.phase.workers == s.phase.workers[w := Gone]
            && t.files == s.files[i := if markRow then FileFailed else StageRow(stage)]
  {
    BusyRowsShowStage(s0, steps, w);
    var s := Last(s0, steps);
    var i := s.phase.workers[w].file;
    assert s.files == s.files[i := s.files[i]];
    assert Do(s, FailFile(w, kind, markRow)) == DoFailFile(s, w, kind, markRow);
    hide Runs, Last, Init, Do;
  }

  // ----- starting again

  lemma MayLaunch(job: JobState)
    ensures JobEdge(job, JobDownloading) && !TerminalJob(job) <==>
              job in {JobQueued, JobReady, JobDownloading, JobPaused, JobPausedRecovery, JobWaitingQuota}
  {
  }

  /** A job that may be resumed is queued with its rows as they are, and its next launch downloads. */
  lemma ResumedJobRuns(s: State)
    requires Enabled(s, Resume)
    ensures var steps := [Resume, Launch];
            && Do(s, Resume).job == JobQueued && Do(s, Resume).files == s.files && Runs(s, steps)
            && var t := Last(s, steps);
               && t.job == JobDownloading && t.phase == Preparing(0) && t.loaded == t.files == s.files && !t.cancelled
  {
    MayLaunch(JobQueued);
    var s1 := Do(s, Resume);
    var t := Do(s1, Launch);
    hide Do, Enabled, Runs, Last, JobEdge;
    Stays(t);
    Onward(s1, Launch, []);
    Onward(s, Resume, [Launch]);
  }

  /** A job that a stop cut off while it ran is parked by recovery, and with automatic starts queued again. */
  lemma ParkedJobRestarts(s: State)
    requires s.phase.Off? && s.job in {JobDownloading, JobFinalizing, JobResolving}
    ensures var steps := [Recover, ListJobs, AutoStart, Launch];
            && Runs(s, steps)
            && var t := Last(s, steps);
               t.job == JobDownloading && t.phase == Preparing(0) && t.loaded == t.files == Do(s, Recover).files
  {
    MayLaunch(JobQueued);
    var s1 := Do(s, Recover);
    assert s1.job == JobPausedRecovery && s1.phase.Off?;
    var s2 := Do(s1, ListJobs);
    var s3 := Do(s2, AutoStart);
    var t := Do(s3, Launch);
    assert t.job == JobDownloading && t.phase == Preparing(0) && t.loaded == t.files == s1.files by { hide DoRecover; }
    hide Do, Enabled, Runs, Last, JobEdge, DoRecover;
    Stays(t);
    Onward(s3, Launch, []);
    Onward(s2, AutoStart, [Launch]);
    Onward(s1, ListJobs, [AutoStart, Launch]);
    Onward(s, Recover, [ListJobs, AutoStart, Launch]);
  }
}
