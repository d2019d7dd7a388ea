/** The persisted life of one queue-dispatched job: its state, its file rows, the run that changes
    them and the operations of other callers. Each database update is one step, and so is a crash or
    an early return between any two of them. */
module JobLifecycle {
  import opened SegmentPlan
  import opened States

  datatype ErrorKind = Quota | Cancellation | FinalizationPending | Other

  datatype Failure = Failure(file: nat, kind: ErrorKind)

  datatype Stage = Fetching | Verifying | Moving

  /** A file worker of runJob. */
  datatype Worker = Free | Claimed(file: nat) | Busy(file: nat, stage: Stage) | Gone

  /** The loops of pauseJob, enterWaitingQuota, failJob and cancelPersistedJob over the file rows. */
  datatype Sweep = PauseSweep | QuotaSweep | FailSweep | CancelSweep

  datatype Phase =
    | Off
    | Preparing(next: nat)
    | Working(counter: nat, workers: map<nat, Worker>, done: set<nat>, first: Option<Failure>)
    | Completing
    | Sweeping(sweep: Sweep, next: nat, seen: JobState)

  /** loaded: the file states as runJob holds them; cancelled: the run's context is cancelled; listed:
      the list that Start has read shows the job as paused for recovery. */
  datatype State = State(
    job: JobState, files: seq<FileState>, phase: Phase, loaded: seq<FileState>, cancelled: bool, listed: bool)

  datatype MoveCheck = Recovered | NotMoved | RecoveryError

  datatype Step =
    | Launch | CancelRun | PrepareFile(check: MoveCheck) | BeginWork(count: nat)
    | Claim(w: nat) | Take(w: nat) | Abandon(w: nat)
    | SaveProgress(w: nat) | BeginVerify(w: nat) | PrepareMove(w: nat) | CompleteFile(w: nat)
    | FailFile(w: nat, kind: ErrorKind, markRow: bool)
    | Join | Finish | SweepRow | SweepEnd
    | Stop | Recover | ListJobs | AutoStart | Resume | Pause | Cancel

  function Swept(sweep: Sweep, row: FileState): FileState {
    match sweep
    case PauseSweep => if row in {FileDownloading, FileVerifying, FileMoving} then FilePaused else row
    case QuotaSweep => if row == FileCompleted then row else FileWaiting
    case FailSweep => if row == FileCompleted then row else FileFailed
    case CancelSweep => if row == FileCompleted then row else FileCancelled
  }

  /** The job state after the last row; pauseJob and failJob ask the table first, with the state that
      they read before the sweep. */
  function SweptJob(sweep: Sweep, seen: JobState, job: JobState): JobState {
    match sweep
    case PauseSweep => if JobEdge(seen, JobPaused) then JobPaused else job
    case QuotaSweep => job
    case FailSweep => if JobEdge(seen, JobFailed) then JobFailed else job
    case CancelSweep => JobCancelled
  }

  predicate Is(s: State, w: nat) { s.phase.Working? && w in s.phase.workers }

  predicate InStage(s: State, w: nat, stage: Stage) {
    Is(s, w) && s.phase.workers[w].Busy? && s.phase.workers[w].stage == stage && s.phase.workers[w].file < |s.files|
  }

  ghost predicate AllGone(workers: map<nat, Worker>) {
    forall w :: w in workers ==> workers[w].Gone?
  }

  ghost predicate AllCompleted(rows: seq<FileState>) {
    forall i :: 0 <= i < |rows| ==> rows[i] == FileCompleted
  }

  ghost predicate Enabled(s: State, x: Step) {
    match x
    case Launch => s.phase.Off? && !TerminalJob(s.job) && JobEdge(s.job, JobDownloading)
    case CancelRun => true
    case PrepareFile(_) => s.phase.Preparing? && s.phase.next < |s.loaded| == |s.files|
    case BeginWork(count) => s.phase.Preparing? && s.phase.next == |s.loaded| && (count > 0 || AllCompleted(s.loaded))
    case Claim(w) => Is(s, w) && s.phase.workers[w].Free?
    case Take(w) => Is(s, w) && s.phase.workers[w].Claimed?
    case Abandon(w) => Is(s, w) && s.phase.workers[w].Claimed? && (s.cancelled || s.phase.first.Some?)
    case SaveProgress(w) => InStage(s, w, Fetching)
    case BeginVerify(w) => InStage(s, w, Fetching)
    case PrepareMove(w) => InStage(s, w, Verifying) || InStage(s, w, Moving)
    case CompleteFile(w) => InStage(s, w, Moving)
    case FailFile(w, _, _) => InStage(s, w, Fetching) || InStage(s, w, Verifying) || InStage(s, w, Moving)
    case Join => s.phase.Working? && AllGone(s.phase.workers) && (s.phase.first.Some?
        ==> s.phase.first.value.file < |s.files|)
    case Finish => s.phase.Completing?
    case SweepRow => s.phase.Sweeping? && s.phase.next < |s.files|
    case SweepEnd => s.phase.Sweeping? && s.phase.next >= |s.files|
    case Stop => true
    case Recover => s.phase.Off?
    case ListJobs => s.phase.Off?
    case AutoStart => s.listed
    case Resume => s.phase.Off? && (!TerminalJob(s.job) || s.job == JobFailed) && JobEdge(s.job, JobQueued)
    case Pause => s.phase.Off? && !TerminalJob(s.job)
    case Cancel => s.phase.Off? && s.job != JobCompleted && s.job != JobCancelled
  }

  function SetRow(s: State, i: nat, row: FileState): State
    requires i < |s.files|
  {
    s.(files := s.files[i := row])
  }

  /** failJob: the failing file's row, then the sweep over the others. */
  function DoFail(s: State, i: nat): State
    requires i < |s.files|
  {
    SetRow(s, i, FileFailed).(phase := Sweeping(FailSweep, 0, s.job))
  }

  /** One turn of the first loop of runJob. */
  function DoPrepare(s: State, k: nat, check: MoveCheck): State
    requires k < |s.loaded| == |s.files|
  {
    if s.loaded[k] == FileCompleted then s.(phase := Preparing(k + 1))
    else if s.loaded[k] == FileMoving && check.Recovered? then
      SetRow(s, k, FileCompleted).(loaded := s.loaded[k := FileCompleted], phase := Preparing(k + 1))
    else if s.loaded[k] == FileMoving && check.RecoveryError? then DoFail(s, k)
    else if !FileEdge(s.loaded[k], FileDownloading) then DoFail(s, k)
    else SetRow(s, k, FileDownloading).(loaded := s.loaded[k := FileDownloading], phase := Preparing(k + 1))
  }

  function SetWorker(p: Phase, w: nat, k: Worker): Phase
    requires p.Working?
  {
    p.(workers := p.workers[w := k])
  }

  /** claim: one atomic add; completed rows are passed over. */
  function DoClaim(s: State, w: nat): State
    requires Is(s, w)
  {
    var p := s.phase;
    var worker := if p.counter >= |s.loaded| then Gone else if s.loaded[p.counter] == FileCompleted then Free
                  else Claimed(p.counter);
    s.(phase := SetWorker(p, w, worker).(counter := p.counter + 1))
  }

  /** The first error decides the fate of the run. */
  function DoFailFile(s: State, w: nat, kind: ErrorKind, markRow: bool): State
    requires Is(s, w) && s.phase.workers[w].Busy? && s.phase.workers[w].file < |s.files|
  {
    var p, i := s.phase, s.phase.workers[w].file;
    var s' := if markRow then SetRow(s, i, FileFailed) else s;
    s'.(phase := SetWorker(p, w, Gone).(first := if p.first.Some? then p.first else Some(Failure(i, kind))))
  }

  /** What runJob does when all workers have left. */
  function DoJoin(s: State, first: Option<Failure>): State
    requires first.Some? ==> first.value.file < |s.files|
  {
    if first.Some? then
      if first.value.kind.Quota? then s.(job := JobWaitingQuota, phase := Sweeping(QuotaSweep, 0, JobWaitingQuota))
      else if s.cancelled || first.value.kind.Cancellation? then s.(phase := Sweeping(PauseSweep, 0, s.job))
      else if first.value.kind.FinalizationPending? then s.(job := JobPausedRecovery, phase := Off)
      else DoFail(s, first.value.file)
    else if s.cancelled then s.(phase := Sweeping(PauseSweep, 0, s.job))
    else s.(job := JobFinalizing, phase := Completing)
  }

  function FreeWorkers(n: nat): (r: map<nat, Worker>)
    ensures forall w: nat :: (w in r <==> w < n) && (w in r ==> r[w] == Free)
  {
    if n == 0 then map[] else FreeWorkers(n - 1)[n - 1 := Free]
  }

  /** MarkDownloadsForRecovery, one transaction. */
  function DoRecover(s: State): State {
    var job := if ActiveJob(s.job) then JobPausedRecovery else s.job;
    var files := if job != JobPausedRecovery then s.files
                 else seq(|s.files|, i requires 0 <= i < |s.files| =>
                            if s.files[i] in {FileDownloading, FileVerifying} then FilePaused else s.files[i]);
    s.(job := job, files := files, listed := false)
  }

  function Do(s: State, x: Step): State
    requires Enabled(s, x)
  {
    var p := s.phase;
    match x
    case Launch => s.(job := JobDownloading, phase := Preparing(0), loaded := s.files, cancelled := false)
    case CancelRun => s.(cancelled := true)
    case PrepareFile(check) => DoPrepare(s, p.next, check)
    case BeginWork(count) =>
      if s.cancelled then s.(phase := Sweeping(PauseSweep, 0, s.job))
      else s.(phase := Working(0, FreeWorkers(count), {}, None))
    case Claim(w) => DoClaim(s, w)
    case Take(w) => s.(phase := SetWorker(p, w, Busy(p.workers[w].file, Fetching)))
    case Abandon(w) => s.(phase := SetWorker(p, w, Gone))
    case SaveProgress(w) => SetRow(s, p.workers[w].file, FileDownloading)
    case BeginVerify(w) =>
      SetRow(s, p.workers[w].file, FileVerifying).(phase := SetWorker(p, w, Busy(p.workers[w].file, Verifying)))
    case PrepareMove(w) =>
      SetRow(s, p.workers[w].file, FileMoving).(phase := SetWorker(p, w, Busy(p.workers[w].file, Moving)))
    case CompleteFile(w) =>
      SetRow(s, p.workers[w].file, FileCompleted).(
        phase := SetWorker(p, w, Free).(done := p.done + {p.workers[w].file}))
    case FailFile(w, kind, markRow) => DoFailFile(s, w, kind, markRow)
    case Join => DoJoin(s, p.first)
    case Finish => s.(job := JobCompleted, phase := Off)
    case SweepRow => SetRow(s, p.next, Swept(p.sweep, s.files[p.next])).(phase := Sweeping(p.sweep, p.next + 1, p.seen))
    case SweepEnd => s.(job := SweptJob(p.sweep, p.seen, s.job), phase := Off)
    case Stop => s.(phase := Off)
    case Recover => DoRecover(s)
    case ListJobs => s.(listed := s.job == JobPausedRecovery)
    case AutoStart => s.(job := JobQueued, listed := false)
    case Resume => s.(job := JobQueued)
    case Pause => s.(phase := Sweeping(PauseSweep, 0, s.job))
    case Cancel => s.(phase := Sweeping(CancelSweep, 0, s.job))
  }

  /** A new job: queued or only ready, no file completed. */
  ghost predicate Init(s: State) {
    s.job in {JobQueued, JobReady} && s.phase.Off? && forall i :: 0 <= i < |s.files| ==> s.files[i] == FilePending
  }

  ghost predicate Runs(s: State, steps: seq<Step>)
    decreases |steps|
  {
    steps == [] || (Enabled(s, steps[0]) && Runs(Do(s, steps[0]), steps[1..]))
  }

  ghost function Last(s: State, steps: seq<Step>): State
    requires Runs(s, steps)
    decreases |steps|
  {
    if steps == [] then s else Last(Do(s, steps[0]), steps[1..])
  }

  /** Whenever Start writes queued from its list, the job is not running, completed or cancelled. */
  ghost predicate Punctual(s: State, steps: seq<Step>)
    requires Runs(s, steps)
    decreases |steps|
  {
    steps == [] || (InTime(s, steps[0]) && Punctual(Do(s, steps[0]), steps[1..]))
  }

  ghost predicate InTime(s: State, x: Step) {
    x.AutoStart? ==> s.job !in {JobDownloading, JobFinalizing, JobCompleted, JobCancelled}
  }

  /** The job states along a run. */
  ghost function Jobs(s: State, steps: seq<Step>): (h: seq<JobState>)
    requires Runs(s, steps)
    ensures |h| == |steps| + 1 && h[0] == s.job
    decreases |steps|
  {
    if steps == [] then [s.job] else [s.job] + Jobs(Do(s, steps[0]), steps[1..])
  }

  // ----- the invariant

  /** The rows that runJob believes completed are the completed ones, up to those done since. */
  ghost predicate Knows(files: seq<FileState>, loaded: seq<FileState>, done: set<nat>) {
    |loaded| == |files| && forall i :: 0 <= i < |files| ==> (files[i] == FileCompleted
        <==> loaded[i] == FileCompleted || i in done)
  }

  predicate Holding(worker: Worker) { worker.Claimed? || worker.Busy? }

  /** Each file is held by at most one worker, and only while it is neither completed nor failed. */
  ghost predicate Exclusive(workers: map<nat, Worker>, next: nat, done: set<nat>, first: Option<Failure>,
                            loaded: seq<FileState>) {
    && (forall v, w :: v in workers && w in workers && Holding(workers[v]) && Holding(workers[w]) && v != w ==>
          workers[v].file != workers[w].file)
    && (forall w :: w in workers && Holding(workers[w]) ==>
          && workers[w].file < next && workers[w].file < |loaded| && loaded[workers[w].file] != FileCompleted
          && workers[w].file !in done && (first.Some? ==> workers[w].file != first.value.file))
    && (first.Some? ==> first.value.file < next && first.value.file < |loaded|
                        && loaded[first.value.file] != FileCompleted && first.value.file !in done)
    && (forall i :: i in done ==> i < next)
  }

  ghost predicate SomeHolds(workers: map<nat, Worker>, i: nat) {
    exists w :: w in workers && Holding(workers[w]) && workers[w].file == i
  }

  /** While nothing went wrong, every index below the counter is accounted for and nobody left early. */
  ghost predicate Undisturbed(workers: map<nat, Worker>, next: nat, done: set<nat>, loaded: seq<FileState>) {
    && (forall i: nat :: i < next && i < |loaded| ==> loaded[i] == FileCompleted || i in done || SomeHolds(workers, i))
    && (forall w :: w in workers && workers[w].Gone? ==> next >= |loaded|)
    && ((forall w :: w !in workers) ==> AllCompleted(loaded))
  }

  /** The first n rows are as the sweep leaves them. */
  ghost predicate SweptUpTo(sweep: Sweep, rows: seq<FileState>, n: nat) {
    forall i :: 0 <= i < |rows| && i < n ==> Swept(sweep, rows[i]) == rows[i]
  }

  ghost predicate RowsIn(rows: seq<FileState>, allowed: set<FileState>) {
    forall i :: 0 <= i < |rows| ==> rows[i] in allowed
  }

  /** What the rows and the run know of each other, whatever the job state is. */
  ghost predicate RowsOk(s: State) {
    && (s.job == JobCompleted ==> AllCompleted(s.files))
    && match s.phase
       case Preparing(_) => Knows(s.files, s.loaded, {})
       case Working(next, workers, done, first) =>
         && Knows(s.files, s.loaded, done) && Exclusive(workers, next, done, first, s.loaded)
         && (!s.cancelled && first.None? ==> Undisturbed(workers, next, done, s.loaded))
       case Completing => AllCompleted(s.files)
       case _ => true
  }

  /** What a cancelled or failed job says about the rows. */
  ghost predicate EndedOk(s: State) {
    && (s.job == JobCancelled ==> s.phase.Off? && RowsIn(s.files, {FileCompleted, FileCancelled}))
    && (s.job == JobFailed ==> && (s.phase.Off? || (s.phase.Sweeping? && s.phase.sweep.CancelSweep?))
                               && RowsIn(s.files, {FileCompleted, FileFailed, FileCancelled}))
    && (s.phase.Sweeping? ==> SweptUpTo(s.phase.sweep, s.files, s.phase.next))
  }

  /** What the job state says about the run. */
  ghost predicate JobOk(s: State) {
    match s.phase
       case Off => true
       case Preparing(_) => s.job == JobDownloading
       case Working(_, _, _, _) => s.job == JobDownloading
       case Completing => s.job == JobFinalizing
       case Sweeping(sweep, next, seen) =>
         && s.job != JobCompleted && s.job != JobCancelled && (s.job == JobFailed ==> sweep.CancelSweep?)
         && (s.job == seen || s.job == JobQueued) && (sweep.FailSweep? ==> s.job == JobDownloading)
  }

  /** Rows are neither added nor dropped, and completed rows stay. */
  ghost predicate RowsKept(s: State, t: State) {
    && |t.files| == |s.files|
    && forall i :: 0 <= i < |s.files| && s.files[i] == FileCompleted ==> t.files[i] == FileCompleted
  }
}
