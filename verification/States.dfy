/** The lifecycle tables of jobs and files. */
module States {

  datatype JobState =
    | JobQueued | JobResolving | JobReady | JobDownloading | JobPaused | JobPausedRecovery
    | JobWaitingQuota | JobFinalizing | JobCompleted | JobFailed | JobCancelled

  datatype FileState =
    | FilePending | FileDownloading | FilePaused | FileWaiting | FileVerifying
    | FileMoving | FileCompleted | FileFailed | FileCancelled

  function JobTargets(from: JobState): set<JobState> {
    match from
    case JobQueued => {JobResolving, JobDownloading, JobPaused, JobCancelled}
    case JobResolving => {JobReady, JobQueued, JobPausedRecovery, JobFailed, JobCancelled}
    case JobReady => {JobQueued, JobDownloading, JobPaused, JobCancelled}
    case JobDownloading => {JobPaused, JobPausedRecovery, JobWaitingQuota, JobFinalizing, JobFailed, JobCancelled}
    case JobPaused => {JobQueued, JobDownloading, JobCancelled}
    case JobPausedRecovery => {JobQueued, JobDownloading, JobCancelled}
    case JobWaitingQuota => {JobQueued, JobDownloading, JobPaused, JobCancelled, JobFailed}
    case JobFinalizing => {JobCompleted, JobFailed, JobPausedRecovery, JobCancelled}
    case JobCompleted => {}
    case JobFailed => {JobQueued, JobCancelled}
    case JobCancelled => {}
  }

  function FileTargets(from: FileState): set<FileState> {
    match from
    case FilePending => {FileDownloading, FilePaused, FileCancelled}
    case FileDownloading => {FilePaused, FileWaiting, FileVerifying, FileFailed, FileCancelled}
    case FilePaused => {FileDownloading, FileCancelled}
    case FileWaiting => {FileDownloading, FilePaused, FileFailed, FileCancelled}
    case FileVerifying => {FileMoving, FileFailed, FilePaused}
    case FileMoving => {FileDownloading, FileCompleted, FileFailed, FilePaused}
    case FileCompleted => {}
    case FileFailed => {FileDownloading, FileCancelled}
    case FileCancelled => {}
  }

  /** TransitionJobState returns no error. */
  predicate JobEdge(from: JobState, to: JobState) { from == to || to in JobTargets(from) }

  /** TransitionFileState returns no error. */
  predicate FileEdge(from: FileState, to: FileState) { from == to || to in FileTargets(from) }

  predicate TerminalJob(s: JobState) { s == JobCompleted || s == JobFailed || s == JobCancelled }

  predicate ActiveJob(s: JobState) { s == JobResolving || s == JobDownloading || s == JobFinalizing }

  /** A sequence of states in which every change is an edge of the table. */
  ghost predicate JobHistory(h: seq<JobState>) {
    forall i :: 0 <= i < |h| - 1 ==> JobEdge(h[i], h[i + 1])
  }

  /** Nothing leaves completed or cancelled. */
  lemma {:induction false} AbsorbingStates(h: seq<JobState>, i: nat, j: nat)
    requires JobHistory(h) && i <= j < |h| && (h[i] == JobCompleted || h[i] == JobCancelled)
    ensures h[j] == h[i]
    decreases j - i
  {
    if i < j { AbsorbingStates(h, i + 1, j); }
  }

  /** A file that is completed was moving before that, verifying before that, and downloading before
      that. */
  lemma CompletedFilesWereVerified(h: seq<FileState>, k: nat)
    requires FileHistory(h) && k < |h| && h[0] == FilePending && h[k] == FileCompleted
    ensures exists a, b, d ::
              0 < a < b < d < k && h[a] == FileDownloading && h[b] == FileVerifying && h[d] == FileMoving
  {
    var d := LastOutside(h, {FileCompleted}, k);
    var b := LastOutside(h, {FileMoving, FileCompleted}, d);
    var a := LastOutside(h, {FileVerifying, FileMoving, FileCompleted}, b);
    assert h[a] == FileDownloading && h[b] == FileVerifying && h[d] == FileMoving;
  }

  ghost predicate FileHistory(h: seq<FileState>) {
    forall i :: 0 <= i < |h| - 1 ==> FileEdge(h[i], h[i + 1])
  }

  /** Where the history last was before it entered the set it is in at k. */
  lemma {:induction false} LastOutside(h: seq<FileState>, inside: set<FileState>, k: nat) returns (i: nat)
    requires FileHistory(h) && k < |h| && h[0] !in inside && h[k] in inside
    ensures i < k && h[i] !in inside && h[i + 1] in inside && FileEdge(h[i], h[i + 1])
  {
    i := k - 1;
    if h[i] in inside { i := LastOutside(h, inside, i); }
  }
}
