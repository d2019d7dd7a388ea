/** Job-state safety over whole runs. */
module JobSafety {
  import opened SegmentPlan
  import opened States
  import opened JobLifecycle

  // ----- workers

  /** What a claim at the counter makes of a worker. */
  function Claimant(counter: nat, loaded: seq<FileState>): Worker {
    if counter >= |loaded| then Gone else if loaded[counter] == FileCompleted then Free else Claimed(counter)
  }

  lemma ClaimStaysExclusive(workers: map<nat, Worker>, w: nat, counter: nat, done: set<nat>, first: Option<Failure>,
                            loaded: seq<FileState>)
    requires w in workers && workers[w].Free? && Exclusive(workers, counter, done, first, loaded)
    ensures Exclusive(workers[w := Claimant(counter, loaded)], counter + 1, done, first, loaded)
  {
  }

  lemma ClaimStaysUndisturbed(workers: map<nat, Worker>, w: nat, counter: nat, done: set<nat>, loaded: seq<FileState>)
    requires w in workers && workers[w].Free? && Undisturbed(workers, counter, done, loaded)
    ensures Undisturbed(workers[w := Claimant(counter, loaded)], counter + 1, done, loaded)
  {
    var workers' := workers[w := Claimant(counter, loaded)];
    assert w in workers';
    hide AllCompleted;
    forall i: nat | i < counter + 1 && i < |loaded|
      ensures loaded[i] == FileCompleted || i in done || SomeHolds(workers', i)
    {
      if i == counter {
        assert loaded[i] != FileCompleted ==> workers'[w] == Claimed(i);
      } else if SomeHolds(workers, i) {
        var v :| v in workers && Holding(workers[v]) && workers[v].file == i;
        assert v != w && Holding(workers'[v]) && workers'[v].file == i;
      }
    }
  }

  /** A worker goes on with the file it holds. */
  lemma GoOnKeeps(workers: map<nat, Worker>, w: nat, worker: Worker, counter: nat, done: set<nat>,
                  first: Option<Failure>, loaded: seq<FileState>)
    requires w in workers && Exclusive(workers, counter, done, first, loaded)
    requires Holding(workers[w]) && Holding(worker) && worker.file == workers[w].file
    ensures var workers' := workers[w := worker];
            && Exclusive(workers', counter, done, first, loaded)
            && (Undisturbed(workers, counter, done, loaded) ==> Undisturbed(workers', counter, done, loaded))
  {
    var workers' := workers[w := worker];
    assert w in workers';
    if Undisturbed(workers, counter, done, loaded) {
      forall i: nat | i < counter && i < |loaded|
        ensures loaded[i] == FileCompleted || i in done || SomeHolds(workers', i)
      {
        if SomeHolds(workers, i) {
          var v :| v in workers && Holding(workers[v]) && workers[v].file == i;
          assert Holding(workers'[v]) && workers'[v].file == i;
        }
      }
    }
  }

  /** A worker completes its file and is free again. */
  lemma CompleteKeeps(workers: map<nat, Worker>, w: nat, file: nat, counter: nat, done: set<nat>,
                      first: Option<Failure>, loaded: seq<FileState>)
    requires w in workers && Holding(workers[w]) && workers[w].file == file
              && Exclusive(workers, counter, done, first, loaded)
    ensures var workers' := workers[w := Free];
            && Exclusive(workers', counter, done + {file}, first, loaded)
            && (Undisturbed(workers, counter, done, loaded) ==> Undisturbed(workers', counter, done + {file}, loaded))
  {
    var workers' := workers[w := Free];
    assert w in workers';
    if Undisturbed(workers, counter, done, loaded) {
      forall i: nat | i < counter && i < |loaded|
        ensures loaded[i] == FileCompleted || i in done + {file} || SomeHolds(workers', i)
      {
        if SomeHolds(workers, i) && i != file {
          var v :| v in workers && Holding(workers[v]) && workers[v].file == i;
          assert v != w && Holding(workers'[v]) && workers'[v].file == i;
        }
      }
    }
  }

  /** A worker leaves, on its own or with the first error. */
  lemma LeaveKeeps(workers: map<nat, Worker>, w: nat, file: nat, counter: nat, done: set<nat>, first: Option<Failure>,
                   loaded: seq<FileState>, kind: ErrorKind)
    requires w in workers && Holding(workers[w]) && workers[w].file == file
              && Exclusive(workers, counter, done, first, loaded)
    ensures Exclusive(workers[w := Gone], counter, done, first, loaded)
    ensures first.None? ==> Exclusive(workers[w := Gone], counter, done, Some(Failure(file, kind)), loaded)
  {
    var workers' := workers[w := Gone];
  }

  lemma StartKeeps(count: nat, loaded: seq<FileState>)
    requires count > 0 || AllCompleted(loaded)
    ensures Exclusive(FreeWorkers(count), 0, {}, None, loaded) && Undisturbed(FreeWorkers(count), 0, {}, loaded)
  {
    if count > 0 { assert 0 in FreeWorkers(count); }
  }

  /** When nobody is left, nothing went wrong and the run was not cancelled, every row is completed. */
  lemma AllAccounted(workers: map<nat, Worker>, counter: nat, done: set<nat>, files: seq<FileState>,
                     loaded: seq<FileState>)
    requires Knows(files, loaded, done) && AllGone(workers) && Undisturbed(workers, counter, done, loaded)
    ensures AllCompleted(files)
  {
    forall i: nat | i < |files| ensures files[i] == FileCompleted {
      if w :| w in workers {
        assert counter >= |loaded| && !SomeHolds(workers, i);
      }
    }
  }

  // ----- steps

  predicate ByWorker(x: Step) {
    x.Claim? || x.Take? || x.Abandon? || x.SaveProgress? || x.BeginVerify? || x.PrepareMove? || x.CompleteFile?
        || x.FailFile?
  }

  /** The row of a held file is not completed. */
  lemma HeldIsOpen(s: State, w: nat, i: nat)
    requires RowsOk(s) && Is(s, w) && Holding(s.phase.workers[w]) && s.phase.workers[w].file == i
    ensures i < |s.files| && s.files[i] != FileCompleted && i !in s.phase.done
  {
  }

  /** A worker changes the row of the file it holds to a state other than completed. */
  lemma RowChange(s: State, i: nat, row: FileState)
    requires RowsOk(s) && s.phase.Working? && i < |s.files| && s.files[i] != FileCompleted && row != FileCompleted
    ensures Knows(s.files[i := row], s.loaded, s.phase.done) && RowsKept(s, SetRow(s, i, row))
    ensures s.job != JobCompleted
  {
    hide Exclusive, Undisturbed;
  }

  lemma ClaimStep(s: State, w: nat)
    requires RowsOk(s) && Enabled(s, Claim(w))
    ensures RowsOk(Do(s, Claim(w))) && RowsKept(s, Do(s, Claim(w)))
  {
    hide Exclusive, Undisturbed, AllCompleted, FreeWorkers, AllGone;
    var p := s.phase;
    ClaimStaysExclusive(p.workers, w, p.counter, p.done, p.first, s.loaded);
    if !s.cancelled && p.first.None? { ClaimStaysUndisturbed(p.workers, w, p.counter, p.done, s.loaded); }
  }

  lemma WorkerStep(s: State, x: Step)
    requires RowsOk(s) && Enabled(s, x) && ByWorker(x)
    ensures RowsOk(Do(s, x)) && RowsKept(s, Do(s, x))
  {
    var worker := s.phase.workers[x.w];
    hide RowsOk, RowsKept, Do, AllGone;
    if x.Claim? {
      ClaimStep(s, x.w);
    } else {
      HeldIsOpen(s, x.w, worker.file);
      HolderStep(s, x, x.w, worker.file);
    }
  }

  lemma CompleteStep(s: State, w: nat, i: nat)
    requires RowsOk(s) && Enabled(s, CompleteFile(w)) && s.phase.workers[w].file == i && i < |s.files|
    ensures RowsOk(Do(s, CompleteFile(w))) && RowsKept(s, Do(s, CompleteFile(w)))
  {
    hide Exclusive, Undisturbed, AllGone;
    var p := s.phase;
    CompleteKeeps(p.workers, w, i, p.counter, p.done, p.first, s.loaded);
  }

  lemma HolderStep(s: State, x: Step, w: nat, i: nat)
    requires RowsOk(s) && Enabled(s, x) && ByWorker(x) && !x.Claim? && x.w == w && Holding(s.phase.workers[w])
              && s.phase.workers[w].file == i
    requires i < |s.files| && s.files[i] != FileCompleted && i !in s.phase.done
    ensures RowsOk(Do(s, x)) && RowsKept(s, Do(s, x))
  {
    var p := s.phase;
    match x
    case Take(_) =>
      hide Exclusive, Undisturbed, AllCompleted, AllGone;
      GoOnKeeps(p.workers, w, Busy(i, Fetching), p.counter, p.done, p.first, s.loaded);
    case Abandon(_) =>
      hide Exclusive, Undisturbed, AllCompleted, AllGone;
      LeaveKeeps(p.workers, w, i, p.counter, p.done, p.first, s.loaded, Other);
    case SaveProgress(_) =>
      hide Exclusive, Undisturbed, AllCompleted, AllGone, Knows, RowsKept;
      RowChange(s, i, FileDownloading);
    case BeginVerify(_) =>
      hide Exclusive, Undisturbed, AllCompleted, AllGone, Knows;
      RowChange(s, i, FileVerifying);
      GoOnKeeps(p.workers, w, Busy(i, Verifying), p.counter, p.done, p.first, s.loaded);
    case PrepareMove(_) =>
      hide Exclusive, Undisturbed, AllCompleted, AllGone, Knows;
      RowChange(s, i, FileMoving);
      GoOnKeeps(p.workers, w, Busy(i, Moving), p.counter, p.done, p.first, s.loaded);
    case CompleteFile(_) =>
      hide RowsOk, Enabled, Do, RowsKept;
      CompleteStep(s, w, i);
    case FailFile(_, kind, _) =>
      hide Exclusive, Undisturbed, AllCompleted, AllGone, Knows;
      RowChange(s, i, FileFailed);
      LeaveKeeps(p.workers, w, i, p.counter, p.done, p.first, s.loaded, kind);
  }

  lemma JoinStep(s: State)
    requires RowsOk(s) && Enabled(s, Join)
    ensures RowsOk(Do(s, Join)) && RowsKept(s, Do(s, Join))
  {
    var p := s.phase;
    if p.first.None? && !s.cancelled { AllAccounted(p.workers, p.counter, p.done, s.files, s.loaded); }
    hide Undisturbed;
    if p.first.Some? { assert s.files[p.first.value.file] != FileCompleted; }
  }

  lemma PrepareStep(s: State, check: MoveCheck)
    requires RowsOk(s) && Enabled(s, PrepareFile(check))
    ensures RowsOk(Do(s, PrepareFile(check))) && RowsKept(s, Do(s, PrepareFile(check)))
  {
    var k := s.phase.next;
    assert s.loaded[k] != FileCompleted ==> s.files[k] != FileCompleted && s.job != JobCompleted;
    assert Do(s, PrepareFile(check)) == DoPrepare(s, k, check);
    hide Exclusive, Undisturbed, FileEdge, AllCompleted, Do, Enabled;
  }

  lemma OtherStep(s: State, x: Step)
    requires RowsOk(s) && Enabled(s, x) && !ByWorker(x) && !x.Join? && !x.PrepareFile?
    ensures RowsOk(Do(s, x)) && RowsKept(s, Do(s, x))
  {
    hide Exclusive, Undisturbed, FreeWorkers;
    if x.BeginWork? { StartKeeps(x.count, s.loaded); }
  }

  /** Every step, punctual or not, keeps the rows in order. */
  lemma StepKeepsRows(s: State, x: Step)
    requires RowsOk(s) && Enabled(s, x)
    ensures RowsOk(Do(s, x)) && RowsKept(s, Do(s, x))
  {
    hide RowsOk, Enabled, Do, RowsKept;
    if ByWorker(x) { WorkerStep(s, x); }
    else if x.Join? { JoinStep(s); }
    else if x.PrepareFile? { PrepareStep(s, x.check); }
    else { OtherStep(s, x); }
  }

  /** A sweep settles one more row, and at its end all of them. */
  lemma SweepStep(s: State, x: Step)
    requires EndedOk(s) && Enabled(s, x) && (x.SweepRow? || x.SweepEnd?)
    ensures EndedOk(Do(s, x))
  {
  }

  lemma StepKeepsEnded(s: State, x: Step)
    requires EndedOk(s) && Enabled(s, x)
    ensures EndedOk(Do(s, x))
  {
    if x.SweepRow? || x.SweepEnd? {
      hide EndedOk, Enabled, Do;
      SweepStep(s, x);
    } else {
      hide FreeWorkers, FileEdge, AllGone, AllCompleted, RowsIn;
      if x.Recover? { assert s.job in {JobCancelled, JobFailed} ==> DoRecover(s).files == s.files; }
    }
  }

  /** Every step in time follows the table. */
  lemma StepKeepsJob(s: State, x: Step)
    requires JobOk(s) && Enabled(s, x) && InTime(s, x)
    ensures JobOk(Do(s, x)) && JobEdge(s.job, Do(s, x).job)
  {
    hide FreeWorkers, FileEdge, AllGone, AllCompleted;
  }

  lemma {:induction false} RunKeepsEnded(s: State, steps: seq<Step>)
    requires EndedOk(s) && Runs(s, steps)
    ensures EndedOk(Last(s, steps))
    decreases |steps|
  {
    hide EndedOk, Enabled, Do;
    if steps != [] {
      StepKeepsEnded(s, steps[0]);
      RunKeepsEnded(Do(s, steps[0]), steps[1..]);
    }
  }

  lemma {:induction false} RunKeepsRows(s: State, steps: seq<Step>)
    requires RowsOk(s) && Runs(s, steps)
    ensures RowsOk(Last(s, steps)) && RowsKept(s, Last(s, steps))
    decreases |steps|
  {
    hide RowsOk, Enabled, Do;
    if steps != [] {
      StepKeepsRows(s, steps[0]);
      RunKeepsRows(Do(s, steps[0]), steps[1..]);
    }
  }

  lemma {:induction false} RunKeepsJob(s: State, steps: seq<Step>)
    requires JobOk(s) && Runs(s, steps) && Punctual(s, steps)
    ensures JobOk(Last(s, steps)) && JobHistory(Jobs(s, steps))
    decreases |steps|
  {
    hide JobOk, Enabled, Do, InTime;
    if steps != [] {
      StepKeepsJob(s, steps[0]);
      RunKeepsJob(Do(s, steps[0]), steps[1..]);
      HistoryGrows(s.job, Jobs(Do(s, steps[0]), steps[1..]));
    }
  }

  lemma HistoryGrows(job: JobState, rest: seq<JobState>)
    requires rest != []
    ensures JobHistory([job] + rest) <==> JobEdge(job, rest[0]) && JobHistory(rest)
  {
    hide JobEdge;
    var h := [job] + rest;
    assert h[0] == job && h[1] == rest[0] && forall i :: 0 <= i < |rest| ==> rest[i] == h[i + 1];
    if JobHistory(h) {
      assert JobEdge(h[0], h[1]);
      forall i | 0 <= i < |rest| - 1 ensures JobEdge(rest[i], rest[i + 1]) { assert JobEdge(h[i + 1], h[i + 2]); }
    }
    if JobEdge(job, rest[0]) && JobHistory(rest) {
      forall i | 0 <= i < |h| - 1 ensures JobEdge(h[i], h[i + 1]) {
        if i > 0 { assert JobEdge(rest[i - 1], rest[i]); }
      }
    }
  }

  /** A write of Start that is not in time is no edge. */
  lemma {:induction false} HistoryIsPunctual(s: State, steps: seq<Step>)
    requires Runs(s, steps) && JobHistory(Jobs(s, steps))
    ensures Punctual(s, steps)
    decreases |steps|
  {
    hide Enabled, JobHistory;
    if steps != [] {
      HistoryGrows(s.job, Jobs(Do(s, steps[0]), steps[1..]));
      LateIsNoEdge(s, steps[0]);
      hide Do, InTime, JobEdge;
      HistoryIsPunctual(Do(s, steps[0]), steps[1..]);
    }
  }

  lemma LateIsNoEdge(s: State, x: Step)
    requires Enabled(s, x) && JobEdge(s.job, Do(s, x).job)
    ensures InTime(s, x)
  {
    if x.AutoStart? { assert Do(s, x).job == JobQueued; }
    hide Do, Enabled;
  }

  // ----- the laws

  /** Over every run, with crashes anywhere: every change of the persisted job state is an edge of the
      transition table exactly if each write of Start finds the job neither running nor completed nor
      cancelled; completed and cancelled are then never left. */
  lemma EveryChangeIsAnEdge(s: State, steps: seq<Step>, i: nat, j: nat)
    requires Init(s) && Runs(s, steps) && i <= j <= |steps|
    ensures var h := Jobs(s, steps);
            && (JobHistory(h) <==> Punctual(s, steps))
            && (Punctual(s, steps) && (h[i] == JobCompleted || h[i] == JobCancelled) ==> h[j] == h[i])
  {
    var h := Jobs(s, steps);
    if JobHistory(h) { HistoryIsPunctual(s, steps); }
    if Punctual(s, steps) {
      RunKeepsJob(s, steps);
      if h[i] == JobCompleted || h[i] == JobCancelled { AbsorbingStates(h, i, j); }
    }
  }

  /** On every run, punctual or not, a job is persisted completed only when every one of its file rows
      is completed. */
  lemma CompletedJobHasCompletedFiles(s: State, steps: seq<Step>)
    requires Init(s) && Runs(s, steps) && Last(s, steps).job == JobCompleted
    ensures AllCompleted(Last(s, steps).files)
  {
    RunKeepsRows(s, steps);
  }

  /** On every run a cancelled job has no open file row left, and a failed job only rows that a later run or a
      cancellation may take up again. */
  lemma EndedJobsHaveEndedFiles(s: State, steps: seq<Step>)
    requires Init(s) && Runs(s, steps)
    ensures var t := Last(s, steps);
            && (t.job == JobCancelled ==> RowsIn(t.files, {FileCompleted, FileCancelled}))
            && (t.job == JobFailed ==> RowsIn(t.files, {FileCompleted, FileFailed, FileCancelled}))
  {
    RunKeepsEnded(s, steps);
  }

  /** A completed file row stays completed through pauses, failures, quota waits, cancellation,
      recovery, late writes of Start and later runs. */
  lemma CompletedFilesStay(s: State, steps: seq<Step>, more: seq<Step>, i: nat)
    requires Init(s) && Runs(s, steps) && Runs(Last(s, steps), more) && i < |s.files|
    ensures var t := Last(s, steps);
            && |t.files| == |s.files| == |Last(t, more).files|
            && (t.files[i] == FileCompleted ==> Last(t, more).files[i] == FileCompleted)
  {
    RunKeepsRows(s, steps);
    RunKeepsRows(Last(s, steps), more);
  }

  // ----- where the laws stop

  lemma Then(s: State, x: Step, rest: seq<Step>)
    requires Enabled(s, x) && Runs(Do(s, x), rest)
    ensures Runs(s, [x] + rest) && Jobs(s, [x] + rest) == [s.job] + Jobs(Do(s, x), rest)
  {
    assert ([x] + rest)[1..] == rest;
  }

  /** The list of Start can be stale: a recovered job that was queued before Start may be running when
      Start writes queued over its state, and downloading to queued is no edge. */
  lemma StaleStartIsNoEdge(s: State)
    requires s.phase.Off? && s.job == JobPausedRecovery
    ensures Runs(s, [ListJobs, Launch, AutoStart]) && !JobHistory(Jobs(s, [ListJobs, Launch, AutoStart]))
  {
    hide Do, Enabled, Jobs, Runs, JobHistory;
    StaleSteps(s);
    var s1 := Do(s, ListJobs);
    var s2 := Do(s1, Launch);
    var s3 := Do(s2, AutoStart);
    Here(s3);
    Then(s2, AutoStart, []);
    assert [AutoStart] + [] == [AutoStart];
    Then(s1, Launch, [AutoStart]);
    assert [Launch] + [AutoStart] == [Launch, AutoStart];
    Then(s, ListJobs, [Launch, AutoStart]);
    assert [ListJobs] + [Launch, AutoStart] == [ListJobs, Launch, AutoStart];
    NoHistory(Jobs(s, [ListJobs, Launch, AutoStart]), 2);
  }

  lemma Here(s: State)
    ensures Runs(s, []) && Jobs(s, []) == [s.job]
  {
  }

  lemma StaleSteps(s: State)
    requires s.phase.Off? && s.job == JobPausedRecovery
    ensures Enabled(s, ListJobs) && Enabled(Do(s, ListJobs), Launch)
    ensures var s2 := Do(Do(s, ListJobs), Launch);
            s2.job == JobDownloading && Enabled(s2, AutoStart) && Do(s2, AutoStart).job == JobQueued
  {
    var s1 := Do(s, ListJobs);
    assert s1 == s.(listed := true);
    var s2 := Do(s1, Launch);
    assert s2.job == JobDownloading && s2.listed;
  }

  lemma NoHistory(h: seq<JobState>, i: nat)
    requires i + 1 < |h| && !JobEdge(h[i], h[i + 1])
    ensures !JobHistory(h)
  {
  }
}
