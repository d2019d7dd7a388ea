/** The controls of running jobs: who sets which flag, and when a run is stopped. */
module DispatcherControls {
  import opened SegmentPlan
  import opened Dispatcher
  import opened DispatcherRuns
  import opened DispatcherSafety

  /** The steps do not yet finish the job. */
  ghost predicate NotYetFinished(s: System, steps: seq<Step>, job: string)
    requires Runs(s, steps)
    decreases |steps|
  {
    || steps == []
    || (&& !(steps[0].EndFinish? && s.mode.Finishing? && s.mode.job == job)
        && NotYetFinished(Do(s, steps[0]), steps[1..], job))
  }

  /** What a step makes of the control of a job that it does not finish. */
  function ControlAfter(c: Control, x: Step, job: string): Control {
    match x
    case PauseQueue => c.(queuePauseRequested := true, stopped := true)
    case PauseJob(j) => if j == job then c.(pauseRequested := true, stopped := true) else c
    case CancelJob(j, d) =>
      if j == job then c.(cancelRequested := true, deletePartialFiles := d, stopped := true) else c
    case Stop => c.(stopped := true)
    case _ => c
  }

  predicate Finishes(s: System, x: Step, job: string) {
    x.Drain? || (x.EndFinish? && s.mode.Finishing? && s.mode.job == job)
  }

  lemma ControlStep(s: System, x: Step, job: string)
    requires Inv(s) && Enabled(s, x) && job in s.book.controls && !Finishes(s, x, job)
    ensures job in Do(s, x).book.controls
    ensures Do(s, x).book.controls[job] == ControlAfter(s.book.controls[job], x, job)
  {
    assert job !in s.book.pending;
    hide Inv, Do, Enabled, ControlAfter;
    if MovesJobs(x) { ControlKeptByMove(s, x, job); } else { ControlChanged(s, x, job); }
  }

  predicate MovesJobs(x: Step) {
    x.StartJob? || x.EndFinish? || x.Launch? || x.ResumeQueue? || x.DeleteJob? || x.Promote? || x.Receive?
  }

  lemma ControlKeptByMove(s: System, x: Step, job: string)
    requires Enabled(s, x) && MovesJobs(x) && job in s.book.controls && !Finishes(s, x, job) && job !in s.book.pending
    ensures job in Do(s, x).book.controls
    ensures Do(s, x).book.controls[job] == ControlAfter(s.book.controls[job], x, job)
  {
    var b := s.book;
    hide Enumerates, DoneOfAll, Enqueued, Finished, QueueResumed, Popped, Compacted, Promoted, FinishStarted;
    match x
    case StartJob(j, priority) => EnqueueMarks(b, j, priority);
    case EndFinish => FinishMarks(b, s.mode.job, s.mode.requeue);
    case Launch(at) =>
      assert Do(s, x) == DoLaunch(s, at);
      LaunchFlags(b, at, job);
    case ResumeQueue(order) => ResumeFlags(b, order);
    case DeleteJob(j) => CompactFlags(b.(pending := b.pending - {j}));
    case Promote(order) => PromoteMarks(b, order);
    case Receive => if s.results[0] in b.controls { StartFlags(b, s.results[0]); }
  }

  lemma ControlChanged(s: System, x: Step, job: string)
    requires Enabled(s, x) && !MovesJobs(x) && job in s.book.controls && !Finishes(s, x, job)
    ensures job in Do(s, x).book.controls
    ensures Do(s, x).book.controls[job] == ControlAfter(s.book.controls[job], x, job)
  {
    var b := s.book;
    hide Enumerates, DoneOfAll, LeastAt, QueuePaused, JobCancelled, JobPaused, ActiveStopped;
    match x
    case PauseQueue => AskFlags(b, job);
    case Stop => AskFlags(b, job);
    case PauseJob(j) => PauseFlags(b, j, job);
    case CancelJob(j, d) => CancelFlags(b, j, d, job);
    case _ =>
  }

  lemma PromoteMarks(b: Book, order: seq<string>)
    requires Enumerates(order, b.pending.Keys)
    ensures var p := Promoted(b, order);
            p.pausedIds == b.pausedIds && p.controls == b.controls && p.queuePaused == b.queuePaused
  {
  }

  lemma EnqueueMarks(b: Book, job: string, priority: int)
    ensures var e := Enqueued(b, job, priority);
            e.pausedIds == b.pausedIds && e.controls == b.controls && e.queuePaused == b.queuePaused
  {
  }

  lemma FinishMarks(b: Book, job: string, requeue: bool)
    ensures var f := Finished(b, job, requeue);
            f.pausedIds == b.pausedIds && f.controls == b.controls - {job} && f.queuePaused == b.queuePaused
  {
  }

  lemma AskFlags(b: Book, job: string)
    requires job in b.controls
    ensures var p := QueuePaused(b);
            job in p.controls && p.controls[job] == b.controls[job].(queuePauseRequested := true, stopped := true)
    ensures var p := ActiveStopped(b); job in p.controls && p.controls[job] == b.controls[job].(stopped := true)
  {
  }

  lemma CancelFlags(b: Book, j: string, d: bool, job: string)
    requires job in b.controls
    ensures var c := JobCancelled(b, j, d);
            && job in c.controls
            && c.controls[job] ==
                 if j == job then b.controls[job].(cancelRequested := true, deletePartialFiles := d, stopped := true)
                 else b.controls[job]
  {
  }

  lemma PauseFlags(b: Book, j: string, job: string)
    requires job in b.controls
    ensures var p := JobPaused(b, j);
            && job in p.controls
            && p.controls[job] ==
                 if j == job then b.controls[job].(pauseRequested := true, stopped := true) else b.controls[job]
  {
    hide OnlyFresh;
  }

  lemma StartFlags(b: Book, j: string)
    requires j in b.controls
    ensures FinishStarted(b, j).controls == b.controls
  {
  }

  lemma CompactFlags(b: Book)
    ensures Compacted(b).controls == b.controls
  {
  }

  lemma LaunchFlags(b: Book, at: nat, job: string)
    requires at < |b.queue| && job in b.controls && job !in b.pending
    ensures var p := Popped(b, at); job in p.controls && p.controls[job] == b.controls[job]
  {
    hide Without;
  }

  lemma {:induction false} RequeueFlags(b: Book, order: seq<string>)
    ensures RequeuedAll(b, order).controls == b.controls
    decreases |order|
  {
    if order != [] {
      RequeueFlags(b, order[..|order| - 1]);
      RequeuedAllStep(b, order);
      hide RequeuedAll, OnlyFresh;
    }
  }

  lemma ResumeFlags(b: Book, order: seq<string>)
    ensures QueueResumed(b, order).controls == b.controls
  {
    RequeueFlags(b.(queuePaused := false), order);
    hide RequeuedAll;
  }

  lemma StaysDone(s: System, x: Step)
    requires Inv(s) && Enabled(s, x) && s.mode.Done?
    ensures Do(s, x).mode.Done? && forall j :: j !in Do(s, x).book.controls
  {
    StepKeepsInv(s, x);
    hide Inv, Enumerates, DoneOfAll, LeastAt;
    assert Do(s, x).mode.Done?;
    DoneIsEmpty(Do(s, x));
  }

  lemma DoneIsEmpty(s: System)
    requires Inv(s) && s.mode.Done?
    ensures forall j :: j !in s.book.controls
  {
  }

  // ----- a run is stopped exactly when somebody asked

  predicate StopWanted(c: Control) { c.pauseRequested || c.queuePauseRequested || c.cancelRequested }

  ghost predicate StoppedIfAsked(s: System) {
    forall j :: j in s.book.controls ==>
      (s.book.controls[j].stopped <==> StopWanted(s.book.controls[j]) || s.mode.Draining?)
  }

  /** A job that had no control before the step has just been launched. */
  lemma NewControl(s: System, x: Step, job: string)
    requires Inv(s) && Enabled(s, x) && job !in s.book.controls && job in Do(s, x).book.controls
    ensures x.Launch? && s.mode.Launching? && Do(s, x).mode.Launching? && Fresh(s.book.pending, s.book.queue[x.at])
    ensures s.book.queue[x.at].job == job
    ensures Do(s, x).book.controls[job] == Control(s.book.queue[x.at].sequence, false, false, false, false, false)
  {
    if !x.Launch? { NoNewControl(s, x, job); }
    hide Inv, Enabled, Do;
    LaunchControl(s, x, job);
  }

  lemma LaunchControl(s: System, x: Step, job: string)
    requires Enabled(s, x) && x.Launch? && job !in s.book.controls && job in Do(s, x).book.controls
    ensures s.mode.Launching? && Do(s, x).mode.Launching? && Fresh(s.book.pending, s.book.queue[x.at])
    ensures s.book.queue[x.at].job == job
    ensures Do(s, x).book.controls[job] == Control(s.book.queue[x.at].sequence, false, false, false, false, false)
  {
    assert Do(s, x) == DoLaunch(s, x.at);
    hide Do, Without, LeastAt;
  }

  lemma NoNewControl(s: System, x: Step, job: string)
    requires Enabled(s, x) && !x.Launch? && job !in s.book.controls
    ensures job !in Do(s, x).book.controls
  {
    if MovesJobs(x) { NoneByMove(s, x, job); } else { NoneElse(s, x, job); }
  }

  lemma NoneByMove(s: System, x: Step, job: string)
    requires Enabled(s, x) && MovesJobs(x) && !x.Launch? && job !in s.book.controls
    ensures job !in Do(s, x).book.controls
  {
    var b := s.book;
    hide Enumerates, DoneOfAll, Enqueued, Finished, QueueResumed, Popped, Compacted, Promoted, FinishStarted;
    match x
    case StartJob(j, priority) => EnqueueMarks(b, j, priority);
    case EndFinish => FinishMarks(b, s.mode.job, s.mode.requeue);
    case ResumeQueue(order) => ResumeFlags(b, order);
    case DeleteJob(j) => CompactFlags(b.(pending := b.pending - {j}));
    case Promote(order) => PromoteMarks(b, order);
    case Receive => if s.results[0] in b.controls { StartFlags(b, s.results[0]); }
  }

  lemma NoneElse(s: System, x: Step, job: string)
    requires Enabled(s, x) && !MovesJobs(x) && job !in s.book.controls
    ensures job !in Do(s, x).book.controls
  {
    var b := s.book;
    hide Enumerates, DoneOfAll, LeastAt, QueuePaused, JobCancelled, JobPaused, ActiveStopped;
    match x
    case PauseQueue => AskKeys(b);
    case Stop => AskKeys(b);
    case PauseJob(j) => PauseKeys(b, j, job);
    case CancelJob(j, d) => CancelKeys(b, j, d);
    case _ =>
  }

  lemma AskKeys(b: Book)
    ensures QueuePaused(b).controls.Keys == b.controls.Keys && ActiveStopped(b).controls.Keys == b.controls.Keys
  {
  }

  lemma PauseKeys(b: Book, j: string, job: string)
    requires job !in b.controls
    ensures job !in JobPaused(b, j).controls
  {
    hide OnlyFresh;
  }

  lemma CancelKeys(b: Book, j: string, d: bool)
    ensures JobCancelled(b, j, d).controls.Keys == b.controls.Keys
  {
  }

  lemma ModeAfter(s: System, x: Step)
    requires Enabled(s, x) && !x.Drain?
    ensures Do(s, x).mode.Draining? <==> s.mode.Draining? || x.Stop?
  {
    hide Enumerates, DoneOfAll, LeastAt;
  }

  lemma StepKeepsAsked(s: System, x: Step)
    requires Inv(s) && StoppedIfAsked(s) && Enabled(s, x)
    ensures StoppedIfAsked(Do(s, x))
  {
    var t := Do(s, x);
    if x.Drain? {
      DrainEmpties(s, x.order);
    } else {
      hide Inv, Do, Enabled;
      forall j | j in t.book.controls
        ensures t.book.controls[j].stopped <==> StopWanted(t.book.controls[j]) || t.mode.Draining?
      {
        ControlKeepsAsked(s, x, j);
      }
    }
  }

  lemma ControlKeepsAsked(s: System, x: Step, job: string)
    requires Inv(s) && StoppedIfAsked(s) && Enabled(s, x) && !x.Drain? && job in Do(s, x).book.controls
    ensures var t := Do(s, x); t.book.controls[job].stopped <==> StopWanted(t.book.controls[job]) || t.mode.Draining?
  {
    hide Inv, Do, Enabled;
    ModeAfter(s, x);
    if job !in s.book.controls {
      NewControl(s, x, job);
    } else {
      NotFinished(s, x, job);
      ControlStep(s, x, job);
      hide Finishes;
    }
  }

  lemma DrainEmpties(s: System, order: seq<string>)
    requires Enabled(s, Drain(order))
    ensures Do(s, Drain(order)).book.controls == map[] && Do(s, Drain(order)).mode.Done?
  {
    hide Enumerates, DoneOfAll;
  }

  /** A job that keeps its control has not been finished. */
  lemma NotFinished(s: System, x: Step, job: string)
    requires Enabled(s, x) && job in Do(s, x).book.controls
    ensures !Finishes(s, x, job)
  {
    if x.Drain? { DrainEmpties(s, x.order); }
    if x.EndFinish? { FinishMarks(s.book, s.mode.job, s.mode.requeue); }
    hide Do, Enabled, Finished;
  }

  lemma {:induction false} RunKeepsAsked(s: System, steps: seq<Step>)
    requires Inv(s) && StoppedIfAsked(s) && Runs(s, steps)
    ensures StoppedIfAsked(Last(s, steps))
    decreases |steps|
  {
    hide Inv, Enabled, Do, StoppedIfAsked;
    if steps != [] {
      StepKeepsInv(s, steps[0]);
      StepKeepsAsked(s, steps[0]);
      RunKeepsAsked(Do(s, steps[0]), steps[1..]);
    }
  }

  /** Over every run: a job with a control is stopped exactly if a pause of it, a pause of the queue or its
      cancellation was requested, or the queue goroutine is shutting down. */
  lemma StoppedExactlyIfAsked(s: System, steps: seq<Step>, job: string)
    requires Init(s) && Runs(s, steps) && job in Last(s, steps).book.controls
    ensures var t := Last(s, steps);
            var c := t.book.controls[job];
            c.stopped <==> c.pauseRequested || c.queuePauseRequested || c.cancelRequested || t.mode.Draining?
  {
    RunKeepsAsked(s, steps);
  }

  // ----- the flags since the launch

  /** What the last CancelJob of the job asked for. */
  function LastCancel(steps: seq<Step>, job: string): Option<bool> {
    if steps == [] then None
    else if LastCancel(steps[1..], job).Some? then LastCancel(steps[1..], job)
    else if steps[0].CancelJob? && steps[0].job == job then Some(steps[0].deletePartial)
    else None
  }

  ghost predicate Cancels(steps: seq<Step>, job: string) {
    exists i :: 0 <= i < |steps| && steps[i].CancelJob? && steps[i].job == job
  }

  lemma {:induction false} GoneStaysGone(s: System, steps: seq<Step>)
    requires Inv(s) && Runs(s, steps) && s.mode.Done?
    ensures forall j :: j !in Last(s, steps).book.controls
    decreases |steps|
  {
    hide Inv, Enabled, Do;
    if steps == [] {
      DoneIsEmpty(s);
    } else {
      StepKeepsInv(s, steps[0]);
      StaysDone(s, steps[0]);
      GoneStaysGone(Do(s, steps[0]), steps[1..]);
    }
  }

  /** The flags of a control after steps that do not finish its job, from what they were before. */
  ghost predicate FlagsFrom(c: Control, d: Control, steps: seq<Step>, job: string) {
    && d.sequence == c.sequence
    && (d.pauseRequested <==> c.pauseRequested || PauseJob(job) in steps)
    && (d.queuePauseRequested <==> c.queuePauseRequested || PauseQueue in steps)
    && (d.cancelRequested <==> c.cancelRequested || Cancels(steps, job))
    && d.deletePartialFiles ==
         if LastCancel(steps, job).Some? then LastCancel(steps, job).value else c.deletePartialFiles
  }

  lemma FlagsStep(c: Control, d: Control, x: Step, rest: seq<Step>, job: string)
    requires FlagsFrom(ControlAfter(c, x, job), d, rest, job)
    ensures FlagsFrom(c, d, [x] + rest, job)
  {
    var steps := [x] + rest;
    assert steps[1..] == rest && steps[0] == x;
    assert forall y :: y in steps <==> y == x || y in rest;
    CancelsStep(x, rest, job);
    hide Cancels;
  }

  lemma CancelsStep(x: Step, rest: seq<Step>, job: string)
    ensures Cancels([x] + rest, job) <==> (x.CancelJob? && x.job == job) || Cancels(rest, job)
  {
    var steps := [x] + rest;
    if x.CancelJob? && x.job == job { assert steps[0] == x; }
    if Cancels(rest, job) {
      var i :| 0 <= i < |rest| && rest[i].CancelJob? && rest[i].job == job;
      assert steps[i + 1] == rest[i];
    }
  }

  lemma {:induction false} FlagsAfter(s: System, steps: seq<Step>, job: string)
    requires Inv(s) && Runs(s, steps) && NotYetFinished(s, steps, job)
    requires job in s.book.controls && job in Last(s, steps).book.controls
    ensures FlagsFrom(s.book.controls[job], Last(s, steps).book.controls[job], steps, job)
    decreases |steps|
  {
    hide Inv, Enabled, Do, FlagsFrom, ControlAfter;
    if steps == [] {
      FlagsHere(s.book.controls[job], job);
    } else {
      var x, n := steps[0], Do(s, steps[0]);
      StepKeepsInv(s, x);
      if x.Drain? {
        DrainEmpties(s, x.order);
        GoneStaysGone(n, steps[1..]);
      } else {
        ControlStep(s, x, job);
        FlagsAfter(n, steps[1..], job);
        FlagsStep(s.book.controls[job], Last(s, steps).book.controls[job], x, steps[1..], job);
        assert [x] + steps[1..] == steps;
      }
    }
  }

  lemma FlagsHere(c: Control, job: string)
    ensures FlagsFrom(c, c, [], job)
  {
  }

  /** From the launch of a job to the end of its finishJob, over every run: each request flag is set
      exactly if its request came since, and the partial files are to be deleted exactly if the last
      cancellation of the job asked for it. */
  lemma FlagsSinceLaunch(s0: System, before: seq<Step>, at: nat, steps: seq<Step>)
    requires Init(s0) && Runs(s0, before)
    requires var s := Last(s0, before);
             && Enabled(s, Launch(at)) && Fresh(s.book.pending, s.book.queue[at])
             && Runs(Do(s, Launch(at)), steps) && NotYetFinished(Do(s, Launch(at)), steps, s.book.queue[at].job)
             && s.book.queue[at].job in Last(Do(s, Launch(at)), steps).book.controls
    ensures var s := Last(s0, before);
            var job, t := s.book.queue[at].job, Last(Do(s, Launch(at)), steps);
            var c := t.book.controls[job];
            && c.sequence == s.book.queue[at].sequence
            && (c.pauseRequested <==> PauseJob(job) in steps)
            && (c.queuePauseRequested <==> PauseQueue in steps)
            && (c.cancelRequested <==> Cancels(steps, job))
            && (c.deletePartialFiles <==> LastCancel(steps, job) == Some(true))
  {
    Reachable(s0, before);
    var s := Last(s0, before);
    var job, n := s.book.queue[at].job, Do(s, Launch(at));
    StepKeepsInv(s, Launch(at));
    LaunchedFresh(s, at);
    hide Inv, Do, Enabled, Runs, Last, NotYetFinished;
    FlagsAfter(n, steps, job);
  }

  lemma LaunchedFresh(s: System, at: nat)
    requires Inv(s) && Enabled(s, Launch(at)) && Fresh(s.book.pending, s.book.queue[at])
    ensures var job, n := s.book.queue[at].job, Do(s, Launch(at));
            && job in n.book.controls && n.book.controls[job].sequence == s.book.queue[at].sequence
            && n.book.controls[job] == Control(s.book.queue[at].sequence, false, false, false, false, false)
  {
    assert Do(s, Launch(at)) == DoLaunch(s, at);
    hide Inv, Do, Without, LeastAt;
  }
}
