/** What becomes of a job that is paused, alone or with the queue, while it is being finished. */
module DispatcherPause {
  import opened SegmentPlan
  import opened Dispatcher
  import opened DispatcherRuns
  import opened DispatcherSafety
  import opened DispatcherControls

  // ----- one finishJob

  /** A job that stopped with the queue, and only for that, is requeued or marked for the next
      ResumeQueue, never both; any other job is neither. */
  lemma FinishRequeuesOrMarks(b: Book, job: string)
    requires BookOk(b) && job in b.controls && job !in b.pausedIds
    ensures var f := Finished(FinishStarted(b, job), job, Requeues(b, job));
            && (PausedWithQueue(b, job) ==>
                  (job in f.pending <==> !b.queuePaused) && (job in f.pausedIds <==> b.queuePaused))
            && (job in f.pending ==> f.pending[job] == Ticket(0, b.sequence + 1))
            && (!PausedWithQueue(b, job) ==> job !in f.pending && job !in f.pausedIds)
  {
    FinishedTickets(FinishStarted(b, job), job, Requeues(b, job));
    hide Finished;
  }

  lemma FinishedTickets(b: Book, job: string, requeue: bool)
    requires job !in b.pending && Consistent(b)
    ensures var f := Finished(b, job, requeue);
            && f.pausedIds == b.pausedIds && f.queuePaused == b.queuePaused && (job in f.pending <==> requeue)
            && (requeue ==> f.pending[job] == Ticket(0, b.sequence + 1))
  {
    var r := Retired(b, job);
    SameHeap(b, r);
    PushKeepsCover(r, job, 0);
    hide Pushed, Consistent, Covered;
    var p := Pushed(r, job, 0);
    assert Plain(p).pending == p.pending && Plain(p).pausedIds == p.pausedIds && Plain(p).queuePaused == p.queuePaused;
  }

  lemma FinishComesBack(mid: Book, job: string, requeue: bool, order: seq<string>)
    requires BookOk(mid) && job in mid.controls && Enumerates(order, Finished(mid, job, requeue).pausedIds)
    ensures job in QueueResumed(Finished(mid, job, requeue), order).pending <==> requeue || job in mid.pausedIds
  {
    var f := Finished(mid, job, requeue);
    RetireKeepsBook(mid, job);
    FinishedIsMild(mid, job, requeue);
    FinishedTickets(mid, job, requeue);
    assert job !in f.active && f.pausedIds == mid.pausedIds;
    MildKeepsBook(Retired(mid, job), f);
    hide Finished;
    OnlyMarkedComeBack(f, order, job);
  }

  lemma OnlyMarkedComeBack(f: Book, order: seq<string>, job: string)
    requires BookOk(f) && job !in f.active && Enumerates(order, f.pausedIds)
    ensures job in QueueResumed(f, order).pending <==> job in f.pending || job in f.pausedIds
  {
    var b' := f.(queuePaused := false);
    SameHeap(f, b');
    assert BookOk(b') by { hide Consistent, Covered; }
    ResumeRequeuesAll(b', order);
    if job !in order && job !in b'.pending { RequeuesNobodyElse(b', order, job); }
    hide BookOk, RequeuedAll;
  }

  lemma {:induction false} RequeuesNobodyElse(b: Book, order: seq<string>, job: string)
    requires BookOk(b) && job !in order && job !in b.pending
    ensures job !in RequeuedAll(b, order).pending
    decreases |order|
  {
    if order != [] {
      var init, last := order[..|order| - 1], order[|order| - 1];
      assert order == init + [last];
      RequeuesNobodyElse(b, init, job);
      RequeueIsMild(b, init);
      var mid := RequeuedAll(b, init);
      RequeuedAllStep(b, order);
      hide RequeuedAll, Pushed, BookOk, Covered;
      if last !in mid.active && last !in mid.pending {
        MildKeepsBook(b, mid);
        PushIsMild(mid, last, 0);
        assert Pushed(mid, last, 0).(queue := []).pending == mid.pending[last := Ticket(0, mid.sequence + 1)];
      }
    }
  }

  // ----- marks

  /** Jobs are marked only while the queue is paused, and a job with a control only while it is being
      finished. */
  ghost predicate Marks(s: System) {
    && (!s.book.queuePaused ==> forall j :: j !in s.book.pausedIds)
    && (forall j :: j in s.book.pausedIds && j in s.book.controls ==> j in InHand(s.mode))
  }

  lemma ResumeMarks(s: System, order: seq<string>)
    requires BookOk(s.book) && Marks(s) && Enabled(s, ResumeQueue(order))
    ensures Marks(Do(s, ResumeQueue(order)))
  {
    var b' := s.book.(queuePaused := false);
    SameHeap(s.book, b');
    assert BookOk(b') by { hide Consistent, Covered; }
    ResumeRequeuesAll(b', order);
    hide BookOk, RequeuedAll;
  }

  lemma CallerMarks(s: System, x: Step)
    requires Marks(s) && Enabled(s, x) && (x.StartJob? || x.PauseJob? || x.EndFinish?)
    ensures Marks(Do(s, x))
  {
    hide Enumerates, DoneOfAll, LeastAt, OnlyFresh, Enqueued, JobPaused, Finished;
    match x
    case StartJob(job, priority) => EnqueueMarks(s.book, job, priority);
    case PauseJob(job) => PauseMarks(s.book, job);
    case EndFinish => FinishMarks(s.book, s.mode.job, s.mode.requeue);
  }

  lemma StepKeepsMarks(s: System, x: Step)
    requires Inv(s) && Marks(s) && Enabled(s, x)
    ensures Marks(Do(s, x))
  {
    if x.ResumeQueue? {
      hide Enabled, Do, Marks;
      ResumeMarks(s, x.order);
    } else {
      hide Inv, Enabled, Do, Marks;
      if x.StartJob? || x.PauseJob? || x.EndFinish? { CallerMarks(s, x); }
      else if x.Launch? || x.Receive? || x.Drain? { GoroutineMarks(s, x); }
      else { OtherMarks(s, x); }
    }
  }

  lemma GoroutineMarks(s: System, x: Step)
    requires Marks(s) && Enabled(s, x) && (x.Launch? || x.Receive? || x.Drain?)
    ensures Marks(Do(s, x))
  {
    var b := s.book;
    match x
    case Launch(at) =>
      assert Do(s, x) == DoLaunch(s, at);
      hide Do, Enabled, Enumerates;
      PoppedIs(b, at);
      assert Popped(b, at).pausedIds == b.pausedIds && Popped(b, at).queuePaused == b.queuePaused;
    case Receive =>
      hide Enumerates;
      var t := Do(s, x);
      assert t.book == b || t.book == FinishStarted(b, s.results[0]);
    case Drain(order) =>
      hide Enumerates, DoneOfAll;
      assert Do(s, x).book == ShutDown(b);
  }

  lemma OtherMarks(s: System, x: Step)
    requires Marks(s) && Enabled(s, x) && !x.ResumeQueue? && !x.StartJob? && !x.PauseJob? && !x.EndFinish?
    requires !x.Launch? && !x.Receive? && !x.Drain?
    ensures Marks(Do(s, x))
  {
    SameMarks(s, x);
    hide Do, Enabled, Marks;
    MarksFollow(s, Do(s, x));
  }

  lemma SameMarks(s: System, x: Step)
    requires Enabled(s, x) && !x.ResumeQueue? && !x.StartJob? && !x.PauseJob? && !x.EndFinish?
    requires !x.Launch? && !x.Receive? && !x.Drain?
    ensures var n := Do(s, x);
            && n.book.pausedIds == s.book.pausedIds && n.book.controls.Keys == s.book.controls.Keys
            && (s.book.queuePaused ==> n.book.queuePaused) && InHand(s.mode) <= InHand(n.mode)
  {
    hide Enumerates, DoneOfAll, LeastAt, OnlyFresh, Enqueued, JobPaused, Finished, QueueResumed, Promoted, Popped;
    match x
    case Promote(order) => PromoteMarks(s.book, order);
    case CancelJob(job, d) => CancelMarks(s.book, job, d);
    case PauseQueue => assert QueuePaused(s.book).controls.Keys == s.book.controls.Keys;
    case Stop => assert ActiveStopped(s.book).controls.Keys == s.book.controls.Keys;
    case _ =>
  }

  lemma CancelMarks(b: Book, job: string, d: bool)
    ensures var c := JobCancelled(b, job, d);
            c.pausedIds == b.pausedIds && c.controls.Keys == b.controls.Keys && c.queuePaused == b.queuePaused
  {
  }

  lemma MarksFollow(s: System, n: System)
    requires Marks(s) && n.book.pausedIds == s.book.pausedIds && n.book.controls.Keys == s.book.controls.Keys
    requires (s.book.queuePaused ==> n.book.queuePaused) && InHand(s.mode) <= InHand(n.mode)
    ensures Marks(n)
  {
  }

  lemma PauseMarks(b: Book, job: string)
    ensures var p := JobPaused(b, job);
            p.pausedIds == b.pausedIds - {job} && p.controls.Keys == b.controls.Keys && p.queuePaused == b.queuePaused
  {
  }

  lemma {:induction false} RunKeepsMarks(s: System, steps: seq<Step>)
    requires Inv(s) && Marks(s) && Runs(s, steps)
    ensures Marks(Last(s, steps))
    decreases |steps|
  {
    hide Inv, Enabled, Do, Marks;
    if steps != [] {
      StepKeepsInv(s, steps[0]);
      StepKeepsMarks(s, steps[0]);
      RunKeepsMarks(Do(s, steps[0]), steps[1..]);
    }
  }

  /** So the premise of FinishRequeuesOrMarks and ComesBackIff holds whenever finishJob begins. */
  lemma RunningJobsAreUnmarked(s: System, steps: seq<Step>, job: string)
    requires Init(s) && Runs(s, steps)
    ensures var t := Last(s, steps);
            job in t.book.controls && job !in InHand(t.mode) ==> job !in t.book.pausedIds
  {
    RunKeepsMarks(s, steps);
  }

  // ----- between the two regions of finishJob

  /** The mark of the job survives the steps. */
  predicate Unmarks(x: Step, job: string) { x.ResumeQueue? || x == PauseJob(job) }

  ghost predicate NoFinish(steps: seq<Step>) {
    forall i :: 0 <= i < |steps| ==> !steps[i].EndFinish?
  }

  ghost predicate KeepsMark(steps: seq<Step>, job: string) {
    forall i :: 0 <= i < |steps| ==> !Unmarks(steps[i], job)
  }

  lemma StepMark(s: System, x: Step, job: string)
    requires Inv(s) && Enabled(s, x) && s.mode.Finishing? && !x.EndFinish?
    ensures var n := Do(s, x);
            && n.mode == s.mode && (job in n.book.pausedIds <==> job in s.book.pausedIds && !Unmarks(x, job))
  {
    if x.ResumeQueue? {
      ResumeClears(s, x.order);
    } else if x.StartJob? || x.PauseJob? {
      if x.StartJob? { EnqueueMarks(s.book, x.job, x.priority); } else { PauseMarks(s.book, x.job); }
      hide Inv, Enqueued, JobPaused;
    } else {
      SameMarks(s, x);
      hide Inv, Enumerates, DoneOfAll, LeastAt, OnlyFresh;
    }
  }

  lemma ResumeClears(s: System, order: seq<string>)
    requires BookOk(s.book) && Enabled(s, ResumeQueue(order))
    ensures var n := Do(s, ResumeQueue(order)); n.mode == s.mode && forall j :: j !in n.book.pausedIds
  {
    var b' := s.book.(queuePaused := false);
    SameHeap(s.book, b');
    assert BookOk(b') by { hide Consistent, Covered; }
    ResumeRequeuesAll(b', order);
    hide BookOk, RequeuedAll;
  }

  lemma {:induction false} StepsMark(s: System, steps: seq<Step>, job: string)
    requires Inv(s) && Runs(s, steps) && s.mode.Finishing? && NoFinish(steps)
    ensures var t := Last(s, steps);
            && Inv(t) && t.mode == s.mode
            && (job in t.book.pausedIds <==> job in s.book.pausedIds && KeepsMark(steps, job))
    decreases |steps|
  {
    hide Inv, Enabled, Do, Unmarks;
    if steps != [] {
      StepKeepsInv(s, steps[0]);
      StepMark(s, steps[0], job);
      StepsMark(Do(s, steps[0]), steps[1..], job);
      assert steps == [steps[0]] + steps[1..];
      assert KeepsMark(steps, job) <==> !Unmarks(steps[0], job) && KeepsMark(steps[1..], job);
    }
  }

  /** Exactly when the job in hand is in the queue again after the second region of finishJob and the
      next ResumeQueue, whatever happens between the regions: it was to be requeued, or it was marked
      and neither a ResumeQueue nor a PauseJob of it came between. */
  lemma ComesBackIff(s0: System, before: seq<Step>, steps: seq<Step>, order: seq<string>)
    requires Init(s0) && Runs(s0, before)
    requires var s := Last(s0, before);
             && s.mode.Finishing? && Runs(s, steps) && NoFinish(steps)
             && Enabled(Last(s, steps), EndFinish) && Enabled(Do(Last(s, steps), EndFinish), ResumeQueue(order))
    ensures var s := Last(s0, before);
            var job, after := s.mode.job, Do(Do(Last(s, steps), EndFinish), ResumeQueue(order));
            job in after.book.pending <==>
              s.mode.requeue || (job in s.book.pausedIds && KeepsMark(steps, job))
  {
    Reachable(s0, before);
    var s := Last(s0, before);
    StepsMark(s, steps, s.mode.job);
    ResumedAfterFinish(Last(s, steps), order);
  }

  lemma ResumedAfterFinish(t: System, order: seq<string>)
    requires Inv(t) && Enabled(t, EndFinish) && Enabled(Do(t, EndFinish), ResumeQueue(order))
    ensures var job := t.mode.job;
            job in Do(Do(t, EndFinish), ResumeQueue(order)).book.pending <==> t.mode.requeue || job in t.book.pausedIds
  {
    InHandIsControlled(t);
    hide Inv, Finished, QueueResumed, BookOk;
    FinishComesBack(t.book, t.mode.job, t.mode.requeue, order);
  }

  lemma InHandIsControlled(t: System)
    requires Inv(t) && t.mode.Finishing?
    ensures BookOk(t.book) && t.mode.job in t.book.controls && t.mode.job !in t.book.pending
  {
    FinishFlows(t.book.controls.Keys, t.running, t.results, t.mode.job);
    hide Accounted, Covered, Conserved, Consistent;
  }

  // ----- a job paused individually while it has a control

  /** PauseJob has reached the job; was: its requeueing had already been decided. */
  ghost predicate Stopping(s: System, job: string, was: bool) {
    && (job in s.book.controls || s.mode.Done?)
    && (job in s.book.controls ==> s.book.controls[job].pauseRequested)
    && (was <==> s.mode == Finishing(job, true))
  }

  lemma PauseBeginsStopping(s: System, job: string)
    requires Inv(s) && job in s.book.controls
    ensures Stopping(Do(s, PauseJob(job)), job, s.mode == Finishing(job, true))
  {
    ControlStep(s, PauseJob(job), job);
    hide Inv, Compacted;
  }

  lemma StoppingStep(s: System, x: Step, job: string, was: bool)
    requires Inv(s) && Enabled(s, x) && Stopping(s, job, was)
    requires !(x.EndFinish? && s.mode.Finishing? && s.mode.job == job)
    ensures Stopping(Do(s, x), job, was)
  {
    if s.mode.Done? {
      StaysDone(s, x);
    } else if x.Drain? {
      hide Inv, Enumerates, DoneOfAll;
    } else {
      ControlStep(s, x, job);
      ModeKept(s, x, job);
      hide Inv, Enabled, Do;
    }
  }

  /** Only a Receive of the job can decide its requeueing, and it does not once PauseJob came. */
  lemma ModeKept(s: System, x: Step, job: string)
    requires Enabled(s, x) && job in s.book.controls && s.book.controls[job].pauseRequested
    requires !(x.EndFinish? && s.mode.Finishing? && s.mode.job == job)
    ensures s.mode == Finishing(job, true) <==> Do(s, x).mode == Finishing(job, true)
  {
    hide Enumerates, DoneOfAll, LeastAt;
  }

  lemma {:induction false} StoppingSteps(s: System, steps: seq<Step>, job: string, was: bool)
    requires Inv(s) && Runs(s, steps) && Stopping(s, job, was) && NotYetFinished(s, steps, job)
    ensures Inv(Last(s, steps)) && Stopping(Last(s, steps), job, was)
    decreases |steps|
  {
    hide Inv, Enabled, Do, Stopping;
    if steps != [] {
      StepKeepsInv(s, steps[0]);
      StoppingStep(s, steps[0], job, was);
      StoppingSteps(Do(s, steps[0]), steps[1..], job, was);
    }
  }

  /** PauseJob of a job with a control, then any steps up to the end of its finishJob: the job is not
      put back into the queue exactly if its requeueing had not been decided before. */
  lemma PausedJobStaysPausedIff(s0: System, before: seq<Step>, job: string, steps: seq<Step>)
    requires Init(s0) && Runs(s0, before) && job in Last(s0, before).book.controls
    requires var s := Do(Last(s0, before), PauseJob(job));
             && Runs(s, steps) && NotYetFinished(s, steps, job)
             && Last(s, steps).mode.Finishing? && Last(s, steps).mode.job == job
    ensures var s := Last(s0, before);
            var after := Do(Last(Do(s, PauseJob(job)), steps), EndFinish);
            job !in after.book.pending <==> s.mode != Finishing(job, true)
  {
    Reachable(s0, before);
    var s := Last(s0, before);
    var was := s.mode == Finishing(job, true);
    PauseBeginsStopping(s, job);
    StepKeepsInv(s, PauseJob(job));
    StoppingSteps(Do(s, PauseJob(job)), steps, job, was);
    var t := Last(Do(s, PauseJob(job)), steps);
    InHandIsControlled(t);
    hide Inv, Finished, Stopping, Runs, Last;
    FinishedInHand(t, job, was);
  }

  lemma FinishedInHand(t: System, job: string, was: bool)
    requires BookOk(t.book) && Stopping(t, job, was) && t.mode.Finishing? && t.mode.job == job && job !in t.book.pending
    ensures job in Do(t, EndFinish).book.pending <==> was
  {
    hide Finished;
    FinishedTickets(t.book, job, t.mode.requeue);
  }

  // ----- a job paused while it has no control

  /** The job is neither queued, marked nor under a control. */
  ghost predicate Out(b: Book, job: string) {
    job !in b.pending && job !in b.pausedIds && job !in b.controls
  }

  lemma StaysOut(s: System, x: Step, job: string)
    requires Inv(s) && Enabled(s, x) && Out(s.book, job) && !(x.StartJob? && x.job == job)
    ensures Out(Do(s, x).book, job) && (job in Do(s, x).running ==> job in s.running)
  {
    var b := s.book;
    match x
    case ResumeQueue(order) =>
      var b' := b.(queuePaused := false);
      SameHeap(b, b');
      assert BookOk(b') by { hide Consistent, Covered; }
      ResumeRequeuesAll(b', order);
      RequeuesNobodyElse(b', order, job);
      RequeueFlags(b', order);
      hide Inv, RequeuedAll;
    case StartJob(j, priority) =>
      EnqueueMarks(b, j, priority);
      EnqueueOthers(b, j, priority, job);
      hide Inv, Enqueued;
    case EndFinish =>
      InHandIsControlled(s);
      FinishMarks(b, s.mode.job, s.mode.requeue);
      FinishOthers(b, s.mode.job, s.mode.requeue, job);
      hide Inv, Finished;
    case _ =>
      hide Inv;
      OtherStaysOut(s, x, job);
  }

  lemma EnqueueOthers(b: Book, j: string, priority: int, job: string)
    requires job != j && job !in b.pending
    ensures job !in Enqueued(b, j, priority).pending
  {
    hide OnlyFresh;
  }

  lemma FinishOthers(b: Book, j: string, requeue: bool, job: string)
    requires job != j && job !in b.pending
    ensures job !in Finished(b, j, requeue).pending
  {
    hide OnlyFresh;
  }

  lemma OtherStaysOut(s: System, x: Step, job: string)
    requires Enabled(s, x) && Out(s.book, job) && !x.ResumeQueue? && !x.StartJob? && !x.EndFinish?
    ensures Out(Do(s, x).book, job) && (job in Do(s, x).running ==> job in s.running)
  {
    if x.Launch? { LaunchStaysOut(s, x, job); }
    else {
      NoNewControl(s, x, job);
      if Goroutine(x) { GoroutineStaysOut(s, x, job); } else { CallerStaysOut(s, x, job); }
    }
    hide Do, Enabled, Goroutine;
  }

  predicate Goroutine(x: Step) { x.Send? || x.Receive? || x.Stop? || x.Drain? || x.Leave? || x.Admit? || x.Wake? }

  lemma LaunchStaysOut(s: System, x: Step, job: string)
    requires Enabled(s, x) && Out(s.book, job) && x.Launch?
    ensures Out(Do(s, x).book, job) && (job in Do(s, x).running ==> job in s.running)
  {
    assert Do(s, x) == DoLaunch(s, x.at);
    hide Do, Enabled, Without;
  }

  lemma GoroutineStaysOut(s: System, x: Step, job: string)
    requires Enabled(s, x) && Out(s.book, job) && Goroutine(x)
    ensures job !in Do(s, x).book.pending && job !in Do(s, x).book.pausedIds
    ensures job in Do(s, x).running ==> job in s.running
  {
    hide Enumerates, DoneOfAll, LeastAt;
    hide Enqueued, QueuePaused, JobPaused, JobCancelled, Promoted, Finished, QueueResumed, Popped, Compacted;
  }

  lemma CallerStaysOut(s: System, x: Step, job: string)
    requires Enabled(s, x) && Out(s.book, job) && !Goroutine(x)
    requires !x.ResumeQueue? && !x.StartJob? && !x.EndFinish? && !x.Launch?
    ensures job !in Do(s, x).book.pending && job !in Do(s, x).book.pausedIds
    ensures job in Do(s, x).running ==> job in s.running
  {
    hide Enumerates, DoneOfAll, LeastAt, OnlyFresh, QueuePaused, JobPaused, JobCancelled, Promoted, Entries;
    match x
    case PauseQueue => AskOthers(s.book);
    case PauseJob(j) => PauseOthers(s.book, j, job);
    case CancelJob(j, d) => CancelOthers(s.book, j, d, job);
    case Promote(order) => PromoteOthers(s.book, order);
    case _ =>
  }

  lemma AskOthers(b: Book)
    ensures QueuePaused(b).pending == b.pending && QueuePaused(b).pausedIds == b.pausedIds
  {
  }

  lemma PromoteOthers(b: Book, order: seq<string>)
    requires Enumerates(order, b.pending.Keys)
    ensures Promoted(b, order).pending == b.pending && Promoted(b, order).pausedIds == b.pausedIds
  {
  }

  lemma PauseOthers(b: Book, j: string, job: string)
    requires Out(b, job)
    ensures job !in JobPaused(b, j).pending && job !in JobPaused(b, j).pausedIds
  {
    hide OnlyFresh;
  }

  lemma CancelOthers(b: Book, j: string, d: bool, job: string)
    requires Out(b, job)
    ensures job !in JobCancelled(b, j, d).pending && job !in JobCancelled(b, j, d).pausedIds
  {
  }

  lemma {:induction false} OutSteps(s: System, steps: seq<Step>, job: string)
    requires Inv(s) && Runs(s, steps) && Out(s.book, job)
    requires forall i :: 0 <= i < |steps| ==> !(steps[i].StartJob? && steps[i].job == job)
    ensures Out(Last(s, steps).book, job) && (job in Last(s, steps).running ==> job in s.running)
    decreases |steps|
  {
    hide Inv, Enabled, Do, Out;
    if steps != [] {
      StepKeepsInv(s, steps[0]);
      StaysOut(s, steps[0], job);
      OutSteps(Do(s, steps[0]), steps[1..], job);
    }
  }

  /** A step that withdraws a waiting job: PauseJob, or CancelJob or DeleteJob of an unmarked one. */
  ghost predicate Withdraws(b: Book, x: Step, job: string) {
    || x == PauseJob(job)
    || (job !in b.pausedIds && ((x.CancelJob? && x.job == job) || x == DeleteJob(job)))
  }

  lemma WithdrawTakesOut(s: System, x: Step, job: string)
    requires Enabled(s, x) && job !in s.book.controls && Withdraws(s.book, x, job)
    ensures Out(Do(s, x).book, job) && Do(s, x).running == s.running
  {
    var b := s.book;
    BookWithdraws(b, job, x.CancelJob? && x.deletePartial);
    hide Out, JobPaused, JobCancelled, Compacted;
    match x
    case PauseJob(_) => assert Do(s, x) == s.(book := JobPaused(b, job));
    case CancelJob(_, d) => assert Do(s, x) == s.(book := JobCancelled(b, job, d));
    case DeleteJob(_) => assert Do(s, x) == s.(book := Compacted(b.(pending := b.pending - {job})));
  }

  lemma BookWithdraws(b: Book, job: string, d: bool)
    requires job !in b.controls
    ensures Out(JobPaused(b, job), job)
    ensures job !in b.pausedIds ==>
              Out(JobCancelled(b, job, d), job) && Out(Compacted(b.(pending := b.pending - {job})), job)
  {
    hide OnlyFresh;
  }

  /** A job that is withdrawn while it has no control is not launched again, whatever else happens and
      however often the queue is paused and resumed, until it is started again. */
  lemma WithdrawnJobStaysOut(s0: System, before: seq<Step>, x: Step, job: string, steps: seq<Step>)
    requires Init(s0) && Runs(s0, before) && job !in Last(s0, before).book.controls
    requires Enabled(Last(s0, before), x) && Withdraws(Last(s0, before).book, x, job)
    requires Runs(Do(Last(s0, before), x), steps)
    requires forall i :: 0 <= i < |steps| ==> !(steps[i].StartJob? && steps[i].job == job)
    ensures var t := Last(Do(Last(s0, before), x), steps);
            && job !in t.book.pending && job !in t.book.controls
            && (job in t.running ==> job in Last(s0, before).running)
  {
    Reachable(s0, before);
    var s := Last(s0, before);
    StepKeepsInv(s, x);
    WithdrawTakesOut(s, x, job);
    OutSteps(Do(s, x), steps, job);
    hide Inv, Runs, Last, Do;
  }

  lemma CancelTakesOut(b: Book, job: string, d: bool)
    requires BookOk(b) && job !in b.controls
    ensures var c := JobCancelled(b, job, d);
            && job !in c.pending && c.controls == b.controls && c.active == b.active && c.pausedIds == b.pausedIds
  {
  }

  lemma ResumedIff(b: Book, order: seq<string>, job: string)
    requires BookOk(b) && Enumerates(order, b.pausedIds) && job !in b.pending
    ensures job in QueueResumed(b, order).pending <==> job in b.pausedIds && job !in b.active
  {
    var r := b.(queuePaused := false);
    SameHeap(b, r);
    assert BookOk(r) by { hide Consistent, Covered; }
    ResumeRequeuesAll(r, order);
    RequeueIsMild(r, order);
    MildKeepsBook(r, RequeuedAll(r, order));
    if job !in b.pausedIds { RequeuesNobodyElse(r, order, job); }
    hide RequeuedAll, Consistent, Covered;
  }

  /** Cancelling a job without a control takes its ticket but not its mark: the next ResumeQueue puts it
      back into the queue exactly if the queue had been paused under it. */
  lemma CancelledJobComesBackIff(s0: System, before: seq<Step>, job: string, d: bool, order: seq<string>)
    requires Init(s0) && Runs(s0, before) && job !in Last(s0, before).book.controls
    requires Enabled(Do(Last(s0, before), CancelJob(job, d)), ResumeQueue(order))
    ensures var s := Last(s0, before);
            var c := Do(s, CancelJob(job, d));
            && job !in c.book.pending
            && (job in Do(c, ResumeQueue(order)).book.pending <==>
                  job in s.book.pausedIds && job !in s.book.active)
  {
    Reachable(s0, before);
    var s := Last(s0, before);
    StepKeepsInv(s, CancelJob(job, d));
    CancelTakesOut(s.book, job, d);
    var c := Do(s, CancelJob(job, d)).book;
    assert c == JobCancelled(s.book, job, d) && BookOk(c) && Enumerates(order, c.pausedIds);
    assert Do(Do(s, CancelJob(job, d)), ResumeQueue(order)).book == QueueResumed(c, order);
    hide Runs, Last, Inv, Init, Do, JobCancelled;
    ResumedIff(c, order, job);
  }
}
