/** A closed manager takes nobody in. */
module DispatcherClosing {
  import opened SegmentPlan
  import opened Dispatcher
  import opened DispatcherRuns
  import opened DispatcherSafety
  import opened DispatcherControls
  import opened DispatcherPause

  /** The manager is closed and the job is nowhere in it. */
  ghost predicate Shut(s: System, job: string) {
    s.book.closed && Out(s.book, job) && job !in s.direct
  }

  lemma ClosedStaysClosed(s: System, x: Step)
    requires Enabled(s, x) && s.book.closed
    ensures Do(s, x).book.closed && !x.Admit? && (x.StartJob? ==> Do(s, x) == s)
  {
    hide Do, Enabled;
    if MovesJobs(x) { MoveStaysClosed(s, x); } else { OtherStaysClosed(s, x); }
  }

  lemma MoveStaysClosed(s: System, x: Step)
    requires Enabled(s, x) && s.book.closed && MovesJobs(x)
    ensures Do(s, x).book.closed && (x.StartJob? ==> Do(s, x) == s)
  {
    var b := s.book;
    hide Enumerates, DoneOfAll, Enqueued, QueueResumed, Promoted, Finished, Compacted, Popped;
    match x
    case StartJob(job, priority) => ClosedRefuses(b, job, priority);
    case ResumeQueue(order) => ResumeKeepsClosed(b, order);
    case Promote(order) => PromoteKeepsClosed(b, order);
    case EndFinish => FinishKeepsClosed(b, s.mode.job, s.mode.requeue);
    case Launch(at) => assert Do(s, x) == DoLaunch(s, at); PopKeepsClosed(b, at);
    case DeleteJob(j) => CompactKeepsClosed(b.(pending := b.pending - {j}));
    case Receive => assert Do(s, x).book.closed;
  }

  lemma OtherStaysClosed(s: System, x: Step)
    requires Enabled(s, x) && s.book.closed && !MovesJobs(x)
    ensures Do(s, x).book.closed && !x.Admit?
  {
    var b := s.book;
    hide Enumerates, DoneOfAll, Compacted;
    if x.PauseJob? { CompactKeepsClosed(b.(pausedIds := b.pausedIds - {x.job}, pending := b.pending - {x.job})); }
  }

  lemma PopKeepsClosed(b: Book, at: nat)
    requires at < |b.queue|
    ensures Popped(b, at).closed == b.closed
  {
  }

  lemma ClosedRefuses(b: Book, job: string, priority: int)
    requires b.closed
    ensures Enqueued(b, job, priority) == b
  {
  }

  lemma CompactKeepsClosed(b: Book)
    ensures Compacted(b).closed == b.closed
  {
    hide OnlyFresh;
  }

  lemma {:induction false} RequeueKeepsClosed(b: Book, order: seq<string>)
    ensures RequeuedAll(b, order).closed == b.closed
    decreases |order|
  {
    if order != [] {
      RequeueKeepsClosed(b, order[..|order| - 1]);
      RequeuedAllStep(b, order);
      hide RequeuedAll, OnlyFresh;
    }
  }

  lemma ResumeKeepsClosed(b: Book, order: seq<string>)
    ensures QueueResumed(b, order).closed == b.closed
  {
    RequeueKeepsClosed(b.(queuePaused := false), order);
    hide RequeuedAll;
  }

  lemma PromoteKeepsClosed(b: Book, order: seq<string>)
    requires Enumerates(order, b.pending.Keys)
    ensures Promoted(b, order).closed == b.closed
  {
  }

  lemma FinishKeepsClosed(b: Book, job: string, requeue: bool)
    ensures Finished(b, job, requeue).closed == b.closed
  {
    hide OnlyFresh;
  }

  lemma OnlyAdmitted(s: System, x: Step, job: string)
    requires Enabled(s, x) && !x.Admit? && job !in s.direct
    ensures job !in Do(s, x).direct
  {
    hide Enumerates, DoneOfAll, LeastAt, Compacted, QueuePaused, JobPaused, JobCancelled, ActiveStopped, Enqueued;
    hide QueueResumed, Promoted, Finished, Popped;
  }

  lemma StaysShut(s: System, x: Step, job: string)
    requires Inv(s) && Enabled(s, x) && Shut(s, job)
    ensures Shut(Do(s, x), job)
  {
    ClosedStaysClosed(s, x);
    OnlyAdmitted(s, x, job);
    if !x.StartJob? { StaysOut(s, x, job); }
    hide Inv, Do, Enabled;
  }

  lemma {:induction false} ShutSteps(s: System, steps: seq<Step>, job: string)
    requires Inv(s) && Runs(s, steps) && Shut(s, job)
    ensures Inv(Last(s, steps)) && Shut(Last(s, steps), job)
    decreases |steps|
  {
    hide Inv, Enabled, Do, Shut;
    if steps != [] {
      StepKeepsInv(s, steps[0]);
      StaysShut(s, steps[0], job);
      ShutSteps(Do(s, steps[0]), steps[1..], job);
    }
  }

  /** From Close on, nobody enters the manager: a job that is neither queued, marked nor active then is none
      of these ever after, whoever calls StartJob, ResumeQueue or RunJob. */
  lemma ClosedTakesNobodyIn(s0: System, before: seq<Step>, steps: seq<Step>, job: string)
    requires Init(s0) && Runs(s0, before) && Runs(Do(Last(s0, before), Close), steps)
    requires var b := Last(s0, before).book; job !in b.pending && job !in b.pausedIds && job !in b.active
    ensures var t := Last(Do(Last(s0, before), Close), steps);
            job !in t.book.pending && job !in t.book.active && job !in t.running
  {
    Reachable(s0, before);
    var s := Last(s0, before);
    StepKeepsInv(s, Close);
    NobodyIn(s, job);
    ShutSteps(Do(s, Close), steps, job);
    NobodyActive(Last(Do(s, Close), steps), job);
    hide Inv, Runs, Last, Do, Shut;
  }

  lemma NobodyIn(s: System, job: string)
    requires Inv(s) && job !in s.book.pending && job !in s.book.pausedIds && job !in s.book.active
    ensures Shut(Do(s, Close), job)
  {
    hide Accounted, Woken, Covered, Flow, Consistent;
  }

  lemma NobodyActive(t: System, job: string)
    requires Inv(t) && Shut(t, job)
    ensures job !in t.book.pending && job !in t.book.active && job !in t.running
  {
    hide Accounted, Woken, Covered, Consistent;
  }
}
