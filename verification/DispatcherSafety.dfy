/** What the dispatcher keeps over every run. */
module DispatcherSafety {
  import opened SegmentPlan
  import opened Dispatcher
  import opened DispatcherRuns

  // ----- regions that neither launch nor finish a job

  ghost predicate SameControls(b: Book, b': Book) {
    && b'.maxActive == b.maxActive && b'.started == b.started && b'.controls.Keys == b.controls.Keys
       && b'.active == b.active
    && forall j :: j in b.controls ==> b'.controls[j].sequence == b.controls[j].sequence
  }

  /** Tickets are kept, dropped or new. */
  ghost predicate TicketsKept(b: Book, b': Book) {
    && b.sequence <= b'.sequence
    && forall j :: j in b'.pending ==>
         (j in b.pending && b'.pending[j] == b.pending[j]) || b'.pending[j].sequence > b.sequence
  }

  /** A change that makes a launch possible leaves a wake-up. */
  ghost predicate Wakes(b: Book, b': Book) {
    b.started ==> b'.wake || (b'.wake == b.wake && (Idle(b) ==> Idle(b')))
  }

  ghost predicate Mild(b: Book, b': Book) {
    SameControls(b, b') && TicketsKept(b, b') && BookOk(b') && (b.started && Covered(b) ==> Covered(b'))
  }

  lemma MildTrans(a: Book, b: Book, c: Book)
    requires Mild(a, b) && Mild(b, c)
    ensures Mild(a, c)
  {
    hide BookOk, Covered;
    forall j | j in c.pending ensures (j in a.pending && c.pending[j] == a.pending[j])
        || c.pending[j].sequence > a.sequence {
      if j in b.pending && c.pending[j] == b.pending[j] { }
    }
  }

  lemma CompactIsMild(b: Book)
    requires BookOk(b)
    ensures Mild(b, Compacted(b)) && Wakes(b, Compacted(b))
  {
    CompactionKeepsCover(b);
    hide Consistent, Covered, OnlyFresh;
  }

  lemma DropIsMild(b: Book, job: string)
    requires BookOk(b)
    ensures var b' := b.(pending := b.pending - {job}); Mild(b, b') && Wakes(b, b')
  {
    Shrinks(b.queue, b.queue, b.pending, {job}, b.sequence);
    var b' := b.(pending := b.pending - {job});
    assert forall j :: j in b'.pending ==> EntryOf(b'.pending, j) == EntryOf(b.pending, j);
    hide TicketsDistinct, EntriesMatch;
  }

  lemma PushIsMild(b: Book, job: string, priority: int)
    requires BookOk(b) && job !in b.active
    ensures Mild(b, Pushed(b, job, priority))
    ensures Pushed(b, job, priority).(queue := []) == b.(queue := [], sequence := b.sequence + 1,
              pending := b.pending[job := Ticket(priority, b.sequence + 1)])
  {
    PushKeepsCover(b, job, priority);
    hide Consistent, Covered, Pushed;
    var b' := Pushed(b, job, priority);
    assert Plain(b').active == b.active && Plain(b').pending == b.pending[job := Ticket(priority, b.sequence + 1)];
  }

  lemma SignalIsMild(b: Book)
    requires BookOk(b)
    ensures Mild(b, Signalled(b))
  {
    hide Consistent, Covered;
    assert Signalled(b).queue == b.queue && Signalled(b).pending == b.pending && Signalled(b).sequence == b.sequence;
    SameHeap(b, Signalled(b));
  }

  /** Consistent and Covered look at three fields only. */
  lemma SameHeap(b: Book, b': Book)
    requires b.queue == b'.queue && b.pending == b'.pending && b.sequence == b'.sequence
    ensures Consistent(b) <==> Consistent(b')
    ensures Covered(b) <==> Covered(b')
  {
  }

  lemma WaitingEnqueueIsMild(b: Book, job: string, priority: int)
    requires BookOk(b) && job !in b.active && !b.started
    ensures Mild(b, b.(sequence := b.sequence + 1, pending := b.pending[job := Ticket(priority, b.sequence + 1)]))
  {
    Grows(b.queue, b.pending, b.sequence, job, priority, []);
    assert b.queue + [] == b.queue;
    hide TicketsDistinct, EntriesMatch, Covers;
  }

  lemma EnqueueIsMild(b: Book, job: string, priority: int)
    requires BookOk(b)
    ensures Mild(b, Enqueued(b, job, priority)) && Wakes(b, Enqueued(b, job, priority))
  {
    hide Mild, BookOk, Pushed, Idle;
    BookIsMild(b);
    if VerdictOn(b, job) == Enqueue {
      if b.started {
        var p := Pushed(b, job, priority);
        PushIsMild(b, job, priority);
        MildKeepsBook(b, p);
        SignalIsMild(p);
        MildTrans(b, p, Signalled(p));
        assert p.(queue := []).started;
      } else {
        WaitingEnqueueIsMild(b, job, priority);
      }
    }
  }

  lemma {:induction false} RequeueIsMild(b: Book, order: seq<string>)
    requires BookOk(b)
    ensures Mild(b, RequeuedAll(b, order))
    decreases |order|
  {
    if order == [] {
      BookIsMild(b);
    } else {
      var init, job := order[..|order| - 1], order[|order| - 1];
      RequeueIsMild(b, init);
      var mid := RequeuedAll(b, init);
      hide RequeuedAll, Mild, Pushed;
      assert BookOk(mid) by { MildKeepsBook(b, mid); }
      BookIsMild(mid);
      if job !in mid.active && job !in mid.pending { PushIsMild(mid, job, 0); }
      var pushed := if job !in mid.active && job !in mid.pending then Pushed(mid, job, 0) else mid;
      MildTrans(b, mid, pushed);
      ForgetPausedIsMild(pushed, job);
      MildTrans(b, pushed, pushed.(pausedIds := pushed.pausedIds - {job}));
      RequeuedAllStep(b, order);
    }
  }

  lemma RequeuedAllStep(b: Book, order: seq<string>)
    requires order != []
    ensures RequeuedAll(b, order) == Requeued(RequeuedAll(b, order[..|order| - 1]), order[|order| - 1])
  {
  }

  lemma MildKeepsBook(b: Book, b': Book)
    requires Mild(b, b')
    ensures BookOk(b')
  {
  }

  lemma BookIsMild(b: Book)
    requires BookOk(b)
    ensures Mild(b, b)
  {
  }

  lemma ForgetPausedIsMild(b: Book, job: string)
    requires BookOk(b)
    ensures Mild(b, b.(pausedIds := b.pausedIds - {job}))
  {
    SameHeap(b, b.(pausedIds := b.pausedIds - {job}));
    hide Consistent, Covered;
  }

  lemma ResumeIsMild(b: Book, order: seq<string>)
    requires BookOk(b)
    ensures Mild(b, QueueResumed(b, order)) && Wakes(b, QueueResumed(b, order))
  {
    var b' := b.(queuePaused := false);
    SameHeap(b, b');
    assert BookOk(b') && Mild(b, b') by { hide Consistent, Covered; }
    RequeueIsMild(b', order);
    var mid := RequeuedAll(b', order);
    hide RequeuedAll;
    MildTrans(b, b', mid);
    SignalIsMild(mid);
    MildTrans(b, mid, Signalled(mid));
  }

  lemma PauseIsMild(b: Book)
    requires BookOk(b)
    ensures Mild(b, QueuePaused(b)) && Wakes(b, QueuePaused(b))
  {
    SameHeap(b, QueuePaused(b));
    hide Consistent, Covered;
  }

  lemma PauseJobIsMild(b: Book, job: string)
    requires BookOk(b)
    ensures Mild(b, JobPaused(b, job)) && Wakes(b, JobPaused(b, job))
  {
    var b' := b.(pausedIds := b.pausedIds - {job});
    if job in b.controls {
      SameHeap(b, JobPaused(b, job));
      hide Consistent, Covered;
    } else {
      ForgetPausedIsMild(b, job);
      DropIsMild(b', job);
      var c := b'.(pending := b'.pending - {job});
      MildTrans(b, b', c);
      CompactIsMild(c);
      MildTrans(b, c, Compacted(c));
      assert JobPaused(b, job) == Compacted(c);
      hide Consistent, Covered, BookOk, OnlyFresh;
    }
  }

  lemma CancelIsMild(b: Book, job: string, deletePartial: bool)
    requires BookOk(b)
    ensures Mild(b, JobCancelled(b, job, deletePartial)) && Wakes(b, JobCancelled(b, job, deletePartial))
  {
    DropIsMild(b, job);
    if job in b.controls {
      SameHeap(b, JobCancelled(b, job, deletePartial));
      hide Consistent, Covered;
    }
  }

  lemma DeleteIsMild(b: Book, job: string)
    requires BookOk(b)
    ensures var b' := Compacted(b.(pending := b.pending - {job})); Mild(b, b') && Wakes(b, b')
  {
    DropIsMild(b, job);
    var c := b.(pending := b.pending - {job});
    CompactIsMild(c);
    MildTrans(b, c, Compacted(c));
    hide Consistent, Covered, BookOk, OnlyFresh;
  }

  lemma EntriesBack(pending: map<string, Ticket>, order: seq<string>)
    requires Enumerates(order, pending.Keys)
    ensures Covers(Entries(order, pending), pending)
    ensures forall item :: item in Entries(order, pending) ==> item.job in pending && item == EntryOf(pending, item.job)
  {
    var added := Entries(order, pending);
    forall j | j in pending ensures EntryOf(pending, j) in added {
      var i :| 0 <= i < |order| && order[i] == j;
      assert added[i] == EntryOf(pending, j);
    }
  }

  lemma BackedEntriesMatch(queue: seq<Item>, added: seq<Item>, pending: map<string, Ticket>, sequence: nat)
    requires TicketsDistinct(pending, sequence) && EntriesMatch(queue, pending, sequence) && Covers(added, pending)
    requires forall item :: item in added ==> item.job in pending && item == EntryOf(pending, item.job)
    ensures EntriesMatch(queue + added, pending, sequence) && Covers(queue + added, pending)
  {
  }

  lemma PromoteIsMild(b: Book, order: seq<string>)
    requires BookOk(b) && Enumerates(order, b.pending.Keys)
    ensures Mild(b, Promoted(b, order)) && Covered(Promoted(b, order))
    ensures b.started && |b.pending| > 0 ==> Promoted(b, order).wake
    ensures Promoted(b, order).pending == b.pending
  {
    EntriesBack(b.pending, order);
    BackedEntriesMatch(b.queue, Entries(order, b.pending), b.pending, b.sequence);
    var b' := b.(queue := b.queue + Entries(order, b.pending));
    hide Entries, Enumerates, EntriesMatch, Covers, TicketsDistinct;
    assert Consistent(b') && Covered(b');
    hide Consistent, Covered;
    assert Mild(b, b');
    SameHeap(b', Signalled(b'));
    SignalIsMild(b');
    hide BookOk, Mild;
    MildTrans(b, b', Signalled(b'));
  }

  // ----- the parts of the invariant, step by step

  lemma MildKeepsAccounts(b: Book, b': Book, launches: seq<nat>, closedDone: seq<nat>)
    requires Mild(b, b') && Accounted(b, launches, closedDone)
    ensures Accounted(b', launches, closedDone)
  {
    hide BookOk, Covered, Distinct;
    forall n | n in launches ensures n in closedDone || exists j :: j in b'.controls && b'.controls[j].sequence == n {
      if n !in closedDone {
        var j :| j in b.controls && b.controls[j].sequence == n;
        assert j in b'.controls && b'.controls[j].sequence == n;
      }
    }
  }

  /** A mild change of the book keeps the invariant. */
  lemma MildKeepsInv(s: System, b': Book)
    requires Inv(s) && Mild(s.book, b') && Wakes(s.book, b')
    ensures Inv(s.(book := b'))
  {
    MildKeepsAccounts(s.book, b', s.launches, s.closedDone);
    hide Slots, BookOk, Covered, Accounted, Conserved, Emptied, Idle, TicketsKept;
  }

  lemma LaunchKeepsAccounts(b: Book, b': Book, job: string, launches: seq<nat>, closedDone: seq<nat>)
    requires BookOk(b) && job in b.pending && Accounted(b, launches, closedDone)
    requires b'.sequence == b.sequence && b'.pending == Launched(b, job).pending
              && b'.controls == Launched(b, job).controls
    ensures Accounted(b', launches + [b.pending[job].sequence], closedDone)
  {
    var n := b.pending[job].sequence;
    assert job !in b.controls;
    var more := launches + [n];
    assert forall m :: m in more <==> m in launches || m == n;
    forall m | m in more ensures m in closedDone || exists j :: j in b'.controls && b'.controls[j].sequence == m {
      if m == n {
        assert job in b'.controls && b'.controls[job].sequence == n;
      } else if m !in closedDone {
        var j :| j in b.controls && b.controls[j].sequence == m;
        assert j in b'.controls && b'.controls[j].sequence == m;
      }
    }
  }

  lemma FinishKeepsAccounts(b: Book, b': Book, job: string, launches: seq<nat>, closedDone: seq<nat>)
    requires Accounted(b, launches, closedDone) && job in b.controls
    requires b'.sequence == b.sequence && b'.pending == b.pending && b'.controls == b.controls - {job}
    ensures Accounted(b', launches, closedDone + [b.controls[job].sequence])
  {
    var n := b.controls[job].sequence;
    var more := closedDone + [n];
    assert forall m :: m in more <==> m in closedDone || m == n;
    forall m | m in launches ensures m in more || exists j :: j in b'.controls && b'.controls[j].sequence == m {
      if m !in more {
        var j :| j in b.controls && b.controls[j].sequence == m;
        assert j in b'.controls && b'.controls[j].sequence == m;
      }
    }
  }

  lemma DrainKeepsAccounts(b: Book, order: seq<string>, launches: seq<nat>, closedDone: seq<nat>)
    requires Accounted(b, launches, closedDone) && Enumerates(order, b.controls.Keys)
    ensures Accounted(ShutDown(b), launches, closedDone + DoneOfAll(b, order))
  {
    var rest := DoneOfAll(b, order);
    var more := closedDone + rest;
    assert forall i :: 0 <= i < |rest| ==> order[i] in b.controls && rest[i] == b.controls[order[i]].sequence;
    assert Distinct(more);
    forall m | m in launches ensures m in more {
      if m !in closedDone {
        var j :| j in b.controls && b.controls[j].sequence == m;
        var i :| 0 <= i < |order| && order[i] == j;
        assert rest[i] == m;
      }
    }
  }

  /** A job takes or gives back a slot, as a control or inside RunJob. */
  lemma SlotChanges(active: set<string>, controls: set<string>, direct: set<string>, job: string)
    requires Slots(active, controls, direct)
    ensures job !in active ==> Slots(active + {job}, controls + {job}, direct)
    ensures job !in active ==> Slots(active + {job}, controls, direct + {job})
    ensures job in controls ==> Slots(active - {job}, controls - {job}, direct)
    ensures job in direct ==> job !in controls && Slots(active - {job}, controls, direct - {job})
    ensures Slots(active - controls, {}, direct)
  {
  }

  lemma PopKeepsBook(b: Book, at: nat)
    requires BookOk(b) && MayLaunch(b) && at < |b.queue|
    ensures BookOk(Popped(b, at)) && (Covered(b) ==> Covered(Popped(b, at)))
  {
    hide Consistent, Covered, Without;
    PopKeepsCover(b, at);
  }

  lemma LaunchKeepsInv(s: System, at: nat)
    requires Inv(s) && Enabled(s, Launch(at))
    ensures Inv(Do(s, Launch(at)))
  {
    hide Covered, Accounted, Without, Popped, Conserved, Consistent, Slots;
    assert Do(s, Launch(at)) == DoLaunch(s, at);
    hide Do;
    var b := s.book;
    PoppedIs(b, at);
    PopKeepsBook(b, at);
    var item := b.queue[at];
    if Fresh(b.pending, item) {
      SlotChanges(b.active, b.controls.Keys, s.direct, item.job);
      LaunchFlows(b.controls.Keys, s.running, s.results, item.job);
      LaunchKeepsAccounts(b, Popped(b, at), item.job, s.launches, s.closedDone);
    } else {
      SameAccounts(b, Popped(b, at), s.launches, s.closedDone);
    }
  }

  /** What a pop does beside the heap. */
  lemma PoppedIs(b: Book, at: nat)
    requires at < |b.queue|
    ensures var item, b' := b.queue[at], Popped(b, at);
            && b'.sequence == b.sequence && b'.started == b.started
            && (if Fresh(b.pending, item)
                then && b'.pending == Launched(b, item.job).pending && b'.controls == Launched(b, item.job).controls
                     && b'.controls.Keys == b.controls.Keys + {item.job} && b'.active == b.active + {item.job}
                else b'.pending == b.pending && b'.controls == b.controls && b'.active == b.active)
  {
    hide Without;
  }

  lemma LaunchFlows(controls: set<string>, running: set<string>, results: seq<string>, job: string)
    requires Conserved(controls, running, results, {}) && job !in controls
    ensures Conserved(controls + {job}, running + {job}, results, {})
  {
  }

  lemma SameAccounts(b: Book, b': Book, launches: seq<nat>, closedDone: seq<nat>)
    requires Accounted(b, launches, closedDone)
    requires b'.sequence == b.sequence && b'.pending == b.pending && b'.controls == b.controls
    ensures Accounted(b', launches, closedDone)
  {
  }

  /** The job leaves active and controls. */
  function Retired(b: Book, job: string): Book {
    b.(active := b.active - {job}, controls := b.controls - {job})
  }

  lemma RetireKeepsBook(b: Book, job: string)
    requires BookOk(b) && job in b.controls
    ensures BookOk(Retired(b, job)) && (Covered(b) ==> Covered(Retired(b, job))) && job !in Retired(b, job).active
    ensures var r := Retired(b, job);
            && r.controls == b.controls - {job} && r.controls.Keys == b.controls.Keys - {job}
               && r.active == b.active - {job}
            && r.pending == b.pending && r.sequence == b.sequence && r.started == b.started
               && r.maxActive == b.maxActive
  {
    SameHeap(b, Retired(b, job));
    hide Consistent, Covered;
  }

  lemma FinishedIsMild(b: Book, job: string, requeue: bool)
    requires BookOk(b) && job in b.controls
    ensures Mild(Retired(b, job), Finished(b, job, requeue))
  {
    RetireKeepsBook(b, job);
    var r := Retired(b, job);
    BookIsMild(r);
    if requeue { PushIsMild(r, job, 0); }
    var p := if requeue then Pushed(r, job, 0) else r;
    MildKeepsBook(r, p);
    SignalIsMild(p);
    MildTrans(r, p, Signalled(p));
  }

  lemma FinishFlows(controls: set<string>, running: set<string>, results: seq<string>, job: string)
    requires Conserved(controls, running, results, {job})
    ensures job in controls && Conserved(controls - {job}, running, results, {})
  {
  }

  lemma EndFinishKeepsInv(s: System)
    requires Inv(s) && Enabled(s, EndFinish)
    ensures Inv(Do(s, EndFinish))
  {
    hide Accounted, Finished, BookOk, Covered, Conserved, TicketsKept, Retired, Slots;
    var b, job := s.book, s.mode.job;
    SlotChanges(b.active, b.controls.Keys, s.direct, job);
    FinishFlows(b.controls.Keys, s.running, s.results, job);
    RetireKeepsBook(b, job);
    FinishKeepsAccounts(b, Retired(b, job), job, s.launches, s.closedDone);
    FinishedIsMild(b, job, s.mode.requeue);
    MildKeepsAccounts(Retired(b, job), Finished(b, job, s.mode.requeue), s.launches,
        s.closedDone + [b.controls[job].sequence]);
  }

  lemma ReceiveFlows(controls: set<string>, running: set<string>, results: seq<string>)
    requires Conserved(controls, running, results, {}) && results != []
    ensures results[0] in controls && Conserved(controls, running, results[1..], {results[0]})
  {
    assert results == [results[0]] + results[1..];
  }

  lemma ReceiveKeepsInv(s: System)
    requires Inv(s) && Enabled(s, Receive)
    ensures Inv(Do(s, Receive))
  {
    hide Slots, Accounted, Consistent, Covered, Conserved;
    var b, job := s.book, s.results[0];
    ReceiveFlows(b.controls.Keys, s.running, s.results);
    SameHeap(b, FinishStarted(b, job));
    SameAccounts(b, FinishStarted(b, job), s.launches, s.closedDone);
  }

  lemma SendFlows(controls: set<string>, running: set<string>, results: seq<string>, hand: set<string>, job: string)
    requires Conserved(controls, running, results, hand) && job in running
    ensures Conserved(controls, running - {job}, results + [job], hand)
  {
    assert forall j :: j in results + [job] <==> j in results || j == job;
  }

  lemma SendKeepsInv(s: System, job: string)
    requires Inv(s) && Enabled(s, Send(job))
    ensures Inv(Do(s, Send(job)))
  {
    assert !s.mode.Done?;
    SendFlows(s.book.controls.Keys, s.running, s.results, InHand(s.mode), job);
    hide Slots, BookOk, Accounted, Covered, Conserved;
  }

  lemma ShutDownKeepsBook(b: Book)
    requires BookOk(b)
    ensures BookOk(ShutDown(b)) && ShutDown(b).controls.Keys == {}
  {
    SameHeap(b, ShutDown(b));
    ActiveShrinks(b.active, b.controls.Keys);
    hide Consistent;
  }

  lemma DrainKeepsInv(s: System, order: seq<string>)
    requires Inv(s) && Enabled(s, Drain(order))
    ensures Inv(Do(s, Drain(order)))
  {
    hide Accounted, BookOk, Consistent, Covers, DoneOfAll, Conserved, Enumerates, Slots;
    SlotChanges(s.book.active, s.book.controls.Keys, s.direct, "");
    ShutDownKeepsBook(s.book);
    DrainKeepsAccounts(s.book, order, s.launches, s.closedDone);
  }

  lemma ActiveShrinks(active: set<string>, gone: set<string>)
    ensures |active - gone| <= |active|
  {
    assert active == (active - gone) + (active * gone);
  }

  lemma DirectKeepsBook(b: Book, job: string)
    requires BookOk(b)
    ensures Admits(b, job) ==> BookOk(b.(active := b.active + {job}))
    ensures job !in b.controls ==> BookOk(Signalled(b.(active := b.active - {job})))
  {
    SameHeap(b, b.(active := b.active + {job}));
    SameHeap(b, Signalled(b.(active := b.active - {job})));
    hide Consistent;
  }

  lemma AdmitKeepsInv(s: System, job: string)
    requires Inv(s) && Enabled(s, Admit(job))
    ensures Inv(Do(s, Admit(job)))
  {
    hide Accounted, Conserved, Emptied, BookOk, Enumerates, Slots, Consistent, Covers;
    SlotChanges(s.book.active, s.book.controls.Keys, s.direct, job);
    DirectKeepsBook(s.book, job);
    SameAccounts(s.book, s.book.(active := s.book.active + {job}), s.launches, s.closedDone);
  }

  lemma LeaveKeepsInv(s: System, job: string)
    requires Inv(s) && Enabled(s, Leave(job))
    ensures Inv(Do(s, Leave(job)))
  {
    hide Accounted, Conserved, Emptied, BookOk, Enumerates, Slots, Consistent, Covers;
    SlotChanges(s.book.active, s.book.controls.Keys, s.direct, job);
    DirectKeepsBook(s.book, job);
    SameAccounts(s.book, Signalled(s.book.(active := s.book.active - {job})), s.launches, s.closedDone);
  }

  /** Steps that change a flag, the mode or nothing of interest. */
  predicate Minor(x: Step) {
    x.Begin? || x.RunQueue? || x.NothingToLaunch? || x.Wake? || x.Close? || x.CancelContext?
  }

  lemma MinorKeepsInv(s: System, x: Step)
    requires Inv(s) && Enabled(s, x) && Minor(x)
    ensures Inv(Do(s, x))
  {
    hide Slots, Accounted, Conserved, Emptied, Consistent, Enumerates;
    var b' := Do(s, x).book;
    assert b'.queue == s.book.queue && b'.pending == s.book.pending && b'.sequence == s.book.sequence
           && b'.controls == s.book.controls;
    SameHeap(s.book, b');
    SameAccounts(s.book, b', s.launches, s.closedDone);
  }

  lemma StopKeepsInv(s: System)
    requires Inv(s) && Enabled(s, Stop)
    ensures Inv(Do(s, Stop))
  {
    hide Slots, Accounted, Conserved, Emptied, Consistent, Covered, Enumerates;
    var b' := ActiveStopped(s.book);
    SameHeap(s.book, b');
    assert b'.controls.Keys == s.book.controls.Keys;
    assert Mild(s.book, b');
    MildKeepsAccounts(s.book, b', s.launches, s.closedDone);
  }

  lemma PromoteKeepsInv(s: System, order: seq<string>)
    requires Inv(s) && Enabled(s, Promote(order))
    ensures Inv(Do(s, Promote(order)))
  {
    hide Slots, Accounted, Conserved, Emptied, BookOk, Covered, Enumerates, TicketsKept, Promoted;
    PromoteIsMild(s.book, order);
    MildKeepsAccounts(s.book, Promoted(s.book, order), s.launches, s.closedDone);
    NothingPending(s.book);
  }

  lemma NothingPending(b: Book)
    ensures |b.pending| == 0 ==> Idle(b)
  {
  }

  /** The regions of callers that are mild. */
  lemma CallerKeepsInv(s: System, x: Step)
    requires Inv(s) && Enabled(s, x)
    requires x.StartJob? || x.PauseQueue? || x.ResumeQueue? || x.PauseJob? || x.CancelJob? || x.DeleteJob?
    ensures Inv(Do(s, x))
  {
    hide BookOk, Mild, Wakes, Enqueued, QueuePaused, QueueResumed, JobPaused, JobCancelled, Compacted, Enumerates,
        Covered, Flow, Accounted, Woken;
    match x
    case StartJob(job, priority) =>
      EnqueueIsMild(s.book, job, priority);
      MildKeepsInv(s, Enqueued(s.book, job, priority));
    case PauseQueue => PauseIsMild(s.book); MildKeepsInv(s, QueuePaused(s.book));
    case ResumeQueue(order) => ResumeIsMild(s.book, order); MildKeepsInv(s, QueueResumed(s.book, order));
    case PauseJob(job) => PauseJobIsMild(s.book, job); MildKeepsInv(s, JobPaused(s.book, job));
    case CancelJob(job, d) => CancelIsMild(s.book, job, d); MildKeepsInv(s, JobCancelled(s.book, job, d));
    case DeleteJob(job) =>
      DeleteIsMild(s.book, job);
      MildKeepsInv(s, Compacted(s.book.(pending := s.book.pending - {job})));
  }

  lemma StepKeepsInv(s: System, x: Step)
    requires Inv(s) && Enabled(s, x)
    ensures Inv(Do(s, x))
  {
    hide Inv, Enabled, Do;
    match x
    case Promote(order) => PromoteKeepsInv(s, order);
    case Admit(job) => AdmitKeepsInv(s, job);
    case Leave(job) => LeaveKeepsInv(s, job);
    case Launch(at) => LaunchKeepsInv(s, at);
    case Send(job) => SendKeepsInv(s, job);
    case Receive => ReceiveKeepsInv(s);
    case EndFinish => EndFinishKeepsInv(s);
    case Stop => StopKeepsInv(s);
    case Drain(order) => DrainKeepsInv(s, order);
    case _ => if Minor(x) { MinorKeepsInv(s, x); } else { CallerKeepsInv(s, x); }
  }

  lemma {:induction false} RunKeepsInv(s: System, steps: seq<Step>)
    requires Inv(s) && Runs(s, steps)
    ensures Inv(Last(s, steps))
    decreases |steps|
  {
    hide Inv, Enabled, Do;
    if steps != [] {
      StepKeepsInv(s, steps[0]);
      RunKeepsInv(Do(s, steps[0]), steps[1..]);
    }
  }

  lemma Reachable(s: System, steps: seq<Step>)
    requires Init(s) && Runs(s, steps)
    ensures Inv(Last(s, steps))
  {
    RunKeepsInv(s, steps);
  }

  // ----- the dispatcher refines the plain queue

  /** A job is launched exactly when the popped entry is backed by its ticket; once the pending jobs
      have been promoted it is then the best pending job: the highest priority, and of those the
      lowest sequence. A stale entry changes nothing but the heap. */
  lemma LaunchesAreBest(s: System, steps: seq<Step>, at: nat)
    requires Init(s) && Runs(s, steps) && Enabled(Last(s, steps), Launch(at))
    ensures var t, item := Last(s, steps), Last(s, steps).book.queue[at];
            var u := Do(t, Launch(at));
            && !t.book.queuePaused && |t.book.active| < t.book.maxActive
            && (Fresh(t.book.pending, item) ==>
                  && (t.promoted ==> IsBest(t.book.pending, item.job))
                  && item == EntryOf(t.book.pending, item.job) && item.sequence !in t.launches
                  && Plain(u.book) == Launched(Plain(t.book), item.job))
            && (!Fresh(t.book.pending, item) ==> u.(book := Plain(u.book)) == t.(book := Plain(t.book)))
  {
    Reachable(s, steps);
    var t := Last(s, steps);
    LaunchIsBest(t, at);
  }

  lemma LaunchIsBest(t: System, at: nat)
    requires Inv(t) && Enabled(t, Launch(at))
    ensures var item, u := t.book.queue[at], Do(t, Launch(at));
            && (Fresh(t.book.pending, item) ==>
                  && (t.promoted ==> IsBest(t.book.pending, item.job))
                  && item == EntryOf(t.book.pending, item.job) && item.sequence !in t.launches
                  && Plain(u.book) == Launched(Plain(t.book), item.job))
            && (!Fresh(t.book.pending, item) ==> u.(book := Plain(u.book)) == t.(book := Plain(t.book)))
  {
    hide Covered, Conserved, Emptied, Enumerates, Without;
    var item := t.book.queue[at];
    assert Do(t, Launch(at)) == DoLaunch(t, at);
    hide Do;
    assert item in t.book.queue;
    if Fresh(t.book.pending, item) && t.promoted { LaunchTakesBest(t.book, at); }
  }

  /** Only a launch by the queue goroutine starts a job, and each enqueue is launched at most once. */
  lemma EachEnqueueLaunchesOnce(s: System, steps: seq<Step>)
    requires Init(s) && Runs(s, steps)
    ensures var t := Last(s, steps);
            && Distinct(t.launches) && (forall n :: n in t.launches ==> n <= t.book.sequence)
            && (forall j :: j in t.book.pending ==> t.book.pending[j].sequence !in t.launches)
  {
    Reachable(s, steps);
  }

  /** Along any steps without ResumeQueue from a paused state no queued job is launched. RunJob, which
      does not look at the pause, is the one way for a job to become active. */
  lemma {:induction false} NothingLaunchesWhilePaused(s: System, steps: seq<Step>)
    requires s.book.queuePaused && Runs(s, steps) && forall i :: 0 <= i < |steps| ==> !steps[i].ResumeQueue?
    ensures var t := Last(s, steps);
            && t.book.queuePaused && t.launches == s.launches && (forall j :: j in t.running ==> j in s.running)
            && forall j :: j in t.book.active && j !in s.book.active ==> Admit(j) in steps
    decreases |steps|
  {
    hide Enabled, Do;
    if steps != [] {
      var n, rest := Do(s, steps[0]), steps[1..];
      PausedStep(s, steps[0]);
      NothingLaunchesWhilePaused(n, rest);
      var t := Last(s, steps);
      forall j | j in t.book.active && j !in s.book.active ensures Admit(j) in steps {
        if j in n.book.active { assert steps[0] == Admit(j); } else { assert Admit(j) in rest; }
      }
    }
  }

  ghost predicate StaysPaused(s: System, x: Step)
    requires Enabled(s, x)
  {
    var n := Do(s, x);
    && n.book.queuePaused && n.launches == s.launches && (forall j :: j in n.running ==> j in s.running)
    && forall j :: j in n.book.active && j !in s.book.active ==> x == Admit(j)
  }

  predicate ByCaller(x: Step) {
    x.StartJob? || x.PauseJob? || x.CancelJob? || x.DeleteJob? || x.EndFinish? || x.Promote?
  }

  lemma PausedCaller(s: System, x: Step)
    requires Enabled(s, x) && s.book.queuePaused && ByCaller(x)
    ensures StaysPaused(s, x)
  {
    var b := s.book;
    hide Enumerates, DoneOfAll, LeastAt, Enqueued, JobPaused, Compacted, Finished, Promoted, JobCancelled;
    match x
    case StartJob(job, priority) => EnqueueStaysPaused(b, job, priority);
    case PauseJob(job) => PauseStaysPaused(b, job, true);
    case CancelJob(job, d) => PauseStaysPaused(b, job, d);
    case DeleteJob(job) => CompactStaysPaused(b.(pending := b.pending - {job}));
    case EndFinish => FinishStaysPaused(b, s.mode.job, s.mode.requeue);
    case Promote(order) => PromoteStaysPaused(b, order);
  }

  lemma PausedStep(s: System, x: Step)
    requires Enabled(s, x) && s.book.queuePaused && !x.ResumeQueue?
    ensures StaysPaused(s, x)
  {
    if ByCaller(x) {
      hide Enabled, Do, StaysPaused;
      PausedCaller(s, x);
    } else {
      hide Enumerates, DoneOfAll, LeastAt, Enqueued, JobPaused, Compacted, Finished, Promoted, JobCancelled;
    }
  }

  lemma CompactStaysPaused(b: Book)
    ensures Compacted(b).queuePaused == b.queuePaused && Compacted(b).active == b.active
  {
  }

  lemma EnqueueStaysPaused(b: Book, job: string, priority: int)
    ensures Enqueued(b, job, priority).queuePaused == b.queuePaused && Enqueued(b, job, priority).active == b.active
  {
  }

  lemma FinishStaysPaused(b: Book, job: string, requeue: bool)
    ensures Finished(b, job, requeue).queuePaused == b.queuePaused
              && Finished(b, job, requeue).active == b.active - {job}
  {
  }

  lemma PauseStaysPaused(b: Book, job: string, d: bool)
    ensures JobPaused(b, job).queuePaused == b.queuePaused && JobPaused(b, job).active == b.active
    ensures JobCancelled(b, job, d).queuePaused == b.queuePaused && JobCancelled(b, job, d).active == b.active
  {
  }

  lemma PromoteStaysPaused(b: Book, order: seq<string>)
    requires Enumerates(order, b.pending.Keys)
    ensures Promoted(b, order).queuePaused == b.queuePaused && Promoted(b, order).active == b.active
  {
  }

  /** The queue goroutine goes to sleep, and stays asleep without a wake-up, only when the queue is
      paused, the house is full or nothing is pending: no job is forgotten behind stale entries. */
  lemma NoJobIsForgotten(s: System, steps: seq<Step>)
    requires Init(s) && Runs(s, steps) && Last(s, steps).promoted && Last(s, steps).mode.Selecting?
    ensures var b := Last(s, steps).book;
            b.wake || b.queuePaused || |b.active| >= b.maxActive || forall j :: j !in b.pending
  {
    Reachable(s, steps);
  }

  // ----- conservation

  /** Pending and active are disjoint, active is bounded, and the controls are exactly the running jobs,
      the undelivered results and the job in hand. */
  lemma JobsAreConserved(s: System, steps: seq<Step>)
    requires Init(s) && Runs(s, steps)
    ensures var t := Last(s, steps);
            && (forall j :: j in t.book.pending ==> j !in t.book.active) && |t.book.active| <= t.book.maxActive
            && Slots(t.book.active, t.book.controls.Keys, t.direct)
            && (!t.mode.Done? ==> Conserved(t.book.controls.Keys, t.running, t.results, InHand(t.mode)))
  {
    Reachable(s, steps);
  }

  lemma {:induction false} SetOfResults(results: seq<string>, all: set<string>)
    requires forall i, j :: 0 <= i < j < |results| ==> results[i] != results[j]
    requires forall j :: j in results ==> j in all
    ensures |results| <= |all|
    decreases |results|
  {
    if results != [] {
      var last := results[|results| - 1];
      var rest := all - {last};
      SetOfResults(results[..|results| - 1], rest);
      assert all == rest + {last};
    }
  }

  lemma ControlsFit(b: Book)
    requires BookOk(b)
    ensures |b.controls.Keys| <= b.maxActive
  {
    assert b.controls.Keys <= b.active;
    ActiveShrinks(b.active, b.active - b.controls.Keys);
    assert b.active - (b.active - b.controls.Keys) == b.controls.Keys;
  }

  /** A job goroutine never blocks on the results channel, not even while the manager shuts down and
      nobody receives. */
  lemma SendNeverBlocks(s: System, steps: seq<Step>, job: string)
    requires Init(s) && Runs(s, steps) && job in Last(s, steps).running
    ensures Enabled(Last(s, steps), Send(job))
  {
    Reachable(s, steps);
    var t := Last(s, steps);
    ControlsFit(t.book);
    var all := t.book.controls.Keys - {job};
    assert t.book.controls.Keys == all + {job};
    SetOfResults(t.results, all);
  }

  /** Every done channel is closed at most once, and when the queue goroutine has ended, every launch
      has had its channel closed: exactly once. */
  lemma DoneClosedExactlyOnce(s: System, steps: seq<Step>)
    requires Init(s) && Runs(s, steps)
    ensures var t := Last(s, steps);
            && Distinct(t.closedDone) && (forall n :: n in t.closedDone ==> n in t.launches)
            && (t.mode.Done? ==> forall n :: n in t.launches ==> n in t.closedDone)
  {
    Reachable(s, steps);
  }

  // ----- what callers get

  /** First come, first served within a priority: a new job is next in line exactly when every job that
      is already pending has a lower priority, and it takes nobody else's place. */
  lemma NewJobIsNextIff(b: Book, job: string, priority: int)
    requires BookOk(b) && VerdictOn(b, job) == Enqueue
    ensures var b' := Enqueued(b, job, priority);
            && job in b'.pending && b'.pending - {job} == b.pending && b'.pending[job].priority == priority
            && (IsBest(b'.pending, job) <==> forall j :: j in b.pending ==> b.pending[j].priority < priority)
  {
    hide Enqueued, EntriesMatch, TicketsDistinct, IsBest;
    EnqueuedTickets(b, job, priority);
    LastIsBestIff(b.pending, job, priority, b.sequence);
  }

  lemma EnqueuedTickets(b: Book, job: string, priority: int)
    requires BookOk(b) && VerdictOn(b, job) == Enqueue
    ensures Enqueued(b, job, priority).pending == b.pending[job := Ticket(priority, b.sequence + 1)]
  {
    PushIsMild(b, job, priority);
    hide Pushed, BookOk, Mild;
    var p := Pushed(b, job, priority);
    assert p.pending == p.(queue := []).pending;
  }

  lemma LastIsBestIff(pending: map<string, Ticket>, job: string, priority: int, sequence: nat)
    requires TicketsDistinct(pending, sequence) && job !in pending
    ensures var pending' := pending[job := Ticket(priority, sequence + 1)];
            && pending' - {job} == pending
            && (IsBest(pending', job) <==> forall j :: j in pending ==> pending[j].priority < priority)
  {
    var pending' := pending[job := Ticket(priority, sequence + 1)];
    if IsBest(pending', job) {
      forall j | j in pending ensures pending[j].priority < priority {
        assert j in pending' && EntryOf(pending', j) == EntryOf(pending, j);
      }
    }
  }

  /** ResumeQueue requeues every queue-paused job that is not active, and disturbs no ticket. */
  lemma {:induction false} ResumeRequeuesAll(b: Book, order: seq<string>)
    requires BookOk(b)
    ensures var b' := RequeuedAll(b, order);
            && (forall j :: j in order ==> j in b'.pending || j in b'.active)
            && (forall j :: j in b.pending ==> j in b'.pending && b'.pending[j] == b.pending[j])
            && b'.active == b.active && (forall j :: j in b'.pausedIds <==> j in b.pausedIds && j !in order)
    decreases |order|
  {
    if order != [] {
      var init, job := order[..|order| - 1], order[|order| - 1];
      ResumeRequeuesAll(b, init);
      RequeueIsMild(b, init);
      var mid := RequeuedAll(b, init);
      assert order == init + [job];
      RequeuedAllStep(b, order);
      hide RequeuedAll, Pushed, BookOk, Covered;
      if job !in mid.active && job !in mid.pending {
        MildKeepsBook(b, mid);
        PushIsMild(mid, job, 0);
        assert Pushed(mid, job, 0).(queue := []).pausedIds == mid.pausedIds;
        assert Pushed(mid, job, 0).(queue := []).pending == mid.pending[job := Ticket(0, mid.sequence + 1)];
      }
    }
  }

  /** Requeued jobs get the default priority and a place behind everybody who was there before. */
  lemma {:induction false} RequeuedLineUp(b: Book, order: seq<string>)
    requires BookOk(b)
    ensures var b' := RequeuedAll(b, order);
            && b.sequence <= b'.sequence
            && forall j :: j in b'.pending && j !in b.pending ==>
                 b'.pending[j].priority == 0 && b.sequence < b'.pending[j].sequence
    decreases |order|
  {
    if order != [] {
      var init, job := order[..|order| - 1], order[|order| - 1];
      RequeuedLineUp(b, init);
      RequeueIsMild(b, init);
      var mid := RequeuedAll(b, init);
      RequeuedAllStep(b, order);
      hide RequeuedAll, BookOk, Covered;
      MildKeepsBook(b, mid);
      RequeuedTicket(mid, job);
      hide Requeued;
    }
  }

  lemma RequeuedTicket(b: Book, job: string)
    requires BookOk(b)
    ensures var b' := Requeued(b, job);
            && b.sequence <= b'.sequence <= b.sequence + 1
            && (b'.pending == b.pending || (b'.sequence == b.sequence + 1
                && b'.pending == b.pending[job := Ticket(0, b'.sequence)]))
  {
    PushKeepsCover(b, job, 0);
    hide Pushed, Consistent, Covered;
    var p := Pushed(b, job, 0);
    assert Plain(p).pending == p.pending && Plain(p).sequence == p.sequence;
  }

  /** A queue-paused job that comes back waits behind every job of its priority that was pending. */
  lemma ResumedJobsWaitBehind(b: Book, order: seq<string>)
    requires BookOk(b)
    ensures var b' := QueueResumed(b, order);
            forall j :: j in b'.pending && j !in b.pending ==>
              b'.pending[j].priority == 0 && b.sequence < b'.pending[j].sequence
  {
    var r := b.(queuePaused := false);
    SameHeap(b, r);
    assert BookOk(r) by { hide Consistent, Covered; }
    RequeuedLineUp(r, order);
    hide BookOk, RequeuedAll;
  }
}
