/** Quota retry timers and the shutdown that waits for them, after a successful Start. Each mutex
    region is one step, and so is each firing, entry into and return from ResumeJob, and each receive
    on a done channel. */
module QuotaTimers {
  import opened SegmentPlan

  /** Where a timer or its callback stands. Unlisted: the deferred region has run, finish has not. */
  datatype Phase = Scheduled | Stopped | Fired | Checked | Inside | Deferred | Unlisted | Finished

  datatype Timer = Timer(job: string, phase: Phase)

  /** The first CloseContext. waiting: the timers of its snapshot not yet received from. */
  datatype Closing = NotCalled | Marked | Cancelled | Waiting(waiting: set<nat>) | ReturnedNil | ReturnedError

  /** returnedAgain: a CloseContext other than the first has returned nil. listed is quotaAll,
      latest is quotaTimers; snapshot holds the timers the drain has collected. */
  datatype State = State(
    timers: map<nat, Timer>, latest: map<string, nat>, listed: set<nat>, snapshot: set<nat>,
    closed: bool, cancelled: bool, closing: Closing, returnedAgain: bool)

  datatype Step =
    | Schedule(job: string, id: nat) | StopFor(job: string)
    | Fire(id: nat) | Check(id: nat) | Enter(id: nat) | Leave(id: nat) | Unlist(id: nat) | Finish(id: nat)
    | CancelContext | Close | CloseCancel | CloseDrain | CloseReceive(id: nat) | CloseReturn | CloseTimeout | CloseAgain

  predicate In(s: State, id: nat, phase: Phase) {
    id in s.timers && s.timers[id].phase == phase
  }

  /** timer.done is closed. */
  predicate DoneClosed(s: State, id: nat) {
    In(s, id, Stopped) || In(s, id, Finished)
  }

  ghost predicate Enabled(s: State, x: Step) {
    match x
    case Schedule(job, id) => !s.closed && !s.cancelled && id !in s.timers
    case StopFor(_) => true
    case Fire(id) => In(s, id, Scheduled)
    case Check(id) => In(s, id, Fired)
    case Enter(id) => In(s, id, Checked)
    case Leave(id) => In(s, id, Inside)
    case Unlist(id) => In(s, id, Deferred)
    case Finish(id) => In(s, id, Unlisted)
    case CancelContext => true
    case Close => !s.closed
    case CloseCancel => s.closing.Marked?
    case CloseDrain => s.closing.Cancelled?
    case CloseReceive(id) => s.closing.Waiting? && id in s.closing.waiting && DoneClosed(s, id)
    case CloseReturn => s.closing.Waiting? && forall id :: id !in s.closing.waiting
    case CloseTimeout => s.closing.Waiting?
    case CloseAgain => s.closed
  }

  function Move(s: State, id: nat, phase: Phase): State
    requires id in s.timers
  {
    s.(timers := s.timers[id := s.timers[id].(phase := phase)])
  }

  /** timer.Stop succeeds only before the timer fires; then done is closed and the timer unlisted. */
  function StopOne(s: State, id: nat): State {
    if In(s, id, Scheduled) then Move(s, id, Stopped).(listed := s.listed - {id}) else s
  }

  /** The region shared by PauseJob, ResumeJob and CancelJob. */
  function DoStopFor(s: State, job: string): State {
    if job in s.latest then var t := StopOne(s, s.latest[job]); t.(latest := t.latest - {job}) else s
  }

  function DoSchedule(s: State, job: string, id: nat): State {
    var t := if job in s.latest then StopOne(s, s.latest[job]) else s;
    t.(timers := t.timers[id := Timer(job, Scheduled)], latest := t.latest[job := id], listed := t.listed + {id})
  }

  function DoUnlist(s: State, id: nat): State
    requires id in s.timers
  {
    var job := s.timers[id].job;
    var t := Move(s, id, Unlisted).(listed := s.listed - {id});
    if job in s.latest && s.latest[job] == id then t.(latest := s.latest - {job}) else t
  }

  /** The drain region of CloseContext: stop what can be stopped, remember the rest. */
  function DoDrain(s: State): State {
    s.(timers := map id | id in s.timers ::
                   if id in s.listed && s.timers[id].phase.Scheduled? then s.timers[id].(phase := Stopped)
                       else s.timers[id],
       latest := map[], listed := {}, snapshot := s.listed, closing := Waiting(s.listed))
  }

  function Do(s: State, x: Step): State
    requires Enabled(s, x)
  {
    match x
    case Schedule(job, id) => DoSchedule(s, job, id)
    case StopFor(job) => DoStopFor(s, job)
    case Fire(id) => Move(s, id, Fired)
    case Check(id) => Move(s, id, if s.closed || s.cancelled then Deferred else Checked)
    case Enter(id) => Move(s, id, Inside)
    case Leave(id) => Move(s, id, Deferred)
    case Unlist(id) => DoUnlist(s, id)
    case Finish(id) => Move(s, id, Finished)
    case CancelContext => s.(cancelled := true)
    case Close => s.(closed := true, closing := Marked)
    case CloseCancel => s.(cancelled := true, closing := Cancelled)
    case CloseDrain => DoDrain(s)
    case CloseReceive(id) => s.(closing := Waiting(s.closing.waiting - {id}))
    case CloseReturn => s.(closing := ReturnedNil)
    case CloseTimeout => s.(closing := ReturnedError)
    case CloseAgain => s.(returnedAgain := true)
  }

  ghost predicate Init(s: State) {
    s == State(map[], map[], {}, {}, false, false, NotCalled, false)
  }

  ghost predicate Runs(s: State, steps: seq<Step>)
    decreases |steps|
  {
    steps == [] || (Enabled(s, steps[0]) && Runs(Do(s, steps[0]), steps[1..]))
  }

  ghost function Last(s: State, steps: seq<Step>): State
    requires Runs(s, steps)
    decreases |steps|
  {
    if steps == [] then s else Last(Do(s, steps[0]), steps[1..])
  }

  // ----- what every step keeps

  /** A callback that may still be running, or may yet run. */
  predicate Alive(phase: Phase) {
    phase.Fired? || phase.Checked? || phase.Inside? || phase.Deferred?
  }

  predicate Drained(closing: Closing) {
    closing.Waiting? || closing.ReturnedNil? || closing.ReturnedError?
  }

  /** An armed timer is listed; a live callback is listed or in the snapshot. */
  ghost predicate Tracked(s: State) {
    && (forall id :: id in s.timers && s.timers[id].phase.Scheduled? ==> id in s.listed)
    && (forall id :: id in s.timers && Alive(s.timers[id].phase) ==> id in s.listed || id in s.snapshot)
  }

  /** The snapshot is what is still awaited and what has closed its done channel. */
  ghost predicate Awaited(s: State) {
    && (s.closing.Waiting? ==> forall id :: id in s.snapshot ==> id in s.closing.waiting || DoneClosed(s, id))
    && (s.closing.ReturnedNil? ==> forall id :: id in s.snapshot ==> DoneClosed(s, id))
  }

  /** The armed timer of a job is the one its entry names; entries name timers of their own job. */
  ghost predicate Named(s: State) {
    && (forall id :: id in s.timers && s.timers[id].phase.Scheduled? ==>
          s.timers[id].job in s.latest && s.latest[s.timers[id].job] == id)
    && (forall job :: job in s.latest ==> s.latest[job] in s.timers && s.timers[s.latest[job]].job == job)
  }

  ghost predicate Inv(s: State) {
    && Tracked(s) && Awaited(s) && Named(s)
    && (s.closed <==> !s.closing.NotCalled?)
    && (Drained(s.closing) ==> forall id :: id !in s.listed)
    && (!Drained(s.closing) ==> forall id :: id !in s.snapshot)
  }

  lemma StopKeepsInv(s: State, id: nat)
    requires Inv(s)
    ensures Inv(StopOne(s, id))
  {
  }

  lemma DrainKeepsInv(s: State)
    requires Inv(s) && Enabled(s, CloseDrain)
    ensures Inv(DoDrain(s))
  {
  }

  lemma ScheduleKeepsInv(s: State, job: string, id: nat)
    requires Inv(s) && Enabled(s, Schedule(job, id))
    ensures Inv(DoSchedule(s, job, id))
  {
    if job in s.latest { StopKeepsInv(s, s.latest[job]); }
  }

  /** A timer that is armed or has a live callback moves on. */
  lemma MoveKeepsInv(s: State, id: nat, phase: Phase)
    requires Inv(s) && id in s.timers && !phase.Scheduled? && !DoneClosed(s, id)
    requires Alive(phase) ==> s.timers[id].phase.Scheduled? || Alive(s.timers[id].phase)
    ensures Inv(Move(s, id, phase))
  {
  }

  lemma UnlistKeepsInv(s: State, id: nat)
    requires Inv(s) && In(s, id, Deferred)
    ensures Inv(DoUnlist(s, id))
  {
    MoveKeepsInv(s, id, Unlisted);
    var t := Move(s, id, Unlisted);
    assert id in t.timers && t.timers[id] == Timer(s.timers[id].job, Unlisted) && t.latest == s.latest
           && t.listed == s.listed;
    hide Move, Awaited;
    SameWait(t, DoUnlist(s, id));
  }

  lemma SameWait(s: State, t: State)
    requires t.timers == s.timers && t.closing == s.closing && t.snapshot == s.snapshot
    ensures Awaited(s) <==> Awaited(t)
  {
  }

  lemma CallbackKeepsInv(s: State, x: Step)
    requires Inv(s) && Enabled(s, x) && (x.Fire? || x.Check? || x.Enter? || x.Leave? || x.Unlist? || x.Finish?)
    ensures Inv(Do(s, x))
  {
    hide Inv, Move, DoUnlist;
    match x
    case Fire(id) => MoveKeepsInv(s, id, Fired);
    case Check(id) => MoveKeepsInv(s, id, if s.closed || s.cancelled then Deferred else Checked);
    case Enter(id) => MoveKeepsInv(s, id, Inside);
    case Leave(id) => MoveKeepsInv(s, id, Deferred);
    case Unlist(id) => UnlistKeepsInv(s, id);
    case Finish(id) => MoveKeepsInv(s, id, Finished);
  }

  lemma StopForKeepsInv(s: State, job: string)
    requires Inv(s)
    ensures Inv(DoStopFor(s, job))
  {
    if job in s.latest { StopKeepsInv(s, s.latest[job]); }
  }

  lemma StepKeepsInv(s: State, x: Step)
    requires Inv(s) && Enabled(s, x)
    ensures Inv(Do(s, x))
  {
    match x
    case Schedule(job, id) => hide Inv; ScheduleKeepsInv(s, job, id);
    case StopFor(job) => hide Inv; StopForKeepsInv(s, job);
    case CloseDrain => hide Inv; DrainKeepsInv(s);
    case CancelContext =>
    case Close =>
    case CloseCancel =>
    case CloseReceive(_) =>
    case CloseReturn =>
    case CloseTimeout =>
    case CloseAgain =>
    case _ => hide Inv, Enabled, Do; CallbackKeepsInv(s, x);
  }

  lemma {:induction false} RunKeepsInv(s: State, steps: seq<Step>)
    requires Inv(s) && Runs(s, steps)
    ensures Inv(Last(s, steps))
    decreases |steps|
  {
    hide Inv, Enabled, Do;
    if steps != [] {
      StepKeepsInv(s, steps[0]);
      RunKeepsInv(Do(s, steps[0]), steps[1..]);
    }
  }

  lemma {:induction false} NilStays(s: State, steps: seq<Step>)
    requires Inv(s) && Runs(s, steps) && s.closing.ReturnedNil?
    ensures Last(s, steps).closing.ReturnedNil?
    decreases |steps|
  {
    if steps != [] {
      StepKeepsInv(s, steps[0]);
      NilStays(Do(s, steps[0]), steps[1..]);
    }
  }

  /** Once the first CloseContext has returned nil, at that moment and after every later step, no
      callback is inside ResumeJob, none is about to enter it and no timer is armed. */
  lemma NoCallbackAfterClose(s: State, steps: seq<Step>, later: seq<Step>, id: nat)
    requires Init(s) && Runs(s, steps) && Last(s, steps).closing.ReturnedNil? && Runs(Last(s, steps), later)
    ensures var t := Last(Last(s, steps), later);
            !In(t, id, Inside) && !Enabled(t, Enter(id)) && !In(t, id, Fired) && !In(t, id, Scheduled)
  {
    RunKeepsInv(s, steps);
    NilStays(Last(s, steps), later);
    RunKeepsInv(Last(s, steps), later);
  }

  /** At most one timer of a job is armed, and after the region of PauseJob, ResumeJob or CancelJob
      none is. */
  lemma OneArmedTimerPerJob(s: State, steps: seq<Step>, a: nat, b: nat)
    requires Init(s) && Runs(s, steps)
    ensures var t := Last(s, steps);
            && (In(t, a, Scheduled) && In(t, b, Scheduled) && t.timers[a].job == t.timers[b].job ==> a == b)
            && forall job :: In(t, a, Scheduled) && t.timers[a].job == job ==> !In(DoStopFor(t, job), a, Scheduled)
  {
    RunKeepsInv(s, steps);
  }

  /** The timer is armed, or its callback has not come to its deferred part's end. */
  predicate Live(s: State, id: nat) {
    id in s.timers && (s.timers[id].phase.Scheduled? || Alive(s.timers[id].phase))
  }

  /** Both maps hold live timers only. */
  ghost predicate NoLeak(s: State) {
    && (forall id :: id in s.listed ==> Live(s, id))
    && (forall job :: job in s.latest ==> Live(s, s.latest[job]) && s.latest[job] in s.listed)
  }

  lemma StepLeaksNothing(s: State, x: Step)
    requires Inv(s) && NoLeak(s) && Enabled(s, x)
    ensures NoLeak(Do(s, x))
  {
    hide Awaited;
    match x
    case Schedule(job, id) => ScheduleLeaksNothing(s, job, id);
    case StopFor(job) => StopLeaksNothing(s, job);
    case Unlist(id) => UnlistLeaksNothing(s, id);
    case CloseDrain =>
    case _ => hide Inv; OtherLeaksNothing(s, x);
  }

  lemma ScheduleLeaksNothing(s: State, job: string, id: nat)
    requires Named(s) && NoLeak(s) && id !in s.timers
    ensures NoLeak(DoSchedule(s, job, id))
  {
  }

  lemma StopLeaksNothing(s: State, job: string)
    requires Named(s) && NoLeak(s)
    ensures NoLeak(DoStopFor(s, job))
  {
  }

  lemma UnlistLeaksNothing(s: State, id: nat)
    requires Named(s) && NoLeak(s) && In(s, id, Deferred)
    ensures NoLeak(DoUnlist(s, id))
  {
  }

  lemma OtherLeaksNothing(s: State, x: Step)
    requires NoLeak(s) && Enabled(s, x) && !x.Schedule? && !x.StopFor? && !x.Unlist? && !x.CloseDrain?
    ensures NoLeak(Do(s, x))
  {
  }

  lemma {:induction false} RunLeaksNothing(s: State, steps: seq<Step>)
    requires Inv(s) && NoLeak(s) && Runs(s, steps)
    ensures NoLeak(Last(s, steps))
    decreases |steps|
  {
    hide Inv, NoLeak, Enabled, Do;
    if steps != [] {
      StepKeepsInv(s, steps[0]);
      StepLeaksNothing(s, steps[0]);
      RunLeaksNothing(Do(s, steps[0]), steps[1..]);
    }
  }

  /** Over every run both maps hold exactly what is needed: a listed timer is armed or has a live callback,
      and before the drain every such timer is listed; a named one is listed. */
  lemma NoTimerLeaks(s: State, steps: seq<Step>, id: nat)
    requires Init(s) && Runs(s, steps)
    ensures var t := Last(s, steps);
            && (id in t.listed ==> Live(t, id)) && (Live(t, id) && !Drained(t.closing) ==> id in t.listed)
            && forall job :: job in t.latest ==>
                 var named := t.latest[job];
                 named in t.listed && named in t.timers && t.timers[named].job == job
  {
    InitInv(s);
    RunKeepsInv(s, steps);
    RunLeaksNothing(s, steps);
    hide Runs, Last, Awaited;
  }

  lemma {:induction false} RunKeepsCancelled(s: State, steps: seq<Step>)
    requires Runs(s, steps) && (s.closing.NotCalled? || s.closing.Marked? || s.cancelled)
    ensures var t := Last(s, steps); t.closing.NotCalled? || t.closing.Marked? || t.cancelled
    decreases |steps|
  {
    if steps != [] { RunKeepsCancelled(Do(s, steps[0]), steps[1..]); }
  }

  /** A CloseContext that waits or has returned has cancelled the manager's context before. */
  lemma CloseCancelsFirst(s: State, steps: seq<Step>)
    requires Init(s) && Runs(s, steps)
    ensures var t := Last(s, steps);
            Drained(t.closing) ==> t.cancelled && t.closed && forall job, id :: !Enabled(t, Schedule(job, id))
  {
    RunKeepsCancelled(s, steps);
    InitInv(s);
    RunKeepsInv(s, steps);
  }

  /** Everything about the other jobs' timers is as it was. */
  ghost predicate OthersKept(s: State, t: State, job: string) {
    && (forall id :: id in s.timers && s.timers[id].job != job ==>
          id in t.timers && t.timers[id] == s.timers[id] && (id in t.listed <==> id in s.listed))
    && (forall j :: j != job ==> (j in t.latest <==> j in s.latest) && (j in s.latest ==> t.latest[j] == s.latest[j]))
  }

  /** PauseJob, ResumeJob, CancelJob and a new retry of a job stop that job's armed timer and leave
      the timers of all other jobs, and callbacks already fired, as they are. */
  lemma OnlyOwnTimerIsStopped(s: State, steps: seq<Step>, job: string, id: nat)
    requires Init(s) && Runs(s, steps)
    ensures var t := Last(s, steps);
            var u := Do(t, StopFor(job));
            && OthersKept(t, u, job) && job !in u.latest
            && (id in t.timers && t.timers[id].job == job ==>
                  && id in u.timers
                  && u.timers[id] == (if In(t, id, Scheduled) then Timer(job, Stopped) else t.timers[id])
                  && (id in u.listed <==> id in t.listed && !In(t, id, Scheduled)))
  {
    RunKeepsInv(s, steps);
    StopIsOwn(Last(s, steps), job, id);
    hide Inv, Runs, Last, OthersKept, DoStopFor;
  }

  lemma StopIsOwn(t: State, job: string, id: nat)
    requires Inv(t)
    ensures var u := DoStopFor(t, job);
            && OthersKept(t, u, job) && job !in u.latest
            && (id in t.timers && t.timers[id].job == job ==>
                  && id in u.timers
                  && u.timers[id] == (if In(t, id, Scheduled) then Timer(job, Stopped) else t.timers[id])
                  && (id in u.listed <==> id in t.listed && !In(t, id, Scheduled)))
  {
    hide Tracked, Awaited;
  }

  /** A new retry is armed and listed, in place of the job's earlier one. */
  lemma NewRetryReplacesOld(s: State, steps: seq<Step>, job: string, id: nat)
    requires Init(s) && Runs(s, steps) && Enabled(Last(s, steps), Schedule(job, id))
    ensures var t := Last(s, steps);
            var u := Do(t, Schedule(job, id));
            && OthersKept(t, u, job) && In(u, id, Scheduled) && u.timers[id].job == job && id in u.listed
            && u.latest[job] == id
            && forall prior :: In(t, prior, Scheduled) && t.timers[prior].job == job ==>
                 In(u, prior, Stopped) && prior !in u.listed
  {
    RunKeepsInv(s, steps);
    ScheduleIsOwn(Last(s, steps), job, id);
    hide Inv, Runs, Last, OthersKept, DoSchedule, Enabled;
  }

  lemma ScheduleIsOwn(t: State, job: string, id: nat)
    requires Inv(t) && id !in t.timers
    ensures var u := DoSchedule(t, job, id);
            && OthersKept(t, u, job) && In(u, id, Scheduled) && u.timers[id].job == job && id in u.listed
            && job in u.latest && u.latest[job] == id
            && forall prior :: In(t, prior, Scheduled) && t.timers[prior].job == job ==>
                 In(u, prior, Stopped) && prior !in u.listed
  {
    hide Tracked, Awaited;
  }

  /** An armed timer that fires calls ResumeJob exactly if the manager is neither closed nor cancelled
      when the callback looks. */
  lemma FiredTimerResumesIff(s: State, id: nat)
    requires In(s, id, Scheduled)
    ensures Runs(s, [Fire(id), Check(id)])
    ensures var t := Last(s, [Fire(id), Check(id)]);
            && (Enabled(t, Enter(id)) <==> !s.closed && !s.cancelled)
            && (Enabled(t, Enter(id)) ==> In(Do(t, Enter(id)), id, Inside))
            && (!Enabled(t, Enter(id)) ==> Enabled(t, Unlist(id)) && id !in Do(t, Unlist(id)).listed)
  {
    var s1 := Do(s, Fire(id));
    var s2 := Do(s1, Check(id));
    assert Runs(s2, []) && Last(s2, []) == s2;
    Then(s1, Check(id), []);
    Then(s, Fire(id), [Check(id)]);
    hide Runs, Last;
  }

  /** No callback is inside ResumeJob or about to enter it. */
  ghost predicate Quiet(s: State) {
    forall id :: id in s.timers ==> !s.timers[id].phase.Inside? && !s.timers[id].phase.Checked?
  }

  /** The first CloseContext, or some other one, has returned nil. */
  predicate Returned(s: State, first: bool) {
    if first then s.closing.ReturnedNil? else s.returnedAgain
  }

  ghost predicate Reached(s: State, steps: seq<Step>, first: bool) {
    Init(s) && Runs(s, steps) && Returned(Last(s, steps), first)
  }

  /** A further call finds the manager closed and returns nil at once, while a callback is inside
      ResumeJob. */
  lemma OtherCloseMayReturnEarly(s: State, job: string)
    requires Init(s)
    ensures var steps := [Schedule(job, 0), Fire(0), Check(0), Enter(0), Close, CloseAgain];
            Runs(s, steps) && Last(s, steps).returnedAgain && !Quiet(Last(s, steps))
  {
    var s1, s2, s3 := OneTimer(job, Scheduled, false), OneTimer(job, Fired, false), OneTimer(job, Checked, false);
    var s4, s5 := OneTimer(job, Inside, false), OneTimer(job, Inside, true);
    OneTimerSteps(s, job);
    var s6 := s5.(returnedAgain := true);
    assert Runs(s6, []) && Last(s6, []) == s6;
    assert !Quiet(s6) by { assert s6.timers[0].phase.Inside?; }
    hide Do, Enabled, OneTimer, Quiet;
    Then(s5, CloseAgain, []);
    Then(s4, Close, [CloseAgain]);
    Then(s3, Enter(0), [Close, CloseAgain]);
    Then(s2, Check(0), [Enter(0), Close, CloseAgain]);
    Then(s1, Fire(0), [Check(0), Enter(0), Close, CloseAgain]);
    Then(s, Schedule(job, 0), [Fire(0), Check(0), Enter(0), Close, CloseAgain]);
  }

  /** A manager with one timer, before and after a Close. */
  function OneTimer(job: string, phase: Phase, closed: bool): State {
    State(map[0 := Timer(job, phase)], map[job := 0], {0}, {}, closed, false,
          if closed then Marked else NotCalled, false)
  }

  lemma OneTimerSteps(s: State, job: string)
    requires Init(s)
    ensures Enabled(s, Schedule(job, 0)) && Do(s, Schedule(job, 0)) == OneTimer(job, Scheduled, false)
    ensures var s1 := OneTimer(job, Scheduled, false);
            Enabled(s1, Fire(0)) && Do(s1, Fire(0)) == OneTimer(job, Fired, false)
    ensures var s2 := OneTimer(job, Fired, false);
            Enabled(s2, Check(0)) && Do(s2, Check(0)) == OneTimer(job, Checked, false)
    ensures var s3 := OneTimer(job, Checked, false);
            Enabled(s3, Enter(0)) && Do(s3, Enter(0)) == OneTimer(job, Inside, false)
    ensures var s4, s5 := OneTimer(job, Inside, false), OneTimer(job, Inside, true);
            && Enabled(s4, Close) && Do(s4, Close) == s5
            && Enabled(s5, CloseAgain) && Do(s5, CloseAgain) == s5.(returnedAgain := true)
  {
  }

  lemma InitInv(s: State)
    requires Init(s)
    ensures Inv(s)
  {
  }

  lemma InvIsQuiet(s: State)
    requires Inv(s) && s.closing.ReturnedNil?
    ensures Quiet(s)
  {
  }

  /** On every run the nil return of a CloseContext means that no callback runs, exactly if it is the
      first call. */
  lemma OnlyFirstCloseWaits(first: bool)
    ensures (forall s, steps :: Reached(s, steps, first) ==> Quiet(Last(s, steps))) <==> first
  {
    if first {
      forall s, steps | Reached(s, steps, first) ensures Quiet(Last(s, steps)) {
        InitInv(s);
        RunKeepsInv(s, steps);
        InvIsQuiet(Last(s, steps));
      }
    } else {
      hide Inv, Runs, Last, Quiet;
      var s := State(map[], map[], {}, {}, false, false, NotCalled, false);
      var steps := [Schedule("", 0), Fire(0), Check(0), Enter(0), Close, CloseAgain];
      OtherCloseMayReturnEarly(s, "");
      assert Reached(s, steps, first);
    }
  }

  lemma Then(s: State, x: Step, rest: seq<Step>)
    requires Enabled(s, x) && Runs(Do(s, x), rest)
    ensures Runs(s, [x] + rest) && Last(s, [x] + rest) == Last(Do(s, x), rest)
  {
    assert ([x] + rest)[1..] == rest;
  }
}
