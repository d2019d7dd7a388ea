/** The dispatcher with its goroutines, as a step system: callers, the queue goroutine, job goroutines
    and the bounded results channel, in any interleaving of their mutex regions. */
module DispatcherRuns {
  import opened SegmentPlan
  import opened Dispatcher

  /** Where the queue goroutine stands. */
  datatype Mode = NotStarted | Launching | Selecting | Finishing(job: string, requeue: bool) | Draining | Done

  /** running: jobs whose goroutine has not sent its result; direct: jobs inside RunJob; results: the
      channel; launches and closedDone: the sequence numbers launched, and those whose done channel was
      closed, so far. */
  datatype System = System(
    book: Book, promoted: bool, cancelled: bool, mode: Mode,
    running: set<string>, direct: set<string>, results: seq<string>, launches: seq<nat>, closedDone: seq<nat>)

  datatype Step =
    | Begin | RunQueue | Promote(order: seq<string>)
    | StartJob(job: string, priority: int) | PauseQueue | ResumeQueue(order: seq<string>)
    | PauseJob(job: string) | CancelJob(job: string, deletePartial: bool) | DeleteJob(job: string)
    | Admit(job: string) | Leave(job: string)           // RunJob, synchronously
    | Launch(at: nat) | NothingToLaunch | Wake
    | Send(job: string) | Receive | EndFinish
    | Close | CancelContext | Stop | Drain(order: seq<string>)

  function Capacity(b: Book): nat { 2 * b.maxActive }

  ghost predicate Enabled(s: System, x: Step) {
    var b := s.book;
    match x
    case Begin => !b.closed && !b.started
    case RunQueue => b.started && s.mode.NotStarted?
    case Promote(order) => !s.mode.NotStarted? && !s.promoted && Enumerates(order, b.pending.Keys)
    case StartJob(_, _) => true
    case PauseQueue => true
    case ResumeQueue(order) => Enumerates(order, b.pausedIds)
    case PauseJob(_) => true
    case CancelJob(_, _) => true
    case DeleteJob(_) => true
    case Admit(job) => Admits(b, job)
    case Leave(job) => job in s.direct
    case Launch(at) => s.mode.Launching? && MayLaunch(b) && LeastAt(b.queue, at)
    case NothingToLaunch => s.mode.Launching? && (!MayLaunch(b) || b.queue == [])
    case Wake => s.mode.Selecting? && b.wake
    case Send(job) => job in s.running && |s.results| < Capacity(b)
    case Receive => s.mode.Selecting? && s.results != []
    case EndFinish => s.mode.Finishing?
    case Close => true
    case CancelContext => true
    case Stop => s.cancelled && (s.mode.Launching? || s.mode.Selecting?)
    case Drain(order) => s.mode.Draining? && (forall job :: job !in s.running) && Enumerates(order, b.controls.Keys)
  }

  /** The done channel of a control, by its sequence number. */
  function DoneOf(b: Book, job: string): seq<nat> {
    if job in b.controls then [b.controls[job].sequence] else []
  }

  function DoneOfAll(b: Book, order: seq<string>): (r: seq<nat>)
    requires Enumerates(order, b.controls.Keys)
    ensures |r| == |order| && forall i :: 0 <= i < |order| ==> r[i] == b.controls[order[i]].sequence
  {
    seq(|order|, i requires 0 <= i < |order| => b.controls[order[i]].sequence)
  }

  /** One turn of launchQueuedJobs: the popped entry starts its job if the ticket still backs it. */
  function DoLaunch(s: System, at: nat): System
    requires at < |s.book.queue|
  {
    var b, item := s.book, s.book.queue[at];
    if Fresh(b.pending, item)
    then s.(book := Popped(b, at), running := s.running + {item.job}, launches := s.launches + [item.sequence])
    else s.(book := Popped(b, at))
  }

  function Do(s: System, x: Step): System
    requires Enabled(s, x)
  {
    var b := s.book;
    match x
    case Begin => s.(book := b.(started := true))
    case RunQueue => s.(mode := Launching)
    case Promote(order) => s.(book := Promoted(b, order), promoted := true)
    case StartJob(job, priority) => s.(book := Enqueued(b, job, priority))
    case PauseQueue => s.(book := QueuePaused(b))
    case ResumeQueue(order) => s.(book := QueueResumed(b, order))
    case PauseJob(job) => s.(book := JobPaused(b, job))
    case CancelJob(job, deletePartial) => s.(book := JobCancelled(b, job, deletePartial))
    case DeleteJob(job) => s.(book := Compacted(b.(pending := b.pending - {job})))
    case Admit(job) => s.(book := b.(active := b.active + {job}), direct := s.direct + {job})
    case Leave(job) => s.(book := Signalled(b.(active := b.active - {job})), direct := s.direct - {job})
    case Launch(at) => DoLaunch(s, at)
    case NothingToLaunch => s.(mode := Selecting)
    case Wake => s.(book := b.(wake := false), mode := Launching)
    case Send(job) => s.(running := s.running - {job}, results := s.results + [job])
    case Receive =>
      var job := s.results[0];
      if job in b.controls
      then s.(book := FinishStarted(b, job), results := s.results[1..], mode := Finishing(job, Requeues(b, job)))
      else s.(results := s.results[1..], mode := Launching)
    case EndFinish =>
      s.(book := Finished(b, s.mode.job, s.mode.requeue), closedDone := s.closedDone + DoneOf(b, s.mode.job),
          mode := Launching)
    case Close => s.(book := b.(closed := true))
    case CancelContext => s.(cancelled := true)
    case Stop => s.(book := ActiveStopped(b), mode := Draining)
    case Drain(order) => s.(book := ShutDown(b), closedDone := s.closedDone + DoneOfAll(b, order), mode := Done)
  }

  ghost predicate Init(s: System) {
    s == System(Book(s.book.maxActive, [], map[], {}, map[], false, {}, 0, false, false, false), false, false,
        NotStarted, {}, {}, [], [], [])
  }

  ghost predicate Runs(s: System, steps: seq<Step>)
    decreases |steps|
  {
    steps == [] || (Enabled(s, steps[0]) && Runs(Do(s, steps[0]), steps[1..]))
  }

  ghost function Last(s: System, steps: seq<Step>): System
    requires Runs(s, steps)
    decreases |steps|
  {
    if steps == [] then s else Last(Do(s, steps[0]), steps[1..])
  }

  // ----- what every step keeps

  ghost predicate BookOk(b: Book) {
    && Consistent(b) && (forall j :: j in b.pending ==> j !in b.active)
    && (forall j :: j in b.controls ==> j in b.active) && |b.active| <= b.maxActive
  }

  ghost predicate Distinct(s: seq<nat>) {
    forall i, j :: 0 <= i < j < |s| ==> s[i] != s[j]
  }

  /** The job that the queue goroutine is finishing. */
  function InHand(mode: Mode): set<string> {
    if mode.Finishing? then {mode.job} else {}
  }

  /** Running jobs, undelivered results and the job in hand are, together and each once, the controls. */
  ghost predicate Conserved(controls: set<string>, running: set<string>, results: seq<string>, hand: set<string>) {
    && (forall i, j :: 0 <= i < j < |results| ==> results[i] != results[j])
    && (forall j :: j in running ==> j !in results && j !in hand)
    && (forall j :: j in results ==> j !in hand)
    && (forall j :: j in controls <==> j in running || j in results || j in hand)
  }

  /** After the drain the channel is abandoned and nothing is left to finish. */
  ghost predicate Emptied(controls: set<string>, running: set<string>) {
    (forall j :: j !in running) && (forall j :: j !in controls)
  }

  /** Every slot in use belongs to a control or to a RunJob, never to both. */
  ghost predicate Slots(active: set<string>, controls: set<string>, direct: set<string>) {
    && (forall j :: j in active <==> j in controls || j in direct)
    && (forall j :: j in direct ==> j !in controls)
  }

  ghost predicate Flow(s: System) {
    if s.mode.Done? then Emptied(s.book.controls.Keys, s.running)
    else Conserved(s.book.controls.Keys, s.running, s.results, InHand(s.mode))
  }

  /** Launches and closed channels match the enqueues and the controls, number by number. */
  ghost predicate Accounted(b: Book, launches: seq<nat>, closedDone: seq<nat>) {
    && Distinct(launches) && Distinct(closedDone)
    && (forall n :: n in launches ==> n <= b.sequence)
    && (forall j :: j in b.pending ==> b.pending[j].sequence !in launches)
    && (forall j :: j in b.controls ==> b.controls[j].sequence in launches && b.controls[j].sequence !in closedDone)
    && (forall j, k :: j in b.controls && k in b.controls && b.controls[j].sequence == b.controls[k].sequence ==>
          j == k)
    && (forall n :: n in closedDone ==> n in launches)
    && (forall n :: n in launches ==> n in closedDone || exists j :: j in b.controls && b.controls[j].sequence == n)
  }

  ghost predicate Idle(b: Book) {
    !MayLaunch(b) || forall j :: j !in b.pending
  }

  /** A waiting queue goroutine with something to launch has a wake-up in its channel. */
  ghost predicate Woken(b: Book, promoted: bool, mode: Mode) {
    && (!mode.NotStarted? || promoted ==> b.started)
    && (promoted && mode.Selecting? ==> b.wake || Idle(b))
  }

  ghost predicate Inv(s: System) {
    && BookOk(s.book) && (s.promoted ==> Covered(s.book)) && Flow(s)
       && Slots(s.book.active, s.book.controls.Keys, s.direct)
    && Accounted(s.book, s.launches, s.closedDone) && Woken(s.book, s.promoted, s.mode)
  }
}
