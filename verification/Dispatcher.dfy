/** The queue dispatcher: a heap with lazily deleted entries around the pending, active and controls
    maps. Every method of the class is one region under the manager's mutex (or, for
    LaunchQueuedJobs, the loop over such regions), proved against a function of the whole state. */
module Dispatcher {
  import opened SegmentPlan

  const MAX_QUEUED_JOBS: nat := 128

  datatype Item = Item(job: string, priority: int, sequence: nat)

  /** jobQueue.Less: larger priorities first, then first come first served. */
  predicate Less(a: Item, b: Item) {
    if a.priority != b.priority then a.priority > b.priority else a.sequence < b.sequence
  }

  datatype Ticket = Ticket(priority: int, sequence: nat)

  /** sequence is that of the enqueue which led to this launch; it identifies the done channel. */
  datatype Control = Control(sequence: nat, pauseRequested: bool, queuePauseRequested: bool,
                             cancelRequested: bool, deletePartialFiles: bool, stopped: bool)

  /** The fields under the mutex, as a value. pending joins the source's three pending maps. */
  datatype Book = Book(
    maxActive: nat, queue: seq<Item>, pending: map<string, Ticket>, active: set<string>, controls: map<string, Control>,
    queuePaused: bool, pausedIds: set<string>, sequence: nat, started: bool, closed: bool, wake: bool)

  // ----- the regions as functions

  /** An entry that its pending ticket still backs. */
  predicate Fresh(pending: map<string, Ticket>, item: Item) {
    item.job in pending && pending[item.job].sequence == item.sequence
  }

  function OnlyFresh(queue: seq<Item>, pending: map<string, Ticket>): (r: seq<Item>)
    ensures |r| <= |queue|
  {
    if queue == [] then []
    else
      var item, rest := queue[|queue| - 1], OnlyFresh(queue[..|queue| - 1], pending);
      if Fresh(pending, item) then rest + [item] else rest
  }

  function Compacted(b: Book): Book {
    if |b.queue| <= 2 * MAX_QUEUED_JOBS then b else b.(queue := OnlyFresh(b.queue, b.pending))
  }

  function Signalled(b: Book): Book {
    if b.started then b.(wake := true) else b
  }

  /** pushPendingLocked, with the pending entry its callers add. */
  function Pushed(b: Book, job: string, priority: int): Book {
    var n := b.sequence + 1;
    Compacted(b.(sequence := n, pending := b.pending[job := Ticket(priority, n)],
                 queue := b.queue + [Item(job, priority, n)]))
  }

  /** Why StartJobWithPriority leaves everything as it is, if it does. */
  datatype Verdict = Enqueue | AlreadyThere | ManagerClosed | QueueFull

  function VerdictOn(b: Book, job: string): Verdict {
    if b.closed then ManagerClosed
    else if job in b.pending || job in b.active then AlreadyThere
    else if |b.pending| >= MAX_QUEUED_JOBS then QueueFull
    else Enqueue
  }

  function Enqueued(b: Book, job: string, priority: int): Book {
    if VerdictOn(b, job) != Enqueue then b
    else if b.started then Signalled(Pushed(b, job, priority))
    else
      var n := b.sequence + 1;
      b.(sequence := n, pending := b.pending[job := Ticket(priority, n)])
  }

  /** The heap entry that backs a pending job. */
  function EntryOf(pending: map<string, Ticket>, job: string): Item
    requires job in pending
  {
    Item(job, pending[job].priority, pending[job].sequence)
  }

  /** order lists the members of keys, each once: the unspecified order of a map iteration. */
  predicate Enumerates(order: seq<string>, keys: set<string>) {
    && (forall i :: 0 <= i < |order| ==> order[i] in keys)
    && (forall k :: k in keys ==> k in order)
    && (forall i, j :: 0 <= i < j < |order| ==> order[i] != order[j])
  }

  function Entries(order: seq<string>, pending: map<string, Ticket>): (r: seq<Item>)
    requires forall i :: 0 <= i < |order| ==> order[i] in pending
    ensures |r| == |order|
  {
    seq(|order|, i requires 0 <= i < |order| => EntryOf(pending, order[i]))
  }

  /** promotePendingLocked visits the pending jobs in some order. */
  function Promoted(b: Book, order: seq<string>): Book
    requires Enumerates(order, b.pending.Keys)
  {
    var b' := b.(queue := b.queue + Entries(order, b.pending));
    if |b.pending| > 0 then Signalled(b') else b'
  }

  predicate MayLaunch(b: Book) {
    !b.queuePaused && |b.active| < b.maxActive
  }

  predicate LeastAt(queue: seq<Item>, i: nat) {
    i < |queue| && forall k :: 0 <= k < |queue| ==> !Less(queue[k], queue[i])
  }

  function Without(queue: seq<Item>, i: nat): seq<Item>
    requires i < |queue|
  {
    queue[..i] + queue[i + 1..]
  }

  /** The ticket is taken out of pending and the job becomes active with a control of its own. */
  function Launched(b: Book, job: string): Book
    requires job in b.pending
  {
    b.(pending := b.pending - {job}, active := b.active + {job},
       controls := b.controls[job := Control(b.pending[job].sequence, false, false, false, false, false)])
  }

  /** One turn of launchQueuedJobs that pops the entry at i. */
  function Popped(b: Book, i: nat): Book
    requires i < |b.queue|
  {
    var item, b' := b.queue[i], b.(queue := Without(b.queue, i));
    if Fresh(b.pending, item) then Launched(b', item.job) else b'
  }

  /** The job stopped because the queue was paused, and for no other reason. */
  predicate PausedWithQueue(b: Book, job: string)
    requires job in b.controls
  {
    var control := b.controls[job];
    control.queuePauseRequested && !control.cancelRequested && !control.pauseRequested
  }

  /** The first region of finishJob: should the job go back to the queue? */
  predicate Requeues(b: Book, job: string)
    requires job in b.controls
  {
    PausedWithQueue(b, job) && !b.queuePaused
  }

  function FinishStarted(b: Book, job: string): Book
    requires job in b.controls
  {
    if PausedWithQueue(b, job) && b.queuePaused then b.(pausedIds := b.pausedIds + {job}) else b
  }

  /** The second region of finishJob. */
  function Finished(b: Book, job: string, requeue: bool): Book {
    var b' := b.(active := b.active - {job}, controls := b.controls - {job});
    Signalled(if requeue then Pushed(b', job, 0) else b')
  }

  /** Every control but those in rest has been asked to pause for the queue. */
  function Asked(controls: map<string, Control>, rest: set<string>): (r: map<string, Control>)
    ensures r.Keys == controls.Keys
  {
    map job | job in controls ::
      if job in rest then controls[job] else controls[job].(queuePauseRequested := true, stopped := true)
  }

  function QueuePaused(b: Book): Book {
    Signalled(b.(queuePaused := true, controls := Asked(b.controls, {})))
  }

  function Requeued(b: Book, job: string): Book {
    var b' := if job !in b.active && job !in b.pending then Pushed(b, job, 0) else b;
    b'.(pausedIds := b'.pausedIds - {job})
  }

  /** The queue-paused jobs requeued in the given order. */
  function RequeuedAll(b: Book, order: seq<string>): Book
    decreases |order|
  {
    if order == [] then b else Requeued(RequeuedAll(b, order[..|order| - 1]), order[|order| - 1])
  }

  function QueueResumed(b: Book, order: seq<string>): Book {
    Signalled(RequeuedAll(b.(queuePaused := false), order))
  }

  /** PauseJob; an active job is only asked to stop. */
  function JobPaused(b: Book, job: string): Book {
    var b' := b.(pausedIds := b.pausedIds - {job});
    if job in b.controls
    then b'.(controls := b.controls[job := b.controls[job].(pauseRequested := true, stopped := true)])
    else Compacted(b'.(pending := b.pending - {job}))
  }

  /** CancelJob, which leaves compaction to others. */
  function JobCancelled(b: Book, job: string, deletePartial: bool): Book {
    if job in b.controls
    then b.(controls := b.controls[job := b.controls[job].(cancelRequested := true,
         deletePartialFiles := deletePartial, stopped := true)])
    else b.(pending := b.pending - {job})
  }

  function ActiveStopped(b: Book): Book {
    b.(controls := map job | job in b.controls :: b.controls[job].(stopped := true))
  }

  function ShutDown(b: Book): Book {
    b.(active := b.active - b.controls.Keys, controls := map[])
  }

  /** RunJob admits a synchronous job under the same limit, without a control. */
  predicate Admits(b: Book, job: string) {
    !b.closed && job !in b.active && job !in b.pending && |b.active| < b.maxActive
  }

  // ----- the plain queue: the pending map without the heap

  /** What remains of the state when the heap is forgotten. */
  function Plain(b: Book): Book { b.(queue := []) }

  /** The job that the documentation promises to run next. */
  ghost predicate IsBest(pending: map<string, Ticket>, job: string) {
    job in pending && forall k :: k in pending ==> !Less(EntryOf(pending, k), EntryOf(pending, job))
  }

  ghost predicate TicketsDistinct(pending: map<string, Ticket>, sequence: nat) {
    && (forall j :: j in pending ==> pending[j].sequence <= sequence)
    && (forall j, k :: j in pending && k in pending && pending[j].sequence == pending[k].sequence ==> j == k)
  }

  ghost predicate EntriesMatch(queue: seq<Item>, pending: map<string, Ticket>, sequence: nat) {
    && (forall item :: item in queue ==> item.sequence <= sequence)
    && (forall item, j :: item in queue && j in pending && pending[j].sequence == item.sequence ==>
          item == EntryOf(pending, j))
  }

  /** No two entries or tickets share a sequence number, except copies of one entry. */
  ghost predicate Consistent(b: Book) {
    TicketsDistinct(b.pending, b.sequence) && EntriesMatch(b.queue, b.pending, b.sequence)
  }

  /** Every pending job has its entry in the heap, as it has once Start has promoted the pending jobs. */
  ghost predicate Covers(queue: seq<Item>, pending: map<string, Ticket>) {
    forall j :: j in pending ==> EntryOf(pending, j) in queue
  }

  ghost predicate Covered(b: Book) { Covers(b.queue, b.pending) }

  /** The heap behaves as the plain pending map: a pop that launches takes the best pending job. */
  lemma LaunchTakesBest(b: Book, i: nat)
    requires Consistent(b) && Covered(b) && LeastAt(b.queue, i) && Fresh(b.pending, b.queue[i])
    ensures IsBest(b.pending, b.queue[i].job)
  {
    var item := b.queue[i];
    assert item in b.queue;
    assert item == EntryOf(b.pending, item.job);
    forall k | k in b.pending ensures !Less(EntryOf(b.pending, k), item) {
      var at :| 0 <= at < |b.queue| && b.queue[at] == EntryOf(b.pending, k);
    }
  }

  lemma BestIsUnique(b: Book, j: string, k: string)
    requires Consistent(b) && IsBest(b.pending, j) && IsBest(b.pending, k)
    ensures j == k
  {
  }

  ghost predicate Within(small: seq<Item>, large: seq<Item>) {
    forall item :: item in small ==> item in large
  }

  /** Dropping entries and tickets breaks nothing. */
  lemma Shrinks(queue: seq<Item>, queue': seq<Item>, pending: map<string, Ticket>, drop: set<string>, sequence: nat)
    requires TicketsDistinct(pending, sequence) && EntriesMatch(queue, pending, sequence) && Within(queue', queue)
    ensures TicketsDistinct(pending - drop, sequence) && EntriesMatch(queue', pending - drop, sequence)
  {
    assert forall j :: j in pending - drop ==> EntryOf(pending - drop, j) == EntryOf(pending, j);
  }

  lemma WithoutMembers(queue: seq<Item>, i: nat)
    requires i < |queue|
    ensures Within(Without(queue, i), queue)
    ensures forall item :: item in queue && item != queue[i] ==> item in Without(queue, i)
  {
    var rest := Without(queue, i);
    assert queue == queue[..i] + [queue[i]] + queue[i + 1..];
  }

  /** A pop keeps every backed entry it does not launch. */
  lemma PopKeepsCover(b: Book, i: nat)
    requires Consistent(b) && i < |b.queue|
    ensures Consistent(Popped(b, i)) && (Covered(b) ==> Covered(Popped(b, i)))
    ensures |Popped(b, i).queue| == |b.queue| - 1
    ensures Plain(Popped(b, i)) == if Fresh(b.pending, b.queue[i]) then Launched(Plain(b), b.queue[i].job) else Plain(b)
  {
    var item, rest := b.queue[i], Without(b.queue, i);
    WithoutMembers(b.queue, i);
    var drop := if Fresh(b.pending, item) then {item.job} else {};
    assert item in b.queue;
    assert b.pending - {} == b.pending;
    Shrinks(b.queue, rest, b.pending, drop, b.sequence);
    assert Popped(b, i).queue == rest && Popped(b, i).pending == b.pending - drop;
    if Covered(b) { PopKeepsEntries(b, i, drop); }
  }

  lemma PopKeepsEntries(b: Book, i: nat, drop: set<string>)
    requires Consistent(b) && Covered(b) && i < |b.queue|
    requires Fresh(b.pending, b.queue[i]) ==> drop == {b.queue[i].job}
    ensures Covers(Without(b.queue, i), b.pending - drop)
  {
    WithoutMembers(b.queue, i);
    hide Without;
    assert b.queue[i] in b.queue;
    forall j | j in b.pending - drop ensures EntryOf(b.pending - drop, j) in Without(b.queue, i) {
      var entry := EntryOf(b.pending, j);
      assert entry == EntryOf(b.pending - drop, j) && entry in b.queue;
    }
  }

  /** Compaction keeps every backed entry, with all its copies, and nothing else. */
  lemma {:induction false} CompactionLosesNothing(queue: seq<Item>, pending: map<string, Ticket>, item: Item)
    ensures multiset(OnlyFresh(queue, pending))[item] == if Fresh(pending, item) then multiset(queue)[item] else 0
    ensures item in OnlyFresh(queue, pending) <==> item in queue && Fresh(pending, item)
  {
    if queue != [] {
      var init, last := queue[..|queue| - 1], queue[|queue| - 1];
      CompactionLosesNothing(init, pending, item);
      assert queue == init + [last];
    }
  }

  lemma CompactionKeepsCover(b: Book)
    requires Consistent(b)
    ensures Consistent(Compacted(b)) && (Covered(b) ==> Covered(Compacted(b)))
    ensures Plain(Compacted(b)) == Plain(b)
  {
    forall item ensures item in OnlyFresh(b.queue, b.pending) <==> item in b.queue && Fresh(b.pending, item) {
      CompactionLosesNothing(b.queue, b.pending, item);
    }
    hide OnlyFresh;
    assert Within(Compacted(b).queue, b.queue);
    assert b.pending - {} == b.pending;
    Shrinks(b.queue, Compacted(b).queue, b.pending, {}, b.sequence);
  }

  /** A new ticket with a new sequence number, and its entry. */
  lemma Grows(queue: seq<Item>, pending: map<string, Ticket>, sequence: nat, job: string, priority: int,
              entries: seq<Item>)
    requires TicketsDistinct(pending, sequence) && EntriesMatch(queue, pending, sequence)
    requires entries == [] || entries == [Item(job, priority, sequence + 1)]
    ensures var pending' := pending[job := Ticket(priority, sequence + 1)];
            && TicketsDistinct(pending', sequence + 1) && EntriesMatch(queue + entries, pending', sequence + 1)
            && (entries != [] && Covers(queue, pending) ==> Covers(queue + entries, pending'))
  {
    var pending' := pending[job := Ticket(priority, sequence + 1)];
    assert forall j :: j in pending && j != job ==> EntryOf(pending', j) == EntryOf(pending, j);
    forall item, j | item in queue + entries && j in pending' && pending'[j].sequence == item.sequence
      ensures item == EntryOf(pending', j)
    {
      if item in queue { assert item.sequence <= sequence; }
    }
  }

  lemma PushKeepsCover(b: Book, job: string, priority: int)
    requires Consistent(b)
    ensures Consistent(Pushed(b, job, priority)) && (Covered(b) ==> Covered(Pushed(b, job, priority)))
    ensures Plain(Pushed(b, job, priority)) == b.(queue := [], sequence := b.sequence + 1,
              pending := b.pending[job := Ticket(priority, b.sequence + 1)])
  {
    var n := b.sequence + 1;
    var entry := [Item(job, priority, n)];
    var b' := b.(sequence := n, pending := b.pending[job := Ticket(priority, n)], queue := b.queue + entry);
    hide TicketsDistinct, EntriesMatch, Covers;
    Grows(b.queue, b.pending, b.sequence, job, priority, entry);
    CompactionKeepsCover(b');
  }

  /** At most 256 entries, or only backed ones. */
  ghost predicate Lean(b: Book) {
    |b.queue| <= 256 || forall item :: item in b.queue ==> Fresh(b.pending, item)
  }

  lemma CompactionIsLean(b: Book)
    ensures Lean(Compacted(b))
  {
    forall item ensures item in OnlyFresh(b.queue, b.pending) ==> Fresh(b.pending, item) {
      CompactionLosesNothing(b.queue, b.pending, item);
    }
    hide OnlyFresh;
  }

  /** Stale entries do not pile up: whatever the heap held before, after a job is queued or a waiting one
      is paused it is lean. */
  lemma HeapStaysLean(b: Book, job: string, priority: int)
    ensures b.started && VerdictOn(b, job).Enqueue? ==> Lean(Enqueued(b, job, priority))
    ensures job !in b.controls ==> Lean(JobPaused(b, job))
    ensures Lean(Finished(b, job, true))
  {
    PushIsLean(b, job, priority);
    PushIsLean(b.(active := b.active - {job}, controls := b.controls - {job}), job, 0);
    CompactionIsLean(b.(pausedIds := b.pausedIds - {job}, pending := b.pending - {job}));
    hide Compacted, Pushed;
  }

  lemma PushIsLean(b: Book, job: string, priority: int)
    ensures Lean(Pushed(b, job, priority))
  {
    var n := b.sequence + 1;
    CompactionIsLean(b.(sequence := n, pending := b.pending[job := Ticket(priority, n)],
                        queue := b.queue + [Item(job, priority, n)]));
    hide Compacted;
  }

  lemma {:induction false} LeastExists(queue: seq<Item>)
    requires queue != []
    ensures exists i :: 0 <= i < |queue| && LeastAt(queue, i)
  {
    var init, last := queue[..|queue| - 1], |queue| - 1;
    if init == [] {
      assert LeastAt(queue, 0);
    } else {
      LeastExists(init);
      var i :| 0 <= i < |init| && LeastAt(init, i);
      assert forall k :: 0 <= k < last ==> queue[k] == init[k];
      assert LeastAt(queue, if Less(queue[last], queue[i]) then last else i);
    }
  }

  ghost predicate BestAmong(pending: map<string, Ticket>, keys: set<string>, j: string)
    requires keys <= pending.Keys
  {
    j in keys && forall k :: k in keys ==> !Less(EntryOf(pending, k), EntryOf(pending, j))
  }

  lemma {:induction false} BestExists(pending: map<string, Ticket>, keys: set<string>, j: string) returns (best: string)
    requires keys <= pending.Keys && j in keys
    ensures BestAmong(pending, keys, best)
    decreases |keys|
  {
    var rest := keys - {j};
    assert forall k :: k in keys ==> k == j || k in rest;
    if k :| k in rest {
      var other := BestExists(pending, rest, k);
      best := if Less(EntryOf(pending, j), EntryOf(pending, other)) then j else other;
    } else {
      best := j;
    }
  }

  /** The promised order, on the pending map alone: launch the best job while there is room. */
  ghost function LaunchAll(b: Book): Book
    decreases |b.pending|
  {
    if j :| MayLaunch(b) && IsBest(b.pending, j) then LaunchAll(Launched(b, j)) else b
  }

  lemma LaunchAllStep(b: Book, j: string)
    requires Consistent(b) && MayLaunch(b) && IsBest(b.pending, j)
    ensures LaunchAll(b) == LaunchAll(Launched(b, j))
  {
    forall k | IsBest(b.pending, k) ensures k == j { BestIsUnique(b, k, j); }
  }

  /** LaunchAll stops only at a paused queue, a full house or an empty pending map; whatever left
      pending has become active. */
  lemma {:induction false} LaunchAllExhausts(b: Book)
    requires Consistent(b)
    ensures var r := LaunchAll(b);
            && (MayLaunch(r) ==> forall j :: j !in r.pending)
            && (forall j :: j in b.pending ==> j in r.pending || j in r.active)
    decreases |b.pending|
  {
    if j :| MayLaunch(b) && IsBest(b.pending, j) {
      LaunchAllStep(b, j);
      Shrinks(b.queue, b.queue, b.pending, {j}, b.sequence);
      LaunchAllExhausts(Launched(b, j));
      LaunchAllKeepsActive(Launched(b, j), j);
    } else if MayLaunch(b) {
      if j :| j in b.pending.Keys {
        var best := BestExists(b.pending, b.pending.Keys, j);
        assert IsBest(b.pending, best);
      }
    }
  }

  lemma {:induction false} LaunchAllKeepsActive(b: Book, job: string)
    requires Consistent(b) && job in b.active
    ensures job in LaunchAll(b).active
    decreases |b.pending|
  {
    if j :| MayLaunch(b) && IsBest(b.pending, j) {
      LaunchAllStep(b, j);
      Shrinks(b.queue, b.queue, b.pending, {j}, b.sequence);
      LaunchAllKeepsActive(Launched(b, j), job);
    }
  }

  /** The three pending maps as one. */
  ghost function Join(jobs: set<string>, prio: map<string, int>, seqs: map<string, nat>): (r: map<string, Ticket>)
    requires prio.Keys == jobs && seqs.Keys == jobs
    ensures r.Keys == jobs && |r| == |jobs|
  {
    var r := map j | j in jobs :: Ticket(prio[j], seqs[j]);
    assert r.Keys == jobs && |r| == |r.Keys|;
    r
  }

  lemma JoinAdd(jobs: set<string>, prio: map<string, int>, seqs: map<string, nat>, job: string, p: int, n: nat)
    requires prio.Keys == jobs && seqs.Keys == jobs
    ensures prio[job := p].Keys == jobs + {job} && seqs[job := n].Keys == jobs + {job}
    ensures Join(jobs + {job}, prio[job := p], seqs[job := n]) == Join(jobs, prio, seqs)[job := Ticket(p, n)]
  {
  }

  lemma JoinDrop(jobs: set<string>, prio: map<string, int>, seqs: map<string, nat>, job: string)
    requires prio.Keys == jobs && seqs.Keys == jobs
    ensures (prio - {job}).Keys == jobs - {job} && (seqs - {job}).Keys == jobs - {job}
    ensures Join(jobs - {job}, prio - {job}, seqs - {job}) == Join(jobs, prio, seqs) - {job}
  {
  }

  lemma AskNone(controls: map<string, Control>)
    ensures Asked(controls, controls.Keys) == controls
  {
  }

  lemma AskOne(controls: map<string, Control>, rest: set<string>, job: string)
    requires job in rest && job in controls
    ensures job in Asked(controls, rest)
    ensures var asked := Asked(controls, rest);
            asked[job := asked[job].(queuePauseRequested := true, stopped := true)] == Asked(controls, rest - {job})
  {
  }

  lemma JoinAt(jobs: set<string>, prio: map<string, int>, seqs: map<string, nat>, job: string)
    requires prio.Keys == jobs && seqs.Keys == jobs
    ensures job in jobs ==> EntryOf(Join(jobs, prio, seqs), job) == Item(job, prio[job], seqs[job])
  {
  }

  lemma EnumerateNone(keys: set<string>, pending: map<string, Ticket>)
    ensures Enumerates([], keys - keys) && forall queue :: PromotedSoFar(queue, queue, [], pending)
  {
    forall queue ensures PromotedSoFar(queue, queue, [], pending) {
      assert queue + Entries([], pending) == queue;
    }
  }

  lemma EnumerateMore(order: seq<string>, keys: set<string>, rest: set<string>, job: string)
    requires Enumerates(order, keys - rest) && job in rest && job in keys
    ensures Enumerates(order + [job], keys - (rest - {job}))
  {
    var more := order + [job];
    assert forall i :: 0 <= i < |order| ==> more[i] == order[i];
    assert more[|order|] == job;
    forall k | k in keys - (rest - {job}) ensures k in more { if k != job { assert k in order; } }
  }

  ghost predicate PromotedSoFar(before: seq<Item>, after: seq<Item>, order: seq<string>, pending: map<string, Ticket>) {
    (forall i :: 0 <= i < |order| ==> order[i] in pending) && after == before + Entries(order, pending)
  }

  lemma PromoteOne(before: seq<Item>, after: seq<Item>, order: seq<string>, job: string, pending: map<string, Ticket>)
    requires PromotedSoFar(before, after, order, pending) && job in pending
    ensures PromotedSoFar(before, after + [EntryOf(pending, job)], order + [job], pending)
  {
    assert Entries(order + [job], pending) == Entries(order, pending) + [EntryOf(pending, job)];
  }

  /** One pop of the heap is a launch of the best job or nothing, in terms of the plain queue. */
  lemma PopRefines(b: Book, i: nat)
    requires Consistent(b) && Covered(b) && MayLaunch(b) && LeastAt(b.queue, i)
    ensures Consistent(Popped(b, i)) && Covered(Popped(b, i)) && |Popped(b, i).queue| == |b.queue| - 1
    ensures LaunchAll(Plain(Popped(b, i))) == LaunchAll(Plain(b))
  {
    hide LaunchAll, Popped;
    PopKeepsCover(b, i);
    if Fresh(b.pending, b.queue[i]) {
      LaunchTakesBest(b, i);
      LaunchAllStep(Plain(b), b.queue[i].job);
    }
  }

  lemma LaunchAllDone(b: Book)
    requires Covered(b) && (!MayLaunch(b) || b.queue == [])
    ensures LaunchAll(Plain(b)) == Plain(b)
  {
  }

  // ----- the manager's fields and the regions that change them

  class Manager {
    const maxActive: nat
    var queue: seq<Item>
    var pending: set<string>
    var pendingPrio: map<string, int>
    var pendingSeq: map<string, nat>
    var active: set<string>
    var controls: map<string, Control>
    var queuePaused: bool
    var queuePausedIds: set<string>
    var sequence: nat
    var started: bool
    var closed: bool
    var wake: bool

    ghost predicate Valid()
      reads this
    {
      pendingPrio.Keys == pending && pendingSeq.Keys == pending
    }

    ghost function Tickets(): map<string, Ticket>
      reads this
      requires Valid()
    {
      Join(pending, pendingPrio, pendingSeq)
    }

    ghost function View(): Book
      reads this
      requires Valid()
    {
      Book(maxActive, queue, Tickets(), active, controls, queuePaused, queuePausedIds, sequence, started, closed, wake)
    }

    constructor (maxActiveFiles: nat)
      ensures Valid() && View() == Book(maxActiveFiles, [], map[], {}, map[], false, {}, 0, false, false, false)
    {
      maxActive := maxActiveFiles;
      queue, pending, pendingPrio, pendingSeq := [], {}, map[], map[];
      active, controls, queuePaused, queuePausedIds := {}, map[], false, {};
      sequence, started, closed, wake := 0, false, false, false;
    }

    method Signal()
      requires Valid()
      modifies this`wake
      ensures Valid() && View() == Signalled(old(View()))
    {
      if started { wake := true; }
    }

    method CompactQueue()
      requires Valid()
      modifies this`queue
      ensures Valid() && View() == Compacted(old(View()))
    {
      if |queue| <= 2 * MAX_QUEUED_JOBS { return; }
      var compacted: seq<Item> := [];
      for i := 0 to |queue|
        invariant compacted == OnlyFresh(queue[..i], Tickets())
      {
        var item := queue[i];
        assert queue[..i + 1][..i] == queue[..i];
        if item.job in pendingSeq && pendingSeq[item.job] == item.sequence {
          compacted := compacted + [item];
        }
      }
      assert queue[..|queue|] == queue;
      queue := compacted;
    }

    method AddTicket(job: string, priority: int)
      requires Valid()
      modifies this`pending, this`pendingPrio, this`pendingSeq, this`sequence
      ensures Valid()
      ensures View() == old(View()).(sequence := old(sequence) + 1,
                pending := old(View()).pending[job := Ticket(priority, old(sequence) + 1)])
    {
      hide Join;
      JoinAdd(pending, pendingPrio, pendingSeq, job, priority, sequence + 1);
      pending := pending + {job};
      pendingPrio := pendingPrio[job := priority];
      sequence := sequence + 1;
      pendingSeq := pendingSeq[job := sequence];
    }

    method PushPending(job: string, priority: int)
      requires Valid()
      modifies this
      ensures Valid() && View() == Pushed(old(View()), job, priority)
    {
      hide Compacted, Join;
      AddTicket(job, priority);
      queue := queue + [Item(job, priority, sequence)];
      CompactQueue();
    }

    /** StartJobWithPriority, once the job has been read and its roots validated. */
    method StartJobWithPriority(job: string, priority: int) returns (verdict: Verdict)
      requires Valid()
      modifies this
      ensures Valid() && verdict == VerdictOn(old(View()), job) && View() == Enqueued(old(View()), job, priority)
      ensures verdict.Enqueue? <==>
                !old(closed) && job !in old(pending) && job !in old(active) && |old(pending)| < 128
    {
      hide Compacted, Pushed, Join;
      if closed { return ManagerClosed; }
      if job in pending { return AlreadyThere; }
      if job in active { return AlreadyThere; }
      if |pending| >= MAX_QUEUED_JOBS { return QueueFull; }
      if started {
        PushPending(job, priority);
        Signal();
      } else {
        AddTicket(job, priority);
      }
      return Enqueue;
    }

    method DropPending(job: string)
      requires Valid()
      modifies this`pending, this`pendingPrio, this`pendingSeq
      ensures Valid() && View() == old(View()).(pending := old(View()).pending - {job})
    {
      hide Join;
      JoinDrop(pending, pendingPrio, pendingSeq, job);
      pending := pending - {job};
      pendingPrio := pendingPrio - {job};
      pendingSeq := pendingSeq - {job};
    }

    /** promotePendingLocked. The map is visited in no particular order. */
    method PromotePending() returns (order: seq<string>)
      requires Valid()
      modifies this`queue, this`wake
      ensures Valid() && Enumerates(order, old(View()).pending.Keys) && View() == Promoted(old(View()), order)
    {
      hide Join, Entries, Enumerates;
      order := [];
      var rest := pending;
      EnumerateNone(pending, Tickets());
      while rest != {}
        invariant rest <= pending && Enumerates(order, pending - rest)
        invariant View() == old(View()).(queue := queue) && PromotedSoFar(old(queue), queue, order, Tickets())
        decreases |rest|
      {
        var job :| job in rest;
        EnumerateMore(order, pending, rest, job);
        PromoteOne(old(queue), queue, order, job, Tickets());
        JoinAt(pending, pendingPrio, pendingSeq, job);
        queue := queue + [Item(job, pendingPrio[job], pendingSeq[job])];
        order := order + [job];
        rest := rest - {job};
      }
      assert pending - rest == pending;
      if |pending| > 0 { Signal(); }
    }

    /** One turn of launchQueuedJobs. None: the turn found the queue paused, no free slot or no entry. */
    method LaunchNext() returns (popped: Option<nat>, launched: Option<string>)
      requires Valid()
      modifies this
      ensures Valid()
      ensures popped.None? <==> !MayLaunch(old(View())) || old(View()).queue == []
      ensures popped.None? ==> View() == old(View()) && launched.None?
      ensures popped.Some? ==> LeastAt(old(View()).queue, popped.value) && View() == Popped(old(View()), popped.value)
      ensures popped.Some? ==>
                var item := old(View()).queue[popped.value];
                launched == if Fresh(old(View()).pending, item) then Some(item.job) else None
    {
      hide Join, LeastAt;
      if queuePaused || |active| >= maxActive || |queue| == 0 { return None, None; }
      LeastExists(queue);
      var i :| 0 <= i < |queue| && LeastAt(queue, i);
      var item := queue[i];
      JoinAt(pending, pendingPrio, pendingSeq, item.job);
      queue := Without(queue, i);
      if item.job !in pendingSeq || pendingSeq[item.job] != item.sequence { return Some(i), None; }
      DropPending(item.job);
      active := active + {item.job};
      controls := controls[item.job := Control(item.sequence, false, false, false, false, false)];
      return Some(i), Some(item.job);
    }

    /** launchQueuedJobs, undisturbed: the heap launches exactly what the plain pending map would, best
        first, until the queue is paused, the house is full or nothing is pending. */
    method LaunchQueuedJobs()
      requires Valid() && Consistent(View()) && Covered(View())
      modifies this
      ensures Valid() && Consistent(View()) && Covered(View())
      ensures Plain(View()) == LaunchAll(Plain(old(View())))
    {
      hide Manager.View, Consistent, Covered, Popped, LaunchAll, Plain;
      var popped: Option<nat> := Some(0);
      while popped.Some?
        invariant Valid() && Consistent(View()) && Covered(View())
        invariant LaunchAll(Plain(View())) == LaunchAll(Plain(old(View())))
        invariant popped.None? ==> !MayLaunch(View()) || View().queue == []
        decreases popped.Some?, |View().queue|
      {
        ghost var before := View();
        var job;
        popped, job := LaunchNext();
        if popped.Some? { PopRefines(before, popped.value); }
      }
      LaunchAllDone(View());
    }

    /** The first region of finishJob. */
    method BeginFinish(job: string) returns (found: bool, requeue: bool, cancel: bool, deletePartial: bool)
      requires Valid()
      modifies this`queuePausedIds
      ensures Valid() && found == (job in old(View()).controls)
      ensures !found ==> View() == old(View())
      ensures found ==> View() == FinishStarted(old(View()), job) && requeue == Requeues(old(View()), job)
      ensures found && PausedWithQueue(old(View()), job) ==>
                (requeue && queuePausedIds == old(queuePausedIds)) != (!requeue && job in queuePausedIds)
      ensures found && !PausedWithQueue(old(View()), job) ==> !requeue && queuePausedIds == old(queuePausedIds)
      ensures found ==> cancel == old(View()).controls[job].cancelRequested
      ensures found ==> deletePartial == old(View()).controls[job].deletePartialFiles
    {
      if job !in controls { return false, false, false, false; }
      var control := controls[job];
      requeue := control.queuePauseRequested && !control.cancelRequested && !control.pauseRequested && !queuePaused;
      if control.queuePauseRequested && !control.cancelRequested && !control.pauseRequested && queuePaused {
        queuePausedIds := queuePausedIds + {job};
      }
      return true, requeue, control.cancelRequested, control.deletePartialFiles;
    }

    /** The second region of finishJob. */
    method EndFinish(job: string, requeue: bool)
      requires Valid()
      modifies this
      ensures Valid() && View() == Finished(old(View()), job, requeue)
    {
      hide Pushed, Join;
      active := active - {job};
      controls := controls - {job};
      if requeue { PushPending(job, 0); }
      Signal();
    }

    method PauseQueue()
      requires Valid()
      modifies this
      ensures Valid() && View() == QueuePaused(old(View()))
    {
      hide Join, Asked;
      AskNone(controls);
      queuePaused := true;
      var rest := controls.Keys;
      while rest != {}
        invariant Valid() && rest <= old(controls).Keys && controls == Asked(old(controls), rest)
        invariant View() == old(View()).(queuePaused := true, controls := controls)
        decreases |rest|
      {
        var job :| job in rest;
        AskOne(old(controls), rest, job);
        controls := controls[job := controls[job].(queuePauseRequested := true, stopped := true)];
        rest := rest - {job};
      }
      Signal();
    }

    method RequeuePaused(job: string)
      requires Valid()
      modifies this
      ensures Valid() && View() == Requeued(old(View()), job)
    {
      hide Pushed, Join;
      if job !in active {
        if job !in pending { PushPending(job, 0); }
      }
      queuePausedIds := queuePausedIds - {job};
    }

    method ResumeQueue() returns (order: seq<string>)
      requires Valid()
      modifies this
      ensures Valid() && Enumerates(order, old(queuePausedIds)) && View() == QueueResumed(old(View()), order)
    {
      hide Requeued, Join, Enumerates;
      queuePaused := false;
      order := [];
      ghost var all := queuePausedIds;
      var rest := queuePausedIds;
      EnumerateNone(all, map[]);
      while rest != {}
        invariant Valid() && Enumerates(order, all - rest) && rest <= all
        invariant View() == RequeuedAll(old(View()).(queuePaused := false), order)
        decreases |rest|
      {
        var job :| job in rest;
        EnumerateMore(order, all, rest, job);
        assert (order + [job])[..|order|] == order;
        RequeuePaused(job);
        order := order + [job];
        rest := rest - {job};
      }
      assert all - rest == all;
      Signal();
    }

    /** The queue part of PauseJob. */
    method PauseJob(job: string) returns (running: bool)
      requires Valid()
      modifies this
      ensures Valid() && running == (job in old(controls)) && View() == JobPaused(old(View()), job)
    {
      hide Compacted, Join;
      queuePausedIds := queuePausedIds - {job};
      if job in controls {
        controls := controls[job := controls[job].(pauseRequested := true, stopped := true)];
        return true;
      }
      DropPending(job);
      CompactQueue();
      return false;
    }

    /** The queue part of CancelJob. */
    method CancelJob(job: string, deletePartialFiles: bool) returns (running: bool)
      requires Valid()
      modifies this
      ensures Valid() && running == (job in old(controls))
                && View() == JobCancelled(old(View()), job, deletePartialFiles)
    {
      hide Join;
      if job in controls {
        controls := controls[job := controls[job].(cancelRequested := true, deletePartialFiles := deletePartialFiles,
            stopped := true)];
        return true;
      }
      DropPending(job);
      return false;
    }

    /** finishShutdown closes the done channel of every remaining control, each once. */
    method FinishShutdown() returns (order: seq<string>)
      requires Valid()
      modifies this`active, this`controls
      ensures Valid() && View() == ShutDown(old(View())) && Enumerates(order, old(controls).Keys)
    {
      hide Join, Enumerates;
      order := [];
      ghost var all := controls.Keys;
      EnumerateNone(all, map[]);
      var rest := controls.Keys;
      while rest != {}
        invariant Valid() && rest <= all && Enumerates(order, all - rest)
        invariant controls.Keys == rest && active == old(active) - (all - rest)
        invariant View() == old(View()).(controls := controls, active := active)
        decreases |rest|
      {
        var job :| job in rest;
        EnumerateMore(order, all, rest, job);
        active := active - {job};
        controls := controls - {job};
        order := order + [job];
        rest := rest - {job};
      }
      assert all - rest == all;
      assert controls == map[];
    }
  }
}
