/** The bounded latest-value set behind the event stream. */
module Coalescer {
  import opened SegmentPlan

  const JOB_UPDATED := "job.updated"
  const FILE_UPDATED := "file.updated"
  const SPEED_UPDATED := "speed.updated"
  const QUEUE_UPDATED := "queue.updated"
  const ACCOUNT_UPDATED := "account.updated"
  const SETTINGS_UPDATED := "settings.updated"
  const DEFAULT_PENDING := 128

  /** Data values are kept as their JSON text. */
  datatype Event = Event(name: string, jobId: string, fileId: string, timestamp: int, data: map<string, string>)

  predicate Progress(name: string) {
    name == JOB_UPDATED || name == FILE_UPDATED || name == SPEED_UPDATED || name == QUEUE_UPDATED
  }

  predicate Declared(name: string) {
    Progress(name) || name == ACCOUNT_UPDATED || name == SETTINGS_UPDATED
  }

  predicate IsCoalescible(e: Event) {
    Progress(e.name) && (e.jobId != "" || e.fileId != "")
  }

  function EventKey(e: Event): (key: string) {
    if IsCoalescible(e) && e.jobId != "" then "job:" + e.jobId
    else if IsCoalescible(e) && e.fileId != "" then "file:" + e.fileId
    else e.name + ":" + e.jobId + ":" + e.fileId
  }

  function Merge(previous: Event, latest: Event): (m: Event)
  {
    Event(latest.name,
          if latest.jobId == "" then previous.jobId else latest.jobId,
          if latest.fileId == "" then previous.fileId else latest.fileId,
          if previous.timestamp > latest.timestamp then previous.timestamp else latest.timestamp,
          if previous.data != map[] || latest.data != map[] then previous.data + latest.data else latest.data)
  }

  /** The event that stands for a non-empty history of one key. */
  function Fold(history: seq<Event>): Event
    requires history != []
  {
    if |history| == 1 then history[0]
    else Merge(Fold(history[..|history| - 1]), history[|history| - 1])
  }

  // ----- the queue as a value

  datatype Queue = Queue(maxPending: int, pending: map<string, Event>, order: seq<string>)

  function Fresh(maxPending: int): Queue {
    Queue(if maxPending < 1 then DEFAULT_PENDING else maxPending, map[], [])
  }

  /** The first position from i on whose pending event is replaceable, or |order|. */
  function FirstReplaceable(q: Queue, i: nat): (r: nat)
    requires i <= |q.order|
    ensures i <= r <= |q.order|
    ensures r < |q.order| ==> q.order[r] in q.pending && IsCoalescible(q.pending[q.order[r]])
    decreases |q.order| - i
  {
    if i == |q.order| then i
    else if q.order[i] in q.pending && IsCoalescible(q.pending[q.order[i]]) then i
    else FirstReplaceable(q, i + 1)
  }

  function Evicted(q: Queue): Queue {
    var r := FirstReplaceable(q, 0);
    if r == |q.order| then q
    else Queue(q.maxPending, q.pending - {q.order[r]}, q.order[..r] + q.order[r + 1..])
  }

  function Inserted(q: Queue, key: string, e: Event): Queue {
    Queue(q.maxPending, q.pending[key := e], q.order + [key])
  }

  function Added(q: Queue, e: Event): (Queue, bool) {
    var key := EventKey(e);
    if e.name == "" then (q, false)
    else if key in q.pending then (q.(pending := q.pending[key := Merge(q.pending[key], e)]), true)
    else if |q.pending| < q.maxPending then (Inserted(q, key, e), true)
    else if !IsCoalescible(e) then (q, false)
    else
      var room := Evicted(q);
      if |room.pending| >= q.maxPending then (room, false) else (Inserted(room, key, e), true)
  }

  function Listed(q: Queue, i: nat): (r: seq<Event>)
    requires i <= |q.order|
    decreases |q.order| - i
  {
    if i == |q.order| then []
    else (if q.order[i] in q.pending then [q.pending[q.order[i]]] else []) + Listed(q, i + 1)
  }

  function Flushed(q: Queue): (Queue, seq<Event>) {
    if |q.pending| == 0 then (q, []) else (Queue(q.maxPending, map[], []), Listed(q, 0))
  }

  // ----- what every operation keeps

  /** Keys of replaceable entries, told apart from all others by their prefix. */
  predicate ReplaceableKey(key: string) { "job:" <= key || "file:" <= key }

  /** An entry under a key without such a prefix is not replaceable; under the key of a progress event
      without ids it has none. */
  ghost predicate EntryOk(key: string, e: Event) {
    !ReplaceableKey(key) ==> !IsCoalescible(e) && (IdlessKey(key) ==> e.jobId == "" && e.fileId == "")
  }

  predicate IdlessKey(key: string) {
    key == JOB_UPDATED + "::" || key == FILE_UPDATED + "::" || key == SPEED_UPDATED + "::"
        || key == QUEUE_UPDATED + "::"
  }

  ghost predicate NoDuplicates(order: seq<string>) {
    forall a, b :: 0 <= a < b < |order| ==> order[a] != order[b]
  }

  ghost predicate Inv(q: Queue) {
    && q.maxPending >= 1 && |q.order| == |q.pending| <= q.maxPending
    && NoDuplicates(q.order)
    && (forall i :: 0 <= i < |q.order| ==> q.order[i] in q.pending)
    && (forall k :: k in q.pending ==> k in q.order && EntryOk(k, q.pending[k]))
  }

  lemma PrefixOfSum(a: string, b: string)
    ensures a <= a + b
  {
  }

  /** The key of an event that is not replaceable, as one text with two colons at known places. */
  lemma TwoColons(name: string, job: string, file: string, progress: string)
    requires Progress(progress) && name + ":" + job + ":" + file == progress + "::"
    ensures name == progress && job == "" && file == ""
  {
    var key := progress + "::";
    assert ':' !in progress;
    assert (name + ":" + job + ":" + file)[|name|] == ':' && (name + ":" + job + ":" + file)[|name| + 1 + |job|] == ':';
    assert forall i :: 0 <= i < |progress| ==> key[i] == progress[i];
    assert |name| >= |progress|;
    assert |key| == |name| + 2 + |job| + |file|;
    assert name == key[..|name|] == progress;
  }

  lemma KeyFitsEvent(e: Event)
    ensures EntryOk(EventKey(e), e) && (IsCoalescible(e) ==> ReplaceableKey(EventKey(e)))
    ensures IdlessKey(EventKey(e)) ==> e.jobId == "" && e.fileId == ""
  {
    var key := EventKey(e);
    if IsCoalescible(e) {
      if e.jobId != "" { PrefixOfSum("job:", e.jobId); } else { PrefixOfSum("file:", e.fileId); }
      assert key[3] == ':' || key[4] == ':';
    } else if IdlessKey(key) {
      var progress := key[..|key| - 2];
      assert key == progress + "::";
      TwoColons(e.name, e.jobId, e.fileId, progress);
    }
  }

  /** Merging an event into the entry of its key keeps the entry in agreement with the key. */
  lemma MergeFitsKey(previous: Event, e: Event)
    requires EntryOk(EventKey(e), previous)
    ensures EntryOk(EventKey(e), Merge(previous, e))
  {
    KeyFitsEvent(e);
    var key := EventKey(e);
    if !ReplaceableKey(key) && Progress(e.name) {
      assert e.jobId == "" && e.fileId == "";
      assert key == e.name + "::";
    }
  }

  /** A declared name and a colon do not begin a replaceable key. */
  lemma DeclaredKeyIsSafe(e: Event)
    requires Declared(e.name) && !IsCoalescible(e)
    ensures !ReplaceableKey(EventKey(e))
  {
    var key := EventKey(e);
    assert key == e.name + (":" + e.jobId + ":" + e.fileId);
    assert key[0] == e.name[0] && key[3] == e.name[3] && key[4] == e.name[4];
  }

  lemma EntryIsReplaceable(key: string, e: Event)
    requires EntryOk(key, e) && IsCoalescible(e)
    ensures ReplaceableKey(key)
  {
  }

  lemma RemoveAt(order: seq<string>, r: nat)
    requires NoDuplicates(order) && r < |order|
    ensures NoDuplicates(order[..r] + order[r + 1..])
    ensures forall k :: k in order[..r] + order[r + 1..] <==> k in order && k != order[r]
  {
    var t := order[..r] + order[r + 1..];
    forall k | k in order && k != order[r] ensures k in t {
      var i :| 0 <= i < |order| && order[i] == k;
      assert t[if i < r then i else i - 1] == k;
    }
  }

  /** One entry removed from map and list. */
  function Removed(q: Queue, r: nat): Queue
    requires r < |q.order|
  {
    Queue(q.maxPending, q.pending - {q.order[r]}, q.order[..r] + q.order[r + 1..])
  }

  lemma RemoveKeepsInv(q: Queue, r: nat)
    requires Inv(q) && r < |q.order|
    ensures Inv(Removed(q, r)) && |Removed(q, r).pending| == |q.pending| - 1
  {
    hide EntryOk, NoDuplicates;
    var gone, t := q.order[r], Removed(q, r);
    RemoveAt(q.order, r);
    assert t.pending.Keys == q.pending.Keys - {gone};
    assert |t.pending| == |t.pending.Keys| && |q.pending| == |q.pending.Keys|;
    assert forall i :: 0 <= i < |t.order| ==> t.order[i] in t.order;
  }

  /** Eviction drops at most one entry, a replaceable one, and keeps the order of the others. */
  lemma EvictKeepsInv(q: Queue)
    requires Inv(q)
    ensures Inv(Evicted(q))
    ensures forall k :: k in q.pending && !ReplaceableKey(k) ==> k in Evicted(q).pending
    ensures forall k :: k in Evicted(q).pending ==> k in q.pending && Evicted(q).pending[k] == q.pending[k]
  {
    hide EntryOk, IsCoalescible, ReplaceableKey, NoDuplicates;
    var r := FirstReplaceable(q, 0);
    if r < |q.order| {
      assert Evicted(q) == Removed(q, r);
      RemoveKeepsInv(q, r);
      EntryIsReplaceable(q.order[r], q.pending[q.order[r]]);
    }
  }

  lemma AppendKey(order: seq<string>, key: string)
    requires NoDuplicates(order) && key !in order
    ensures NoDuplicates(order + [key])
    ensures forall k :: k in order + [key] <==> k in order || k == key
  {
  }

  lemma InsertKeepsInv(q: Queue, e: Event)
    requires Inv(q) && EventKey(e) !in q.pending && |q.pending| < q.maxPending
    ensures Inv(Inserted(q, EventKey(e), e))
  {
    hide EntryOk;
    hide EventKey;
    hide NoDuplicates;
    var t, key := Inserted(q, EventKey(e), e), EventKey(e);
    KeyFitsEvent(e);
    assert key !in q.order;
    AppendKey(q.order, key);
    assert t.pending.Keys == q.pending.Keys + {key};
    assert |t.pending.Keys| == |t.pending| && |q.pending.Keys| == |q.pending|;
    assert forall i :: 0 <= i < |t.order| ==> t.order[i] in t.order;
  }

  /** Add keeps the invariant: the order enumerates the pending keys once each, within the bound. */
  lemma AddKeepsInv(q: Queue, e: Event)
    requires Inv(q)
    ensures Inv(Added(q, e).0)
  {
    var key := EventKey(e);
    if key in q.pending {
      MergeFitsKey(q.pending[key], e);
      var t := Added(q, e).0;
      assert t.pending.Keys == q.pending.Keys;
      assert |t.pending.Keys| == |t.pending| && |q.pending.Keys| == |q.pending|;
    } else if |q.pending| < q.maxPending {
      InsertKeepsInv(q, e);
    } else {
      EvictKeepsInv(q);
      if |Evicted(q).pending| < q.maxPending { InsertKeepsInv(Evicted(q), e); }
    }
  }

  // ----- histories

  datatype Op = Add(e: Event) | Flush

  /** A queue with, for each pending key, the events accepted since the key entered. */
  datatype Trace = Trace(queue: Queue, since: map<string, seq<Event>>)

  function Apply(t: Trace, op: Op): Trace {
    match op
    case Flush => if |t.queue.pending| == 0 then t else Trace(Flushed(t.queue).0, map[])
    case Add(e) =>
      var (q, ok) := Added(t.queue, e);
      Trace(q, Recorded(t.since, q.pending, EventKey(e), e, ok))
  }

  /** The histories after an Add: those of evicted keys are forgotten, an accepted event is appended. */
  function Recorded(since: map<string, seq<Event>>, pending: map<string, Event>, key: string, e: Event,
                    ok: bool): map<string, seq<Event>> {
    var kept := map k | k in since && k in pending :: since[k];
    if ok then kept[key := (if key in kept then kept[key] else []) + [e]] else kept
  }

  ghost predicate TraceInv(t: Trace) {
    && Inv(t.queue) && t.since.Keys == t.queue.pending.Keys
    && forall k :: k in t.since ==> t.since[k] != [] && t.queue.pending[k] == Fold(t.since[k])
  }

  lemma FoldSnoc(history: seq<Event>, e: Event)
    requires history != []
    ensures Fold(history + [e]) == Merge(Fold(history), e)
  {
    assert (history + [e])[..|history|] == history;
  }

  /** What Add does to the pending entries. */
  lemma AddEffect(q: Queue, e: Event)
    requires Inv(q)
    ensures var (t, ok) := Added(q, e);
            var key := EventKey(e);
            && (ok ==> key in t.pending && t.pending[key] == if key in q.pending then Merge(q.pending[key], e) else e)
            && (!ok && e.name != "" ==> key !in t.pending) && (e.name == "" ==> !ok && t == q)
            && (forall k :: k in t.pending && k != key ==> k in q.pending && t.pending[k] == q.pending[k])
            && (forall k :: k in q.pending && !ReplaceableKey(k) ==> k in t.pending)
            && (key in q.pending ==> t.pending.Keys == q.pending.Keys)
  {
    hide EntryOk;
    hide EventKey;
    hide Merge;
    hide Evicted;
    hide IsCoalescible;
    hide ReplaceableKey;
    hide NoDuplicates;
    if EventKey(e) !in q.pending && |q.pending| >= q.maxPending { EvictKeepsInv(q); }
  }

  lemma AddKeepsFolds(t: Trace, e: Event)
    requires TraceInv(t)
    ensures var n := Apply(t, Add(e));
            && n.since.Keys == n.queue.pending.Keys
            && forall k :: k in n.since ==> n.since[k] != [] && n.queue.pending[k] == Fold(n.since[k])
  {
    hide EventKey;
    hide Merge;
    hide Added;
    hide Inv;
    hide Fold;
    AddEffect(t.queue, e);
    var n, key := Apply(t, Add(e)), EventKey(e);
    FoldOne(e);
    forall k | k in n.since ensures n.since[k] != [] && n.queue.pending[k] == Fold(n.since[k]) {
      if k == key && key in t.since { FoldSnoc(t.since[key], e); }
    }
  }

  lemma FoldOne(e: Event)
    ensures Fold([] + [e]) == e
  {
    assert [] + [e] == [e];
  }

  lemma ApplyKeepsInv(t: Trace, op: Op)
    requires TraceInv(t)
    ensures TraceInv(Apply(t, op))
  {
    match op
    case Flush => FlushKeepsInv(t.queue);
    case Add(e) =>
      AddKeepsTrace(t, e);
  }

  lemma AddKeepsTrace(t: Trace, e: Event)
    requires TraceInv(t)
    ensures TraceInv(Apply(t, Add(e)))
  {
    hide Inv;
    hide Added;
    hide Recorded;
    AddKeepsFolds(t, e);
    AddKeepsInv(t.queue, e);
  }

  lemma FlushKeepsInv(q: Queue)
    requires Inv(q)
    ensures Inv(Flushed(q).0)
  {
  }

  function After(t: Trace, ops: seq<Op>): Trace
    decreases |ops|
  {
    if ops == [] then t else After(Apply(t, ops[0]), ops[1..])
  }

  lemma {:induction false} AfterKeepsInv(t: Trace, ops: seq<Op>)
    requires TraceInv(t)
    ensures TraceInv(After(t, ops))
    decreases |ops|
  {
    if ops != [] {
      ApplyKeepsInv(t, ops[0]);
      AfterKeepsInv(Apply(t, ops[0]), ops[1..]);
    }
  }

  lemma {:induction false} ListedIsOrder(q: Queue, i: nat)
    requires i <= |q.order| && forall j :: 0 <= j < |q.order| ==> q.order[j] in q.pending
    ensures |Listed(q, i)| == |q.order| - i
    ensures forall j :: i <= j < |q.order| ==> Listed(q, i)[j - i] == q.pending[q.order[j]]
    decreases |q.order| - i
  {
    if i < |q.order| { ListedIsOrder(q, i + 1); }
  }

  /** Over any history, a flush delivers one event per pending key, in order of
      entry and without repetition, each the fold of the events accepted for that key since it
      entered; and never more than the bound. */
  lemma FlushDeliversFolds(maxPending: int, ops: seq<Op>)
    ensures var t := After(Trace(Fresh(maxPending), map[]), ops);
            var out := Flushed(t.queue).1;
            && |out| == |t.queue.order| <= t.queue.maxPending && NoDuplicates(t.queue.order)
            && (forall k :: k in t.since <==> k in t.queue.order)
            && forall j :: 0 <= j < |out| ==>
                 t.queue.order[j] in t.since && t.since[t.queue.order[j]] != []
                     && out[j] == Fold(t.since[t.queue.order[j]])
  {
    var t0 := Trace(Fresh(maxPending), map[]);
    AfterKeepsInv(t0, ops);
    var t := After(t0, ops);
    hide After, EntryOk, NoDuplicates, Fold;
    ListedIsOrder(t.queue, 0);
  }

  // ----- what a fold holds

  /** Event i is the last of the history that carries the data key. */
  predicate LastCarries(history: seq<Event>, key: string, i: nat) {
    && i < |history| && key in history[i].data
    && forall j :: i < j < |history| ==> key !in history[j].data
  }

  /** The data of the fold: every key that some event carried, with the value of the last that did. */
  lemma {:induction false} FoldHasLatestData(history: seq<Event>, key: string)
    requires history != []
    ensures key in Fold(history).data <==> exists i: nat :: LastCarries(history, key, i)
    ensures forall i: nat :: LastCarries(history, key, i) ==> Fold(history).data[key] == history[i].data[key]
    decreases |history|
  {
    var init, last := history[..|history| - 1], |history| - 1;
    if last == 0 {
      if key in history[0].data { assert LastCarries(history, key, 0); }
    } else {
      FoldHasLatestData(init, key);
      FoldSplits(history);
      LastCarriesSplits(history, key);
      hide LastCarries, Fold;
    }
  }

  lemma FoldSplits(history: seq<Event>)
    requires |history| > 1
    ensures Fold(history).data == Fold(history[..|history| - 1]).data + history[|history| - 1].data
  {
  }

  lemma LastCarriesSplits(history: seq<Event>, key: string)
    requires |history| > 1
    ensures var init, last := history[..|history| - 1], |history| - 1;
            && (key in history[last].data ==>
                  LastCarries(history, key, last) && forall i: nat :: LastCarries(history, key, i) ==> i == last)
            && (key !in history[last].data ==>
                  forall i: nat :: LastCarries(history, key, i) <==> LastCarries(init, key, i))
  {
    var init, last := history[..|history| - 1], |history| - 1;
    if key !in history[last].data {
      forall i: nat ensures LastCarries(history, key, i) <==> LastCarries(init, key, i) {
        if LastCarries(init, key, i) { assert forall j :: 0 <= j < last ==> history[j] == init[j]; }
      }
    }
  }

  /** The fold is as late as the latest event, is named like the last one, and has the last ids given. */
  lemma {:induction false} FoldIsLatest(history: seq<Event>)
    requires history != []
    ensures var f := Fold(history);
            && (forall i :: 0 <= i < |history| ==> history[i].timestamp <= f.timestamp)
            && (exists i :: 0 <= i < |history| && history[i].timestamp == f.timestamp)
            && f.name == history[|history| - 1].name
    decreases |history|
  {
    var init, last := history[..|history| - 1], history[|history| - 1];
    if |history| > 1 {
      FoldIsLatest(init);
      assert forall i :: 0 <= i < |init| ==> init[i] == history[i];
      var i :| 0 <= i < |init| && init[i].timestamp == Fold(init).timestamp;
      assert history[i].timestamp == Fold(init).timestamp;
    }
  }

  /** The id of the last event that has one, or none. */
  function LastId(ids: seq<string>): string {
    if ids == [] then "" else if ids[|ids| - 1] != "" then ids[|ids| - 1] else LastId(ids[..|ids| - 1])
  }

  lemma {:induction false} FoldHasLastIds(history: seq<Event>)
    requires history != []
    ensures Fold(history).jobId == LastId(seq(|history|, i requires 0 <= i < |history| => history[i].jobId))
    ensures Fold(history).fileId == LastId(seq(|history|, i requires 0 <= i < |history| => history[i].fileId))
    decreases |history|
  {
    var jobs := seq(|history|, i requires 0 <= i < |history| => history[i].jobId);
    var files := seq(|history|, i requires 0 <= i < |history| => history[i].fileId);
    if |history| > 1 {
      var init := history[..|history| - 1];
      FoldHasLastIds(init);
      assert jobs[..|init|] == seq(|init|, i requires 0 <= i < |init| => init[i].jobId);
      assert files[..|init|] == seq(|init|, i requires 0 <= i < |init| => init[i].fileId);
    } else {
      assert jobs[..0] == [] && files[..0] == [];
    }
  }

  /** Progress events stand for each other exactly if they are of the same job or, without jobs, of the
      same file. */
  lemma SameKeyIff(a: Event, b: Event)
    requires IsCoalescible(a) && IsCoalescible(b)
    ensures EventKey(a) == EventKey(b) <==>
              a.jobId == b.jobId && (a.jobId == "" ==> a.fileId == b.fileId)
  {
    KeyText(a);
    KeyText(b);
    hide EventKey, IsCoalescible;
  }

  lemma KeyText(e: Event)
    requires IsCoalescible(e)
    ensures var key := EventKey(e);
            && (e.jobId != "" ==> |key| > 4 && key[0] == 'j' && key[4..] == e.jobId && key[..4] == "job:")
            && (e.jobId == "" ==> |key| > 5 && key[0] == 'f' && key[5..] == e.fileId && key[..5] == "file:")
  {
  }

  lemma {:induction false} FirstIsOldest(q: Queue, i: nat, r: nat)
    requires i <= r < |q.order| && q.order[r] in q.pending && IsCoalescible(q.pending[q.order[r]])
    requires forall j :: i <= j < r && q.order[j] in q.pending ==> !IsCoalescible(q.pending[q.order[j]])
    ensures FirstReplaceable(q, i) == r
    decreases r - i
  {
    hide IsCoalescible;
    if i < r { FirstIsOldest(q, i + 1, r); }
  }

  /** An Add to a full queue that has to make room drops the oldest entry that may be dropped. */
  lemma OldestIsDropped(q: Queue, r: nat)
    requires Inv(q) && r < |q.order| && IsCoalescible(q.pending[q.order[r]])
    requires forall j :: 0 <= j < r ==> !IsCoalescible(q.pending[q.order[j]])
    ensures Evicted(q).pending == q.pending - {q.order[r]} && Evicted(q).order == q.order[..r] + q.order[r + 1..]
  {
    hide IsCoalescible, EntryOk;
    FirstIsOldest(q, 0, r);
  }

  lemma AcceptedStaysOneStep(t: Trace, op: Op, key: string, e: Event)
    requires TraceInv(t) && op.Add?
    requires !ReplaceableKey(key) && key in t.since && e in t.since[key]
    ensures var n := Apply(t, op); key in n.since && e in n.since[key]
  {
    hide EventKey;
    hide Merge;
    hide Added;
    hide Inv;
    hide Fold;
    hide ReplaceableKey;
    AddEffect(t.queue, op.e);
  }

  ghost predicate OnlyAdds(ops: seq<Op>) {
    forall i :: 0 <= i < |ops| ==> ops[i].Add?
  }

  /** The event is part of the history that its key's pending event folds. */
  ghost predicate Kept(t: Trace, e: Event) {
    EventKey(e) in t.since && e in t.since[EventKey(e)]
  }

  /** An accepted event under a key that is not replaceable is never evicted, whatever names are added
      after it: until the next flush it remains in the history of its key. */
  lemma AcceptedIsNeverEvicted(t: Trace, e: Event, ops: seq<Op>)
    requires TraceInv(t) && !ReplaceableKey(EventKey(e)) && Added(t.queue, e).1 && OnlyAdds(ops)
    ensures Kept(After(Apply(t, Add(e)), ops), e)
  {
    ApplyKeepsInv(t, Add(e));
    StaysAccepted(Apply(t, Add(e)), EventKey(e), e, ops);
  }

  lemma {:induction false} StaysAccepted(t: Trace, key: string, e: Event, ops: seq<Op>)
    requires TraceInv(t) && !ReplaceableKey(key) && key in t.since && e in t.since[key] && OnlyAdds(ops)
    ensures var n := After(t, ops); key in n.since && e in n.since[key]
    decreases |ops|
  {
    hide TraceInv, ReplaceableKey, Apply;
    if ops != [] {
      AcceptedStaysOneStep(t, ops[0], key, e);
      ApplyKeepsInv(t, ops[0]);
      StaysAccepted(Apply(t, ops[0]), key, e, ops[1..]);
    }
  }

  // ----- how an event under a replaceable key gets lost

  /** A progress event with the given replaceable key. */
  function Twin(key: string): Event
    requires ReplaceableKey(key)
  {
    if "job:" <= key then Event(JOB_UPDATED, key[4..], "", 0, map[]) else Event(JOB_UPDATED, "", key[5..], 0, map[])
  }

  /** The key of an event that is not replaceable has a colon after any such prefix. */
  lemma TwinHasKey(e: Event)
    requires !IsCoalescible(e) && ReplaceableKey(EventKey(e))
    ensures var twin := Twin(EventKey(e)); EventKey(twin) == EventKey(e) && IsCoalescible(twin)
  {
    var key := EventKey(e);
    assert key == e.name + ":" + e.jobId + ":" + e.fileId;
    var second := |e.name| + 1 + |e.jobId|;
    assert key[|e.name|] == ':' && key[second] == ':';
    if "job:" <= key {
      assert key[..4] == "job:" && key[0] != ':' && key[1] != ':' && key[2] != ':';
      assert |key| > 4;
      assert key == "job:" + key[4..];
    } else {
      assert key[..5] == "file:" && key[0] != ':' && key[1] != ':' && key[2] != ':' && key[3] != ':';
      assert |key| > 5;
      assert key == "file:" + key[5..];
    }
  }

  lemma {:induction false} LongName(keys: set<string>) returns (name: string)
    ensures name != "" && forall k :: k in keys ==> |k| <= |name|
    decreases |keys|
  {
    name := "x";
    if k :| k in keys {
      var rest := LongName(keys - {k});
      name := rest + k;
      forall j | j in keys ensures |j| <= |name| { if j != k { assert j in keys - {k}; } }
    }
  }

  /** A progress event for a job that has no entry yet. */
  lemma NewJob(q: Queue) returns (e: Event)
    ensures IsCoalescible(e) && EventKey(e) !in q.pending && ReplaceableKey(EventKey(e))
  {
    var name := LongName(q.pending.Keys);
    e := Event(JOB_UPDATED, name, "", 0, map[]);
    assert |EventKey(e)| == 4 + |name|;
    KeyFitsEvent(e);
  }

  /** The key holds a replaceable event, at position at. */
  ghost predicate Exposed(t: Trace, key: string, at: nat) {
    && TraceInv(t) && at < |t.queue.order| && t.queue.order[at] == key
    && key in t.queue.pending && IsCoalescible(t.queue.pending[key])
  }

  lemma {:induction false} FirstReplaceableIsFirst(q: Queue, i: nat, at: nat)
    requires i <= at < |q.order| && q.order[at] in q.pending && IsCoalescible(q.pending[q.order[at]])
    ensures FirstReplaceable(q, i) <= at
    decreases |q.order| - i
  {
    if i < at { FirstReplaceableIsFirst(q, i + 1, at); }
  }

  /** One more new job fills the queue, moves the key forward or pushes it out. */
  lemma Crowds(t: Trace, key: string, at: nat, e: Event)
    requires Exposed(t, key, at) && IsCoalescible(e) && EventKey(e) !in t.queue.pending
    ensures var n := Apply(t, Add(e));
            || key !in n.since
            || (Exposed(n, key, at) && |n.queue.pending| == |t.queue.pending| + 1)
            || (at > 0 && Exposed(n, key, at - 1) && |n.queue.pending| == |t.queue.pending|)
  {
    hide *;
    ExposedIs(t, key, at);
    ApplyKeepsInv(t, Add(e));
    ExposedWhen(Apply(t, Add(e)), key, at);
    if at > 0 { ExposedWhen(Apply(t, Add(e)), key, at - 1); }
    QueueAfter(t, e);
    if |t.queue.pending| < t.queue.maxPending {
      AddsToRoom(t.queue, e, key, at);
    } else {
      FirstReplaceableIsFirst(t.queue, 0, at);
      CrowdedOut(t.queue, e, key, at, FirstReplaceable(t.queue, 0));
    }
  }

  lemma QueueAfter(t: Trace, e: Event)
    ensures Apply(t, Add(e)).queue == Added(t.queue, e).0
  {
  }

  lemma ExposedIs(t: Trace, key: string, at: nat)
    requires Exposed(t, key, at)
    ensures TraceInv(t) && Inv(t.queue) && |t.queue.pending| <= t.queue.maxPending
    ensures at < |t.queue.order| && t.queue.order[at] == key
    ensures key in t.queue.pending && IsCoalescible(t.queue.pending[key])
  {
  }

  lemma ExposedWhen(t: Trace, key: string, at: nat)
    requires TraceInv(t)
    ensures key !in t.queue.pending ==> key !in t.since
    ensures at < |t.queue.order| && t.queue.order[at] == key && key in t.queue.pending
              && IsCoalescible(t.queue.pending[key])
            ==> Exposed(t, key, at)
  {
  }

  lemma AddsToRoom(q: Queue, e: Event, key: string, at: nat)
    requires Inv(q) && |q.pending| < q.maxPending && IsCoalescible(e) && EventKey(e) !in q.pending
    requires at < |q.order| && q.order[at] == key && key in q.pending
    ensures var n := Added(q, e).0;
            && |n.pending| == |q.pending| + 1 && at < |n.order| && n.order[at] == key
            && key in n.pending && n.pending[key] == q.pending[key]
  {
    hide EventKey, EntryOk, NoDuplicates;
    InsertGrows(q, EventKey(e), e);
  }

  lemma CrowdedOut(q: Queue, e: Event, key: string, at: nat, r: nat)
    requires Inv(q) && |q.pending| == q.maxPending && IsCoalescible(e) && EventKey(e) !in q.pending
    requires at < |q.order| && q.order[at] == key && r == FirstReplaceable(q, 0) <= at
    ensures var n := Added(q, e).0;
            && |n.pending| == |q.pending|
            && (if r == at then key !in n.pending
                else key in n.pending && n.pending[key] == q.pending[key] && n.order[at - 1] == key
                     && |n.order| == |q.order|)
  {
    hide *;
    AddsAfterRemoval(q, e, r);
    var room, own := Removed(q, r), EventKey(e);
    InsertGrows(room, own, e);
    KeyIsPending(q, at);
    if r < at { Apart(q.order, r, at); }
    RemovedIs(q, r, key);
  }

  lemma KeyIsPending(q: Queue, at: nat)
    requires Inv(q) && at < |q.order|
    ensures q.order[at] in q.pending && NoDuplicates(q.order) && |q.order| == |q.pending|
  {
  }

  lemma AddsAfterRemoval(q: Queue, e: Event, r: nat)
    requires Inv(q) && |q.pending| == q.maxPending && IsCoalescible(e) && EventKey(e) !in q.pending
    requires r == FirstReplaceable(q, 0) < |q.order|
    ensures Added(q, e).0 == Inserted(Removed(q, r), EventKey(e), e)
    ensures EventKey(e) !in Removed(q, r).pending && |Removed(q, r).pending| == |q.pending| - 1
  {
    hide EntryOk, NoDuplicates, EventKey, FirstReplaceable;
    RemoveKeepsInv(q, r);
    assert Evicted(q) == Removed(q, r);
    EmptyNameIsNot(e);
  }

  lemma EmptyNameIsNot(e: Event)
    requires IsCoalescible(e)
    ensures e.name != ""
  {
  }

  lemma InsertGrows(q: Queue, key: string, e: Event)
    requires key !in q.pending
    ensures var n := Inserted(q, key, e);
            |n.pending| == |q.pending| + 1 && n.order == q.order + [key] && n.pending == q.pending[key := e]
  {
    var p := Inserted(q, key, e).pending;
    assert p.Keys == q.pending.Keys + {key};
    assert |p| == |p.Keys| && |q.pending| == |q.pending.Keys|;
  }

  lemma RemovedIs(q: Queue, r: nat, key: string)
    requires Inv(q) && r < |q.order| && key in q.order
    ensures var n := Removed(q, r);
            && n.order == q.order[..r] + q.order[r + 1..]
            && (forall k :: k in n.pending <==> k in q.pending && k != q.order[r])
            && (key != q.order[r] ==> key in n.pending && n.pending[key] == q.pending[key])
  {
  }

  lemma Apart(order: seq<string>, r: nat, at: nat)
    requires NoDuplicates(order) && r < at < |order|
    ensures order[r] != order[at] && (order[..r] + order[r + 1..])[at - 1] == order[at]
  {
  }

  /** What still has to happen before the key is pushed out. */
  ghost function Distance(t: Trace, at: nat): int { t.queue.maxPending - |t.queue.pending| + at }

  lemma AfterStep(t: Trace, op: Op, rest: seq<Op>)
    ensures After(t, [op] + rest) == After(Apply(t, op), rest)
    ensures op.Add? && OnlyAdds(rest) ==> OnlyAdds([op] + rest)
  {
    assert ([op] + rest)[1..] == rest;
  }

  lemma {:induction false} PushedOut(t: Trace, key: string, at: nat) returns (ops: seq<Op>)
    requires Exposed(t, key, at)
    ensures OnlyAdds(ops) && key !in After(t, ops).since
    decreases Distance(t, at)
  {
    var e := NewJob(t.queue);
    hide *;
    var next := Closer(t, key, at, e);
    var rest: seq<Op>;
    if next.Some? { rest := PushedOut(Apply(t, Add(e)), key, next.value); } else { rest := NoOps(Apply(t, Add(e))); }
    AfterStep(t, Add(e), rest);
    ops := [Add(e)] + rest;
  }

  lemma NoOps(t: Trace) returns (ops: seq<Op>)
    ensures OnlyAdds(ops) && After(t, ops) == t
  {
    ops := [];
  }

  lemma Closer(t: Trace, key: string, at: nat, e: Event) returns (next: Option<nat>)
    requires Exposed(t, key, at) && IsCoalescible(e) && EventKey(e) !in t.queue.pending
    ensures var n := Apply(t, Add(e));
            if next.Some? then Exposed(n, key, next.value) && 0 <= Distance(n, next.value) < Distance(t, at)
            else key !in n.since
  {
    var d := Distance(t, at);
    assert d == t.queue.maxPending - |t.queue.pending| + at;
    hide *;
    Crowds(t, key, at, e);
    SameBound(t, e);
    var n := Apply(t, Add(e));
    if key !in n.since { return None; }
    next := Some(if Exposed(n, key, at) && |n.queue.pending| == |t.queue.pending| + 1 then at else at - 1);
    RoomLeft(n, key, next.value);
  }

  lemma RoomLeft(t: Trace, key: string, at: nat)
    requires Exposed(t, key, at)
    ensures 0 <= Distance(t, at) == t.queue.maxPending - |t.queue.pending| + at
  {
  }

  lemma SameBound(t: Trace, e: Event)
    ensures Apply(t, Add(e)).queue.maxPending == t.queue.maxPending
  {
  }

  /** Exactly when an accepted event that is not replaceable can be evicted by later additions: its own
      key begins like the key of a progress event. With a declared name it never does. */
  lemma EvictableIff(t: Trace, e: Event)
    requires TraceInv(t) && !IsCoalescible(e) && Added(t.queue, e).1
    ensures (exists ops :: OnlyAdds(ops) && !Kept(After(Apply(t, Add(e)), ops), e)) <==> ReplaceableKey(EventKey(e))
    ensures Declared(e.name) ==> !ReplaceableKey(EventKey(e))
  {
    if Declared(e.name) { DeclaredKeyIsSafe(e); }
    var s, key := Apply(t, Add(e)), EventKey(e);
    hide Apply, EventKey, TraceInv, ReplaceableKey, IsCoalescible, Added;
    if ReplaceableKey(key) {
      var ops := LosesIt(t, e);
      assert OnlyAdds(ops) && !Kept(After(s, ops), e);
    } else {
      forall ops | OnlyAdds(ops) ensures Kept(After(s, ops), e) { AcceptedIsNeverEvicted(t, e, ops); }
    }
  }

  /** The twin progress event makes the entry replaceable; new jobs then push it out. */
  lemma LosesIt(t: Trace, e: Event) returns (ops: seq<Op>)
    requires TraceInv(t) && !IsCoalescible(e) && Added(t.queue, e).1 && ReplaceableKey(EventKey(e))
    ensures OnlyAdds(ops) && EventKey(e) !in After(Apply(t, Add(e)), ops).since
  {
    var s, key, twin := Apply(t, Add(e)), EventKey(e), Twin(EventKey(e));
    TwinHasKey(e);
    var at := TwinExposes(t, e, twin);
    var u := Apply(s, Add(twin));
    hide Apply, Exposed, IsCoalescible, EventKey, Twin, TraceInv, Added, ReplaceableKey;
    var rest := PushedOut(u, key, at);
    ops := [Add(twin)] + rest;
    assert ops[1..] == rest && After(s, ops) == After(u, rest);
  }

  /** A replaceable event is accepted under a pending key, and the merged entry is replaceable. */
  lemma MergedIsAdded(q: Queue, e: Event)
    requires EventKey(e) in q.pending && IsCoalescible(e)
    ensures Added(q, e).1 && IsCoalescible(Merge(q.pending[EventKey(e)], e))
  {
  }

  lemma TwinExposes(t: Trace, e: Event, twin: Event) returns (at: nat)
    requires TraceInv(t) && Added(t.queue, e).1 && EventKey(twin) == EventKey(e) && IsCoalescible(twin)
    ensures Exposed(Apply(Apply(t, Add(e)), Add(twin)), EventKey(e), at)
  {
    hide EventKey, Recorded, NoDuplicates, EntryOk, Added, Fold;
    var s, key := Apply(t, Add(e)), EventKey(e);
    ApplyKeepsInv(t, Add(e));
    AddEffect(t.queue, e);
    ApplyKeepsInv(s, Add(twin));
    AddEffect(s.queue, twin);
    var u := Apply(s, Add(twin));
    MergedIsAdded(s.queue, twin);
    at :| 0 <= at < |u.queue.order| && u.queue.order[at] == key;
  }

  /** With an undeclared name the guarantee fails: an event called "job" shares the key of a progress
      event, is merged into it, and is evicted with it. */
  lemma UndeclaredNameIsEvicted()
    ensures var lost := Event("job", "x", "", 0, map[]);
            var twin := Event(JOB_UPDATED, "x:", "", 0, map[]);
            var other := Event(JOB_UPDATED, "y", "", 0, map[]);
            var t1 := Apply(Trace(Fresh(1), map[]), Add(lost));
            var t3 := Apply(Apply(t1, Add(twin)), Add(other));
            !IsCoalescible(lost) && EventKey(lost) in t1.since && EventKey(lost) !in t3.since
  {
    var lost := Event("job", "x", "", 0, map[]);
    var twin := Event(JOB_UPDATED, "x:", "", 0, map[]);
    var other := Event(JOB_UPDATED, "y", "", 0, map[]);
    var t1 := Apply(Trace(Fresh(1), map[]), Add(lost));
    assert EventKey(lost) == "job:x:" == EventKey(twin);
    assert t1.queue == Queue(1, map["job:x:" := lost], ["job:x:"]);
    var t2 := Apply(t1, Add(twin));
    assert t2.queue.order == ["job:x:"] && t2.queue.pending == map["job:x:" := Merge(lost, twin)];
    assert IsCoalescible(Merge(lost, twin));
    assert FirstReplaceable(t2.queue, 0) == 0;
    assert Evicted(t2.queue).pending == map[];
    assert EventKey(other) == "job:y";
  }

  // ----- the object

  class EventCoalescer {
    var maxPending: int
    var pending: map<string, Event>
    var order: seq<string>

    function View(): Queue
      reads this
    {
      Queue(maxPending, pending, order)
    }

    constructor (max: int)
      ensures View() == Fresh(max) && Inv(View()) && maxPending == (if max < 1 then 128 else max)
    {
      maxPending := if max < 1 then DEFAULT_PENDING else max;
      pending, order := map[], [];
    }

    method Add(e: Event) returns (ok: bool)
      modifies this
      ensures (View(), ok) == Added(old(View()), e)
    {
      if e.name == "" { return false; }
      var key := EventKey(e);
      if key in pending {
        pending := pending[key := Merge(pending[key], e)];
        return true;
      }
      if |pending| >= maxPending {
        if !IsCoalescible(e) { return false; }
        DropOldestReplaceable();
        if |pending| >= maxPending { return false; }
      }
      pending := pending[key := e];
      order := order + [key];
      return true;
    }

    /** The eviction loop of Add. */
    method DropOldestReplaceable()
      modifies this`pending, this`order
      ensures View() == Evicted(old(View()))
    {
      var index := 0;
      while index < |order|
        invariant 0 <= index <= |order| && View() == old(View())
        invariant FirstReplaceable(View(), 0) == FirstReplaceable(View(), index)
      {
        var oldest := order[index];
        if oldest in pending && IsCoalescible(pending[oldest]) {
          pending := pending - {oldest};
          order := order[..index] + order[index + 1..];
          return;
        }
        index := index + 1;
      }
    }

    method Flush() returns (result: seq<Event>)
      modifies this
      ensures (View(), result) == Flushed(old(View()))
    {
      if |pending| == 0 { return []; }
      result := [];
      var i := 0;
      while i < |order|
        invariant 0 <= i <= |order| && result + Listed(View(), i) == Listed(View(), 0) && View() == old(View())
      {
        if order[i] in pending { result := result + [pending[order[i]]]; }
        i := i + 1;
      }
      assert result + [] == result;
      pending, order := map[], [];
    }
  }
}
