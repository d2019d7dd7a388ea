/** The bandwidth limiter: a token bucket shared by many callers. Times are seconds and, like the
    tokens, real numbers; every lock region is one step. */
module Limiter {
  import opened SegmentPlan

  const MAX_BURST: int := 0x10_0000
  const MICROSECOND: real := 0.000001

  /** The fields of a limiter. last is None for the zero time. */
  datatype Bucket = Bucket(rate: int, burst: real, tokens: real, last: Option<real>)

  function BurstFor(rate: int): (burst: real) {
    if rate < 1 then 1.0 else if rate > MAX_BURST then MAX_BURST as real else rate as real
  }

  ghost predicate Valid(b: Bucket) {
    b.rate >= 0 && b.burst == BurstFor(b.rate) && 0.0 <= b.tokens <= b.burst
  }

  function Refilled(b: Bucket, now: real): Bucket {
    if b.last.None? || now < b.last.value then b.(last := Some(now))
    else if b.rate > 0 then
      var tokens := b.tokens + (now - b.last.value) * b.rate as real;
      b.(tokens := if tokens > b.burst then b.burst else tokens, last := Some(now))
    else b.(last := Some(now))
  }

  function WithRate(b: Bucket, rate: int, now: real): Bucket {
    var r := if rate < 0 then 0 else rate;
    var full := Refilled(b, now);
    Bucket(r, BurstFor(r), if full.tokens > BurstFor(r) then BurstFor(r) else full.tokens, full.last)
  }

  /** What one lock region of WaitN decides. */
  datatype Verdict = Unlimited | Granted(n: int) | Wait(seconds: real)

  function Request(b: Bucket, remaining: int): real {
    if remaining as real <= b.burst then remaining as real else b.burst
  }

  function Taken(b: Bucket, now: real, remaining: int): (Bucket, Verdict) {
    var full := Refilled(b, now);
    if full.rate <= 0 then (full, Unlimited)
    else
      var request := Request(full, remaining);
      if full.tokens >= request then (full.(tokens := full.tokens - request), Granted(request.Floor))
      else
        var wait := (request - full.tokens) / full.rate as real;
        (full, Wait(if wait < MICROSECOND then MICROSECOND else wait))
  }

  /** Tokens that the clock may add when it moves to now: rate times the time that passed. */
  function Earned(b: Bucket, now: real): (e: real)
    requires b.rate >= 0
    ensures e >= 0.0
  {
    if b.last.None? || now < b.last.value then 0.0 else (now - b.last.value) * b.rate as real
  }

  // ----- single regions

  lemma RefillBounds(b: Bucket, now: real)
    requires Valid(b)
    ensures Valid(Refilled(b, now)) && Refilled(b, now).tokens <= b.tokens + Earned(b, now)
  {
    assert Earned(b, now) >= 0.0;
  }

  /** While limited, a request is a whole number of bytes, so the conversion to int64 loses nothing. */
  lemma RequestIsWhole(b: Bucket, remaining: int)
    requires Valid(b) && b.rate > 0 && remaining > 0
    ensures Request(b, remaining).Floor as real == Request(b, remaining)
    ensures 1 <= Request(b, remaining).Floor <= remaining
  {
    var k := if b.rate > MAX_BURST then MAX_BURST else b.rate;
    assert b.burst == k as real;
    var m := if remaining <= k then remaining else k;
    assert Request(b, remaining) == m as real;
  }

  /** One region: a grant deducts exactly what it grants, and never more than remains or is stored. */
  lemma TakenBounds(b: Bucket, now: real, remaining: int)
    requires Valid(b) && remaining > 0
    ensures var (t, v) := Taken(b, now, remaining);
            && Valid(t)
            && (v.Granted? ==> 1 <= v.n <= remaining && t.tokens + v.n as real <= b.tokens + Earned(b, now))
            && (v.Granted? ==> t.tokens == Refilled(b, now).tokens - v.n as real)
            && (!v.Granted? ==> t == Refilled(b, now))
            && (v.Wait? ==> v.seconds >= MICROSECOND && Refilled(b, now).tokens < Request(b, remaining))
            && (v.Unlimited? <==> b.rate == 0)
  {
    RefillBounds(b, now);
    if b.rate > 0 { RequestIsWhole(Refilled(b, now), remaining); }
  }

  // ----- the wait that is asked for

  /** The bytes that one region may grant: what remains, but at most a burst. */
  function Portion(rate: int, remaining: int): (m: int)
    requires rate > 0 && remaining > 0
  {
    var cap := if rate > 1_048_576 then 1_048_576 else rate;
    if remaining < cap then remaining else cap
  }

  /** Left alone, the caller who waits as told is granted the next portion, and with a wait above the
      floor one who comes back earlier is told to wait again. */
  lemma WaitIsEnough(b: Bucket, now: real, remaining: int, elapsed: real)
    requires Valid(b) && remaining > 0 && Taken(b, now, remaining).1.Wait? && elapsed >= 0.0
    ensures var (t, v) := Taken(b, now, remaining);
            var again := Taken(t, now + elapsed, remaining).1;
            && (elapsed >= v.seconds ==> again == Granted(Portion(b.rate, remaining)))
            && (elapsed < v.seconds && v.seconds > MICROSECOND ==> again.Wait?)
  {
    var t := Refilled(b, now);
    RefillBounds(b, now);
    RefusedWait(b, now, remaining);
    PortionIsRequest(t, remaining);
    NextTake(t, now + elapsed, remaining);
    EnoughIff(t, elapsed, remaining);
    hide *;
  }

  /** How long the bucket takes to hold what it lacks. */
  function Missing(b: Bucket, remaining: int): real
    requires b.rate > 0
  {
    (Request(b, remaining) - b.tokens) / b.rate as real
  }

  lemma RefusedWait(b: Bucket, now: real, remaining: int)
    requires Taken(b, now, remaining).1.Wait?
    ensures var t := Refilled(b, now);
            && b.rate > 0 && t.rate == b.rate && t.last == Some(now) && Taken(b, now, remaining).0 == t
            && Taken(b, now, remaining).1 ==
                 Wait(if Missing(t, remaining) < MICROSECOND then MICROSECOND else Missing(t, remaining))
  {
    hide Request;
  }

  lemma NextTake(t: Bucket, now: real, remaining: int)
    requires t.rate > 0
    ensures var full := Refilled(t, now);
            && (full.tokens >= Request(full, remaining) ==>
                  Taken(t, now, remaining).1 == Granted(Request(full, remaining).Floor))
            && (full.tokens < Request(full, remaining) ==> Taken(t, now, remaining).1.Wait?)
            && (full.burst == t.burst ==> Request(full, remaining) == Request(t, remaining))
  {
  }

  lemma PortionIsRequest(b: Bucket, remaining: int)
    requires Valid(b) && b.rate > 0 && remaining > 0
    ensures Request(b, remaining) == Portion(b.rate, remaining) as real
    ensures Request(b, remaining).Floor == Portion(b.rate, remaining)
  {
  }

  /** The request is met exactly if the time that passed makes up for what was missing. */
  lemma EnoughIff(b: Bucket, elapsed: real, remaining: int)
    requires Valid(b) && b.rate > 0 && b.last.Some? && elapsed >= 0.0
    ensures var n := Refilled(b, b.last.value + elapsed);
            && (n.tokens >= Request(b, remaining) <==> elapsed >= Missing(b, remaining))
            && n.burst == b.burst && n.rate == b.rate
  {
    var n := Refilled(b, b.last.value + elapsed);
    var e, request := elapsed * b.rate as real, Request(b, remaining);
    assert request <= b.burst && e >= 0.0;
    assert n.tokens == if b.tokens + e > b.burst then b.burst else b.tokens + e;
    TimesRate(elapsed, request - b.tokens, b.rate as real);
    hide Request;
  }

  lemma TimesRate(elapsed: real, need: real, rate: real)
    requires rate > 0.0
    ensures elapsed * rate >= need <==> elapsed >= need / rate
  {
    var wait := need / rate;
    assert wait * rate == need;
    assert (elapsed - wait) * rate == elapsed * rate - need;
    if elapsed >= wait { assert (elapsed - wait) * rate >= 0.0; } else { assert (elapsed - wait) * rate < 0.0; }
  }

  /** A rate change costs no tokens but those above the new burst, and the time before it counts at the
      old rate. */
  lemma ChangeKeepsTokens(b: Bucket, rate: int, now: real)
    requires Valid(b) && rate >= b.rate
    ensures var held, full := b.tokens + Earned(b, now), BurstFor(b.rate);
            WithRate(b, rate, now).tokens == if held < full then held else full
  {
    RefillBounds(b, now);
  }

  // ----- many callers

  datatype Status = Waiting | Done | Bypassed | Cancelled

  datatype Caller = Caller(asked: int, remaining: int, granted: int, status: Status)

  /** issued: bytes granted so far; earned: what the clock has been worth so far. */
  datatype State = State(bucket: Bucket, callers: map<nat, Caller>, issued: int, earned: real)

  datatype Event =
    | Begin(c: nat, n: int)
    | Region(c: nat, now: real)
    | Cancel(c: nat)
    | SetRate(rate: int, now: real)

  predicate Enabled(s: State, e: Event) {
    match e
    case Begin(c, n) => c !in s.callers
    case Region(c, _) => c in s.callers && s.callers[c].status.Waiting?
    case Cancel(c) => c in s.callers && s.callers[c].status.Waiting?
    case SetRate(_, _) => true
  }

  function Apply(s: State, e: Event): State
    requires Enabled(s, e)
    requires s.bucket.rate >= 0
  {
    match e
    case Begin(c, n) => s.(callers := s.callers[c := Caller(n, n, 0, if n <= 0 then Done else Waiting)])
    case Cancel(c) => s.(callers := s.callers[c := s.callers[c].(status := Cancelled)])
    case SetRate(rate, now) => s.(bucket := WithRate(s.bucket, rate, now), earned := s.earned + Earned(s.bucket, now))
    case Region(c, now) =>
      var k := s.callers[c];
      var (bucket, v) := Taken(s.bucket, now, k.remaining);
      var earned := s.earned + Earned(s.bucket, now);
      match v
      case Unlimited => State(bucket, s.callers[c := k.(status := Bypassed)], s.issued, earned)
      case Wait(_) => State(bucket, s.callers, s.issued, earned)
      case Granted(n) =>
        var left := k.remaining - n;
        var served := Caller(k.asked, left, k.granted + n, if left > 0 then Waiting else Done);
        State(bucket, s.callers[c := served], s.issued + n, earned)
  }

  ghost predicate CallerOk(k: Caller) {
    && (k.asked > 0 ==> k.granted + k.remaining == k.asked && 0 <= k.granted && 0 <= k.remaining)
    && (k.asked <= 0 ==> k.granted == 0 && !k.status.Waiting?)
    && (k.status.Waiting? ==> k.remaining > 0)
    && (k.status.Done? && k.asked > 0 ==> k.remaining == 0)
  }

  /** start: the tokens when counting began. */
  ghost predicate Inv(s: State, start: real) {
    && Valid(s.bucket)
    && s.bucket.tokens + s.issued as real <= start + s.earned
    && forall c :: c in s.callers ==> CallerOk(s.callers[c])
  }

  lemma StepKeepsInv(s: State, e: Event, start: real)
    requires Inv(s, start) && Enabled(s, e)
    ensures Inv(Apply(s, e), start)
  {
    match e
    case Begin(_, _) =>
    case Cancel(_) =>
    case SetRate(_, now) => RefillBounds(s.bucket, now);
    case Region(c, now) => TakenBounds(s.bucket, now, s.callers[c].remaining);
  }

  ghost predicate Runs(s: State, events: seq<Event>)
    decreases |events|
  {
    events == [] || (s.bucket.rate >= 0 && Enabled(s, events[0]) && Runs(Apply(s, events[0]), events[1..]))
  }

  ghost function Last(s: State, events: seq<Event>): State
    requires Runs(s, events)
    decreases |events|
  {
    if events == [] then s else Last(Apply(s, events[0]), events[1..])
  }

  lemma {:induction false} RunKeepsInv(s: State, events: seq<Event>, start: real)
    requires Inv(s, start) && Runs(s, events)
    ensures Inv(Last(s, events), start)
    decreases |events|
  {
    if events != [] {
      StepKeepsInv(s, events[0], start);
      RunKeepsInv(Apply(s, events[0]), events[1..], start);
    }
  }

  /** Any state the limiter can be in, with callers waiting or not. */
  ghost predicate Ready(s: State) {
    Valid(s.bucket) && forall c :: c in s.callers ==> CallerOk(s.callers[c])
  }

  /** The rate bound, over any interval: whoever is waiting when it begins, over any interleaving of
      callers, cancellations and rate changes, on any clock, the bytes granted in it are at most the
      tokens at its start plus rate times elapsed time, and the bucket stays between empty and full. */
  lemma RateBound(s: State, events: seq<Event>)
    requires Ready(s) && Runs(s, events)
    ensures var t := Last(s, events);
            && (t.issued - s.issued) as real <= s.bucket.tokens + (t.earned - s.earned)
            && 0.0 <= t.bucket.tokens <= t.bucket.burst && Ready(t)
  {
    RunKeepsInv(s, events, s.bucket.tokens + s.issued as real - s.earned);
  }

  /** A WaitN(n) that finishes without having met an unlimited or cancelled bucket was granted exactly n. */
  lemma FinishedCallersGotAll(s: State, events: seq<Event>, c: nat)
    requires Ready(s) && Runs(s, events) && c in Last(s, events).callers
    ensures var k := Last(s, events).callers[c];
            && (k.status.Done? ==> k.granted == if k.asked > 0 then k.asked else 0)
            && (k.asked > 0 ==> 0 <= k.granted <= k.asked)
  {
    RateBound(s, events);
    assert CallerOk(Last(s, events).callers[c]);
  }

  /** The events of an interval with one rate, on a clock that never goes back. */
  ghost predicate Steady(s: State, events: seq<Event>)
    requires Runs(s, events)
    decreases |events|
  {
    events == [] ||
    (&& !events[0].SetRate? && s.bucket.last.Some?
     && (events[0].Region? ==> s.bucket.last.value <= events[0].now)
     && Steady(Apply(s, events[0]), events[1..]))
  }

  lemma SteadyStep(s: State, e: Event, start: real)
    requires Inv(s, start) && Enabled(s, e) && !e.SetRate? && s.bucket.last.Some?
    requires e.Region? ==> s.bucket.last.value <= e.now
    ensures var n := Apply(s, e);
            && n.bucket.last.Some? && n.bucket.rate == s.bucket.rate
            && n.earned == s.earned + Worth(s.bucket.last.value, n.bucket.last.value, s.bucket.rate)
  {
    var from := s.bucket.last.value;
    WorthAdds(from, from, from, s.bucket.rate);
    if e.Region? { TakenKeepsTime(s.bucket, e.now, s.callers[e.c].remaining); }
    hide Worth, Taken, Earned;
  }

  lemma TakenKeepsTime(b: Bucket, now: real, remaining: int)
    requires Valid(b) && b.last.Some? && b.last.value <= now
    ensures var t := Taken(b, now, remaining).0;
            && t.last == Some(now) && t.rate == b.rate && Earned(b, now) == Worth(b.last.value, now, b.rate)
  {
    hide Request;
  }

  lemma {:induction false} SteadyEarns(s: State, events: seq<Event>, start: real)
    requires Inv(s, start) && Runs(s, events) && Steady(s, events) && s.bucket.last.Some?
    ensures var t := Last(s, events);
            && t.bucket.last.Some? && t.bucket.rate == s.bucket.rate
            && t.earned == s.earned + Worth(s.bucket.last.value, t.bucket.last.value, s.bucket.rate)
    decreases |events|
  {
    hide Apply;
    hide Inv;
    hide Worth;
    if events != [] {
      var n := Apply(s, events[0]);
      StepKeepsInv(s, events[0], start);
      SteadyStep(s, events[0], start);
      SteadyEarns(n, events[1..], start);
      var t := Last(s, events);
      WorthAdds(s.bucket.last.value, n.bucket.last.value, t.bucket.last.value, s.bucket.rate);
    } else {
      WorthAdds(s.bucket.last.value, s.bucket.last.value, s.bucket.last.value, s.bucket.rate);
    }
  }

  /** Rate times elapsed time. */
  function Worth(from: real, to: real, rate: int): real { (to - from) * rate as real }

  lemma WorthAdds(a: real, b: real, d: real, rate: int)
    ensures Worth(a, b, rate) + Worth(b, d, rate) == Worth(a, d, rate)
  {
  }

  /** At one rate and on a monotone clock the bound is burst + rate * elapsed, as configured. */
  lemma SteadyRateBound(s: State, events: seq<Event>)
    requires Ready(s) && Runs(s, events) && Steady(s, events) && s.bucket.last.Some?
    ensures var t := Last(s, events);
            && t.bucket.last.Some?
            && (t.issued - s.issued) as real
               <= s.bucket.tokens + Worth(s.bucket.last.value, t.bucket.last.value, s.bucket.rate)
            && s.bucket.tokens <= BurstFor(s.bucket.rate)
  {
    RateBound(s, events);
    SteadyEarns(s, events, s.bucket.tokens + s.issued as real - s.earned);
  }

  // ----- the limiter object

  datatype Act = NewRate(rate: int) | OtherTakes(bytes: int)

  class BandwidthLimiter {
    var rate: int
    var burst: real
    var tokens: real
    var last: Option<real>

    function View(): Bucket
      reads this
    {
      Bucket(rate, burst, tokens, last)
    }

    constructor (r: int, now: real)
      ensures Valid(View()) && rate == (if r < 0 then 0 else r) && tokens == burst && last == Some(now)
    {
      var r0 := if r < 0 then 0 else r;
      var b := r0 as real;
      if b < 1.0 { b := 1.0; }
      if b > MAX_BURST as real { b := MAX_BURST as real; }
      rate, burst, tokens, last := r0, b, b, Some(now);
    }

    /** refillLocked */
    method Refill(now: real)
      modifies this
      ensures View() == Refilled(old(View()), now)
    {
      if last.None? { last := Some(now); return; }
      if now < last.value { last := Some(now); return; }
      if rate > 0 {
        tokens := tokens + (now - last.value) * rate as real;
        if tokens > burst { tokens := burst; }
      }
      last := Some(now);
    }

    /** SetRate */
    method ChangeRate(r: int, now: real)
      requires Valid(View())
      modifies this
      ensures View() == WithRate(old(View()), r, now) && Valid(View())
    {
      RefillBounds(View(), now);
      Refill(now);
      rate := if r < 0 then 0 else r;
      burst := rate as real;
      if burst < 1.0 { burst := 1.0; }
      if burst > MAX_BURST as real { burst := MAX_BURST as real; }
      if tokens > burst { tokens := burst; }
    }

    /** One lock region of WaitN. */
    method Take(now: real, remaining: int) returns (v: Verdict)
      requires Valid(View()) && remaining > 0
      modifies this
      ensures (View(), v) == Taken(old(View()), now, remaining) && Valid(View())
    {
      TakenBounds(View(), now, remaining);
      Refill(now);
      if rate <= 0 { return Unlimited; }
      var request := if remaining as real <= burst then remaining as real else burst;
      if tokens >= request {
        tokens := tokens - request;
        return Granted(request.Floor);
      }
      var wait := (request - tokens) / rate as real;
      if wait < MICROSECOND { wait := MICROSECOND; }
      return Wait(wait);
    }

    /** What other callers do to the bucket between two turns of a WaitN. */
    method LetOthers(acts: seq<Act>, now: real)
      requires Valid(View())
      modifies this
      ensures Valid(View())
    {
      for i := 0 to |acts|
        invariant Valid(View())
      {
        match acts[i]
        case NewRate(r) => ChangeRate(r, now);
        case OtherTakes(bytes) => if bytes > 0 { var v := Take(now, bytes); }
      }
    }

    /** WaitN over a given schedule: turn k happens at times[k], after whatever others did in between.
        Returns what was granted; Waiting means the schedule ended first. */
    method WaitN(n: int, times: seq<real>, others: seq<seq<Act>>, cancelAt: nat) returns (status: Status, granted: int)
      requires Valid(View()) && |others| == |times|
      modifies this
      ensures Valid(View())
      ensures n > 0 ==> 0 <= granted <= n && (status.Done? <==> granted == n)
      ensures n <= 0 ==> granted == 0 && status.Done? && View() == old(View())
    {
      granted := 0;
      if n <= 0 { return Done, 0; }
      var remaining, k := n, 0;
      while remaining > 0
        invariant 0 <= k <= |times| && 0 <= remaining <= n && granted == n - remaining && Valid(View())
        decreases |times| - k
      {
        if k == |times| { return Waiting, granted; }
        if k == cancelAt { return Cancelled, granted; }
        LetOthers(others[k], times[k]);
        TakenBounds(View(), times[k], remaining);
        var v := Take(times[k], remaining);
        match v {
          case Unlimited => return Bypassed, granted;
          case Granted(m) => remaining := remaining - m; granted := granted + m;
          case Wait(_) =>
        }
        k := k + 1;
      }
      return Done, granted;
    }
  }
}
