/** The circuit breaker in front of the real payment API and the attempt loop of a request
    (app/integrations/razorpay.py:21-88). Time is an integer clock that never runs backwards; an HTTP call
    either answers or fails (a 5xx, a timeout or a transport error). */
module Breaker {
  import opened Enums

  datatype BreakerState = BreakerState(failures: nat, openedAt: Option<int>)

  const CLOSED := BreakerState(0, None)

  datatype Settings = Settings(threshold: int, cooldown: int)

  // ----- One operation at a time -----

  predicate Lapsed(lim: Settings, b: BreakerState, now: int) {
    b.openedAt.Some? && now - b.openedAt.value > lim.cooldown
  }

  /** The answer of an `is_open` read, and what the read leaves behind. */
  predicate Open(lim: Settings, b: BreakerState, now: int) { b.openedAt.Some? && !Lapsed(lim, b, now) }

  function AfterRead(lim: Settings, b: BreakerState, now: int): BreakerState {
    if Lapsed(lim, b, now) then CLOSED else b
  }

  function AfterFailure(lim: Settings, b: BreakerState, now: int): BreakerState {
    BreakerState(b.failures + 1, if b.failures + 1 >= lim.threshold then Some(now) else b.openedAt)
  }

  class CircuitBreaker {
    const threshold: int
    const cooldown: int
    var failures: nat
    var openedAt: Option<int>

    function State(): BreakerState
      reads this
    {
      BreakerState(failures, openedAt)
    }

    function Config(): Settings { Settings(threshold, cooldown) }

    constructor (threshold: int, cooldown: int)
      ensures Config() == Settings(threshold, cooldown) && State() == CLOSED
    {
      this.threshold, this.cooldown := threshold, cooldown;
      failures, openedAt := 0, None;
    }

    method IsOpen(now: int) returns (open: bool)
      modifies this
      ensures open <==> Open(Config(), old(State()), now)
      ensures State() == AfterRead(Config(), old(State()), now)
    {
      if openedAt.None? {
        return false;
      }
      if now - openedAt.value > cooldown {
        openedAt := None;
        failures := 0;
        return false;
      }
      open := true;
    }

    method RecordFailure(now: int)
      modifies this
      ensures State() == AfterFailure(Config(), old(State()), now)
    {
      failures := failures + 1;
      if failures >= threshold {
        openedAt := Some(now);
      }
    }

    method RecordSuccess()
      modifies this
      ensures State() == CLOSED
    {
      failures := 0;
      openedAt := None;
    }
  }

  // ----- The breaker and its history -----

  datatype Signal = Failure(at: int) | Success | Read(at: int)

  function Hear(lim: Settings, b: BreakerState, s: Signal): BreakerState {
    match s
    case Failure(at) => AfterFailure(lim, b, at)
    case Success => CLOSED
    case Read(at) => AfterRead(lim, b, at)
  }

  function HearAll(lim: Settings, history: seq<Signal>): BreakerState {
    if |history| == 0 then CLOSED else Hear(lim, HearAll(lim, history[..|history| - 1]), history[|history| - 1])
  }

  /** Enough failures to trip the breaker. */
  predicate Trips(lim: Settings, failures: seq<int>) { |failures| > 0 && |failures| >= lim.threshold }

  predicate Within(lim: Settings, failures: seq<int>, now: int)
    requires |failures| > 0
  {
    now - failures[|failures| - 1] <= lim.cooldown
  }

  /** The times of the failures recorded since the last reset: a success, or a read after the cooldown of a
      tripped breaker. */
  function SinceReset(lim: Settings, history: seq<Signal>): seq<int> {
    if |history| == 0 then []
    else
      var failures := SinceReset(lim, history[..|history| - 1]);
      match history[|history| - 1]
      case Failure(at) => failures + [at]
      case Success => []
      case Read(at) => if Trips(lim, failures) && !Within(lim, failures, at) then [] else failures
  }

  /** `is_open` answers true exactly when at least `threshold` failures were recorded since the last reset
      and the newest of them is no older than the cooldown. */
  lemma {:induction false} OpenTellsHistory(lim: Settings, history: seq<Signal>, now: int)
    ensures
      var b, failures := HearAll(lim, history), SinceReset(lim, history);
      && b.failures == |failures|
      && b.openedAt == (if Trips(lim, failures) then Some(failures[|failures| - 1]) else None)
      && (Open(lim, b, now) <==> Trips(lim, failures) && Within(lim, failures, now))
  {
    if |history| > 0 {
      OpenTellsHistory(lim, history[..|history| - 1], now);
    }
  }

  // ----- Requests -----

  /** One attempt: when the breaker is read, when the call ends, and whether it was answered. */
  datatype Try = Try(checkedAt: int, endedAt: int, answered: bool)

  datatype Outcome = Answered | CircuitOpen | GaveUp

  datatype Exchange = Exchange(b: BreakerState, outcome: Outcome, made: nat)
  {
    /** Calls that went out: a request stopped by the breaker did not send its last attempt. */
    function Sends(): int { if outcome == CircuitOpen then made - 1 else made }
  }

  /** A request from attempt `k` on; `made` counts the attempts that reached the breaker. */
  function RequestFrom(lim: Settings, b: BreakerState, tries: seq<Try>, k: nat): (x: Exchange)
    requires k <= |tries|
    ensures k <= x.made <= |tries|
    decreases |tries| - k
  {
    if k == |tries| then Exchange(b, GaveUp, k)
    else
      var t, read := tries[k], AfterRead(lim, b, tries[k].checkedAt);
      if Open(lim, b, t.checkedAt) then Exchange(read, CircuitOpen, k + 1)
      else if t.answered then Exchange(CLOSED, Answered, k + 1)
      else RequestFrom(lim, AfterFailure(lim, read, t.endedAt), tries, k + 1)
  }

  /** `tries` holds what the world does on each of the max_retries + 1 attempts. */
  method Request(breaker: CircuitBreaker, tries: seq<Try>) returns (outcome: Outcome, ghost made: nat)
    modifies breaker
    ensures RequestFrom(breaker.Config(), old(breaker.State()), tries, 0) == Exchange(breaker.State(), outcome, made)
  {
    made := 0;
    for k := 0 to |tries|
      invariant made == k
      invariant RequestFrom(breaker.Config(), old(breaker.State()), tries, 0)
                == RequestFrom(breaker.Config(), breaker.State(), tries, k)
    {
      made := k + 1;
      var open := breaker.IsOpen(tries[k].checkedAt);
      if open {
        return CircuitOpen, made;
      }
      if tries[k].answered {
        breaker.RecordSuccess();
        return Answered, made;
      }
      breaker.RecordFailure(tries[k].endedAt);
    }
    outcome := GaveUp;
  }

  // ----- An upstream that never answers -----

  datatype Tally = Tally(b: BreakerState, sends: nat, lapses: nat)

  /** Attempts against a failing upstream, whichever request each belongs to. */
  function Pound(lim: Settings, t: Tally, tries: seq<Try>): Tally {
    if |tries| == 0 then t
    else
      var before, last := Pound(lim, t, tries[..|tries| - 1]), tries[|tries| - 1];
      var read := AfterRead(lim, before.b, last.checkedAt);
      var lapses := before.lapses + if Lapsed(lim, before.b, last.checkedAt) then 1 else 0;
      if Open(lim, before.b, last.checkedAt) then Tally(read, before.sends, lapses)
      else Tally(AfterFailure(lim, read, last.endedAt), before.sends + 1, lapses)
  }

  /** Attempts follow one another, the first at `start` or later. */
  predicate Sequential(tries: seq<Try>, start: int) {
    && (forall i | 0 <= i < |tries| :: start <= tries[i].checkedAt <= tries[i].endedAt)
    && (forall i | 1 <= i < |tries| :: tries[i - 1].endedAt <= tries[i].checkedAt)
  }

  function Clock(tries: seq<Try>, start: int): int {
    if |tries| == 0 then start else tries[|tries| - 1].endedAt
  }

  lemma {:induction false} PoundKeeps(lim: Settings, tries: seq<Try>, start: int)
    requires lim.threshold >= 1 && lim.cooldown > 0 && Sequential(tries, start)
    ensures
      var t := Pound(lim, Tally(CLOSED, 0, 0), tries);
      && t.b.failures <= lim.threshold && t.sends == lim.threshold * t.lapses + t.b.failures
      && (t.b.openedAt.Some? <==> t.b.failures == lim.threshold)
      && start + t.lapses * lim.cooldown <= Clock(tries, start)
      && (t.b.openedAt.Some? ==> start + t.lapses * lim.cooldown <= t.b.openedAt.value <= Clock(tries, start))
      && (t.lapses > 0 ==> |tries| > 0 && start + t.lapses * lim.cooldown < tries[|tries| - 1].checkedAt)
  {
    if |tries| > 0 {
      var before := tries[..|tries| - 1];
      PoundKeeps(lim, before, start);
      var t := Pound(lim, Tally(CLOSED, 0, 0), before);
      assert (t.lapses + 1) * lim.cooldown == t.lapses * lim.cooldown + lim.cooldown;
      assert lim.threshold * (t.lapses + 1) == lim.threshold * t.lapses + lim.threshold;
    }
  }

  lemma MulKeepsOrder(a: int, x: int, y: int)
    requires a >= 0 && x <= y
    ensures a * x <= a * y
  {
    assert a * (y - x) >= 0;
  }

  lemma QuotientBound(lapses: nat, cooldown: int, span: int)
    requires cooldown > 0 && lapses * cooldown <= span
    ensures lapses <= span / cooldown
  {
    var q := span / cooldown;
    if lapses >= q + 1 {
      MulKeepsOrder(cooldown, q + 1, lapses);
    }
  }

  lemma Throttle(threshold: int, cooldown: int, lapses: nat, failures: int, span: int)
    requires threshold >= 1 && cooldown > 0 && lapses * cooldown <= span && failures <= threshold
    ensures threshold * lapses + failures <= threshold * (1 + span / cooldown)
  {
    QuotientBound(lapses, cooldown, span);
    MulKeepsOrder(threshold, lapses + 1, 1 + span / cooldown);
  }

  /** Sequential attempts against an upstream that always fails, whatever their number, retries and pauses,
      send at most threshold * (1 + floor(span / cooldown)) times, `span` being the time from the start to the
      last check. */
  lemma SendsAreBounded(lim: Settings, tries: seq<Try>, start: int)
    requires lim.threshold >= 1 && lim.cooldown > 0 && Sequential(tries, start) && |tries| > 0
    ensures
      var span := tries[|tries| - 1].checkedAt - start;
      Pound(lim, Tally(CLOSED, 0, 0), tries).sends <= lim.threshold * (1 + span / lim.cooldown)
  {
    PoundKeeps(lim, tries, start);
    var t := Pound(lim, Tally(CLOSED, 0, 0), tries);
    hide Pound, Sequential;
    var span := tries[|tries| - 1].checkedAt - start;
    assert span >= 0 by { assert Sequential(tries, start); FirstCheck(tries, start); }
    assert t.lapses * lim.cooldown <= span;
    Throttle(lim.threshold, lim.cooldown, t.lapses, t.b.failures, span);
  }

  lemma FirstCheck(tries: seq<Try>, start: int)
    requires Sequential(tries, start) && |tries| > 0
    ensures tries[|tries| - 1].checkedAt >= start
  {
  }

  /** A breaker whose cooldown has lapsed is not probed with one call: it lets a whole threshold of failing
      calls through before it opens again. */
  lemma {:induction false} LapseAllowsFullBurst(lim: Settings, b: BreakerState, tries: seq<Try>)
    requires |tries| > 0 && Lapsed(lim, b, tries[0].checkedAt) && |tries| <= lim.threshold
    ensures
      var t := Pound(lim, Tally(b, 0, 0), tries);
      && t.sends == |tries| && t.b.failures == |tries|
      && (t.b.openedAt.Some? <==> |tries| == lim.threshold)
  {
    if |tries| > 1 {
      LapseAllowsFullBurst(lim, b, tries[..|tries| - 1]);
    } else {
      assert Pound(lim, Tally(b, 0, 0), tries[..0]) == Tally(b, 0, 0);
    }
  }

  /** A request without an answer does to the breaker, and sends, what pounding with its attempts does. */
  lemma {:induction false} RequestPounds(lim: Settings, t0: Tally, tries: seq<Try>, k: nat)
    requires k <= |tries| && forall i | 0 <= i < |tries| :: !tries[i].answered
    ensures
      var x := RequestFrom(lim, Pound(lim, t0, tries[..k]).b, tries, k);
      && k <= x.made <= |tries|
      && x.b == Pound(lim, t0, tries[..x.made]).b
      && Pound(lim, t0, tries[..k]).sends + x.Sends() - k == Pound(lim, t0, tries[..x.made]).sends
    decreases |tries| - k
  {
    if k < |tries| {
      assert tries[..k + 1][..k] == tries[..k];
      if !Open(lim, Pound(lim, t0, tries[..k]).b, tries[k].checkedAt) {
        RequestPounds(lim, t0, tries, k + 1);
      }
    }
  }

  lemma WholeRequestPounds(lim: Settings, b: BreakerState, tries: seq<Try>)
    requires forall i | 0 <= i < |tries| :: !tries[i].answered
    ensures
      var x := RequestFrom(lim, b, tries, 0);
      x.made <= |tries| && Pound(lim, Tally(b, 0, 0), tries[..x.made]).b == x.b
      && Pound(lim, Tally(b, 0, 0), tries[..x.made]).sends == x.Sends()
  {
    assert tries[..0] == [];
    RequestPounds(lim, Tally(b, 0, 0), tries, 0);
    hide RequestFrom;
  }

  /** The breaker after a session of requests made one after another, and the calls they sent. */
  function Session(lim: Settings, b: BreakerState, requests: seq<seq<Try>>): (r: (BreakerState, int)) {
    if |requests| == 0 then (b, 0)
    else
      var before := Session(lim, b, requests[..|requests| - 1]);
      var x := RequestFrom(lim, before.0, requests[|requests| - 1], 0);
      (x.b, before.1 + x.Sends())
  }

  /** The attempts a session really made. */
  function Made(lim: Settings, b: BreakerState, requests: seq<seq<Try>>): seq<Try> {
    if |requests| == 0 then []
    else
      var n := |requests| - 1;
      var before, last := Session(lim, b, requests[..n]).0, requests[n];
      Made(lim, b, requests[..n]) + last[..RequestFrom(lim, before, last, 0).made]
  }

  predicate Failing(requests: seq<seq<Try>>) {
    forall r: seq<Try> | r in requests :: forall i | 0 <= i < |r| :: !r[i].answered
  }

  lemma {:induction false} PoundConcat(lim: Settings, t: Tally, a: seq<Try>, b: seq<Try>)
    ensures Pound(lim, t, a + b) == Pound(lim, Pound(lim, t, a), b)
  {
    if |b| == 0 {
      assert a + b == a;
    } else {
      assert (a + b)[..|a + b| - 1] == a + b[..|b| - 1];
      PoundConcat(lim, t, a, b[..|b| - 1]);
    }
  }

  lemma {:induction false} PoundShifts(lim: Settings, t: Tally, tries: seq<Try>)
    ensures
      var p, q := Pound(lim, t, tries), Pound(lim, Tally(t.b, 0, 0), tries);
      p.b == q.b && p.sends == t.sends + q.sends
  {
    if |tries| > 0 {
      PoundShifts(lim, t, tries[..|tries| - 1]);
    }
  }

  lemma {:induction false} SessionPounds(lim: Settings, requests: seq<seq<Try>>)
    requires Failing(requests)
    ensures Session(lim, CLOSED, requests).0 == Pound(lim, Tally(CLOSED, 0, 0), Made(lim, CLOSED, requests)).b
    ensures Session(lim, CLOSED, requests).1 == Pound(lim, Tally(CLOSED, 0, 0), Made(lim, CLOSED, requests)).sends
  {
    hide RequestFrom, Pound;
    if |requests| == 0 {
      NothingPounds(lim);
    } else {
      var n := |requests| - 1;
      SessionPounds(lim, requests[..n]);
      var made0 := Made(lim, CLOSED, requests[..n]);
      var b := Session(lim, CLOSED, requests[..n]).0;
      var made := requests[n][..RequestFrom(lim, b, requests[n], 0).made];
      WholeRequestPounds(lim, b, requests[n]);
      PoundShifts(lim, Pound(lim, Tally(CLOSED, 0, 0), made0), made);
      PoundConcat(lim, Tally(CLOSED, 0, 0), made0, made);
    }
  }

  lemma NothingPounds(lim: Settings)
    ensures Pound(lim, Tally(CLOSED, 0, 0), []) == Tally(CLOSED, 0, 0)
  {
  }

  /** A session of requests against an upstream that never answers, however many requests and retries it
      makes and however long it pauses: at most threshold * (1 + floor(span / cooldown)) calls are sent. */
  lemma {:induction false} FailingSessionIsThrottled(lim: Settings, requests: seq<seq<Try>>, start: int)
    requires lim.threshold >= 1 && lim.cooldown > 0 && Failing(requests)
    requires |Made(lim, CLOSED, requests)| > 0 && Sequential(Made(lim, CLOSED, requests), start)
    ensures
      var made := Made(lim, CLOSED, requests);
      Session(lim, CLOSED, requests).1 <= lim.threshold * (1 + (made[|made| - 1].checkedAt - start) / lim.cooldown)
  {
    hide Session, Made, Pound, Sequential;
    SessionPounds(lim, requests);
    SendsAreBounded(lim, Made(lim, CLOSED, requests), start);
  }
}
