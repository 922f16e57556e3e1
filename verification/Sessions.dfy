/** What requests tell the breaker, answered or not, and what it then knows (app/integrations/razorpay.py:64-88). */
module Sessions {
  import opened Enums
  import opened Breaker

  /** Is the breaker open, going by the signals heard so far? */
  predicate Tripped(lim: Settings, history: seq<Signal>, now: int) {
    var failures := SinceReset(lim, history);
    Trips(lim, failures) && Within(lim, failures, now)
  }

  /** The signals of one request after some history: each attempt reads the breaker; an open one ends the request there,
      an answer ends it with a success, and anything else is a failure followed by the next attempt. */
  function Emits(lim: Settings, history: seq<Signal>, tries: seq<Try>): seq<Signal>
    decreases |tries|
  {
    if |tries| == 0 then []
    else
      var read := Read(tries[0].checkedAt);
      if Tripped(lim, history, tries[0].checkedAt) then [read]
      else if tries[0].answered then [read, Success]
      else
        var told := [read, Failure(tries[0].endedAt)];
        told + Emits(lim, history + told, tries[1..])
  }

  /** How the request ends, told by its last signal. */
  function EndedBy(signals: seq<Signal>): Outcome {
    if |signals| == 0 then GaveUp
    else match signals[|signals| - 1]
      case Success => Answered
      case Read(_) => CircuitOpen
      case Failure(_) => GaveUp
  }

  lemma HearsOne(lim: Settings, history: seq<Signal>, s: Signal)
    ensures HearAll(lim, history + [s]) == Hear(lim, HearAll(lim, history), s)
  {
    assert (history + [s])[..|history|] == history;
  }

  lemma HearsTwo(lim: Settings, history: seq<Signal>, r: Signal, s: Signal)
    ensures HearAll(lim, history + [r, s]) == Hear(lim, Hear(lim, HearAll(lim, history), r), s)
  {
    HearsOne(lim, history, r);
    HearsOne(lim, history + [r], s);
    assert history + [r] + [s] == history + [r, s];
  }

  lemma {:induction false} RequestTells(lim: Settings, history: seq<Signal>, tries: seq<Try>, k: nat)
    requires k <= |tries|
    ensures
      var x := RequestFrom(lim, HearAll(lim, history), tries, k);
      var told := Emits(lim, history, tries[k..]);
      && x.b == HearAll(lim, history + told)
      && (k < |tries| || |told| == 0)
      && (x.outcome == EndedBy(told) || (k == |tries| && x.outcome == GaveUp))
    decreases |tries| - k
  {
    hide HearAll, SinceReset;
    if k == |tries| {
      assert history + [] == history;
    } else {
      var t := tries[k];
      var read, failure := Read(t.checkedAt), Failure(t.endedAt);
      assert tries[k..][0] == t && tries[k..][1..] == tries[k + 1..];
      OpenTellsHistory(lim, history, t.checkedAt);
      HearsOne(lim, history, read);
      HearsTwo(lim, history, read, Success);
      HearsTwo(lim, history, read, failure);
      if !Tripped(lim, history, t.checkedAt) && !t.answered {
        RequestTells(lim, history + [read, failure], tries, k + 1);
        var rest := Emits(lim, history + [read, failure], tries[k + 1..]);
        assert history + [read, failure] + rest == history + ([read, failure] + rest);
        LastOf([read, failure], rest);
      }
    }
  }

  lemma LastOf(told: seq<Signal>, rest: seq<Signal>)
    requires |told| > 0
    ensures |rest| > 0 ==> EndedBy(told + rest) == EndedBy(rest)
    ensures |rest| == 0 ==> EndedBy(told + rest) == EndedBy(told)
  {
  }

  // ----- Sessions -----

  /** The signals of a session of requests made one after another. */
  function SessionEmits(lim: Settings, requests: seq<seq<Try>>): seq<Signal> {
    if |requests| == 0 then []
    else
      var before := SessionEmits(lim, requests[..|requests| - 1]);
      before + Emits(lim, before, requests[|requests| - 1])
  }

  /** A session leaves the breaker where its signals leave it. */
  lemma {:induction false} SessionTells(lim: Settings, requests: seq<seq<Try>>)
    ensures Session(lim, CLOSED, requests).0 == HearAll(lim, SessionEmits(lim, requests))
  {
    hide RequestFrom, Emits;
    if |requests| > 0 {
      var n := |requests| - 1;
      var before := SessionEmits(lim, requests[..n]);
      SessionTells(lim, requests[..n]);
      RequestTells(lim, before, requests[n], 0);
      assert requests[n][0..] == requests[n];
    }
  }

  /** Drives a session through a new breaker: afterwards it stands where the session's signals leave it, and each
      request ended as its last signal tells. */
  method RunSession(threshold: int, cooldown: int, requests: seq<seq<Try>>)
    returns (breaker: CircuitBreaker, outcomes: seq<Outcome>)
    ensures fresh(breaker) && breaker.Config() == Settings(threshold, cooldown)
    ensures
      var lim := Settings(threshold, cooldown);
      breaker.State() == HearAll(lim, SessionEmits(lim, requests))
    ensures |outcomes| == |requests|
    ensures forall i | 0 <= i < |requests| ::
      var lim := Settings(threshold, cooldown);
      outcomes[i] == EndedBy(Emits(lim, SessionEmits(lim, requests[..i]), requests[i]))
  {
    ghost var lim := Settings(threshold, cooldown);
    breaker := new CircuitBreaker(threshold, cooldown);
    outcomes := [];
    for k := 0 to |requests|
      invariant fresh(breaker) && breaker.Config() == lim && |outcomes| == k
      invariant breaker.State() == HearAll(lim, SessionEmits(lim, requests[..k]))
      invariant forall i | 0 <= i < k ::
        outcomes[i] == EndedBy(Emits(lim, SessionEmits(lim, requests[..i]), requests[i]))
    {
      RequestTells(lim, SessionEmits(lim, requests[..k]), requests[k], 0);
      assert requests[k][0..] == requests[k] && requests[..k + 1][..k] == requests[..k];
      EmptyGivesUp(lim, SessionEmits(lim, requests[..k]));
      var outcome, made := Request(breaker, requests[k]);
      outcomes := outcomes + [outcome];
    }
    assert requests[..|requests|] == requests;
  }

  lemma EmptyGivesUp(lim: Settings, history: seq<Signal>)
    ensures EndedBy(Emits(lim, history, [])) == GaveUp
  {
  }

  // ----- After a session -----

  /** An answer forgets every failure before it: after a request that was answered the breaker is as new. */
  lemma AnswerForgets(lim: Settings, requests: seq<seq<Try>>)
    requires |requests| > 0
    requires
      var before := SessionEmits(lim, requests[..|requests| - 1]);
      EndedBy(Emits(lim, before, requests[|requests| - 1])) == Answered
    ensures Session(lim, CLOSED, requests).0 == BreakerState(0, None)
  {
    var before := SessionEmits(lim, requests[..|requests| - 1]);
    var told := Emits(lim, before, requests[|requests| - 1]);
    SessionTells(lim, requests);
    assert before + told == before + told[..|told| - 1] + [Success];
    HearsOne(lim, before + told[..|told| - 1], Success);
  }

  /** After any session the breaker is open exactly when at least threshold failures came since its last answer or
      lapsed read and the newest of them is within the cooldown. */
  lemma OpenAfterSession(lim: Settings, requests: seq<seq<Try>>, now: int)
    ensures
      var failures := SinceReset(lim, SessionEmits(lim, requests));
      Open(lim, Session(lim, CLOSED, requests).0, now) <==>
        |failures| > 0 && |failures| >= lim.threshold && now - failures[|failures| - 1] <= lim.cooldown
  {
    hide Session, SessionEmits;
    SessionTells(lim, requests);
    OpenTellsHistory(lim, SessionEmits(lim, requests), now);
  }
}
