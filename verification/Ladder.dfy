/** The closed form of a batch run: where `advance_case` leaves a fresh case when the decision table decides
    and the default config applies (app/services/pipeline.py:250-436).

    A `Rung` is the little of a case that its climb depends on. The pipeline step refines `Climb`, and
    `Climb` refines `Fate`, which looks only at age, amount, diagnosis, token, retry count and roll. */
module Ladder {
  import opened Enums
  import opened Fsm
  import opened Strategies
  import opened PolicyRules
  import opened Pipeline

  /** What is fixed for the whole climb: `paid` is the gateway's one roll for the payment, `prior` the
      attempts made before the case was opened. */
  datatype Footing = Footing(diagnosis: DiagnosisClass, confidence: int, hasToken: bool, amountMinor: int,
                             createdAt: int, paid: bool, prior: int)

  datatype Rung = Rung(
    status: CaseStatus,
    retryCount: nat,
    links: nat,
    now: int,
    lastAttemptAt: Option<int>,
    plan: Strategy,
    steps: nat)

  function RungAge(f: Footing, u: Rung): int { Max(0, u.now - f.createdAt) }

  function Table(f: Footing, retryCount: nat, age: int): Choice {
    SelectStrategy(f.diagnosis, retryCount, f.hasToken, f.amountMinor, f.confidence, age, false,
                   DEFAULT_CONFIG.approvalLimitMinor, DEFAULT_CONFIG.confidenceFloor)
  }

  function Replan(f: Footing, u: Rung): Strategy { Table(f, u.retryCount, RungAge(f, u)).strategy }

  /** All the gate ever refuses the table: stale cases, and links beyond the contact cap. */
  predicate Refused(f: Footing, u: Rung) {
    || RungAge(f, u) >= 72 * HOUR
    || (ActionOf(u.plan) == Some(SendRecoveryLink) && u.links >= 3)
  }

  function Attempted(f: Footing, u: Rung): Rung {
    if f.paid then u.(status := Recovered) else u.(status := Verifying, lastAttemptAt := Some(u.now))
  }

  function Rise(f: Footing, u0: Rung): Rung {
    var u := u0.(steps := u0.steps + 1);
    match u.status
    case Detected => u.(status := Analyzing)
    case Analyzing => u.(status := Diagnosed, plan := Replan(f, u))
    case Diagnosed => u.(status := Planned, plan := if u.retryCount > 0 then Replan(f, u) else u.plan)
    case Planned => u.(status := PolicyCheck)
    case PolicyCheck => u.(status := if Refused(f, u) then Blocked else Approved)
    case Approved =>
      (match u.plan
       case S6 => u.(status := Verifying)
       case S5 => u.(status := AwaitingApproval)
       case S1 | S2 => Attempted(f, u.(retryCount := u.retryCount + 1))
       case S3 | S4 => Attempted(f, u.(links := u.links + 1)))
    case Verifying =>
      if u.plan == S6 || (f.diagnosis == InstrumentInvalid && u.links > 0) then u.(status := ClosedUnrecovered)
      else if u.links >= 3 then u.(status := Diagnosed, plan := S5)
      else u.(status := Diagnosed, now := u.now + CooldownMinutes(u.retryCount))
    case AwaitingApproval => u.(status := Escalated, now := u.now + 48 * HOUR)
    case _ => u
  }

  function Climb(f: Footing, u: Rung): Rung
    decreases MAX_STEPS - u.steps
  {
    if IsTerminal(u.status) || u.steps >= MAX_STEPS then u else Climb(f, Rise(f, u))
  }

  // ----- The closed form -----

  /** Where the climb ends, with the attempts it made, the steps it took and the minutes it waited. */
  datatype Landing = Landing(status: CaseStatus, charges: nat, links: nat, steps: nat, minutes: nat)

  predicate RetryClass(f: Footing) {
    || f.diagnosis == BankDowntime
    || ((f.diagnosis == InsufficientFunds || f.diagnosis == NetworkInfra) && f.hasToken)
  }

  predicate NeedsHuman(f: Footing, r: nat) {
    || f.amountMinor >= DEFAULT_CONFIG.approvalLimitMinor
    || f.confidence < DEFAULT_CONFIG.confidenceFloor
    || f.diagnosis == UnknownCause
    || r >= 2
  }

  /** `a` is the payment's age in minutes when the run starts, `r` the attempts made before it. */
  function Fate(f: Footing, a: int, r: nat): Landing {
    if a >= 72 * HOUR then Landing(Blocked, 0, 0, 5, 0)
    else if a > 48 * HOUR then Landing(ClosedUnrecovered, 0, 0, 7, 0)
    else if NeedsHuman(f, r) then Landing(Escalated, 0, 0, 7, 2880)
    else if RetryClass(f) then
      if f.paid then Landing(Recovered, 1, 0, 6, 0)
      else if r == 0 then
        if a > 46 * HOUR then Landing(ClosedUnrecovered, 1, 0, 12, 120)
        else if a > 38 * HOUR then Landing(ClosedUnrecovered, 2, 0, 17, 600)
        else Landing(Escalated, 2, 0, 17, 3480)
      else if a > 40 * HOUR then Landing(ClosedUnrecovered, 1, 0, 12, 480)
      else Landing(Escalated, 1, 0, 12, 3360)
    else
      if f.paid then Landing(Recovered, 0, 1, 6, 0)
      else if f.diagnosis == InstrumentInvalid then Landing(ClosedUnrecovered, 0, 1, 7, 0)
      else if r == 0 then Landing(Escalated, 0, 3, 22, 2940)
      else if a > 46 * HOUR then Landing(ClosedUnrecovered, 0, 1, 12, 120)
      else if a > 44 * HOUR then Landing(ClosedUnrecovered, 0, 2, 17, 240)
      else Landing(Blocked, 0, 3, 20, 240)
  }

  ghost predicate Lands(u: Rung, r: nat, start: int, landing: Landing) {
    && u.status == landing.status && u.retryCount == r + landing.charges
    && u.links == landing.links && u.steps == landing.steps && u.now == start + landing.minutes
  }

  function Start(r: nat, now: int): Rung { Rung(Detected, r, 0, now, None, S5, 0) }

  // ----- Climbing a few rungs at a time -----

  lemma ClimbsTwo(f: Footing, u: Rung)
    requires !IsTerminal(u.status) && !IsTerminal(Rise(f, u).status) && u.steps + 2 <= MAX_STEPS
    ensures Climb(f, u) == Climb(f, Rise(f, Rise(f, u)))
  {
  }

  /** From Diagnosed through planning to the gate's answer. */
  function Gated(f: Footing, u: Rung): Rung
    requires u.status == Diagnosed
  {
    var planned := u.(plan := if u.retryCount > 0 then Replan(f, u) else u.plan, steps := u.steps + 3);
    planned.(status := if Refused(f, planned) then Blocked else Approved)
  }

  lemma ReachesGate(f: Footing, u: Rung)
    requires u.status == Diagnosed && u.steps + 3 <= MAX_STEPS
    ensures Climb(f, u) == Climb(f, Gated(f, u))
  {
    ClimbsTwo(f, u);
    assert Rise(f, Rise(f, Rise(f, u))) == Gated(f, u);
  }

  /** An approved stop closes, an approved escalation times out. */
  lemma StopsOrParks(f: Footing, u: Rung)
    requires u.status == Approved && (u.plan == S5 || u.plan == S6) && u.steps + 2 <= MAX_STEPS
    ensures Climb(f, u) == if u.plan == S6 then u.(status := ClosedUnrecovered, steps := u.steps + 2)
                           else u.(status := Escalated, now := u.now + 48 * HOUR, steps := u.steps + 2)
  {
    ClimbsTwo(f, u);
  }

  /** An unpaid attempt comes back to Diagnosed after the cooldown, or at the contact cap right away. */
  function BackAgain(u: Rung): Rung {
    var tried := u.(status := Diagnosed, lastAttemptAt := Some(u.now), steps := u.steps + 2);
    if ActionOf(u.plan) == Some(RetryCharge) then
      var t := tried.(retryCount := u.retryCount + 1);
      t.(now := t.now + CooldownMinutes(t.retryCount))
    else
      var t := tried.(links := u.links + 1);
      if t.links >= 3 then t.(plan := S5) else t.(now := t.now + CooldownMinutes(t.retryCount))
  }

  lemma RetriesAndReturns(f: Footing, u: Rung)
    requires u.status == Approved && ActionOf(u.plan) == Some(RetryCharge) && !f.paid && u.steps + 2 <= MAX_STEPS
    requires f.diagnosis != InstrumentInvalid && u.links < 3
    ensures Climb(f, u) == Climb(f, BackAgain(u))
  {
    hide Climb, CooldownMinutes;
    ClimbsTwo(f, u);
  }

  lemma TriesAndReturns(f: Footing, u: Rung)
    requires u.status == Approved && u.plan != S5 && u.plan != S6 && !f.paid && u.steps + 2 <= MAX_STEPS
    requires f.diagnosis != InstrumentInvalid
    requires ActionOf(u.plan) == Some(RetryCharge) ==> u.links < 3
    ensures Climb(f, u) == Climb(f, BackAgain(u))
  {
    hide Climb, CooldownMinutes;
    if ActionOf(u.plan) == Some(RetryCharge) {
      RetriesAndReturns(f, u);
    } else {
      ClimbsTwo(f, u);
    }
  }

  /** A lap: gate, attempt, and back to Diagnosed. */
  lemma Lap(f: Footing, u: Rung)
    requires u.status == Diagnosed && u.steps + 5 <= MAX_STEPS && !f.paid && f.diagnosis != InstrumentInvalid
    requires
      var v := Gated(f, u);
      v.status == Approved && v.plan != S5 && v.plan != S6 && (ActionOf(v.plan) == Some(RetryCharge) ==> v.links < 3)
    ensures Climb(f, u) == Climb(f, BackAgain(Gated(f, u)))
  {
    ReachesGate(f, u);
    TriesAndReturns(f, Gated(f, u));
  }

  /** The last lap: an approved stop or escalation, or a refusal. */
  lemma LastLap(f: Footing, u: Rung)
    requires u.status == Diagnosed && u.steps + 5 <= MAX_STEPS
    requires var v := Gated(f, u); v.status == Blocked || v.plan == S5 || v.plan == S6
    ensures Climb(f, u) ==
      var v := Gated(f, u);
      if v.status == Blocked then v
      else if v.plan == S6 then v.(status := ClosedUnrecovered, steps := v.steps + 2)
      else v.(status := Escalated, now := v.now + 48 * HOUR, steps := v.steps + 2)
  {
    ReachesGate(f, u);
    if Gated(f, u).status == Approved {
      StopsOrParks(f, Gated(f, u));
    }
  }

  lemma FirstPlan(f: Footing, r: nat, now: int)
    ensures Climb(f, Start(r, now)) ==
      Climb(f, Rung(Diagnosed, r, 0, now, None, Table(f, r, Max(0, now - f.createdAt)).strategy, 2))
  {
    ClimbsTwo(f, Start(r, now));
  }

  /** What the diagnosis table can yield. */
  predicate Diagnosable(f: Footing) {
    f.diagnosis != DuplicateSelfHealed && (f.diagnosis != UnknownCause ==> f.confidence >= 70)
  }

  lemma StaleOrHuman(f: Footing, r: nat, now: int)
    requires Diagnosable(f) && (now - f.createdAt > 48 * HOUR || NeedsHuman(f, r))
    ensures Lands(Climb(f, Start(r, now)), r, now, Fate(f, now - f.createdAt, r))
  {
    FirstPlan(f, r, now);
    LastLap(f, Rung(Diagnosed, r, 0, now, None, Table(f, r, Max(0, now - f.createdAt)).strategy, 2));
  }

  lemma PaidAtOnce(f: Footing, r: nat, now: int)
    requires Diagnosable(f) && now - f.createdAt <= 48 * HOUR && !NeedsHuman(f, r)
    requires f.paid || f.diagnosis == InstrumentInvalid
    ensures Lands(Climb(f, Start(r, now)), r, now, Fate(f, now - f.createdAt, r))
  {
    FirstPlan(f, r, now);
    var u := Rung(Diagnosed, r, 0, now, None, Table(f, r, Max(0, now - f.createdAt)).strategy, 2);
    ReachesGate(f, u);
    var v := Gated(f, u);
    if f.paid {
      assert Climb(f, v) == Rise(f, v);
    } else {
      ClimbsTwo(f, v);
    }
  }

  lemma RetriesRunOut(f: Footing, r: nat, now: int)
    requires Diagnosable(f) && now - f.createdAt <= 48 * HOUR && !NeedsHuman(f, r) && !f.paid && RetryClass(f)
    ensures Lands(Climb(f, Start(r, now)), r, now, Fate(f, now - f.createdAt, r))
  {
    hide Climb;
    FirstPlan(f, r, now);
    var u := Rung(Diagnosed, r, 0, now, None, Table(f, r, Max(0, now - f.createdAt)).strategy, 2);
    Lap(f, u);
    var v := BackAgain(Gated(f, u));
    if r == 0 && now - f.createdAt <= 46 * HOUR {
      Lap(f, v);
      LastLap(f, BackAgain(Gated(f, v)));
    } else {
      LastLap(f, v);
    }
  }

  lemma LinksRunOut(f: Footing, now: int)
    requires Diagnosable(f) && now - f.createdAt <= 48 * HOUR && !NeedsHuman(f, 0) && !f.paid && !RetryClass(f)
    requires f.diagnosis != InstrumentInvalid
    ensures Lands(Climb(f, Start(0, now)), 0, now, Fate(f, now - f.createdAt, 0))
  {
    hide Climb;
    FirstPlan(f, 0, now);
    var u := Rung(Diagnosed, 0, 0, now, None, Table(f, 0, Max(0, now - f.createdAt)).strategy, 2);
    Lap(f, u);
    var v := BackAgain(Gated(f, u));
    Lap(f, v);
    var w := BackAgain(Gated(f, v));
    Lap(f, w);
    LastLap(f, BackAgain(Gated(f, w)));
  }

  lemma LinksAfterAnAttempt(f: Footing, now: int)
    requires Diagnosable(f) && now - f.createdAt <= 48 * HOUR && !NeedsHuman(f, 1) && !f.paid && !RetryClass(f)
    requires f.diagnosis != InstrumentInvalid
    ensures Lands(Climb(f, Start(1, now)), 1, now, Fate(f, now - f.createdAt, 1))
  {
    hide Climb;
    FirstPlan(f, 1, now);
    var u := Rung(Diagnosed, 1, 0, now, None, Table(f, 1, Max(0, now - f.createdAt)).strategy, 2);
    Lap(f, u);
    var v := BackAgain(Gated(f, u));
    if now - f.createdAt > 46 * HOUR {
      LastLap(f, v);
    } else {
      Lap(f, v);
      var w := BackAgain(Gated(f, v));
      if now - f.createdAt <= 44 * HOUR {
        Lap(f, w);
        LastLap(f, BackAgain(Gated(f, w)));
      } else {
        LastLap(f, w);
      }
    }
  }

  /** The climb lands where the closed form says, in exactly as many steps. */
  lemma ClimbIsFate(f: Footing, r: nat, now: int)
    requires Diagnosable(f)
    ensures Lands(Climb(f, Start(r, now)), r, now, Fate(f, now - f.createdAt, r))
  {
    hide Climb, Fate;
    if now - f.createdAt > 48 * HOUR || NeedsHuman(f, r) {
      StaleOrHuman(f, r, now);
    } else if f.paid || f.diagnosis == InstrumentInvalid {
      PaidAtOnce(f, r, now);
    } else if RetryClass(f) {
      RetriesRunOut(f, r, now);
    } else if r == 0 {
      LinksRunOut(f, now);
    } else {
      LinksAfterAnAttempt(f, now);
    }
  }
}
