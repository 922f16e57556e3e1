/** What becomes of a real payment link: in live mode its case is closed in the very drive that sends it
    (app/services/pipeline.py:387-388, 433-436), and a case closed that way takes no capture any more
    (app/domain/fsm.py:75-92). */
module LiveLinks {
  import opened Enums
  import opened Fsm
  import opened PolicyRules
  import opened PolicyEngine
  import opened Gateway
  import opened Trail
  import opened Rows
  import opened Verification
  import opened Executors
  import opened Pipeline
  import opened CaseRuns
  import opened Core
  import opened Termination
  import opened Transactions

  // ----- The drive that sends a link -----

  /** A case on its way in a live drive: no contact yet and no money, or one link out and nothing left to do. */
  ghost predicate OneLinkAtMost(k: Core, cfg: PolicyConfig) {
    && k.notices == 0 && cfg.contactCap7d > 1
    && (k.status == Approved ==> k.payStatus == PayFailed)
    && (k.links > 0 ==>
          && k.links == 1 && k.recoveredMinor == 0
          && (k.status in {ClosedUnrecovered, Failed} || (k.status == Verifying && k.payStatus == PayFailed)))
    && (k.status != Recovered ==> k.recoveredMinor == 0)
  }

  /** A live step behind a real adapter. */
  predicate LiveStep(i: Input) { !i.fastForward && i.link != NoRealAdapter }

  lemma ApprovedLinks(k: Core, cfg: PolicyConfig, i: Input)
    requires OneLinkAtMost(k, cfg) && LiveStep(i) && k.status == Approved
    ensures CoreApproved(k, i).CoreDone? ==> OneLinkAtMost(CoreApproved(k, i).k, cfg)
  {
    hide Charge, SendLink, Capture;
    var k1 := Jump(k, Executing, Executor);
    Shapes(k1, i.link, ExecutorRetry);
    Shapes(Charge(k1), i.link, ExecutorRetry);
  }

  lemma GateLinks(k: Core, cfg: PolicyConfig, i: Input)
    requires OneLinkAtMost(k, cfg) && LiveStep(i) && k.status == PolicyCheck && k.latest.Some?
    ensures OneLinkAtMost(CorePolicyCheck(k, k.latest.value, cfg, i).k, cfg)
  {
    hide Triggered, CoreCtx, Park;
    var rule := Triggered(CoreCtx(k, k.latest.value, cfg, i.usedElsewhere));
    GateTells(k, k.latest.value, cfg, i.usedElsewhere);
    ParkShape(Noted(k, PolicyEvaluated(VerdictOf(rule), rule)), cfg);
  }

  lemma VerifyingLinks(k: Core, cfg: PolicyConfig, i: Input)
    requires OneLinkAtMost(k, cfg) && LiveStep(i) && k.status == Verifying
    ensures OneLinkAtMost(CoreVerifying(k, cfg, i).k, cfg)
  {
  }

  lemma StepLinks(k: Core, cfg: PolicyConfig, i: Input)
    requires OneLinkAtMost(k, cfg) && LiveStep(i) && CoreStep(k, cfg, i).CoreDone?
    ensures OneLinkAtMost(CoreStep(k, cfg, i).k, cfg)
  {
    hide CorePolicyCheck, CoreApproved, CoreVerifying;
    if k.status == PolicyCheck {
      GateLinks(k, cfg, i);
    } else if k.status == Approved {
      ApprovedLinks(k, cfg, i);
    } else if k.status == Verifying {
      VerifyingLinks(k, cfg, i);
    }
  }

  lemma {:induction false} DriveLinks(s: Sys, deps: Deps, envs: nat -> Env, steps: nat)
    requires OneLinkAtMost(Abs(s), deps.cfg) && steps <= MAX_STEPS && !deps.fastForward
    requires forall n | 0 <= n < MAX_STEPS :: envs(n).link != NoRealAdapter
    ensures Drive(s, deps, envs, steps).Ended? ==> OneLinkAtMost(Abs(Drive(s, deps, envs, steps).s), deps.cfg)
    decreases MAX_STEPS - steps
  {
    hide Step, CoreStep, Abs, OneLinkAtMost;
    if !IsTerminal(s.c.status) && steps < MAX_STEPS && Step(s, deps, envs(steps)).Done? {
      StepRefines(s, deps, envs(steps));
      StepLinks(Abs(s), deps.cfg, Inputs(s, deps, envs(steps)));
      if Step(s, deps, envs(steps)).moved {
        DriveLinks(Step(s, deps, envs(steps)).s, deps, envs, steps + 1);
      }
    }
  }

  /** The case has a link and ended without money. */
  predicate Abandoned(c: CaseRow) {
    CountKind(c.actions, SendRecoveryLink) == 1 && c.status in {ClosedUnrecovered, Failed} && c.recoveredMinor == 0
  }

  /** A live drive of a fresh case behind a real adapter that sends a link closes the case without recovery, under any
      decision source, where the contact cap allows more than one contact. */
  lemma SentLinksAreAbandoned(s: Sys, prior: nat, deps: Deps, envs: nat -> Env)
    requires FreshCase(s.c, prior) && !deps.fastForward && deps.cfg.contactCap7d > 1
    requires forall n | 0 <= n < MAX_STEPS :: envs(n).link != NoRealAdapter
    ensures
      var end := Advance(s, deps, envs);
      end.Ended? && CountKind(end.s.c.actions, SendRecoveryLink) > 0 ==> Abandoned(end.s.c)
  {
    hide Drive, FreshCase, OneLinkAtMost, Abandoned;
    FreshLinks(s, prior, deps.cfg);
    DriveLinks(s, deps, envs, 0);
    if Drive(s, deps, envs, 0).Ended? {
      ClosingKeepsLinks(Drive(s, deps, envs, 0).s.c);
      if CountKind(Drive(s, deps, envs, 0).s.c.actions, SendRecoveryLink) > 0 {
        LeftWithLink(Drive(s, deps, envs, 0).s, deps.cfg);
      }
    }
  }

  lemma FreshLinks(s: Sys, prior: nat, cfg: PolicyConfig)
    requires FreshCase(s.c, prior) && cfg.contactCap7d > 1
    ensures OneLinkAtMost(Abs(s), cfg)
  {
  }

  lemma ClosingKeepsLinks(c: CaseRow)
    ensures ClosedOff(c).actions == c.actions
  {
  }

  /** The driver's final close. */
  lemma LeftWithLink(s: Sys, cfg: PolicyConfig)
    requires OneLinkAtMost(Abs(s), cfg) && CountKind(s.c.actions, SendRecoveryLink) > 0
    ensures IsTerminal(s.c.status) ==> Abandoned(s.c)
    ensures CanTransition(s.c.status, ClosedUnrecovered) ==> Abandoned(ClosedOff(s.c))
  {
    hide Numbered, ChargeTimes;
  }

  // ----- Afterwards -----

  /** The case ended without recovery, and holds that money and outcome. */
  predicate EndedAt(c: CaseRow, end: CaseRow) {
    && IsTerminal(end.status) && end.status != Recovered
    && c.status == end.status && c.recoveredMinor == end.recoveredMinor && c.outcome == end.outcome
  }

  /** What any transaction does to such a case: a capture is refused, and nothing brings money. */
  lemma EndedStaysEnded(s: Sys, cfg: PolicyConfig, rng: Stream, t: Transaction, end: CaseRow)
    requires EndedAt(s.c, end)
    ensures EndedAt(Commit(s, cfg, rng, t).c, end)
    ensures t.CaptureArrives? ==> Commit(s, cfg, rng, t) == s
  {
    hide Step;
  }

  /** In every state committed from then on, whatever arrives, the case stays where it ended, and every capture of the
      payment changes nothing at all. */
  lemma {:induction false} LateCapturesAreLost(s: Sys, cfg: PolicyConfig, rng: Stream, more: seq<Transaction>,
                                               entity: PaymentRow)
    requires IsTerminal(s.c.status) && s.c.status != Recovered
    ensures
      var now := Committed(s, cfg, rng, more);
      && EndedAt(now.c, s.c)
      && Commit(now, cfg, rng, CaptureArrives(entity)) == now
  {
    hide Commit;
    if |more| > 0 {
      LateCapturesAreLost(s, cfg, rng, more[..|more| - 1], entity);
      EndedStaysEnded(Committed(s, cfg, rng, more[..|more| - 1]), cfg, rng, more[|more| - 1], s.c);
    }
    EndedStaysEnded(Committed(s, cfg, rng, more), cfg, rng, CaptureArrives(entity), s.c);
    hide EndedAt;
  }

  /** So the customer of a fresh case who pays the link that a live drive sent is never credited: whatever is committed
      after that drive, the case holds no money, and the capture of the link changes nothing. */
  lemma PaidLinksAreLost(s: Sys, prior: nat, cfg: PolicyConfig, rng: Stream, envs: seq<Env>, more: seq<Transaction>,
                         entity: PaymentRow)
    requires FreshCase(s.c, prior) && cfg.contactCap7d > 1
    requires forall n | 0 <= n < MAX_STEPS :: Answers(envs)(n).link != NoRealAdapter
    ensures
      var sent := Commit(s, cfg, rng, DriveCase(false, envs, true));
      var now := Committed(sent, cfg, rng, more);
      CountKind(sent.c.actions, SendRecoveryLink) > 0 ==>
        && now.c.status in {ClosedUnrecovered, Failed} && now.c.recoveredMinor == 0
        && Commit(now, cfg, rng, CaptureArrives(entity)) == now
  {
    hide Advance, Committed, CountKind, FreshCase;
    SentLinksAreAbandoned(s, prior, Deps(cfg, false, rng), Answers(envs));
    FreshHasNoLink(s.c, prior);
    var sent := Commit(s, cfg, rng, DriveCase(false, envs, true));
    if CountKind(sent.c.actions, SendRecoveryLink) > 0 {
      assert Abandoned(sent.c);
      LateCapturesAreLost(sent, cfg, rng, more, entity);
    }
    hide Commit;
  }

  lemma FreshHasNoLink(c: CaseRow, prior: nat)
    requires FreshCase(c, prior)
    ensures CountKind(c.actions, SendRecoveryLink) == 0
  {
  }
}
