/** Driving a case in batch is one of its runs, with worker steps as the only events; so what every run
    keeps, the batch keeps (app/batch/run_eval.py:191-195). */
module BatchRuns {
  import opened Enums
  import opened Fsm
  import opened PolicyRules
  import opened Gateway
  import opened Rows
  import opened Verification
  import opened Executors
  import opened Pipeline
  import opened CaseRuns
  import opened Limits
  import opened GatewayRuns

  /** The worker steps `from`, ..., `from + n - 1` of a driven case. */
  function WorkerSteps(fastForward: bool, envs: nat -> Env, from: nat, n: nat): (es: seq<CaseEvent>)
    ensures |es| == n && forall i | 0 <= i < n :: es[i] == WorkerStep(fastForward, envs(from + i))
  {
    seq(n, i requires 0 <= i < n => WorkerStep(fastForward, envs(from + i)))
  }

  lemma {:induction false} RunFromFront(s: Sys, cfg: PolicyConfig, rng: Stream, e: CaseEvent, es: seq<CaseEvent>)
    ensures Run(s, cfg, rng, [e] + es) == Run(Apply(s, cfg, rng, e), cfg, rng, es)
  {
    hide Apply;
    if |es| == 0 {
      assert [e] + es == [e] && [e][..0] == [];
    } else {
      assert ([e] + es)[..|es|] == [e] + es[..|es| - 1];
      RunFromFront(s, cfg, rng, e, es[..|es| - 1]);
    }
  }

  lemma NoStepsNoRun(s: Sys, deps: Deps, envs: nat -> Env, steps: nat)
    ensures Run(s, deps.cfg, deps.rng, WorkerSteps(deps.fastForward, envs, steps, 0)) == s
  {
  }

  lemma StepThenRun(s: Sys, deps: Deps, envs: nat -> Env, steps: nat, n: nat)
    requires Step(s, deps, envs(steps)).Done?
    ensures Run(s, deps.cfg, deps.rng, WorkerSteps(deps.fastForward, envs, steps, n + 1))
            == Run(Step(s, deps, envs(steps)).s, deps.cfg, deps.rng, WorkerSteps(deps.fastForward, envs, steps + 1, n))
  {
    hide Step;
    var e := WorkerStep(deps.fastForward, envs(steps));
    assert deps == Deps(deps.cfg, deps.fastForward, deps.rng);
    assert Apply(s, deps.cfg, deps.rng, e) == Step(s, deps, envs(steps)).s;
    RunFromFront(s, deps.cfg, deps.rng, e, WorkerSteps(deps.fastForward, envs, steps + 1, n));
    assert WorkerSteps(deps.fastForward, envs, steps, n + 1) == [e] + WorkerSteps(deps.fastForward, envs, steps + 1, n);
  }

  /** Where the loop ends, the run of the steps it took ends. */
  lemma {:induction false} DriveIsARun(s: Sys, deps: Deps, envs: nat -> Env, steps: nat)
    requires steps <= MAX_STEPS
    ensures
      var end := Drive(s, deps, envs, steps);
      end.Ended? ==>
        steps <= end.steps
        && end.s == Run(s, deps.cfg, deps.rng, WorkerSteps(deps.fastForward, envs, steps, end.steps - steps))
    decreases MAX_STEPS - steps
  {
    hide Step;
    NoStepsNoRun(s, deps, envs, steps);
    if !IsTerminal(s.c.status) && steps < MAX_STEPS && Step(s, deps, envs(steps)).Done? {
      hide Run, WorkerSteps;
      var next := Step(s, deps, envs(steps)).s;
      NoStepsNoRun(next, deps, envs, steps + 1);
      if Step(s, deps, envs(steps)).moved {
        DriveIsARun(next, deps, envs, steps + 1);
        if Drive(next, deps, envs, steps + 1).Ended? {
          StepThenRun(s, deps, envs, steps, Drive(next, deps, envs, steps + 1).steps - steps - 1);
        }
      } else {
        StepThenRun(s, deps, envs, steps, 0);
      }
    }
  }

  /** What `advance_case` does to a case as events: the steps it took, then the close if one is due. */
  function AdvanceEvents(s: Sys, deps: Deps, envs: nat -> Env): seq<CaseEvent> {
    match Drive(s, deps, envs, 0)
    case Crashed => []
    case Ended(_, steps) => WorkerSteps(deps.fastForward, envs, 0, steps) + [GiveUp]
  }

  /** Where `advance_case` ends, the run of those events ends. */
  lemma AdvanceIsARun(s: Sys, deps: Deps, envs: nat -> Env)
    ensures Advance(s, deps, envs).Ended? ==>
      Advance(s, deps, envs).s == Run(s, deps.cfg, deps.rng, AdvanceEvents(s, deps, envs))
  {
    hide Drive, WorkerSteps, ClosedOff;
    DriveIsARun(s, deps, envs, 0);
    if Drive(s, deps, envs, 0).Ended? {
      var end := Drive(s, deps, envs, 0).s;
      var es := WorkerSteps(deps.fastForward, envs, 0, Drive(s, deps, envs, 0).steps);
      assert (es + [GiveUp])[..|es|] == es;
      ClosedStays(end);
      assert Run(s, deps.cfg, deps.rng, es + [GiveUp]) == Apply(end, deps.cfg, deps.rng, GiveUp);
      hide Run;
    }
  }

  lemma ClosedStays(s: Sys)
    ensures IsTerminal(s.c.status) && CanTransition(s.c.status, ClosedUnrecovered) ==> s.(c := ClosedOff(s.c)) == s
  {
  }

  lemma {:induction false} WorkersApproveNothing(s: Sys, cfg: PolicyConfig, rng: Stream, es: seq<CaseEvent>)
    requires forall e | e in es :: !e.HumanDecision?
    ensures Approvals(s, cfg, rng, es) == 0 && Skips(s, cfg, rng, es) == 0
  {
    hide Run;
    if |es| > 0 {
      assert es[|es| - 1] in es && forall e | e in es[..|es| - 1] :: e in es;
      WorkersApproveNothing(s, cfg, rng, es[..|es| - 1]);
    }
  }

  /** Whatever the model proposes, a fresh case driven by `advance_case` ends with retry_count equal to its
      earlier attempts plus its charges and within max(earlier attempts, max_retries), and with its contacts
      within the cap. */
  lemma {:induction false} DrivenCaseIsBounded(s: Sys, prior: nat, deps: Deps, envs: nat -> Env)
    requires FreshCase(s.c, prior) && Advance(s, deps, envs).Ended?
    ensures var c := Advance(s, deps, envs).s.c;
      && c.retryCount == prior + Charges(c)
      && c.retryCount <= Max(prior, deps.cfg.maxRetries)
      && Contacts(c) <= Max(0, deps.cfg.contactCap7d)
  {
    hide Drive, Advance, Run, FreshCase, Approvals, Skips;
    AdvanceIsARun(s, deps, envs);
    WorkersApproveNothing(s, deps.cfg, deps.rng, AdvanceEvents(s, deps, envs));
    AttemptsAreBounded(s, prior, deps.cfg, deps.rng, AdvanceEvents(s, deps, envs));
  }

  /** Without a real adapter, a fresh case an executor recovered has exactly one charge or link behind it. */
  lemma {:induction false} DrivenCaseRecoversAtOnce(s: Sys, prior: nat, deps: Deps, envs: nat -> Env)
    requires FreshCase(s.c, prior) && (forall n: nat :: envs(n).link == NoRealAdapter) && Advance(s, deps, envs).Ended?
    ensures var c := Advance(s, deps, envs).s.c;
      ExecutorCaptures(c.trail) > 0 ==>
        CountKind(c.actions, RetryCharge) + CountKind(c.actions, SendRecoveryLink) == 1
  {
    hide Drive, Advance, Run, FreshCase, CountKind, ExecutorCaptures;
    AdvanceIsARun(s, deps, envs);
    RecoveredAtFirstAttempt(s, prior, deps.cfg, deps.rng, AdvanceEvents(s, deps, envs));
  }
}
