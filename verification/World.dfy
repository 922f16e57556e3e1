/** Many cases at once: webhooks, worker steps on any case, human decisions and time, in any interleaving
    over one store and one gateway. Each transaction is atomic. The case of any payment sees a run of its
    own events only, so what holds of every case run holds of every case of every world. */
module World {
  import opened Enums
  import opened Fsm
  import opened PolicyRules
  import opened PolicyEngine
  import opened Gateway
  import opened Trail
  import opened Rows
  import opened CaseService
  import opened Executors
  import opened Pipeline
  import opened HumanDecisions
  import opened CaseRuns
  import opened Core
  import opened Gatekeeping
  import opened ActionRows
  import opened Ingest

  /** `clocks` is the pipeline clock each case is driven with. */
  datatype World = World(store: Store, clocks: map<string, int>, g: GatewayState)

  datatype WorldEvent =
    | Deliver(d: Delivery, at: int)
    | Work(payment: string, fastForward: bool, env: Env)
    | Decide(payment: string, escalation: nat, approve: bool)
    | Tick(payment: string, minutes: nat)
    | Abandon(payment: string)

  const NEW_WORLD := World(EMPTY, map[], FRESH)

  predicate WellFormed(w: World) {
    forall p | p in w.store.cases ::
      p in w.store.payments && p in w.clocks && w.store.cases[p].row.paymentId == p
  }

  /** What the pipeline loads to work on a payment's case. */
  function Loaded(w: World, p: string): Sys
    requires p in w.store.cases && p in w.store.payments && p in w.clocks
  {
    Sys(w.store.cases[p].row, w.store.payments[p], w.clocks[p], w.g)
  }

  /** What it commits. */
  function Saved(w: World, p: string, s: Sys): World
    requires p in w.store.cases
  {
    World(w.store.(cases := w.store.cases[p := w.store.cases[p].(row := s.c)],
                   payments := w.store.payments[p := s.p]),
          w.clocks[p := s.now], s.g)
  }

  /** The event as the given case sees it; None when it is not about this case at all. */
  function Seen(w: World, cfg: PolicyConfig, rng: Stream, e: WorldEvent, p: string): Option<CaseEvent>
    requires WellFormed(w)
  {
    match e
    case Deliver(d, _) =>
      if d.eventId in w.store.seen || !Genuine(d) || d.entity.None? || d.entity.value.paymentId != p
         || Clash(w.store, d.entity.value) then None
      else if d.kind == PaymentCaptured then Some(CaptureWebhook(d.entity.value.row))
      else Some(FailedWebhook(d.entity.value.row))
    case Work(q, fastForward, env) =>
      if q == p then Some(WorkerStep(fastForward, env))
      else if q in w.store.cases && Apply(Loaded(w, q), cfg, rng, WorkerStep(fastForward, env)).g != w.g then
        Some(GatewayAsked(q, CaptureProbability(w.store.cases[q].row)))
      else None
    case Decide(q, escalation, approve) => if q == p then Some(HumanDecision(escalation, approve)) else None
    case Tick(q, minutes) => if q == p then Some(TimePasses(minutes)) else None
    case Abandon(q) => if q == p then Some(GiveUp) else None
  }

  function Turn(w: World, cfg: PolicyConfig, rng: Stream, e: WorldEvent): World
    requires WellFormed(w)
  {
    match e
    case Deliver(d, at) =>
      var store := After(w.store, d);
      World(store,
            if store.cases.Keys == w.store.cases.Keys then w.clocks else w.clocks[d.entity.value.paymentId := at],
            w.g)
    case Work(q, fastForward, env) =>
      if q !in w.store.cases then w
      else Saved(w, q, Apply(Loaded(w, q), cfg, rng, WorkerStep(fastForward, env)))
    case Decide(q, escalation, approve) =>
      if q !in w.store.cases then w
      else Saved(w, q, Apply(Loaded(w, q), cfg, rng, HumanDecision(escalation, approve)))
    case Tick(q, minutes) =>
      if q !in w.store.cases then w
      else Saved(w, q, Apply(Loaded(w, q), cfg, rng, TimePasses(minutes)))
    case Abandon(q) =>
      if q !in w.store.cases then w
      else Saved(w, q, Apply(Loaded(w, q), cfg, rng, GiveUp))
  }

  function WorldRun(cfg: PolicyConfig, rng: Stream, es: seq<WorldEvent>): (w: World)
    ensures WellFormed(w)
  {
    if |es| == 0 then NEW_WORLD
    else
      var before := WorldRun(cfg, rng, es[..|es| - 1]);
      TurnIsWellFormed(before, cfg, rng, es[|es| - 1]);
      Turn(before, cfg, rng, es[|es| - 1])
  }

  // ----- One event -----

  lemma StepGateway(s: Sys, deps: Deps, env: Env)
    requires Step(s, deps, env).Done?
    ensures
      var g := Step(s, deps, env).s.g;
      g == s.g || g == Rolled(deps.rng, s.g, s.c.paymentId, CaptureProbability(s.c))
  {
    hide Numbered, ChargeTimes, CountKind, Triggered, PolicyCtx, ChargeOutcome, LinkOutcome, Rolled, Latent;
  }

  /** A case's own event keeps its payment; the gateway can only have rolled that payment. */
  lemma ApplyTouches(s: Sys, cfg: PolicyConfig, rng: Stream, e: CaseEvent)
    requires e.WorkerStep? || e.HumanDecision? || e.TimePasses? || e.GiveUp?
    ensures
      var s' := Apply(s, cfg, rng, e);
      && s'.c.paymentId == s.c.paymentId
      && (s'.g == s.g || s'.g == Rolled(rng, s.g, s.c.paymentId, CaptureProbability(s.c)))
  {
    hide Step, Abs, Rolled, CoreStep;
    if e.WorkerStep? {
      var deps := Deps(cfg, e.fastForward, rng);
      if Step(s, deps, e.env).Done? {
        StepGateway(s, deps, e.env);
        StepRefines(s, deps, e.env);
        FactsKept(Abs(s), cfg, Inputs(s, deps, e.env));
        PaymentInFacts(s);
        PaymentInFacts(Step(s, deps, e.env).s);
      }
    }
  }

  lemma PaymentInFacts(s: Sys)
    ensures Abs(s).facts.paymentId == s.c.paymentId
  {
  }

  lemma KeepsPayment()
    ensures forall c: CaseRow, amount: int :: SelfHealed(c, amount).paymentId == c.paymentId
    ensures forall p: string, token: bool, chance: Option<real> :: NewCaseRow(p, token, chance).paymentId == p
  {
  }

  lemma DeliveryKeepsForm(w: World, cfg: PolicyConfig, rng: Stream, d: Delivery, at: int)
    requires WellFormed(w)
    ensures WellFormed(Turn(w, cfg, rng, Deliver(d, at)))
  {
    hide SelfHealed, NewCaseRow, CanTransition, Apply;
    KeepsPayment();
    var w' := Turn(w, cfg, rng, Deliver(d, at));
    if d.entity.Some? {
      var p := d.entity.value.paymentId;
      assert w'.store.cases.Keys <= w.store.cases.Keys + {p};
      assert p in w'.store.cases && p !in w.store.cases ==> w'.store.cases.Keys != w.store.cases.Keys;
    }
  }

  lemma TurnIsWellFormed(w: World, cfg: PolicyConfig, rng: Stream, e: WorldEvent)
    requires WellFormed(w)
    ensures WellFormed(Turn(w, cfg, rng, e))
  {
    hide Apply, After;
    match e
    case Deliver(d, at) => DeliveryKeepsForm(w, cfg, rng, d, at);
    case Work(q, fastForward, env) =>
      if q in w.store.cases {
        ApplyTouches(Loaded(w, q), cfg, rng, WorkerStep(fastForward, env));
      }
    case Decide(q, escalation, approve) =>
      if q in w.store.cases {
        ApplyTouches(Loaded(w, q), cfg, rng, HumanDecision(escalation, approve));
      }
    case Tick(q, minutes) =>
      if q in w.store.cases {
        ApplyTouches(Loaded(w, q), cfg, rng, TimePasses(minutes));
      }
    case Abandon(q) =>
      if q in w.store.cases {
        ApplyTouches(Loaded(w, q), cfg, rng, GiveUp);
      }
  }

  function Next(s: Sys, cfg: PolicyConfig, rng: Stream, e: Option<CaseEvent>): Sys {
    if e.Some? then Apply(s, cfg, rng, e.value) else s
  }

  lemma DeliveryFollows(w: World, cfg: PolicyConfig, rng: Stream, d: Delivery, at: int, p: string)
    requires WellFormed(w) && p in w.store.cases
    ensures
      var w' := Turn(w, cfg, rng, Deliver(d, at));
      && p in w'.store.cases && p in w'.store.payments && p in w'.clocks
      && Loaded(w', p) == Next(Loaded(w, p), cfg, rng, Seen(w, cfg, rng, Deliver(d, at), p))
  {
    hide Clash, WithCustomer, TokenOf, SelfHealed, NewCaseRow, CanTransition, Step, HumanDecided, Rolled;
  }

  lemma SavedLoads(w: World, q: string, s: Sys, p: string)
    requires WellFormed(w) && p in w.store.cases && q in w.store.cases
    ensures
      var w' := Saved(w, q, s);
      && p in w'.store.cases && p in w'.store.payments && p in w'.clocks
      && Loaded(w', p) == if p == q then s else Loaded(w, p).(g := s.g)
  {
  }

  lemma WorkFollows(w: World, cfg: PolicyConfig, rng: Stream, q: string, fastForward: bool, env: Env, p: string)
    requires WellFormed(w) && p in w.store.cases
    ensures
      var w' := Turn(w, cfg, rng, Work(q, fastForward, env));
      && p in w'.store.cases && p in w'.store.payments && p in w'.clocks
      && Loaded(w', p) == Next(Loaded(w, p), cfg, rng, Seen(w, cfg, rng, Work(q, fastForward, env), p))
  {
    hide Step, Loaded, Saved, Rolled;
    if q in w.store.cases {
      LoadedParts(w, q);
      LoadedParts(w, p);
      var s := Apply(Loaded(w, q), cfg, rng, WorkerStep(fastForward, env));
      SavedLoads(w, q, s, p);
      ApplyTouches(Loaded(w, q), cfg, rng, WorkerStep(fastForward, env));
    }
  }

  lemma LoadedParts(w: World, p: string)
    requires WellFormed(w) && p in w.store.cases
    ensures p in w.store.payments && p in w.clocks
    ensures Loaded(w, p).g == w.g && Loaded(w, p).c == w.store.cases[p].row && w.store.cases[p].row.paymentId == p
  {
  }

  /** One event of the world moves a case exactly as the event the case sees. */
  lemma {:induction false} TurnFollows(w: World, cfg: PolicyConfig, rng: Stream, e: WorldEvent, p: string)
    requires WellFormed(w) && p in w.store.cases
    ensures
      var w' := Turn(w, cfg, rng, e);
      && p in w'.store.cases && p in w'.store.payments && p in w'.clocks
      && Loaded(w', p) == Next(Loaded(w, p), cfg, rng, Seen(w, cfg, rng, e, p))
  {
    hide Step, Moved, After, Loaded;
    LoadedParts(w, p);
    match e
    case Deliver(d, at) => DeliveryFollows(w, cfg, rng, d, at, p);
    case Work(q, fastForward, env) => WorkFollows(w, cfg, rng, q, fastForward, env, p);
    case Decide(q, escalation, approve) =>
      if q in w.store.cases {
        LoadedParts(w, q);
        SavedLoads(w, q, Apply(Loaded(w, q), cfg, rng, HumanDecision(escalation, approve)), p);
      }
    case Tick(q, minutes) =>
      if q in w.store.cases {
        LoadedParts(w, q);
        SavedLoads(w, q, Apply(Loaded(w, q), cfg, rng, TimePasses(minutes)), p);
      }
    case Abandon(q) =>
      if q in w.store.cases {
        LoadedParts(w, q);
        SavedLoads(w, q, Apply(Loaded(w, q), cfg, rng, GiveUp), p);
      }
  }

  // ----- Whole worlds -----

  /** The state is the end of some run of a fresh case. */
  ghost predicate EndsARun(s: Sys, cfg: PolicyConfig, rng: Stream) {
    exists start: Sys, prior: nat, es: seq<CaseEvent> :: FreshCase(start.c, prior) && s == Run(start, cfg, rng, es)
  }

  lemma RunGoesOn(s: Sys, cfg: PolicyConfig, rng: Stream, e: Option<CaseEvent>)
    requires EndsARun(s, cfg, rng)
    ensures EndsARun(Next(s, cfg, rng, e), cfg, rng)
  {
    hide FreshCase, Apply;
    if e.Some? {
      var start: Sys, prior: nat, es: seq<CaseEvent> :| FreshCase(start.c, prior) && s == Run(start, cfg, rng, es);
      assert (es + [e.value])[..|es|] == es;
      assert Next(s, cfg, rng, e) == Run(start, cfg, rng, es + [e.value]);
    }
  }

  lemma NewCaseIsFresh(w: World, cfg: PolicyConfig, rng: Stream, e: WorldEvent, p: string)
    requires WellFormed(w) && p !in w.store.cases && p in Turn(w, cfg, rng, e).store.cases
    ensures
      var w' := Turn(w, cfg, rng, e);
      p in w'.store.payments && p in w'.clocks && EndsARun(Loaded(w', p), cfg, rng)
  {
    hide Apply;
    assert e.Deliver?;
    TurnIsWellFormed(w, cfg, rng, e);
    var s := Loaded(Turn(w, cfg, rng, e), p);
    assert FreshCase(s.c, s.c.retryCount);
    assert s == Run(s, cfg, rng, []);
  }

  /** In every world, each case ends a run of its own. */
  lemma {:induction false} CasesEndRuns(cfg: PolicyConfig, rng: Stream, es: seq<WorldEvent>, p: string)
    requires p in WorldRun(cfg, rng, es).store.cases
    ensures EndsARun(Loaded(WorldRun(cfg, rng, es), p), cfg, rng)
  {
    hide Turn, EndsARun, Seen, Next;
    if |es| > 0 {
      var w, e := WorldRun(cfg, rng, es[..|es| - 1]), es[|es| - 1];
      if p in w.store.cases {
        CasesEndRuns(cfg, rng, es[..|es| - 1], p);
        TurnFollows(w, cfg, rng, e, p);
        RunGoesOn(Loaded(w, p), cfg, rng, Seen(w, cfg, rng, e, p));
      } else {
        NewCaseIsFresh(w, cfg, rng, e, p);
      }
    }
  }

  /** In every world reached by any interleaving of webhooks, worker steps, human decisions and time, for
      every case: each action was approved, the trail replays to the status, and the trail holds one capture
      with the recovered amount exactly when the case is RECOVERED. */
  lemma {:induction false} EveryCaseIsSound(cfg: PolicyConfig, rng: Stream, es: seq<WorldEvent>, p: string)
    requires p in WorldRun(cfg, rng, es).store.cases
    ensures var c := WorldRun(cfg, rng, es).store.cases[p].row;
      && EveryActionBacked(c.trail) && Started(c.trail) == Deeds(c.actions)
      && Replay(c.trail) == Some(c.status)
      && Captures(c.trail) == (if c.status == Recovered then [c.recoveredMinor] else [])
  {
    hide Turn, FreshCase, Apply;
    CasesEndRuns(cfg, rng, es, p);
    var s := Loaded(WorldRun(cfg, rng, es), p);
    var start: Sys, prior: nat, ces: seq<CaseEvent> :| FreshCase(start.c, prior) && s == Run(start, cfg, rng, ces);
    hide Run, WorldRun;
    EveryActionApproved(start, prior, cfg, rng, ces);
    FreshRecords(start.c, prior);
    RunRecords(start, cfg, rng, ces);
    TrailReplaysStatus(start, prior, cfg, rng, ces);
    MoneyIsHonest(start, prior, cfg, rng, ces);
    assert s.c.trail[..|s.c.trail|] == s.c.trail;
  }
}
