/** The ordered rule evaluator (app/policy/engine.py). */
module PolicyEngine {
  import opened Enums
  import opened PolicyRules

  datatype Hit = Hit(rule: RuleId, passed: bool, evaluated: bool)

  /** The first rule, in catalog order, that the context fails. */
  function Triggered(ctx: PolicyContext): Option<RuleId> {
    if !Passes(P01, ctx) then Some(P01)
    else if !Passes(P02, ctx) then Some(P02)
    else if !Passes(P03, ctx) then Some(P03)
    else if !Passes(P04, ctx) then Some(P04)
    else if !Passes(P05, ctx) then Some(P05)
    else if !Passes(P06, ctx) then Some(P06)
    else if !Passes(P07, ctx) then Some(P07)
    else if !Passes(P08, ctx) then Some(P08)
    else if !Passes(P09, ctx) then Some(P09)
    else if !Passes(P10, ctx) then Some(P10)
    else if !Passes(P11, ctx) then Some(P11)
    else if !Passes(P12, ctx) then Some(P12)
    else if !Passes(P13, ctx) then Some(P13)
    else None
  }

  function VerdictOf(failed: Option<RuleId>): Verdict {
    match failed
    case None => Allow
    case Some(P05) | Some(P06) => Escalate
    case Some(P04) | Some(P09) => Wait
    case Some(_) => Block
  }

  /** The first failing rule of a catalog, walking it from position `k`. */
  function FirstFailing(order: seq<RuleId>, ctx: PolicyContext, k: nat): Option<RuleId>
    requires k <= |order|
    decreases |order| - k
  {
    if k == |order| then None
    else if !Passes(order[k], ctx) then Some(order[k])
    else FirstFailing(order, ctx, k + 1)
  }

  /** Evaluates the catalog in order and stops judging at the first failure. The trace has one entry
      per rule: those up to the failure carry their own result, those after it are marked skipped. */
  method Evaluate(order: seq<RuleId>, ctx: PolicyContext)
    returns (verdict: Verdict, hits: seq<Hit>, failed: Option<RuleId>)
    ensures failed == FirstFailing(order, ctx, 0) && verdict == VerdictOf(failed)
    ensures verdict == Allow <==> forall r | r in order :: Passes(r, ctx)
    ensures |hits| == |order|
    ensures forall i | 0 <= i < |hits| :: hits[i].rule == order[i]
    ensures forall i | 0 <= i < |hits| ::
      hits[i].evaluated <==> forall j | 0 <= j < i :: Passes(order[j], ctx)
    ensures forall i | 0 <= i < |hits| ::
      hits[i].passed <==> (!hits[i].evaluated || Passes(order[i], ctx))
  {
    hits := [];
    failed := None;
    for k := 0 to |order|
      invariant |hits| == k
      invariant FirstFailing(order, ctx, 0) == if failed.Some? then failed else FirstFailing(order, ctx, k)
      invariant failed.None? <==> forall j | 0 <= j < k :: Passes(order[j], ctx)
      invariant forall i | 0 <= i < k :: hits[i].rule == order[i]
      invariant forall i | 0 <= i < k :: hits[i].evaluated <==> forall j | 0 <= j < i :: Passes(order[j], ctx)
      invariant forall i | 0 <= i < k :: hits[i].passed <==> (!hits[i].evaluated || Passes(order[i], ctx))
    {
      var rule := order[k];
      if failed.Some? {
        hits := hits + [Hit(rule, true, false)];
      } else {
        var ok := Passes(rule, ctx);
        hits := hits + [Hit(rule, ok, true)];
        if !ok {
          failed := Some(rule);
        }
      }
    }
    verdict := VerdictOf(failed);
  }

  lemma CatalogTail(ctx: PolicyContext)
    ensures FirstFailing(RULE_ORDER, ctx, 6) ==
      if !Passes(P07, ctx) then Some(P07)
      else if !Passes(P08, ctx) then Some(P08)
      else if !Passes(P09, ctx) then Some(P09)
      else if !Passes(P10, ctx) then Some(P10)
      else if !Passes(P11, ctx) then Some(P11)
      else if !Passes(P12, ctx) then Some(P12)
      else if !Passes(P13, ctx) then Some(P13)
      else None
  {
    assert FirstFailing(RULE_ORDER, ctx, 12) == if !Passes(P13, ctx) then Some(P13) else None;
    assert FirstFailing(RULE_ORDER, ctx, 11) ==
      if !Passes(P12, ctx) then Some(P12) else FirstFailing(RULE_ORDER, ctx, 12);
    assert FirstFailing(RULE_ORDER, ctx, 10) ==
      if !Passes(P11, ctx) then Some(P11) else FirstFailing(RULE_ORDER, ctx, 11);
    assert FirstFailing(RULE_ORDER, ctx, 9) ==
      if !Passes(P10, ctx) then Some(P10) else FirstFailing(RULE_ORDER, ctx, 10);
    assert FirstFailing(RULE_ORDER, ctx, 8) ==
      if !Passes(P09, ctx) then Some(P09) else FirstFailing(RULE_ORDER, ctx, 9);
    assert FirstFailing(RULE_ORDER, ctx, 7) ==
      if !Passes(P08, ctx) then Some(P08) else FirstFailing(RULE_ORDER, ctx, 8);
  }

  /** Walking P01..P14 in catalog order finds the rule `Triggered` names. */
  lemma CatalogOrder(ctx: PolicyContext)
    ensures FirstFailing(RULE_ORDER, ctx, 0) == Triggered(ctx)
  {
    CatalogTail(ctx);
    assert FirstFailing(RULE_ORDER, ctx, 4) ==
      if !Passes(P05, ctx) then Some(P05) else FirstFailing(RULE_ORDER, ctx, 5);
    assert FirstFailing(RULE_ORDER, ctx, 2) ==
      if !Passes(P03, ctx) then Some(P03) else FirstFailing(RULE_ORDER, ctx, 3);
  }
}
