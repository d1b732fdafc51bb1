/**
 An accepted agreement that creates value. Its two legs carry guards of different structure with one
 guard key, so the verifier and plan assembly take them for one guard; the single-shot path reads each
 guard for itself and may fire one leg without the other.
 */
module AliasedGuards {
  import opened Wrappers
  import opened Decimal
  import opened ValueModel
  import opened Expr
  import opened Kernel
  import opened Bags
  import opened SetSums
  import opened GuardedBalance
  import opened Plan
  import PlanAssembly
  import opened Evaluator
  import opened Payload
  import opened Postings
  import opened Conservation
  import opened Bookkeeping
  import opened TwoLegs
  import opened Provenance

  // ---------------------------------------------------------------- the agreement

  /** Two guards whose structures differ behind one key. */
  ghost predicate Aliases(g: ExprNode, h: ExprNode) {
    GuardKey(g) == GuardKey(h) && !SameShape(g, h) && g.Cmp? && h.Cmp?
  }

  function Pays(g: ExprNode): Entry {
    Entry("d", "l", 3, 0, 1, 2, Some(g))
  }

  function Gets(h: ExprNode): Entry {
    Entry("e", "l", 4, 0, 1, 2, Some(h))
  }

  function Operands(): seq<Op> {
    [Const("5"), Const("EUR"), Op.Input("k", "string"), Op.Input("payer", "party"), Op.Input("payee", "party"),
     Op.Input("x", "decimal"), Op.Input("x #2", "decimal")]
  }

  /** Take 5 EUR from `payer` under one guard, give 5 EUR to `payee` under the other. */
  function Body(g: ExprNode, h: ExprNode): seq<Op> {
    Operands() + [Debit(Pays(g)), Credit(Gets(h)), AssertBalanced]
  }

  function Out(g: ExprNode): PlanEffect {
    PlanEffect("d", "debit", "l", "ref:payer", "literal:5", "literal:EUR", "", GuardKey(g), Some(g))
  }

  function In(h: ExprNode): PlanEffect {
    PlanEffect("e", "credit", "l", "ref:payee", "literal:5", "literal:EUR", "", GuardKey(h), Some(h))
  }

  function Inputs(): seq<PlanInput> {
    [PlanInput("k", "string"), PlanInput("payer", "party"), PlanInput("payee", "party"), PlanInput("x", "decimal"),
     PlanInput("x #2", "decimal")]
  }

  function PlanFor(g: ExprNode, h: ExprNode): CoordinationPlan {
    CoordinationPlan("pay", "k", Inputs(), [], [Out(g), In(h)], [EffectGroup(GuardKey(g), "", [0, 1], 0, true, 1, 1)],
                     [], true, "DONE", [])
  }

  lemma GuardsAlias()
    ensures Aliases(FINE, COARSE)
  {
    KeysCollide();
    hide GuardKey, SameShape;
  }

  lemma OperandsHaveNoLegs()
    ensures forall i :: 0 <= i < |Operands()| ==> !Operands()[i].Debit? && !Operands()[i].Credit?
  {
  }

  lemma BodyLegs(g: ExprNode, h: ExprNode)
    ensures DebitsOf(Body(g, h)) == [Pays(g)] && CreditsOf(Body(g, h)) == [Gets(h)]
    ensures PlanAssembly.NormalizeBody(Body(g, h), Body(g, h))
         == [PlanAssembly.NormalizeEntry(Body(g, h), "debit", Pays(g)),
             PlanAssembly.NormalizeEntry(Body(g, h), "credit", Gets(h))]
  {
    OperandsHaveNoLegs();
    assert Body(g, h) == Operands() + [Debit(Pays(g)), Credit(Gets(h)), AssertBalanced];
    hide *;
    LegsOfTwo(Body(g, h), Operands(), Pays(g), Gets(h));
  }

  lemma SameGuardedKey(ops: seq<Op>, g: ExprNode, h: ExprNode)
    requires GuardKey(g) == GuardKey(h)
    ensures GuardedKey(ops)(Pays(g)) == GuardedKey(ops)(Gets(h))
  {
    hide OperandKey, GuardKey;
  }

  lemma BodyBalances(g: ExprNode, h: ExprNode)
    requires GuardKey(g) == GuardKey(h)
    ensures GuardBalanced(Body(g, h))
  {
    hide *;
    BodyLegs(g, h);
    SameGuardedKey(Body(g, h), g, h);
    OneEachBalances(Body(g, h), Pays(g), Gets(h));
  }

  lemma SpecKeys(ops: seq<Op>)
    ensures OpOf(ops, 0) == Const("5") ==> PlanAssembly.SpecKey(ops, 0) == "literal:5"
    ensures OpOf(ops, 1) == Const("EUR") ==> PlanAssembly.SpecKey(ops, 1) == "literal:EUR"
    ensures OpOf(ops, 3) == Op.Input("payer", "party") ==> PlanAssembly.SpecKey(ops, 3) == "ref:payer"
    ensures OpOf(ops, 4) == Op.Input("payee", "party") ==> PlanAssembly.SpecKey(ops, 4) == "ref:payee"
  {
    assert "literal:" + "5" == "literal:5" && "literal:" + "EUR" == "literal:EUR";
    assert "ref:" + "payer" == "ref:payer" && "ref:" + "payee" == "ref:payee";
  }

  function From(g: ExprNode): EffectInput {
    EffectInput("d", "debit", "l", "ref:payer", "literal:5", "literal:EUR", "", Some(g))
  }

  function To(h: ExprNode): EffectInput {
    EffectInput("e", "credit", "l", "ref:payee", "literal:5", "literal:EUR", "", Some(h))
  }

  lemma EntriesNormalize(g: ExprNode, h: ExprNode)
    requires g.Cmp? && h.Cmp?
    ensures PlanAssembly.NormalizeEntry(Body(g, h), "debit", Pays(g)) == From(g)
    ensures PlanAssembly.NormalizeEntry(Body(g, h), "credit", Gets(h)) == To(h)
  {
    SpecKeys(Body(g, h));
    hide PlanAssembly.SpecKey;
  }

  lemma BoundAs(g: ExprNode, h: ExprNode)
    ensures BindEffect(From(g), []) == Ok(Out(g)) && BindEffect(To(h), []) == Ok(In(h))
    ensures FlowOf(Out(g)) == FlowOf(In(h))
  {
    hide GuardKey;
  }

  /** The two legs end up in one group, which passes the balance check. */
  lemma BodyAssembles(g: ExprNode, h: ExprNode)
    requires Aliases(g, h)
    ensures PlanAssembly.Assemble(PlanAssembly.NormalizeBody(Body(g, h), Body(g, h)), [], true)
         == Ok(PlanAssembly.Assembled(PlanFor(g, h).effects, PlanFor(g, h).effectGroups))
  {
    hide GuardKey, SameShape, Body, PlanAssembly.Assemble, PlanAssembly.NormalizeBody, PlanAssembly.NormalizeEntry,
         BindEffect, FlowOf, DebitsOf, CreditsOf;
    BodyLegs(g, h);
    EntriesNormalize(g, h);
    BoundAs(g, h);
    AssemblesTwo(From(g), To(h), Out(g), In(h));
  }

  // ---------------------------------------------------------------- where the body conserves

  lemma OneFires(ops: seq<Op>, e: Entry, env: Env)
    ensures FiringKeys(ops, [e], env) == if Fires(e, env) then [FlowKey(ops)(e)] else []
  {
    hide Fires, FlowKey;
    assert [e][1..] == [] && Filter(FiresUnder(env), []) == [];
    assert Filter(FiresUnder(env), [e]) == if Fires(e, env) then [e] else [];
    MapOne(FlowKey(ops), e);
  }

  lemma SameFlow(ops: seq<Op>, g: ExprNode, h: ExprNode)
    ensures FlowKey(ops)(Pays(g)) == FlowKey(ops)(Gets(h))
  {
    hide OperandKey;
  }

  /** Such a body balances in an environment exactly if both guards hold or neither does. */
  lemma BalancesTogether(g: ExprNode, h: ExprNode, env: Env)
    ensures BalancedIn(Body(g, h), env) <==> (EvalGuard(g, env) == Ok(true) <==> EvalGuard(h, env) == Ok(true))
  {
    var flow := FlowKey(Body(g, h))(Pays(g));
    assert Fires(Pays(g), env) <==> EvalGuard(g, env) == Ok(true) by {
      hide EvalGuard;
    }
    assert Fires(Gets(h), env) <==> EvalGuard(h, env) == Ok(true) by {
      hide EvalGuard;
    }
    hide EvalGuard, Fires, FiringKeys, FlowKey, Body, Pays, Gets, DebitsOf, CreditsOf;
    BodyLegs(g, h);
    SameFlow(Body(g, h), g, h);
    OneFires(Body(g, h), Pays(g), env);
    OneFires(Body(g, h), Gets(h), env);
    assert flow in multiset([flow]) && flow !in multiset([]);
  }

  lemma TwoStructures(g: ExprNode, h: ExprNode)
    requires Aliases(g, h)
    ensures !OneStructurePerKey(DebitsOf(Body(g, h)) + CreditsOf(Body(g, h)))
  {
    var legs := DebitsOf(Body(g, h)) + CreditsOf(Body(g, h));
    hide GuardKey, SameShape, Body, DebitsOf, CreditsOf;
    BodyLegs(g, h);
    assert legs[0] == Pays(g) && legs[1] == Gets(h);
    assert Pays(g) in legs && Gets(h) in legs && GuardOf(Pays(g)) == GuardOf(Gets(h));
  }

  function Never(n: ExprNode): ExprNode {
    Cmp(">", n, n, Extension)
  }

  lemma NeverHolds(n: ExprNode, env: Env)
    ensures EvalGuard(Never(n), env) != Ok(true)
  {
    hide EvalExpr;
  }

  lemma NeverCollides(a: ExprNode, b: ExprNode)
    requires GuardKey(a) == GuardKey(b) && !SameShape(a, b)
    ensures Aliases(Never(a), Never(b))
  {
  }

  /**
   One structure for each key is more than conservation needs: of two structures with one meaning the
   legs fire together too, here because neither guard ever holds.
   */
  lemma TwoStructuresConserve(env: Env)
    ensures var body := Body(Never(Rounded("x", Decimal)), Never(Whole(ALIAS, Decimal)));
      GuardBalanced(body) && !OneStructurePerKey(DebitsOf(body) + CreditsOf(body)) && BalancedIn(body, env)
  {
    var a, b := Rounded("x", Decimal), Whole(ALIAS, Decimal);
    GuardKeyCollides(Decimal);
    assert GuardKey(a) == GuardKey(b) && !SameShape(a, b);
    hide *;
    NeverCollides(a, b);
    AliasesMean(Never(a), Never(b));
    TwoStructures(Never(a), Never(b));
    BodyBalances(Never(a), Never(b));
    NeverHolds(a, env);
    NeverHolds(b, env);
    BalancesTogether(Never(a), Never(b), env);
  }

  // ---------------------------------------------------------------- its evaluation

  function Presented(): TransitionInput {
    TransitionInput(map["x" := 1, "x #2" := 0], map["k" := "K-1", "payer" := "carol", "payee" := "dave"], map[], true)
  }

  lemma {:induction false} AllTyped(inputs: seq<PlanInput>, input: TransitionInput)
    requires forall i :: 0 <= i < |inputs| ==> InputText(inputs[i], input).Some?
    ensures TypedInputs(inputs, input).Ok?
  {
    if inputs != [] {
      hide InputText;
      AllTyped(inputs[1..], input);
    }
  }

  lemma SymbolText(p: PlanInput, input: TransitionInput)
    requires IsCanonical(ClassifyValueType(p.ty)) && !IsNumeric(ClassifyValueType(p.ty))
    requires p.name in input.symbols && p.name !in input.numeric
    ensures InputText(p, input).Some?
  {
    hide ClassifyValueType;
  }

  lemma NumberText(p: PlanInput, input: TransitionInput)
    requires IsNumeric(ClassifyValueType(p.ty)) && p.name in input.numeric && p.name !in input.symbols
    ensures InputText(p, input).Some?
  {
    hide ClassifyValueType;
  }

  lemma InputsResolve(g: ExprNode, h: ExprNode)
    ensures TypedInputs(Inputs(), Presented()).Ok? && KeyValue(PlanFor(g, h), Presented()) == "K-1"
  {
    var inputs, input := Inputs(), Presented();
    assert KeyValue(PlanFor(g, h), Presented()) == "K-1" by {
      hide GuardKey;
    }
    forall i | 0 <= i < |inputs| ensures InputText(inputs[i], input).Some? {
      hide InputText;
      if i < 3 {
        SymbolText(inputs[i], input);
      } else {
        NumberText(inputs[i], input);
      }
    }
    hide *;
    AllTyped(Inputs(), Presented());
  }

  lemma DebitResolves(g: ExprNode, env: Env)
    ensures ResolveLeg(Out(g), env, Presented().symbols) == Ok(Moved(Out(g), "carol"))
  {
    var symbols := Presented().symbols;
    assert Out(g).party == "ref:" + "payer" && Out(g).amount == "literal:5" && Out(g).currency == "literal:EUR";
    assert Out(g).ledger == "l" && Out(g).kind == "debit" && "payer" in symbols && symbols["payer"] == "carol";
    hide *;
    FiveReads(env);
    CurrencyReads(symbols);
    SymbolsRead(symbols, "payer", Out(g).party);
    LegResolves(Out(g), env, symbols, "carol");
  }

  /** An effect whose guard fails is observed and stages nothing. */
  lemma StagesNothing(e: PlanEffect, env: Env, input: TransitionInput, st: Evaluator.Staging)
    requires KnownKind(e) && e.guard.Some? && EvalGuard(e.guard.value, env) == Ok(false)
    ensures var r := StageAtomic([e], env, input, st); r.Staged? && r.st.balances == st.balances
  {
    hide EvalGuard, StageLeg;
    assert [e][1..] == [];
  }

  lemma StagesDebitOnly(d: PlanEffect, c: PlanEffect, env: Env, input: TransitionInput, trace: seq<Obs>, p: Posting)
    requires KnownKind(d) && d.guard.Some? && EvalGuard(d.guard.value, env) == Ok(true) && d.attestationInput == ""
    requires KnownKind(c) && c.guard.Some? && EvalGuard(c.guard.value, env) == Ok(false)
    requires ResolveLeg(d, env, input.symbols) == Ok(p)
    ensures var r := StageAtomic([d, c], env, input, Evaluator.Staging(map[], [], trace));
      r.Staged? && r.st.balances == map[p.account := p.delta]
  {
    var st0 := Evaluator.Staging(map[], [], trace);
    var seen := Observe(d, true, input, st0);
    assert [d, c][1..] == [c];
    ObserveKeeps(d, true, input, st0);
    hide ResolveLeg, EvalGuard, StageAtomic, StageLeg, Observe, KnownKind, Firing;
    AtomicStaging([d, c], env, input, st0);
    LegStaged(d, env, input.symbols, seen, p);
    StagesNothing(c, env, input, StageLeg(d, env, input.symbols, seen).st);
  }

  lemma OneAccountTotal(a: Account, v: I64)
    ensures TotalIn(map[a := v], a.currency) == v
  {
    var b := map[a := v];
    assert b.Keys == {a};
    SumRemove({a}, BalanceIn(b, a.currency), a);
    assert {a} - {a} == {};
    SumZero({}, BalanceIn(b, a.currency));
  }

  lemma RoundedReads(x: string, d: Category, env: Env)
    ensures EvalExpr(Rounded(x, d), env) == if x in env then Ok(env[x]) else Err(Unbound)
    ensures EvalExpr(Whole(x, d), env) == if x in env then Ok(env[x]) else Err(Unbound)
  {
  }

  lemma PositiveReads(n: ExprNode, d: Category, env: Env)
    requires EvalExpr(n, env).Ok?
    ensures EvalGuard(Positive(n, d), env) == Ok(EvalExpr(n, env).value > 0)
  {
    assert EvalExpr(Num(0, d), env) == Ok(0);
    hide EvalExpr;
  }

  /** With `x` at 1 and `x #2` at 0 the debit fires and the credit does not. */
  lemma GuardsDiffer()
    ensures EvalGuard(FINE, Presented().numeric) == Ok(true) && EvalGuard(COARSE, Presented().numeric) == Ok(false)
  {
    var env := Presented().numeric;
    assert "x" in env && ALIAS in env && env["x"] == 1 && env[ALIAS] == 0;
    hide EvalGuard, EvalExpr, Rounded, Whole, Positive, ALIAS;
    RoundedReads("x", Decimal, env);
    RoundedReads(ALIAS, Decimal, env);
    PositiveReads(Rounded("x", Decimal), Decimal, env);
    PositiveReads(Whole(ALIAS, Decimal), Decimal, env);
  }

  lemma SingleShot(g: ExprNode, h: ExprNode)
    requires g.Cmp? && h.Cmp?
    ensures !Evaluator.IsTemporal(PlanFor(g, h)) && !IsEvidenceOnly(PlanFor(g, h)) && WellIndexed(PlanFor(g, h))
    ensures EnvOf(PlanFor(g, h), Presented()) == Presented().numeric
    ensures PlanFor(g, h).computes == [] && PlanFor(g, h).attestations == []
    ensures PlanFor(g, h).effects == [Out(g), In(h)] && PlanFor(g, h).inputs == Inputs()
  {
    hide GuardKey, Presented;
  }

  lemma LegsAre(g: ExprNode, h: ExprNode)
    ensures KnownKind(Out(g)) && Out(g).guard == Some(g) && Out(g).attestationInput == ""
    ensures KnownKind(In(h)) && In(h).guard == Some(h)
    ensures Moved(Out(g), "carol").account == Account("l", "carol", "EUR") && Moved(Out(g), "carol").delta == -5
  {
    hide GuardKey;
  }

  /** From the empty ledger a single-shot plan without computes hands over the balances that it stages. */
  lemma StagedIsCommitted(plan: CoordinationPlan, input: TransitionInput)
    requires WellIndexed(plan) && !Evaluator.IsTemporal(plan) && !IsEvidenceOnly(plan)
    requires plan.computes == [] && plan.attestations == [] && input.authorized
    requires KeyValue(plan, input) != "" && TypedInputs(plan.inputs, input).Ok?
    requires StageAtomic(plan.effects, input.numeric, input,
                         Evaluator.Staging(map[], [], [AuthorizationObs(true)])).Staged?
    ensures var r := EvaluateTransition(plan, EmptyState(map[]), input);
      && r.outcome == Terminal
      && r.next.balances == StageAtomic(plan.effects, input.numeric, input,
                                        Evaluator.Staging(map[], [], [AuthorizationObs(true)])).st.balances
  {
    var env, trace := input.numeric, [AuthorizationObs(true)];
    assert FoldComputes([], env, trace) == Folded(env, trace) && SeedAccepted([], input, env) == env;
    hide StageAtomic, KeyValue, TypedInputs, Evaluator.IsTemporal, IsEvidenceOnly, WellIndexed, DeltaObs, EventObs',
         ObligationObs', FoldComputes, SeedAccepted;
  }

  /** The evaluator takes 5 EUR from the payer and gives them to nobody. */
  lemma DebitsAlone(g: ExprNode, h: ExprNode)
    requires g.Cmp? && h.Cmp?
    requires EvalGuard(g, Presented().numeric) == Ok(true) && EvalGuard(h, Presented().numeric) == Ok(false)
    ensures WellIndexed(PlanFor(g, h))
    ensures var r := EvaluateTransition(PlanFor(g, h), EmptyState(map[]), Presented());
      r.outcome == Terminal && r.next.balances == map[Account("l", "carol", "EUR") := -5]
  {
    assert Presented().authorized;
    hide *;
    SingleShot(g, h);
    InputsResolve(g, h);
    DebitResolves(g, Presented().numeric);
    LegsAre(g, h);
    StagesDebitOnly(Out(g), In(h), Presented().numeric, Presented(), [AuthorizationObs(true)], Moved(Out(g), "carol"));
    StagedIsCommitted(PlanFor(g, h), Presented());
  }

  /**
   A body that the verifier finds balanced, its plan, and one transition of it from the empty ledger
   that leaves the total of a currency five short. The verifier accepts the second guard for the text
   of the first (Provenance.VerifierTakesAnAlias).
   */
  lemma AcceptedAndNotConserved()
    ensures GuardBalanced(Body(FINE, COARSE)) && WellIndexed(PlanFor(FINE, COARSE))
    ensures !BalancedIn(Body(FINE, COARSE), Presented().numeric)
    ensures PlanAssembly.Assemble(PlanAssembly.NormalizeBody(Body(FINE, COARSE), Body(FINE, COARSE)), [], true)
         == Ok(PlanAssembly.Assembled(PlanFor(FINE, COARSE).effects, PlanFor(FINE, COARSE).effectGroups))
    ensures var r := EvaluateTransition(PlanFor(FINE, COARSE), EmptyState(map[]), Presented());
      r.outcome == Terminal && TotalIn(map[], "EUR") == 0 && TotalIn(r.next.balances, "EUR") == -5
  {
    SumZero({}, BalanceIn(map[], "EUR"));
    hide *;
    GuardsAlias();
    AliasesMean(FINE, COARSE);
    BodyBalances(FINE, COARSE);
    BodyAssembles(FINE, COARSE);
    GuardsDiffer();
    BalancesTogether(FINE, COARSE, Presented().numeric);
    DebitsAlone(FINE, COARSE);
    OneAccountTotal(Account("l", "carol", "EUR"), -5);
  }

  lemma AliasesMean(g: ExprNode, h: ExprNode)
    requires Aliases(g, h)
    ensures GuardKey(g) == GuardKey(h) && g.Cmp? && h.Cmp?
  {
  }
}
