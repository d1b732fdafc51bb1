/**
 An accepted agreement whose claim does not decide its ledger: it credits a party that a compute
 names, and the evaluator looks that name up among the symbols of the input.
 */
module UnclaimedOperands {
  import opened Wrappers
  import opened Decimal
  import opened ValueModel
  import opened Expr
  import opened Kernel
  import opened GuardedBalance
  import opened Plan
  import PlanAssembly
  import opened Evaluator
  import opened Payload
  import opened Bookkeeping
  import opened TwoLegs

  // ---------------------------------------------------------------- the agreement

  const PAYS: Entry := Entry("d", "l", 3, 0, 1, 2, None)
  const GETS: Entry := Entry("e", "l", 4, 0, 1, 2, None)

  function Operands(): seq<Op> {
    [Const("5"), Const("EUR"), Op.Input("k", "string"), Op.Input("payer", "party"), Compute("c", [], Num(1, Extension))]
  }

  /** Pay 5 EUR from `payer` to whom the compute `c` names. */
  function Body(): seq<Op> {
    Operands() + [Debit(PAYS), Credit(GETS), AssertBalanced]
  }

  const OUT: PlanEffect := PlanEffect("d", "debit", "l", "ref:payer", "literal:5", "literal:EUR", "", "", None)
  const IN: PlanEffect := PlanEffect("e", "credit", "l", "ref:c", "literal:5", "literal:EUR", "", "", None)

  function ComputedParty(): CoordinationPlan {
    CoordinationPlan(
      "pay", "k", [PlanInput("k", "string"), PlanInput("payer", "party")], [PlanCompute("c", Some(Num(1, Extension)))],
      [OUT, IN], [EffectGroup("", "", [0, 1], 0, true, 1, 1)], [], true, "DONE", [])
  }

  lemma SameGuardedKey(ops: seq<Op>)
    ensures GuardedKey(ops)(PAYS) == GuardedKey(ops)(GETS)
  {
    hide OperandKey;
  }

  lemma BodyBalances()
    ensures GuardBalanced(Body())
  {
    OperandsHaveNoLegs();
    LegsOfTwo(Body(), Operands(), PAYS, GETS);
    SameGuardedKey(Body());
    assert Body() == Operands() + [Debit(PAYS), Credit(GETS), AssertBalanced];
    hide *;
    OneEachBalances(Body(), PAYS, GETS);
  }

  lemma OperandsHaveNoLegs()
    ensures forall i :: 0 <= i < |Operands()| ==> !Operands()[i].Debit? && !Operands()[i].Credit?
  {
  }

  lemma {:induction false} SpecKeys(ops: seq<Op>)
    ensures OpOf(ops, 0) == Const("5") ==> PlanAssembly.SpecKey(ops, 0) == "literal:5"
    ensures OpOf(ops, 1) == Const("EUR") ==> PlanAssembly.SpecKey(ops, 1) == "literal:EUR"
    ensures OpOf(ops, 3) == Op.Input("payer", "party") ==> PlanAssembly.SpecKey(ops, 3) == "ref:payer"
    ensures OpOf(ops, 4) == Compute("c", [], Num(1, Extension)) ==> PlanAssembly.SpecKey(ops, 4) == "ref:c"
  {
    assert "literal:" + "5" == "literal:5" && "literal:" + "EUR" == "literal:EUR";
    assert "ref:" + "payer" == "ref:payer" && "ref:" + "c" == "ref:c";
  }

  const FROM: EffectInput := EffectInput("d", "debit", "l", "ref:payer", "literal:5", "literal:EUR", "", None)
  const TO: EffectInput := EffectInput("e", "credit", "l", "ref:c", "literal:5", "literal:EUR", "", None)

  lemma EntriesNormalize()
    ensures PlanAssembly.NormalizeEntry(Body(), "debit", PAYS) == FROM
    ensures PlanAssembly.NormalizeEntry(Body(), "credit", GETS) == TO
  {
    SpecKeys(Body());
    hide PlanAssembly.SpecKey;
  }

  lemma BoundAs()
    ensures BindEffect(FROM, []) == Ok(OUT) && BindEffect(TO, []) == Ok(IN)
  {
  }

  lemma FlowsAlike()
    ensures FlowOf(OUT) == FlowOf(IN)
  {
  }

  /** The plan above is what assembly makes of the body above, which passes the kernel's balance check. */
  lemma BodyAssembles()
    ensures PlanAssembly.Assemble(PlanAssembly.NormalizeBody(Body(), Body()), [], true)
         == Ok(PlanAssembly.Assembled(ComputedParty().effects, ComputedParty().effectGroups))
  {
    OperandsHaveNoLegs();
    EntriesNormalize();
    BoundAs();
    FlowsAlike();
    hide Operands, PlanAssembly.Assemble, PlanAssembly.NormalizeBody, PlanAssembly.NormalizeEntry, DebitsOf, CreditsOf,
         BindEffect, FlowOf;
    LegsOfTwo(Body(), Operands(), PAYS, GETS);
    AssemblesTwo(FROM, TO, OUT, IN);
  }

  // ---------------------------------------------------------------- its evaluation

  function Paying(party: string): TransitionInput {
    TransitionInput(map[], map["k" := "K-1", "payer" := "carol", "c" := party], map[], true)
  }

  function PaidUnder(): map<string, string> {
    map["k" := "K-1", "payer" := "carol"]
  }

  function Balances(party: string): map<Account, I64> {
    map[Account("l", "carol", "EUR") := -5, Account("l", party, "EUR") := 5]
  }

  lemma Refs()
    ensures OUT.party == "ref:" + "payer" && IN.party == "ref:" + "c"
    ensures OUT.amount == "literal:5" == IN.amount && OUT.currency == "literal:EUR" == IN.currency
    ensures OUT.ledger == "l" == IN.ledger && OUT.kind == "debit" && IN.kind == "credit"
  {
  }

  lemma LegsResolve(party: string, env: Env)
    requires party != ""
    ensures ResolveLeg(OUT, env, Paying(party).symbols) == Ok(Moved(OUT, "carol"))
    ensures ResolveLeg(IN, env, Paying(party).symbols) == Ok(Moved(IN, party))
  {
    var symbols := Paying(party).symbols;
    Refs();
    hide OUT, IN, ResolveAmount, ResolveSymbol, ResolveLeg, Moved;
    FiveReads(env);
    CurrencyReads(symbols);
    SymbolsRead(symbols, "payer", OUT.party);
    SymbolsRead(symbols, "c", IN.party);
    LegResolves(OUT, env, symbols, "carol");
    LegResolves(IN, env, symbols, party);
  }

  lemma NoGuards()
    ensures OUT.guard.None? && IN.guard.None?
    ensures ComputedParty().effects == [OUT, IN] && ComputedParty().attestations == []
  {
  }

  lemma StagesBoth(party: string, env: Env, trace: seq<Obs>)
    requires party != "" && party != "carol"
    ensures StageAtomic(ComputedParty().effects, env, Paying(party), Evaluator.Staging(map[], [], trace))
         == Staged(Evaluator.Staging(Balances(party), [Moved(OUT, "carol"), Moved(IN, party)], trace))
  {
    LegsResolve(party, env);
    NoGuards();
    Refs();
    MovedAre(party);
    hide *;
    StagesTwo(OUT, IN, env, Paying(party), trace, Moved(OUT, "carol"), Moved(IN, party));
  }

  lemma MovedAre(party: string)
    requires party != "carol"
    ensures var p, q := Moved(OUT, "carol"), Moved(IN, party);
      p.account != q.account && Balances(party) == map[p.account := p.delta, q.account := q.delta]
    ensures OUT.attestationInput == "" == IN.attestationInput
  {
  }

  lemma StagesTwo(x: PlanEffect, y: PlanEffect, env: Env, input: TransitionInput, trace: seq<Obs>, p: Posting,
                  q: Posting)
    requires x.guard.None? && x.attestationInput == "" && x.kind == "debit"
    requires y.guard.None? && y.attestationInput == "" && y.kind == "credit"
    requires ResolveLeg(x, env, input.symbols) == Ok(p)
    requires ResolveLeg(y, env, input.symbols) == Ok(q) && p.account != q.account
    ensures StageAtomic([x, y], env, input, Evaluator.Staging(map[], [], trace))
         == Staged(Evaluator.Staging(map[p.account := p.delta, q.account := q.delta], [p, q], trace))
  {
    assert [x, y][1..] == [y] && [y][1..] == [] && [] + [p] == [p] && [p] + [q] == [p, q];
    hide ResolveLeg, StageAtomic;
    var mid := Evaluator.Staging(map[p.account := p.delta], [p], trace);
    var end := Evaluator.Staging(map[p.account := p.delta, q.account := q.delta], [p, q], trace);
    StagesLeg([x, y], env, input, Evaluator.Staging(map[], [], trace), p);
    StagesLeg([y], env, input, mid, q);
    NothingLeft(env, input, end);
  }

  lemma PayloadOfPaying(party: string)
    ensures TypedInputs(ComputedParty().inputs, Paying(party)) == Ok(PaidUnder())
    ensures KeyValue(ComputedParty(), Paying(party)) == "K-1"
  {
    var inputs := ComputedParty().inputs;
    assert inputs[1..] == [PlanInput("payer", "party")] && inputs[1..][1..] == [];
    assert TypedInputs([], Paying(party)) == Ok(map[]);
    assert map["payer" := "carol"]["k" := "K-1"] == PaidUnder();
  }

  lemma Folds(party: string, trace: seq<Obs>)
    ensures FoldComputes(ComputedParty().computes, Paying(party).numeric, trace).Folded?
  {
    assert ComputedParty().computes[1..] == [];
  }

  lemma PathOf()
    ensures !IsTemporal(ComputedParty()) && !IsEvidenceOnly(ComputedParty()) && WellIndexed(ComputedParty())
  {
  }

  /** The evaluator pays whomever the symbol `c` names. */
  lemma PaysParty(party: string)
    requires party != "" && party != "carol"
    ensures WellIndexed(ComputedParty())
    ensures ClaimOf(ComputedParty(), Paying(party)) == Some(Claim(ComputedParty(), "K-1", PaidUnder()))
    ensures var r := EvaluateTransition(ComputedParty(), EmptyState(map[]), Paying(party));
      && r.outcome == Terminal && r.next.balances == Balances(party)
      && r.next.keyClaim == map["K-1" := Claim(ComputedParty(), "K-1", PaidUnder())]
  {
    var plan, input := ComputedParty(), Paying(party);
    var folded := FoldComputes(plan.computes, input.numeric, [AuthorizationObs(true)]);
    PayloadOfPaying(party);
    PathOf();
    Folds(party, [AuthorizationObs(true)]);
    StagesBoth(party, SeedAccepted(plan.attestations, input, folded.env), folded.trace);
    hide StageAtomic, FoldComputes, SeedAccepted, DeltaObs, EventObs', ObligationObs', KeyValue, TypedInputs,
         IsTemporal, IsEvidenceOnly, WellIndexed, Balances, PaidUnder;
  }

  /** Effects with a literal amount and no guard read no number that a claim does not fix. */
  lemma LiteralsAreClosed(plan: CoordinationPlan)
    requires forall e :: e in plan.effects ==> e.guard.None? && SplitOperand(e.amount).Literal?
    requires ComputesClosed(plan.computes, Declared(plan)) && plan.attestations == []
    ensures ValuesClosed(plan)
  {
  }

  lemma PlanReads()
    ensures ComputesClosed(ComputedParty().computes, Declared(ComputedParty()))
    ensures ClaimedNames(ComputedParty()) == {"k", "payer"}
  {
    var plan := ComputedParty();
    assert plan.computes[1..] == [];
    assert plan.inputs[0].name == "k" && plan.inputs[1].name == "payer";
  }

  lemma Unclaimed(e: PlanEffect, claimed: set<string>)
    requires SplitOperand(e.party) == Ref("c") && claimed == {"k", "payer"}
    ensures !NamesClaimed(e, claimed)
  {
  }

  /** The claim fixes every number of the plan, and not the party of its credit. */
  lemma PartyIsUnclaimed()
    ensures ValuesClosed(ComputedParty()) && IN in ComputedParty().effects
    ensures !NamesClaimed(IN, ClaimedNames(ComputedParty()))
  {
    Refs();
    NoGuards();
    PlanReads();
    OperandReads("c");
    OperandReads("5");
    assert "literal:" + "5" == "literal:5";
    hide *;
    Unclaimed(IN, ClaimedNames(ComputedParty()));
    LiteralsAreClosed(ComputedParty());
  }

  /**
   Two inputs with one claim that pay different accounts, under a plan assembled from a body that
   balances: the recorded claim does not decide the ledger.
   */
  lemma OneClaimTwoLedgers()
    ensures GuardBalanced(Body()) && WellIndexed(ComputedParty())
    ensures ValuesClosed(ComputedParty()) && exists e ::
        e in ComputedParty().effects && !NamesClaimed(e, ClaimedNames(ComputedParty()))
    ensures PlanAssembly.Assemble(PlanAssembly.NormalizeBody(Body(), Body()), [], true)
         == Ok(PlanAssembly.Assembled(ComputedParty().effects, ComputedParty().effectGroups))
    ensures var plan, a, b := ComputedParty(), Paying("alice"), Paying("bob");
      var s, t := EvaluateTransition(plan, EmptyState(map[]), a), EvaluateTransition(plan, EmptyState(map[]), b);
      && ClaimOf(plan, a).Some? && ClaimOf(plan, a) == ClaimOf(plan, b)
      && s.outcome == Terminal && t.outcome == Terminal
      && s.next.keyClaim == t.next.keyClaim && s.next.balances != t.next.balances
  {
    hide *;
    PartyIsUnclaimed();
    BodyBalances();
    BodyAssembles();
    BalancesDiffer("alice", "bob");
    PaysParty("alice");
    PaysParty("bob");
  }

  lemma BalancesDiffer(a: string, b: string)
    requires a != "carol" && a != b
    ensures Balances(a) != Balances(b)
  {
    assert Account("l", a, "EUR") in Balances(a) && Account("l", a, "EUR") !in Balances(b);
  }
}
