/** From the verified source of an agreement to every run of its plan. */
module Agreement {
  import opened Wrappers
  import opened Decimal
  import opened Expr
  import opened Kernel
  import opened GuardedBalance
  import opened Bags
  import opened Plan
  import opened PlanAssembly
  import opened Evaluator
  import opened Postings
  import opened Payload
  import opened Bookkeeping
  import Ledger
  import LedgerRuns
  import Conservation

  // ---------------------------------------------------------------- assembly does not refuse what was verified

  /** Each guard is a comparison or accepted() on one variable, as inference leaves it. */
  ghost predicate GuardsTyped(legs: seq<Entry>) {
    forall e :: e in legs && e.guard.Some? ==> GuardForm(e.guard.value)
  }

  /** Normalization hands over each leg's guard as it stands. */
  lemma {:induction false} NormalizedFaithfully(ops: seq<Op>, body: seq<Op>)
    requires GuardsTyped(DebitsOf(body)) && GuardsTyped(CreditsOf(body))
    ensures FaithfulInputs(NormalizeBody(ops, body))
  {
    if body != [] {
      var n := |body| - 1;
      assert DebitsOf(body[..n]) <= DebitsOf(body) && CreditsOf(body[..n]) <= CreditsOf(body);
      NormalizedFaithfully(ops, body[..n]);
      var last := body[n];
      if last.Debit? {
        assert last.entry == DebitsOf(body)[|DebitsOf(body)| - 1];
      }
      if last.Credit? {
        assert last.entry == CreditsOf(body)[|CreditsOf(body)| - 1];
      }
    }
  }

  /** A verified body whose guards were typed never meets either group refusal, whatever its names hold. */
  lemma VerifiedBodyAssembles(ops: seq<Op>, attestations: seq<string>, balanced: bool)
    requires GuardBalanced(ops) && GuardsTyped(DebitsOf(ops)) && GuardsTyped(CreditsOf(ops))
    ensures Assemble(NormalizeBody(ops, ops), attestations, balanced) != Err(UnbalancedGroup)
    ensures Assemble(NormalizeBody(ops, ops), attestations, balanced) != Err(InconsistentGroup)
  {
    hide *;
    NormalizedFaithfully(ops, ops);
    VerifiedBodyBalances(ops, attestations, balanced);
    TypedGuardsGroup(NormalizeBody(ops, ops), attestations, balanced);
  }

  // ---------------------------------------------------------------- value is conserved

  /** `plan` has the effects and groups that assembly makes of the body. */
  ghost predicate AssemblesTo(ops: seq<Op>, attestations: seq<string>, balanced: bool, plan: CoordinationPlan) {
    Assemble(NormalizeBody(ops, ops), attestations, balanced) == Ok(Assembled(plan.effects, plan.effectGroups))
  }

  /** A body the kernel verifier accepted yields a plan whose guard-tagged flows balance. */
  lemma AcceptedYieldsBalancedPlan(ops: seq<Op>, attestations: seq<string>, balanced: bool, plan: CoordinationPlan)
    requires GuardBalanced(ops) && AssemblesTo(ops, attestations, balanced, plan)
    ensures Conservation.BalancedPlan(plan) && WellIndexed(plan)
  {
    AssembledIsPartitioned(NormalizeBody(ops, ops), attestations, balanced);
    VerifiedFlowsBalance(ops, attestations);
    Conservation.PartitionIsIndexed(plan);
  }

  lemma {:induction false} EffectsAreLegs(ops: seq<Op>, body: seq<Op>, i: nat)
    requires i < |NormalizeBody(ops, body)|
    ensures exists kind, e ::
        (e in DebitsOf(body) || e in CreditsOf(body)) && NormalizeBody(ops, body)[i] == NormalizeEntry(ops, kind, e)
  {
    var n := |body| - 1;
    BodyUnfolds(ops, body);
    hide NormalizeEntry, NormalizeBody, DebitsOf, CreditsOf;
    if i < |NormalizeBody(ops, body[..n])| {
      EffectsAreLegs(ops, body[..n], i);
      var kind, e :| (e in DebitsOf(body[..n]) || e in CreditsOf(body[..n]))
        && NormalizeBody(ops, body[..n])[i] == NormalizeEntry(ops, kind, e);
      assert NormalizeBody(ops, body)[i] == NormalizeEntry(ops, kind, e);
    } else {
      var kind := if body[n].Debit? then "debit" else "credit";
      assert NormalizeBody(ops, body)[i] == NormalizeEntry(ops, kind, body[n].entry);
    }
  }

  /** Every effect of the plan is a leg of the body, normalized and bound. */
  lemma EffectComesFromLeg(ops: seq<Op>, attestations: seq<string>, balanced: bool, plan: CoordinationPlan,
                           bound: PlanEffect) returns (kind: string, e: Entry)
    requires AssemblesTo(ops, attestations, balanced, plan) && bound in plan.effects
    ensures e in DebitsOf(ops) || e in CreditsOf(ops)
    ensures BindEffect(NormalizeEntry(ops, kind, e), attestations) == Ok(bound)
    ensures bound.guard == e.guard && bound.guardKey == GuardOf(e)
  {
    var es := NormalizeBody(ops, ops);
    hide NormalizeBody, DebitsOf, CreditsOf, GroupEffects, BindEffects, OptGuardKey;
    AssembledIsPartitioned(es, attestations, balanced);
    hide Assemble;
    BindEffectsIsPointwise(es, attestations);
    var i :| 0 <= i < |plan.effects| && plan.effects[i] == bound;
    EffectsAreLegs(ops, ops, i);
    kind, e :| (e in DebitsOf(ops) || e in CreditsOf(ops)) && es[i] == NormalizeEntry(ops, kind, e);
  }

  function RespellPair(f: Flow): Flow {
    (Respell(f.0), Respell(f.1))
  }

  lemma FiringGrows(effects: seq<PlanEffect>, e: PlanEffect, env: Env, debit: bool)
    ensures Conservation.FiringSide(effects + [e], env, debit)
         == Conservation.FiringSide(effects, env, debit)
          + if Firing(e, env) && OnSide(debit)(e) then [FlowOf(e)] else []
  {
    hide Firing, FlowOf;
    var more := Filter(FiresIn(env), [e]);
    assert [e][1..] == [] && Filter(FiresIn(env), []) == [] && Filter(OnSide(debit), []) == [];
    assert more == if Firing(e, env) then [e] else [];
    FilterAppend(FiresIn(env), effects, [e]);
    FilterAppend(OnSide(debit), Filter(FiresIn(env), effects), more);
    MapAppend(FlowOf, Filter(OnSide(debit), Filter(FiresIn(env), effects)), Filter(OnSide(debit), more));
  }

  lemma FiringKeysGrow(ops: seq<Op>, legs: seq<Entry>, e: Entry, env: Env)
    ensures Map(RespellPair, FiringKeys(ops, legs + [e], env))
         == Map(RespellPair, FiringKeys(ops, legs, env))
          + if Fires(e, env) then [RespellPair(FlowKey(ops)(e))] else []
  {
    hide Fires, FlowKey, RespellPair;
    var more := Filter(FiresUnder(env), [e]);
    assert [e][1..] == [] && Filter(FiresUnder(env), []) == [];
    assert more == if Fires(e, env) then [e] else [];
    FilterAppend(FiresUnder(env), legs, [e]);
    MapAppend(FlowKey(ops), Filter(FiresUnder(env), legs), more);
    MapAppend(RespellPair, FiringKeys(ops, legs, env), Map(FlowKey(ops), more));
  }

  lemma LastFires(ops: seq<Op>, op: Op, attestations: seq<string>, e: PlanEffect, env: Env)
    requires op.Debit? || op.Credit?
    requires BindEffect(NormalizeEntry(ops, if op.Debit? then "debit" else "credit", op.entry), attestations) == Ok(e)
    ensures Firing(e, env) <==> Fires(op.entry, env)
    ensures FlowOf(e) == RespellPair(FlowKey(ops)(op.entry))
    ensures OnSide(true)(e) <==> op.Debit?
    ensures OnSide(false)(e) <==> op.Credit?
  {
    hide EvalGuard, Respell, SpecKey, OperandKey;
    RespellIsSpecKey(ops, op.entry.amount);
    RespellIsSpecKey(ops, op.entry.currency);
  }

  /** One side of what fires after one more leg, given that side before it. */
  lemma OneMoreFiring(ops: seq<Op>, op: Op, before: seq<PlanEffect>, e: PlanEffect, legs: seq<Entry>, env: Env,
                      debit: bool)
    requires op.Debit? || op.Credit?
    requires Conservation.FiringSide(before, env, debit) == Map(RespellPair, FiringKeys(ops, legs, env))
    requires Firing(e, env) <==> Fires(op.entry, env)
    requires FlowOf(e) == RespellPair(FlowKey(ops)(op.entry)) && (OnSide(debit)(e) <==> op.Debit? == debit)
    ensures Conservation.FiringSide(before + [e], env, debit)
         == Map(RespellPair, FiringKeys(ops, if op.Debit? == debit then legs + [op.entry] else legs, env))
  {
    hide *;
    FiringGrows(before, e, env, debit);
    FiringKeysGrow(ops, legs, op.entry, env);
    NothingMore(Conservation.FiringSide(before, env, debit));
  }

  lemma NothingMore(flows: seq<Flow>)
    ensures flows + [] == flows
  {
  }

  /** The firing side of a plan is the firing side of the body, respelled. */
  lemma {:induction false} NormalizedFiring(ops: seq<Op>, body: seq<Op>, attestations: seq<string>,
                                            effects: seq<PlanEffect>, env: Env)
    requires |effects| == |NormalizeBody(ops, body)|
    requires forall i :: 0 <= i < |effects| ==> BindEffect(NormalizeBody(ops, body)[i], attestations) == Ok(effects[i])
    ensures Conservation.FiringSide(effects, env, true) == Map(RespellPair, FiringKeys(ops, DebitsOf(body), env))
    ensures Conservation.FiringSide(effects, env, false) == Map(RespellPair, FiringKeys(ops, CreditsOf(body), env))
  {
    if body != [] {
      var n := |body| - 1;
      var last := body[n];
      BodyUnfolds(ops, body);
      hide *;
      if last.Debit? || last.Credit? {
        var k := |effects| - 1;
        var e, before := effects[k], effects[..k];
        assert effects == before + [e];
        NormalizedFiring(ops, body[..n], attestations, before, env);
        LastFires(ops, last, attestations, e, env);
        OneMoreFiring(ops, last, before, e, DebitsOf(body[..n]), env, true);
        OneMoreFiring(ops, last, before, e, CreditsOf(body[..n]), env, false);
      } else {
        NormalizedFiring(ops, body[..n], attestations, effects, env);
      }
    }
  }

  /** Where the legs of the body that fire balance, so do the effects of its plan. */
  lemma FiringCarriesOver(ops: seq<Op>, attestations: seq<string>, balanced: bool, plan: CoordinationPlan, env: Env)
    requires AssemblesTo(ops, attestations, balanced, plan) && BalancedIn(ops, env)
    ensures Conservation.FiringBalanced(plan.effects, env)
  {
    hide NormalizeBody, FiringKeys, Conservation.FiringSide, BindEffects, GroupEffects;
    AssembledIsPartitioned(NormalizeBody(ops, ops), attestations, balanced);
    hide Assemble;
    BindEffectsIsPointwise(NormalizeBody(ops, ops), attestations);
    NormalizedFiring(ops, ops, attestations, plan.effects, env);
    MapIsOfBag(RespellPair, FiringKeys(ops, DebitsOf(ops), env), FiringKeys(ops, CreditsOf(ops), env));
  }

  /**
   What the compiler accepts, the evaluator conserves: if the kernel verifier's guarded comparison
   holds for a body and the body assembles into `plan`, then no run of a temporal plan changes the
   total of any currency, from any state and on any inputs; and no run of a single-shot plan does
   whose inputs leave the legs that fire balanced. GuardedBalance.BalancedInExactly says why no weaker
   condition on an environment will do.
   */
  lemma AcceptedRunConserves(
      ops: seq<Op>, attestations: seq<string>, balanced: bool, plan: CoordinationPlan,
      s: EvalState, inputs: seq<TransitionInput>, t: string)
    requires GuardBalanced(ops) && AssemblesTo(ops, attestations, balanced, plan)
    requires Evaluator.IsTemporal(plan) || forall i :: 0 <= i < |inputs| ==> BalancedIn(ops, EnvOf(plan, inputs[i]))
    ensures WellIndexed(plan)
    ensures Conservation.TotalIn(Conservation.RunFrom(plan, s, inputs).balances, t)
        == Conservation.TotalIn(s.balances, t)
  {
    hide *;
    AcceptedYieldsBalancedPlan(ops, attestations, balanced, plan);
    forall i | 0 <= i < |inputs| ensures Conservation.ConservesOn(plan, inputs[i]) {
      if Evaluator.IsTemporal(plan) {
        TemporalAsksNothing(plan, inputs[i]);
      } else {
        FiringCarriesOver(ops, attestations, balanced, plan, EnvOf(plan, inputs[i]));
        Conservation.FiringConserves(plan, inputs[i]);
      }
    }
    Conservation.RunConserves(plan, s, inputs, t);
  }

  lemma TemporalAsksNothing(plan: CoordinationPlan, input: TransitionInput)
    requires Evaluator.IsTemporal(plan)
    ensures Conservation.ConservesOn(plan, input)
  {
  }

  /**
   So no run at all changes a total if the plan is temporal, or if legs of the body filed under one
   guard key have guards of one structure, as they have when no name holds a space or a closing
   parenthesis.
   */
  lemma AcceptedAgreementConserves(
      ops: seq<Op>, attestations: seq<string>, balanced: bool, plan: CoordinationPlan,
      s: EvalState, inputs: seq<TransitionInput>, t: string)
    requires GuardBalanced(ops) && AssemblesTo(ops, attestations, balanced, plan)
    requires Evaluator.IsTemporal(plan) || OneStructurePerKey(DebitsOf(ops) + CreditsOf(ops))
    ensures WellIndexed(plan)
    ensures Conservation.TotalIn(Conservation.RunFrom(plan, s, inputs).balances, t)
        == Conservation.TotalIn(s.balances, t)
  {
    hide *;
    if !Evaluator.IsTemporal(plan) {
      forall i | 0 <= i < |inputs| ensures BalancedIn(ops, EnvOf(plan, inputs[i])) {
        OneStructureFiresAlike(DebitsOf(ops) + CreditsOf(ops), EnvOf(plan, inputs[i]));
        AlikeKeysBalance(ops, EnvOf(plan, inputs[i]));
      }
    }
    AcceptedRunConserves(ops, attestations, balanced, plan, s, inputs, t);
  }

  // ---------------------------------------------------------------- balances are explained

  /** The declared inputs of a body, in operation order. */
  function InputsOf(ops: seq<Op>): seq<PlanInput> {
    if ops == [] then []
    else
      var last := ops[|ops| - 1];
      InputsOf(ops[..|ops| - 1]) + if last.Input? then [PlanInput(last.symName, last.ty)] else []
  }

  function ComputesOf(ops: seq<Op>): seq<PlanCompute> {
    if ops == [] then []
    else
      var last := ops[|ops| - 1];
      ComputesOf(ops[..|ops| - 1]) + if last.Compute? then [PlanCompute(last.symName, Some(last.ast))] else []
  }

  function NamesOf(inputs: seq<PlanInput>): set<string> {
    set i | 0 <= i < |inputs| :: inputs[i].name
  }

  lemma {:induction false} InputIsListed(ops: seq<Op>, v: nat)
    requires v < |ops| && ops[v].Input?
    ensures exists i :: 0 <= i < |InputsOf(ops)| && InputsOf(ops)[i].name == ops[v].symName
  {
    var n := |ops| - 1;
    if v == n {
      assert InputsOf(ops)[|InputsOf(ops)| - 1].name == ops[v].symName;
    } else {
      InputIsListed(ops[..n], v);
      var i :| 0 <= i < |InputsOf(ops[..n])| && InputsOf(ops[..n])[i].name == ops[..n][v].symName;
      assert InputsOf(ops)[i].name == ops[v].symName;
    }
  }

  lemma {:induction false} ComputeIsListed(ops: seq<Op>, v: nat)
    requires v < |ops| && ops[v].Compute?
    ensures exists i :: 0 <= i < |ComputesOf(ops)| && ComputesOf(ops)[i].name == ops[v].symName
  {
    var n := |ops| - 1;
    if v == n {
      assert ComputesOf(ops)[|ComputesOf(ops)| - 1].name == ops[v].symName;
    } else {
      ComputeIsListed(ops[..n], v);
      var i :| 0 <= i < |ComputesOf(ops[..n])| && ComputesOf(ops[..n])[i].name == ops[..n][v].symName;
      assert ComputesOf(ops)[i].name == ops[v].symName;
    }
  }

  /** Each compute reads inputs and computes that come before it. */
  ghost predicate ComputesScoped(ops: seq<Op>, declared: set<string>) {
    forall v :: 0 <= v < |ops| && ops[v].Compute? ==> Vars(ops[v].ast) <= declared + ComputeNames(ComputesOf(ops[..v]))
  }

  lemma ComputeNamesAppend(cs: seq<PlanCompute>, c: PlanCompute)
    ensures ComputeNames(cs + [c]) == ComputeNames(cs) + {c.name}
    ensures cs != [] ==> ComputeNames(cs) == {cs[0].name} + ComputeNames(cs[1..])
  {
    forall x ensures x in ComputeNames(cs + [c]) <==> x in ComputeNames(cs) || x == c.name {
      if x in ComputeNames(cs) {
        var i :| 0 <= i < |cs| && cs[i].name == x;
        assert (cs + [c])[i].name == x;
      }
      assert (cs + [c])[|cs|].name == c.name;
    }
    if cs != [] {
      forall x ensures x in ComputeNames(cs) <==> x == cs[0].name || x in ComputeNames(cs[1..]) {
        if x in ComputeNames(cs[1..]) {
          var i :| 0 <= i < |cs[1..]| && cs[1..][i].name == x;
          assert cs[i + 1].name == x;
        }
        if x in ComputeNames(cs) && x != cs[0].name {
          var i :| 0 <= i < |cs| && cs[i].name == x;
          assert cs[1..][i - 1].name == x;
        }
      }
    }
  }

  lemma {:induction false} ClosedAppend(cs: seq<PlanCompute>, c: PlanCompute, names: set<string>)
    requires ComputesClosed(cs, names) && (c.expr.Some? ==> Vars(c.expr.value) <= names + ComputeNames(cs))
    ensures ComputesClosed(cs + [c], names)
    decreases |cs|
  {
    if cs == [] {
      assert [c][1..] == [] && cs + [c] == [c];
      assert ComputeNames(cs) == {};
    } else {
      assert (cs + [c])[1..] == cs[1..] + [c];
      ComputeNamesAppend(cs, c);
      assert names + ComputeNames(cs) == names + {cs[0].name} + ComputeNames(cs[1..]);
      ClosedAppend(cs[1..], c, names + {cs[0].name});
    }
  }

  lemma {:induction false} ScopedComputesAreClosed(ops: seq<Op>, declared: set<string>)
    requires ComputesScoped(ops, declared)
    ensures ComputesClosed(ComputesOf(ops), declared)
  {
    if ops != [] {
      var n := |ops| - 1;
      forall v | 0 <= v < n && ops[..n][v].Compute?
        ensures Vars(ops[..n][v].ast) <= declared + ComputeNames(ComputesOf(ops[..n][..v]))
      {
        assert ops[..n][..v] == ops[..v];
      }
      ScopedComputesAreClosed(ops[..n], declared);
      hide ComputesClosed;
      assert ComputesOf(ops[..n]) + [] == ComputesOf(ops[..n]);
      if ops[n].Compute? {
        ClosedAppend(ComputesOf(ops[..n]), PlanCompute(ops[n].symName, Some(ops[n].ast)), declared);
      }
    }
  }

  /**
   A leg that names its party and currency by inputs or constants, its amount by a defined value,
   and guards over names.
   */
  ghost predicate LegScoped(ops: seq<Op>, e: Entry, names: set<string>) {
    && (OpOf(ops, e.party).Const? || OpOf(ops, e.party).Input?)
    && (OpOf(ops, e.currency).Const? || OpOf(ops, e.currency).Input?)
    && (OpOf(ops, e.amount).Const? || OpOf(ops, e.amount).Input? || OpOf(ops, e.amount).Compute?)
    && (e.guard.Some? && e.guard.value.Cmp? ==> Vars(e.guard.value) <= names)
  }

  /** What the front end's scoping gives: names before uses, and no name that looks like a policy slot. */
  ghost predicate WellScoped(ops: seq<Op>) {
    var names := NamesOf(InputsOf(ops)) + ComputeNames(ComputesOf(ops));
    && ComputesScoped(ops, NamesOf(InputsOf(ops)))
    && (forall x :: x in names ==> ':' !in x)
    && (forall e :: e in DebitsOf(ops) || e in CreditsOf(ops) ==> LegScoped(ops, e, names))
  }

  /** The plan of a body: its declarations as they stand, its effects and groups as assembly returns them. */
  ghost predicate PlanOf(ops: seq<Op>, balanced: bool, plan: CoordinationPlan) {
    && AssemblesTo(ops, plan.attestations, balanced, plan)
    && plan.inputs == InputsOf(ops) && plan.computes == ComputesOf(ops)
    && plan.idempotent
  }

  lemma SpecKeyReads(ops: seq<Op>, v: Value)
    ensures OpOf(ops, v).Const? ==> SplitOperand(SpecKey(ops, v)).Literal?
    ensures OpOf(ops, v).Input? || OpOf(ops, v).Compute? ==> SplitOperand(SpecKey(ops, v)) == Ref(OpOf(ops, v).symName)
  {
    match OpOf(ops, v)
    case Const(text) => OperandReads(text);
    case Input(name, _) => OperandReads(name);
    case Compute(name, _, _) => OperandReads(name);
    case _ =>
  }

  lemma LegIsClosed(ops: seq<Op>, plan: CoordinationPlan, kind: string, e: Entry, bound: PlanEffect)
    requires plan.inputs == InputsOf(ops) && plan.computes == ComputesOf(ops)
    requires LegScoped(ops, e, Scope(plan)) && BindEffect(NormalizeEntry(ops, kind, e), plan.attestations) == Ok(bound)
    ensures EffectClosed(bound, ClaimedNames(plan), Scope(plan))
  {
    SpecKeyReads(ops, e.party);
    SpecKeyReads(ops, e.amount);
    SpecKeyReads(ops, e.currency);
    hide SplitOperand, SpecKey;
    NameIsListed(ops, plan, e.party);
    NameIsListed(ops, plan, e.currency);
    NameIsListed(ops, plan, e.amount);
  }

  lemma NameIsListed(ops: seq<Op>, plan: CoordinationPlan, v: Value)
    requires plan.inputs == InputsOf(ops) && plan.computes == ComputesOf(ops)
    ensures OpOf(ops, v).Input? ==> OpOf(ops, v).symName in Declared(plan)
    ensures OpOf(ops, v).Compute? ==> OpOf(ops, v).symName in ComputeNames(plan.computes)
  {
    if OpOf(ops, v).Input? {
      InputIsListed(ops, v);
    }
    if OpOf(ops, v).Compute? {
      ComputeIsListed(ops, v);
    }
  }

  lemma PlanParts(ops: seq<Op>, balanced: bool, plan: CoordinationPlan)
    requires PlanOf(ops, balanced, plan)
    ensures AssemblesTo(ops, plan.attestations, balanced, plan)
    ensures plan.inputs == InputsOf(ops) && plan.computes == ComputesOf(ops) && plan.idempotent
    ensures Declared(plan) == NamesOf(InputsOf(ops))
    ensures Scope(plan) == NamesOf(InputsOf(ops)) + ComputeNames(ComputesOf(ops))
  {
    hide AssemblesTo, InputsOf, ComputesOf;
  }

  lemma PlanIsPartitioned(ops: seq<Op>, balanced: bool, plan: CoordinationPlan)
    requires PlanOf(ops, balanced, plan)
    ensures Partitions(plan.effectGroups, plan.effects)
  {
    hide NormalizeBody, Assemble, Partitions;
    AssembledIsPartitioned(NormalizeBody(ops, ops), plan.attestations, balanced);
  }

  lemma EffectIsClosed(ops: seq<Op>, balanced: bool, plan: CoordinationPlan, bound: PlanEffect)
    requires WellScoped(ops) && PlanOf(ops, balanced, plan) && bound in plan.effects
    ensures EffectClosed(bound, ClaimedNames(plan), Scope(plan))
  {
    assert forall e :: e in DebitsOf(ops) || e in CreditsOf(ops) ==>
      LegScoped(ops, e, NamesOf(InputsOf(ops)) + ComputeNames(ComputesOf(ops))) by {
      hide LegScoped, ComputesScoped, DebitsOf, CreditsOf, NamesOf, InputsOf, ComputesOf;
    }
    hide *;
    PlanParts(ops, balanced, plan);
    var kind, e := EffectComesFromLeg(ops, plan.attestations, balanced, plan, bound);
    LegIsClosed(ops, plan, kind, e, bound);
  }

  lemma ClosedMeans(plan: CoordinationPlan)
    requires ComputesClosed(plan.computes, Declared(plan))
    requires forall e :: e in plan.effects ==> EffectClosed(e, ClaimedNames(plan), Scope(plan))
    requires forall p :: p in plan.attestations ==> AcceptedKey(p) !in Scope(plan)
    ensures Closed(plan)
  {
    hide ComputesClosed, GuardClosed, AmountClosed, NamesClaimed, Declared, Scope, ClaimedNames, AcceptedKey;
  }

  lemma LedgerPlanMeans(plan: CoordinationPlan)
    requires Closed(plan) && Partitions(plan.effectGroups, plan.effects) && plan.idempotent
    ensures Ledger.LedgerPlan(plan) && WellIndexed(plan)
  {
    hide Closed, Partitions, Indexed;
    Conservation.PartitionIsIndexed(plan);
  }

  lemma SlotsAreNoNames(p: string)
    ensures ':' in AcceptedKey(p)
  {
    assert AcceptedKey(p)[8] == ':';
  }

  lemma SlotsAreFree(ops: seq<Op>, balanced: bool, plan: CoordinationPlan)
    requires WellScoped(ops) && PlanOf(ops, balanced, plan)
    ensures forall p :: p in plan.attestations ==> AcceptedKey(p) !in Scope(plan)
    ensures ComputesScoped(ops, Declared(plan))
  {
    PlanParts(ops, balanced, plan);
    hide LegScoped, ComputesScoped, DebitsOf, CreditsOf, NamesOf, InputsOf, ComputesOf, Scope, Declared, AcceptedKey,
         PlanOf;
    forall p | p in plan.attestations ensures AcceptedKey(p) !in Scope(plan) {
      SlotsAreNoNames(p);
    }
  }

  /** The plan of a well-scoped body meets every condition of the ledger invariant. */
  lemma AgreementIsLedgerPlan(ops: seq<Op>, balanced: bool, plan: CoordinationPlan)
    requires WellScoped(ops) && PlanOf(ops, balanced, plan)
    ensures Ledger.LedgerPlan(plan) && WellIndexed(plan)
  {
    hide *;
    PlanParts(ops, balanced, plan);
    SlotsAreFree(ops, balanced, plan);
    PlanIsPartitioned(ops, balanced, plan);
    ScopedComputesAreClosed(ops, Declared(plan));
    forall e | e in plan.effects ensures EffectClosed(e, ClaimedNames(plan), Scope(plan)) {
      EffectIsClosed(ops, balanced, plan, e);
    }
    ClosedMeans(plan);
    LedgerPlanMeans(plan);
  }

  /**
   From verified source to every balance: along any run of the plan of a well-scoped body, each
   account holds its start balance plus the postings that the recorded claims fix for the recorded
   commits, each counted once.
   */
  lemma AcceptedAgreementIsExplained(ops: seq<Op>, balanced: bool, plan: CoordinationPlan, start: map<Account, I64>,
                                     inputs: seq<TransitionInput>)
    requires WellScoped(ops) && PlanOf(ops, balanced, plan)
    ensures Ledger.LedgerPlan(plan) && WellIndexed(plan)
    ensures Ledger.Explained(plan, start, Conservation.RunFrom(plan, EmptyState(start), inputs))
  {
    AgreementIsLedgerPlan(ops, balanced, plan);
    LedgerRuns.RunExplained(plan, start, inputs);
  }
}
