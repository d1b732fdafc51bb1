/**
 From a verified procedure body to plan effects and groups: the normalization bridge and the
 assembly checks that concern effects.
 */
module PlanAssembly {
  import opened Wrappers
  import opened Expr
  import opened Kernel
  import opened Bags
  import opened GuardedBalance
  import opened Plan

  // ---------------------------------------------------------------- normalization

  /** The operand spelling of the plan and of the capability spec. */
  function SpecKey(ops: seq<Op>, v: Value): string {
    match OpOf(ops, v)
    case Const(text) => "literal:" + text
    case Input(name, _) => "ref:" + name
    case Compute(name, _, _) => "ref:" + name
    case _ => "ref:?"
  }

  function NormalizeEntry(ops: seq<Op>, kind: string, e: Entry): EffectInput {
    EffectInput(e.name, kind, e.ledger, SpecKey(ops, e.party), SpecKey(ops, e.amount), SpecKey(ops, e.currency),
                AcceptedInput(e.guard), e.guard)
  }

  /** The effects of a body, in operation order; operands resolve in the whole procedure `ops`. */
  function NormalizeBody(ops: seq<Op>, body: seq<Op>): seq<EffectInput> {
    if body == [] then []
    else
      var last := body[|body| - 1];
      NormalizeBody(ops, body[..|body| - 1]) +
      if last.Debit? then [NormalizeEntry(ops, "debit", last.entry)]
      else if last.Credit? then [NormalizeEntry(ops, "credit", last.entry)]
      else []
  }

  // ---------------------------------------------------------------- assembly

  datatype Assembled = Assembled(effects: seq<PlanEffect>, groups: seq<EffectGroup>)

  predicate IsTemporal(e: EffectInput) {
    e.guardAcceptedInput != ""
  }

  predicate AnyTemporal(es: seq<EffectInput>) {
    exists i :: 0 <= i < |es| && IsTemporal(es[i])
  }

  predicate EveryPolicyBound(es: seq<EffectInput>, attestations: seq<string>) {
    forall j :: 0 <= j < |attestations|
      ==> exists i :: 0 <= i < |es| && IsTemporal(es[i]) && es[i].guardAcceptedInput == attestations[j]
  }

  predicate GroupPasses(effects: seq<PlanEffect>, g: EffectGroup) {
    || !g.mustBalance
    || !InRange(effects, g.effectIndices)
    || multiset(GroupFlows(effects, g.effectIndices, true)) == multiset(GroupFlows(effects, g.effectIndices, false))
  }

  function Assemble(es: seq<EffectInput>, attestations: seq<string>, balanced: bool): Result<Assembled, PlanError> {
    var bound := BindEffects(es, attestations);
    if bound.Err? then Err(bound.error)
    else if AnyTemporal(es) && !EveryPolicyBound(es, attestations) then Err(PolicyUnbound)
    else if AnyTemporal(es) && exists i :: 0 <= i < |es| && !IsTemporal(es[i]) then Err(TemporalMixed)
    else
      var groups := GroupEffects(bound.value, balanced);
      if groups.Err? then Err(groups.error)
      else if exists j :: 0 <= j < |groups.value| && !GroupPasses(bound.value, groups.value[j])
          then Err(UnbalancedGroup)
      else Ok(Assembled(bound.value, groups.value))
  }

  // ---------------------------------------------------------------- the group refusals

  /** What the builders hand over: the policy that the guard itself names, and a guard of that form. */
  ghost predicate FaithfulInput(e: EffectInput) {
    e.guardAcceptedInput == AcceptedInput(e.guard) && (e.guard.Some? ==> GuardForm(e.guard.value))
  }

  ghost predicate FaithfulInputs(es: seq<EffectInput>) {
    forall i :: 0 <= i < |es| ==> FaithfulInput(es[i])
  }

  lemma AcceptedKeyText(n: ExprNode)
    requires IsAcceptedGuard(n) && |n.args| == 1 && n.args[0].Var?
    ensures GuardKey(n) == "(accepted" + (" $" + (n.args[0].name + ")"))
    ensures GuardKey(n)[1] == 'a'
  {
    var x := n.args[0].name;
    assert n.args[1..] == [];
    assert ArgKeys(n.args) == " " + ("$" + x) + "";
    assert GuardKey(n) == "(" + "accepted" + (" " + ("$" + x) + "") + ")";
    assert "(" + "accepted" == "(accepted" && " " + ("$" + x) + "" == " $" + x;
    Assoc("(accepted", " $" + x, ")");
    Assoc(" $", x, ")");
  }

  lemma ComparisonKeyText(n: ExprNode)
    requires n.Cmp? && IsCmpOp(n.name)
    ensures |GuardKey(n)| > 1 && GuardKey(n)[1] != 'a'
  {
    hide GuardKey, IsCmpOp;
    HeadThenTail(n);
    hide Tail;
    OperatorIsNoLetter(n.name);
    assert ("(" + (n.name + Tail(n)))[1] == n.name[0];
  }

  lemma OperatorIsNoLetter(op: string)
    requires IsCmpOp(op)
    ensures op != "" && op[0] != 'a'
  {
  }

  /** Whatever its names hold, a guard's key tells accepted() from a comparison and names its policy. */
  lemma KeyNamesPolicy(a: Option<ExprNode>, b: Option<ExprNode>)
    requires a.Some? ==> GuardForm(a.value)
    requires b.Some? ==> GuardForm(b.value)
    requires OptGuardKey(a) == OptGuardKey(b)
    ensures AcceptedInput(a) == AcceptedInput(b)
    ensures a.Some? && b.Some? ==> (IsAcceptedGuard(a.value) <==> IsAcceptedGuard(b.value))
  {
    UnguardedKey(a);
    UnguardedKey(b);
    if a.Some? && b.Some? {
      if a.value.Cmp? {
        ComparisonKeyText(a.value);
      } else {
        AcceptedKeyText(a.value);
      }
      if b.value.Cmp? {
        ComparisonKeyText(b.value);
      } else {
        AcceptedKeyText(b.value);
      }
      hide GuardKey;
      if a.value.Call? && b.value.Call? {
        var x, y := a.value.args[0].name, b.value.args[0].name;
        Cancel("(accepted", " $" + (x + ")"), " $" + (y + ")"));
        Cancel(" $", x + ")", y + ")");
        assert x == (x + ")")[..|x + ")"| - 1] && y == (y + ")")[..|y + ")"| - 1];
      }
    }
  }

  /** Effects filed under one key were bound to one policy. */
  lemma SameKeySameBinding(a: EffectInput, b: EffectInput, attestations: seq<string>)
    requires FaithfulInput(a) && FaithfulInput(b)
    requires BindEffect(a, attestations).Ok? && BindEffect(b, attestations).Ok?
    requires OptGuardKey(a.guard) == OptGuardKey(b.guard)
    ensures BindEffect(a, attestations).value.attestationInput == BindEffect(b, attestations).value.attestationInput
  {
    hide GuardForm, OptGuardKey, AcceptedInput;
    KeyNamesPolicy(a.guard, b.guard);
  }

  ghost predicate OneBindingPerKey(effects: seq<PlanEffect>) {
    forall i, j :: 0 <= i < |effects| && 0 <= j < |effects| && effects[i].guardKey == effects[j].guardKey
      ==> effects[i].attestationInput == effects[j].attestationInput
  }

  lemma FaithfulBindsOncePerKey(es: seq<EffectInput>, attestations: seq<string>)
    requires FaithfulInputs(es) && BindEffects(es, attestations).Ok?
    ensures OneBindingPerKey(BindEffects(es, attestations).value)
  {
    var effects := BindEffects(es, attestations).value;
    BindEffectsIsPointwise(es, attestations);
    forall i, j | 0 <= i < |effects| && 0 <= j < |effects| && effects[i].guardKey == effects[j].guardKey
      ensures effects[i].attestationInput == effects[j].attestationInput
    {
      assert BindEffect(es[i], attestations) == Ok(effects[i]) && BindEffect(es[j], attestations) == Ok(effects[j]);
      hide FaithfulInput, BindEffects;
      SameKeySameBinding(es[i], es[j], attestations);
    }
  }

  /** Each group carries the binding of some effect filed in it. */
  ghost predicate BindingFromMember(g: EffectGroup, effects: seq<PlanEffect>) {
    exists i :: 0 <= i < |effects| && effects[i].guardKey == g.guardKey
        && effects[i].attestationInput == g.attestationInput
  }

  lemma BindingStays(g: EffectGroup, effects: seq<PlanEffect>, e: PlanEffect)
    requires BindingFromMember(g, effects)
    ensures BindingFromMember(g, effects + [e]) && BindingFromMember(Join(g, e, |effects|), effects + [e])
  {
    var i :| 0 <= i < |effects| && effects[i].guardKey == g.guardKey
        && effects[i].attestationInput == g.attestationInput;
    assert (effects + [e])[i] == effects[i];
  }

  /** The "inconsistent guard group" refusal is dead: no plan built from faithful inputs reaches it. */
  lemma {:induction false} GroupingNeverInconsistent(effects: seq<PlanEffect>, balanced: bool)
    requires OneBindingPerKey(effects)
    ensures GroupEffects(effects, balanced).Ok?
    ensures var groups := GroupEffects(effects, balanced).value;
      forall j :: 0 <= j < |groups| ==> BindingFromMember(groups[j], effects)
  {
    if effects != [] {
      hide BindingFromMember;
      var n := |effects| - 1;
      var e := effects[n];
      assert effects[..n] + [e] == effects;
      GroupingNeverInconsistent(effects[..n], balanced);
      var groups := GroupEffects(effects[..n], balanced).value;
      var i := FindGroup(groups, e.guardKey);
      if i < |groups| {
        BindingAgrees(groups[i], effects, n);
      } else {
        FreshBinding(effects, n, balanced);
      }
      forall j | 0 <= j < |groups|
        ensures BindingFromMember(groups[j], effects) && BindingFromMember(Join(groups[j], e, n), effects)
      {
        BindingStays(groups[j], effects[..n], e);
      }
    }
  }

  lemma BindingAgrees(g: EffectGroup, effects: seq<PlanEffect>, n: nat)
    requires n < |effects| && OneBindingPerKey(effects)
    requires BindingFromMember(g, effects[..n]) && g.guardKey == effects[n].guardKey
    ensures g.attestationInput == effects[n].attestationInput
  {
    var i :| 0 <= i < n && effects[..n][i].guardKey == g.guardKey
        && effects[..n][i].attestationInput == g.attestationInput;
    assert effects[i].guardKey == effects[n].guardKey;
  }

  lemma FreshBinding(effects: seq<PlanEffect>, n: nat, balanced: bool)
    requires n < |effects|
    ensures BindingFromMember(FreshGroup(effects[n], n, balanced), effects)
  {
    assert effects[n].guardKey == FreshGroup(effects[n], n, balanced).guardKey;
  }

  // ---------------------------------------------------------------- a verified body always balances

  /** The plan's spelling of an operand key. */
  function Respell(key: string): string {
    if |key| >= 4 && key[..4] == "lit:" then "literal:" + key[4..]
    else if key == "ssa" then "ref:?"
    else key
  }

  function RespellFlow(k: GuardedFlow): GuardedFlow {
    (k.0, Respell(k.1), Respell(k.2))
  }

  lemma RespellIsSpecKey(ops: seq<Op>, v: Value)
    ensures Respell(OperandKey(ops, v)) == SpecKey(ops, v)
  {
    match OpOf(ops, v)
    case Const(text) =>
      assert ("lit:" + text)[..4] == "lit:" && ("lit:" + text)[4..] == text;
    case Input(name, _) =>
      assert ("ref:" + name)[0] != "lit:"[0];
    case Compute(name, _, _) =>
      assert ("ref:" + name)[0] != "lit:"[0];
    case _ =>
  }

  /** One side of the plan's flows is the verifier's side, respelled. */
  lemma {:induction false} NormalizedFlows(ops: seq<Op>, body: seq<Op>, attestations: seq<string>,
                                           effects: seq<PlanEffect>)
    requires |effects| == |NormalizeBody(ops, body)|
    requires forall i :: 0 <= i < |effects| ==> BindEffect(NormalizeBody(ops, body)[i], attestations) == Ok(effects[i])
    ensures PlanFlows(effects, true) == Map(RespellFlow, Map(GuardedKey(ops), DebitsOf(body)))
    ensures PlanFlows(effects, false) == Map(RespellFlow, Map(GuardedKey(ops), CreditsOf(body)))
  {
    if body != [] {
      var n := |body| - 1;
      var last := body[n];
      BodyUnfolds(ops, body);
      hide *;
      if last.Debit? || last.Credit? {
        var k := |effects| - 1;
        var before := effects[..k];
        assert effects == before + [effects[k]];
        NormalizedFlows(ops, body[..n], attestations, before);
        LastFlow(ops, last, attestations, effects[k]);
        OneMoreFlow(ops, last, before, effects[k], DebitsOf(body[..n]), true);
        OneMoreFlow(ops, last, before, effects[k], CreditsOf(body[..n]), false);
      } else {
        NormalizedFlows(ops, body[..n], attestations, effects);
      }
    }
  }

  /** One side of the flows after one more leg, given that side before it. */
  lemma OneMoreFlow(ops: seq<Op>, op: Op, before: seq<PlanEffect>, e: PlanEffect, legs: seq<Entry>, debit: bool)
    requires op.Debit? || op.Credit?
    requires PlanFlows(before, debit) == Map(RespellFlow, Map(GuardedKey(ops), legs))
    requires GuardedFlowOf(e) == RespellFlow(GuardedKey(ops)(op.entry)) && (OnSide(debit)(e) <==> op.Debit? == debit)
    ensures PlanFlows(before + [e], debit)
         == Map(RespellFlow, Map(GuardedKey(ops), if op.Debit? == debit then legs + [op.entry] else legs))
  {
    hide PlanFlows, GuardedKey, RespellFlow, Map, OnSide, GuardedFlowOf;
    FlowsGrow(before, e, debit);
    KeysGrow(ops, legs, op.entry);
    NoMore(PlanFlows(before, debit));
  }

  lemma NoMore(flows: seq<GuardedFlow>)
    ensures flows + [] == flows
  {
  }

  /** What the last operation of a body adds to its effects and to its legs. */
  lemma BodyUnfolds(ops: seq<Op>, body: seq<Op>)
    requires body != []
    ensures var n := |body| - 1;
      var last, before := body[n], NormalizeBody(ops, body[..n]);
      && NormalizeBody(ops, body) ==
           (if last.Debit? then before + [NormalizeEntry(ops, "debit", last.entry)]
            else if last.Credit? then before + [NormalizeEntry(ops, "credit", last.entry)]
            else before)
      && DebitsOf(body) == (if last.Debit? then DebitsOf(body[..n]) + [last.entry] else DebitsOf(body[..n]))
      && CreditsOf(body) == (if last.Credit? then CreditsOf(body[..n]) + [last.entry] else CreditsOf(body[..n]))
  {
    hide NormalizeEntry;
    assert NormalizeBody(ops, body[..|body| - 1]) + [] == NormalizeBody(ops, body[..|body| - 1]);
    assert DebitsOf(body[..|body| - 1]) + [] == DebitsOf(body[..|body| - 1]);
    assert CreditsOf(body[..|body| - 1]) + [] == CreditsOf(body[..|body| - 1]);
  }

  lemma LastFlow(ops: seq<Op>, op: Op, attestations: seq<string>, e: PlanEffect)
    requires op.Debit? || op.Credit?
    requires BindEffect(NormalizeEntry(ops, if op.Debit? then "debit" else "credit", op.entry), attestations) == Ok(e)
    ensures GuardedFlowOf(e) == RespellFlow(GuardedKey(ops)(op.entry))
    ensures OnSide(true)(e) <==> op.Debit?
    ensures OnSide(false)(e) <==> op.Credit?
  {
    RespellIsSpecKey(ops, op.entry.amount);
    RespellIsSpecKey(ops, op.entry.currency);
  }

  lemma FlowsGrow(effects: seq<PlanEffect>, e: PlanEffect, debit: bool)
    ensures PlanFlows(effects + [e], debit)
         == PlanFlows(effects, debit) + if OnSide(debit)(e) then [GuardedFlowOf(e)] else []
  {
    FilterAppend(OnSide(debit), effects, [e]);
    MapAppend(GuardedFlowOf, Filter(OnSide(debit), effects), Filter(OnSide(debit), [e]));
  }

  lemma KeysGrow(ops: seq<Op>, legs: seq<Entry>, e: Entry)
    ensures Map(RespellFlow, Map(GuardedKey(ops), legs + [e]))
         == Map(RespellFlow, Map(GuardedKey(ops), legs)) + [RespellFlow(GuardedKey(ops)(e))]
  {
    MapAppend(GuardedKey(ops), legs, [e]);
    MapAppend(RespellFlow, Map(GuardedKey(ops), legs), [GuardedKey(ops)(e)]);
  }

  /** The flows the kernel verifier found balanced are balanced in the plan. */
  lemma VerifiedFlowsBalance(ops: seq<Op>, attestations: seq<string>)
    requires GuardBalanced(ops) && BindEffects(NormalizeBody(ops, ops), attestations).Ok?
    ensures var effects := BindEffects(NormalizeBody(ops, ops), attestations).value;
      multiset(PlanFlows(effects, true)) == multiset(PlanFlows(effects, false))
  {
    var effects := BindEffects(NormalizeBody(ops, ops), attestations).value;
    BindEffectsIsPointwise(NormalizeBody(ops, ops), attestations);
    NormalizedFlows(ops, ops, attestations, effects);
    MapIsOfBag(RespellFlow, Map(GuardedKey(ops), DebitsOf(ops)), Map(GuardedKey(ops), CreditsOf(ops)));
  }

  lemma BalancedGroupsPass(effects: seq<PlanEffect>, balanced: bool)
    requires multiset(PlanFlows(effects, true)) == multiset(PlanFlows(effects, false))
    requires GroupEffects(effects, balanced).Ok?
    ensures var groups := GroupEffects(effects, balanced).value;
      forall j :: 0 <= j < |groups| ==> GroupPasses(effects, groups[j])
  {
    var groups := GroupEffects(effects, balanced).value;
    GroupEffectsPartitions(effects, balanced);
    BalanceIsGroupwise(groups, effects);
    forall j | 0 <= j < |groups| ensures GroupPasses(effects, groups[j]) {
      assert Holds(groups[j], effects);
      assert GroupConserves(effects, groups[j].effectIndices);
    }
  }

  /** What the kernel verifier accepted, plan assembly never refuses as unbalanced. */
  lemma VerifiedBodyBalances(ops: seq<Op>, attestations: seq<string>, balanced: bool)
    requires GuardBalanced(ops)
    ensures Assemble(NormalizeBody(ops, ops), attestations, balanced) != Err(UnbalancedGroup)
  {
    var es := NormalizeBody(ops, ops);
    BindErrors(es, attestations);
    if BindEffects(es, attestations).Ok? {
      var effects := BindEffects(es, attestations).value;
      GroupErrors(effects, balanced);
      if GroupEffects(effects, balanced).Ok? {
        VerifiedFlowsBalance(ops, attestations);
        BalancedGroupsPass(effects, balanced);
      }
    }
  }

  /** Guards of the typed form are never refused as an inconsistent group, whatever their names hold. */
  lemma TypedGuardsGroup(es: seq<EffectInput>, attestations: seq<string>, balanced: bool)
    requires FaithfulInputs(es)
    ensures Assemble(es, attestations, balanced) != Err(InconsistentGroup)
  {
    BindErrors(es, attestations);
    if BindEffects(es, attestations).Ok? {
      FaithfulBindsOncePerKey(es, attestations);
      GroupingNeverInconsistent(BindEffects(es, attestations).value, balanced);
    }
  }

  lemma {:induction false} GroupErrors(effects: seq<PlanEffect>, balanced: bool)
    ensures GroupEffects(effects, balanced).Err? ==> GroupEffects(effects, balanced).error == InconsistentGroup
  {
    if effects != [] {
      GroupErrors(effects[..|effects| - 1], balanced);
    }
  }

  lemma {:induction false} BindErrors(es: seq<EffectInput>, attestations: seq<string>)
    ensures BindEffects(es, attestations).Err? ==> BindEffects(es, attestations).error == UndeclaredPolicy
  {
    if es != [] {
      BindErrors(es[1..], attestations);
    }
  }

  /** Assembly hands on the partition of its effects, each group balanced when the plan must balance. */
  lemma AssembledIsPartitioned(es: seq<EffectInput>, attestations: seq<string>, balanced: bool)
    requires Assemble(es, attestations, balanced).Ok?
    ensures var a := Assemble(es, attestations, balanced).value;
      && Partitions(a.groups, a.effects)
      && BindEffects(es, attestations) == Ok(a.effects)
      && (balanced ==> multiset(PlanFlows(a.effects, true)) == multiset(PlanFlows(a.effects, false)))
  {
    var a := Assemble(es, attestations, balanced).value;
    GroupEffectsPartitions(a.effects, balanced);
    MustBalanceIsUniform(a.effects, balanced);
    if balanced {
      forall j | 0 <= j < |a.groups| ensures GroupConserves(a.effects, a.groups[j].effectIndices) {
        assert Holds(a.groups[j], a.effects);
        assert GroupPasses(a.effects, a.groups[j]);
      }
      BalanceIsGroupwise(a.groups, a.effects);
    }
  }

  lemma {:induction false} MustBalanceIsUniform(effects: seq<PlanEffect>, balanced: bool)
    requires GroupEffects(effects, balanced).Ok?
    ensures var groups := GroupEffects(effects, balanced).value;
      forall j :: 0 <= j < |groups| ==> groups[j].mustBalance == balanced
  {
    if effects != [] {
      MustBalanceIsUniform(effects[..|effects| - 1], balanced);
    }
  }
}
