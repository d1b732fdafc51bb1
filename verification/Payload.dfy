/**
 What a claim determines. The payload of a claim is text; read back, it gives every declared
 value, hence every compute, guard and posting of a plan that refers to nothing else.
 */
module Payload {
  import opened Wrappers
  import opened Decimal
  import opened Expr
  import opened Bags
  import opened Plan
  import opened Evaluator
  import opened Postings

  // ---------------------------------------------------------------- closed plans

  function Vars(n: ExprNode): set<string> {
    match n
    case Num(_, _) => {}
    case Var(name, _) => {name}
    case Bin(_, l, r, _) => Vars(l) + Vars(r)
    case Cmp(_, l, r, _) => Vars(l) + Vars(r)
    case Call(_, args, _) => VarsOfAll(args)
  }

  function VarsOfAll(args: seq<ExprNode>): set<string> {
    if args == [] then {} else Vars(args[0]) + VarsOfAll(args[1..])
  }

  function Declared(plan: CoordinationPlan): set<string> {
    set i | 0 <= i < |plan.inputs| :: plan.inputs[i].name
  }

  function ComputeNames(computes: seq<PlanCompute>): set<string> {
    set i | 0 <= i < |computes| :: computes[i].name
  }

  function Scope(plan: CoordinationPlan): set<string> {
    Declared(plan) + ComputeNames(plan.computes)
  }

  /** The names whose tokens a claim fixes: the declared inputs, and the workflow key itself. */
  function ClaimedNames(plan: CoordinationPlan): set<string> {
    Declared(plan) + {plan.workflowKey}
  }

  /** Each compute refers to declared inputs and earlier computes only. */
  predicate ComputesClosed(computes: seq<PlanCompute>, names: set<string>) {
    computes != [] ==>
      && (computes[0].expr.Some? ==> Vars(computes[0].expr.value) <= names)
      && ComputesClosed(computes[1..], names + {computes[0].name})
  }

  predicate GuardClosed(e: PlanEffect, scope: set<string>) {
    e.guard.Some? && e.guard.value.Cmp? ==> Vars(e.guard.value) <= scope
  }

  predicate AmountClosed(e: PlanEffect, scope: set<string>) {
    SplitOperand(e.amount).Ref? ==> SplitOperand(e.amount).value in scope
  }

  predicate TokenIn(id: string, names: set<string>) {
    SplitOperand(id).Ref? ==> SplitOperand(id).value in names
  }

  /** The party and the currency are literals or names that the claim fixes. */
  predicate NamesClaimed(e: PlanEffect, claimed: set<string>) {
    TokenIn(e.party, claimed) && TokenIn(e.currency, claimed)
  }

  predicate EffectClosed(e: PlanEffect, claimed: set<string>, scope: set<string>) {
    GuardClosed(e, scope) && AmountClosed(e, scope) && NamesClaimed(e, claimed)
  }

  /** Computes and guards refer to declared inputs and computes only, none of them named like a policy slot. */
  ghost predicate GuardsClosed(plan: CoordinationPlan) {
    && ComputesClosed(plan.computes, Declared(plan))
    && (forall e :: e in plan.effects ==> GuardClosed(e, Scope(plan)))
    && (forall p :: p in plan.attestations ==> AcceptedKey(p) !in Scope(plan))
  }

  /** So do amounts. */
  ghost predicate ValuesClosed(plan: CoordinationPlan) {
    GuardsClosed(plan) && forall e :: e in plan.effects ==> AmountClosed(e, Scope(plan))
  }

  /** A plan all of whose operands are fixed by a claim. */
  ghost predicate Closed(plan: CoordinationPlan) {
    ValuesClosed(plan) && forall e :: e in plan.effects ==> NamesClaimed(e, ClaimedNames(plan))
  }

  // ---------------------------------------------------------------- reading the payload back

  /** The numeric reading of every payload text that is a number. */
  function Numbers(payload: map<string, string>): Env {
    map x | x in payload && ParseI64(payload[x]).Some? :: ParseI64(payload[x]).value
  }

  /** The declared values and computes that a claim fixes. */
  function ClaimEnv(plan: CoordinationPlan, payload: map<string, string>): Env {
    var folded := FoldComputes(plan.computes, Numbers(payload), []);
    if folded.Folded? then folded.env else map[]
  }

  /** The environment in which an input's guards and operands are read. */
  function EnvOf(plan: CoordinationPlan, input: TransitionInput): Env {
    var folded := FoldComputes(plan.computes, input.numeric, [AuthorizationObs(input.authorized)]);
    if folded.Folded? then SeedAccepted(plan.attestations, input, folded.env) else map[]
  }

  /** The tokens that a claim fixes. */
  function ClaimTokens(plan: CoordinationPlan, claim: Claim): map<string, string> {
    claim.payload[plan.workflowKey := claim.key]
  }

  /** Whatever `a` knows about `names`, `b` knows too. */
  ghost predicate Agree(names: set<string>, a: Env, b: Env) {
    forall x :: x in names && x in a ==> x in b && b[x] == a[x]
  }

  ghost predicate TokensAgree(names: set<string>, a: map<string, string>, b: map<string, string>) {
    forall x :: x in names && x in a ==> x in b && b[x] == a[x]
  }

  lemma {:induction false} PayloadText(inputs: seq<PlanInput>, input: TransitionInput, i: nat)
    requires TypedInputs(inputs, input).Ok? && i < |inputs|
    ensures var x, payload := inputs[i].name, TypedInputs(inputs, input).value;
      && x in payload
      && (x in input.numeric ==> payload[x] == ToText(input.numeric[x]))
      && (x in input.symbols ==> payload[x] == input.symbols[x])
  {
    var text := InputText(inputs[0], input);
    if i > 0 {
      PayloadText(inputs[1..], input, i - 1);
    }
  }

  /** A claimed input agrees with its payload, in whichever map it was presented. */
  lemma PayloadAgrees(plan: CoordinationPlan, input: TransitionInput)
    requires TypedInputs(plan.inputs, input).Ok?
    ensures var payload := TypedInputs(plan.inputs, input).value;
      && Agree(Declared(plan), input.numeric, Numbers(payload))
      && TokensAgree(Declared(plan), input.symbols, payload)
  {
    var payload := TypedInputs(plan.inputs, input).value;
    forall x | x in Declared(plan)
      ensures x in payload
      ensures x in input.numeric ==>
          payload[x] == ToText(input.numeric[x]) && ParseI64(payload[x]) == Some(input.numeric[x])
      ensures x in input.symbols ==> payload[x] == input.symbols[x]
    {
      var i :| 0 <= i < |plan.inputs| && plan.inputs[i].name == x;
      PayloadText(plan.inputs, input, i);
      if x in input.numeric {
        TextParses(input.numeric[x]);
      }
    }
  }

  /** The symbols of an input agree with its claim, the workflow key included. */
  lemma TokensAgreeWithClaim(plan: CoordinationPlan, input: TransitionInput)
    requires ClaimOf(plan, input).Some?
    ensures TokensAgree(ClaimedNames(plan), input.symbols, ClaimTokens(plan, ClaimOf(plan, input).value))
  {
    PayloadAgrees(plan, input);
    hide TypedInputs, Declared;
  }

  // ---------------------------------------------------------------- evaluation under agreement

  lemma {:induction false} EvalAgrees(n: ExprNode, names: set<string>, a: Env, b: Env)
    requires Vars(n) <= names && Agree(names, a, b) && EvalExpr(n, a).Ok?
    ensures EvalExpr(n, b) == EvalExpr(n, a)
  {
    match n
    case Num(_, _) =>
    case Var(_, _) =>
    case Bin(_, l, r, _) =>
      EvalAgrees(l, names, a, b);
      EvalAgrees(r, names, a, b);
    case Cmp(_, _, _, _) =>
    case Call(_, args, _) =>
      EvalAgrees(args[0], names, a, b);
  }

  lemma ComparisonAgrees(n: ExprNode, names: set<string>, a: Env, b: Env)
    requires n.Cmp? && Vars(n) <= names && Agree(names, a, b) && EvalGuard(n, a).Ok?
    ensures EvalGuard(n, b) == EvalGuard(n, a)
  {
    EvalAgrees(n.lhs, names, a, b);
    EvalAgrees(n.rhs, names, a, b);
  }

  lemma {:induction false} FoldAgrees(computes: seq<PlanCompute>, names: set<string>, a: Env, b: Env, ta: seq<Obs>,
                                      tb: seq<Obs>)
    requires ComputesClosed(computes, names) && Agree(names, a, b)
    requires FoldComputes(computes, a, ta).Folded?
    ensures FoldComputes(computes, b, tb).Folded?
    ensures Agree(names + ComputeNames(computes), FoldComputes(computes, a, ta).env, FoldComputes(computes, b, tb).env)
    decreases |computes|
  {
    if computes != [] {
      var c := computes[0];
      EvalAgrees(c.expr.value, names, a, b);
      var v := EvalExpr(c.expr.value, a).value;
      FoldAgrees(computes[1..], names + {c.name}, a[c.name := v], b[c.name := v],
                 ta + [ComputeObs(c.name, v)], tb + [ComputeObs(c.name, v)]);
      assert names + ComputeNames(computes) == names + {c.name} + ComputeNames(computes[1..]) by {
        forall x ensures x in ComputeNames(computes) <==> x == c.name || x in ComputeNames(computes[1..]) {
          if x in ComputeNames(computes[1..]) {
            var i :| 0 <= i < |computes[1..]| && computes[1..][i].name == x;
            assert computes[i + 1].name == x;
          }
          if x in ComputeNames(computes) && x != c.name {
            var i :| 0 <= i < |computes| && computes[i].name == x;
            assert computes[1..][i - 1].name == x;
          }
        }
      }
    }
  }

  lemma {:induction false} SeedFrame(attestations: seq<string>, input: TransitionInput, env: Env, x: string)
    requires forall p :: p in attestations ==> AcceptedKey(p) != x
    ensures x in SeedAccepted(attestations, input, env) <==> x in env
    ensures x in env ==> SeedAccepted(attestations, input, env)[x] == env[x]
    decreases |attestations|
  {
    if attestations != [] {
      var bit: I64 := if PolicyAccepted(input, attestations[0]) then 1 else 0;
      assert attestations[0] in attestations;
      SeedFrame(attestations[1..], input, env[AcceptedKey(attestations[0]) := bit], x);
    }
  }

  /** The environment of an attempt agrees with the one its claim fixes. */
  lemma ClaimFixesEnv(plan: CoordinationPlan, input: TransitionInput, trace: seq<Obs>)
    requires GuardsClosed(plan) && TypedInputs(plan.inputs, input).Ok?
    requires FoldComputes(plan.computes, input.numeric, trace).Folded?
    ensures Agree(Scope(plan),
                  SeedAccepted(plan.attestations, input, FoldComputes(plan.computes, input.numeric, trace).env),
                  ClaimEnv(plan, TypedInputs(plan.inputs, input).value))
  {
    var payload := TypedInputs(plan.inputs, input).value;
    var folded := FoldComputes(plan.computes, input.numeric, trace).env;
    PayloadAgrees(plan, input);
    FoldAgrees(plan.computes, Declared(plan), input.numeric, Numbers(payload), trace, []);
    forall x | x in Scope(plan)
      ensures x in SeedAccepted(plan.attestations, input, folded) <==> x in folded
      ensures x in folded ==> SeedAccepted(plan.attestations, input, folded)[x] == folded[x]
    {
      SeedFrame(plan.attestations, input, folded, x);
    }
  }

  // ---------------------------------------------------------------- postings under agreement

  lemma LegAgrees(e: PlanEffect, claimed: set<string>, scope: set<string>,
                  a: Env, b: Env, sa: map<string, string>, sb: map<string, string>)
    requires EffectClosed(e, claimed, scope) && Agree(scope, a, b) && TokensAgree(claimed, sa, sb)
    requires ResolveLeg(e, a, sa).Ok?
    ensures ResolveLeg(e, b, sb) == ResolveLeg(e, a, sa)
  {
    assert ResolveAmount(e.amount, b) == ResolveAmount(e.amount, a);
    assert ResolveSymbol(e.party, sb) == ResolveSymbol(e.party, sa);
    assert ResolveSymbol(e.currency, sb) == ResolveSymbol(e.currency, sa);
  }

  ghost predicate AllClosed(effects: seq<PlanEffect>, claimed: set<string>, scope: set<string>) {
    forall e :: e in effects ==> EffectClosed(e, claimed, scope)
  }

  lemma {:induction false} LegsAgree(effects: seq<PlanEffect>, claimed: set<string>, scope: set<string>,
                                     a: Env, b: Env, sa: map<string, string>, sb: map<string, string>)
    requires AllClosed(effects, claimed, scope) && Agree(scope, a, b) && TokensAgree(claimed, sa, sb)
    requires AllResolve(effects, a, sa)
    ensures LegPostings(effects, b, sb) == LegPostings(effects, a, sa)
  {
    if effects != [] {
      LegAgrees(effects[0], claimed, scope, a, b, sa, sb);
      hide ResolveLeg, EffectClosed;
      LegsAgree(effects[1..], claimed, scope, a, b, sa, sb);
    }
  }

  /** Outside the accepted() guards, an effect's guard says the same in both environments. */
  lemma FiringAgrees(e: PlanEffect, scope: set<string>, a: Env, b: Env)
    requires GuardClosed(e, scope) && Agree(scope, a, b)
    requires e.guard.Some? ==> !IsAcceptedGuard(e.guard.value) && EvalGuard(e.guard.value, a).Ok?
    ensures Firing(e, a) <==> Firing(e, b)
  {
    if e.guard.Some? {
      assert e.guard.value.Cmp?;
      ComparisonAgrees(e.guard.value, scope, a, b);
    }
  }

  /** Every guard is a comparison that evaluates. */
  ghost predicate GuardsDecide(effects: seq<PlanEffect>, env: Env) {
    forall e :: e in effects && e.guard.Some? ==> !IsAcceptedGuard(e.guard.value) && EvalGuard(e.guard.value, env).Ok?
  }

  lemma {:induction false} FilterAgrees(effects: seq<PlanEffect>, scope: set<string>, a: Env, b: Env)
    requires (forall e :: e in effects ==> GuardClosed(e, scope)) && Agree(scope, a, b) && GuardsDecide(effects, a)
    ensures Filter(FiresIn(a), effects) == Filter(FiresIn(b), effects)
    ensures forall e :: e in Filter(FiresIn(a), effects) ==> e in effects
  {
    if effects != [] {
      FiringAgrees(effects[0], scope, a, b);
      hide GuardClosed, EvalGuard, Firing;
      assert FiresIn(a)(effects[0]) == Firing(effects[0], a) && FiresIn(b)(effects[0]) == Firing(effects[0], b) by {
        FiresInMeans(effects[0], a);
        FiresInMeans(effects[0], b);
      }
      FilterAgrees(effects[1..], scope, a, b);
    }
  }

  lemma FiresInMeans(e: PlanEffect, env: Env)
    ensures FiresIn(env)(e) == Firing(e, env)
  {
  }

  lemma AtomicAgrees(effects: seq<PlanEffect>, claimed: set<string>, scope: set<string>,
                     a: Env, b: Env, sa: map<string, string>, sb: map<string, string>)
    requires AllClosed(effects, claimed, scope) && Agree(scope, a, b) && TokensAgree(claimed, sa, sb)
    requires GuardsDecide(effects, a) && AllResolve(Filter(FiresIn(a), effects), a, sa)
    ensures AtomicPostings(effects, b, sb) == AtomicPostings(effects, a, sa)
  {
    FilterAgrees(effects, scope, a, b);
    LegsAgree(Filter(FiresIn(a), effects), claimed, scope, a, b, sa, sb);
  }
}
