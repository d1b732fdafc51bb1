/**
 Exactly when a claim decides what is posted. Amounts and guards read numbers, which the claim
 fixes; parties and currencies read symbols, of which it fixes the declared inputs and the
 workflow key only.
 */
module ClaimedPostings {
  import opened Wrappers
  import opened Decimal
  import opened Expr
  import opened Bags
  import opened Plan
  import opened Evaluator
  import opened Postings
  import opened Payload

  // ---------------------------------------------------------------- two inputs under one claim

  /** The leg names the same party and the same currency under both sets of symbols. */
  predicate SameNames(e: PlanEffect, sa: map<string, string>, sb: map<string, string>) {
    ResolveSymbol(e.party, sa) == ResolveSymbol(e.party, sb)
      && ResolveSymbol(e.currency, sa) == ResolveSymbol(e.currency, sb)
  }

  /** Amounts that agree with a third environment agree with one another. */
  lemma SameAmount(id: string, names: set<string>, a: Env, b: Env, c: Env)
    requires SplitOperand(id).Ref? ==> SplitOperand(id).value in names
    requires Agree(names, a, c) && Agree(names, b, c)
    requires ResolveAmount(id, a).Ok? && ResolveAmount(id, b).Ok?
    ensures ResolveAmount(id, a) == ResolveAmount(id, b)
  {
    hide ParseI64;
  }

  lemma LegExactly(e: PlanEffect, names: set<string>, a: Env, b: Env, c: Env, sa: map<string, string>,
                   sb: map<string, string>)
    requires AmountClosed(e, names) && Agree(names, a, c) && Agree(names, b, c)
    requires ResolveLeg(e, a, sa).Ok? && ResolveLeg(e, b, sb).Ok?
    ensures ResolveLeg(e, a, sa) == ResolveLeg(e, b, sb) <==> SameNames(e, sa, sb)
  {
    SameAmount(e.amount, names, a, b, c);
    hide ResolveAmount, ResolveSymbol;
  }

  /** Legs that resolve under both inputs post alike exactly when each names the same party and currency. */
  lemma {:induction false} LegsExactly(legs: seq<PlanEffect>, names: set<string>, a: Env, b: Env, c: Env,
                                       sa: map<string, string>, sb: map<string, string>)
    requires forall e :: e in legs ==> AmountClosed(e, names)
    requires Agree(names, a, c) && Agree(names, b, c)
    requires AllResolve(legs, a, sa) && AllResolve(legs, b, sb)
    ensures LegPostings(legs, a, sa) == LegPostings(legs, b, sb) <==> forall e :: e in legs ==> SameNames(e, sa, sb)
  {
    if legs != [] {
      LegExactly(legs[0], names, a, b, c, sa, sb);
      hide ResolveLeg, SameNames, AmountClosed;
      LegsExactly(legs[1..], names, a, b, c, sa, sb);
      HeadAndRest(legs, a, b, sa, sb);
      assert forall e :: e in legs <==> e == legs[0] || e in legs[1..];
    }
  }

  lemma HeadAndRest(legs: seq<PlanEffect>, a: Env, b: Env, sa: map<string, string>, sb: map<string, string>)
    requires legs != [] && ResolveLeg(legs[0], a, sa).Ok? && ResolveLeg(legs[0], b, sb).Ok?
    ensures LegPostings(legs, a, sa) == LegPostings(legs, b, sb)
      <==> ResolveLeg(legs[0], a, sa) == ResolveLeg(legs[0], b, sb)
           && LegPostings(legs[1..], a, sa) == LegPostings(legs[1..], b, sb)
  {
    hide ResolveLeg;
    var p, q := ResolveLeg(legs[0], a, sa).value, ResolveLeg(legs[0], b, sb).value;
    var ps, qs := LegPostings(legs[1..], a, sa), LegPostings(legs[1..], b, sb);
    assert ([p] + ps)[0] == p && ([q] + qs)[0] == q && ([p] + ps)[1..] == ps && ([q] + qs)[1..] == qs;
  }

  /** The input makes a claim, its computes evaluate, and `legs` resolve under it. */
  ghost predicate Resolves(plan: CoordinationPlan, input: TransitionInput, legs: seq<PlanEffect>) {
    && ClaimOf(plan, input).Some?
    && FoldComputes(plan.computes, input.numeric, [AuthorizationObs(input.authorized)]).Folded?
    && AllResolve(legs, EnvOf(plan, input), input.symbols)
  }

  ghost function PostedBy(plan: CoordinationPlan, input: TransitionInput, legs: seq<PlanEffect>): seq<Posting> {
    LegPostings(legs, EnvOf(plan, input), input.symbols)
  }

  /**
   Under one claim, any legs of the plan that resolve for two inputs post alike if and only if the
   two inputs name the same party and the same currency on each of them.
   */
  lemma OneClaimPostsExactly(plan: CoordinationPlan, x: TransitionInput, y: TransitionInput, legs: seq<PlanEffect>)
    requires ValuesClosed(plan) && forall e :: e in legs ==> e in plan.effects
    requires Resolves(plan, x, legs) && Resolves(plan, y, legs) && ClaimOf(plan, x) == ClaimOf(plan, y)
    ensures PostedBy(plan, x, legs) == PostedBy(plan, y, legs)
       <==> forall e :: e in legs ==> SameNames(e, x.symbols, y.symbols)
  {
    ClaimFixesEnv(plan, x, [AuthorizationObs(x.authorized)]);
    ClaimFixesEnv(plan, y, [AuthorizationObs(y.authorized)]);
    var env := ClaimEnv(plan, ClaimOf(plan, x).value.payload);
    assert Agree(Scope(plan), EnvOf(plan, x), env) && Agree(Scope(plan), EnvOf(plan, y), env);
    hide EnvOf, ClaimEnv, Scope, SameNames, AmountClosed, GuardClosed;
    LegsExactly(legs, Scope(plan), EnvOf(plan, x), EnvOf(plan, y), env, x.symbols, y.symbols);
  }

  /** The single-shot path fires the same legs for both inputs, so the equivalence is about what it posts. */
  lemma OneClaimCommitsExactly(plan: CoordinationPlan, x: TransitionInput, y: TransitionInput)
    requires ValuesClosed(plan) && ClaimOf(plan, x) == ClaimOf(plan, y)
    requires GuardsDecide(plan.effects, EnvOf(plan, x)) && GuardsDecide(plan.effects, EnvOf(plan, y))
    requires Resolves(plan, x, Filter(FiresIn(EnvOf(plan, x)), plan.effects))
    requires Resolves(plan, y, Filter(FiresIn(EnvOf(plan, y)), plan.effects))
    ensures AtomicPostings(plan.effects, EnvOf(plan, x), x.symbols)
        == AtomicPostings(plan.effects, EnvOf(plan, y), y.symbols)
       <==> forall e :: e in plan.effects && Firing(e, EnvOf(plan, x)) ==> SameNames(e, x.symbols, y.symbols)
  {
    ClaimFixesEnv(plan, x, [AuthorizationObs(x.authorized)]);
    ClaimFixesEnv(plan, y, [AuthorizationObs(y.authorized)]);
    var env := ClaimEnv(plan, ClaimOf(plan, x).value.payload);
    var a, b := EnvOf(plan, x), EnvOf(plan, y);
    assert Agree(Scope(plan), a, env) && Agree(Scope(plan), b, env);
    hide EnvOf, ClaimEnv, Scope, SameNames, AmountClosed, GuardClosed, GuardsDecide, Firing, Resolves;
    FilterAgrees(plan.effects, Scope(plan), a, env);
    FilterAgrees(plan.effects, Scope(plan), b, env);
    OneClaimPostsExactly(plan, x, y, Filter(FiresIn(a), plan.effects));
    FiringLegs(plan.effects, a);
  }

  lemma {:induction false} FiringLegs(effects: seq<PlanEffect>, env: Env)
    ensures forall e :: e in Filter(FiresIn(env), effects) <==> e in effects && Firing(e, env)
  {
    if effects != [] {
      hide Firing;
      FiringLegs(effects[1..], env);
      FiresInMeans(effects[0], env);
      assert forall e :: e in effects <==> e == effects[0] || e in effects[1..];
    }
  }

  // ---------------------------------------------------------------- one input against all others

  /** The same input, reading `token` for one symbol. */
  function Reading(input: TransitionInput, name: string, token: string): TransitionInput {
    input.(symbols := input.symbols[name := token])
  }

  lemma {:induction false} PayloadOfReading(inputs: seq<PlanInput>, input: TransitionInput, name: string, token: string)
    requires forall i :: 0 <= i < |inputs| ==> inputs[i].name != name
    ensures TypedInputs(inputs, Reading(input, name, token)) == TypedInputs(inputs, input)
  {
    if inputs != [] {
      assert InputText(inputs[0], Reading(input, name, token)) == InputText(inputs[0], input);
      PayloadOfReading(inputs[1..], input, name, token);
    }
  }

  /** A symbol outside the claim changes neither the claim nor the environment. */
  lemma ReadingKeepsClaim(plan: CoordinationPlan, input: TransitionInput, name: string, token: string)
    requires name !in ClaimedNames(plan)
    ensures var other := Reading(input, name, token);
      ClaimOf(plan, other) == ClaimOf(plan, input) && EnvOf(plan, other) == EnvOf(plan, input)
  {
    var other := Reading(input, name, token);
    forall i | 0 <= i < |plan.inputs| ensures plan.inputs[i].name != name {
      assert plan.inputs[i].name in Declared(plan);
    }
    PayloadOfReading(plan.inputs, input, name, token);
    assert KeyValue(plan, other) == KeyValue(plan, input);
    SeedOfReading(plan.attestations, input, other,
                  if FoldComputes(plan.computes, input.numeric, [AuthorizationObs(input.authorized)]).Folded?
                  then FoldComputes(plan.computes, input.numeric, [AuthorizationObs(input.authorized)]).env else map[]);
    hide KeyValue, TypedInputs, FoldComputes, SeedAccepted;
  }

  lemma {:induction false} SeedOfReading(policies: seq<string>, x: TransitionInput, y: TransitionInput, env: Env)
    requires x.attestations == y.attestations
    ensures SeedAccepted(policies, x, env) == SeedAccepted(policies, y, env)
    decreases |policies|
  {
    if policies != [] {
      var bit: I64 := if PolicyAccepted(x, policies[0]) then 1 else 0;
      SeedOfReading(policies[1..], x, y, env[AcceptedKey(policies[0]) := bit]);
    }
  }

  lemma SymbolOfReading(id: string, symbols: map<string, string>, name: string, token: string)
    requires token != "" && ResolveSymbol(id, symbols).Ok?
    ensures ResolveSymbol(id, symbols[name := token])
         == if SplitOperand(id) == Ref(name) then Ok(token) else ResolveSymbol(id, symbols)
  {
  }

  lemma LegOfReading(e: PlanEffect, env: Env, symbols: map<string, string>, name: string, token: string)
    requires token != "" && ResolveLeg(e, env, symbols).Ok?
    ensures ResolveLeg(e, env, symbols[name := token]).Ok?
  {
    SymbolOfReading(e.party, symbols, name, token);
    SymbolOfReading(e.currency, symbols, name, token);
    hide ResolveAmount, ResolveSymbol;
  }

  lemma ReadingResolves(plan: CoordinationPlan, input: TransitionInput, legs: seq<PlanEffect>, name: string,
                        token: string)
    requires name !in ClaimedNames(plan) && token != "" && Resolves(plan, input, legs)
    ensures Resolves(plan, Reading(input, name, token), legs)
  {
    ReadingKeepsClaim(plan, input, name, token);
    hide EnvOf, ClaimOf, ResolveLeg;
    forall e | e in legs
      ensures KnownKind(e) && ResolveLeg(e, EnvOf(plan, input), Reading(input, name, token).symbols).Ok?
    {
      LegOfReading(e, EnvOf(plan, input), input.symbols, name, token);
    }
  }

  /** A name that some leg reads, outside the claim. */
  function UnclaimedName(e: PlanEffect, claimed: set<string>): string
    requires !NamesClaimed(e, claimed)
  {
    if !TokenIn(e.party, claimed) then SplitOperand(e.party).value else SplitOperand(e.currency).value
  }

  lemma OtherTokenDiffers(e: PlanEffect, claimed: set<string>, env: Env, symbols: map<string, string>)
    requires !NamesClaimed(e, claimed) && ResolveLeg(e, env, symbols).Ok?
    ensures var name := UnclaimedName(e, claimed);
      name in symbols && symbols[name] != "" && !SameNames(e, symbols, symbols[name := symbols[name] + "'"])
  {
    hide ResolveAmount;
  }

  ghost predicate PostsAlike(plan: CoordinationPlan, x: TransitionInput, y: TransitionInput, legs: seq<PlanEffect>) {
    Resolves(plan, y, legs) && ClaimOf(plan, y) == ClaimOf(plan, x) ==>
      PostedBy(plan, y, legs) == PostedBy(plan, x, legs)
  }

  /**
   The claim of an input decides what `legs` post, among all inputs that make the same claim, if
   and only if each of them names its party and its currency by a literal, a declared input or the
   workflow key.
   */
  lemma ClaimDecidesExactly(plan: CoordinationPlan, x: TransitionInput, legs: seq<PlanEffect>)
    requires ValuesClosed(plan) && Resolves(plan, x, legs) && forall e :: e in legs ==> e in plan.effects
    ensures (forall y :: PostsAlike(plan, x, y, legs))
       <==> forall e :: e in legs ==> NamesClaimed(e, ClaimedNames(plan))
  {
    if forall e :: e in legs ==> NamesClaimed(e, ClaimedNames(plan)) {
      forall y ensures PostsAlike(plan, x, y, legs) {
        if Resolves(plan, y, legs) && ClaimOf(plan, y) == ClaimOf(plan, x) {
          ClaimedNamesAgree(plan, x, y, legs);
          OneClaimPostsExactly(plan, x, y, legs);
        }
      }
    }
    if e :| e in legs && !NamesClaimed(e, ClaimedNames(plan)) {
      var name := UnclaimedName(e, ClaimedNames(plan));
      OtherTokenDiffers(e, ClaimedNames(plan), EnvOf(plan, x), x.symbols);
      hide ClaimedNames, NamesClaimed, EnvOf, SameNames, ValuesClosed, ResolveLeg;
      var y := Reading(x, name, x.symbols[name] + "'");
      UnclaimedIsOutside(e, ClaimedNames(plan));
      ReadingKeepsClaim(plan, x, name, x.symbols[name] + "'");
      ReadingResolves(plan, x, legs, name, x.symbols[name] + "'");
      OneClaimPostsExactly(plan, x, y, legs);
      assert !PostsAlike(plan, x, y, legs);
    }
  }

  lemma UnclaimedIsOutside(e: PlanEffect, claimed: set<string>)
    requires !NamesClaimed(e, claimed)
    ensures UnclaimedName(e, claimed) !in claimed
  {
  }

  lemma ClaimedNamesAgree(plan: CoordinationPlan, x: TransitionInput, y: TransitionInput, legs: seq<PlanEffect>)
    requires Resolves(plan, x, legs) && Resolves(plan, y, legs) && ClaimOf(plan, x) == ClaimOf(plan, y)
    requires forall e :: e in legs ==> NamesClaimed(e, ClaimedNames(plan))
    ensures forall e :: e in legs ==> SameNames(e, x.symbols, y.symbols)
  {
    TokensAgreeWithClaim(plan, x);
    TokensAgreeWithClaim(plan, y);
    forall e | e in legs ensures SameNames(e, x.symbols, y.symbols) {
      hide ResolveAmount, ClaimOf, ClaimTokens, ClaimedNames, EnvOf;
      assert ResolveLeg(e, EnvOf(plan, x), x.symbols).Ok? && ResolveLeg(e, EnvOf(plan, y), y.symbols).Ok?;
    }
  }
}
