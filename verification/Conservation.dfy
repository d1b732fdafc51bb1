/**
 Value conservation of the evaluator: when the plan's guard-tagged flows balance, and in a
 single-shot plan the effects that fire balance too, no transition changes the total of any currency.
 */
module Conservation {
  import opened Wrappers
  import opened Decimal
  import opened Expr
  import opened Bags
  import opened SetSums
  import opened GuardedBalance
  import opened Plan
  import opened Evaluator
  import opened Postings
  import opened Payload

  function InCurrency(t: string): Posting -> int {
    (p: Posting) => if p.account.currency == t then p.delta else 0
  }

  /** The net change of currency `t` over some postings. */
  function NetIn(postings: seq<Posting>, t: string): int {
    Sum(InCurrency(t), postings)
  }

  ghost function BalanceIn(balances: map<Account, I64>, t: string): Account -> int {
    (a: Account) => if a.currency == t then Balance(balances, a) as int else 0
  }

  /** The total of currency `t` over all accounts. */
  ghost function TotalIn(balances: map<Account, I64>, t: string): int {
    SumOver(balances.Keys, BalanceIn(balances, t))
  }

  // ---------------------------------------------------------------- postings move the total by their net

  ghost function NetOnIn(postings: seq<Posting>, t: string): Account -> int {
    (a: Account) => if a.currency == t then NetOn(postings, a) else 0
  }

  ghost function OneOn(p: Posting, t: string): Account -> int {
    (a: Account) => if a.currency == t && p.account == a then p.delta else 0
  }

  lemma OneSums(s: set<Account>, p: Posting, t: string)
    requires p.account in s
    ensures SumOver(s, OneOn(p, t)) == InCurrency(t)(p)
  {
    SumRemove(s, OneOn(p, t), p.account);
    SumZero(s - {p.account}, OneOn(p, t));
  }

  /** Summing net changes account by account gives the net change of the currency. */
  lemma {:induction false} AccountsSum(s: set<Account>, postings: seq<Posting>, t: string)
    requires Accounts(postings) <= s
    ensures SumOver(s, NetOnIn(postings, t)) == NetIn(postings, t)
  {
    if postings == [] {
      SumZero(s, NetOnIn(postings, t));
    } else {
      var p, rest := postings[0], postings[1..];
      assert p.account in Accounts(postings);
      assert Accounts(rest) <= s by {
        forall a | a in Accounts(rest) ensures a in Accounts(postings) {
          var i :| 0 <= i < |rest| && rest[i].account == a;
          assert postings[i + 1].account == a;
        }
      }
      AccountsSum(s, rest, t);
      OneSums(s, p, t);
      SumPlus(s, OneOn(p, t), NetOnIn(rest, t), NetOnIn(postings, t));
    }
  }

  lemma TotalOverWider(balances: map<Account, I64>, s: set<Account>, t: string)
    requires balances.Keys <= s
    ensures TotalIn(balances, t) == SumOver(s, BalanceIn(balances, t))
  {
    SumWiden(balances.Keys, s, BalanceIn(balances, t));
  }

  lemma AddsTotal(before: map<Account, I64>, postings: seq<Posting>, after: map<Account, I64>, t: string)
    requires Adds(before, postings, after)
    ensures TotalIn(after, t) == TotalIn(before, t) + NetIn(postings, t)
  {
    var s := before.Keys + after.Keys + Accounts(postings);
    TotalOverWider(before, s, t);
    TotalOverWider(after, s, t);
    AccountsSum(s, postings, t);
    SumPlus(s, BalanceIn(before, t), NetOnIn(postings, t), BalanceIn(after, t));
  }

  // ---------------------------------------------------------------- balanced legs net to nothing

  /** What a flow is worth in currency `t` under an environment. */
  ghost function Worth(env: Env, symbols: map<string, string>, t: string): Flow -> int {
    (f: Flow) =>
      if ResolveSymbol(f.1, symbols) == Ok(t) && ResolveAmount(f.0, env).Ok?
      then ResolveAmount(f.0, env).value as int else 0
  }

  lemma LegNet(e: PlanEffect, env: Env, symbols: map<string, string>, t: string)
    requires KnownKind(e) && ResolveLeg(e, env, symbols).Ok?
    ensures InCurrency(t)(ResolveLeg(e, env, symbols).value)
         == if OnSide(true)(e) then -Worth(env, symbols, t)(FlowOf(e)) else Worth(env, symbols, t)(FlowOf(e))
  {
  }

  /** The net of resolved legs is what the credits are worth less what the debits are worth. */
  lemma {:induction false} LegsNet(effects: seq<PlanEffect>, env: Env, symbols: map<string, string>, t: string)
    requires AllResolve(effects, env, symbols)
    ensures NetIn(LegPostings(effects, env, symbols), t)
         == Sum(Worth(env, symbols, t), Map(FlowOf, Filter(OnSide(false), effects)))
          - Sum(Worth(env, symbols, t), Map(FlowOf, Filter(OnSide(true), effects)))
  {
    if effects != [] {
      var e, p := effects[0], ResolveLeg(effects[0], env, symbols).value;
      LegNet(e, env, symbols, t);
      LegTaken(effects, env, symbols, []);
      LegsNet(effects[1..], env, symbols, t);
      FlowsUnfold(effects, env, symbols, t, true);
      FlowsUnfold(effects, env, symbols, t, false);
      assert OnSide(false)(e) == !OnSide(true)(e);
      hide ResolveLeg, LegPostings, KnownKind;
      var rest := LegPostings(effects[1..], env, symbols);
      assert ([p] + rest)[0] == p && ([p] + rest)[1..] == rest;
    }
  }

  lemma FlowsUnfold(effects: seq<PlanEffect>, env: Env, symbols: map<string, string>, t: string, debit: bool)
    requires effects != []
    ensures Sum(Worth(env, symbols, t), Map(FlowOf, Filter(OnSide(debit), effects)))
         == (if OnSide(debit)(effects[0]) then Worth(env, symbols, t)(FlowOf(effects[0])) else 0)
          + Sum(Worth(env, symbols, t), Map(FlowOf, Filter(OnSide(debit), effects[1..])))
  {
    var w, head := Worth(env, symbols, t), if OnSide(debit)(effects[0]) then [effects[0]] else [];
    hide Worth, OnSide;
    assert Filter(OnSide(debit), effects) == head + Filter(OnSide(debit), effects[1..]);
    MapAppend(FlowOf, head, Filter(OnSide(debit), effects[1..]));
    SumAppend(w, Map(FlowOf, head), Map(FlowOf, Filter(OnSide(debit), effects[1..])));
    if head != [] {
      assert Map(FlowOf, head) == [FlowOf(effects[0])];
      assert Sum(w, [FlowOf(effects[0])]) == w(FlowOf(effects[0])) + Sum(w, [FlowOf(effects[0])][1..]);
    }
  }

  /** Legs whose debit and credit flows agree as multisets net to nothing in every currency. */
  lemma BalancedLegsNetZero(effects: seq<PlanEffect>, env: Env, symbols: map<string, string>, t: string)
    requires AllResolve(effects, env, symbols)
    requires multiset(Map(FlowOf, Filter(OnSide(true), effects)))
        == multiset(Map(FlowOf, Filter(OnSide(false), effects)))
    ensures NetIn(LegPostings(effects, env, symbols), t) == 0
  {
    LegsNet(effects, env, symbols, t);
    SumIsOfBag(Worth(env, symbols, t), Map(FlowOf, Filter(OnSide(true), effects)),
               Map(FlowOf, Filter(OnSide(false), effects)));
  }

  // ---------------------------------------------------------------- the firing legs of a balanced plan

  ghost predicate FlowsBalance(effects: seq<PlanEffect>) {
    multiset(PlanFlows(effects, true)) == multiset(PlanFlows(effects, false))
  }

  /** What one side of the effects whose guards hold moves. */
  ghost function FiringSide(effects: seq<PlanEffect>, env: Env, debit: bool): seq<Flow> {
    Map(FlowOf, Filter(OnSide(debit), Filter(FiresIn(env), effects)))
  }

  /** The effects whose guards hold in `env` balance by themselves. */
  ghost predicate FiringBalanced(effects: seq<PlanEffect>, env: Env) {
    multiset(FiringSide(effects, env, true)) == multiset(FiringSide(effects, env, false))
  }

  lemma FiringLegsNetZero(effects: seq<PlanEffect>, env: Env, symbols: map<string, string>, t: string)
    requires FiringBalanced(effects, env) && AllResolve(Filter(FiresIn(env), effects), env, symbols)
    ensures NetIn(AtomicPostings(effects, env, symbols), t) == 0
  {
    BalancedLegsNetZero(Filter(FiresIn(env), effects), env, symbols, t);
  }

  /** Effects filed under one key have guards of one structure. */
  ghost predicate OneStructure(effects: seq<PlanEffect>) {
    forall a, b :: a in effects && b in effects && a.guardKey == b.guardKey ==> SameStructure(a.guard, b.guard)
  }

  /** Effects filed under one key fire together in `env`. */
  ghost predicate FireAlike(effects: seq<PlanEffect>, env: Env) {
    forall a, b :: a in effects && b in effects && a.guardKey == b.guardKey ==> (Firing(a, env) <==> Firing(b, env))
  }

  lemma OneStructureFires(effects: seq<PlanEffect>, env: Env)
    requires OneStructure(effects)
    ensures FireAlike(effects, env)
  {
    hide EvalGuard, SameShape;
    forall a, b | a in effects && b in effects && a.guardKey == b.guardKey ensures Firing(a, env) <==> Firing(b, env) {
      assert SameStructure(a.guard, b.guard);
      if a.guard.Some? {
        SameShapeSameTruth(a.guard.value, b.guard.value, env);
      }
    }
  }

  ghost function KeyFires(effects: seq<PlanEffect>, env: Env): GuardedFlow -> bool {
    (k: GuardedFlow) => exists e :: e in effects && e.guardKey == k.0 && Firing(e, env)
  }

  lemma {:induction false} FilterSubset<A>(p: A -> bool, s: seq<A>)
    ensures forall x :: x in Filter(p, s) ==> x in s
  {
    if s != [] {
      FilterSubset(p, s[1..]);
    }
  }

  /** One side's firing flows are the plan's flows with a firing key. */
  lemma FiringFlows(effects: seq<PlanEffect>, env: Env, debit: bool)
    requires FireAlike(effects, env)
    ensures FiringSide(effects, env, debit) == Map(Unguard, Filter(KeyFires(effects, env), PlanFlows(effects, debit)))
  {
    var side := Filter(OnSide(debit), effects);
    FilterSubset(OnSide(debit), effects);
    forall e | e in side ensures KeyFires(effects, env)(GuardedFlowOf(e)) <==> FiresIn(env)(e) {
      hide Firing;
      assert e in effects && e.guardKey == GuardedFlowOf(e).0;
    }
    hide KeyFires, FiresIn, Firing, OnSide, Filter, Map;
    FiltersCommute(OnSide(debit), FiresIn(env), effects);
    FilterOfMap(GuardedFlowOf, FiresIn(env), KeyFires(effects, env), side);
    MapOfMap(GuardedFlowOf, Unguard, FlowOf, Filter(FiresIn(env), side));
  }

  /** Balanced guard-tagged flows leave the firing legs balanced wherever effects of one key fire together. */
  lemma AlikeKeysFireBalanced(effects: seq<PlanEffect>, env: Env)
    requires FlowsBalance(effects) && FireAlike(effects, env)
    ensures FiringBalanced(effects, env)
  {
    FiringFlows(effects, env, true);
    FiringFlows(effects, env, false);
    var p := KeyFires(effects, env);
    hide KeyFires, FireAlike, PlanFlows, FiringSide;
    FilterIsOfBag(p, PlanFlows(effects, true), PlanFlows(effects, false));
    MapIsOfBag(Unguard, Filter(p, PlanFlows(effects, true)), Filter(p, PlanFlows(effects, false)));
  }

  lemma {:induction false} GroupsNetZero(plan: CoordinationPlan, groups: seq<EffectGroup>, env: Env,
                                         symbols: map<string, string>, soFar: set<string>, t: string)
    requires Indexed(plan, groups) && CommittableResolve(plan, groups, env, symbols, soFar)
    requires forall j :: 0 <= j < |groups| ==> GroupConserves(plan.effects, groups[j].effectIndices)
    ensures NetIn(GroupPostings(plan, groups, env, symbols, soFar), t) == 0
  {
    if groups != [] {
      hide LegPostings, Committable, GroupConserves, AllResolve, Select;
      GroupsNetZero(plan, groups[1..], env, symbols, soFar, t);
      if Committable(plan, groups[0], env, soFar) {
        var legs := Select(plan.effects, groups[0].effectIndices);
        assert GroupConserves(plan.effects, groups[0].effectIndices);
        GroupBalance(plan.effects, groups[0].effectIndices);
        BalancedLegsNetZero(legs, env, symbols, t);
        SumAppend(InCurrency(t), LegPostings(legs, env, symbols),
                  GroupPostings(plan, groups[1..], env, symbols, soFar));
      } else {
        GroupSkipped(plan, groups, env, symbols, soFar);
      }
    }
  }

  lemma GroupBalance(effects: seq<PlanEffect>, indices: seq<nat>)
    requires InRange(effects, indices) && GroupConserves(effects, indices)
    ensures multiset(Map(FlowOf, Filter(OnSide(true), Select(effects, indices))))
         == multiset(Map(FlowOf, Filter(OnSide(false), Select(effects, indices))))
  {
  }

  // ---------------------------------------------------------------- transitions and runs

  /** A plan as assembly hands it over: partitioned by guard key and balanced under each key. */
  ghost predicate BalancedPlan(plan: CoordinationPlan) {
    FlowsBalance(plan.effects) && Partitions(plan.effectGroups, plan.effects)
  }

  /**
   What a balanced plan needs beside its balance to conserve value on an input. The temporal path
   reads one guard for each group and needs nothing; the single-shot path reads the guard of each
   effect, and the effects it fires must balance by themselves.
   */
  ghost predicate ConservesOn(plan: CoordinationPlan, input: TransitionInput) {
    IsTemporal(plan) || FiringBalanced(plan.effects, EnvOf(plan, input))
  }

  /** A single-shot plan conserves on every input if the key of each group fixes the structure of its guards. */
  lemma OneStructureConserves(plan: CoordinationPlan, input: TransitionInput)
    requires FlowsBalance(plan.effects) && OneStructure(plan.effects)
    ensures ConservesOn(plan, input)
  {
    hide *;
    OneStructureFires(plan.effects, EnvOf(plan, input));
    AlikeKeysFireBalanced(plan.effects, EnvOf(plan, input));
    FiringConserves(plan, input);
  }

  lemma FiringConserves(plan: CoordinationPlan, input: TransitionInput)
    requires FiringBalanced(plan.effects, EnvOf(plan, input))
    ensures ConservesOn(plan, input)
  {
  }

  lemma PartitionIsIndexed(plan: CoordinationPlan)
    requires Partitions(plan.effectGroups, plan.effects)
    ensures WellIndexed(plan) && Indexed(plan, plan.effectGroups)
  {
    forall j | 0 <= j < |plan.effectGroups|
      ensures plan.effectGroups[j].firstIndex < |plan.effects|
          && InRange(plan.effects, plan.effectGroups[j].effectIndices)
    {
      var g := plan.effectGroups[j];
      assert Holds(g, plan.effects);
      assert g.effectIndices[0] < |plan.effects|;
    }
  }

  /** The balances of a transition: untouched, or the staged postings of its path added up. */
  lemma TemporalBalances(plan: CoordinationPlan, s: EvalState, input: TransitionInput, key: string, claim: Claim,
                         env: Env, trace: seq<Obs>)
    requires WellIndexed(plan)
    ensures var r := TemporalPath(plan, s, input, key, claim, env, trace);
      || r.next == s
      || (&& CommittableResolve(plan, plan.effectGroups, env, input.symbols, CommittedSoFar(s, key))
          && Adds(s.balances, GroupPostings(plan, plan.effectGroups, env, input.symbols, CommittedSoFar(s, key)),
                  r.next.balances))
  {
    var r, soFar := TemporalPath(plan, s, input, key, claim, env, trace), CommittedSoFar(s, key);
    hide *;
    TemporalIsStaged(plan, s, input, key, claim, env, trace);
    if r.next != s {
      StageGroupsAdds(plan, plan.effectGroups, env, input.symbols, soFar, Evaluator.Staging(s.balances, [], trace));
    }
  }

  /** A temporal transition that moves the state hands over the balances it staged. */
  lemma TemporalIsStaged(plan: CoordinationPlan, s: EvalState, input: TransitionInput, key: string, claim: Claim,
                         env: Env, trace: seq<Obs>)
    requires WellIndexed(plan)
    ensures var r := TemporalPath(plan, s, input, key, claim, env, trace);
      var st0 := Evaluator.Staging(s.balances, [], trace);
      var staged := StageGroups(plan, plan.effectGroups, env, input.symbols, CommittedSoFar(s, key), st0);
      r.next != s ==> staged.Staged? && r.next.balances == staged.st.balances
  {
    hide StageGroups, RequiredKeys, CommittingKeys, GroupFault, LedgerValid, WellIndexed, DeltaObs, EventObs';
  }

  lemma AtomicBalances(plan: CoordinationPlan, s: EvalState, input: TransitionInput, key: string, claim: Claim,
                       env: Env, trace: seq<Obs>)
    ensures var r := AtomicPath(plan, s, input, key, claim, env, trace);
      if r.outcome == Terminal then
        && AllResolve(Filter(FiresIn(env), plan.effects), env, input.symbols)
        && Adds(s.balances, AtomicPostings(plan.effects, env, input.symbols), r.next.balances)
      else r.next == s
  {
    var r := AtomicPath(plan, s, input, key, claim, env, trace);
    if r.outcome == Terminal {
      hide StageAtomic, Adds, AllResolve, AtomicPostings;
      StageAtomicAdds(plan.effects, env, input, Evaluator.Staging(s.balances, [], trace));
    }
  }

  lemma TemporalConserves(plan: CoordinationPlan, s: EvalState, input: TransitionInput, key: string, claim: Claim,
                          env: Env, trace: seq<Obs>, t: string)
    requires BalancedPlan(plan) && WellIndexed(plan)
    ensures TotalIn(TemporalPath(plan, s, input, key, claim, env, trace).next.balances, t) == TotalIn(s.balances, t)
  {
    hide *;
    var r, soFar := TemporalPath(plan, s, input, key, claim, env, trace), CommittedSoFar(s, key);
    GroupsConserve(plan);
    TemporalBalances(plan, s, input, key, claim, env, trace);
    if r.next != s {
      GroupsNetZero(plan, plan.effectGroups, env, input.symbols, soFar, t);
      AddsTotal(s.balances, GroupPostings(plan, plan.effectGroups, env, input.symbols, soFar), r.next.balances, t);
    }
  }

  lemma GroupsConserve(plan: CoordinationPlan)
    requires BalancedPlan(plan)
    ensures Indexed(plan, plan.effectGroups)
    ensures forall j :: 0 <= j < |plan.effectGroups| ==>
      InRange(plan.effects, plan.effectGroups[j].effectIndices)
        && GroupConserves(plan.effects, plan.effectGroups[j].effectIndices)
  {
    PartitionIsIndexed(plan);
    hide Partitions, GroupConserves;
    BalanceIsGroupwise(plan.effectGroups, plan.effects);
  }

  lemma AtomicConserves(plan: CoordinationPlan, s: EvalState, input: TransitionInput, key: string, claim: Claim,
                        env: Env, trace: seq<Obs>, t: string)
    requires FiringBalanced(plan.effects, env)
    ensures TotalIn(AtomicPath(plan, s, input, key, claim, env, trace).next.balances, t) == TotalIn(s.balances, t)
  {
    AtomicBalances(plan, s, input, key, claim, env, trace);
    hide AtomicPath, AllResolve, AtomicPostings, Adds, TotalIn, FiringBalanced;
    var r := AtomicPath(plan, s, input, key, claim, env, trace);
    if r.next != s {
      FiringLegsNetZero(plan.effects, env, input.symbols, t);
      AddsTotal(s.balances, AtomicPostings(plan.effects, env, input.symbols), r.next.balances, t);
    }
  }

  lemma AtomicMoves(plan: CoordinationPlan, s: EvalState, input: TransitionInput, key: string, claim: Claim,
                    env: Env, trace: seq<Obs>, t: string)
    ensures var r := AtomicPath(plan, s, input, key, claim, env, trace);
      TotalIn(r.next.balances, t) == TotalIn(s.balances, t)
          + if r.outcome == Terminal then NetIn(AtomicPostings(plan.effects, env, input.symbols), t) else 0
  {
    AtomicBalances(plan, s, input, key, claim, env, trace);
    hide AtomicPath, AllResolve, AtomicPostings, Adds, TotalIn, NetIn;
    var r := AtomicPath(plan, s, input, key, claim, env, trace);
    if r.outcome == Terminal {
      AddsTotal(s.balances, AtomicPostings(plan.effects, env, input.symbols), r.next.balances, t);
    }
  }

  lemma EvidenceMovesNothing(plan: CoordinationPlan, s: EvalState, input: TransitionInput, key: string, claim: Claim,
                             trace: seq<Obs>, env: Env, t: string)
    requires IsEvidenceOnly(plan)
    ensures EvidencePath(plan, s, input, key, claim, trace).next.balances == s.balances
    ensures NetIn(AtomicPostings(plan.effects, env, input.symbols), t) == 0
  {
    hide EvidenceFault, EvidenceObs;
  }

  /**
   What any plan without accepted() guards does to a total, balanced or not: a transition that closes
   its key adds the net of the legs whose guards hold, and any other adds nothing. So a single-shot
   transition conserves exactly when it does not close or its firing legs net to nothing.
   */
  lemma SingleShotMoves(plan: CoordinationPlan, s: EvalState, input: TransitionInput, t: string)
    requires WellIndexed(plan) && !IsTemporal(plan)
    ensures var r := EvaluateTransition(plan, s, input);
      TotalIn(r.next.balances, t) == TotalIn(s.balances, t)
          + if r.outcome == Terminal then NetIn(AtomicPostings(plan.effects, EnvOf(plan, input), input.symbols), t)
            else 0
  {
    var trace := [AuthorizationObs(input.authorized)];
    var key, typed := KeyValue(plan, input), TypedInputs(plan.inputs, input);
    hide KeyValue, TypedInputs, TotalIn, NetIn, SeedAccepted, FoldComputes, EvidencePath, AtomicPath, AtomicPostings,
         IsTemporal, IsEvidenceOnly, WellIndexed;
    if input.authorized && key != "" && typed.Ok? {
      var claim := Claim(plan, key, typed.value);
      var folded := FoldComputes(plan.computes, input.numeric, trace);
      if folded.Folded? {
        var env := SeedAccepted(plan.attestations, input, folded.env);
        if IsEvidenceOnly(plan) {
          EvidenceMovesNothing(plan, s, input, key, claim, folded.trace, env, t);
        } else {
          AtomicMoves(plan, s, input, key, claim, env, folded.trace, t);
        }
      }
    }
  }

  /** One transition of a balanced plan that conserves on its input changes no currency's total, from any state. */
  lemma TransitionConserves(plan: CoordinationPlan, s: EvalState, input: TransitionInput, t: string)
    requires BalancedPlan(plan) && WellIndexed(plan) && ConservesOn(plan, input)
    ensures TotalIn(EvaluateTransition(plan, s, input).next.balances, t) == TotalIn(s.balances, t)
  {
    var trace := [AuthorizationObs(input.authorized)];
    var key, typed := KeyValue(plan, input), TypedInputs(plan.inputs, input);
    hide KeyValue, TypedInputs, TotalIn, BalancedPlan, SeedAccepted, FoldComputes, TemporalPath, AtomicPath, IsTemporal,
         FiringBalanced, WellIndexed;
    if input.authorized && key != "" && typed.Ok? {
      var claim := Claim(plan, key, typed.value);
      var folded := FoldComputes(plan.computes, input.numeric, trace);
      if folded.Folded? {
        var env := SeedAccepted(plan.attestations, input, folded.env);
        if IsTemporal(plan) {
          TemporalConserves(plan, s, input, key, claim, env, folded.trace, t);
        } else {
          AtomicConserves(plan, s, input, key, claim, env, folded.trace, t);
        }
      }
    }
  }

  /** The state after a run of transitions. */
  function RunFrom(plan: CoordinationPlan, s: EvalState, inputs: seq<TransitionInput>): EvalState
    requires WellIndexed(plan)
  {
    if inputs == [] then s
    else EvaluateTransition(plan, RunFrom(plan, s, inputs[..|inputs| - 1]), inputs[|inputs| - 1]).next
  }

  /** Along every run of inputs on which a balanced plan conserves, each currency's total stays what it was. */
  lemma {:induction false} RunConserves(plan: CoordinationPlan, s: EvalState, inputs: seq<TransitionInput>, t: string)
    requires BalancedPlan(plan) && WellIndexed(plan)
    requires forall i :: 0 <= i < |inputs| ==> ConservesOn(plan, inputs[i])
    ensures TotalIn(RunFrom(plan, s, inputs).balances, t) == TotalIn(s.balances, t)
  {
    if inputs != [] {
      hide EvaluateTransition, TotalIn, BalancedPlan, ConservesOn, WellIndexed;
      RunConserves(plan, s, inputs[..|inputs| - 1], t);
      TransitionConserves(plan, RunFrom(plan, s, inputs[..|inputs| - 1]), inputs[|inputs| - 1], t);
    }
  }
}
