/** The accounts a claim can touch: one for each effect, fixed by its tokens. */
module ClaimAccounts {
  import opened Wrappers
  import opened Expr
  import opened Bags
  import opened Plan
  import opened Evaluator
  import opened Postings
  import opened Payload
  import opened Ledger
  import Conservation

  /** The account that an effect moves under some tokens. */
  function LegAccount(e: PlanEffect, tokens: map<string, string>): Option<Account> {
    var party, currency := ResolveSymbol(e.party, tokens), ResolveSymbol(e.currency, tokens);
    if party.Ok? && currency.Ok? then Some(Account(e.ledger, party.value, currency.value)) else None
  }

  function AccountsOf(effects: seq<PlanEffect>, tokens: map<string, string>): set<Account> {
    if effects == [] then {}
    else
      var a := LegAccount(effects[0], tokens);
      (if a.Some? then {a.value} else {}) + AccountsOf(effects[1..], tokens)
  }

  lemma {:induction false} AccountsCount(effects: seq<PlanEffect>, tokens: map<string, string>)
    ensures |AccountsOf(effects, tokens)| <= |effects|
  {
    if effects != [] {
      hide LegAccount;
      AccountsCount(effects[1..], tokens);
      var a, rest := LegAccount(effects[0], tokens), AccountsOf(effects[1..], tokens);
      assert a.Some? ==> |{a.value} + rest| <= 1 + |rest|;
      assert {} + rest == rest;
    }
  }

  lemma {:induction false} EachIsAccounted(effects: seq<PlanEffect>, tokens: map<string, string>, e: PlanEffect)
    requires e in effects && LegAccount(e, tokens).Some?
    ensures LegAccount(e, tokens).value in AccountsOf(effects, tokens)
  {
    hide LegAccount;
    if e != effects[0] {
      EachIsAccounted(effects[1..], tokens, e);
    }
  }

  lemma LegIsAccounted(plan: CoordinationPlan, e: PlanEffect, env: Env, symbols: map<string, string>,
                       tokens: map<string, string>)
    requires Closed(plan) && TokensAgree(ClaimedNames(plan), symbols, tokens)
    requires e in plan.effects && ResolveLeg(e, env, symbols).Ok?
    ensures ResolveLeg(e, env, symbols).value.account in AccountsOf(plan.effects, tokens)
  {
    assert NamesClaimed(e, ClaimedNames(plan));
    assert ResolveSymbol(e.party, tokens) == ResolveSymbol(e.party, symbols);
    assert ResolveSymbol(e.currency, tokens) == ResolveSymbol(e.currency, symbols);
    assert LegAccount(e, tokens) == Some(ResolveLeg(e, env, symbols).value.account);
    EachIsAccounted(plan.effects, tokens, e);
  }

  lemma {:induction false} LegsAreAccounted(plan: CoordinationPlan, effects: seq<PlanEffect>, env: Env,
                                            symbols: map<string, string>, tokens: map<string, string>)
    requires Closed(plan) && TokensAgree(ClaimedNames(plan), symbols, tokens)
    requires forall e :: e in effects ==> e in plan.effects
    ensures Accounts(LegPostings(effects, env, symbols)) <= AccountsOf(plan.effects, tokens)
  {
    if effects != [] {
      hide Closed, ClaimedNames, TokensAgree, ResolveLeg, AccountsOf, Accounts, LegPostings;
      LegsAreAccounted(plan, effects[1..], env, symbols, tokens);
      FirstLeg(effects, env, symbols);
      if ResolveLeg(effects[0], env, symbols).Ok? {
        LegIsAccounted(plan, effects[0], env, symbols, tokens);
      }
    } else {
      assert LegPostings(effects, env, symbols) == [];
    }
  }

  lemma FirstLeg(effects: seq<PlanEffect>, env: Env, symbols: map<string, string>)
    requires effects != []
    ensures var p := ResolveLeg(effects[0], env, symbols);
      Accounts(LegPostings(effects, env, symbols))
        == (if p.Ok? then {p.value.account} else {}) + Accounts(LegPostings(effects[1..], env, symbols))
  {
    hide ResolveLeg, Accounts;
    var p := ResolveLeg(effects[0], env, symbols);
    AccountsAppend(if p.Ok? then [p.value] else [], LegPostings(effects[1..], env, symbols));
    OneAccount(p);
  }

  lemma OneAccount(p: Result<Posting, Code>)
    ensures Accounts([]) == {}
    ensures p.Ok? ==> Accounts([p.value]) == {p.value.account}
  {
    if p.Ok? {
      assert [p.value][0] == p.value;
    }
  }

  lemma {:induction false} GroupsAreAccounted(plan: CoordinationPlan, groups: seq<EffectGroup>, env: Env,
                                              symbols: map<string, string>,
                                              soFar: set<string>, tokens: map<string, string>)
    requires Closed(plan) && TokensAgree(ClaimedNames(plan), symbols, tokens) && Indexed(plan, groups)
    ensures Accounts(GroupPostings(plan, groups, env, symbols, soFar)) <= AccountsOf(plan.effects, tokens)
  {
    if groups != [] {
      var legs := Select(plan.effects, groups[0].effectIndices);
      SelectedAreEffects(plan.effects, groups[0].effectIndices);
      hide Closed, ClaimedNames, TokensAgree, Committable, AccountsOf, Accounts, LegPostings, Select;
      GroupsAreAccounted(plan, groups[1..], env, symbols, soFar, tokens);
      LegsAreAccounted(plan, legs, env, symbols, tokens);
      OneAccount(Err(OperandMalformed));
      AccountsAppend(if Committable(plan, groups[0], env, soFar) then LegPostings(legs, env, symbols) else [],
                     GroupPostings(plan, groups[1..], env, symbols, soFar));
    }
  }

  lemma AtomicIsAccounted(plan: CoordinationPlan, env: Env, symbols: map<string, string>, tokens: map<string, string>)
    requires Closed(plan) && TokensAgree(ClaimedNames(plan), symbols, tokens)
    ensures Accounts(AtomicPostings(plan.effects, env, symbols)) <= AccountsOf(plan.effects, tokens)
  {
    Conservation.FilterSubset(FiresIn(env), plan.effects);
    LegsAreAccounted(plan, Filter(FiresIn(env), plan.effects), env, symbols, tokens);
  }

  /** A transition that changes the state has put its claim on record and touched accounts of that claim only. */
  ghost predicate TouchesOwn(plan: CoordinationPlan, s: EvalState, next: EvalState, claim: Claim) {
    && claim.key in next.keyClaim && next.keyClaim[claim.key] == claim
    && next.balances.Keys <= s.balances.Keys + AccountsOf(plan.effects, ClaimTokens(plan, claim))
  }

  lemma EvidenceTouches(plan: CoordinationPlan, s: EvalState, input: TransitionInput, claim: Claim, trace: seq<Obs>)
    ensures var r := EvidencePath(plan, s, input, claim.key, claim, trace);
      r.next == s || TouchesOwn(plan, s, r.next, claim)
  {
    hide EvidenceFault, EvidenceObs, AccountsOf;
  }

  lemma AtomicTouches(plan: CoordinationPlan, s: EvalState, input: TransitionInput, claim: Claim, env: Env,
                      trace: seq<Obs>)
    requires Closed(plan) && TokensAgree(ClaimedNames(plan), input.symbols, ClaimTokens(plan, claim))
    ensures var r := AtomicPath(plan, s, input, claim.key, claim, env, trace);
      r.next == s || TouchesOwn(plan, s, r.next, claim)
  {
    AtomicIsAccounted(plan, env, input.symbols, ClaimTokens(plan, claim));
    Conservation.AtomicBalances(plan, s, input, claim.key, claim, env, trace);
    hide Closed, ClaimedNames, TokensAgree, StageAtomic, AtomicPostings, AccountsOf, AllResolve, Accounts,
         ObligationObs', DeltaObs, EventObs';
  }

  lemma TemporalTouches(plan: CoordinationPlan, s: EvalState, input: TransitionInput, claim: Claim, env: Env,
                        trace: seq<Obs>)
    requires Closed(plan) && TokensAgree(ClaimedNames(plan), input.symbols, ClaimTokens(plan, claim))
    requires WellIndexed(plan) && Indexed(plan, plan.effectGroups)
    ensures var r := TemporalPath(plan, s, input, claim.key, claim, env, trace);
      r.next == s || TouchesOwn(plan, s, r.next, claim)
  {
    hide *;
    var r := TemporalPath(plan, s, input, claim.key, claim, env, trace);
    GroupsAreAccounted(plan, plan.effectGroups, env, input.symbols, CommittedSoFar(s, claim.key),
                       ClaimTokens(plan, claim));
    Conservation.TemporalBalances(plan, s, input, claim.key, claim, env, trace);
    if r.next != s {
      TemporalReachesCommit(plan, s, input, claim.key, claim, env, trace);
      var soFar := CommittedSoFar(s, claim.key);
      var staged := StageGroups(plan, plan.effectGroups, env, input.symbols, soFar,
                                Evaluator.Staging(s.balances, [], trace));
      CommitClaims(plan, s, claim, env, CommittingKeys(plan, env, soFar), staged.st);
      AddedAccounts(s, GroupPostings(plan, plan.effectGroups, env, input.symbols, soFar), r.next);
      TouchMeans(plan, s, r.next, claim);
    }
  }

  lemma CommitClaims(plan: CoordinationPlan, s: EvalState, claim: Claim, env: Env, committing: set<string>,
                     st: Evaluator.Staging)
    requires WellIndexed(plan)
    ensures var next := CommitGroups(plan, s, claim.key, claim, env, committing, st).next;
      claim.key in next.keyClaim && next.keyClaim[claim.key] == claim
  {
    hide RequiredKeys, WellIndexed, DeltaObs, EventObs';
  }

  lemma AddedAccounts(s: EvalState, posted: seq<Posting>, next: EvalState)
    requires Adds(s.balances, posted, next.balances)
    ensures next.balances.Keys == s.balances.Keys + Accounts(posted)
  {
  }

  lemma TouchMeans(plan: CoordinationPlan, s: EvalState, next: EvalState, claim: Claim)
    requires claim.key in next.keyClaim && next.keyClaim[claim.key] == claim
    requires next.balances.Keys <= s.balances.Keys + AccountsOf(plan.effects, ClaimTokens(plan, claim))
    ensures TouchesOwn(plan, s, next, claim)
  {
  }

  lemma AttemptTouches(plan: CoordinationPlan, s: EvalState, input: TransitionInput, claim: Claim, trace: seq<Obs>)
    requires Closed(plan) && WellIndexed(plan)
    requires TokensAgree(ClaimedNames(plan), input.symbols, ClaimTokens(plan, claim))
    requires Indexed(plan, plan.effectGroups)
    ensures var r := Attempt(plan, s, input, claim.key, claim, trace);
      r.next == s || TouchesOwn(plan, s, r.next, claim)
  {
    var folded := FoldComputes(plan.computes, input.numeric, trace);
    if folded.Folded? {
      var env := SeedAccepted(plan.attestations, input, folded.env);
      EvidenceTouches(plan, s, input, claim, folded.trace);
      AtomicTouches(plan, s, input, claim, env, folded.trace);
      TemporalTouches(plan, s, input, claim, env, folded.trace);
    }
    hide FoldComputes, SeedAccepted, TemporalPath, AtomicPath, EvidencePath, Closed, WellIndexed, TokensAgree,
         TouchesOwn, IsTemporal;
  }

  lemma TransitionTouches(plan: CoordinationPlan, s: EvalState, input: TransitionInput)
    requires LedgerPlan(plan) && WellIndexed(plan)
    ensures var r := EvaluateTransition(plan, s, input);
      r.next == s || (&& ClaimOf(plan, input).Some? && ClaimOf(plan, input).value.key == KeyValue(plan, input)
                      && TouchesOwn(plan, s, r.next, ClaimOf(plan, input).value))
  {
    var key, typed := KeyValue(plan, input), TypedInputs(plan.inputs, input);
    if key != "" && typed.Ok? {
      TokensAgreeWithClaim(plan, input);
      AttemptTouches(plan, s, input, Claim(plan, key, typed.value), [AuthorizationObs(input.authorized)]);
    }
    hide KeyValue, TypedInputs, Attempt, WellIndexed, LedgerPlan, TouchesOwn;
  }
}
