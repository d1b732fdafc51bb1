/**
 When a transition without accepted() guards closes its key: a condition on the plan, the state and
 the input that can be read before the transition.
 */
module Closing {
  import opened Wrappers
  import opened Decimal
  import opened Expr
  import opened Plan
  import opened Evaluator
  import opened Payload
  import opened Postings
  import opened Conservation

  // ---------------------------------------------------------------- staging on plain conditions

  /** Every effect is a debit or a credit with a guard that evaluates. */
  ghost predicate AllDecide(effects: seq<PlanEffect>, env: Env) {
    forall e :: e in effects ==> KnownKind(e) && (e.guard.Some? ==> EvalGuard(e.guard.value, env).Ok?)
  }

  /** Every effect that fires has its evidence accepted and its operands resolved. */
  ghost predicate FiringAdmitted(effects: seq<PlanEffect>, env: Env, input: TransitionInput) {
    forall e :: e in effects && Firing(e, env) ==>
      (e.attestationInput == "" || PolicyAccepted(input, e.attestationInput)) && ResolveLeg(e, env, input.symbols).Ok?
  }

  /** No account leaves the 64-bit range at any point of the postings. */
  ghost predicate Fits(balances: map<Account, I64>, postings: seq<Posting>) {
    forall n :: 0 < n <= |postings| ==>
      InI64(Balance(balances, postings[n - 1].account) as int + NetOn(postings[..n], postings[n - 1].account))
  }

  ghost predicate Stageable(effects: seq<PlanEffect>, env: Env, input: TransitionInput, balances: map<Account, I64>) {
    && AllDecide(effects, env)
    && FiringAdmitted(effects, env, input)
    && Fits(balances, AtomicPostings(effects, env, input.symbols))
  }

  lemma NetOnFirst(p: Posting, rest: seq<Posting>, a: Account)
    ensures NetOn([p] + rest, a) == (if p.account == a then p.delta else 0) + NetOn(rest, a)
  {
    assert ([p] + rest)[1..] == rest;
  }

  lemma FitsFirst(b: map<Account, I64>, p: Posting, rest: seq<Posting>, after: map<Account, I64>)
    requires InI64(Balance(b, p.account) as int + p.delta as int)
    requires after == b[p.account := Balance(b, p.account) as int + p.delta as int]
    ensures Fits(b, [p] + rest) <==> Fits(after, rest)
  {
    var ps := [p] + rest;
    forall n | 0 < n <= |rest|
      ensures Balance(b, ps[n].account) as int + NetOn(ps[..n + 1], ps[n].account)
           == Balance(after, rest[n - 1].account) as int + NetOn(rest[..n], rest[n - 1].account)
    {
      assert ps[..n + 1] == [p] + rest[..n] && ps[n] == rest[n - 1];
      NetOnFirst(p, rest[..n], ps[n].account);
    }
    if Fits(b, ps) {
      forall n | 0 < n <= |rest|
        ensures InI64(Balance(after, rest[n - 1].account) as int + NetOn(rest[..n], rest[n - 1].account))
      {
        assert ps[(n + 1) - 1] == ps[n];
        assert InI64(Balance(b, ps[(n + 1) - 1].account) as int + NetOn(ps[..n + 1], ps[(n + 1) - 1].account));
      }
    }
    if Fits(after, rest) {
      forall n | 0 < n <= |ps| ensures InI64(Balance(b, ps[n - 1].account) as int + NetOn(ps[..n], ps[n - 1].account)) {
        if n == 1 {
          assert ps[..1] == [p];
          NetOnOne(p, p.account);
        } else {
          assert 0 < n - 1 <= |rest|;
          assert ps[..(n - 1) + 1] == ps[..n];
        }
      }
    }
  }

  lemma FirstFits(b: map<Account, I64>, p: Posting, rest: seq<Posting>)
    requires Fits(b, [p] + rest)
    ensures InI64(Balance(b, p.account) as int + p.delta as int)
  {
    var ps := [p] + rest;
    assert ps[1 - 1] == p && ps[..1] == [p];
    NetOnOne(p, p.account);
    assert InI64(Balance(b, ps[1 - 1].account) as int + NetOn(ps[..1], ps[1 - 1].account));
  }

  lemma DecideFirst(effects: seq<PlanEffect>, env: Env)
    requires effects != []
    ensures AllDecide(effects, env) <==>
      && KnownKind(effects[0]) && (effects[0].guard.Some? ==> EvalGuard(effects[0].guard.value, env).Ok?)
      && AllDecide(effects[1..], env)
  {
    hide EvalGuard;
    assert effects == [effects[0]] + effects[1..];
  }

  lemma AdmittedFirst(effects: seq<PlanEffect>, env: Env, input: TransitionInput)
    requires effects != []
    ensures FiringAdmitted(effects, env, input) <==>
      && (Firing(effects[0], env) ==>
            && (effects[0].attestationInput == "" || PolicyAccepted(input, effects[0].attestationInput))
            && ResolveLeg(effects[0], env, input.symbols).Ok?)
      && FiringAdmitted(effects[1..], env, input)
  {
    hide Firing, ResolveLeg, PolicyAccepted;
    assert effects == [effects[0]] + effects[1..];
  }

  lemma LegStages(e: PlanEffect, env: Env, symbols: map<string, string>, st: Evaluator.Staging)
    ensures var leg, p := StageLeg(e, env, symbols, st), ResolveLeg(e, env, symbols);
      && (leg.Staged? <==> p.Ok? && InI64(Balance(st.balances, p.value.account) as int + p.value.delta as int))
      && (leg.Staged? ==>
            var sum: I64 := Balance(st.balances, p.value.account) as int + p.value.delta as int;
            leg.st.balances == st.balances[p.value.account := sum])
  {
    hide ResolveLeg;
  }

  /** Single-shot staging succeeds exactly on the plain conditions. */
  lemma {:induction false} StagesExactly(effects: seq<PlanEffect>, env: Env, input: TransitionInput,
                                         st: Evaluator.Staging)
    ensures StageAtomic(effects, env, input, st).Staged? <==> Stageable(effects, env, input, st.balances)
    decreases |effects|
  {
    if effects == [] {
      NothingStaged(env, input, st);
      hide AtomicPostings;
    } else {
      var e := effects[0];
      var held := if e.guard.Some? then EvalGuard(e.guard.value, env) else Ok(true);
      hide ResolveLeg, StageLeg, EvalGuard, AtomicPostings, StageAtomic, PolicyAccepted, Firing, Observe, KnownKind,
           AllDecide, FiringAdmitted, Fits, Balance;
      AtomicStaging(effects, env, input, st);
      DecideFirst(effects, env);
      AdmittedFirst(effects, env, input);
      if KnownKind(e) && held.Ok? {
        var seen := Observe(e, held.value, input, st);
        ObserveKeeps(e, held.value, input, st);
        if !held.value {
          AtomicSkipped(effects, env, input.symbols);
          StagesExactly(effects[1..], env, input, seen);
        } else {
          var leg := StageLeg(e, env, input.symbols, seen);
          FirstLegFits(effects, env, input.symbols, seen);
          if leg.Staged? {
            StagesExactly(effects[1..], env, input, leg.st);
          }
        }
      }
    }
  }

  /** The leg of a firing effect stages if it resolves and fits, and then the rest must fit on top of it. */
  lemma FirstLegFits(effects: seq<PlanEffect>, env: Env, symbols: map<string, string>, st: Evaluator.Staging)
    requires effects != [] && Firing(effects[0], env)
    ensures var leg, fits := StageLeg(effects[0], env, symbols, st),
        Fits(st.balances, AtomicPostings(effects, env, symbols));
      && (leg.Staged? ==> ResolveLeg(effects[0], env, symbols).Ok?)
      && (leg.Staged? ==> (fits <==> Fits(leg.st.balances, AtomicPostings(effects[1..], env, symbols))))
      && (leg.Stopped? && ResolveLeg(effects[0], env, symbols).Ok? ==> !fits)
  {
    var leg, p := StageLeg(effects[0], env, symbols, st), ResolveLeg(effects[0], env, symbols);
    var rest := AtomicPostings(effects[1..], env, symbols);
    hide *;
    LegStages(effects[0], env, symbols, st);
    if p.Ok? {
      AtomicTaken(effects, env, symbols, []);
      if leg.Staged? {
        FitsFirst(st.balances, p.value, rest, leg.st.balances);
      } else if Fits(st.balances, [p.value] + rest) {
        FirstFits(st.balances, p.value, rest);
      }
    }
  }

  // ---------------------------------------------------------------- when a transition closes

  /** Whatever is recorded for the key of the input agrees with its claim, and the key is not replayed. */
  ghost predicate ClaimIsFresh(plan: CoordinationPlan, s: EvalState, claim: Claim) {
    && (claim.key in s.keyClaim ==> s.keyClaim[claim.key] == claim)
    && !(plan.idempotent && claim.key in s.postedKeys)
  }

  /** The computes of the plan evaluate on the input. */
  ghost predicate ComputesEvaluate(plan: CoordinationPlan, input: TransitionInput) {
    FoldComputes(plan.computes, input.numeric, [AuthorizationObs(input.authorized)]).Folded?
  }

  ghost predicate EvidenceAccepted(plan: CoordinationPlan, input: TransitionInput) {
    forall p :: p in plan.attestations ==> PolicyAccepted(input, p)
  }

  /**
   The condition under which a plan without accepted() guards closes the key of an input: authority, a
   claim that is neither contradicted nor replayed, computes that evaluate, and accepted evidence or
   legs that stage.
   */
  ghost predicate Closes(plan: CoordinationPlan, s: EvalState, input: TransitionInput) {
    && input.authorized
    && ClaimOf(plan, input).Some? && ClaimIsFresh(plan, s, ClaimOf(plan, input).value)
    && ComputesEvaluate(plan, input)
    && (if IsEvidenceOnly(plan) then EvidenceAccepted(plan, input)
        else Stageable(plan.effects, EnvOf(plan, input), input, s.balances))
  }

  lemma {:induction false} NoEvidenceFault(policies: seq<string>, input: TransitionInput)
    ensures EvidenceFault(policies, input).None? <==> forall p :: p in policies ==> PolicyAccepted(input, p)
  {
    if policies != [] {
      NoEvidenceFault(policies[1..], input);
      assert EvidenceFault(policies, input).None?
        <==> PolicyAccepted(input, policies[0]) && EvidenceFault(policies[1..], input).None?;
      hide EvidenceFault, PolicyAccepted;
      assert policies[0] in policies && forall p :: p in policies[1..] ==> p in policies;
      assert forall p :: p in policies ==> p == policies[0] || p in policies[1..];
    }
  }

  lemma EvidenceCloses(plan: CoordinationPlan, s: EvalState, input: TransitionInput, key: string, claim: Claim,
                       trace: seq<Obs>)
    ensures EvidencePath(plan, s, input, key, claim, trace).outcome == Terminal <==> EvidenceAccepted(plan, input)
  {
    NoEvidenceFault(plan.attestations, input);
    hide EvidenceFault, EvidenceObs, PolicyAccepted;
  }

  lemma AtomicCloses(plan: CoordinationPlan, s: EvalState, input: TransitionInput, key: string, claim: Claim,
                     env: Env, trace: seq<Obs>)
    ensures AtomicPath(plan, s, input, key, claim, env, trace).outcome == Terminal
       <==> Stageable(plan.effects, env, input, s.balances)
  {
    StagesExactly(plan.effects, env, input, Evaluator.Staging(s.balances, [], trace));
    hide StageAtomic, Stageable;
  }

  /** Exactly when a transition of a plan without accepted() guards closes its key, from any state and on any input. */
  lemma ClosesExactly(plan: CoordinationPlan, s: EvalState, input: TransitionInput)
    requires WellIndexed(plan) && !IsTemporal(plan)
    ensures EvaluateTransition(plan, s, input).outcome == Terminal <==> Closes(plan, s, input)
  {
    var trace := [AuthorizationObs(input.authorized)];
    hide KeyValue, TypedInputs, FoldComputes, SeedAccepted, EvidencePath, AtomicPath, IsTemporal, IsEvidenceOnly,
         WellIndexed, Stageable, EvidenceAccepted;
    if input.authorized && ClaimOf(plan, input).Some? {
      var claim := ClaimOf(plan, input).value;
      var folded := FoldComputes(plan.computes, input.numeric, trace);
      if folded.Folded? {
        var env := SeedAccepted(plan.attestations, input, folded.env);
        EvidenceCloses(plan, s, input, claim.key, claim, folded.trace);
        AtomicCloses(plan, s, input, claim.key, claim, env, folded.trace);
      }
    }
  }

  /**
   Exactly when a single-shot transition leaves a total as it was, balanced plan or not: it does not
   close its key, or the legs whose guards hold net to nothing in that currency.
   */
  lemma SingleShotConservesExactly(plan: CoordinationPlan, s: EvalState, input: TransitionInput, t: string)
    requires WellIndexed(plan) && !IsTemporal(plan)
    ensures TotalIn(EvaluateTransition(plan, s, input).next.balances, t) == TotalIn(s.balances, t) <==>
      || !Closes(plan, s, input)
      || NetIn(AtomicPostings(plan.effects, EnvOf(plan, input), input.symbols), t) == 0
  {
    hide *;
    ClosesExactly(plan, s, input);
    SingleShotMoves(plan, s, input, t);
  }
}
