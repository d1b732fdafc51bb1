/** How many observations one transition can make, and how many legs the groups of a plan hold. */
module TraceBounds {
  import opened Expr
  import opened Bags
  import opened Plan
  import opened Evaluator
  import opened Postings
  import opened Payload
  import opened Traces
  import opened Closing

  // ---------------------------------------------------------------- how many legs the groups hold

  function Load(groups: seq<EffectGroup>): nat {
    if groups == [] then 0 else |groups[0].effectIndices| + Load(groups[1..])
  }

  /** The legs of `effects` that the keys of `groups` claim, counted group by group. */
  function LoadOf(groups: seq<EffectGroup>, effects: seq<PlanEffect>): nat {
    if groups == [] then 0 else |IndicesOf(effects, groups[0].guardKey)| + LoadOf(groups[1..], effects)
  }

  function Matches(groups: seq<EffectGroup>, key: string): nat {
    if groups == [] then 0 else (if groups[0].guardKey == key then 1 else 0) + Matches(groups[1..], key)
  }

  lemma {:induction false} NoMatch(groups: seq<EffectGroup>, key: string)
    requires forall j :: 0 <= j < |groups| ==> groups[j].guardKey != key
    ensures Matches(groups, key) == 0
  {
    if groups != [] {
      NoMatch(groups[1..], key);
    }
  }

  lemma {:induction false} AtMostOneMatch(groups: seq<EffectGroup>, key: string)
    requires Ordered(groups)
    ensures Matches(groups, key) <= 1
  {
    if groups != [] {
      if groups[0].guardKey == key {
        NoMatch(groups[1..], key);
      } else {
        AtMostOneMatch(groups[1..], key);
      }
    }
  }

  lemma {:induction false} LoadStep(groups: seq<EffectGroup>, effects: seq<PlanEffect>)
    requires effects != []
    ensures LoadOf(groups, effects) == LoadOf(groups, effects[..|effects| - 1])
        + Matches(groups, effects[|effects| - 1].guardKey)
  {
    if groups != [] {
      LoadStep(groups[1..], effects);
    }
  }

  lemma {:induction false} NothingToClaim(groups: seq<EffectGroup>)
    ensures LoadOf(groups, []) == 0
  {
    if groups != [] {
      NothingToClaim(groups[1..]);
    }
  }

  lemma {:induction false} ClaimedAtMostOnce(groups: seq<EffectGroup>, effects: seq<PlanEffect>)
    requires Ordered(groups)
    ensures LoadOf(groups, effects) <= |effects|
  {
    if effects == [] {
      NothingToClaim(groups);
    } else {
      LoadStep(groups, effects);
      AtMostOneMatch(groups, effects[|effects| - 1].guardKey);
      ClaimedAtMostOnce(groups, effects[..|effects| - 1]);
    }
  }

  lemma {:induction false} LoadIsClaimed(groups: seq<EffectGroup>, effects: seq<PlanEffect>)
    requires forall j :: 0 <= j < |groups| ==> Holds(groups[j], effects)
    ensures Load(groups) == LoadOf(groups, effects) && |groups| <= Load(groups)
  {
    if groups != [] {
      assert Holds(groups[0], effects);
      LoadIsClaimed(groups[1..], effects);
    }
  }

  /** A partition has no more groups, and holds no more legs, than there are effects. */
  lemma PartitionLoad(groups: seq<EffectGroup>, effects: seq<PlanEffect>)
    requires Partitions(groups, effects)
    ensures |groups| <= Load(groups) <= |effects|
  {
    hide Holds;
    LoadIsClaimed(groups, effects);
    ClaimedAtMostOnce(groups, effects);
  }

  lemma {:induction false} LegsCount(effects: seq<PlanEffect>, env: Env, symbols: map<string, string>)
    ensures |LegPostings(effects, env, symbols)| <= |effects|
  {
    if effects != [] {
      hide ResolveLeg;
      LegsCount(effects[1..], env, symbols);
    }
  }

  lemma {:induction false} SelectCount(effects: seq<PlanEffect>, indices: seq<nat>)
    requires InRange(effects, indices)
    ensures |Select(effects, indices)| == |indices|
  {
    if indices != [] {
      SelectCount(effects, indices[1..]);
    }
  }

  lemma {:induction false} GroupsCount(plan: CoordinationPlan, groups: seq<EffectGroup>, env: Env,
                                       symbols: map<string, string>, soFar: set<string>)
    requires Indexed(plan, groups)
    ensures |GroupPostings(plan, groups, env, symbols, soFar)| <= Load(groups)
  {
    if groups != [] {
      hide Committable, LegPostings, Select;
      SelectCount(plan.effects, groups[0].effectIndices);
      LegsCount(Select(plan.effects, groups[0].effectIndices), env, symbols);
      GroupsCount(plan, groups[1..], env, symbols, soFar);
    }
  }

  lemma {:induction false} FilterCount<A>(p: A -> bool, s: seq<A>)
    ensures |Filter(p, s)| <= |s|
  {
    if s != [] {
      FilterCount(p, s[1..]);
    }
  }

  lemma AtomicCount(effects: seq<PlanEffect>, env: Env, symbols: map<string, string>)
    ensures |AtomicPostings(effects, env, symbols)| <= |effects|
  {
    FilterCount(FiresIn(env), effects);
    LegsCount(Filter(FiresIn(env), effects), env, symbols);
  }

  // ---------------------------------------------------------------- trace lengths

  /** Four observations for each effect and each compute, and three for the transition itself. */
  function StepBound(plan: CoordinationPlan): nat {
    3 + |plan.computes| + 4 * |plan.effects|
  }

  lemma EvidenceLength(plan: CoordinationPlan, s: EvalState, input: TransitionInput, key: string, claim: Claim,
                       trace: seq<Obs>)
    ensures var r := EvidencePath(plan, s, input, key, claim, trace);
      && (r.outcome == Terminal ==> |r.trace| == |trace| + |plan.attestations| + 2)
      && (r.outcome != Terminal ==> |r.trace| <= |trace| + |plan.attestations| + 1)
  {
    EvidenceIsQuiet(plan.attestations, input);
  }

  lemma CommitGroupsLength(plan: CoordinationPlan, s: EvalState, key: string, claim: Claim, env: Env,
                           committing: set<string>, st: Evaluator.Staging)
    requires WellIndexed(plan)
    ensures |CommitGroups(plan, s, key, claim, env, committing, st).trace| <= |st.trace| + 2 * |st.pending| + 2
  {
    hide WellIndexed, RequiredKeys, Close;
    DeltasReported(st.pending);
    EventsAreQuiet(st.pending);
  }

  lemma RefusalLength(s: EvalState, trace: seq<Obs>, code: Code, subject: string)
    ensures |Refuse(s, trace, code, subject).trace| == |trace| + 1
  {
  }

  lemma TemporalLength(plan: CoordinationPlan, s: EvalState, input: TransitionInput, key: string, claim: Claim,
                       env: Env, trace: seq<Obs>)
    requires WellIndexed(plan) && Partitions(plan.effectGroups, plan.effects) && Quiet(trace)
    ensures |TemporalPath(plan, s, input, key, claim, env, trace).trace| <= |trace| + 2 + 4 * |plan.effects|
  {
    var soFar, st0 := CommittedSoFar(s, key), Evaluator.Staging(s.balances, [], trace);
    var r := StageGroups(plan, plan.effectGroups, env, input.symbols, soFar, st0);
    var fault := GroupFault(plan, plan.effectGroups, env);
    hide *;
    GroupsAreQuiet(plan, plan.effectGroups, env, input.symbols, soFar, st0);
    PartitionLoad(plan.effectGroups, plan.effects);
    TemporalCases(plan, s, input, key, claim, env, trace);
    RefusalLength(s, trace, StateInvalid, "");
    if fault.Some? {
      RefusalLength(s, trace, ExprFault(fault.value), "");
    }
    if r.Stopped? {
      RefusalLength(s, r.trace, r.code, r.subject);
    } else {
      StageGroupsAdds(plan, plan.effectGroups, env, input.symbols, soFar, st0);
      GroupsCount(plan, plan.effectGroups, env, input.symbols, soFar);
      CommitGroupsLength(plan, s, key, claim, env, CommittingKeys(plan, env, soFar), r.st);
    }
  }

  lemma AtomicLength(plan: CoordinationPlan, s: EvalState, input: TransitionInput, key: string, claim: Claim, env: Env,
                     trace: seq<Obs>)
    requires Quiet(trace)
    ensures var r := AtomicPath(plan, s, input, key, claim, env, trace);
      && (r.outcome == Terminal ==>
            |r.trace| == |trace| + AllLooks(plan.effects, env) + 2 * |AtomicPostings(plan.effects, env, input.symbols)|
                       + |plan.obligations| + 2)
      && (r.outcome != Terminal ==> |r.trace| <= |trace| + 2 * |plan.effects| + 1)
  {
    var st0 := Evaluator.Staging(s.balances, [], trace);
    var r := StageAtomic(plan.effects, env, input, st0);
    AtomicIsQuiet(plan.effects, env, input, st0);
    LooksBounded(plan.effects, env);
    AtomicCases(plan, s, input, key, claim, env, trace);
    if r.Staged? {
      StageAtomicAdds(plan.effects, env, input, st0);
      DeltasReported(r.st.pending);
      EventsAreQuiet(r.st.pending);
      ObligationsAreQuiet(plan.obligations, env, r.st.pending);
    }
    hide AtomicPath, StageAtomic, Quiet, AtomicPostings, AllLooks;
  }

  /**
   A single-shot commit whose obligations do not fit beside its guard, evidence and posting
   observations: every effect leaves room for four observations and uses what it needs.
   */
  predicate ObligationsOverflow(plan: CoordinationPlan, input: TransitionInput) {
    var env := EnvOf(plan, input);
    |plan.obligations| + AllLooks(plan.effects, env) + 2 * |AtomicPostings(plan.effects, env, input.symbols)|
      > 4 * |plan.effects|
  }

  lemma AttemptLength(plan: CoordinationPlan, s: EvalState, input: TransitionInput, key: string, claim: Claim)
    requires WellIndexed(plan) && Partitions(plan.effectGroups, plan.effects) && |plan.attestations| <= 1
    ensures var r := Attempt(plan, s, input, key, claim, [AuthorizationObs(input.authorized)]);
      |r.trace| > StepBound(plan) <==>
        r.outcome == Terminal && (IsEvidenceOnly(plan) || (!IsTemporal(plan) && ObligationsOverflow(plan, input)))
  {
    var trace := [AuthorizationObs(input.authorized)];
    assert Quiet(trace) by {
      OpeningIsQuiet(input.authorized);
    }
    var folded := FoldComputes(plan.computes, input.numeric, trace);
    FoldIsQuiet(plan.computes, input.numeric, trace);
    if folded.Folded? {
      var env := SeedAccepted(plan.attestations, input, folded.env);
      EvidenceLength(plan, s, input, key, claim, folded.trace);
      TemporalLength(plan, s, input, key, claim, env, folded.trace);
      AtomicLength(plan, s, input, key, claim, env, folded.trace);
    }
    hide FoldComputes, SeedAccepted, EvidencePath, TemporalPath, AtomicPath, IsTemporal, WellIndexed, Partitions, Quiet,
         AllLooks, AtomicPostings;
  }

  lemma ClaimedLength(plan: CoordinationPlan, s: EvalState, input: TransitionInput, claim: Claim)
    requires WellIndexed(plan) && Partitions(plan.effectGroups, plan.effects) && |plan.attestations| <= 1
    ensures var r := Claimed(plan, s, input, claim.key, claim, [AuthorizationObs(input.authorized)]);
      |r.trace| > StepBound(plan) <==>
        r.outcome == Terminal && (IsEvidenceOnly(plan) || (!IsTemporal(plan) && ObligationsOverflow(plan, input)))
  {
    AttemptLength(plan, s, input, claim.key, claim);
    hide Attempt, WellIndexed, Partitions, IsTemporal, ObligationsOverflow, IsEvidenceOnly;
  }

  lemma TransitionLength(plan: CoordinationPlan, s: EvalState, input: TransitionInput)
    requires WellIndexed(plan) && Partitions(plan.effectGroups, plan.effects) && |plan.attestations| <= 1
    ensures var r := EvaluateTransition(plan, s, input);
      |r.trace| > StepBound(plan) <==>
        r.outcome == Terminal && (IsEvidenceOnly(plan) || (!IsTemporal(plan) && ObligationsOverflow(plan, input)))
  {
    hide KeyValue, TypedInputs, Claimed, WellIndexed, Partitions, IsTemporal, ObligationsOverflow, IsEvidenceOnly;
    if ClaimOf(plan, input).Some? {
      ClaimedLength(plan, s, input, ClaimOf(plan, input).value);
    }
  }

  /** A close that makes more observations than the derived step bound, as plan, state and input foretell it. */
  ghost predicate Overlong(plan: CoordinationPlan, s: EvalState, input: TransitionInput) {
    && !IsTemporal(plan)
    && (IsEvidenceOnly(plan) || ObligationsOverflow(plan, input))
    && Closes(plan, s, input)
  }

  lemma EvidenceIsNotTemporal(plan: CoordinationPlan)
    requires IsEvidenceOnly(plan)
    ensures !IsTemporal(plan)
  {
  }

  /**
   Exactly when a transition makes more observations than the derived step bound: when it closes its
   key under an evidence-only plan, or under a single-shot plan with too many obligations. From any
   state and on any input, and the condition reads nothing of the transition.
   */
  lemma StepBoundExactly(plan: CoordinationPlan, s: EvalState, input: TransitionInput)
    requires WellIndexed(plan) && Partitions(plan.effectGroups, plan.effects) && |plan.attestations| <= 1
    ensures |EvaluateTransition(plan, s, input).trace| > StepBound(plan) <==> Overlong(plan, s, input)
    ensures Overlong(plan, s, input) ==> EvaluateTransition(plan, s, input).outcome == Terminal
  {
    hide EvaluateTransition, WellIndexed, Partitions, IsTemporal, ObligationsOverflow, Closes, IsEvidenceOnly;
    TransitionLength(plan, s, input);
    if IsEvidenceOnly(plan) {
      EvidenceIsNotTemporal(plan);
    }
    if !IsTemporal(plan) {
      ClosesExactly(plan, s, input);
    }
  }

  /** Without obligations only the evidence-only close is too long. */
  lemma NoObligationsNoOverflow(plan: CoordinationPlan, input: TransitionInput)
    requires plan.obligations == []
    ensures !ObligationsOverflow(plan, input)
  {
    LooksBounded(plan.effects, EnvOf(plan, input));
    AtomicCount(plan.effects, EnvOf(plan, input), input.symbols);
  }

  /** An effect that makes all four of its observations. */
  ghost predicate FullyObserved(e: PlanEffect, env: Env, symbols: map<string, string>) {
    Guarded(e) && Attested(e) && Firing(e, env) && ResolveLeg(e, env, symbols).Ok?
  }

  lemma {:induction false} FullyObservedCount(effects: seq<PlanEffect>, env: Env, symbols: map<string, string>)
    requires forall e :: e in effects ==> FullyObserved(e, env, symbols)
    ensures AllLooks(effects, env) == 2 * |effects| && |AtomicPostings(effects, env, symbols)| == |effects|
  {
    if effects != [] {
      assert FullyObserved(effects[0], env, symbols);
      hide ResolveLeg, EvalGuard;
      FullyObservedCount(effects[1..], env, symbols);
      AtomicTaken(effects, env, symbols, []);
    }
  }

  /** One obligation is too many for a plan whose effects make all their observations. */
  lemma ObligationTooMany(plan: CoordinationPlan, input: TransitionInput)
    requires plan.obligations != []
    requires forall e :: e in plan.effects ==> FullyObserved(e, EnvOf(plan, input), input.symbols)
    ensures ObligationsOverflow(plan, input)
  {
    FullyObservedCount(plan.effects, EnvOf(plan, input), input.symbols);
  }
}
