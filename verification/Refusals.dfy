/** When a transition is refused, when it changes the state, and what it then records. */
module Refusals {
  import opened Wrappers
  import opened Decimal
  import opened Expr
  import opened Plan
  import opened Evaluator
  import opened Postings
  import opened Conservation
  import opened Bookkeeping

  /** The codes of a transition that was attempted: neither the claim nor the recorded state is at fault. */
  predicate IsAttemptCode(c: Code) {
    c != AuthDenied && c != KeyUnresolved && c != ClaimInput && c != ClaimMismatch && c != StateInvalid
    && c != StepExceeded && c != StorageExceeded
  }

  lemma StageLegCode(e: PlanEffect, env: Env, symbols: map<string, string>, st: Evaluator.Staging)
    ensures StageLeg(e, env, symbols, st).Stopped? ==> IsAttemptCode(StageLeg(e, env, symbols, st).code)
  {
    hide ParseI64;
  }

  lemma {:induction false} StageAtomicCode(effects: seq<PlanEffect>, env: Env, input: TransitionInput,
                                           st: Evaluator.Staging)
    ensures StageAtomic(effects, env, input, st).Stopped? ==> IsAttemptCode(StageAtomic(effects, env, input, st).code)
    decreases |effects|
  {
    if effects != [] {
      AtomicStaging(effects, env, input, st);
      var e := effects[0];
      var held := if e.guard.Some? then EvalGuard(e.guard.value, env) else Ok(true);
      hide StageLeg, EvalGuard, PolicyAccepted, Observe, Firing;
      if KnownKind(e) && held.Ok? {
        var seen := Observe(e, held.value, input, st);
        if !held.value {
          StageAtomicCode(effects[1..], env, input, seen);
        } else {
          StageLegCode(e, env, input.symbols, seen);
          if StageLeg(e, env, input.symbols, seen).Staged? {
            StageAtomicCode(effects[1..], env, input, StageLeg(e, env, input.symbols, seen).st);
          }
        }
      }
    }
  }

  lemma {:induction false} StageGroupCode(effects: seq<PlanEffect>, env: Env, symbols: map<string, string>,
                                          st: Evaluator.Staging)
    ensures StageGroup(effects, env, symbols, st).Stopped? ==> IsAttemptCode(StageGroup(effects, env, symbols, st).code)
    decreases |effects|
  {
    if effects != [] {
      StageLegCode(effects[0], env, symbols, st);
      hide StageLeg;
      if StageLeg(effects[0], env, symbols, st).Staged? {
        StageGroupCode(effects[1..], env, symbols, StageLeg(effects[0], env, symbols, st).st);
      }
    }
  }

  lemma {:induction false} StageGroupsCode(
      plan: CoordinationPlan, groups: seq<EffectGroup>, env: Env, symbols: map<string, string>,
      soFar: set<string>, st: Evaluator.Staging)
    requires Indexed(plan, groups)
    ensures var r := StageGroups(plan, groups, env, symbols, soFar, st); r.Stopped? ==> IsAttemptCode(r.code)
    decreases |groups|
  {
    if groups != [] {
      hide Committable, SeeGroup, StageGroup, Select, IsAttemptCode;
      var g, seen := groups[0], SeeGroup(plan, groups[0], env, st);
      if !Committable(plan, g, env, soFar) {
        StageGroupsCode(plan, groups[1..], env, symbols, soFar, seen);
      } else {
        var legs := Select(plan.effects, g.effectIndices);
        StageGroupCode(legs, env, symbols, seen);
        if StageGroup(legs, env, symbols, seen).Staged? {
          StageGroupsCode(plan, groups[1..], env, symbols, soFar, StageGroup(legs, env, symbols, seen).st);
        }
      }
    }
  }

  lemma {:induction false} FoldCode(computes: seq<PlanCompute>, env: Env, trace: seq<Obs>)
    ensures var r := FoldComputes(computes, env, trace); r.FoldStopped? ==> IsAttemptCode(r.code)
    decreases |computes|
  {
    if computes != [] && computes[0].expr.Some? && EvalExpr(computes[0].expr.value, env).Ok? {
      hide EvalExpr;
      var v := EvalExpr(computes[0].expr.value, env).value;
      FoldCode(computes[1..], env[computes[0].name := v], trace + [ComputeObs(computes[0].name, v)]);
    }
  }

  lemma {:induction false} EvidenceCode(policies: seq<string>, input: TransitionInput)
    ensures EvidenceFault(policies, input).Some? ==> IsAttemptCode(EvidenceFault(policies, input).value)
  {
    if policies != [] {
      EvidenceCode(policies[1..], input);
    }
  }

  /**
   A refusal, a replay and a no-progress outcome hand back the state untouched; only the other two
   record anything.
   */
  ghost predicate Settled(s: EvalState, r: TransitionResult) {
    && (r.outcome == Refused <==> r.code.Some?)
    && (r.outcome != Terminal && r.outcome != Progress ==> r.next == s)
  }

  /** An attempt's result: settled, never a replay, and blaming neither claim nor state. */
  ghost predicate Attempted(s: EvalState, r: TransitionResult) {
    Settled(s, r) && r.outcome != Replayed && (r.code.Some? ==> IsAttemptCode(r.code.value))
  }

  lemma RefusedAttempt(s: EvalState, trace: seq<Obs>, code: Code, subject: string)
    requires IsAttemptCode(code)
    ensures Attempted(s, Refuse(s, trace, code, subject))
  {
  }

  lemma EvidenceAttempted(plan: CoordinationPlan, s: EvalState, input: TransitionInput, key: string, claim: Claim,
                          trace: seq<Obs>)
    ensures Attempted(s, EvidencePath(plan, s, input, key, claim, trace))
  {
    EvidenceCode(plan.attestations, input);
    hide EvidenceFault, EvidenceObs, IsAttemptCode, Close;
  }

  lemma AtomicAttempted(plan: CoordinationPlan, s: EvalState, input: TransitionInput, key: string, claim: Claim,
                        env: Env, trace: seq<Obs>)
    ensures Attempted(s, AtomicPath(plan, s, input, key, claim, env, trace))
  {
    StageAtomicCode(plan.effects, env, input, Evaluator.Staging(s.balances, [], trace));
    hide StageAtomic, IsAttemptCode, Close, DeltaObs, EventObs', ObligationObs';
  }

  lemma TemporalAttempted(plan: CoordinationPlan, s: EvalState, input: TransitionInput, key: string, claim: Claim,
                          env: Env, trace: seq<Obs>)
    requires WellIndexed(plan) && LedgerValid(plan, s, key)
    ensures Attempted(s, TemporalPath(plan, s, input, key, claim, env, trace))
  {
    StageGroupsCode(plan, plan.effectGroups, env, input.symbols, CommittedSoFar(s, key),
                    Evaluator.Staging(s.balances, [], trace));
    FaultsAreAttemptCodes();
    hide StageGroups, IsAttemptCode, Close, DeltaObs, EventObs', LedgerValid, GroupFault, CommittingKeys, RequiredKeys,
         WellIndexed;
  }

  lemma AttemptOutcome(plan: CoordinationPlan, s: EvalState, input: TransitionInput, key: string, claim: Claim,
                       trace: seq<Obs>)
    requires WellIndexed(plan) && LedgerValid(plan, s, key)
    ensures Attempted(s, Attempt(plan, s, input, key, claim, trace))
  {
    var folded := FoldComputes(plan.computes, input.numeric, trace);
    hide FoldComputes, SeedAccepted, IsTemporal, LedgerValid, EvidencePath, AtomicPath, TemporalPath, WellIndexed,
         Attempted;
    FoldCode(plan.computes, input.numeric, trace);
    if folded.Folded? {
      var env := SeedAccepted(plan.attestations, input, folded.env);
      EvidenceAttempted(plan, s, input, key, claim, folded.trace);
      AtomicAttempted(plan, s, input, key, claim, env, folded.trace);
      TemporalAttempted(plan, s, input, key, claim, env, folded.trace);
    } else {
      RefusedAttempt(s, folded.trace, folded.code, "");
    }
  }

  lemma FaultsAreAttemptCodes()
    ensures forall fault :: IsAttemptCode(ExprFault(fault))
  {
  }

  /** In a state whose records are in order a refusal never blames the recorded groups. */
  lemma RecordedLedgerIsValid(plan: CoordinationPlan, s: EvalState, key: string)
    requires Recorded(plan, s)
    ensures LedgerValid(plan, s, key)
    ensures key in s.postedKeys ==> key in s.keyClaim && key in s.keyStatus && s.keyStatus[key] == plan.success
  {
    hide GroupKeys;
  }

  /** The input's claim meets a key that some other payload claimed first. */
  predicate Mismatched(plan: CoordinationPlan, s: EvalState, input: TransitionInput) {
    && input.authorized && ClaimOf(plan, input).Some?
    && var c := ClaimOf(plan, input).value;
       c.key in s.keyClaim && s.keyClaim[c.key] != c
  }

  /** The input presents again what its key's terminal commit recorded, to a plan that protects against replay. */
  predicate Represents(plan: CoordinationPlan, s: EvalState, input: TransitionInput) {
    && plan.idempotent && input.authorized && ClaimOf(plan, input).Some?
    && var c := ClaimOf(plan, input).value;
       c.key in s.postedKeys && c.key in s.keyClaim && s.keyClaim[c.key] == c
  }

  /** Before an attempt: which inputs are turned away at the key and the claim, and as what. */
  lemma ClaimedOutcome(plan: CoordinationPlan, s: EvalState, input: TransitionInput, claim: Claim, trace: seq<Obs>)
    requires WellIndexed(plan) && Recorded(plan, s)
    ensures var r := Claimed(plan, s, input, claim.key, claim, trace);
      var posted := plan.idempotent && claim.key in s.postedKeys;
      var same := claim.key in s.keyClaim && s.keyClaim[claim.key] == claim;
      && Settled(s, r)
      && (r.code == Some(ClaimMismatch) <==> claim.key in s.keyClaim && !same)
      && (r.code == Some(StateInvalid) <==> posted && same && plan.success == "")
      && (r.outcome == Replayed <==> posted && same && plan.success != "")
  {
    RecordedLedgerIsValid(plan, s, claim.key);
    AttemptOutcome(plan, s, input, claim.key, claim, trace);
    hide WellIndexed, Recorded, Attempt, LedgerValid;
  }

  /**
   Exactly when a reachable state is blamed: presenting a terminal key again is refused as an
   invalid state if and only if the plan's success terminal has no name, and is a replay otherwise.
   This is so for every plan, whatever its operands name.
   */
  lemma StateInvalidExactly(plan: CoordinationPlan, s: EvalState, input: TransitionInput)
    requires WellIndexed(plan) && Recorded(plan, s)
    ensures var r := EvaluateTransition(plan, s, input);
      && (r.code == Some(StateInvalid) <==> Represents(plan, s, input) && plan.success == "")
      && (r.outcome == Replayed <==> Represents(plan, s, input) && plan.success != "")
      && (r.code == Some(ClaimMismatch) <==> Mismatched(plan, s, input))
      && Settled(s, r)
  {
    hide KeyValue, TypedInputs, WellIndexed, Recorded, Claimed, IsAttemptCode;
    if ClaimOf(plan, input).Some? {
      ClaimedOutcome(plan, s, input, ClaimOf(plan, input).value, [AuthorizationObs(input.authorized)]);
    }
  }

  /** The two bound refusals are the coordinator's own. */
  lemma ReferenceKeepsNoBounds(plan: CoordinationPlan, s: EvalState, input: TransitionInput)
    requires WellIndexed(plan) && Recorded(plan, s)
    ensures EvaluateTransition(plan, s, input).code !in {Some(StepExceeded), Some(StorageExceeded)}
  {
    hide KeyValue, TypedInputs, WellIndexed, Recorded, LedgerValid, Attempt;
    if ClaimOf(plan, input).Some? {
      var claim := ClaimOf(plan, input).value;
      RecordedLedgerIsValid(plan, s, claim.key);
      AttemptOutcome(plan, s, input, claim.key, claim, [AuthorizationObs(input.authorized)]);
    }
  }

  /** From an empty ledger, a plan with a named success terminal never meets a state it calls invalid. */
  lemma NeverInvalid(plan: CoordinationPlan, start: map<Account, I64>, inputs: seq<TransitionInput>,
                     input: TransitionInput)
    requires WellIndexed(plan) && plan.success != ""
    ensures EvaluateTransition(plan, RunFrom(plan, EmptyState(start), inputs), input).code != Some(StateInvalid)
  {
    RunRecorded(plan, start, inputs);
    hide WellIndexed, Recorded, RunFrom, EvaluateTransition, Represents;
    StateInvalidExactly(plan, RunFrom(plan, EmptyState(start), inputs), input);
  }

  /** Presenting a committed terminal input again changes nothing, whatever else happened in between. */
  lemma RepeatChangesNothing(plan: CoordinationPlan, start: map<Account, I64>, xs: seq<TransitionInput>,
                             input: TransitionInput, ys: seq<TransitionInput>)
    requires WellIndexed(plan) && plan.idempotent
    requires EvaluateTransition(plan, RunFrom(plan, EmptyState(start), xs), input).outcome == Terminal
    ensures var s := RunFrom(plan, EmptyState(start), xs + [input] + ys);
      EvaluateTransition(plan, s, input).next == s
  {
    var before := RunFrom(plan, EmptyState(start), xs);
    var after, s := RunFrom(plan, EmptyState(start), xs + [input]), RunFrom(plan, EmptyState(start), xs + [input] + ys);
    assert (xs + [input])[..|xs|] == xs;
    assert after == EvaluateTransition(plan, before, input).next;
    hide RunFrom, EvaluateTransition, WellIndexed, Recorded, KeyValue, TypedInputs;
    TerminalRecords(plan, before, input);
    RunRecorded(plan, start, xs + [input]);
    RunRecorded(plan, start, xs + [input] + ys);
    RecordsStay(plan, start, xs + [input], ys, KeyValue(plan, input));
    PostedKeysAreStatus(plan, after);
    PostedKeysAreStatus(plan, s);
    StateInvalidExactly(plan, s, input);
  }

  lemma PostedKeysAreStatus(plan: CoordinationPlan, s: EvalState)
    requires Recorded(plan, s)
    ensures s.postedKeys == s.keyStatus.Keys && s.postedKeys <= s.keyClaim.Keys
  {
  }

  /** `claim` is on record as committed to its terminal. */
  predicate OnRecord(plan: CoordinationPlan, next: EvalState, claim: Claim) {
    && claim.key in next.postedKeys
    && claim.key in next.keyClaim && next.keyClaim[claim.key] == claim
    && claim.key in next.keyStatus && next.keyStatus[claim.key] == plan.success
  }

  lemma CloseRecords(plan: CoordinationPlan, s: EvalState, claim: Claim)
    ensures OnRecord(plan, Close(s, plan, claim.key, claim), claim)
  {
  }

  lemma AttemptRecords(plan: CoordinationPlan, s: EvalState, input: TransitionInput, claim: Claim, trace: seq<Obs>)
    requires WellIndexed(plan)
    ensures var r := Attempt(plan, s, input, claim.key, claim, trace);
      r.outcome == Terminal ==> OnRecord(plan, r.next, claim)
  {
    hide FoldComputes, SeedAccepted, IsTemporal, LedgerValid, StageGroups, StageAtomic, GroupFault,
         CommittingKeys, RequiredKeys, EvidenceFault, EvidenceObs, WellIndexed, Close, OnRecord;
    forall x ensures OnRecord(plan, Close(x, plan, claim.key, claim), claim) {
      CloseRecords(plan, x, claim);
    }
  }

  /** With replay protection a terminal outcome is the first of its key. */
  lemma TerminalIsNew(plan: CoordinationPlan, s: EvalState, input: TransitionInput)
    requires WellIndexed(plan) && plan.idempotent && EvaluateTransition(plan, s, input).outcome == Terminal
    ensures KeyValue(plan, input) !in s.postedKeys
  {
    hide KeyValue, TypedInputs, Attempt, WellIndexed;
  }

  /** A terminal outcome records the input's claim and posts its key. */
  lemma TerminalRecords(plan: CoordinationPlan, s: EvalState, input: TransitionInput)
    requires WellIndexed(plan) && EvaluateTransition(plan, s, input).outcome == Terminal
    ensures input.authorized && ClaimOf(plan, input).Some? && ClaimOf(plan, input).value.key == KeyValue(plan, input)
    ensures OnRecord(plan, EvaluateTransition(plan, s, input).next, ClaimOf(plan, input).value)
  {
    hide KeyValue, TypedInputs, Attempt, WellIndexed, OnRecord;
    var key, typed := KeyValue(plan, input), TypedInputs(plan.inputs, input);
    if typed.Ok? {
      AttemptRecords(plan, s, input, Claim(plan, key, typed.value), [AuthorizationObs(input.authorized)]);
    }
  }
}
