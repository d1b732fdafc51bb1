/**
 The record keeping of the evaluator: claims, statuses, posted keys and committed groups. It holds
 for every plan whose group positions are in range, whatever its operands name and whether or not
 it protects against replay.
 */
module Bookkeeping {
  import opened Decimal
  import opened Expr
  import opened Plan
  import opened Evaluator
  import opened Conservation

  /** A claim is on record under its own key, for this plan. */
  ghost predicate ClaimsOk(plan: CoordinationPlan, s: EvalState) {
    forall k :: k in s.keyClaim ==> s.keyClaim[k].key == k && s.keyClaim[k].coordination == plan
  }

  /** Posted keys are the keys with a status, all of them claimed, and the status is the success terminal. */
  ghost predicate StatusOk(plan: CoordinationPlan, s: EvalState) {
    && s.postedKeys == s.keyStatus.Keys
    && s.postedKeys <= s.keyClaim.Keys
    && (forall k :: k in s.keyStatus ==> s.keyStatus[k] == plan.success)
  }

  /** Claimed keys have a group ledger of plan groups in a temporal plan, and are posted in any other. */
  ghost predicate GroupsOk(plan: CoordinationPlan, s: EvalState) {
    if IsTemporal(plan) then
      && s.committedGroups.Keys == s.keyClaim.Keys
      && (forall k :: k in s.committedGroups ==> s.committedGroups[k] <= GroupKeys(plan.effectGroups))
    else s.committedGroups == map[] && s.postedKeys == s.keyClaim.Keys
  }

  ghost predicate Recorded(plan: CoordinationPlan, s: EvalState) {
    ClaimsOk(plan, s) && StatusOk(plan, s) && GroupsOk(plan, s)
  }

  function EmptyState(start: map<Account, I64>): EvalState {
    EvalState(start, {}, map[], map[], map[])
  }

  // ---------------------------------------------------------------- what one commit writes

  /** The records after a commit of some groups under `claim`, which may make its key terminal. */
  ghost predicate Writes(plan: CoordinationPlan, s: EvalState, next: EvalState, claim: Claim,
                         committing: set<string>, terminal: bool)
  {
    var key := claim.key;
    && next.keyClaim == s.keyClaim[key := claim]
    && next.committedGroups ==
         (if IsTemporal(plan) then s.committedGroups[key := CommittedSoFar(s, key) + committing] else s.committedGroups)
    && next.postedKeys == s.postedKeys + (if terminal then {key} else {})
    && next.keyStatus == (if terminal then s.keyStatus[key := plan.success] else s.keyStatus)
  }

  /** A commit that the evaluator may make: of plan groups, under the one claim of its key. */
  ghost predicate MayWrite(plan: CoordinationPlan, s: EvalState, claim: Claim, committing: set<string>,
                           terminal: bool) {
    && claim.coordination == plan
    && (claim.key in s.keyClaim ==> s.keyClaim[claim.key] == claim)
    && committing <= GroupKeys(plan.effectGroups)
    && (IsTemporal(plan) || terminal)
  }

  /** What one step may change: one key's entry, which only grows; everything else is untouched. */
  ghost predicate GrowsAt(s: EvalState, next: EvalState, key: string) {
    && (forall k :: k in s.keyClaim ==> k in next.keyClaim && next.keyClaim[k] == s.keyClaim[k])
    && (forall k :: k in s.keyStatus ==> k in next.keyStatus && next.keyStatus[k] == s.keyStatus[k])
    && (forall k :: CommittedSoFar(s, k) <= CommittedSoFar(next, k))
    && s.postedKeys <= next.postedKeys
    && (forall k :: k != key ==>
          && (k in next.keyClaim <==> k in s.keyClaim)
          && (k in next.keyStatus <==> k in s.keyStatus)
          && (k in next.postedKeys <==> k in s.postedKeys)
          && CommittedSoFar(next, k) == CommittedSoFar(s, k))
  }

  lemma NothingGrows(s: EvalState, key: string)
    ensures GrowsAt(s, s, key)
  {
  }

  lemma WriteGrows(plan: CoordinationPlan, s: EvalState, next: EvalState, claim: Claim, committing: set<string>,
                   terminal: bool)
    requires StatusOk(plan, s) && Writes(plan, s, next, claim, committing, terminal)
    requires MayWrite(plan, s, claim, committing, terminal)
    ensures GrowsAt(s, next, claim.key)
  {
    forall k
      ensures CommittedSoFar(s, k) <= CommittedSoFar(next, k)
      ensures k != claim.key ==> CommittedSoFar(next, k) == CommittedSoFar(s, k)
    {
    }
    hide GroupKeys, IsTemporal, CommittedSoFar;
  }

  lemma WriteKeepsClaims(plan: CoordinationPlan, s: EvalState, next: EvalState, claim: Claim, committing: set<string>,
                         terminal: bool)
    requires ClaimsOk(plan, s) && claim.coordination == plan && Writes(plan, s, next, claim, committing, terminal)
    ensures ClaimsOk(plan, next)
  {
    hide IsTemporal, CommittedSoFar;
  }

  lemma WriteKeepsStatus(plan: CoordinationPlan, s: EvalState, next: EvalState, claim: Claim, committing: set<string>,
                         terminal: bool)
    requires StatusOk(plan, s) && Writes(plan, s, next, claim, committing, terminal)
    ensures StatusOk(plan, next)
  {
    hide IsTemporal, CommittedSoFar;
    assert next.keyClaim.Keys == s.keyClaim.Keys + {claim.key};
    assert next.keyStatus.Keys == s.keyStatus.Keys + if terminal then {claim.key} else {};
  }

  lemma WriteKeepsGroups(plan: CoordinationPlan, s: EvalState, next: EvalState, claim: Claim, committing: set<string>,
                         terminal: bool)
    requires GroupsOk(plan, s) && Writes(plan, s, next, claim, committing, terminal)
    requires MayWrite(plan, s, claim, committing, terminal)
    ensures GroupsOk(plan, next)
  {
    hide IsTemporal, GroupKeys;
    assert next.keyClaim.Keys == s.keyClaim.Keys + {claim.key};
    if IsTemporal(plan) {
      assert next.committedGroups.Keys == s.committedGroups.Keys + {claim.key};
      assert next.committedGroups[claim.key] == CommittedSoFar(s, claim.key) + committing;
    }
  }

  lemma WriteKeepsRecords(plan: CoordinationPlan, s: EvalState, next: EvalState, claim: Claim, committing: set<string>,
                          terminal: bool)
    requires Recorded(plan, s) && Writes(plan, s, next, claim, committing, terminal)
    requires MayWrite(plan, s, claim, committing, terminal)
    ensures Recorded(plan, next) && GrowsAt(s, next, claim.key)
  {
    WriteKeepsClaims(plan, s, next, claim, committing, terminal);
    WriteKeepsStatus(plan, s, next, claim, committing, terminal);
    WriteKeepsGroups(plan, s, next, claim, committing, terminal);
    WriteGrows(plan, s, next, claim, committing, terminal);
    hide Writes, MayWrite, ClaimsOk, StatusOk, GroupsOk, GrowsAt;
  }

  // ---------------------------------------------------------------- each path writes like that

  lemma EvidenceWrites(plan: CoordinationPlan, s: EvalState, input: TransitionInput, claim: Claim, trace: seq<Obs>)
    requires !IsTemporal(plan)
    ensures var next := EvidencePath(plan, s, input, claim.key, claim, trace).next;
      next == s || Writes(plan, s, next, claim, {}, true)
  {
    hide EvidenceFault, EvidenceObs, IsTemporal;
  }

  lemma AtomicWrites(plan: CoordinationPlan, s: EvalState, input: TransitionInput, claim: Claim, env: Env,
                     trace: seq<Obs>)
    requires !IsTemporal(plan)
    ensures var next := AtomicPath(plan, s, input, claim.key, claim, env, trace).next;
      next == s || Writes(plan, s, next, claim, {}, true)
  {
    hide StageAtomic, DeltaObs, EventObs', ObligationObs', IsTemporal;
  }

  lemma GroupsWrite(plan: CoordinationPlan, s: EvalState, claim: Claim, env: Env, committing: set<string>,
                    st: Evaluator.Staging)
    requires WellIndexed(plan) && IsTemporal(plan)
    ensures var terminal := RequiredKeys(plan, env) <= CommittedSoFar(s, claim.key) + committing;
      Writes(plan, s, CommitGroups(plan, s, claim.key, claim, env, committing, st).next, claim, committing, terminal)
  {
    hide RequiredKeys, WellIndexed, IsTemporal, DeltaObs, EventObs';
  }

  lemma CommittingAreGroups(plan: CoordinationPlan, env: Env, soFar: set<string>)
    requires WellIndexed(plan)
    ensures CommittingKeys(plan, env, soFar) <= GroupKeys(plan.effectGroups)
  {
  }

  lemma TemporalWrites(plan: CoordinationPlan, s: EvalState, input: TransitionInput, claim: Claim, env: Env,
                       trace: seq<Obs>)
    requires WellIndexed(plan) && IsTemporal(plan)
    ensures var next, soFar := TemporalPath(plan, s, input, claim.key, claim, env, trace).next,
        CommittedSoFar(s, claim.key);
      var committing := CommittingKeys(plan, env, soFar);
      || next == s
      || (&& committing <= GroupKeys(plan.effectGroups)
          && Writes(plan, s, next, claim, committing, RequiredKeys(plan, env) <= soFar + committing))
  {
    var soFar := CommittedSoFar(s, claim.key);
    var r := StageGroups(plan, plan.effectGroups, env, input.symbols, soFar, Evaluator.Staging(s.balances, [], trace));
    CommittingAreGroups(plan, env, soFar);
    if r.Staged? {
      GroupsWrite(plan, s, claim, env, CommittingKeys(plan, env, soFar), r.st);
    }
    hide WellIndexed, IsTemporal, CommittingKeys, RequiredKeys, StageGroups, GroupFault, LedgerValid, CommitGroups,
         Writes, GroupKeys, CommittedSoFar;
  }

  /** With distinct group keys, a key is committing exactly when its own group is committable. */
  lemma CommittingIsOwn(plan: CoordinationPlan, env: Env, soFar: set<string>, j: nat)
    requires WellIndexed(plan) && Ordered(plan.effectGroups) && j < |plan.effectGroups|
    ensures plan.effectGroups[j].guardKey in CommittingKeys(plan, env, soFar)
       <==> Committable(plan, plan.effectGroups[j], env, soFar)
  {
    hide Committable;
    var key := plan.effectGroups[j].guardKey;
    if key in CommittingKeys(plan, env, soFar) {
      var i :| 0 <= i < |plan.effectGroups| && Committable(plan, plan.effectGroups[i], env, soFar)
        && plan.effectGroups[i].guardKey == key;
      assert i == j;
    }
  }

  lemma AttemptCases(plan: CoordinationPlan, s: EvalState, input: TransitionInput, claim: Claim, trace: seq<Obs>)
    requires WellIndexed(plan) && FoldComputes(plan.computes, input.numeric, trace).Folded?
    ensures var folded := FoldComputes(plan.computes, input.numeric, trace);
      var env := SeedAccepted(plan.attestations, input, folded.env);
      Attempt(plan, s, input, claim.key, claim, trace) ==
        if IsEvidenceOnly(plan) then EvidencePath(plan, s, input, claim.key, claim, folded.trace)
        else if IsTemporal(plan) then TemporalPath(plan, s, input, claim.key, claim, env, folded.trace)
        else AtomicPath(plan, s, input, claim.key, claim, env, folded.trace)
    ensures IsEvidenceOnly(plan) ==> !IsTemporal(plan)
  {
  }

  /** Every attempt leaves the records alone or makes one commit under its claim. */
  lemma AttemptKeepsRecords(plan: CoordinationPlan, s: EvalState, input: TransitionInput, claim: Claim, trace: seq<Obs>)
    requires WellIndexed(plan) && Recorded(plan, s)
    requires claim.coordination == plan && (claim.key in s.keyClaim ==> s.keyClaim[claim.key] == claim)
    ensures var next := Attempt(plan, s, input, claim.key, claim, trace).next;
      Recorded(plan, next) && GrowsAt(s, next, claim.key)
  {
    var next := Attempt(plan, s, input, claim.key, claim, trace).next;
    var folded := FoldComputes(plan.computes, input.numeric, trace);
    NothingGrows(s, claim.key);
    if folded.Folded? {
      var env := SeedAccepted(plan.attestations, input, folded.env);
      assert IsEvidenceOnly(plan) ==> !IsTemporal(plan);
      hide FoldComputes, SeedAccepted, EvidencePath, TemporalPath, AtomicPath, IsTemporal, IsEvidenceOnly, WellIndexed,
           Writes, Recorded, GrowsAt, CommittingKeys, RequiredKeys, GroupKeys, CommittedSoFar;
      if IsTemporal(plan) {
        var soFar := CommittedSoFar(s, claim.key);
        var committing := CommittingKeys(plan, env, soFar);
        TemporalWrites(plan, s, input, claim, env, folded.trace);
        if next != s {
          WriteKeepsRecords(plan, s, next, claim, committing, RequiredKeys(plan, env) <= soFar + committing);
        }
      } else {
        EvidenceWrites(plan, s, input, claim, folded.trace);
        AtomicWrites(plan, s, input, claim, env, folded.trace);
        if next != s {
          WriteKeepsRecords(plan, s, next, claim, {}, true);
        }
      }
    }
  }

  /** Every transition keeps the records in order and changes one key's entry at most. */
  lemma TransitionKeepsRecords(plan: CoordinationPlan, s: EvalState, input: TransitionInput)
    requires WellIndexed(plan) && Recorded(plan, s)
    ensures Recorded(plan, EvaluateTransition(plan, s, input).next)
    ensures GrowsAt(s, EvaluateTransition(plan, s, input).next, KeyValue(plan, input))
  {
    var trace := [AuthorizationObs(input.authorized)];
    var key, typed := KeyValue(plan, input), TypedInputs(plan.inputs, input);
    NothingGrows(s, key);
    hide KeyValue, TypedInputs, WellIndexed, Recorded, Attempt, GrowsAt;
    if input.authorized && key != "" && typed.Ok? {
      var claim := Claim(plan, key, typed.value);
      if key in s.keyClaim ==> s.keyClaim[key] == claim {
        AttemptKeepsRecords(plan, s, input, claim, trace);
      }
    }
  }

  lemma FreeKeys(plan: CoordinationPlan, s: EvalState, key: string)
    requires Recorded(plan, s)
    ensures !IsTemporal(plan) && key !in s.postedKeys ==> key !in s.keyClaim
    ensures key !in s.keyClaim ==> CommittedSoFar(s, key) == {}
  {
    hide GroupKeys;
  }

  // ---------------------------------------------------------------- whole runs

  /** In every reachable state the records are in order. */
  lemma {:induction false} RunRecorded(plan: CoordinationPlan, start: map<Account, I64>, inputs: seq<TransitionInput>)
    requires WellIndexed(plan)
    ensures Recorded(plan, RunFrom(plan, EmptyState(start), inputs))
  {
    if inputs != [] {
      hide WellIndexed, Recorded, EvaluateTransition, GrowsAt;
      RunRecorded(plan, start, inputs[..|inputs| - 1]);
      TransitionKeepsRecords(plan, RunFrom(plan, EmptyState(start), inputs[..|inputs| - 1]), inputs[|inputs| - 1]);
    }
  }

  /** Once set, a claim, a status and a commit stay, however the run goes on. */
  lemma {:induction false} RecordsStay(plan: CoordinationPlan, start: map<Account, I64>, xs: seq<TransitionInput>,
                                       ys: seq<TransitionInput>, k: string)
    requires WellIndexed(plan)
    ensures var s, t := RunFrom(plan, EmptyState(start), xs), RunFrom(plan, EmptyState(start), xs + ys);
      && (k in s.keyClaim ==> k in t.keyClaim && t.keyClaim[k] == s.keyClaim[k])
      && (k in s.keyStatus ==> k in t.keyStatus && t.keyStatus[k] == s.keyStatus[k])
      && CommittedSoFar(s, k) <= CommittedSoFar(t, k)
    decreases |ys|
  {
    if ys == [] {
      assert xs + ys == xs;
    } else {
      var n := |ys| - 1;
      assert xs + ys == (xs + ys[..n]) + [ys[n]];
      assert (xs + ys)[..|xs + ys| - 1] == xs + ys[..n];
      RecordsStay(plan, start, xs, ys[..n], k);
      RunRecorded(plan, start, xs + ys[..n]);
      hide WellIndexed, Recorded, EvaluateTransition;
      TransitionKeepsRecords(plan, RunFrom(plan, EmptyState(start), xs + ys[..n]), ys[n]);
    }
  }
}
