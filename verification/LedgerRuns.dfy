/** The ledger invariant over whole runs, and what follows from it. */
module LedgerRuns {
  import opened Wrappers
  import opened Decimal
  import opened Expr
  import opened SetSums
  import opened Evaluator
  import opened Postings
  import opened Payload
  import opened Bookkeeping
  import opened Ledger
  import opened Conservation

  // ---------------------------------------------------------------- when a key is terminal

  lemma WriteMovesKey(plan: CoordinationPlan, s: EvalState, next: EvalState, claim: Claim, committing: set<string>,
                      terminal: bool, k: string)
    requires IsTemporal(plan) && Writes(plan, s, next, claim, committing, terminal)
    ensures k != claim.key ==>
      && (k in next.keyClaim <==> k in s.keyClaim) && (k in s.keyClaim ==> next.keyClaim[k] == s.keyClaim[k])
      && (k in next.postedKeys <==> k in s.postedKeys) && CommittedSoFar(next, k) == CommittedSoFar(s, k)
    ensures claim.key in next.keyClaim && next.keyClaim[claim.key] == claim
    ensures claim.key in next.postedKeys <==> terminal || claim.key in s.postedKeys
    ensures CommittedSoFar(next, claim.key) == CommittedSoFar(s, claim.key) + committing
  {
    hide IsTemporal;
  }

  /** A commit keeps the terminal keys right if its own verdict follows from its claim. */
  lemma WriteKeepsTerminals(plan: CoordinationPlan, s: EvalState, next: EvalState, claim: Claim,
                            committing: set<string>)
    requires WellIndexed(plan) && IsTemporal(plan) && StatusOk(plan, s) && TerminalOk(plan, s)
    requires claim.key in s.keyClaim ==> s.keyClaim[claim.key] == claim
    requires Writes(plan, s, next, claim, committing,
                    RequiredBy(plan, claim) <= CommittedSoFar(s, claim.key) + committing)
    ensures TerminalOk(plan, next)
  {
    var terminal := RequiredBy(plan, claim) <= CommittedSoFar(s, claim.key) + committing;
    hide WellIndexed, RequiredBy, IsTemporal, CommittedSoFar, Writes;
    WriteMovesKey(plan, s, next, claim, committing, terminal, claim.key);
    forall k | k in next.keyClaim
      ensures k in next.postedKeys <==> RequiredBy(plan, next.keyClaim[k]) <= CommittedSoFar(next, k)
    {
      WriteMovesKey(plan, s, next, claim, committing, terminal, k);
    }
  }

  lemma TemporalKeepsTerminals(plan: CoordinationPlan, s: EvalState, input: TransitionInput, claim: Claim, env: Env,
                               trace: seq<Obs>)
    requires WellIndexed(plan) && GuardsClosed(plan) && IsTemporal(plan) && StatusOk(plan, s) && TerminalOk(plan, s)
    requires Agree(Scope(plan), env, ClaimEnv(plan, claim.payload))
    requires claim.key in s.keyClaim ==> s.keyClaim[claim.key] == claim
    ensures TerminalOk(plan, TemporalPath(plan, s, input, claim.key, claim, env, trace).next)
  {
    hide *;
    var next, soFar := TemporalPath(plan, s, input, claim.key, claim, env, trace).next, CommittedSoFar(s, claim.key);
    if next != s {
      TemporalWrites(plan, s, input, claim, env, trace);
      TemporalReachesCommit(plan, s, input, claim.key, claim, env, trace);
      RequiredFromClaim(plan, env, claim);
      WriteKeepsTerminals(plan, s, next, claim, CommittingKeys(plan, env, soFar));
    }
  }

  lemma NotTemporalIsOk(plan: CoordinationPlan, s: EvalState)
    requires WellIndexed(plan) && !IsTemporal(plan)
    ensures TerminalOk(plan, s)
  {
  }

  lemma AttemptKeepsTerminals(plan: CoordinationPlan, s: EvalState, input: TransitionInput, claim: Claim,
                              trace: seq<Obs>)
    requires WellIndexed(plan) && GuardsClosed(plan) && StatusOk(plan, s) && TerminalOk(plan, s)
    requires ClaimOf(plan, input) == Some(claim) && (claim.key in s.keyClaim ==> s.keyClaim[claim.key] == claim)
    ensures TerminalOk(plan, Attempt(plan, s, input, claim.key, claim, trace).next)
  {
    var folded := FoldComputes(plan.computes, input.numeric, trace);
    if !IsTemporal(plan) {
      NotTemporalIsOk(plan, Attempt(plan, s, input, claim.key, claim, trace).next);
    } else if folded.Folded? {
      var env := SeedAccepted(plan.attestations, input, folded.env);
      ClaimFixesEnv(plan, input, trace);
      assert claim.payload == TypedInputs(plan.inputs, input).value;
      hide *;
      AttemptCases(plan, s, input, claim, trace);
      TemporalKeepsTerminals(plan, s, input, claim, env, folded.trace);
    }
  }

  /**
   Every transition keeps it: a key is terminal exactly when every group its claim requires is
   committed. Only guards and computes need to be closed for this.
   */
  lemma TransitionKeepsTerminals(plan: CoordinationPlan, s: EvalState, input: TransitionInput)
    requires WellIndexed(plan) && GuardsClosed(plan) && StatusOk(plan, s) && TerminalOk(plan, s)
    ensures TerminalOk(plan, EvaluateTransition(plan, s, input).next)
  {
    var trace := [AuthorizationObs(input.authorized)];
    var key, typed := KeyValue(plan, input), TypedInputs(plan.inputs, input);
    if input.authorized && key != "" && typed.Ok? {
      var claim := Claim(plan, key, typed.value);
      assert ClaimOf(plan, input) == Some(claim);
      hide KeyValue, TypedInputs, WellIndexed, GuardsClosed, TerminalOk, Attempt, ClaimOf, StatusOk;
      if key in s.keyClaim ==> s.keyClaim[key] == claim {
        AttemptKeepsTerminals(plan, s, input, claim, trace);
      }
    }
  }

  lemma {:induction false} TerminalExactly(plan: CoordinationPlan, start: map<Account, I64>,
                                           inputs: seq<TransitionInput>)
    requires WellIndexed(plan) && GuardsClosed(plan)
    ensures TerminalOk(plan, RunFrom(plan, EmptyState(start), inputs))
  {
    if inputs != [] {
      hide WellIndexed, GuardsClosed, TerminalOk, EvaluateTransition;
      TerminalExactly(plan, start, inputs[..|inputs| - 1]);
      RunRecorded(plan, start, inputs[..|inputs| - 1]);
      TransitionKeepsTerminals(plan, RunFrom(plan, EmptyState(start), inputs[..|inputs| - 1]), inputs[|inputs| - 1]);
    }
  }

  // ---------------------------------------------------------------- one transition

  lemma AttemptKeepsLedger(plan: CoordinationPlan, start: map<Account, I64>, s: EvalState, input: TransitionInput,
                           claim: Claim, trace: seq<Obs>)
    requires LedgerPlan(plan) && Recorded(plan, s) && LedgerOk(plan, start, s)
    requires ClaimOf(plan, input) == Some(claim)
    requires claim.key !in s.postedKeys && (claim.key in s.keyClaim ==> s.keyClaim[claim.key] == claim)
    ensures LedgerOk(plan, start, Attempt(plan, s, input, claim.key, claim, trace).next)
  {
    var folded := FoldComputes(plan.computes, input.numeric, trace);
    if folded.Folded? {
      var env := SeedAccepted(plan.attestations, input, folded.env);
      assert Attempting(plan, s, env, input.symbols, claim) by {
        ClaimFixesEnv(plan, input, trace);
        TokensAgreeWithClaim(plan, input);
      }
      FreeKeys(plan, s, claim.key);
      hide *;
      AttemptCases(plan, s, input, claim, trace);
      if IsEvidenceOnly(plan) {
        EvidenceStep(plan, start, s, input, claim, folded.trace);
      } else if IsTemporal(plan) {
        TemporalStep(plan, start, s, input, claim, env, folded.trace);
      } else {
        AtomicStep(plan, start, s, input, claim, env, folded.trace);
      }
    }
  }

  lemma EvidenceStep(plan: CoordinationPlan, start: map<Account, I64>, s: EvalState, input: TransitionInput,
                     claim: Claim, trace: seq<Obs>)
    requires LedgerPlan(plan) && LedgerOk(plan, start, s) && IsEvidenceOnly(plan) && claim.key !in s.keyClaim
    ensures LedgerOk(plan, start, EvidencePath(plan, s, input, claim.key, claim, trace).next)
  {
    hide *;
    var next := EvidencePath(plan, s, input, claim.key, claim, trace).next;
    EvidenceCommits(plan, s, input, claim, trace);
    if next != s {
      CommitKeepsLedger(plan, start, s, next, claim, {}, [], true);
    }
  }

  lemma AtomicStep(plan: CoordinationPlan, start: map<Account, I64>, s: EvalState, input: TransitionInput,
                   claim: Claim, env: Env, trace: seq<Obs>)
    requires LedgerPlan(plan) && LedgerOk(plan, start, s) && !IsTemporal(plan)
    requires Attempting(plan, s, env, input.symbols, claim) && claim.key !in s.keyClaim
    ensures LedgerOk(plan, start, AtomicPath(plan, s, input, claim.key, claim, env, trace).next)
  {
    hide *;
    var next := AtomicPath(plan, s, input, claim.key, claim, env, trace).next;
    AtomicCommits(plan, s, input, claim, env, trace);
    if next != s {
      CommitKeepsLedger(plan, start, s, next, claim, {}, AtomicPostings(plan.effects, env, input.symbols), true);
    }
  }

  lemma TemporalStep(plan: CoordinationPlan, start: map<Account, I64>, s: EvalState, input: TransitionInput,
                     claim: Claim, env: Env, trace: seq<Obs>)
    requires LedgerPlan(plan) && WellIndexed(plan) && Indexed(plan, plan.effectGroups)
    requires LedgerOk(plan, start, s) && IsTemporal(plan)
    requires Attempting(plan, s, env, input.symbols, claim)
    requires claim.key !in s.keyClaim ==> CommittedSoFar(s, claim.key) == {}
    ensures LedgerOk(plan, start, TemporalPath(plan, s, input, claim.key, claim, env, trace).next)
  {
    hide *;
    var next, soFar := TemporalPath(plan, s, input, claim.key, claim, env, trace).next, CommittedSoFar(s, claim.key);
    var committing, posted := CommittingKeys(plan, env, soFar),
        GroupPostings(plan, plan.effectGroups, env, input.symbols, soFar);
    if next != s {
      TemporalCommits(plan, s, input, claim, env, trace);
      CommitKeepsLedger(plan, start, s, next, claim, committing, posted, RequiredKeys(plan, env) <= soFar + committing);
    }
  }

  lemma TransitionKeepsLedger(plan: CoordinationPlan, start: map<Account, I64>, s: EvalState, input: TransitionInput)
    requires LedgerPlan(plan) && WellIndexed(plan) && Recorded(plan, s) && LedgerOk(plan, start, s)
    ensures LedgerOk(plan, start, EvaluateTransition(plan, s, input).next)
  {
    var trace := [AuthorizationObs(input.authorized)];
    var key, typed := KeyValue(plan, input), TypedInputs(plan.inputs, input);
    if input.authorized && key != "" && typed.Ok? {
      var claim := Claim(plan, key, typed.value);
      assert ClaimOf(plan, input) == Some(claim);
      assert plan.idempotent;
      hide KeyValue, TypedInputs, LedgerPlan, WellIndexed, LedgerOk, Recorded, Attempt, ClaimOf;
      if !(key in s.keyClaim && s.keyClaim[key] != claim) && key !in s.postedKeys {
        AttemptKeepsLedger(plan, start, s, input, claim, trace);
      }
    }
  }

  lemma LedgerPlanParts(plan: CoordinationPlan)
    requires LedgerPlan(plan)
    ensures WellIndexed(plan) && Indexed(plan, plan.effectGroups) && GuardsClosed(plan) && plan.idempotent
  {
  }

  lemma ExplainedParts(plan: CoordinationPlan, start: map<Account, I64>, s: EvalState)
    requires LedgerPlan(plan)
    ensures Explained(plan, start, s) <==> Recorded(plan, s) && TerminalOk(plan, s) && LedgerOk(plan, start, s)
    ensures Recorded(plan, s) ==> StatusOk(plan, s)
  {
    hide LedgerOk, TerminalOk, ClaimsOk, GroupsOk;
  }

  /** Every transition keeps the state explained. */
  lemma TransitionKeeps(plan: CoordinationPlan, start: map<Account, I64>, s: EvalState, input: TransitionInput)
    requires LedgerPlan(plan) && WellIndexed(plan) && Explained(plan, start, s)
    ensures Explained(plan, start, EvaluateTransition(plan, s, input).next)
  {
    hide *;
    LedgerPlanParts(plan);
    ExplainedParts(plan, start, s);
    TransitionKeepsRecords(plan, s, input);
    TransitionKeepsTerminals(plan, s, input);
    TransitionKeepsLedger(plan, start, s, input);
    ExplainedParts(plan, start, EvaluateTransition(plan, s, input).next);
  }

  // ---------------------------------------------------------------- whole runs

  /** In every reachable state each balance is the start balance plus the recorded commits, each once. */
  lemma {:induction false} RunExplained(plan: CoordinationPlan, start: map<Account, I64>, inputs: seq<TransitionInput>)
    requires LedgerPlan(plan) && WellIndexed(plan)
    ensures Explained(plan, start, RunFrom(plan, EmptyState(start), inputs))
  {
    if inputs == [] {
      EmptyIsExplained(plan, start);
    } else {
      hide LedgerPlan, WellIndexed, Explained, EvaluateTransition;
      RunExplained(plan, start, inputs[..|inputs| - 1]);
      TransitionKeeps(plan, start, RunFrom(plan, EmptyState(start), inputs[..|inputs| - 1]), inputs[|inputs| - 1]);
    }
  }

  /** Claims and commit ledgers decide the balances: how two runs got there does not matter. */
  lemma SameLedgerSameBalances(plan: CoordinationPlan, start: map<Account, I64>, xs: seq<TransitionInput>,
                               ys: seq<TransitionInput>, a: Account)
    requires LedgerPlan(plan) && WellIndexed(plan)
    requires RunFrom(plan, EmptyState(start), xs).keyClaim == RunFrom(plan, EmptyState(start), ys).keyClaim
    requires RunFrom(plan, EmptyState(start), xs).committedGroups
        == RunFrom(plan, EmptyState(start), ys).committedGroups
    ensures Balance(RunFrom(plan, EmptyState(start), xs).balances, a)
        == Balance(RunFrom(plan, EmptyState(start), ys).balances, a)
  {
    var s, t := RunFrom(plan, EmptyState(start), xs), RunFrom(plan, EmptyState(start), ys);
    RunExplained(plan, start, xs);
    RunExplained(plan, start, ys);
    assert LedgerOk(plan, start, s) && LedgerOk(plan, start, t);
    hide RunFrom, KeyNet;
    SumSame(s.keyClaim.Keys, KeyNetAt(plan, s, a), KeyNetAt(plan, t, a));
  }
}
