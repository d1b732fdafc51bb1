/**
 What the observation trace says about a transition: its ledger deltas are exactly the balance
 changes, its terminal is exactly the recorded status, and its length is bounded by the plan.
 */
module Traces {
  import opened Wrappers
  import opened Expr
  import opened Plan
  import opened Evaluator
  import opened Postings

  /** The postings a trace reports, in order. */
  function DeltasOf(trace: seq<Obs>): seq<Posting> {
    if trace == [] then []
    else (if trace[0].LedgerDeltaObs? then [trace[0].posting] else []) + DeltasOf(trace[1..])
  }

  /** The terminal states a trace reports, in order. */
  function TerminalsOf(trace: seq<Obs>): seq<string> {
    if trace == [] then []
    else (if trace[0].TerminalObs? then [trace[0].state] else []) + TerminalsOf(trace[1..])
  }

  predicate IsQuiet(o: Obs) {
    !o.LedgerDeltaObs? && !o.TerminalObs?
  }

  /** A trace that reports neither a ledger delta nor a terminal. */
  ghost predicate Quiet(trace: seq<Obs>) {
    forall o :: o in trace ==> IsQuiet(o)
  }

  lemma {:induction false} DeltasAppend(a: seq<Obs>, b: seq<Obs>)
    ensures DeltasOf(a + b) == DeltasOf(a) + DeltasOf(b)
  {
    if a == [] {
      assert a + b == b;
    } else {
      var head := if a[0].LedgerDeltaObs? then [a[0].posting] else [];
      DeltasAppend(a[1..], b);
      assert DeltasOf(a) == head + DeltasOf(a[1..]);
      assert (a + b)[1..] == a[1..] + b && (a + b)[0] == a[0];
      assert DeltasOf(a + b) == head + DeltasOf(a[1..] + b);
    }
  }

  lemma {:induction false} TerminalsAppend(a: seq<Obs>, b: seq<Obs>)
    ensures TerminalsOf(a + b) == TerminalsOf(a) + TerminalsOf(b)
  {
    if a == [] {
      assert a + b == b;
    } else {
      var head := if a[0].TerminalObs? then [a[0].state] else [];
      TerminalsAppend(a[1..], b);
      assert TerminalsOf(a) == head + TerminalsOf(a[1..]);
      assert (a + b)[1..] == a[1..] + b && (a + b)[0] == a[0];
      assert TerminalsOf(a + b) == head + TerminalsOf(a[1..] + b);
    }
  }

  lemma {:induction false} QuietReportsNothing(trace: seq<Obs>)
    requires Quiet(trace)
    ensures DeltasOf(trace) == [] && TerminalsOf(trace) == []
  {
    if trace != [] {
      assert trace[0] in trace;
      QuietReportsNothing(trace[1..]);
    }
  }

  lemma QuietGrows(trace: seq<Obs>, more: seq<Obs>)
    requires Quiet(trace) && Quiet(more)
    ensures Quiet(trace + more)
  {
  }

  // ---------------------------------------------------------------- staging observes guards and evidence only

  lemma {:induction false} FoldIsQuiet(computes: seq<PlanCompute>, env: Env, trace: seq<Obs>)
    requires Quiet(trace)
    ensures Quiet(FoldComputes(computes, env, trace).trace)
    ensures |FoldComputes(computes, env, trace).trace| <= |trace| + |computes|
    ensures FoldComputes(computes, env, trace).Folded? ==>
        |FoldComputes(computes, env, trace).trace| == |trace| + |computes|
    decreases |computes|
  {
    if computes != [] && computes[0].expr.Some? {
      var v := EvalExpr(computes[0].expr.value, env);
      if v.Ok? {
        hide EvalExpr;
        FoldIsQuiet(computes[1..], env[computes[0].name := v.value], trace + [ComputeObs(computes[0].name, v.value)]);
      }
    }
  }

  predicate Guarded(e: PlanEffect) {
    e.guard.Some?
  }

  predicate Attested(e: PlanEffect) {
    e.attestationInput != ""
  }

  /** The observations staging makes of one effect, its posting aside. */
  function Looks(e: PlanEffect, env: Env): nat {
    (if Guarded(e) then 1 else 0) + (if Firing(e, env) && Attested(e) then 1 else 0)
  }

  function AllLooks(effects: seq<PlanEffect>, env: Env): nat {
    if effects == [] then 0 else Looks(effects[0], env) + AllLooks(effects[1..], env)
  }

  lemma {:induction false} LooksBounded(effects: seq<PlanEffect>, env: Env)
    ensures AllLooks(effects, env) <= 2 * |effects|
  {
    if effects != [] {
      LooksBounded(effects[1..], env);
    }
  }

  lemma StageLegTrace(e: PlanEffect, env: Env, symbols: map<string, string>, st: Evaluator.Staging)
    ensures var r := StageLeg(e, env, symbols, st); (if r.Staged? then r.st.trace else r.trace) == st.trace
  {
    hide ResolveLeg;
  }

  lemma ObserveIsQuiet(e: PlanEffect, held: bool, env: Env, input: TransitionInput, st: Evaluator.Staging)
    requires Quiet(st.trace) && (held <==> Firing(e, env))
    ensures Quiet(Observe(e, held, input, st).trace)
    ensures |Observe(e, held, input, st).trace| == |st.trace| + Looks(e, env)
  {
    hide Firing, PolicyAccepted;
  }

  lemma {:induction false} AtomicIsQuiet(effects: seq<PlanEffect>, env: Env, input: TransitionInput,
                                         st: Evaluator.Staging)
    requires Quiet(st.trace)
    ensures var r := StageAtomic(effects, env, input, st);
      && Quiet(if r.Staged? then r.st.trace else r.trace)
      && (r.Staged? ==> |r.st.trace| == |st.trace| + AllLooks(effects, env))
      && (r.Stopped? ==> |r.trace| <= |st.trace| + AllLooks(effects, env))
    decreases |effects|
  {
    if effects != [] {
      AtomicStaging(effects, env, input, st);
      var e := effects[0];
      var held := if e.guard.Some? then EvalGuard(e.guard.value, env) else Ok(true);
      hide StageLeg, EvalGuard, PolicyAccepted, StageAtomic, Observe, Quiet, Looks, Firing;
      if KnownKind(e) && held.Ok? {
        var seen := Observe(e, held.value, input, st);
        ObserveIsQuiet(e, held.value, env, input, st);
        if !held.value {
          AtomicIsQuiet(effects[1..], env, input, seen);
        } else {
          StageLegTrace(e, env, input.symbols, seen);
          if StageLeg(e, env, input.symbols, seen).Staged? {
            AtomicIsQuiet(effects[1..], env, input, StageLeg(e, env, input.symbols, seen).st);
          }
        }
      }
    }
  }

  lemma {:induction false} GroupIsQuiet(effects: seq<PlanEffect>, env: Env, symbols: map<string, string>,
                                        st: Evaluator.Staging)
    ensures var r := StageGroup(effects, env, symbols, st); (if r.Staged? then r.st.trace else r.trace) == st.trace
    decreases |effects|
  {
    if effects != [] && KnownKind(effects[0]) {
      var r := StageLeg(effects[0], env, symbols, st);
      StageLegTrace(effects[0], env, symbols, st);
      if r.Staged? {
        GroupIsQuiet(effects[1..], env, symbols, r.st);
      }
    }
  }

  lemma {:induction false} GroupsAreQuiet(
      plan: CoordinationPlan, groups: seq<EffectGroup>, env: Env, symbols: map<string, string>,
      soFar: set<string>, st: Evaluator.Staging)
    requires Indexed(plan, groups) && Quiet(st.trace)
    ensures var r := StageGroups(plan, groups, env, symbols, soFar, st);
      var trace := if r.Staged? then r.st.trace else r.trace;
      Quiet(trace) && |trace| <= |st.trace| + |groups|
    decreases |groups|
  {
    if groups != [] {
      hide Committable, HoldsNow, StageGroup, Select, GroupGuard;
      var g, seen := groups[0], SeeGroup(plan, groups[0], env, st);
      if !Committable(plan, g, env, soFar) {
        GroupsAreQuiet(plan, groups[1..], env, symbols, soFar, seen);
      } else {
        var legs := Select(plan.effects, g.effectIndices);
        var r := StageGroup(legs, env, symbols, seen);
        GroupIsQuiet(legs, env, symbols, seen);
        if r.Staged? {
          GroupsAreQuiet(plan, groups[1..], env, symbols, soFar, r.st);
        }
      }
    }
  }

  lemma {:induction false} EvidenceIsQuiet(policies: seq<string>, input: TransitionInput)
    ensures Quiet(EvidenceObs(policies, input))
    ensures |EvidenceObs(policies, input)| <= |policies|
    ensures EvidenceFault(policies, input).None? ==> |EvidenceObs(policies, input)| == |policies|
  {
    if policies != [] {
      EvidenceIsQuiet(policies[1..], input);
    }
  }

  lemma {:induction false} EventsAreQuiet(pending: seq<Posting>)
    ensures Quiet(EventObs'(pending)) && |EventObs'(pending)| == |pending|
  {
    if pending != [] {
      EventsAreQuiet(pending[1..]);
    }
  }

  lemma {:induction false} ObligationsAreQuiet(obligations: seq<Obligation>, env: Env, pending: seq<Posting>)
    ensures Quiet(ObligationObs'(obligations, env, pending))
        && |ObligationObs'(obligations, env, pending)| == |obligations|
  {
    if obligations != [] {
      hide ObligationStatusOf;
      ObligationsAreQuiet(obligations[1..], env, pending);
    }
  }

  lemma {:induction false} DeltasReported(pending: seq<Posting>)
    ensures DeltasOf(DeltaObs(pending)) == pending && TerminalsOf(DeltaObs(pending)) == []
    ensures |DeltaObs(pending)| == |pending|
  {
    if pending != [] {
      DeltasReported(pending[1..]);
      assert DeltaObs(pending)[1..] == DeltaObs(pending[1..]);
    }
  }

  // ---------------------------------------------------------------- what one trace reports

  /** `trace` reports exactly the balance changes and the status that the step recorded. */
  ghost predicate Reports(s: EvalState, key: string, r: TransitionResult) {
    && Adds(s.balances, DeltasOf(r.trace), r.next.balances)
    && (if r.outcome == Terminal || r.outcome == Replayed
        then key in r.next.keyStatus && TerminalsOf(r.trace) == [r.next.keyStatus[key]]
        else TerminalsOf(r.trace) == [])
  }

  lemma QuietReports(s: EvalState, key: string, r: TransitionResult)
    requires Quiet(r.trace) && r.next == s && r.outcome != Terminal && r.outcome != Replayed
    ensures Reports(s, key, r)
  {
    QuietReportsNothing(r.trace);
    AddsNothing(s.balances);
  }

  lemma RefusalReports(s: EvalState, key: string, trace: seq<Obs>, code: Code, subject: string)
    requires Quiet(trace)
    ensures Reports(s, key, Refuse(s, trace, code, subject))
  {
    QuietReports(s, key, Refuse(s, trace, code, subject));
  }

  /** A commit: quiet observations, the deltas, more quiet observations, and perhaps a terminal. */
  lemma CommitReports(before: seq<Obs>, pending: seq<Posting>, after: seq<Obs>, last: seq<Obs>)
    requires Quiet(before) && Quiet(after) && (last == [] || (|last| == 1 && last[0].TerminalObs?))
    ensures var trace := before + DeltaObs(pending) + after + last;
      DeltasOf(trace) == pending && TerminalsOf(trace) == TerminalsOf(last)
  {
    hide Quiet;
    DeltasAppend(before + DeltaObs(pending) + after, last);
    DeltasAppend(before + DeltaObs(pending), after);
    DeltasAppend(before, DeltaObs(pending));
    TerminalsAppend(before + DeltaObs(pending) + after, last);
    TerminalsAppend(before + DeltaObs(pending), after);
    TerminalsAppend(before, DeltaObs(pending));
    DeltasReported(pending);
    QuietReportsNothing(before);
    QuietReportsNothing(after);
    assert [] + pending + [] + [] == pending;
    assert DeltasOf(last) == [] by {
      if last != [] {
        assert last[1..] == [];
      }
    }
  }

  lemma OneTerminal(state: string)
    ensures TerminalsOf([TerminalObs(state)]) == [state]
  {
    assert [TerminalObs(state)][1..] == [];
  }

  lemma EvidenceReports(plan: CoordinationPlan, s: EvalState, input: TransitionInput, key: string, claim: Claim,
                        trace: seq<Obs>)
    requires Quiet(trace)
    ensures Reports(s, key, EvidencePath(plan, s, input, key, claim, trace))
  {
    var seen := trace + EvidenceObs(plan.attestations, input);
    EvidenceIsQuiet(plan.attestations, input);
    QuietGrows(trace, EvidenceObs(plan.attestations, input));
    var fault := EvidenceFault(plan.attestations, input);
    if fault.Some? {
      hide Reports, Quiet, EvidenceFault, EvidenceObs;
      RefusalReports(s, key, seen, fault.value, "");
    } else {
      CommitReports(seen, [], [EventObs(Accepted)], [TerminalObs(plan.success)]);
      OneTerminal(plan.success);
      AddsNothing(s.balances);
      hide Quiet, EvidenceFault, EvidenceObs, Adds, TerminalsOf, DeltasOf;
      assert seen + [] + [EventObs(Accepted)] + [TerminalObs(plan.success)]
          == seen + [EventObs(Accepted), TerminalObs(plan.success)];
    }
  }

  lemma CommitGroupsReports(plan: CoordinationPlan, s: EvalState, key: string, claim: Claim, env: Env,
                            committing: set<string>, st: Evaluator.Staging)
    requires WellIndexed(plan) && Quiet(st.trace) && Adds(s.balances, st.pending, st.balances)
    ensures Reports(s, key, CommitGroups(plan, s, key, claim, env, committing, st))
  {
    hide Quiet, RequiredKeys, WellIndexed, Adds, TerminalsOf, DeltasOf;
    var events, deltas := EventObs'(st.pending), DeltaObs(st.pending);
    var success := TerminalObs(plan.success);
    EventsAreQuiet(st.pending);
    ReconciledIsQuiet();
    QuietGrows(events, [EventObs(Reconciled)]);
    CommitReports(st.trace, st.pending, events + [EventObs(Reconciled)], [success]);
    CommitReports(st.trace, st.pending, events, []);
    OneTerminal(plan.success);
    NoTerminals();
    assert st.trace + deltas + (events + [EventObs(Reconciled)]) + [success]
        == st.trace + deltas + events + [EventObs(Reconciled), success];
    assert st.trace + deltas + events + [] == st.trace + deltas + events;
  }

  lemma NoTerminals()
    ensures TerminalsOf([]) == []
  {
  }

  lemma ReconciledIsQuiet()
    ensures Quiet([EventObs(Reconciled)])
  {
  }

  lemma TemporalReports(plan: CoordinationPlan, s: EvalState, input: TransitionInput, key: string, claim: Claim,
                        env: Env, trace: seq<Obs>)
    requires WellIndexed(plan) && Quiet(trace)
    ensures Reports(s, key, TemporalPath(plan, s, input, key, claim, env, trace))
  {
    var soFar, st0 := CommittedSoFar(s, key), Evaluator.Staging(s.balances, [], trace);
    GroupsAreQuiet(plan, plan.effectGroups, env, input.symbols, soFar, st0);
    var r := StageGroups(plan, plan.effectGroups, env, input.symbols, soFar, st0);
    hide *;
    TemporalCases(plan, s, input, key, claim, env, trace);
    if !LedgerValid(plan, s, key) {
      RefusalReports(s, key, trace, StateInvalid, "");
    } else if GroupFault(plan, plan.effectGroups, env).Some? {
      RefusalReports(s, key, trace, ExprFault(GroupFault(plan, plan.effectGroups, env).value), "");
    } else if r.Stopped? {
      RefusalReports(s, key, r.trace, r.code, r.subject);
    } else {
      StageGroupsAdds(plan, plan.effectGroups, env, input.symbols, soFar, st0);
      assert r.st.pending == GroupPostings(plan, plan.effectGroups, env, input.symbols, soFar);
      if CommittingKeys(plan, env, soFar) == {} {
        NoProgressIsQuiet(r.st.trace, key);
        QuietReports(s, key, TransitionResult(NoProgress, r.st.trace + [NoProgressObs(key)], s, None));
      } else {
        CommitGroupsReports(plan, s, key, claim, env, CommittingKeys(plan, env, soFar), r.st);
      }
    }
  }

  lemma NoProgressIsQuiet(trace: seq<Obs>, key: string)
    requires Quiet(trace)
    ensures Quiet(trace + [NoProgressObs(key)])
  {
  }

  /** The temporal path, case by case. */
  lemma TemporalCases(plan: CoordinationPlan, s: EvalState, input: TransitionInput, key: string, claim: Claim,
                      env: Env, trace: seq<Obs>)
    requires WellIndexed(plan)
    ensures var fault, soFar := GroupFault(plan, plan.effectGroups, env), CommittedSoFar(s, key);
      var r := StageGroups(plan, plan.effectGroups, env, input.symbols, soFar,
                           Evaluator.Staging(s.balances, [], trace));
      TemporalPath(plan, s, input, key, claim, env, trace) ==
        if !LedgerValid(plan, s, key) then Refuse(s, trace, StateInvalid, "")
        else if fault.Some? then Refuse(s, trace, ExprFault(fault.value), "")
        else if r.Stopped? then Refuse(s, r.trace, r.code, r.subject)
        else if CommittingKeys(plan, env, soFar) == {}
        then TransitionResult(NoProgress, r.st.trace + [NoProgressObs(key)], s, None)
        else CommitGroups(plan, s, key, claim, env, CommittingKeys(plan, env, soFar), r.st)
  {
    hide LedgerValid, GroupFault, StageGroups, CommittingKeys, CommitGroups, CommittedSoFar, Refuse, WellIndexed;
  }

  lemma AtomicReports(plan: CoordinationPlan, s: EvalState, input: TransitionInput, key: string, claim: Claim,
                      env: Env, trace: seq<Obs>)
    requires Quiet(trace)
    ensures Reports(s, key, AtomicPath(plan, s, input, key, claim, env, trace))
  {
    hide *;
    var st0 := Evaluator.Staging(s.balances, [], trace);
    AtomicIsQuiet(plan.effects, env, input, st0);
    AtomicCases(plan, s, input, key, claim, env, trace);
    var r := StageAtomic(plan.effects, env, input, st0);
    if r.Stopped? {
      RefusalReports(s, key, r.trace, r.code, r.subject);
    } else {
      StageAtomicAdds(plan.effects, env, input, st0);
      assert r.st.pending == AtomicPostings(plan.effects, env, input.symbols);
      AtomicCommitReports(plan, s, key, claim, env, r.st);
    }
  }

  /** What a single-shot commit of the staged postings yields. */
  function AtomicCommit(plan: CoordinationPlan, s: EvalState, key: string, claim: Claim, env: Env,
                        st: Evaluator.Staging): TransitionResult {
    TransitionResult(
      Terminal,
      st.trace + DeltaObs(st.pending) + EventObs'(st.pending) + ObligationObs'(plan.obligations, env, st.pending)
        + [EventObs(Reconciled), TerminalObs(plan.success)],
      Close(s.(balances := st.balances), plan, key, claim),
      None)
  }

  lemma AtomicCases(plan: CoordinationPlan, s: EvalState, input: TransitionInput, key: string, claim: Claim, env: Env,
                    trace: seq<Obs>)
    ensures var r := StageAtomic(plan.effects, env, input, Evaluator.Staging(s.balances, [], trace));
      AtomicPath(plan, s, input, key, claim, env, trace) ==
        if r.Stopped? then Refuse(s, r.trace, r.code, r.subject) else AtomicCommit(plan, s, key, claim, env, r.st)
  {
    hide StageAtomic, DeltaObs, EventObs', ObligationObs', Close, Refuse;
  }

  lemma AtomicCommitReports(plan: CoordinationPlan, s: EvalState, key: string, claim: Claim, env: Env,
                            st: Evaluator.Staging)
    requires Quiet(st.trace) && Adds(s.balances, st.pending, st.balances)
    ensures Reports(s, key, AtomicCommit(plan, s, key, claim, env, st))
  {
    hide Quiet, Adds, TerminalsOf, DeltasOf, DeltaObs, EventObs', ObligationObs';
    var events, duties := EventObs'(st.pending), ObligationObs'(plan.obligations, env, st.pending);
    EventsAreQuiet(st.pending);
    ObligationsAreQuiet(plan.obligations, env, st.pending);
    ReconciledIsQuiet();
    QuietGrows(events, duties);
    QuietGrows(events + duties, [EventObs(Reconciled)]);
    CommitReports(st.trace, st.pending, events + duties + [EventObs(Reconciled)], [TerminalObs(plan.success)]);
    OneTerminal(plan.success);
    assert st.trace + DeltaObs(st.pending) + (events + duties + [EventObs(Reconciled)]) + [TerminalObs(plan.success)]
        == st.trace + DeltaObs(st.pending) + events + duties + [EventObs(Reconciled), TerminalObs(plan.success)];
  }

  lemma ReplayReports(s: EvalState, key: string, claim: Claim, trace: seq<Obs>)
    requires Quiet(trace)
    ensures Reports(s, key, Replay(s, trace, key, claim))
  {
    var r := Replay(s, trace, key, claim);
    if r.outcome == Replayed {
      AddsNothing(s.balances);
      CommitReports(trace, [], [ReplayObs(key)], [TerminalObs(s.keyStatus[key])]);
      OneTerminal(s.keyStatus[key]);
      assert trace + [] + [ReplayObs(key)] + [TerminalObs(s.keyStatus[key])] == r.trace;
    } else {
      hide Reports, Quiet;
      RefusalReports(s, key, trace, r.code.value, "");
    }
  }

  lemma AttemptReports(plan: CoordinationPlan, s: EvalState, input: TransitionInput, key: string, claim: Claim,
                       trace: seq<Obs>)
    requires WellIndexed(plan) && Quiet(trace)
    ensures Reports(s, key, Attempt(plan, s, input, key, claim, trace))
  {
    hide Quiet, Reports, FoldComputes, SeedAccepted, EvidencePath, TemporalPath, AtomicPath, IsTemporal, WellIndexed;
    var folded := FoldComputes(plan.computes, input.numeric, trace);
    FoldIsQuiet(plan.computes, input.numeric, trace);
    if folded.FoldStopped? {
      RefusalReports(s, key, folded.trace, folded.code, "");
    } else {
      var env := SeedAccepted(plan.attestations, input, folded.env);
      EvidenceReports(plan, s, input, key, claim, folded.trace);
      TemporalReports(plan, s, input, key, claim, env, folded.trace);
      AtomicReports(plan, s, input, key, claim, env, folded.trace);
    }
  }

  /**
   The trace of a transition is faithful, from any state and on any input: the ledger deltas it
   reports are the whole change of the balances, and it reports a terminal exactly when the
   outcome is terminal or replayed, and then the status that the next state records for the key.
   */
  lemma TraceIsFaithful(plan: CoordinationPlan, s: EvalState, input: TransitionInput)
    requires WellIndexed(plan)
    ensures Reports(s, KeyValue(plan, input), EvaluateTransition(plan, s, input))
  {
    hide Reports, KeyValue, TypedInputs, Replay, Attempt, Quiet, WellIndexed;
    var trace := [AuthorizationObs(input.authorized)];
    assert Quiet(trace) by {
      OpeningIsQuiet(input.authorized);
    }
    var key, typed := KeyValue(plan, input), TypedInputs(plan.inputs, input);
    RefusalReports(s, key, trace, AuthDenied, "");
    RefusalReports(s, key, trace, KeyUnresolved, "");
    RefusalReports(s, key, trace, ClaimMismatch, "");
    if typed.Err? {
      RefusalReports(s, key, trace, ClaimInput, typed.error);
    } else {
      var claim := Claim(plan, key, typed.value);
      ReplayReports(s, key, claim, trace);
      AttemptReports(plan, s, input, key, claim, trace);
    }
  }

  lemma OpeningIsQuiet(authorized: bool)
    ensures Quiet([AuthorizationObs(authorized)])
  {
  }
}
