/**
 The shared bounded coordinator: many instances of one admitted plan, each with its own state,
 under step and storage bounds derived from the plan.
 */
module Coordinator {
  import opened Wrappers
  import opened Plan
  import opened Evaluator
  import opened Conservation
  import opened Bookkeeping
  import opened Ledger
  import opened LedgerRuns
  import opened Refusals
  import opened Closing
  import opened TraceBounds
  import opened Storage

  const MAX_EFFECTS := 4
  const MAX_COMPUTES := 4
  const MAX_ATTESTATIONS := 1
  const MAX_STEPS := 32
  const MAX_STORAGE_SLOTS := 16

  datatype Bounds = Bounds(maxSteps: int, maxStorageSlots: int)

  datatype AdmitError =
    | UnsupportedKind | EffectCap | ComputeCap | AttestationCap | NoSuccessTerminal | StepCap | StorageCap

  /** The static bounds of a plan. */
  function Derived(plan: CoordinationPlan): Bounds {
    Bounds(3 + |plan.computes| + 4 * |plan.effects|, 2 + 2 * |plan.effects|)
  }

  function AdmitBounded(plan: CoordinationPlan): Result<Bounds, AdmitError> {
    if exists i :: 0 <= i < |plan.effects| && !KnownKind(plan.effects[i]) then Err(UnsupportedKind)
    else if |plan.effects| > MAX_EFFECTS then Err(EffectCap)
    else if |plan.computes| > MAX_COMPUTES then Err(ComputeCap)
    else if |plan.attestations| > MAX_ATTESTATIONS then Err(AttestationCap)
    else if plan.success == "" then Err(NoSuccessTerminal)
    else
      var b := Derived(plan);
      if b.maxSteps > MAX_STEPS then Err(StepCap)
      else if b.maxStorageSlots > MAX_STORAGE_SLOTS then Err(StorageCap)
      else Ok(b)
  }

  /** Admission in full. The size caps imply the two derived caps, whose refusals are dead. */
  lemma AdmissionExactly(plan: CoordinationPlan)
    ensures AdmitBounded(plan).Ok? <==>
      && (forall i :: 0 <= i < |plan.effects| ==> KnownKind(plan.effects[i]))
      && |plan.effects| <= MAX_EFFECTS && |plan.computes| <= MAX_COMPUTES && |plan.attestations| <= MAX_ATTESTATIONS
      && plan.success != ""
    ensures AdmitBounded(plan) != Err(StepCap) && AdmitBounded(plan) != Err(StorageCap)
    ensures AdmitBounded(plan).Ok? ==> AdmitBounded(plan).value.maxSteps == StepBound(plan) <= 23
    ensures AdmitBounded(plan).Ok? ==> 2 <= AdmitBounded(plan).value.maxStorageSlots <= 10
  {
    hide KnownKind;
  }

  // ---------------------------------------------------------------- one instance

  /** What one instance keeps: its balances, its posted keys and their statuses. */
  function Slots(s: EvalState): nat {
    |s.balances| + |s.postedKeys| + |s.keyStatus|
  }

  function Overrun(s: EvalState, code: Code): TransitionResult {
    TransitionResult(Refused, [RefusalObs(code, "")], s, Some(code))
  }

  /** The reference transition, rolled back when it overruns a bound. */
  function BoundedStep(plan: CoordinationPlan, bounds: Bounds, s: EvalState, input: TransitionInput): TransitionResult
    requires WellIndexed(plan)
  {
    var r := EvaluateTransition(plan, s, input);
    if |r.trace| > bounds.maxSteps then Overrun(s, StepExceeded)
    else if Slots(r.next) > bounds.maxStorageSlots then Overrun(s, StorageExceeded)
    else r
  }

  /** The state of an instance that made these calls and no other. */
  function StateAfter(plan: CoordinationPlan, bounds: Bounds, inputs: seq<TransitionInput>): EvalState
    requires WellIndexed(plan)
  {
    if inputs == [] then EmptyState(map[])
    else
      var n := |inputs| - 1;
      BoundedStep(plan, bounds, StateAfter(plan, bounds, inputs[..n]), inputs[n]).next
  }

  lemma StateGrows(plan: CoordinationPlan, bounds: Bounds, inputs: seq<TransitionInput>, input: TransitionInput)
    requires WellIndexed(plan)
    ensures StateAfter(plan, bounds, inputs + [input])
         == BoundedStep(plan, bounds, StateAfter(plan, bounds, inputs), input).next
  {
    hide BoundedStep;
    assert (inputs + [input])[..|inputs|] == inputs;
  }

  lemma NothingYet(plan: CoordinationPlan, bounds: Bounds)
    requires WellIndexed(plan)
    ensures StateAfter(plan, bounds, []) == EmptyState(map[])
  {
  }

  datatype Call = Call(instance: string, input: TransitionInput)

  /** The inputs that one instance was run on, in order. */
  function Own(calls: seq<Call>, id: string): seq<TransitionInput> {
    if calls == [] then []
    else
      var last := calls[|calls| - 1];
      Own(calls[..|calls| - 1], id) + if last.instance == id then [last.input] else []
  }

  function Named(calls: seq<Call>): set<string> {
    set i | 0 <= i < |calls| :: calls[i].instance
  }

  lemma OneMoreCall(calls: seq<Call>, call: Call, id: string)
    ensures Own(calls + [call], id) == if call.instance == id then Own(calls, id) + [call.input] else Own(calls, id)
    ensures Named(calls + [call]) == Named(calls) + {call.instance}
  {
    assert (calls + [call])[..|calls|] == calls;
    assert Own(calls, id) + [] == Own(calls, id);
    forall x | x in Named(calls) ensures x in Named(calls + [call]) {
      var i :| 0 <= i < |calls| && calls[i].instance == x;
      assert (calls + [call])[i].instance == x;
    }
    assert (calls + [call])[|calls|].instance == call.instance;
  }

  lemma {:induction false} NeverCalled(calls: seq<Call>, id: string)
    requires id !in Named(calls)
    ensures Own(calls, id) == []
  {
    if calls != [] {
      OneMoreCall(calls[..|calls| - 1], calls[|calls| - 1], id);
      assert calls[..|calls| - 1] + [calls[|calls| - 1]] == calls;
      NeverCalled(calls[..|calls| - 1], id);
    }
  }

  /** Each instance that was run has a state, which is what its own calls alone would have produced. */
  ghost predicate Hosts(plan: CoordinationPlan, bounds: Bounds, instances: map<string, EvalState>, calls: seq<Call>)
    requires WellIndexed(plan)
  {
    && instances.Keys == Named(calls)
    && forall id :: id in instances ==> instances[id] == StateAfter(plan, bounds, Own(calls, id))
  }

  lemma HostsOneMore(plan: CoordinationPlan, bounds: Bounds, instances: map<string, EvalState>, calls: seq<Call>,
                     call: Call, next: EvalState)
    requires WellIndexed(plan) && Hosts(plan, bounds, instances, calls)
    requires next == BoundedStep(plan, bounds, StateAfter(plan, bounds, Own(calls, call.instance)), call.input).next
    ensures Hosts(plan, bounds, instances[call.instance := next], calls + [call])
  {
    hide WellIndexed, Named, Own, StateAfter, BoundedStep;
    var grown := instances[call.instance := next];
    OneMoreCall(calls, call, call.instance);
    StateGrows(plan, bounds, Own(calls, call.instance), call.input);
    forall id | id in grown ensures grown[id] == StateAfter(plan, bounds, Own(calls + [call], id)) {
      OneMoreCall(calls, call, id);
    }
  }

  lemma HostedState(plan: CoordinationPlan, bounds: Bounds, instances: map<string, EvalState>, calls: seq<Call>,
                    id: string)
    requires WellIndexed(plan) && Hosts(plan, bounds, instances, calls)
    ensures StateAfter(plan, bounds, Own(calls, id)) == if id in instances then instances[id] else EmptyState(map[])
  {
    hide WellIndexed, Named, Own, StateAfter;
    if id !in instances {
      NeverCalled(calls, id);
      NothingYet(plan, bounds);
    }
  }

  /**
   Hosts the instances. `calls` is the whole history of runs; each instance's state is what its
   own calls alone would have produced, whatever was interleaved with them.
   */
  class SharedCoordinator {
    const plan: CoordinationPlan
    const bounds: Bounds
    var instances: map<string, EvalState>
    ghost var calls: seq<Call>

    ghost predicate Valid()
      reads this
    {
      WellIndexed(plan) && Hosts(plan, bounds, instances, calls)
    }

    constructor (plan: CoordinationPlan, bounds: Bounds)
      requires WellIndexed(plan)
      ensures Valid() && this.plan == plan && this.bounds == bounds && calls == []
    {
      this.plan, this.bounds := plan, bounds;
      instances, calls := map[], [];
    }

    static method Create(plan: CoordinationPlan) returns (r: Result<SharedCoordinator, AdmitError>)
      requires WellIndexed(plan)
      ensures r.Ok? <==> AdmitBounded(plan).Ok?
      ensures r.Err? ==> AdmitBounded(plan) == Err(r.error)
      ensures r.Ok? ==> fresh(r.value) && r.value.Valid() && r.value.plan == plan && r.value.calls == []
      ensures r.Ok? ==> r.value.bounds == AdmitBounded(plan).value
    {
      var bounds := AdmitBounded(plan);
      if bounds.Err? {
        return Err(bounds.error);
      }
      var c := new SharedCoordinator(plan, bounds.value);
      return Ok(c);
    }

    /** One transition of one instance; a refused run, too, leaves an entry for the instance. */
    method Run(id: string, input: TransitionInput) returns (r: TransitionResult)
      requires Valid()
      modifies this
      ensures Valid() && calls == old(calls) + [Call.Call(id, input)]
      ensures r == BoundedStep(plan, bounds, StateAfter(plan, bounds, Own(old(calls), id)), input)
      ensures id in instances && instances[id] == r.next
      ensures forall x :: x != id ==> (x in instances <==> x in old(instances))
      ensures forall x :: x != id && x in instances ==> instances[x] == old(instances)[x]
    {
      hide EvaluateTransition, WellIndexed, Hosts, Own, StateAfter, Slots;
      var state := if id in instances then instances[id] else EmptyState(map[]);
      HostedState(plan, bounds, instances, calls, id);
      ghost var next := BoundedStep(plan, bounds, state, input).next;
      HostsOneMore(plan, bounds, instances, calls, Call.Call(id, input), next);
      assert instances[id := state][id := next] == instances[id := next];
      instances := instances[id := state];
      calls := calls + [Call.Call(id, input)];
      r := EvaluateTransition(plan, state, input);
      if |r.trace| > bounds.maxSteps || Slots(r.next) > bounds.maxStorageSlots {
        r := Overrun(state, if |r.trace| > bounds.maxSteps then StepExceeded else StorageExceeded);
        assert r == BoundedStep(plan, bounds, state, input);
        return;
      }
      instances := instances[id := r.next];
    }

    /** An instance is known once it was run, committed or not. */
    function StateOf(id: string): (s: Option<EvalState>)
      requires Valid()
      reads this
      ensures s.Some? <==> exists i :: 0 <= i < |calls| && calls[i].instance == id
      ensures s.Some? ==> s.value == StateAfter(plan, bounds, Own(calls, id))
    {
      if id in instances then Some(instances[id]) else None
    }

    function InstanceCount(): (n: nat)
      requires Valid()
      reads this
      ensures n == |Named(calls)|
    {
      |instances|
    }
  }

  // ---------------------------------------------------------------- what every instance keeps

  /** No instance ever exceeds its storage bound. */
  lemma {:induction false} StorageNeverExceeded(plan: CoordinationPlan, bounds: Bounds, inputs: seq<TransitionInput>)
    requires WellIndexed(plan) && 0 <= bounds.maxStorageSlots
    ensures Slots(StateAfter(plan, bounds, inputs)) <= bounds.maxStorageSlots
  {
    if inputs != [] {
      hide EvaluateTransition;
      StorageNeverExceeded(plan, bounds, inputs[..|inputs| - 1]);
    }
  }

  /** A step that moves the instance kept both bounds and is the reference transition. */
  lemma CommitsAreReference(plan: CoordinationPlan, bounds: Bounds, s: EvalState, input: TransitionInput)
    requires WellIndexed(plan)
    ensures var r := BoundedStep(plan, bounds, s, input);
      r.next != s ==>
          r == EvaluateTransition(plan, s, input) && |r.trace| <= bounds.maxSteps
          && Slots(r.next) <= bounds.maxStorageSlots
    ensures BoundedStep(plan, bounds, s, input).next == s
         || BoundedStep(plan, bounds, s, input).next == EvaluateTransition(plan, s, input).next
  {
    hide EvaluateTransition, Slots;
  }

  /** Every hosted instance is explained by its own claims and commits. */
  lemma {:induction false} InstanceExplained(plan: CoordinationPlan, bounds: Bounds, inputs: seq<TransitionInput>)
    requires LedgerPlan(plan) && WellIndexed(plan)
    ensures Explained(plan, map[], StateAfter(plan, bounds, inputs))
  {
    if inputs == [] {
      EmptyIsExplained(plan, map[]);
    } else {
      hide LedgerPlan, WellIndexed, Explained, EvaluateTransition, BoundedStep;
      var n := |inputs| - 1;
      var s := StateAfter(plan, bounds, inputs[..n]);
      InstanceExplained(plan, bounds, inputs[..n]);
      TransitionKeeps(plan, map[], s, inputs[n]);
      CommitsAreReference(plan, bounds, s, inputs[n]);
    }
  }

  /** A balanced plan creates no value in any instance whose inputs it conserves on. */
  lemma {:induction false} InstanceConserves(plan: CoordinationPlan, bounds: Bounds, inputs: seq<TransitionInput>,
                                             t: string)
    requires BalancedPlan(plan) && WellIndexed(plan)
    requires forall i :: 0 <= i < |inputs| ==> ConservesOn(plan, inputs[i])
    ensures TotalIn(StateAfter(plan, bounds, inputs).balances, t) == 0
  {
    if inputs != [] {
      hide EvaluateTransition, TotalIn, BalancedPlan, BoundedStep, ConservesOn, WellIndexed;
      var n := |inputs| - 1;
      var s := StateAfter(plan, bounds, inputs[..n]);
      InstanceConserves(plan, bounds, inputs[..n], t);
      TransitionConserves(plan, s, inputs[n], t);
      CommitsAreReference(plan, bounds, s, inputs[n]);
    }
  }

  // ---------------------------------------------------------------- are the derived bounds enough?

  /**
   The derived step bound is one short for an evidence-only plan: under its own admitted bounds
   such a plan never closes, and its instance stays empty for ever.
   */
  lemma {:induction false} EvidenceOnlyNeverCloses(plan: CoordinationPlan, inputs: seq<TransitionInput>)
    requires WellIndexed(plan) && Partitions(plan.effectGroups, plan.effects)
    requires AdmitBounded(plan).Ok? && IsEvidenceOnly(plan)
    ensures StateAfter(plan, AdmitBounded(plan).value, inputs) == EmptyState(map[])
  {
    hide EvaluateTransition, IsEvidenceOnly, Partitions, WellIndexed, AdmitBounded, IsTemporal, Closes,
         ObligationsOverflow;
    if inputs != [] {
      var n := |inputs| - 1;
      AdmissionExactly(plan);
      EvidenceOnlyNeverCloses(plan, inputs[..n]);
      EvidenceIsNotTemporal(plan);
      StepBoundExactly(plan, EmptyState(map[]), inputs[n]);
      EvidenceNeverProgresses(plan, EmptyState(map[]), inputs[n]);
      EvidenceCloseIsOverlong(plan, EmptyState(map[]), inputs[n]);
    }
  }

  lemma EvidenceCloseIsOverlong(plan: CoordinationPlan, s: EvalState, input: TransitionInput)
    requires WellIndexed(plan) && IsEvidenceOnly(plan)
    ensures EvaluateTransition(plan, s, input).outcome == Terminal <==> Overlong(plan, s, input)
  {
    hide EvaluateTransition, IsEvidenceOnly, WellIndexed, IsTemporal, Closes, ObligationsOverflow;
    EvidenceIsNotTemporal(plan);
    ClosesExactly(plan, s, input);
  }

  lemma EvidenceNeverProgresses(plan: CoordinationPlan, s: EvalState, input: TransitionInput)
    requires WellIndexed(plan) && IsEvidenceOnly(plan)
    ensures EvaluateTransition(plan, s, input).outcome != Terminal ==> EvaluateTransition(plan, s, input).next == s
  {
    hide KeyValue, TypedInputs, FoldComputes, SeedAccepted, EvidenceFault, EvidenceObs, WellIndexed;
  }

  /** A plan and an input that the reference accepts and the coordinator, under its own bounds, refuses. */
  lemma EvidenceOnlyRefused()
    ensures var plan := CoordinationPlan("attest", "key", [], [], [], [], ["proof"], true, "DONE", []);
      var input := TransitionInput(map[], map["key" := "K-1"], map["proof" := true], true);
      && AdmitBounded(plan).Ok? && WellIndexed(plan)
      && EvaluateTransition(plan, EmptyState(map[]), input).outcome == Terminal
      && BoundedStep(plan, AdmitBounded(plan).value, EmptyState(map[]), input).code == Some(StepExceeded)
  {
    var plan := CoordinationPlan("attest", "key", [], [], [], [], ["proof"], true, "DONE", []);
    var input := TransitionInput(map[], map["key" := "K-1"], map["proof" := true], true);
    assert ["proof"][1..] == [];
    assert EvidenceFault(["proof"], input).None?;
    var r := EvaluateTransition(plan, EmptyState(map[]), input);
    assert r.outcome == Terminal;
    StepBoundExactly(plan, EmptyState(map[]), input);
  }

  // ---------------------------------------------------------------- when storage runs out

  /** The records of every hosted instance are in order, and its accounts are those of its commits. */
  lemma {:induction false} InstanceRecorded(plan: CoordinationPlan, bounds: Bounds, inputs: seq<TransitionInput>)
    requires WellIndexed(plan)
    ensures Recorded(plan, StateAfter(plan, bounds, inputs))
    ensures plan.idempotent && Partitions(plan.effectGroups, plan.effects) ==>
        StorageOk(plan, StateAfter(plan, bounds, inputs))
  {
    if inputs == [] {
      EmptyIsStorable(plan);
    } else {
      hide WellIndexed, Recorded, StorageOk, Partitions, EvaluateTransition, BoundedStep;
      var n := |inputs| - 1;
      var s := StateAfter(plan, bounds, inputs[..n]);
      InstanceRecorded(plan, bounds, inputs[..n]);
      TransitionKeepsRecords(plan, s, inputs[n]);
      if plan.idempotent && Partitions(plan.effectGroups, plan.effects) {
        TransitionKeepsStorage(plan, s, inputs[n]);
      }
      CommitsAreReference(plan, bounds, s, inputs[n]);
    }
  }

  lemma SlotsOfRecords(plan: CoordinationPlan, s: EvalState)
    requires Recorded(plan, s)
    ensures Slots(s) == |s.balances| + 2 * |s.postedKeys|
    ensures |s.postedKeys| <= |s.keyClaim|
  {
    PostedKeysAreStatus(plan, s);
    hide Recorded;
    SubsetCount(s.postedKeys, s.keyClaim.Keys);
    assert |s.keyStatus| == |s.keyStatus.Keys| && |s.keyClaim| == |s.keyClaim.Keys|;
  }

  /**
   Exactly when an instance is refused for storage: a step within the step bound would leave more
   accounts and posted keys, each key counted twice, than the bound has slots. Under the derived
   bounds that takes at least two claimed keys.
   */
  lemma StorageRefusedExactly(plan: CoordinationPlan, bounds: Bounds, inputs: seq<TransitionInput>,
                              input: TransitionInput)
    requires WellIndexed(plan)
    ensures var s := StateAfter(plan, bounds, inputs);
      var r := EvaluateTransition(plan, s, input);
      && (BoundedStep(plan, bounds, s, input).code == Some(StorageExceeded)
          <==> |r.trace| <= bounds.maxSteps && |r.next.balances| + 2 * |r.next.postedKeys| > bounds.maxStorageSlots)
      && (BoundedStep(plan, bounds, s, input).code == Some(StepExceeded) <==> |r.trace| > bounds.maxSteps)
      && (BoundedStep(plan, bounds, s, input).code == Some(StorageExceeded) ==>
            plan.idempotent && Partitions(plan.effectGroups, plan.effects) && bounds == Derived(plan) ==>
              |r.next.keyClaim| >= 2)
  {
    var s := StateAfter(plan, bounds, inputs);
    var r := EvaluateTransition(plan, s, input);
    InstanceRecorded(plan, bounds, inputs);
    TransitionKeepsRecords(plan, s, input);
    ReferenceKeepsNoBounds(plan, s, input);
    SlotsOfRecords(plan, r.next);
    hide WellIndexed, Recorded, StorageOk, Partitions, EvaluateTransition, StateAfter, Slots;
    if plan.idempotent && Partitions(plan.effectGroups, plan.effects) {
      TransitionKeepsStorage(plan, s, input);
      AccountsPerKey(plan, r.next);
      OneKeyFits(plan, r.next);
    }
  }

  /** One key's accounts and records fit the derived bound. */
  lemma OneKeyFits(plan: CoordinationPlan, s: EvalState)
    requires Recorded(plan, s) && |s.balances| <= |plan.effects| * |s.keyClaim|
    ensures |s.keyClaim| <= 1 ==> Slots(s) <= Derived(plan).maxStorageSlots
  {
    SlotsOfRecords(plan, s);
    hide Recorded, Slots;
    if |s.keyClaim| == 0 {
      assert |plan.effects| * |s.keyClaim| == 0;
    }
  }

  lemma SubsetCount<T>(a: set<T>, b: set<T>)
    requires a <= b
    ensures |a| <= |b|
  {
    assert b == a + (b - a);
    assert |b| == |a| + |b - a|;
  }

  // ---------------------------------------------------------------- when the reference is refined

  /** A plan as assembly hands it over, admitted to the coordinator. */
  ghost predicate Hosted(plan: CoordinationPlan) {
    && WellIndexed(plan) && Partitions(plan.effectGroups, plan.effects)
    && plan.idempotent && AdmitBounded(plan).Ok?
  }

  lemma HostedParts(plan: CoordinationPlan)
    requires Hosted(plan)
    ensures WellIndexed(plan) && Partitions(plan.effectGroups, plan.effects) && plan.idempotent
        && AdmitBounded(plan).Ok?
    ensures AdmitBounded(plan).value == Derived(plan) && Derived(plan).maxSteps == StepBound(plan)
        && |plan.attestations| <= 1
  {
    hide Partitions, WellIndexed;
    AdmissionExactly(plan);
  }

  /** A state in which at most `key` was claimed, with its records in order and its accounts those of its commits. */
  ghost predicate OneKeyRun(plan: CoordinationPlan, s: EvalState, key: string) {
    Recorded(plan, s) && StorageOk(plan, s) && s.keyClaim.Keys <= {key}
  }

  lemma OneKeyKept(plan: CoordinationPlan, s: EvalState, input: TransitionInput, key: string)
    requires WellIndexed(plan) && Hosted(plan) && OneKeyRun(plan, s, key) && KeyValue(plan, input) == key
    ensures var next := EvaluateTransition(plan, s, input).next;
      OneKeyRun(plan, next, key) && Slots(next) <= Derived(plan).maxStorageSlots
  {
    var next := EvaluateTransition(plan, s, input).next;
    HostedParts(plan);
    hide Hosted, WellIndexed, Partitions, Recorded, StorageOk, KeyValue, EvaluateTransition, Slots, Derived;
    TransitionKeepsRecords(plan, s, input);
    TransitionKeepsStorage(plan, s, input);
    AccountsPerKey(plan, next);
    assert next.keyClaim.Keys <= {key};
    SubsetCount(next.keyClaim.Keys, {key});
    assert |next.keyClaim| == |next.keyClaim.Keys|;
    OneKeyFits(plan, next);
  }

  /** One step under the derived bounds: the reference transition unless it is overlong or too large. */
  lemma HostedStep(plan: CoordinationPlan, s: EvalState, input: TransitionInput)
    requires WellIndexed(plan) && Hosted(plan) && Slots(s) <= Derived(plan).maxStorageSlots
    ensures var r, next := BoundedStep(plan, Derived(plan), s, input), EvaluateTransition(plan, s, input).next;
      if Overlong(plan, s, input) || Slots(next) > Derived(plan).maxStorageSlots then r.next == s && next != s
      else r.next == next
  {
    HostedParts(plan);
    hide Hosted, WellIndexed, Partitions, EvaluateTransition, Slots, Overlong;
    StepBoundExactly(plan, s, input);
    if Overlong(plan, s, input) {
      TerminalIsNew(plan, s, input);
      TerminalRecords(plan, s, input);
    }
  }

  lemma {:induction false} OneKeyThroughout(plan: CoordinationPlan, inputs: seq<TransitionInput>, key: string)
    requires WellIndexed(plan) && Hosted(plan)
    requires forall i :: 0 <= i < |inputs| ==> KeyValue(plan, inputs[i]) == key
    ensures OneKeyRun(plan, RunFrom(plan, EmptyState(map[]), inputs), key)
  {
    if inputs == [] {
      EmptyIsStorable(plan);
      RunRecorded(plan, map[], []);
      hide Recorded, StorageOk, Hosted;
    } else {
      hide WellIndexed, Hosted, OneKeyRun, KeyValue, EvaluateTransition;
      OneKeyThroughout(plan, inputs[..|inputs| - 1], key);
      OneKeyKept(plan, RunFrom(plan, EmptyState(map[]), inputs[..|inputs| - 1]), inputs[|inputs| - 1], key);
    }
  }

  /** The instance is where the reference would be. */
  ghost predicate Follows(plan: CoordinationPlan, inputs: seq<TransitionInput>)
    requires WellIndexed(plan)
  {
    StateAfter(plan, Derived(plan), inputs) == RunFrom(plan, EmptyState(map[]), inputs)
  }

  ghost predicate OverlongAt(plan: CoordinationPlan, inputs: seq<TransitionInput>, n: nat)
    requires WellIndexed(plan) && n < |inputs|
  {
    Overlong(plan, RunFrom(plan, EmptyState(map[]), inputs[..n]), inputs[n])
  }

  lemma OneStepMore(plan: CoordinationPlan, bounds: Bounds, inputs: seq<TransitionInput>, n: nat)
    requires WellIndexed(plan) && n < |inputs|
    ensures RunFrom(plan, EmptyState(map[]), inputs[..n + 1])
         == EvaluateTransition(plan, RunFrom(plan, EmptyState(map[]), inputs[..n]), inputs[n]).next
    ensures StateAfter(plan, bounds, inputs[..n + 1])
         == BoundedStep(plan, bounds, StateAfter(plan, bounds, inputs[..n]), inputs[n]).next
  {
    hide EvaluateTransition, BoundedStep, WellIndexed;
    assert inputs[..n + 1][..n] == inputs[..n] && inputs[..n + 1][n] == inputs[n];
  }

  /** After the first `n + 1` inputs the reference keeps no more than the derived bound has slots. */
  ghost predicate FitsAt(plan: CoordinationPlan, inputs: seq<TransitionInput>, n: nat)
    requires WellIndexed(plan) && n < |inputs|
  {
    Slots(RunFrom(plan, EmptyState(map[]), inputs[..n + 1])) <= Derived(plan).maxStorageSlots
  }

  /** While an instance follows the reference, it goes on to do so exactly if the next step is within both bounds. */
  lemma FollowsOn(plan: CoordinationPlan, inputs: seq<TransitionInput>, n: nat)
    requires WellIndexed(plan) && Hosted(plan) && n < |inputs| && Follows(plan, inputs[..n])
    ensures Follows(plan, inputs[..n + 1]) <==> !OverlongAt(plan, inputs, n) && FitsAt(plan, inputs, n)
  {
    assert Derived(plan).maxStorageSlots >= 0;
    hide Hosted, WellIndexed, EvaluateTransition, BoundedStep, Overlong, Derived, Slots, RunFrom, StateAfter;
    OneStepMore(plan, Derived(plan), inputs, n);
    StorageNeverExceeded(plan, Derived(plan), inputs[..n]);
    HostedStep(plan, RunFrom(plan, EmptyState(map[]), inputs[..n]), inputs[n]);
  }

  lemma {:induction false} FollowsUntil(plan: CoordinationPlan, inputs: seq<TransitionInput>, n: nat)
    requires WellIndexed(plan) && Hosted(plan) && n <= |inputs|
    requires forall m :: 0 <= m < n ==> !OverlongAt(plan, inputs, m) && FitsAt(plan, inputs, m)
    ensures Follows(plan, inputs[..n])
  {
    if n > 0 {
      hide Hosted, WellIndexed, OverlongAt, Follows, FitsAt;
      FollowsUntil(plan, inputs, n - 1);
      FollowsOn(plan, inputs, n - 1);
    }
  }

  /**
   Exactly when an instance is, all along its calls, where the reference evaluator would be, however
   many keys it serves: no step of the reference run is an overlong close, and the reference never
   keeps more accounts and closed keys, each key counted twice, than the derived bound has slots.
   */
  lemma RefinesExactly(plan: CoordinationPlan, inputs: seq<TransitionInput>)
    requires WellIndexed(plan) && Hosted(plan)
    ensures (forall n :: 0 <= n <= |inputs| ==> Follows(plan, inputs[..n]))
       <==> (forall n :: 0 <= n < |inputs| ==> !OverlongAt(plan, inputs, n) && FitsAt(plan, inputs, n))
  {
    hide Hosted, WellIndexed, OverlongAt, Follows, FitsAt;
    if forall n :: 0 <= n < |inputs| ==> !OverlongAt(plan, inputs, n) && FitsAt(plan, inputs, n) {
      forall n | 0 <= n <= |inputs| ensures Follows(plan, inputs[..n]) {
        FollowsUntil(plan, inputs, n);
      }
    }
    if forall n :: 0 <= n <= |inputs| ==> Follows(plan, inputs[..n]) {
      forall n | 0 <= n < |inputs| ensures !OverlongAt(plan, inputs, n) && FitsAt(plan, inputs, n) {
        assert Follows(plan, inputs[..n]) && Follows(plan, inputs[..n + 1]);
        FollowsOn(plan, inputs, n);
      }
    }
  }

  /**
   Exactly at which call an instance first runs out of storage: up to it every step was within both
   bounds, it is no overlong close, and the accounts and closed keys of the reference, each key
   counted twice, no longer fit the derived bound.
   */
  lemma FirstStorageRefusal(plan: CoordinationPlan, inputs: seq<TransitionInput>, n: nat)
    requires WellIndexed(plan) && Hosted(plan) && n < |inputs|
    requires forall m :: 0 <= m < n ==> !OverlongAt(plan, inputs, m) && FitsAt(plan, inputs, m)
    ensures var s := StateAfter(plan, Derived(plan), inputs[..n]);
      BoundedStep(plan, Derived(plan), s, inputs[n]).code == Some(StorageExceeded) <==>
        !OverlongAt(plan, inputs, n) && !FitsAt(plan, inputs, n)
    ensures var kept := RunFrom(plan, EmptyState(map[]), inputs[..n + 1]);
      FitsAt(plan, inputs, n) <==> |kept.balances| + 2 * |kept.postedKeys| <= 2 + 2 * |plan.effects|
  {
    var s := RunFrom(plan, EmptyState(map[]), inputs[..n]);
    HostedParts(plan);
    hide Hosted, WellIndexed, EvaluateTransition, BoundedStep, Overlong, Slots, Partitions, Recorded, RunFrom,
         StateAfter;
    OneStepMore(plan, Derived(plan), inputs, n);
    FollowsUntil(plan, inputs, n);
    RunRecorded(plan, map[], inputs[..n + 1]);
    SlotsOfRecords(plan, RunFrom(plan, EmptyState(map[]), inputs[..n + 1]));
    StepBoundExactly(plan, s, inputs[n]);
    StorageRefusedExactly(plan, Derived(plan), inputs[..n], inputs[n]);
  }

  lemma OneKeyFitsThroughout(plan: CoordinationPlan, inputs: seq<TransitionInput>, n: nat, key: string)
    requires WellIndexed(plan) && Hosted(plan) && n < |inputs|
    requires forall i :: 0 <= i < |inputs| ==> KeyValue(plan, inputs[i]) == key
    ensures FitsAt(plan, inputs, n)
  {
    hide Hosted, WellIndexed, KeyValue, EvaluateTransition, OneKeyRun, Slots, RunFrom, Derived;
    OneStepMore(plan, Derived(plan), inputs, n);
    OneKeyThroughout(plan, inputs[..n], key);
    OneKeyKept(plan, RunFrom(plan, EmptyState(map[]), inputs[..n]), inputs[n], key);
  }

  /**
   An instance that serves one key is, all along a run, where the reference evaluator would be if
   and only if no step of the reference run is an overlong close: storage never runs out for it,
   whatever the plan's operands name, and the step bound refuses nothing else.
   */
  lemma OneKeyRefinesExactly(plan: CoordinationPlan, inputs: seq<TransitionInput>, key: string)
    requires WellIndexed(plan) && Hosted(plan)
    requires forall i :: 0 <= i < |inputs| ==> KeyValue(plan, inputs[i]) == key
    ensures (forall n :: 0 <= n <= |inputs| ==> Follows(plan, inputs[..n]))
       <==> (forall n :: 0 <= n < |inputs| ==> !OverlongAt(plan, inputs, n))
  {
    hide Hosted, WellIndexed, KeyValue, OverlongAt, Follows, FitsAt;
    RefinesExactly(plan, inputs);
    forall n | 0 <= n < |inputs| ensures FitsAt(plan, inputs, n) {
      OneKeyFitsThroughout(plan, inputs, n, key);
    }
  }
}
