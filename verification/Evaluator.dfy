/**
 The reference evaluator: one transition of a coordination plan over explicit state and input.
 All validation precedes the single commit, so a refused transition leaves the state as it was.
 */
module Evaluator {
  import opened Wrappers
  import opened Decimal
  import opened ValueModel
  import opened Expr
  import opened Plan

  // ---------------------------------------------------------------- plan, state, input

  datatype PlanInput = PlanInput(name: string, ty: string)

  datatype PlanCompute = PlanCompute(name: string, expr: Option<ExprNode>)

  datatype Obligation = Obligation(name: string, obligor: string, activation: Option<ExprNode>, effects: seq<string>)

  datatype CoordinationPlan = CoordinationPlan(
    procedure: string,
    workflowKey: string,
    inputs: seq<PlanInput>,
    computes: seq<PlanCompute>,
    effects: seq<PlanEffect>,
    effectGroups: seq<EffectGroup>,
    attestations: seq<string>,
    idempotent: bool,
    success: string,
    obligations: seq<Obligation>)

  /** Group positions stay inside the effect list, as the evaluator's indexing demands. */
  ghost predicate Indexed(plan: CoordinationPlan, groups: seq<EffectGroup>) {
    forall j :: 0 <= j < |groups| ==>
      groups[j].firstIndex < |plan.effects| && InRange(plan.effects, groups[j].effectIndices)
  }

  ghost predicate WellIndexed(plan: CoordinationPlan) {
    Indexed(plan, plan.effectGroups)
  }

  /** Values move per (ledger, party, currency). */
  datatype Account = Account(ledger: string, party: string, currency: string)

  /**
   An execution claim: the coordination, the workflow key and the text of every declared input.
   It stands for the claim hash, which is injective in these; categories are part of the plan.
   */
  datatype Claim = Claim(coordination: CoordinationPlan, key: string, payload: map<string, string>)

  datatype EvalState = EvalState(
    balances: map<Account, I64>,
    postedKeys: set<string>,
    keyClaim: map<string, Claim>,
    committedGroups: map<string, set<string>>,
    keyStatus: map<string, string>)

  datatype TransitionInput = TransitionInput(
    numeric: map<string, I64>,
    symbols: map<string, string>,
    attestations: map<string, bool>,
    authorized: bool)

  datatype Outcome = Progress | Terminal | NoProgress | Replayed | Refused

  datatype Code =
    | AuthDenied
    | KeyUnresolved
    | ClaimInput
    | ClaimMismatch
    | StateInvalid
    | ExprMissing
    | ExprFault(fault: ExprCode)
    | EvidenceMalformed
    | AttestationRejected
    | EffectKind
    | OperandMalformed
    | OperandUnresolved
    | AmountNegative
    | BalanceOverflow
    | StepExceeded
    | StorageExceeded

  /** A signed change of one account by one effect. */
  datatype Posting = Posting(effect: string, debit: bool, account: Account, delta: I64)

  datatype Event = EffectPosted(effect: string, debit: bool) | Reconciled | Accepted

  datatype ObligationStatus = Fired | Eligible | NotEligible

  /** One element of the observation trace. */
  datatype Obs =
    | AuthorizationObs(authorized: bool)
    | ComputeObs(name: string, value: I64)
    | GuardObs(subject: string, held: bool)
    | AttestationObs(subject: string, policy: string, accepted: bool)
    | LedgerDeltaObs(posting: Posting)
    | EventObs(event: Event)
    | ObligationObs(name: string, obligor: string, status: ObligationStatus)
    | ReplayObs(key: string)
    | NoProgressObs(key: string)
    | TerminalObs(state: string)
    | RefusalObs(code: Code, subject: string)

  datatype TransitionResult = TransitionResult(
    outcome: Outcome,
    trace: seq<Obs>,
    next: EvalState,
    code: Option<Code>)

  // ---------------------------------------------------------------- operands

  datatype Operand = Malformed | Literal(value: string) | Ref(value: string)

  function FindColon(s: string): (i: nat)
    ensures i <= |s|
  {
    if s == [] || s[0] == ':' then 0 else 1 + FindColon(s[1..])
  }

  /** An operand identity is `ref:<name>` or `literal:<text>`, split at the first colon. */
  function SplitOperand(id: string): Operand {
    var i := FindColon(id);
    if i == |id| then Malformed
    else if id[..i] == "ref" then Ref(id[i + 1..])
    else if id[..i] == "literal" then Literal(id[i + 1..])
    else Malformed
  }

  lemma {:induction false} SplitsAtColon(kind: string, text: string)
    requires ':' !in kind
    ensures FindColon(kind + ":" + text) == |kind|
    ensures (kind + ":" + text)[..|kind|] == kind && (kind + ":" + text)[|kind| + 1..] == text
  {
    if kind == [] {
      assert ("" + ":" + text)[0] == ':';
    } else {
      assert (kind + ":" + text)[1..] == kind[1..] + ":" + text;
      SplitsAtColon(kind[1..], text);
    }
  }

  /** An identity reads back as what it was spelled from, colons in the text included. */
  lemma OperandReads(text: string)
    ensures SplitOperand("ref:" + text) == Ref(text) && SplitOperand("literal:" + text) == Literal(text)
  {
    SplitsAtColon("ref", text);
    SplitsAtColon("literal", text);
    assert "ref" + ":" + text == "ref:" + text && "literal" + ":" + text == "literal:" + text;
  }

  function ResolveAmount(id: string, env: Env): Result<I64, Code> {
    var r: Result<I64, Code> :=
      match SplitOperand(id)
      case Malformed => Err(OperandMalformed)
      case Literal(text) => if ParseI64(text).None? then Err(OperandMalformed) else Ok(ParseI64(text).value)
      case Ref(name) => if name in env then Ok(env[name]) else Err(OperandUnresolved);
    if r.Ok? && r.value < 0 then Err(AmountNegative) else r
  }

  function ResolveSymbol(id: string, symbols: map<string, string>): Result<string, Code> {
    var r: Result<string, Code> :=
      match SplitOperand(id)
      case Malformed => Err(OperandMalformed)
      case Literal(text) => Ok(text)
      case Ref(name) => if name in symbols then Ok(symbols[name]) else Err(OperandUnresolved);
    if r.Ok? && r.value == "" then Err(OperandMalformed) else r
  }

  // ---------------------------------------------------------------- key and claim

  function KeyValue(plan: CoordinationPlan, input: TransitionInput): string {
    if plan.workflowKey == "" then ""
    else if plan.workflowKey in input.symbols then input.symbols[plan.workflowKey]
    else if plan.workflowKey in input.numeric then ToText(input.numeric[plan.workflowKey])
    else ""
  }

  /** The text under which one declared input enters the claim. */
  function InputText(p: PlanInput, input: TransitionInput): Option<string> {
    var cat := ClassifyValueType(p.ty);
    var inNum, inSym := p.name in input.numeric, p.name in input.symbols;
    if inNum && inSym then None
    else if IsNumeric(cat) then (if inNum then Some(ToText(input.numeric[p.name])) else None)
    else if IsCanonical(cat) then (if inSym then Some(input.symbols[p.name]) else None)
    else if inNum then Some(ToText(input.numeric[p.name]))
    else if inSym then Some(input.symbols[p.name])
    else None
  }

  /** The claimed payload, or the first declared input that is missing, ambiguous or mistyped. */
  function TypedInputs(inputs: seq<PlanInput>, input: TransitionInput): Result<map<string, string>, string> {
    if inputs == [] then Ok(map[])
    else
      var text := InputText(inputs[0], input);
      if text.None? then Err(inputs[0].name)
      else
        var rest := TypedInputs(inputs[1..], input);
        if rest.Err? then rest else Ok(rest.value[inputs[0].name := text.value])
  }

  // ---------------------------------------------------------------- computes

  datatype Folded = Folded(env: Env, trace: seq<Obs>) | FoldStopped(code: Code, trace: seq<Obs>)

  function FoldComputes(computes: seq<PlanCompute>, env: Env, trace: seq<Obs>): Folded
    decreases |computes|
  {
    if computes == [] then Folded(env, trace)
    else if computes[0].expr.None? then FoldStopped(ExprMissing, trace)
    else
      var v := EvalExpr(computes[0].expr.value, env);
      if v.Err? then FoldStopped(ExprFault(v.error), trace)
      else FoldComputes(computes[1..], env[computes[0].name := v.value],
                        trace + [ComputeObs(computes[0].name, v.value)])
  }

  predicate PolicyAccepted(input: TransitionInput, policy: string) {
    policy in input.attestations && input.attestations[policy]
  }

  function SeedAccepted(attestations: seq<string>, input: TransitionInput, env: Env): Env
    decreases |attestations|
  {
    if attestations == [] then env
    else
      var bit: I64 := if PolicyAccepted(input, attestations[0]) then 1 else 0;
      SeedAccepted(attestations[1..], input, env[AcceptedKey(attestations[0]) := bit])
  }

  // ---------------------------------------------------------------- staging

  datatype Staging = Staging(balances: map<Account, I64>, pending: seq<Posting>, trace: seq<Obs>)

  datatype StageResult = Staged(st: Staging) | Stopped(code: Code, subject: string, trace: seq<Obs>)

  /** The posting of a leg whose kind was checked. */
  function ResolveLeg(e: PlanEffect, env: Env, symbols: map<string, string>): Result<Posting, Code> {
    if e.ledger == "" then Err(OperandMalformed)
    else
      var value := ResolveAmount(e.amount, env);
      if value.Err? then Err(value.error)
      else
        var party := ResolveSymbol(e.party, symbols);
        if party.Err? then Err(party.error)
        else
          var currency := ResolveSymbol(e.currency, symbols);
          if currency.Err? then Err(currency.error)
          else
            var delta: I64 := if e.kind == "credit" then value.value else -(value.value as int);
            Ok(Posting(e.name, e.kind == "debit", Account(e.ledger, party.value, currency.value), delta))
  }

  function Balance(balances: map<Account, I64>, a: Account): I64 {
    if a in balances then balances[a] else 0
  }

  /** Accumulate one leg onto the staged balances with an overflow check. */
  function StageLeg(e: PlanEffect, env: Env, symbols: map<string, string>, st: Staging): StageResult {
    var p := ResolveLeg(e, env, symbols);
    if p.Err? then Stopped(p.error, e.name, st.trace)
    else
      var sum: int := Balance(st.balances, p.value.account) as int + p.value.delta as int;
      if !InI64(sum) then Stopped(BalanceOverflow, e.name, st.trace)
      else Staged(Staging(st.balances[p.value.account := sum], st.pending + [p.value], st.trace))
  }

  predicate KnownKind(e: PlanEffect) {
    e.kind == "debit" || e.kind == "credit"
  }

  /** The single-shot path: every effect whose guard holds, gated by its policy. */
  function StageAtomic(effects: seq<PlanEffect>, env: Env, input: TransitionInput, st: Staging): StageResult
    decreases |effects|
  {
    if effects == [] then Staged(st)
    else
      var e := effects[0];
      if !KnownKind(e) then Stopped(EffectKind, e.name, st.trace)
      else
        var held := if e.guard.Some? then EvalGuard(e.guard.value, env) else Ok(true);
        if held.Err? then Stopped(ExprFault(held.error), e.name, st.trace)
        else
          var guarded := if e.guard.Some? then st.(trace := st.trace + [GuardObs(e.name, held.value)]) else st;
          if !held.value then StageAtomic(effects[1..], env, input, guarded)
          else
            var accepted := PolicyAccepted(input, e.attestationInput);
            var attested :=
              if e.attestationInput == "" then guarded
              else guarded.(trace := guarded.trace + [AttestationObs(e.name, e.attestationInput, accepted)]);
            if e.attestationInput != "" && !accepted then Stopped(AttestationRejected, e.name, attested.trace)
            else
              var r := StageLeg(e, env, input.symbols, attested);
              if r.Stopped? then r else StageAtomic(effects[1..], env, input, r.st)
  }

  /** All legs of one committable group. */
  function StageGroup(effects: seq<PlanEffect>, env: Env, symbols: map<string, string>, st: Staging): StageResult
    decreases |effects|
  {
    if effects == [] then Staged(st)
    else if !KnownKind(effects[0]) then Stopped(EffectKind, effects[0].name, st.trace)
    else
      var r := StageLeg(effects[0], env, symbols, st);
      if r.Stopped? then r else StageGroup(effects[1..], env, symbols, r.st)
  }

  function GroupGuard(plan: CoordinationPlan, g: EffectGroup): Option<ExprNode>
    requires g.firstIndex < |plan.effects|
  {
    plan.effects[g.firstIndex].guard
  }

  function GroupHolds(plan: CoordinationPlan, g: EffectGroup, env: Env): Result<bool, ExprCode>
    requires g.firstIndex < |plan.effects|
  {
    var guard := GroupGuard(plan, g);
    if guard.Some? then EvalGuard(guard.value, env) else Ok(true)
  }

  predicate AlwaysRequired(plan: CoordinationPlan, g: EffectGroup)
    requires g.firstIndex < |plan.effects|
  {
    GroupGuard(plan, g).None? || IsAcceptedGuard(GroupGuard(plan, g).value)
  }

  /** The first group guard that faults, if any. */
  function GroupFault(plan: CoordinationPlan, groups: seq<EffectGroup>, env: Env): Option<ExprCode>
    requires Indexed(plan, groups)
  {
    if groups == [] then None
    else if GroupHolds(plan, groups[0], env).Err? then Some(GroupHolds(plan, groups[0], env).error)
    else GroupFault(plan, groups[1..], env)
  }

  predicate HoldsNow(plan: CoordinationPlan, g: EffectGroup, env: Env)
    requires g.firstIndex < |plan.effects|
  {
    GroupHolds(plan, g, env) == Ok(true)
  }

  predicate Committable(plan: CoordinationPlan, g: EffectGroup, env: Env, soFar: set<string>)
    requires g.firstIndex < |plan.effects|
  {
    HoldsNow(plan, g, env) && g.guardKey !in soFar
  }

  /** A guarded group's verdict is observed whether or not it commits. */
  function SeeGroup(plan: CoordinationPlan, g: EffectGroup, env: Env, st: Staging): Staging
    requires g.firstIndex < |plan.effects|
  {
    if GroupGuard(plan, g).None? then st
    else st.(trace := st.trace + [GuardObs(g.guardKey, HoldsNow(plan, g, env))])
  }

  function StageGroups(
      plan: CoordinationPlan, groups: seq<EffectGroup>, env: Env, symbols: map<string, string>,
      soFar: set<string>, st: Staging): StageResult
    requires Indexed(plan, groups)
    decreases |groups|
  {
    if groups == [] then Staged(st)
    else
      var g := groups[0];
      var seen := SeeGroup(plan, g, env, st);
      if !Committable(plan, g, env, soFar) then StageGroups(plan, groups[1..], env, symbols, soFar, seen)
      else
        var r := StageGroup(Select(plan.effects, g.effectIndices), env, symbols, seen);
        if r.Stopped? then r else StageGroups(plan, groups[1..], env, symbols, soFar, r.st)
  }

  // ---------------------------------------------------------------- observations of a commit

  function DeltaObs(pending: seq<Posting>): seq<Obs> {
    if pending == [] then [] else [LedgerDeltaObs(pending[0])] + DeltaObs(pending[1..])
  }

  function EventObs'(pending: seq<Posting>): seq<Obs> {
    if pending == [] then []
    else [EventObs(EffectPosted(pending[0].effect, pending[0].debit))] + EventObs'(pending[1..])
  }

  predicate Posted(pending: seq<Posting>, effect: string) {
    exists i :: 0 <= i < |pending| && pending[i].effect == effect
  }

  function ObligationStatusOf(o: Obligation, env: Env, pending: seq<Posting>): ObligationStatus {
    var eligible := o.activation.Some? && EvalGuard(o.activation.value, env) == Ok(true);
    if !eligible then NotEligible
    else if forall i :: 0 <= i < |o.effects| ==> Posted(pending, o.effects[i]) then Fired
    else Eligible
  }

  function ObligationObs'(obligations: seq<Obligation>, env: Env, pending: seq<Posting>): seq<Obs> {
    if obligations == [] then []
    else
      var o := obligations[0];
      [ObligationObs(o.name, o.obligor, ObligationStatusOf(o, env, pending))]
        + ObligationObs'(obligations[1..], env, pending)
  }

  // ---------------------------------------------------------------- outcomes

  function Refuse(s: EvalState, trace: seq<Obs>, code: Code, subject: string): TransitionResult {
    TransitionResult(Refused, trace + [RefusalObs(code, subject)], s, Some(code))
  }

  /** Mark `key` terminal under its claim. */
  function Close(s: EvalState, plan: CoordinationPlan, key: string, claim: Claim): EvalState {
    s.(postedKeys := s.postedKeys + {key},
       keyClaim := s.keyClaim[key := claim],
       keyStatus := s.keyStatus[key := plan.success])
  }

  function Replay(s: EvalState, trace: seq<Obs>, key: string, claim: Claim): TransitionResult {
    if key !in s.keyClaim then Refuse(s, trace, StateInvalid, "")
    else if s.keyClaim[key] != claim then Refuse(s, trace, ClaimMismatch, "")
    else if key !in s.keyStatus || s.keyStatus[key] == "" then Refuse(s, trace, StateInvalid, "")
    else TransitionResult(Replayed, trace + [ReplayObs(key), TerminalObs(s.keyStatus[key])], s, None)
  }

  // ---------------------------------------------------------------- the three commit paths

  /** The first policy whose evidence is missing or not accepted. */
  function EvidenceFault(policies: seq<string>, input: TransitionInput): Option<Code> {
    if policies == [] then None
    else if policies[0] !in input.attestations then Some(EvidenceMalformed)
    else if !input.attestations[policies[0]] then Some(AttestationRejected)
    else EvidenceFault(policies[1..], input)
  }

  function EvidenceObs(policies: seq<string>, input: TransitionInput): seq<Obs> {
    if policies == [] || policies[0] !in input.attestations then []
    else
      var accepted := input.attestations[policies[0]];
      [AttestationObs("", policies[0], accepted)] + if accepted then EvidenceObs(policies[1..], input) else []
  }

  function EvidencePath(
      plan: CoordinationPlan, s: EvalState, input: TransitionInput, key: string, claim: Claim, trace: seq<Obs>)
    : TransitionResult
  {
    var seen := trace + EvidenceObs(plan.attestations, input);
    var fault := EvidenceFault(plan.attestations, input);
    if fault.Some? then Refuse(s, seen, fault.value, "")
    else
      TransitionResult(Terminal, seen + [EventObs(Accepted), TerminalObs(plan.success)], Close(s, plan, key, claim),
                       None)
  }

  function CommittedSoFar(s: EvalState, key: string): set<string> {
    if key in s.committedGroups then s.committedGroups[key] else {}
  }

  function GroupKeys(groups: seq<EffectGroup>): set<string> {
    set j | 0 <= j < |groups| :: groups[j].guardKey
  }

  /** A partial ledger needs its claim, and only groups of this plan. */
  predicate LedgerValid(plan: CoordinationPlan, s: EvalState, key: string) {
    CommittedSoFar(s, key) == {} || (key in s.keyClaim && CommittedSoFar(s, key) <= GroupKeys(plan.effectGroups))
  }

  function CommittingKeys(plan: CoordinationPlan, env: Env, soFar: set<string>): set<string>
    requires WellIndexed(plan)
  {
    set j | 0 <= j < |plan.effectGroups| && Committable(plan, plan.effectGroups[j], env, soFar)
      :: plan.effectGroups[j].guardKey
  }

  /** The groups that must commit before the key is terminal. */
  function RequiredKeys(plan: CoordinationPlan, env: Env): set<string>
    requires WellIndexed(plan)
  {
    set j | 0 <= j < |plan.effectGroups|
          && (AlwaysRequired(plan, plan.effectGroups[j]) || HoldsNow(plan, plan.effectGroups[j], env))
      :: plan.effectGroups[j].guardKey
  }

  function CommitGroups(
      plan: CoordinationPlan, s: EvalState, key: string, claim: Claim, env: Env, committing: set<string>, st: Staging)
    : TransitionResult
    requires WellIndexed(plan)
  {
    var committed := CommittedSoFar(s, key) + committing;
    var posted := s.(balances := st.balances,
                     committedGroups := s.committedGroups[key := committed],
                     keyClaim := s.keyClaim[key := claim]);
    var trace := st.trace + DeltaObs(st.pending) + EventObs'(st.pending);
    if RequiredKeys(plan, env) <= committed then
      TransitionResult(Terminal, trace + [EventObs(Reconciled), TerminalObs(plan.success)],
                       Close(posted, plan, key, claim), None)
    else TransitionResult(Progress, trace, posted, None)
  }

  function TemporalPath(
      plan: CoordinationPlan, s: EvalState, input: TransitionInput, key: string, claim: Claim, env: Env,
          trace: seq<Obs>)
    : TransitionResult
    requires WellIndexed(plan)
  {
    if !LedgerValid(plan, s, key) then Refuse(s, trace, StateInvalid, "")
    else
      var fault := GroupFault(plan, plan.effectGroups, env);
      if fault.Some? then Refuse(s, trace, ExprFault(fault.value), "")
      else
        var soFar := CommittedSoFar(s, key);
        var r := StageGroups(plan, plan.effectGroups, env, input.symbols, soFar, Staging(s.balances, [], trace));
        if r.Stopped? then Refuse(s, r.trace, r.code, r.subject)
        else
          var committing := CommittingKeys(plan, env, soFar);
          if committing == {} then TransitionResult(NoProgress, r.st.trace + [NoProgressObs(key)], s, None)
          else CommitGroups(plan, s, key, claim, env, committing, r.st)
  }

  function AtomicPath(
      plan: CoordinationPlan, s: EvalState, input: TransitionInput, key: string, claim: Claim, env: Env,
          trace: seq<Obs>)
    : TransitionResult
  {
    var r := StageAtomic(plan.effects, env, input, Staging(s.balances, [], trace));
    if r.Stopped? then Refuse(s, r.trace, r.code, r.subject)
    else
      TransitionResult(
        Terminal,
        r.st.trace + DeltaObs(r.st.pending) + EventObs'(r.st.pending)
          + ObligationObs'(plan.obligations, env, r.st.pending)
          + [EventObs(Reconciled), TerminalObs(plan.success)],
        Close(s.(balances := r.st.balances), plan, key, claim),
        None)
  }

  /** A coordination with an accepted() guard commits its groups one by one. */
  predicate IsTemporal(plan: CoordinationPlan) {
    exists i :: 0 <= i < |plan.effects| && plan.effects[i].guard.Some? && IsAcceptedGuard(plan.effects[i].guard.value)
  }

  predicate IsEvidenceOnly(plan: CoordinationPlan) {
    plan.effects == [] && plan.attestations != []
  }

  /** A transition on a key that is not replayed. */
  function Attempt(plan: CoordinationPlan, s: EvalState, input: TransitionInput, key: string, claim: Claim,
                   trace: seq<Obs>)
    : TransitionResult
    requires WellIndexed(plan)
  {
    var folded := FoldComputes(plan.computes, input.numeric, trace);
    if folded.FoldStopped? then Refuse(s, folded.trace, folded.code, "")
    else
      var env := SeedAccepted(plan.attestations, input, folded.env);
      if IsEvidenceOnly(plan) then EvidencePath(plan, s, input, key, claim, folded.trace)
      else if IsTemporal(plan) then TemporalPath(plan, s, input, key, claim, env, folded.trace)
      else AtomicPath(plan, s, input, key, claim, env, folded.trace)
  }

  /** A transition whose key and payload resolved. */
  function Claimed(plan: CoordinationPlan, s: EvalState, input: TransitionInput, key: string, claim: Claim,
                   trace: seq<Obs>)
    : TransitionResult
    requires WellIndexed(plan)
  {
    if key in s.keyClaim && s.keyClaim[key] != claim then Refuse(s, trace, ClaimMismatch, "")
    else if plan.idempotent && key in s.postedKeys then Replay(s, trace, key, claim)
    else Attempt(plan, s, input, key, claim, trace)
  }

  /** The claim this input makes, once its key and every declared input resolve. */
  function ClaimOf(plan: CoordinationPlan, input: TransitionInput): Option<Claim> {
    var key, typed := KeyValue(plan, input), TypedInputs(plan.inputs, input);
    if key == "" || typed.Err? then None else Some(Claim(plan, key, typed.value))
  }

  function EvaluateTransition(plan: CoordinationPlan, s: EvalState, input: TransitionInput): TransitionResult
    requires WellIndexed(plan)
  {
    var trace := [AuthorizationObs(input.authorized)];
    if !input.authorized then Refuse(s, trace, AuthDenied, "")
    else if KeyValue(plan, input) == "" then Refuse(s, trace, KeyUnresolved, "")
    else
      var typed := TypedInputs(plan.inputs, input);
      if typed.Err? then Refuse(s, trace, ClaimInput, typed.error)
      else
        var claim := Claim(plan, KeyValue(plan, input), typed.value);
        Claimed(plan, s, input, claim.key, claim, trace)
  }
}
