/**
 The balance part of the procedure verifier: debits and credits must agree as multisets of
 (amount, currency), and again once each leg is tagged with the structural key of its guard.
 */
module GuardedBalance {
  import opened Wrappers
  import opened ValueModel
  import opened Expr
  import opened Kernel
  import opened Bags

  /** (amount, currency) operand identities. */
  type Flow = (string, string)

  /** (guard key, amount, currency). */
  type GuardedFlow = (string, string, string)

  datatype Verdict =
    | Accepted
    | InvalidVersion
    | KeyUndeclared
    | KeyNotString
    | KeyAmbiguous(effect: Entry)
    | EvidenceOnlyNeedsKey
    | EffectlessNeedsAttestation
    | AssertMissing
    | NotBalanceable
    | Unbalanced
    | GuardUnbalanced(at: Option<Entry>)

  function GuardOf(e: Entry): string {
    OptGuardKey(e.guard)
  }

  function FlowKey(ops: seq<Op>): Entry -> Flow {
    (e: Entry) => (OperandKey(ops, e.amount), OperandKey(ops, e.currency))
  }

  function GuardedKey(ops: seq<Op>): Entry -> GuardedFlow {
    (e: Entry) => (GuardOf(e), OperandKey(ops, e.amount), OperandKey(ops, e.currency))
  }

  function DebitsOf(ops: seq<Op>): seq<Entry> {
    if ops == [] then []
    else DebitsOf(ops[..|ops| - 1]) + if ops[|ops| - 1].Debit? then [ops[|ops| - 1].entry] else []
  }

  function CreditsOf(ops: seq<Op>): seq<Entry> {
    if ops == [] then []
    else CreditsOf(ops[..|ops| - 1]) + if ops[|ops| - 1].Credit? then [ops[|ops| - 1].entry] else []
  }

  ghost predicate Balanced(ops: seq<Op>) {
    multiset(Map(FlowKey(ops), DebitsOf(ops))) == multiset(Map(FlowKey(ops), CreditsOf(ops)))
  }

  ghost predicate GuardBalanced(ops: seq<Op>) {
    multiset(Map(GuardedKey(ops), DebitsOf(ops))) == multiset(Map(GuardedKey(ops), CreditsOf(ops)))
  }

  ghost predicate MovesValue(ops: seq<Op>) {
    DebitsOf(ops) != [] || CreditsOf(ops) != []
  }

  // ---------------------------------------------------------------- the two multisets

  /** Forget the guard of a guarded flow. */
  function Unguard(k: GuardedFlow): Flow {
    (k.1, k.2)
  }

  function NoGuard(k: Flow): GuardedFlow {
    ("", k.0, k.1)
  }

  predicate IsGuarded(k: GuardedFlow) {
    k.0 != ""
  }

  predicate IsUnguarded(k: GuardedFlow) {
    k.0 == ""
  }

  lemma {:induction false} UnguardKeys(ops: seq<Op>, legs: seq<Entry>)
    ensures Map(Unguard, Map(GuardedKey(ops), legs)) == Map(FlowKey(ops), legs)
  {
  }

  /** The guarded comparison is the stronger one. */
  lemma GuardBalancedIsBalanced(ops: seq<Op>)
    requires GuardBalanced(ops)
    ensures Balanced(ops)
  {
    UnguardKeys(ops, DebitsOf(ops));
    UnguardKeys(ops, CreditsOf(ops));
    MapIsOfBag(Unguard, Map(GuardedKey(ops), DebitsOf(ops)), Map(GuardedKey(ops), CreditsOf(ops)));
  }

  lemma {:induction false} ReguardUnguarded(s: seq<GuardedFlow>)
    requires forall k :: k in s ==> IsUnguarded(k)
    ensures Map(NoGuard, Map(Unguard, s)) == s
  {
    if s != [] {
      ReguardUnguarded(s[1..]);
      assert Map(Unguard, s)[1..] == Map(Unguard, s[1..]);
      assert NoGuard(Unguard(s[0])) == s[0] by {
        assert IsUnguarded(s[0]);
      }
    }
  }

  lemma {:induction false} FilterKeeps<A>(p: A -> bool, s: seq<A>)
    ensures forall x :: x in Filter(p, s) ==> p(x)
  {
    if s != [] {
      FilterKeeps(p, s[1..]);
    }
  }

  lemma UnguardedFlowsAgree(s: seq<GuardedFlow>, t: seq<GuardedFlow>)
    requires multiset(Map(Unguard, s)) == multiset(Map(Unguard, t))
    requires multiset(Filter(IsGuarded, s)) == multiset(Filter(IsGuarded, t))
    ensures multiset(Map(Unguard, Filter(IsUnguarded, s))) == multiset(Map(Unguard, Filter(IsUnguarded, t)))
  {
    MapSplits(Unguard, IsGuarded, IsUnguarded, s);
    MapSplits(Unguard, IsGuarded, IsUnguarded, t);
    MapIsOfBag(Unguard, Filter(IsGuarded, s), Filter(IsGuarded, t));
    hide *;
    Remainder(multiset(Map(Unguard, Filter(IsGuarded, s))),
              multiset(Map(Unguard, Filter(IsUnguarded, s))), multiset(Map(Unguard, Filter(IsUnguarded, t))));
  }

  lemma Remainder(g: multiset<Flow>, a: multiset<Flow>, b: multiset<Flow>)
    requires g + a == g + b
    ensures a == b
  {
    assert (g + a) - g == a && (g + b) - g == b;
  }

  /** Equal plain flows and equal guarded parts leave nothing over for the unguarded parts. */
  lemma UnguardedPartsAgree(s: seq<GuardedFlow>, t: seq<GuardedFlow>)
    requires multiset(Map(Unguard, s)) == multiset(Map(Unguard, t))
    requires multiset(Filter(IsGuarded, s)) == multiset(Filter(IsGuarded, t))
    ensures multiset(s) == multiset(t)
  {
    var su, tu := Filter(IsUnguarded, s), Filter(IsUnguarded, t);
    FilterSplits(IsGuarded, IsUnguarded, s);
    FilterSplits(IsGuarded, IsUnguarded, t);
    FilterKeeps(IsUnguarded, s);
    FilterKeeps(IsUnguarded, t);
    hide *;
    UnguardedFlowsAgree(s, t);
    MapIsOfBag(NoGuard, Map(Unguard, su), Map(Unguard, tu));
    ReguardUnguarded(su);
    ReguardUnguarded(tu);
  }

  /** A leg the diagnostic may point at: guarded, and in excess over the other side. */
  ghost predicate Offends(k: GuardedFlow, mine: multiset<GuardedFlow>, others: multiset<GuardedFlow>) {
    mine[k] > others[k] && IsGuarded(k)
  }

  /** If neither side has a guarded leg in excess, the guarded parts agree. */
  lemma NoOffenderMeansAgreement(s: seq<GuardedFlow>, t: seq<GuardedFlow>)
    requires forall k :: k in s ==> !Offends(k, multiset(s), multiset(t))
    requires forall k :: k in t ==> !Offends(k, multiset(t), multiset(s))
    ensures multiset(Filter(IsGuarded, s)) == multiset(Filter(IsGuarded, t))
  {
    forall k: GuardedFlow
      ensures multiset(Filter(IsGuarded, s))[k] == multiset(Filter(IsGuarded, t))[k]
    {
      FilterCounts(IsGuarded, s, k);
      FilterCounts(IsGuarded, t, k);
      if IsGuarded(k) {
        assert k in s <==> multiset(s)[k] > 0;
        assert k in t <==> multiset(t)[k] > 0;
      }
    }
  }

  /**
   The search for an offending leg cannot come back empty: once the plain flows agree and the
   guarded ones do not, some guarded leg is in excess on one side.
   */
  lemma OffenderExists(s: seq<GuardedFlow>, t: seq<GuardedFlow>)
    requires multiset(Map(Unguard, s)) == multiset(Map(Unguard, t))
    requires multiset(s) != multiset(t)
    ensures (exists k :: k in s && Offends(k, multiset(s), multiset(t)))
         || (exists k :: k in t && Offends(k, multiset(t), multiset(s)))
  {
    if !(exists k :: k in s && Offends(k, multiset(s), multiset(t)))
       && !(exists k :: k in t && Offends(k, multiset(t), multiset(s))) {
      NoOffenderMeansAgreement(s, t);
      UnguardedPartsAgree(s, t);
    }
  }

  // ---------------------------------------------------------------- the verifier

  method FlowsOf(ops: seq<Op>, legs: seq<Entry>) returns (flows: multiset<Flow>, guarded: multiset<GuardedFlow>)
    ensures flows == multiset(Map(FlowKey(ops), legs))
    ensures guarded == multiset(Map(GuardedKey(ops), legs))
  {
    flows, guarded := multiset{}, multiset{};
    for i := 0 to |legs|
      invariant flows == multiset(Map(FlowKey(ops), legs[..i]))
      invariant guarded == multiset(Map(GuardedKey(ops), legs[..i]))
    {
      flows := flows + multiset{FlowKey(ops)(legs[i])};
      guarded := guarded + multiset{GuardedKey(ops)(legs[i])};
      MapGrows(FlowKey(ops), legs, i);
      MapGrows(GuardedKey(ops), legs, i);
    }
    assert legs[..|legs|] == legs;
  }

  /** The first guarded leg of `legs` that is in excess over the other side. */
  method Offending(ops: seq<Op>, legs: seq<Entry>, mine: multiset<GuardedFlow>, others: multiset<GuardedFlow>)
    returns (at: Option<Entry>)
    ensures at.Some? ==> at.value in legs && Offends(GuardedKey(ops)(at.value), mine, others)
    ensures at.None? ==> forall e :: e in legs ==> !Offends(GuardedKey(ops)(e), mine, others)
  {
    for i := 0 to |legs|
      invariant forall e :: e in legs[..i] ==> !Offends(GuardedKey(ops)(e), mine, others)
    {
      var key := GuardedKey(ops)(legs[i]);
      if mine[key] > others[key] && GuardOf(legs[i]) != "" {
        return Some(legs[i]);
      }
      assert legs[..i + 1] == legs[..i] + [legs[i]];
    }
    assert legs[..|legs|] == legs;
    return None;
  }

  lemma {:induction false} MappedFrom<A, B>(f: A -> B, s: seq<A>, y: B)
    requires y in Map(f, s)
    ensures exists x :: x in s && f(x) == y
  {
    var i :| 0 <= i < |s| && Map(f, s)[i] == y;
    assert s[i] in s;
  }

  /** When the guarded comparison fails after the plain one held, a guarded leg is always named. */
  method BlameLeg(ops: seq<Op>, debits: seq<Entry>, credits: seq<Entry>,
                  dg: multiset<GuardedFlow>, cg: multiset<GuardedFlow>) returns (at: Option<Entry>)
    requires multiset(Map(FlowKey(ops), debits)) == multiset(Map(FlowKey(ops), credits))
    requires dg == multiset(Map(GuardedKey(ops), debits)) && cg == multiset(Map(GuardedKey(ops), credits))
    requires dg != cg
    ensures at.Some? && at.value.guard.Some?
    ensures || (at.value in debits && dg[GuardedKey(ops)(at.value)] > cg[GuardedKey(ops)(at.value)])
            || (at.value in credits && cg[GuardedKey(ops)(at.value)] > dg[GuardedKey(ops)(at.value)])
  {
    at := Offending(ops, debits, dg, cg);
    if at.None? {
      at := Offending(ops, credits, cg, dg);
      if at.None? {
        UnguardKeys(ops, debits);
        UnguardKeys(ops, credits);
        var s, t := Map(GuardedKey(ops), debits), Map(GuardedKey(ops), credits);
        OffenderExists(s, t);
        if k :| k in s && Offends(k, dg, cg) {
          MappedFrom(GuardedKey(ops), debits, k);
        } else {
          var k :| k in t && Offends(k, cg, dg);
          MappedFrom(GuardedKey(ops), credits, k);
        }
        assert false;
      }
    }
  }

  // ---------------------------------------------------------------- the declared instance key

  /** The type that the last input of a name declares. */
  function DeclaredType(ops: seq<Op>, name: string): Option<string> {
    if ops == [] then None
    else
      var last := ops[|ops| - 1];
      if last.Input? && last.symName == name then Some(last.ty) else DeclaredType(ops[..|ops| - 1], name)
  }

  /** The map from each declared input to its type. */
  ghost predicate TypesDeclared(ops: seq<Op>, inputType: map<string, string>) {
    forall x :: DeclaredType(ops, x) == if x in inputType then Some(inputType[x]) else None
  }

  /** The input that an effect keys on; a literal key names none. */
  function KeyInput(ops: seq<Op>, e: Entry): string {
    var key := OpOf(ops, e.idempotencyKey);
    if key.Input? then key.symName else ""
  }

  /** A declared instance key is a string input, and every effect keys on it. */
  ghost predicate InstanceKeyed(ops: seq<Op>, instanceKey: string) {
    instanceKey != "" ==>
      && DeclaredType(ops, instanceKey).Some? && ClassifyValueType(DeclaredType(ops, instanceKey).value) == Text
      && forall e :: e in DebitsOf(ops) || e in CreditsOf(ops) ==> KeyInput(ops, e) == instanceKey
  }

  /** The first effect that keys on something else. */
  method KeyedOtherwise(ops: seq<Op>, legs: seq<Entry>, instanceKey: string) returns (at: Option<Entry>)
    ensures at.Some? ==> at.value in legs && KeyInput(ops, at.value) != instanceKey
    ensures at.None? ==> forall e :: e in legs ==> KeyInput(ops, e) == instanceKey
  {
    for i := 0 to |legs|
      invariant forall e :: e in legs[..i] ==> KeyInput(ops, e) == instanceKey
    {
      if KeyInput(ops, legs[i]) != instanceKey {
        return Some(legs[i]);
      }
      assert legs[..i + 1] == legs[..i] + [legs[i]];
    }
    assert legs[..|legs|] == legs;
    return None;
  }

  method VerifyInstanceKey(ops: seq<Op>, inputType: map<string, string>, debits: seq<Entry>, credits: seq<Entry>,
                           instanceKey: string) returns (v: Verdict)
    requires debits == DebitsOf(ops) && credits == CreditsOf(ops)
    requires TypesDeclared(ops, inputType)
    ensures v == Accepted <==> InstanceKeyed(ops, instanceKey)
    ensures v == Accepted || v == KeyUndeclared || v == KeyNotString || v.KeyAmbiguous?
    ensures v.KeyAmbiguous? ==> instanceKey != "" && KeyInput(ops, v.effect) != instanceKey
  {
    if instanceKey == "" {
      return Accepted;
    }
    if instanceKey !in inputType {
      return KeyUndeclared;
    }
    if ClassifyValueType(inputType[instanceKey]) != Text {
      return KeyNotString;
    }
    hide ClassifyValueType, KeyInput;
    var at := KeyedOtherwise(ops, debits, instanceKey);
    if at.None? {
      at := KeyedOtherwise(ops, credits, instanceKey);
    }
    return if at.Some? then KeyAmbiguous(at.value) else Accepted;
  }

  // ---------------------------------------------------------------- the procedure

  /** The part of the check that concerns balance, once the legs are collected. */
  method VerifyBalance(ops: seq<Op>, debits: seq<Entry>, credits: seq<Entry>, hasAssert: bool) returns (v: Verdict)
    requires debits == DebitsOf(ops) && credits == CreditsOf(ops)
    ensures v == Accepted <==> hasAssert && debits != [] && credits != [] && GuardBalanced(ops)
    ensures v == Accepted ==> Balanced(ops)
    ensures v != InvalidVersion && !v.KeyAmbiguous?
    ensures v == Unbalanced ==> !Balanced(ops)
    ensures v.GuardUnbalanced? ==> Balanced(ops) && !GuardBalanced(ops) && v.at.Some? && v.at.value.guard.Some?
  {
    if !hasAssert {
      return AssertMissing;
    }
    if debits == [] || credits == [] {
      return NotBalanceable;
    }
    var dflow, dg := FlowsOf(ops, debits);
    var cflow, cg := FlowsOf(ops, credits);
    if dflow != cflow {
      if GuardBalanced(ops) {
        GuardBalancedIsBalanced(ops);
      }
      return Unbalanced;
    }
    if dg != cg {
      var at := BlameLeg(ops, debits, credits, dg, cg);
      return GuardUnbalanced(at);
    }
    return Accepted;
  }

  lemma OneMoreOp(ops: seq<Op>, i: nat)
    requires i < |ops|
    ensures ops[..i + 1] == ops[..i] + [ops[i]]
    ensures DebitsOf(ops[..i + 1]) == DebitsOf(ops[..i]) + if ops[i].Debit? then [ops[i].entry] else []
    ensures CreditsOf(ops[..i + 1]) == CreditsOf(ops[..i]) + if ops[i].Credit? then [ops[i].entry] else []
  {
    assert ops[..i + 1][..i] == ops[..i];
  }

  lemma OneMoreDeclaration(ops: seq<Op>, i: nat, inputType: map<string, string>)
    requires i < |ops| && TypesDeclared(ops[..i], inputType)
    ensures TypesDeclared(ops[..i + 1], if ops[i].Input? then inputType[ops[i].symName := ops[i].ty] else inputType)
  {
    var next := if ops[i].Input? then inputType[ops[i].symName := ops[i].ty] else inputType;
    assert ops[..i + 1] == ops[..i] + [ops[i]];
    forall x ensures DeclaredType(ops[..i + 1], x) == if x in next then Some(next[x]) else None {
      LastDeclaration(ops[..i], ops[i], x);
    }
  }

  lemma LastDeclaration(ops: seq<Op>, op: Op, x: string)
    ensures DeclaredType(ops + [op], x) == if op.Input? && op.symName == x then Some(op.ty) else DeclaredType(ops, x)
  {
    assert (ops + [op])[..|ops|] == ops;
  }

  ghost predicate Attested(ops: seq<Op>) {
    exists a :: a in ops && a.Attest?
  }

  /** One pass over the body: its legs, its markers and its declared inputs. */
  method CollectBody(ops: seq<Op>)
    returns (debits: seq<Entry>, credits: seq<Entry>, hasAssert: bool, hasAttest: bool, inputType: map<string, string>)
    ensures debits == DebitsOf(ops) && credits == CreditsOf(ops)
    ensures hasAssert <==> AssertBalanced in ops
    ensures hasAttest <==> Attested(ops)
    ensures TypesDeclared(ops, inputType)
  {
    debits, credits, hasAssert, hasAttest, inputType := [], [], false, false, map[];
    for i := 0 to |ops|
      invariant debits == DebitsOf(ops[..i]) && credits == CreditsOf(ops[..i])
      invariant hasAssert <==> AssertBalanced in ops[..i]
      invariant hasAttest <==> exists a :: a in ops[..i] && a.Attest?
      invariant TypesDeclared(ops[..i], inputType)
    {
      OneMoreOp(ops, i);
      OneMoreDeclaration(ops, i, inputType);
      hide DebitsOf, CreditsOf, TypesDeclared;
      assert forall a :: a in ops[..i + 1] <==> a in ops[..i] || a == ops[i];
      match ops[i]
      case Debit(e) => debits := debits + [e];
      case Credit(e) => credits := credits + [e];
      case AssertBalanced => hasAssert := true;
      case Attest(_) => hasAttest := true;
      case Input(name, ty) => inputType := inputType[name := ty];
      case _ =>
    }
    assert ops[..|ops|] == ops;
  }

  /** Without effects a declared key and an attestation go together. */
  method VerifyEffectless(hasAttest: bool, instanceKey: string) returns (v: Verdict)
    ensures v == Accepted <==> (instanceKey != "" <==> hasAttest)
    ensures v == Accepted || v == EvidenceOnlyNeedsKey || v == EffectlessNeedsAttestation
  {
    if hasAttest && instanceKey == "" {
      return EvidenceOnlyNeedsKey;
    }
    if !hasAttest && instanceKey != "" {
      return EffectlessNeedsAttestation;
    }
    return Accepted;
  }

  /**
   Accept or refuse a procedure: its version, its declared instance key ("" for none), and then,
   if it moves value, its balance. Without effects a key and an attestation go together.
   */
  method VerifyProcedure(ops: seq<Op>, version: Option<string>, instanceKey: string, isSemVer: string -> bool)
    returns (v: Verdict)
    ensures v == Accepted <==>
      && (version.Some? ==> isSemVer(version.value))
      && InstanceKeyed(ops, instanceKey)
      && (if MovesValue(ops)
          then AssertBalanced in ops && DebitsOf(ops) != [] && CreditsOf(ops) != [] && GuardBalanced(ops)
          else instanceKey != "" <==> Attested(ops))
    ensures v == Accepted && MovesValue(ops) ==> GuardBalanced(ops) && Balanced(ops)
    ensures v == InvalidVersion <==> version.Some? && !isSemVer(version.value)
    ensures v.KeyAmbiguous? ==> instanceKey != "" && KeyInput(ops, v.effect) != instanceKey
    ensures v == Unbalanced ==> !Balanced(ops)
    ensures v.GuardUnbalanced? ==> Balanced(ops) && !GuardBalanced(ops) && v.at.Some? && v.at.value.guard.Some?
  {
    hide InstanceKeyed, DebitsOf, CreditsOf, TypesDeclared, GuardBalanced, Balanced, KeyInput, Attested;
    if version.Some? && !isSemVer(version.value) {
      return InvalidVersion;
    }
    var debits, credits, hasAssert, hasAttest, inputType := CollectBody(ops);
    v := VerifyInstanceKey(ops, inputType, debits, credits, instanceKey);
    if v != Accepted {
      return;
    }
    if debits == [] && credits == [] {
      v := VerifyEffectless(hasAttest, instanceKey);
      return;
    }
    v := VerifyBalance(ops, debits, credits, hasAssert);
  }

  // ---------------------------------------------------------------- what acceptance means

  /** How an environment reads operands: what an amount is worth and which currency it names. */
  datatype Reading = Reading(env: Env, worth: string -> int, token: string -> string)

  ghost predicate Fires(e: Entry, env: Env) {
    e.guard.None? || EvalGuard(e.guard.value, env) == Ok(true)
  }

  /** What `e` moves of `currency`: its amount when the guard holds, else nothing. */
  ghost function Moves(ops: seq<Op>, r: Reading, currency: string): Entry -> int {
    (e: Entry) =>
      if Fires(e, r.env) && r.token(OperandKey(ops, e.currency)) == currency
      then r.worth(OperandKey(ops, e.amount))
      else 0
  }

  /** The debits that fire move as much of `currency` as the credits that fire. */
  ghost predicate MovesAgree(ops: seq<Op>, r: Reading, currency: string) {
    Sum(Moves(ops, r, currency), DebitsOf(ops)) == Sum(Moves(ops, r, currency), CreditsOf(ops))
  }

  ghost function FiresUnder(env: Env): Entry -> bool {
    (e: Entry) => Fires(e, env)
  }

  /** The (amount, currency) operands of the legs that fire in `env`. */
  ghost function FiringKeys(ops: seq<Op>, legs: seq<Entry>, env: Env): seq<Flow> {
    Map(FlowKey(ops), Filter(FiresUnder(env), legs))
  }

  /** The legs that fire in `env` balance, as the verifier compares all legs. */
  ghost predicate BalancedIn(ops: seq<Op>, env: Env) {
    multiset(FiringKeys(ops, DebitsOf(ops), env)) == multiset(FiringKeys(ops, CreditsOf(ops), env))
  }

  /** What a flow is worth in `currency`. */
  ghost function WorthOf(r: Reading, currency: string): Flow -> int {
    (f: Flow) => if r.token(f.1) == currency then r.worth(f.0) else 0
  }

  lemma {:induction false} MovesOfFiring(ops: seq<Op>, legs: seq<Entry>, r: Reading, currency: string)
    ensures Sum(Moves(ops, r, currency), legs) == Sum(WorthOf(r, currency), FiringKeys(ops, legs, r.env))
  {
    if legs != [] {
      var e, rest := legs[0], FiringKeys(ops, legs[1..], r.env);
      MovesOfFiring(ops, legs[1..], r, currency);
      hide Fires;
      assert Filter(FiresUnder(r.env), legs)
          == (if Fires(e, r.env) then [e] else []) + Filter(FiresUnder(r.env), legs[1..]);
      if Fires(e, r.env) {
        assert FiringKeys(ops, legs, r.env) == [FlowKey(ops)(e)] + rest;
        assert ([FlowKey(ops)(e)] + rest)[1..] == rest;
      } else {
        assert [] + Filter(FiresUnder(r.env), legs[1..]) == Filter(FiresUnder(r.env), legs[1..]);
      }
    }
  }

  /** The reading that counts the flow `k`. */
  ghost function Counting(env: Env, k: Flow): Reading {
    Reading(env, (id: string) => if id == k.0 then 1 else 0, (id: string) => if id == k.1 then "c" else "")
  }

  lemma {:induction false} SumCounts(flows: seq<Flow>, env: Env, k: Flow)
    ensures Sum(WorthOf(Counting(env, k), "c"), flows) == multiset(flows)[k]
  {
    if flows != [] {
      SumCounts(flows[1..], env, k);
      assert flows == [flows[0]] + flows[1..];
    }
  }

  /**
   Exactly when a body conserves value in an environment, whatever its operands are worth and
   whichever currencies they name: the legs whose guards hold must balance by themselves.
   */
  lemma BalancedInExactly(ops: seq<Op>, env: Env)
    ensures BalancedIn(ops, env) <==>
      forall r: Reading, currency: string :: r.env == env ==> MovesAgree(ops, r, currency)
  {
    var d, c := FiringKeys(ops, DebitsOf(ops), env), FiringKeys(ops, CreditsOf(ops), env);
    hide FiringKeys, Moves;
    if BalancedIn(ops, env) {
      forall r: Reading, currency: string | r.env == env ensures MovesAgree(ops, r, currency) {
        MovesOfFiring(ops, DebitsOf(ops), r, currency);
        MovesOfFiring(ops, CreditsOf(ops), r, currency);
        SumIsOfBag(WorthOf(r, currency), d, c);
      }
    }
    if forall r: Reading, currency: string :: r.env == env ==> MovesAgree(ops, r, currency) {
      forall k: Flow ensures multiset(d)[k] == multiset(c)[k] {
        var r := Counting(env, k);
        assert MovesAgree(ops, r, "c");
        MovesOfFiring(ops, DebitsOf(ops), r, "c");
        MovesOfFiring(ops, CreditsOf(ops), r, "c");
        SumCounts(d, env, k);
        SumCounts(c, env, k);
      }
    }
  }

  // ---------------------------------------------------------------- when keys can be trusted

  /** Legs filed under one key have guards of one structure. */
  ghost predicate OneStructurePerKey(legs: seq<Entry>) {
    forall a, b :: a in legs && b in legs && GuardOf(a) == GuardOf(b) ==> SameStructure(a.guard, b.guard)
  }

  /** Legs filed under one key fire together in `env`. */
  ghost predicate KeysFireAlike(legs: seq<Entry>, env: Env) {
    forall a, b :: a in legs && b in legs && GuardOf(a) == GuardOf(b) ==> (Fires(a, env) <==> Fires(b, env))
  }

  ghost predicate KeySafeLegs(legs: seq<Entry>) {
    forall e :: e in legs && e.guard.Some? ==> KeySafe(e.guard.value)
  }

  lemma SafeLegsHaveOneStructure(legs: seq<Entry>)
    requires KeySafeLegs(legs)
    ensures OneStructurePerKey(legs)
  {
    hide KeySafe, SameStructure;
    forall a, b | a in legs && b in legs && GuardOf(a) == GuardOf(b) ensures SameStructure(a.guard, b.guard) {
      SafeKeyFixesStructure(a.guard, b.guard);
    }
  }

  lemma OneStructureFiresAlike(legs: seq<Entry>, env: Env)
    requires OneStructurePerKey(legs)
    ensures KeysFireAlike(legs, env)
  {
    hide EvalGuard, SameShape;
    forall a, b | a in legs && b in legs && GuardOf(a) == GuardOf(b) ensures Fires(a, env) <==> Fires(b, env) {
      assert SameStructure(a.guard, b.guard);
      if a.guard.Some? {
        SameShapeSameTruth(a.guard.value, b.guard.value, env);
      }
    }
  }

  /** The truth that `legs` give to a guard key. */
  ghost function KeyHolds(legs: seq<Entry>, env: Env): GuardedFlow -> bool {
    (k: GuardedFlow) => exists e :: e in legs && GuardOf(e) == k.0 && Fires(e, env)
  }

  /** The flows that fire are the flows with a firing key. */
  lemma FiringByKey(ops: seq<Op>, legs: seq<Entry>, all: seq<Entry>, env: Env)
    requires KeysFireAlike(all, env) && forall e :: e in legs ==> e in all
    ensures FiringKeys(ops, legs, env) == Map(Unguard, Filter(KeyHolds(all, env), Map(GuardedKey(ops), legs)))
  {
    hide Fires;
    forall e | e in legs ensures FiresUnder(env)(e) <==> KeyHolds(all, env)(GuardedKey(ops)(e)) {
      if Fires(e, env) {
        assert e in all && GuardOf(e) == GuardedKey(ops)(e).0;
      }
    }
    FilterOfMap(GuardedKey(ops), FiresUnder(env), KeyHolds(all, env), legs);
    UnguardKeys(ops, Filter(FiresUnder(env), legs));
  }

  /** A balance of guarded flows is one of firing flows wherever legs of one key fire together. */
  lemma AlikeKeysBalance(ops: seq<Op>, env: Env)
    requires GuardBalanced(ops) && KeysFireAlike(DebitsOf(ops) + CreditsOf(ops), env)
    ensures BalancedIn(ops, env)
  {
    var all := DebitsOf(ops) + CreditsOf(ops);
    var p, d, c := KeyHolds(all, env), Map(GuardedKey(ops), DebitsOf(ops)), Map(GuardedKey(ops), CreditsOf(ops));
    FiringByKey(ops, DebitsOf(ops), all, env);
    FiringByKey(ops, CreditsOf(ops), all, env);
    hide FiringKeys, KeyHolds, GuardedKey;
    FilterIsOfBag(p, d, c);
    MapIsOfBag(Unguard, Filter(p, d), Filter(p, c));
  }

  /**
   Acceptance conserves value in every environment, if legs filed under one key have one structure:
   whichever guards hold, whatever the operands are worth, the debits that fire move as much of each
   currency as the credits do. Clean names ensure the condition; without it acceptance is not enough.
   */
  lemma AcceptedConservesEverywhere(ops: seq<Op>, r: Reading, currency: string)
    requires GuardBalanced(ops) && OneStructurePerKey(DebitsOf(ops) + CreditsOf(ops))
    ensures MovesAgree(ops, r, currency)
  {
    hide *;
    OneStructureFiresAlike(DebitsOf(ops) + CreditsOf(ops), r.env);
    AlikeKeysBalance(ops, r.env);
    BalancedInExactly(ops, r.env);
  }
}
