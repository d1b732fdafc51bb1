/**
 Effect normalization of the coordination plan: policy binding, the partition of effects by
 structural guard key, and the per-group conservation check.
 */
module Plan {
  import opened Wrappers
  import opened Expr
  import opened Bags
  import opened GuardedBalance

  datatype EffectInput = EffectInput(
    name: string,
    kind: string,
    ledger: string,
    party: string,
    amount: string,
    currency: string,
    guardAcceptedInput: string,
    guard: Option<ExprNode>)

  datatype PlanEffect = PlanEffect(
    name: string,
    kind: string,
    ledger: string,
    party: string,
    amount: string,
    currency: string,
    attestationInput: string,
    guardKey: string,
    guard: Option<ExprNode>)

  datatype EffectGroup = EffectGroup(
    guardKey: string,
    attestationInput: string,
    effectIndices: seq<nat>,
    firstIndex: nat,
    mustBalance: bool,
    debitCount: nat,
    creditCount: nat)

  datatype PlanError = UndeclaredPolicy | PolicyUnbound | TemporalMixed | InconsistentGroup | UnbalancedGroup

  // ---------------------------------------------------------------- policy binding

  /** accepted(x) on a single variable names the policy input x; any other guard names none. */
  function AcceptedInput(g: Option<ExprNode>): string {
    if g.Some? && IsAcceptedGuard(g.value) && |g.value.args| == 1 && g.value.args[0].Var? then g.value.args[0].name
    else ""
  }

  function BindEffect(e: EffectInput, attestations: seq<string>): Result<PlanEffect, PlanError> {
    if e.guardAcceptedInput != "" && e.guardAcceptedInput !in attestations then Err(UndeclaredPolicy)
    else
      var bound := if e.guardAcceptedInput == "" && |attestations| == 1 then attestations[0] else "";
      Ok(PlanEffect(e.name, e.kind, e.ledger, e.party, e.amount, e.currency, bound, OptGuardKey(e.guard), e.guard))
  }

  function BindEffects(es: seq<EffectInput>, attestations: seq<string>): Result<seq<PlanEffect>, PlanError> {
    if es == [] then Ok([])
    else
      var first := BindEffect(es[0], attestations);
      if first.Err? then Err(first.error)
      else
        var rest := BindEffects(es[1..], attestations);
        if rest.Err? then rest else Ok([first.value] + rest.value)
  }

  lemma {:induction false} BindEffectsIsPointwise(es: seq<EffectInput>, attestations: seq<string>)
    requires BindEffects(es, attestations).Ok?
    ensures var r := BindEffects(es, attestations).value;
      |r| == |es| && forall i :: 0 <= i < |es| ==> BindEffect(es[i], attestations) == Ok(r[i])
  {
    if es != [] {
      BindEffectsIsPointwise(es[1..], attestations);
    }
  }

  // ---------------------------------------------------------------- the partition

  function FindGroup(groups: seq<EffectGroup>, key: string): (i: nat)
    ensures i <= |groups|
    ensures i < |groups| ==> groups[i].guardKey == key
    ensures forall j :: 0 <= j < i ==> groups[j].guardKey != key
  {
    if groups == [] then 0
    else if groups[0].guardKey == key then 0
    else 1 + FindGroup(groups[1..], key)
  }

  function Count(kind: string, e: PlanEffect): nat {
    if e.kind == kind then 1 else 0
  }

  function Join(g: EffectGroup, e: PlanEffect, index: nat): EffectGroup {
    g.(effectIndices := g.effectIndices + [index],
       debitCount := g.debitCount + Count("debit", e),
       creditCount := g.creditCount + Count("credit", e))
  }

  function FreshGroup(e: PlanEffect, index: nat, balanced: bool): EffectGroup {
    EffectGroup(e.guardKey, e.attestationInput, [index], index, balanced, Count("debit", e), Count("credit", e))
  }

  /** File one effect: into the group of its guard key, or into a new group at the end. */
  function AddEffect(groups: seq<EffectGroup>, e: PlanEffect, index: nat, balanced: bool)
    : Result<seq<EffectGroup>, PlanError>
  {
    var i := FindGroup(groups, e.guardKey);
    if i == |groups| then Ok(groups + [FreshGroup(e, index, balanced)])
    else if groups[i].attestationInput != e.attestationInput then Err(InconsistentGroup)
    else Ok(groups[i := Join(groups[i], e, index)])
  }

  function GroupEffects(effects: seq<PlanEffect>, balanced: bool): Result<seq<EffectGroup>, PlanError> {
    if effects == [] then Ok([])
    else
      var n := |effects| - 1;
      var groups := GroupEffects(effects[..n], balanced);
      if groups.Err? then groups else AddEffect(groups.value, effects[n], n, balanced)
  }

  predicate InRange(effects: seq<PlanEffect>, indices: seq<nat>) {
    forall j :: 0 <= j < |indices| ==> indices[j] < |effects|
  }

  /** The positions of the effects filed under `key`, in effect order. */
  function IndicesOf(effects: seq<PlanEffect>, key: string): (r: seq<nat>)
    ensures InRange(effects, r)
    ensures forall i :: i in r <==> 0 <= i < |effects| && effects[i].guardKey == key
  {
    if effects == [] then []
    else
      var n := |effects| - 1;
      IndicesOf(effects[..n], key) + if effects[n].guardKey == key then [n] else []
  }

  /** The group holds exactly the effects of its key, in effect order. */
  ghost predicate Holds(g: EffectGroup, effects: seq<PlanEffect>) {
    && g.effectIndices == IndicesOf(effects, g.guardKey)
    && g.effectIndices != []
    && g.effectIndices[0] == g.firstIndex
  }

  ghost predicate Covered(groups: seq<EffectGroup>, effects: seq<PlanEffect>) {
    forall i :: 0 <= i < |effects| ==> exists j :: 0 <= j < |groups| && groups[j].guardKey == effects[i].guardKey
  }

  ghost predicate Ordered(groups: seq<EffectGroup>) {
    forall i, j :: 0 <= i < j < |groups|
      ==> groups[i].guardKey != groups[j].guardKey && groups[i].firstIndex < groups[j].firstIndex
  }

  /** Groups partition the effects by guard key, in order of first appearance. */
  ghost predicate Partitions(groups: seq<EffectGroup>, effects: seq<PlanEffect>) {
    && (forall j :: 0 <= j < |groups| ==> Holds(groups[j], effects))
    && Covered(groups, effects)
    && Ordered(groups)
  }

  lemma IndicesGrow(effects: seq<PlanEffect>, e: PlanEffect, key: string)
    ensures IndicesOf(effects + [e], key) == IndicesOf(effects, key) + if e.guardKey == key then [|effects|] else []
  {
    assert (effects + [e])[..|effects|] == effects;
  }

  lemma HoldsGrows(g: EffectGroup, effects: seq<PlanEffect>, e: PlanEffect)
    requires Holds(g, effects)
    ensures g.guardKey != e.guardKey ==> Holds(g, effects + [e])
    ensures g.guardKey == e.guardKey ==> Holds(Join(g, e, |effects|), effects + [e])
    ensures g.firstIndex < |effects|
  {
    IndicesGrow(effects, e, g.guardKey);
    assert g.firstIndex in IndicesOf(effects, g.guardKey);
  }

  lemma HoldsFresh(effects: seq<PlanEffect>, e: PlanEffect, balanced: bool)
    requires forall i :: 0 <= i < |effects| ==> effects[i].guardKey != e.guardKey
    ensures Holds(FreshGroup(e, |effects|, balanced), effects + [e])
  {
    IndicesGrow(effects, e, e.guardKey);
    NoIndices(effects, e.guardKey);
  }

  lemma {:induction false} NoIndices(effects: seq<PlanEffect>, key: string)
    requires forall i :: 0 <= i < |effects| ==> effects[i].guardKey != key
    ensures IndicesOf(effects, key) == []
  {
    if effects != [] {
      NoIndices(effects[..|effects| - 1], key);
    }
  }

  lemma AddEffectKeepsPartition(groups: seq<EffectGroup>, effects: seq<PlanEffect>, e: PlanEffect, balanced: bool)
    requires Partitions(groups, effects) && AddEffect(groups, e, |effects|, balanced).Ok?
    ensures Partitions(AddEffect(groups, e, |effects|, balanced).value, effects + [e])
  {
    hide Holds, Join;
    var next, i := AddEffect(groups, e, |effects|, balanced).value, FindGroup(groups, e.guardKey);
    forall j | 0 <= j < |groups|
      ensures Holds(next[j], effects + [e]) && groups[j].firstIndex < |effects|
    {
      HoldsGrows(groups[j], effects, e);
    }
    if i == |groups| {
      assert forall k :: 0 <= k < |effects| ==> effects[k].guardKey != e.guardKey;
      HoldsFresh(effects, e, balanced);
    }
    JoinKeeps(e, |effects|);
    assert Covered(next, effects + [e]) by {
      forall k | 0 <= k < |effects + [e]|
        ensures exists j :: 0 <= j < |next| && next[j].guardKey == (effects + [e])[k].guardKey
      {
        if k < |effects| {
          var j :| 0 <= j < |groups| && groups[j].guardKey == effects[k].guardKey;
          assert next[j].guardKey == groups[j].guardKey;
        } else {
          assert next[i].guardKey == e.guardKey;
        }
      }
    }
    assert Ordered(next);
  }

  lemma JoinKeeps(e: PlanEffect, index: nat)
    ensures forall g: EffectGroup ::
        Join(g, e, index).guardKey == g.guardKey && Join(g, e, index).firstIndex == g.firstIndex
  {
  }

  lemma GroupingUnfolds(effects: seq<PlanEffect>, balanced: bool)
    requires GroupEffects(effects, balanced).Ok?
    ensures effects == [] ==> GroupEffects(effects, balanced) == Ok([])
    ensures effects != [] ==>
      var n := |effects| - 1;
      && GroupEffects(effects[..n], balanced).Ok?
      && GroupEffects(effects, balanced) == AddEffect(GroupEffects(effects[..n], balanced).value, effects[n], n,
                                                      balanced)
      && effects[..n] + [effects[n]] == effects && |effects[..n]| == n
  {
    hide AddEffect;
    assert effects != [] ==> effects[..|effects| - 1] + [effects[|effects| - 1]] == effects;
  }

  lemma NoEffectsNoGroups()
    ensures Partitions([], [])
  {
  }

  lemma {:induction false} GroupEffectsPartitions(effects: seq<PlanEffect>, balanced: bool)
    requires GroupEffects(effects, balanced).Ok?
    ensures Partitions(GroupEffects(effects, balanced).value, effects)
  {
    hide *;
    GroupingUnfolds(effects, balanced);
    if effects != [] {
      var n := |effects| - 1;
      GroupEffectsPartitions(effects[..n], balanced);
      AddEffectKeepsPartition(GroupEffects(effects[..n], balanced).value, effects[..n], effects[n], balanced);
    } else {
      NoEffectsNoGroups();
    }
  }

  // ---------------------------------------------------------------- conservation, group by group

  function OnSide(debit: bool): PlanEffect -> bool {
    (e: PlanEffect) => (e.kind == "debit") == debit
  }

  function Keyed(key: string): PlanEffect -> bool {
    (e: PlanEffect) => e.guardKey == key
  }

  function KeyIs(key: string): GuardedFlow -> bool {
    (k: GuardedFlow) => k.0 == key
  }

  function FlowOf(e: PlanEffect): Flow {
    (e.amount, e.currency)
  }

  function GuardedFlowOf(e: PlanEffect): GuardedFlow {
    (e.guardKey, e.amount, e.currency)
  }

  function Select(effects: seq<PlanEffect>, indices: seq<nat>): seq<PlanEffect>
    requires InRange(effects, indices)
  {
    if indices == [] then [] else [effects[indices[0]]] + Select(effects, indices[1..])
  }

  /** The (amount, currency) pairs one side of a group moves. */
  function GroupFlows(effects: seq<PlanEffect>, indices: seq<nat>, debit: bool): seq<Flow>
    requires InRange(effects, indices)
  {
    Map(FlowOf, Filter(OnSide(debit), Select(effects, indices)))
  }

  ghost predicate GroupConserves(effects: seq<PlanEffect>, indices: seq<nat>)
    requires InRange(effects, indices)
  {
    multiset(GroupFlows(effects, indices, true)) == multiset(GroupFlows(effects, indices, false))
  }

  /** The whole plan's flows on one side, tagged with their guard keys. */
  function PlanFlows(effects: seq<PlanEffect>, debit: bool): seq<GuardedFlow> {
    Map(GuardedFlowOf, Filter(OnSide(debit), effects))
  }

  lemma {:induction false} SelectAppend(effects: seq<PlanEffect>, a: seq<nat>, b: seq<nat>)
    requires InRange(effects, a) && InRange(effects, b)
    ensures Select(effects, a + b) == Select(effects, a) + Select(effects, b)
  {
    if a == [] {
      assert a + b == b;
    } else {
      assert (a + b)[1..] == a[1..] + b;
      SelectAppend(effects, a[1..], b);
    }
  }

  lemma {:induction false} SelectPrefix(effects: seq<PlanEffect>, n: nat, indices: seq<nat>)
    requires n <= |effects| && InRange(effects[..n], indices)
    ensures Select(effects[..n], indices) == Select(effects, indices)
  {
    if indices != [] {
      SelectPrefix(effects, n, indices[1..]);
    }
  }

  lemma SelectOne(effects: seq<PlanEffect>, i: nat)
    requires i < |effects|
    ensures Select(effects, [i]) == [effects[i]] && Select(effects, []) == []
  {
    assert [i][1..] == [];
  }

  lemma FilterOne(e: PlanEffect, key: string)
    ensures Filter(Keyed(key), [e]) == if e.guardKey == key then [e] else []
  {
    assert [e][1..] == [];
  }

  lemma IndicesUnfold(effects: seq<PlanEffect>, key: string)
    ensures effects == [] ==> IndicesOf(effects, key) == []
    ensures effects != [] ==>
      var n := |effects| - 1;
      IndicesOf(effects, key) == IndicesOf(effects[..n], key) + (if effects[n].guardKey == key then [n] else [])
      && effects[..n] + [effects[n]] == effects
  {
  }

  lemma FilterNone(key: string)
    ensures Filter(Keyed(key), []) == []
  {
  }

  lemma {:induction false} SelectByKey(effects: seq<PlanEffect>, key: string)
    ensures Select(effects, IndicesOf(effects, key)) == Filter(Keyed(key), effects)
  {
    hide Select, Filter, Keyed, IndicesOf;
    IndicesUnfold(effects, key);
    if effects != [] {
      var n := |effects| - 1;
      SelectByKey(effects[..n], key);
      SelectPrefix(effects, n, IndicesOf(effects[..n], key));
      SelectAppend(effects, IndicesOf(effects[..n], key), if effects[n].guardKey == key then [n] else []);
      FilterAppend(Keyed(key), effects[..n], [effects[n]]);
      SelectOne(effects, n);
      FilterOne(effects[n], key);
    } else {
      NoneSelected(effects);
      FilterNone(key);
    }
  }

  lemma NoneSelected(effects: seq<PlanEffect>)
    ensures Select(effects, []) == []
  {
  }

  /** The pairs of a group are the plan's flows that carry its key. */
  lemma GroupFlowsAreKeyed(effects: seq<PlanEffect>, key: string, debit: bool)
    ensures GroupFlows(effects, IndicesOf(effects, key), debit)
         == Map(Unguard, Filter(KeyIs(key), PlanFlows(effects, debit)))
  {
    SelectByKey(effects, key);
    FiltersCommute(OnSide(debit), Keyed(key), effects);
    FilterOfMap(GuardedFlowOf, Keyed(key), KeyIs(key), Filter(OnSide(debit), effects));
    MapOfMap(GuardedFlowOf, Unguard, FlowOf, Filter(Keyed(key), Filter(OnSide(debit), effects)));
  }

  function Tag(key: string): Flow -> GuardedFlow {
    (f: Flow) => (key, f.0, f.1)
  }

  lemma {:induction false} Retag(key: string, s: seq<GuardedFlow>)
    requires forall k :: k in s ==> k.0 == key
    ensures Map(Tag(key), Map(Unguard, s)) == s
  {
    if s != [] {
      Retag(key, s[1..]);
      assert Map(Unguard, s)[1..] == Map(Unguard, s[1..]);
      assert Tag(key)(Unguard(s[0])) == s[0];
    }
  }

  lemma KeyedFlowsCount(effects: seq<PlanEffect>, k: GuardedFlow, debit: bool)
    ensures multiset(PlanFlows(effects, debit))[k]
         == multiset(Map(Tag(k.0), GroupFlows(effects, IndicesOf(effects, k.0), debit)))[k]
  {
    var s := Filter(KeyIs(k.0), PlanFlows(effects, debit));
    GroupFlowsAreKeyed(effects, k.0, debit);
    FilterKeeps(KeyIs(k.0), PlanFlows(effects, debit));
    Retag(k.0, s);
    FilterCounts(KeyIs(k.0), PlanFlows(effects, debit), k);
  }

  lemma BalanceReachesKey(effects: seq<PlanEffect>, key: string)
    requires multiset(PlanFlows(effects, true)) == multiset(PlanFlows(effects, false))
    ensures GroupConserves(effects, IndicesOf(effects, key))
  {
    GroupFlowsAreKeyed(effects, key, true);
    GroupFlowsAreKeyed(effects, key, false);
    hide *;
    FilterIsOfBag(KeyIs(key), PlanFlows(effects, true), PlanFlows(effects, false));
    MapIsOfBag(Unguard, Filter(KeyIs(key), PlanFlows(effects, true)), Filter(KeyIs(key), PlanFlows(effects, false)));
    ConservesMeans(effects, IndicesOf(effects, key));
  }

  lemma ConservesMeans(effects: seq<PlanEffect>, indices: seq<nat>)
    requires InRange(effects, indices)
    ensures GroupConserves(effects, indices)
       <==> multiset(GroupFlows(effects, indices, true)) == multiset(GroupFlows(effects, indices, false))
  {
  }

  lemma KeysReachBalance(effects: seq<PlanEffect>, k: GuardedFlow)
    requires GroupConserves(effects, IndicesOf(effects, k.0))
    ensures multiset(PlanFlows(effects, true))[k] == multiset(PlanFlows(effects, false))[k]
  {
    ConservesMeans(effects, IndicesOf(effects, k.0));
    hide *;
    KeyedFlowsCount(effects, k, true);
    KeyedFlowsCount(effects, k, false);
    MapIsOfBag(Tag(k.0), GroupFlows(effects, IndicesOf(effects, k.0), true),
               GroupFlows(effects, IndicesOf(effects, k.0), false));
  }

  lemma AllKeysReachBalance(effects: seq<PlanEffect>)
    requires forall key :: GroupConserves(effects, IndicesOf(effects, key))
    ensures multiset(PlanFlows(effects, true)) == multiset(PlanFlows(effects, false))
  {
    hide *;
    forall k: GuardedFlow
      ensures multiset(PlanFlows(effects, true))[k] == multiset(PlanFlows(effects, false))[k]
    {
      KeysReachBalance(effects, k);
    }
  }

  lemma NoGroupNoFlows(effects: seq<PlanEffect>, key: string)
    requires forall i :: 0 <= i < |effects| ==> effects[i].guardKey != key
    ensures GroupConserves(effects, IndicesOf(effects, key))
  {
    NoIndices(effects, key);
  }

  /**
   The verifier's single comparison of guard-tagged flows holds exactly when every group of
   the plan's partition conserves on its own.
   */
  lemma BalanceIsGroupwise(groups: seq<EffectGroup>, effects: seq<PlanEffect>)
    requires Partitions(groups, effects)
    ensures multiset(PlanFlows(effects, true)) == multiset(PlanFlows(effects, false))
       <==> forall j :: 0 <= j < |groups| ==> GroupConserves(effects, groups[j].effectIndices)
  {
    hide GroupConserves, PlanFlows;
    if multiset(PlanFlows(effects, true)) == multiset(PlanFlows(effects, false)) {
      forall j | 0 <= j < |groups| ensures GroupConserves(effects, groups[j].effectIndices) {
        assert Holds(groups[j], effects);
        BalanceReachesKey(effects, groups[j].guardKey);
      }
    }
    if forall j :: 0 <= j < |groups| ==> GroupConserves(effects, groups[j].effectIndices) {
      forall key ensures GroupConserves(effects, IndicesOf(effects, key)) {
        if j :| 0 <= j < |groups| && groups[j].guardKey == key {
          assert Holds(groups[j], effects);
        } else {
          NoGroupNoFlows(effects, key);
        }
      }
      AllKeysReachBalance(effects);
    }
  }
}
