/**
 How much a ledger stores: each claimed key accounts for at most the legs of the groups it has
 committed, whatever the operands name.
 */
module Storage {
  import opened Decimal
  import opened Expr
  import opened SetSums
  import opened Plan
  import opened Evaluator
  import opened Postings
  import opened Bookkeeping
  import opened Conservation
  import opened TraceBounds

  /** The legs of the groups whose keys are in `committed`. */
  function LoadIn(groups: seq<EffectGroup>, committed: set<string>): nat {
    if groups == [] then 0
    else (if groups[0].guardKey in committed then |groups[0].effectIndices| else 0) + LoadIn(groups[1..], committed)
  }

  lemma {:induction false} LoadInAtMost(groups: seq<EffectGroup>, committed: set<string>)
    ensures LoadIn(groups, committed) <= Load(groups) && LoadIn(groups, {}) == 0
  {
    if groups != [] {
      LoadInAtMost(groups[1..], committed);
    }
  }

  /** The legs a group commit posts are legs that its groups add to the committed load. */
  lemma {:induction false} PostedLoad(plan: CoordinationPlan, groups: seq<EffectGroup>, env: Env,
                                      symbols: map<string, string>, before: set<string>, after: set<string>)
    requires Indexed(plan, groups)
    requires forall j :: 0 <= j < |groups| ==>
      (groups[j].guardKey in after <==> groups[j].guardKey in before || Committable(plan, groups[j], env, before))
    ensures |GroupPostings(plan, groups, env, symbols, before)| <= LoadIn(groups, after) - LoadIn(groups, before)
  {
    if groups != [] {
      PostedLoad(plan, groups[1..], env, symbols, before, after);
      assert Committable(plan, groups[0], env, before) ==> groups[0].guardKey !in before;
      hide Committable, LegPostings, Select;
      SelectCount(plan.effects, groups[0].effectIndices);
      LegsCount(Select(plan.effects, groups[0].effectIndices), env, symbols);
    }
  }

  /** What key `k` may have added to the accounts. */
  function KeyLoad(plan: CoordinationPlan, s: EvalState, k: string): nat {
    if IsTemporal(plan) then LoadIn(plan.effectGroups, CommittedSoFar(s, k)) else |plan.effects|
  }

  ghost function KeyLoads(plan: CoordinationPlan, s: EvalState): string -> int {
    (k: string) => KeyLoad(plan, s, k)
  }

  /** No more accounts than the claimed keys' committed legs. */
  ghost predicate StorageOk(plan: CoordinationPlan, s: EvalState) {
    |s.balances| <= SumOver(s.keyClaim.Keys, KeyLoads(plan, s))
  }

  lemma {:induction false} AccountsAtMost(postings: seq<Posting>)
    ensures |Accounts(postings)| <= |postings|
  {
    if postings != [] {
      var n := |postings| - 1;
      AccountsAtMost(postings[..n]);
      AccountsAppend(postings[..n], [postings[n]]);
      assert postings[..n] + [postings[n]] == postings;
      assert Accounts([postings[n]]) == {postings[n].account} by {
        assert [postings[n]][0] == postings[n];
      }
      UnionCount(Accounts(postings[..n]), {postings[n].account});
    }
  }

  lemma UnionCount<T>(a: set<T>, b: set<T>)
    ensures |a + b| <= |a| + |b|
  {
    assert a + b == a + (b - a) && b == (b - a) + (b * a);
    assert |a + (b - a)| == |a| + |b - a| && |b| == |b - a| + |b * a|;
  }

  lemma AddedBalances(before: map<Account, I64>, posted: seq<Posting>, after: map<Account, I64>)
    requires Adds(before, posted, after)
    ensures |after| <= |before| + |posted|
  {
    AccountsAtMost(posted);
    UnionCount(before.Keys, Accounts(posted));
    assert |after| == |after.Keys| && |before| == |before.Keys|;
  }

  /** A write moves the sum of the loads by what it adds to its own key. */
  lemma LoadsMove(plan: CoordinationPlan, s: EvalState, next: EvalState, claim: Claim, committing: set<string>,
                  terminal: bool)
    requires Writes(plan, s, next, claim, committing, terminal)
    ensures SumOver(next.keyClaim.Keys, KeyLoads(plan, next)) - SumOver(s.keyClaim.Keys, KeyLoads(plan, s))
         == KeyLoad(plan, next, claim.key) - if claim.key in s.keyClaim then KeyLoad(plan, s, claim.key) else 0
  {
    var key, f, g := claim.key, KeyLoads(plan, s), KeyLoads(plan, next);
    var keys := s.keyClaim.Keys;
    assert next.keyClaim.Keys == keys + {key};
    forall k | k in keys - {key} ensures f(k) == g(k) {
    }
    hide LoadIn, IsTemporal, Writes;
    SumSame(keys - {key}, f, g);
    SumRemove(keys + {key}, g, key);
    assert keys + {key} - {key} == keys - {key};
    if key in keys {
      SumRemove(keys, f, key);
    } else {
      assert keys - {key} == keys;
    }
  }

  lemma WriteKeepsStorage(plan: CoordinationPlan, s: EvalState, next: EvalState, claim: Claim, committing: set<string>,
                          terminal: bool, added: nat)
    requires StorageOk(plan, s) && Writes(plan, s, next, claim, committing, terminal)
    requires |next.balances| <= |s.balances| + added
    requires added + (if claim.key in s.keyClaim then KeyLoad(plan, s, claim.key) else 0)
          <= KeyLoad(plan, next, claim.key)
    ensures StorageOk(plan, next)
  {
    LoadsMove(plan, s, next, claim, committing, terminal);
    hide Writes, KeyLoad;
  }

  lemma TemporalKeepsStorage(plan: CoordinationPlan, s: EvalState, input: TransitionInput, claim: Claim, env: Env,
                             trace: seq<Obs>)
    requires WellIndexed(plan) && Partitions(plan.effectGroups, plan.effects) && IsTemporal(plan)
    requires Recorded(plan, s) && StorageOk(plan, s)
    ensures StorageOk(plan, TemporalPath(plan, s, input, claim.key, claim, env, trace).next)
  {
    var next, soFar := TemporalPath(plan, s, input, claim.key, claim, env, trace).next, CommittedSoFar(s, claim.key);
    var committing, posted := CommittingKeys(plan, env, soFar),
        GroupPostings(plan, plan.effectGroups, env, input.symbols, soFar);
    var terminal := RequiredKeys(plan, env) <= soFar + committing;
    if next != s {
      FreeKeys(plan, s, claim.key);
      forall j | 0 <= j < |plan.effectGroups|
        ensures plan.effectGroups[j].guardKey in soFar + committing
           <==> plan.effectGroups[j].guardKey in soFar || Committable(plan, plan.effectGroups[j], env, soFar)
      {
        CommittingIsOwn(plan, env, soFar, j);
      }
      hide *;
      TemporalWrites(plan, s, input, claim, env, trace);
      TemporalBalances(plan, s, input, claim.key, claim, env, trace);
      AddedBalances(s.balances, posted, next.balances);
      PostedLoad(plan, plan.effectGroups, env, input.symbols, soFar, soFar + committing);
      TemporalLoads(plan, s, next, claim, committing, terminal);
      WriteKeepsStorage(plan, s, next, claim, committing, terminal, |posted|);
    }
  }

  lemma TemporalLoads(plan: CoordinationPlan, s: EvalState, next: EvalState, claim: Claim, committing: set<string>,
                      terminal: bool)
    requires IsTemporal(plan) && Writes(plan, s, next, claim, committing, terminal)
    ensures KeyLoad(plan, s, claim.key) == LoadIn(plan.effectGroups, CommittedSoFar(s, claim.key))
    ensures KeyLoad(plan, next, claim.key) == LoadIn(plan.effectGroups, CommittedSoFar(s, claim.key) + committing)
  {
    hide IsTemporal;
  }

  lemma AtomicKeepsStorage(plan: CoordinationPlan, s: EvalState, input: TransitionInput, claim: Claim, env: Env,
                           trace: seq<Obs>)
    requires !IsTemporal(plan) && StorageOk(plan, s) && claim.key !in s.keyClaim
    ensures StorageOk(plan, AtomicPath(plan, s, input, claim.key, claim, env, trace).next)
  {
    var next, posted := AtomicPath(plan, s, input, claim.key, claim, env, trace).next,
        AtomicPostings(plan.effects, env, input.symbols);
    assert KeyLoad(plan, next, claim.key) == |plan.effects|;
    hide *;
    if next != s {
      AtomicWrites(plan, s, input, claim, env, trace);
      AtomicBalances(plan, s, input, claim.key, claim, env, trace);
      AddedBalances(s.balances, posted, next.balances);
      AtomicCount(plan.effects, env, input.symbols);
      WriteKeepsStorage(plan, s, next, claim, {}, true, |posted|);
    }
  }

  lemma EvidenceKeepsStorage(plan: CoordinationPlan, s: EvalState, input: TransitionInput, claim: Claim,
                             trace: seq<Obs>)
    requires !IsTemporal(plan) && StorageOk(plan, s) && claim.key !in s.keyClaim
    ensures StorageOk(plan, EvidencePath(plan, s, input, claim.key, claim, trace).next)
  {
    var next := EvidencePath(plan, s, input, claim.key, claim, trace).next;
    assert next.balances == s.balances by {
      hide EvidenceFault, EvidenceObs;
    }
    hide *;
    if next != s {
      EvidenceWrites(plan, s, input, claim, trace);
      WriteKeepsStorage(plan, s, next, claim, {}, true, 0);
    }
  }

  lemma AttemptKeepsStorage(plan: CoordinationPlan, s: EvalState, input: TransitionInput, claim: Claim, trace: seq<Obs>)
    requires WellIndexed(plan) && Partitions(plan.effectGroups, plan.effects)
    requires Recorded(plan, s) && StorageOk(plan, s) && claim.key !in s.postedKeys
    ensures StorageOk(plan, Attempt(plan, s, input, claim.key, claim, trace).next)
  {
    var folded := FoldComputes(plan.computes, input.numeric, trace);
    FreeKeys(plan, s, claim.key);
    if folded.Folded? {
      var env := SeedAccepted(plan.attestations, input, folded.env);
      AttemptCases(plan, s, input, claim, trace);
      hide *;
      if IsEvidenceOnly(plan) {
        EvidenceKeepsStorage(plan, s, input, claim, folded.trace);
      } else if IsTemporal(plan) {
        TemporalKeepsStorage(plan, s, input, claim, env, folded.trace);
      } else {
        AtomicKeepsStorage(plan, s, input, claim, env, folded.trace);
      }
    }
  }

  /** Every transition keeps it, for any plan that assembly hands over. */
  lemma TransitionKeepsStorage(plan: CoordinationPlan, s: EvalState, input: TransitionInput)
    requires WellIndexed(plan) && Partitions(plan.effectGroups, plan.effects) && plan.idempotent
    requires Recorded(plan, s) && StorageOk(plan, s)
    ensures StorageOk(plan, EvaluateTransition(plan, s, input).next)
  {
    var trace := [AuthorizationObs(input.authorized)];
    var key, typed := KeyValue(plan, input), TypedInputs(plan.inputs, input);
    hide KeyValue, TypedInputs, WellIndexed, Partitions, Recorded, StorageOk, Attempt;
    if typed.Ok? && key !in s.postedKeys {
      AttemptKeepsStorage(plan, s, input, Claim(plan, key, typed.value), trace);
    }
  }

  lemma EmptyIsStorable(plan: CoordinationPlan)
    ensures StorageOk(plan, EmptyState(map[]))
  {
  }

  /** So a ledger holds at most one account for each effect and each claimed key. */
  lemma AccountsPerKey(plan: CoordinationPlan, s: EvalState)
    requires Partitions(plan.effectGroups, plan.effects) && StorageOk(plan, s)
    ensures |s.balances| <= |plan.effects| * |s.keyClaim|
  {
    forall k ensures KeyLoad(plan, s, k) <= |plan.effects| {
      PartitionLoad(plan.effectGroups, plan.effects);
      LoadInAtMost(plan.effectGroups, CommittedSoFar(s, k));
    }
    SumAtMost(s.keyClaim.Keys, KeyLoads(plan, s), |plan.effects|);
    assert |s.keyClaim| == |s.keyClaim.Keys|;
  }
}
