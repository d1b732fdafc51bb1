/**
 What every run of the evaluator keeps. A state reached from an empty ledger is explained by its
 claims and its commit ledger: each balance is the start balance plus the postings that the
 recorded claims fix for the recorded commits, each counted once.
 */
module Ledger {
  import opened Decimal
  import opened Expr
  import opened Bags
  import opened SetSums
  import opened Plan
  import opened Evaluator
  import opened Postings
  import opened Payload
  import opened Bookkeeping

  // ---------------------------------------------------------------- the ledger a state records

  /** The postings of the groups recorded in `committed`. */
  function CommittedPostings(plan: CoordinationPlan, groups: seq<EffectGroup>, env: Env, symbols: map<string, string>,
                             committed: set<string>): seq<Posting>
    requires Indexed(plan, groups)
  {
    if groups == [] then []
    else
      (if groups[0].guardKey in committed
       then LegPostings(Select(plan.effects, groups[0].effectIndices), env, symbols) else [])
      + CommittedPostings(plan, groups[1..], env, symbols, committed)
  }

  /** What one key's commits changed on account `a`, a function of its claim and its committed groups. */
  ghost function KeyNet(plan: CoordinationPlan, claim: Claim, committed: set<string>, a: Account): int
    requires Indexed(plan, plan.effectGroups)
  {
    var env, tokens := ClaimEnv(plan, claim.payload), ClaimTokens(plan, claim);
    if IsTemporal(plan) then NetOn(CommittedPostings(plan, plan.effectGroups, env, tokens, committed), a)
    else NetOn(AtomicPostings(plan.effects, env, tokens), a)
  }

  ghost function KeyNetAt(plan: CoordinationPlan, s: EvalState, a: Account): string -> int
    requires Indexed(plan, plan.effectGroups)
  {
    (k: string) => if k in s.keyClaim then KeyNet(plan, s.keyClaim[k], CommittedSoFar(s, k), a) else 0
  }

  /** The net effect on `a` of everything the state records as committed. */
  ghost function LedgerNet(plan: CoordinationPlan, s: EvalState, a: Account): int
    requires Indexed(plan, plan.effectGroups)
  {
    SumOver(s.keyClaim.Keys, KeyNetAt(plan, s, a))
  }

  /** The groups a claim requires: unconditional, accepted(), or holding for its inputs. */
  ghost function RequiredBy(plan: CoordinationPlan, claim: Claim): set<string>
    requires WellIndexed(plan)
  {
    RequiredKeys(plan, ClaimEnv(plan, claim.payload))
  }

  // ---------------------------------------------------------------- the invariant

  /** In a temporal plan a claimed key is terminal exactly when every group its claim requires is committed. */
  ghost predicate TerminalOk(plan: CoordinationPlan, s: EvalState)
    requires WellIndexed(plan)
  {
    IsTemporal(plan) ==>
      forall k :: k in s.keyClaim ==> (k in s.postedKeys <==> RequiredBy(plan, s.keyClaim[k]) <= CommittedSoFar(s, k))
  }

  ghost predicate LedgerOk(plan: CoordinationPlan, start: map<Account, I64>, s: EvalState)
    requires Indexed(plan, plan.effectGroups)
  {
    forall a :: Balance(s.balances, a) == Balance(start, a) + LedgerNet(plan, s, a)
  }

  /** A plan as assembly produces it, over names that a claim fixes, with replay protection. */
  ghost predicate LedgerPlan(plan: CoordinationPlan) {
    && plan.idempotent
    && Closed(plan)
    && Partitions(plan.effectGroups, plan.effects)
    && WellIndexed(plan)
    && Indexed(plan, plan.effectGroups)
  }

  ghost predicate Explained(plan: CoordinationPlan, start: map<Account, I64>, s: EvalState)
    requires LedgerPlan(plan)
  {
    Recorded(plan, s) && TerminalOk(plan, s) && LedgerOk(plan, start, s)
  }

  lemma EmptyIsExplained(plan: CoordinationPlan, start: map<Account, I64>)
    requires LedgerPlan(plan)
    ensures Explained(plan, start, EmptyState(start))
  {
  }

  // ---------------------------------------------------------------- one key's entry changes

  lemma LedgerMoves(plan: CoordinationPlan, s: EvalState, next: EvalState, key: string, claim: Claim, a: Account)
    requires Indexed(plan, plan.effectGroups)
    requires next.keyClaim == s.keyClaim[key := claim]
    requires forall k :: k != key ==> CommittedSoFar(next, k) == CommittedSoFar(s, k)
    ensures LedgerNet(plan, next, a) == LedgerNet(plan, s, a) - KeyNetAt(plan, s, a)(key)
                                        + KeyNet(plan, claim, CommittedSoFar(next, key), a)
  {
    hide KeyNet;
    var f, g, keys := KeyNetAt(plan, s, a), KeyNetAt(plan, next, a), s.keyClaim.Keys;
    assert next.keyClaim.Keys == keys + {key};
    SumSame(keys - {key}, f, g);
    SumRemove(keys + {key}, g, key);
    assert keys + {key} - {key} == keys - {key};
    if key in keys {
      SumRemove(keys, f, key);
    } else {
      assert keys - {key} == keys;
    }
  }

  /** The state after a commit: its records are written, and its postings are added up. */
  ghost predicate Commits(plan: CoordinationPlan, s: EvalState, next: EvalState, claim: Claim,
                          committing: set<string>, posted: seq<Posting>, terminal: bool)
  {
    Writes(plan, s, next, claim, committing, terminal) && Adds(s.balances, posted, next.balances)
  }

  /** The postings of a commit are exactly what its claim adds to the recorded ledger. */
  ghost predicate PostsLedger(plan: CoordinationPlan, s: EvalState, claim: Claim, committing: set<string>,
                              posted: seq<Posting>)
    requires Indexed(plan, plan.effectGroups)
  {
    forall a :: KeyNetAt(plan, s, a)(claim.key) + NetOn(posted, a)
             == KeyNet(plan, claim, CommittedSoFar(s, claim.key) + committing, a)
  }

  lemma CommitMovesBalance(plan: CoordinationPlan, s: EvalState, next: EvalState, claim: Claim,
                           committing: set<string>, posted: seq<Posting>, terminal: bool, a: Account)
    requires Indexed(plan, plan.effectGroups)
    requires Commits(plan, s, next, claim, committing, posted, terminal)
    requires PostsLedger(plan, s, claim, committing, posted)
    ensures Balance(next.balances, a) - Balance(s.balances, a) == LedgerNet(plan, next, a) - LedgerNet(plan, s, a)
  {
    hide KeyNet, KeyNetAt, LedgerNet, Indexed, Balance, NetOn;
    LedgerMoves(plan, s, next, claim.key, claim, a);
    NetIgnoresGroups(plan, claim, CommittedSoFar(next, claim.key), CommittedSoFar(s, claim.key) + committing, a);
    assert KeyNetAt(plan, s, a)(claim.key) + NetOn(posted, a)
        == KeyNet(plan, claim, CommittedSoFar(s, claim.key) + committing, a);
  }

  lemma CommitKeepsLedger(plan: CoordinationPlan, start: map<Account, I64>, s: EvalState, next: EvalState, claim: Claim,
                          committing: set<string>, posted: seq<Posting>, terminal: bool)
    requires LedgerPlan(plan) && LedgerOk(plan, start, s)
    requires Commits(plan, s, next, claim, committing, posted, terminal)
    requires PostsLedger(plan, s, claim, committing, posted)
    ensures LedgerOk(plan, start, next)
  {
    hide Commits, PostsLedger, LedgerNet, Balance, Partitions, Closed, WellIndexed, Indexed;
    forall a ensures Balance(next.balances, a) == Balance(start, a) + LedgerNet(plan, next, a) {
      CommitMovesBalance(plan, s, next, claim, committing, posted, terminal, a);
    }
  }

  lemma NetIgnoresGroups(plan: CoordinationPlan, claim: Claim, c: set<string>, d: set<string>, a: Account)
    requires Indexed(plan, plan.effectGroups) && (IsTemporal(plan) ==> c == d)
    ensures KeyNet(plan, claim, c, a) == KeyNet(plan, claim, d, a)
  {
  }

  // ---------------------------------------------------------------- the temporal path

  lemma {:induction false} SelectedAreEffects(effects: seq<PlanEffect>, indices: seq<nat>)
    requires InRange(effects, indices)
    ensures forall e :: e in Select(effects, indices) ==> e in effects
  {
    if indices != [] {
      SelectedAreEffects(effects, indices[1..]);
    }
  }

  lemma GroupLegsAgree(plan: CoordinationPlan, g: EffectGroup, a: Env, b: Env, sa: map<string, string>,
                       sb: map<string, string>)
    requires Closed(plan) && InRange(plan.effects, g.effectIndices)
    requires Agree(Scope(plan), a, b) && TokensAgree(ClaimedNames(plan), sa, sb)
    requires AllResolve(Select(plan.effects, g.effectIndices), a, sa)
    ensures LegPostings(Select(plan.effects, g.effectIndices), b, sb)
        == LegPostings(Select(plan.effects, g.effectIndices), a, sa)
  {
    SelectedAreEffects(plan.effects, g.effectIndices);
    hide GuardClosed, AmountClosed, NamesClaimed, Select, Scope, ClaimedNames;
    LegsAgree(Select(plan.effects, g.effectIndices), ClaimedNames(plan), Scope(plan), a, b, sa, sb);
  }

  /** Group by group: the recorded postings grow by what the committable groups post now. */
  lemma {:induction false} CommittedGrows(
      plan: CoordinationPlan, groups: seq<EffectGroup>, env: Env, claimEnv: Env,
      symbols: map<string, string>, tokens: map<string, string>, before: set<string>, after: set<string>, a: Account)
    requires Closed(plan) && Indexed(plan, groups)
    requires Agree(Scope(plan), env, claimEnv) && TokensAgree(ClaimedNames(plan), symbols, tokens)
    requires CommittableResolve(plan, groups, env, symbols, before)
    requires forall j :: 0 <= j < |groups| ==>
      (groups[j].guardKey in after <==> groups[j].guardKey in before || Committable(plan, groups[j], env, before))
    ensures NetOn(CommittedPostings(plan, groups, claimEnv, tokens, after), a)
         == NetOn(CommittedPostings(plan, groups, claimEnv, tokens, before), a)
          + NetOn(GroupPostings(plan, groups, env, symbols, before), a)
  {
    if groups != [] {
      var g, rest := groups[0], groups[1..];
      CommittedGrows(plan, rest, env, claimEnv, symbols, tokens, before, after, a);
      var legs, now := LegPostings(Select(plan.effects, g.effectIndices), claimEnv, tokens),
                       LegPostings(Select(plan.effects, g.effectIndices), env, symbols);
      assert Committable(plan, g, env, before) ==> g.guardKey !in before;
      if Committable(plan, g, env, before) {
        GroupLegsAgree(plan, g, env, claimEnv, symbols, tokens);
      }
      hide Committable, LegPostings, Select, AllResolve, Closed, Scope, ClaimedNames;
      NetOfHead(g.guardKey in after, legs, CommittedPostings(plan, rest, claimEnv, tokens, after), a);
      NetOfHead(g.guardKey in before, legs, CommittedPostings(plan, rest, claimEnv, tokens, before), a);
      NetOfHead(Committable(plan, g, env, before), now, GroupPostings(plan, rest, env, symbols, before), a);
    }
  }

  lemma NetOfHead(taken: bool, legs: seq<Posting>, rest: seq<Posting>, a: Account)
    ensures NetOn((if taken then legs else []) + rest, a) == (if taken then NetOn(legs, a) else 0) + NetOn(rest, a)
  {
    SumAppend(OnAccount(a), if taken then legs else [], rest);
  }

  lemma TemporalPosts(plan: CoordinationPlan, s: EvalState, env: Env, symbols: map<string, string>, claim: Claim)
    requires LedgerPlan(plan) && IsTemporal(plan)
    requires Agree(Scope(plan), env, ClaimEnv(plan, claim.payload))
    requires TokensAgree(ClaimedNames(plan), symbols, ClaimTokens(plan, claim))
    requires claim.key in s.keyClaim ==> s.keyClaim[claim.key] == claim
    requires claim.key !in s.keyClaim ==> CommittedSoFar(s, claim.key) == {}
    requires CommittableResolve(plan, plan.effectGroups, env, symbols, CommittedSoFar(s, claim.key))
    ensures var soFar := CommittedSoFar(s, claim.key);
      PostsLedger(plan, s, claim, CommittingKeys(plan, env, soFar),
                  GroupPostings(plan, plan.effectGroups, env, symbols, soFar))
  {
    var soFar := CommittedSoFar(s, claim.key);
    var after, claimEnv := soFar + CommittingKeys(plan, env, soFar), ClaimEnv(plan, claim.payload);
    var tokens := ClaimTokens(plan, claim);
    forall j | 0 <= j < |plan.effectGroups|
      ensures plan.effectGroups[j].guardKey in after
         <==> plan.effectGroups[j].guardKey in soFar || Committable(plan, plan.effectGroups[j], env, soFar)
    {
      CommittingIsOwn(plan, env, soFar, j);
    }
    hide Committable, CommittingKeys, CommittableResolve, ClaimEnv, ClaimTokens;
    forall a
      ensures KeyNetAt(plan, s, a)(claim.key) + NetOn(GroupPostings(plan, plan.effectGroups, env, symbols, soFar), a)
           == KeyNet(plan, claim, after, a)
    {
      CommittedGrows(plan, plan.effectGroups, env, claimEnv, symbols, tokens, soFar, after, a);
      if claim.key !in s.keyClaim {
        NothingCommitted(plan, plan.effectGroups, claimEnv, tokens);
      }
    }
  }

  lemma {:induction false} NothingCommitted(plan: CoordinationPlan, groups: seq<EffectGroup>, env: Env,
                                            symbols: map<string, string>)
    requires Indexed(plan, groups)
    ensures CommittedPostings(plan, groups, env, symbols, {}) == []
  {
    if groups != [] {
      NothingCommitted(plan, groups[1..], env, symbols);
    }
  }

  // ---------------------------------------------------------------- each path commits what its claim says

  /** Everything an attempt knows: its key is free to commit under `claim`, and its values agree with the claim. */
  ghost predicate Attempting(plan: CoordinationPlan, s: EvalState, env: Env, symbols: map<string, string>,
                             claim: Claim) {
    && claim.coordination == plan
    && (claim.key in s.keyClaim ==> s.keyClaim[claim.key] == claim)
    && claim.key !in s.postedKeys
    && Agree(Scope(plan), env, ClaimEnv(plan, claim.payload))
    && TokensAgree(ClaimedNames(plan), symbols, ClaimTokens(plan, claim))
  }

  lemma {:induction false} NoFaultMeansOk(plan: CoordinationPlan, groups: seq<EffectGroup>, env: Env, j: nat)
    requires Indexed(plan, groups)
    requires GroupFault(plan, groups, env).None? && j < |groups|
    ensures GroupHolds(plan, groups[j], env).Ok?
  {
    if j > 0 {
      NoFaultMeansOk(plan, groups[1..], env, j - 1);
    }
  }

  /** The required groups are those the claim requires, whatever else the input carries. */
  lemma RequiredFromClaim(plan: CoordinationPlan, env: Env, claim: Claim)
    requires WellIndexed(plan) && GuardsClosed(plan)
    requires Agree(Scope(plan), env, ClaimEnv(plan, claim.payload))
    requires GroupFault(plan, plan.effectGroups, env).None?
    ensures RequiredKeys(plan, env) == RequiredBy(plan, claim)
  {
    var claimEnv := ClaimEnv(plan, claim.payload);
    forall j | 0 <= j < |plan.effectGroups| && !AlwaysRequired(plan, plan.effectGroups[j])
      ensures HoldsNow(plan, plan.effectGroups[j], env) <==> HoldsNow(plan, plan.effectGroups[j], claimEnv)
    {
      var e := plan.effects[plan.effectGroups[j].firstIndex];
      NoFaultMeansOk(plan, plan.effectGroups, env, j);
      FiringAgrees(e, Scope(plan), env, claimEnv);
    }
    hide AlwaysRequired, HoldsNow, GuardsClosed, ClaimEnv;
  }

  lemma TemporalReachesCommit(plan: CoordinationPlan, s: EvalState, input: TransitionInput, key: string, claim: Claim,
                              env: Env, trace: seq<Obs>)
    requires WellIndexed(plan)
    requires TemporalPath(plan, s, input, key, claim, env, trace).next != s
    ensures GroupFault(plan, plan.effectGroups, env).None?
    ensures var soFar := CommittedSoFar(s, key);
      var staged := StageGroups(plan, plan.effectGroups, env, input.symbols, soFar,
                                Evaluator.Staging(s.balances, [], trace));
      && staged.Staged?
      && CommittingKeys(plan, env, soFar) != {}
      && TemporalPath(plan, s, input, key, claim, env, trace)
         == CommitGroups(plan, s, key, claim, env, CommittingKeys(plan, env, soFar), staged.st)
  {
    hide LedgerValid, GroupFault, StageGroups, CommittingKeys, CommitGroups, WellIndexed;
  }

  lemma CommitGroupsCommits(plan: CoordinationPlan, s: EvalState, claim: Claim, env: Env,
                            committing: set<string>, st: Evaluator.Staging, posted: seq<Posting>)
    requires WellIndexed(plan) && IsTemporal(plan) && Adds(s.balances, posted, st.balances)
    ensures Commits(plan, s, CommitGroups(plan, s, claim.key, claim, env, committing, st).next, claim, committing,
                    posted, RequiredKeys(plan, env) <= CommittedSoFar(s, claim.key) + committing)
  {
    GroupsWrite(plan, s, claim, env, committing, st);
    hide Adds, Writes, RequiredKeys, WellIndexed, IsTemporal;
  }

  /** A temporal transition either leaves the state alone or commits what its claim says. */
  lemma TemporalCommits(plan: CoordinationPlan, s: EvalState, input: TransitionInput, claim: Claim, env: Env,
                        trace: seq<Obs>)
    requires LedgerPlan(plan) && IsTemporal(plan) && WellIndexed(plan) && Indexed(plan, plan.effectGroups)
    requires Attempting(plan, s, env, input.symbols, claim)
    requires claim.key !in s.keyClaim ==> CommittedSoFar(s, claim.key) == {}
    requires TemporalPath(plan, s, input, claim.key, claim, env, trace).next != s
    ensures var r, soFar := TemporalPath(plan, s, input, claim.key, claim, env, trace), CommittedSoFar(s, claim.key);
      var committing, posted := CommittingKeys(plan, env, soFar),
          GroupPostings(plan, plan.effectGroups, env, input.symbols, soFar);
      && GroupFault(plan, plan.effectGroups, env).None?
      && committing != {}
      && Commits(plan, s, r.next, claim, committing, posted, RequiredKeys(plan, env) <= soFar + committing)
      && PostsLedger(plan, s, claim, committing, posted)
  {
    hide *;
    var soFar := CommittedSoFar(s, claim.key);
    var st0 := Evaluator.Staging(s.balances, [], trace);
    TemporalReachesCommit(plan, s, input, claim.key, claim, env, trace);
    StageGroupsAdds(plan, plan.effectGroups, env, input.symbols, soFar, st0);
    CommitGroupsCommits(plan, s, claim, env, CommittingKeys(plan, env, soFar),
                        StageGroups(plan, plan.effectGroups, env, input.symbols, soFar, st0).st,
                        GroupPostings(plan, plan.effectGroups, env, input.symbols, soFar));
    AttemptParts(plan, s, env, input.symbols, claim);
    TemporalPosts(plan, s, env, input.symbols, claim);
  }

  lemma AttemptParts(plan: CoordinationPlan, s: EvalState, env: Env, symbols: map<string, string>, claim: Claim)
    requires Attempting(plan, s, env, symbols, claim)
    ensures claim.key in s.keyClaim ==> s.keyClaim[claim.key] == claim
    ensures Agree(Scope(plan), env, ClaimEnv(plan, claim.payload))
    ensures TokensAgree(ClaimedNames(plan), symbols, ClaimTokens(plan, claim))
  {
  }

  lemma AtomicCommits(plan: CoordinationPlan, s: EvalState, input: TransitionInput, claim: Claim, env: Env,
                      trace: seq<Obs>)
    requires LedgerPlan(plan) && !IsTemporal(plan)
    requires Attempting(plan, s, env, input.symbols, claim) && claim.key !in s.keyClaim
    ensures var r := AtomicPath(plan, s, input, claim.key, claim, env, trace);
      || r.next == s
      || (&& Commits(plan, s, r.next, claim, {}, AtomicPostings(plan.effects, env, input.symbols), true)
          && PostsLedger(plan, s, claim, {}, AtomicPostings(plan.effects, env, input.symbols)))
  {
    var r := AtomicPath(plan, s, input, claim.key, claim, env, trace);
    var st0 := Evaluator.Staging(s.balances, [], trace);
    AtomicWrites(plan, s, input, claim, env, trace);
    if r.next != s {
      StageAtomicAdds(plan.effects, env, input, st0);
      AtomicPosts(plan, s, input, claim, env, st0);
      hide StageAtomic, Adds, Writes, AtomicPostings, PostsLedger, DeltaObs, EventObs', ObligationObs';
      assert r.next.balances == StageAtomic(plan.effects, env, input, st0).st.balances;
    }
  }

  lemma AtomicPosts(plan: CoordinationPlan, s: EvalState, input: TransitionInput, claim: Claim, env: Env,
                    st: Evaluator.Staging)
    requires LedgerPlan(plan) && !IsTemporal(plan) && StageAtomic(plan.effects, env, input, st).Staged?
    requires Attempting(plan, s, env, input.symbols, claim) && claim.key !in s.keyClaim
    ensures PostsLedger(plan, s, claim, {}, AtomicPostings(plan.effects, env, input.symbols))
  {
    var claimEnv, tokens := ClaimEnv(plan, claim.payload), ClaimTokens(plan, claim);
    StageAtomicAdds(plan.effects, env, input, st);
    assert AllClosed(plan.effects, ClaimedNames(plan), Scope(plan));
    assert GuardsDecide(plan.effects, env);
    AtomicAgrees(plan.effects, ClaimedNames(plan), Scope(plan), env, claimEnv, input.symbols, tokens);
    hide StageAtomic, Adds, AllResolve, AtomicPostings, EvalGuard, Closed, Partitions, Indexed, WellIndexed, ClaimEnv,
         ClaimTokens, Scope, ClaimedNames;
  }

  lemma EvidenceCommits(plan: CoordinationPlan, s: EvalState, input: TransitionInput, claim: Claim, trace: seq<Obs>)
    requires LedgerPlan(plan) && IsEvidenceOnly(plan) && claim.key !in s.keyClaim
    ensures var r := EvidencePath(plan, s, input, claim.key, claim, trace);
      || r.next == s
      || (Commits(plan, s, r.next, claim, {}, [], true) && PostsLedger(plan, s, claim, {}, []))
  {
    assert !IsTemporal(plan);
    EvidenceWrites(plan, s, input, claim, trace);
    AddsNothing(s.balances);
    hide Writes, ClaimEnv, ClaimTokens, Closed, Partitions, Indexed, WellIndexed, EvidenceFault, EvidenceObs;
  }
}
