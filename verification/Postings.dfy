/** What staging does to the balances: it adds up the postings of the legs that fire, and nothing else. */
module Postings {
  import opened Wrappers
  import opened Decimal
  import opened Expr
  import opened Bags
  import opened Plan
  import opened Evaluator

  predicate Firing(e: PlanEffect, env: Env) {
    e.guard.None? || EvalGuard(e.guard.value, env) == Ok(true)
  }

  function FiresIn(env: Env): PlanEffect -> bool {
    (e: PlanEffect) => Firing(e, env)
  }

  /** The postings of all legs that resolve, in effect order. */
  function LegPostings(effects: seq<PlanEffect>, env: Env, symbols: map<string, string>): seq<Posting> {
    if effects == [] then []
    else
      var p := ResolveLeg(effects[0], env, symbols);
      (if p.Ok? then [p.value] else []) + LegPostings(effects[1..], env, symbols)
  }

  /** What the single-shot path posts. */
  function AtomicPostings(effects: seq<PlanEffect>, env: Env, symbols: map<string, string>): seq<Posting> {
    LegPostings(Filter(FiresIn(env), effects), env, symbols)
  }

  /** What the temporal path posts: every leg of each group that is committable. */
  function GroupPostings(plan: CoordinationPlan, groups: seq<EffectGroup>, env: Env, symbols: map<string, string>,
                         soFar: set<string>): seq<Posting>
    requires Indexed(plan, groups)
  {
    if groups == [] then []
    else
      (if Committable(plan, groups[0], env, soFar)
       then LegPostings(Select(plan.effects, groups[0].effectIndices), env, symbols) else [])
      + GroupPostings(plan, groups[1..], env, symbols, soFar)
  }

  function OnAccount(a: Account): Posting -> int {
    (p: Posting) => if p.account == a then p.delta else 0
  }

  /** The net change of `a` over some postings. */
  function NetOn(postings: seq<Posting>, a: Account): int {
    Sum(OnAccount(a), postings)
  }

  function Accounts(postings: seq<Posting>): set<Account> {
    set i | 0 <= i < |postings| :: postings[i].account
  }

  /** `after` is `before` with `postings` added up, account by account, and no account more. */
  ghost predicate Adds(before: map<Account, I64>, postings: seq<Posting>, after: map<Account, I64>) {
    && (forall a :: Balance(after, a) == Balance(before, a) + NetOn(postings, a))
    && after.Keys == before.Keys + Accounts(postings)
  }

  lemma AccountsAppend(p: seq<Posting>, q: seq<Posting>)
    ensures Accounts(p + q) == Accounts(p) + Accounts(q)
  {
    forall a ensures a in Accounts(p + q) <==> a in Accounts(p) || a in Accounts(q) {
      if a in Accounts(p) {
        var i :| 0 <= i < |p| && p[i].account == a;
        assert (p + q)[i].account == a;
      }
      if a in Accounts(q) {
        var i :| 0 <= i < |q| && q[i].account == a;
        assert (p + q)[|p| + i].account == a;
      }
    }
  }

  lemma AddsNothing(b: map<Account, I64>)
    ensures Adds(b, [], b)
  {
  }

  lemma AddsThen(b0: map<Account, I64>, p: seq<Posting>, b1: map<Account, I64>, q: seq<Posting>, b2: map<Account, I64>)
    requires Adds(b0, p, b1) && Adds(b1, q, b2)
    ensures Adds(b0, p + q, b2)
  {
    forall a ensures Balance(b2, a) == Balance(b0, a) + NetOn(p + q, a) {
      SumAppend(OnAccount(a), p, q);
    }
    AccountsAppend(p, q);
    assert b2.Keys == b0.Keys + Accounts(p + q);
  }

  lemma NetOnOne(p: Posting, a: Account)
    ensures NetOn([p], a) == if p.account == a then p.delta else 0
  {
    assert Sum(OnAccount(a), [p]) == OnAccount(a)(p) + Sum(OnAccount(a), [p][1..]);
  }

  /** Every leg of `effects` resolves. */
  ghost predicate AllResolve(effects: seq<PlanEffect>, env: Env, symbols: map<string, string>) {
    forall e :: e in effects ==> KnownKind(e) && ResolveLeg(e, env, symbols).Ok?
  }

  lemma StageLegAdds(e: PlanEffect, env: Env, symbols: map<string, string>, st: Evaluator.Staging)
    requires StageLeg(e, env, symbols, st).Staged?
    ensures ResolveLeg(e, env, symbols).Ok?
    ensures var p, r := ResolveLeg(e, env, symbols).value, StageLeg(e, env, symbols, st).st;
      r.pending == st.pending + [p] && r.trace == st.trace && Adds(st.balances, [p], r.balances)
  {
    var p, r := ResolveLeg(e, env, symbols).value, StageLeg(e, env, symbols, st).st;
    forall a ensures Balance(r.balances, a) == Balance(st.balances, a) + NetOn([p], a) {
      NetOnOne(p, a);
    }
    assert Accounts([p]) == {p.account} by {
      assert [p][0] == p;
    }
    assert r.balances.Keys == st.balances.Keys + Accounts([p]);
  }

  lemma LegTaken(effects: seq<PlanEffect>, env: Env, symbols: map<string, string>, before: seq<Posting>)
    requires effects != [] && ResolveLeg(effects[0], env, symbols).Ok?
    ensures before + [ResolveLeg(effects[0], env, symbols).value] + LegPostings(effects[1..], env, symbols)
         == before + LegPostings(effects, env, symbols)
    ensures LegPostings(effects, env, symbols)
         == [ResolveLeg(effects[0], env, symbols).value] + LegPostings(effects[1..], env, symbols)
  {
    hide ResolveLeg;
  }

  lemma {:induction false} StageGroupAdds(effects: seq<PlanEffect>, env: Env, symbols: map<string, string>,
                                          st: Evaluator.Staging)
    requires StageGroup(effects, env, symbols, st).Staged?
    ensures AllResolve(effects, env, symbols)
    ensures StageGroup(effects, env, symbols, st).st.pending == st.pending + LegPostings(effects, env, symbols)
    ensures Adds(st.balances, LegPostings(effects, env, symbols), StageGroup(effects, env, symbols, st).st.balances)
    decreases |effects|
  {
    if effects == [] {
      AddsNothing(st.balances);
    } else {
      hide ResolveLeg, StageLeg, Adds, LegPostings;
      var mid := StageLeg(effects[0], env, symbols, st).st;
      StageLegAdds(effects[0], env, symbols, st);
      StageGroupAdds(effects[1..], env, symbols, mid);
      LegTaken(effects, env, symbols, st.pending);
      AddsThen(st.balances, [ResolveLeg(effects[0], env, symbols).value], mid.balances,
               LegPostings(effects[1..], env, symbols), StageGroup(effects, env, symbols, st).st.balances);
    }
  }

  lemma AtomicSkipped(effects: seq<PlanEffect>, env: Env, symbols: map<string, string>)
    requires effects != [] && !Firing(effects[0], env)
    ensures AtomicPostings(effects, env, symbols) == AtomicPostings(effects[1..], env, symbols)
    ensures Filter(FiresIn(env), effects) == Filter(FiresIn(env), effects[1..])
  {
    hide LegPostings, EvalGuard;
    assert [] + Filter(FiresIn(env), effects[1..]) == Filter(FiresIn(env), effects[1..]);
    assert !FiresIn(env)(effects[0]);
    assert Filter(FiresIn(env), effects) == [] + Filter(FiresIn(env), effects[1..]);
  }

  lemma AtomicTaken(effects: seq<PlanEffect>, env: Env, symbols: map<string, string>, before: seq<Posting>)
    requires effects != [] && Firing(effects[0], env) && ResolveLeg(effects[0], env, symbols).Ok?
    ensures before + [ResolveLeg(effects[0], env, symbols).value] + AtomicPostings(effects[1..], env, symbols)
         == before + AtomicPostings(effects, env, symbols)
    ensures AtomicPostings(effects, env, symbols)
         == [ResolveLeg(effects[0], env, symbols).value] + AtomicPostings(effects[1..], env, symbols)
    ensures Filter(FiresIn(env), effects) == [effects[0]] + Filter(FiresIn(env), effects[1..])
  {
    hide ResolveLeg, LegPostings;
    var firing := Filter(FiresIn(env), effects);
    assert firing[1..] == Filter(FiresIn(env), effects[1..]);
    LegTaken(firing, env, symbols, before);
  }

  /** What staging observes of an effect before it stages the posting. */
  function Observe(e: PlanEffect, held: bool, input: TransitionInput, st: Evaluator.Staging): Evaluator.Staging {
    var guarded := if e.guard.Some? then st.(trace := st.trace + [GuardObs(e.name, held)]) else st;
    if !held || e.attestationInput == "" then guarded
    else
      var accepted := PolicyAccepted(input, e.attestationInput);
      guarded.(trace := guarded.trace + [AttestationObs(e.name, e.attestationInput, accepted)])
  }

  lemma ObserveKeeps(e: PlanEffect, held: bool, input: TransitionInput, st: Evaluator.Staging)
    ensures Observe(e, held, input, st).balances == st.balances && Observe(e, held, input, st).pending == st.pending
  {
    hide PolicyAccepted;
  }

  /** Staging one more effect, case by case. */
  lemma AtomicStaging(effects: seq<PlanEffect>, env: Env, input: TransitionInput, st: Evaluator.Staging)
    requires effects != []
    ensures var e := effects[0];
      var held := if e.guard.Some? then EvalGuard(e.guard.value, env) else Ok(true);
      var r := StageAtomic(effects, env, input, st);
      if !KnownKind(e) || held.Err? then r.Stopped? && r.trace == st.trace
      else
        var seen := Observe(e, held.value, input, st);
        && (held.value <==> Firing(e, env))
        && (!held.value ==> r == StageAtomic(effects[1..], env, input, seen))
        && (held.value ==>
              if e.attestationInput != "" && !PolicyAccepted(input, e.attestationInput)
              then r.Stopped? && r.trace == seen.trace
              else
                var leg := StageLeg(e, env, input.symbols, seen);
                r == if leg.Stopped? then leg else StageAtomic(effects[1..], env, input, leg.st))
  {
    hide StageLeg, EvalGuard, PolicyAccepted;
  }

  lemma {:induction false} StageAtomicAdds(effects: seq<PlanEffect>, env: Env, input: TransitionInput,
                                           st: Evaluator.Staging)
    requires StageAtomic(effects, env, input, st).Staged?
    ensures forall e :: e in effects ==> KnownKind(e) && (e.guard.Some? ==> EvalGuard(e.guard.value, env).Ok?)
    ensures AllResolve(Filter(FiresIn(env), effects), env, input.symbols)
    ensures StageAtomic(effects, env, input, st).st.pending == st.pending + AtomicPostings(effects, env, input.symbols)
    ensures Adds(st.balances, AtomicPostings(effects, env, input.symbols),
                 StageAtomic(effects, env, input, st).st.balances)
    decreases |effects|
  {
    hide ResolveLeg, StageLeg, Adds, EvalGuard, AtomicPostings, LegPostings, Filter, StageAtomic, PolicyAccepted,
         Firing, Observe, KnownKind;
    if effects == [] {
      NothingStaged(env, input, st);
    } else {
      AtomicStaging(effects, env, input, st);
      var e := effects[0];
      var held := if e.guard.Some? then EvalGuard(e.guard.value, env) else Ok(true);
      var seen := Observe(e, held.value, input, st);
      ObserveKeeps(e, held.value, input, st);
      if !held.value {
        AtomicSkipped(effects, env, input.symbols);
        StageAtomicAdds(effects[1..], env, input, seen);
      } else {
        var mid := StageLeg(e, env, input.symbols, seen).st;
        StageLegAdds(e, env, input.symbols, seen);
        StageAtomicAdds(effects[1..], env, input, mid);
        AtomicTaken(effects, env, input.symbols, st.pending);
        AddsThen(st.balances, [ResolveLeg(e, env, input.symbols).value], mid.balances,
                 AtomicPostings(effects[1..], env, input.symbols), StageAtomic(effects, env, input, st).st.balances);
      }
    }
  }

  lemma NothingStaged(env: Env, input: TransitionInput, st: Evaluator.Staging)
    ensures StageAtomic([], env, input, st) == Staged(st) && Filter(FiresIn(env), []) == []
    ensures AtomicPostings([], env, input.symbols) == [] && st.pending == st.pending + []
    ensures Adds(st.balances, [], st.balances)
  {
    AddsNothing(st.balances);
  }

  /** The legs of committable groups all resolve. */
  ghost predicate CommittableResolve(plan: CoordinationPlan, groups: seq<EffectGroup>, env: Env,
                                     symbols: map<string, string>, soFar: set<string>)
    requires Indexed(plan, groups)
  {
    groups != [] ==>
      && (Committable(plan, groups[0], env, soFar) ==>
            AllResolve(Select(plan.effects, groups[0].effectIndices), env, symbols))
      && CommittableResolve(plan, groups[1..], env, symbols, soFar)
  }

  lemma GroupSkipped(plan: CoordinationPlan, groups: seq<EffectGroup>, env: Env, symbols: map<string, string>,
                     soFar: set<string>)
    requires Indexed(plan, groups) && groups != [] && !Committable(plan, groups[0], env, soFar)
    ensures GroupPostings(plan, groups, env, symbols, soFar) == GroupPostings(plan, groups[1..], env, symbols, soFar)
  {
    hide Committable, LegPostings;
    assert [] + GroupPostings(plan, groups[1..], env, symbols, soFar)
        == GroupPostings(plan, groups[1..], env, symbols, soFar);
  }

  lemma GroupTaken(plan: CoordinationPlan, groups: seq<EffectGroup>, env: Env, symbols: map<string, string>,
                   soFar: set<string>, st: Evaluator.Staging, mid: Evaluator.Staging, last: Evaluator.Staging)
    requires Indexed(plan, groups) && groups != [] && Committable(plan, groups[0], env, soFar)
    requires var legs := LegPostings(Select(plan.effects, groups[0].effectIndices), env, symbols);
      mid.pending == st.pending + legs && Adds(st.balances, legs, mid.balances)
    requires var rest := GroupPostings(plan, groups[1..], env, symbols, soFar);
      last.pending == mid.pending + rest && Adds(mid.balances, rest, last.balances)
    ensures var all := GroupPostings(plan, groups, env, symbols, soFar);
      last.pending == st.pending + all && Adds(st.balances, all, last.balances)
  {
    hide Adds, Committable, LegPostings, Select;
    var legs := LegPostings(Select(plan.effects, groups[0].effectIndices), env, symbols);
    var rest := GroupPostings(plan, groups[1..], env, symbols, soFar);
    assert GroupPostings(plan, groups, env, symbols, soFar) == legs + rest;
    hide GroupPostings;
    assert st.pending + legs + rest == st.pending + (legs + rest);
    AddsThen(st.balances, legs, mid.balances, rest, last.balances);
  }

  lemma {:induction false} StageGroupsAdds(
      plan: CoordinationPlan, groups: seq<EffectGroup>, env: Env, symbols: map<string, string>,
      soFar: set<string>, st: Evaluator.Staging)
    requires Indexed(plan, groups)
    requires StageGroups(plan, groups, env, symbols, soFar, st).Staged?
    ensures CommittableResolve(plan, groups, env, symbols, soFar)
    ensures var last, all := StageGroups(plan, groups, env, symbols, soFar, st).st,
        GroupPostings(plan, groups, env, symbols, soFar);
      last.pending == st.pending + all && Adds(st.balances, all, last.balances)
    decreases |groups|
  {
    if groups == [] {
      AddsNothing(st.balances);
    } else {
      hide StageGroup, Adds, AllResolve, Committable, LegPostings, Select, GroupPostings, GroupGuard, HoldsNow;
      var g, seen := groups[0], SeeGroup(plan, groups[0], env, st);
      if !Committable(plan, g, env, soFar) {
        StageGroupsAdds(plan, groups[1..], env, symbols, soFar, seen);
        GroupSkipped(plan, groups, env, symbols, soFar);
      } else {
        var legs := Select(plan.effects, g.effectIndices);
        var mid := StageGroup(legs, env, symbols, seen).st;
        StageGroupAdds(legs, env, symbols, seen);
        StageGroupsAdds(plan, groups[1..], env, symbols, soFar, mid);
        GroupTaken(plan, groups, env, symbols, soFar, st, mid, StageGroups(plan, groups, env, symbols, soFar, st).st);
      }
    }
  }
}
