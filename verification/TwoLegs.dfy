/**
 Bodies with one debit and one credit: what the verifier, assembly and the evaluator make of them.
 The examples of unwanted behaviour are of this kind.
 */
module TwoLegs {
  import opened Wrappers
  import opened Decimal
  import opened Expr
  import opened Kernel
  import opened Bags
  import opened GuardedBalance
  import opened Plan
  import PlanAssembly
  import opened Evaluator
  import opened Postings

  // ---------------------------------------------------------------- the body and its balance

  lemma {:induction false} NoLegs(ops: seq<Op>, body: seq<Op>)
    requires forall i :: 0 <= i < |body| ==> !body[i].Debit? && !body[i].Credit?
    ensures DebitsOf(body) == [] && CreditsOf(body) == [] && PlanAssembly.NormalizeBody(ops, body) == []
  {
    if body != [] {
      NoLegs(ops, body[..|body| - 1]);
    }
  }

  lemma LegsOfTwo(ops: seq<Op>, front: seq<Op>, d: Entry, c: Entry)
    requires forall i :: 0 <= i < |front| ==> !front[i].Debit? && !front[i].Credit?
    ensures var body := front + [Debit(d), Credit(c), AssertBalanced];
      && DebitsOf(body) == [d] && CreditsOf(body) == [c]
      && PlanAssembly.NormalizeBody(ops, body)
         == [PlanAssembly.NormalizeEntry(ops, "debit", d), PlanAssembly.NormalizeEntry(ops, "credit", c)]
  {
    var one, two, body := front + [Debit(d)], front + [Debit(d), Credit(c)],
        front + [Debit(d), Credit(c), AssertBalanced];
    hide *;
    NoLegs(ops, front);
    assert one[..|one| - 1] == front && two[..|two| - 1] == one && body[..|body| - 1] == two;
    PlanAssembly.BodyUnfolds(ops, one);
    PlanAssembly.BodyUnfolds(ops, two);
    PlanAssembly.BodyUnfolds(ops, body);
  }

  lemma MapOne<A, B>(f: A -> B, x: A)
    ensures Map(f, [x]) == [f(x)]
  {
  }

  lemma OneEachBalances(ops: seq<Op>, d: Entry, c: Entry)
    requires DebitsOf(ops) == [d] && CreditsOf(ops) == [c] && GuardedKey(ops)(d) == GuardedKey(ops)(c)
    ensures GuardBalanced(ops)
  {
    MapOne(GuardedKey(ops), d);
    MapOne(GuardedKey(ops), c);
  }

  // ---------------------------------------------------------------- its plan

  lemma BindTwo(x: EffectInput, y: EffectInput, a: PlanEffect, b: PlanEffect)
    requires BindEffect(x, []) == Ok(a) && BindEffect(y, []) == Ok(b)
    ensures BindEffects([x, y], []) == Ok([a, b])
  {
    hide BindEffect;
    assert [x, y][1..] == [y] && [y][1..] == [];
    assert BindEffects([], []) == Ok([]);
    assert [b] + [] == [b] && [a] + [b] == [a, b];
    assert BindEffects([y], []) == Ok([b]);
  }

  lemma GroupTwo(a: PlanEffect, b: PlanEffect)
    requires a.kind == "debit" && b.kind == "credit" && a.guardKey == b.guardKey
    requires a.attestationInput == b.attestationInput
    ensures GroupEffects([a, b], true) == Ok([EffectGroup(a.guardKey, a.attestationInput, [0, 1], 0, true, 1, 1)])
  {
    var g := FreshGroup(a, 0, true);
    assert [] + [g] == [g] && [g][0 := Join(g, b, 1)] == [Join(g, b, 1)];
    assert FindGroup([], a.guardKey) == 0 && FindGroup([g], b.guardKey) == 0;
    assert [a, b][..1] == [a] && [a][..0] == [];
    assert GroupEffects([], true) == Ok([]);
    assert AddEffect([], a, 0, true) == Ok([g]);
    assert GroupEffects([a], true) == Ok([g]);
    assert AddEffect([g], b, 1, true) == Ok([Join(g, b, 1)]);
    assert Join(g, b, 1) == EffectGroup(a.guardKey, a.attestationInput, [0, 1], 0, true, 1, 1);
    hide AddEffect, Join;
  }

  lemma PassTwo(a: PlanEffect, b: PlanEffect, g: EffectGroup)
    requires a.kind == "debit" && b.kind == "credit" && FlowOf(a) == FlowOf(b) && g.effectIndices == [0, 1]
    ensures PlanAssembly.GroupPasses([a, b], g)
  {
    var es := [a, b];
    assert [0, 1][1..] == [1];
    SelectOne(es, 1);
    assert Select(es, [0, 1]) == [es[0]] + [es[1]];
    FilterAppend(OnSide(true), [a], [b]);
    FilterAppend(OnSide(false), [a], [b]);
    assert [a] + [b] == es;
    assert Filter(OnSide(true), es) == [a] && Filter(OnSide(false), es) == [b] by {
      assert OnSide(true)(a) && !OnSide(true)(b) && !OnSide(false)(a) && OnSide(false)(b);
      assert Filter(OnSide(true), []) == [] && Filter(OnSide(false), []) == [];
      assert [a][1..] == [] && [b][1..] == [];
    }
    MapOne(FlowOf, a);
    MapOne(FlowOf, b);
  }

  lemma AssemblesTwo(x: EffectInput, y: EffectInput, a: PlanEffect, b: PlanEffect)
    requires BindEffect(x, []) == Ok(a) && BindEffect(y, []) == Ok(b)
    requires x.guardAcceptedInput == y.guardAcceptedInput == ""
    requires a.kind == "debit" && b.kind == "credit" && FlowOf(a) == FlowOf(b)
    requires a.guardKey == b.guardKey && a.attestationInput == b.attestationInput
    ensures PlanAssembly.Assemble([x, y], [], true)
         == Ok(PlanAssembly.Assembled([a, b], [EffectGroup(a.guardKey, a.attestationInput, [0, 1], 0, true, 1, 1)]))
  {
    var g := EffectGroup(a.guardKey, a.attestationInput, [0, 1], 0, true, 1, 1);
    hide PlanAssembly.GroupPasses, BindEffects, BindEffect, GroupEffects, FlowOf;
    BindTwo(x, y, a, b);
    GroupTwo(a, b);
    PassTwo(a, b, g);
    assert forall j :: 0 <= j < |[g]| ==> PlanAssembly.GroupPasses([a, b], [g][j]);
  }

  // ---------------------------------------------------------------- its evaluation

  lemma FiveReads(env: Env)
    ensures ResolveAmount("literal:5", env) == Ok(5)
  {
    OperandReads("5");
    hide SplitOperand;
    assert "literal:" + "5" == "literal:5";
    TextParses(5);
    assert ToText(5) == "5";
  }

  lemma SymbolsRead(symbols: map<string, string>, name: string, id: string)
    requires id == "ref:" + name && name in symbols && symbols[name] != ""
    ensures ResolveSymbol(id, symbols) == Ok(symbols[name])
  {
    OperandReads(name);
    hide SplitOperand;
  }

  lemma CurrencyReads(symbols: map<string, string>)
    ensures ResolveSymbol("literal:EUR", symbols) == Ok("EUR")
  {
    OperandReads("EUR");
    hide SplitOperand;
    assert "literal:" + "EUR" == "literal:EUR";
  }

  function Moved(e: PlanEffect, party: string): Posting {
    Posting(e.name, e.kind == "debit", Account("l", party, "EUR"), if e.kind == "credit" then 5 else -5)
  }

  lemma LegResolves(e: PlanEffect, env: Env, symbols: map<string, string>, party: string)
    requires e.ledger == "l" && (e.kind == "credit" || e.kind == "debit") && ResolveAmount(e.amount, env) == Ok(5)
    requires ResolveSymbol(e.party, symbols) == Ok(party) && ResolveSymbol(e.currency, symbols) == Ok("EUR")
    ensures ResolveLeg(e, env, symbols) == Ok(Moved(e, party))
  {
    hide ResolveAmount, ResolveSymbol;
  }

  /** An unguarded, unattested effect stages its leg and no more. */
  lemma StagesLeg(effects: seq<PlanEffect>, env: Env, input: TransitionInput, st: Evaluator.Staging, p: Posting)
    requires effects != [] && effects[0].guard.None? && effects[0].attestationInput == "" && KnownKind(effects[0])
    requires ResolveLeg(effects[0], env, input.symbols) == Ok(p) && p.account !in st.balances
    ensures StageAtomic(effects, env, input, st)
         == StageAtomic(effects[1..], env, input,
                        Evaluator.Staging(st.balances[p.account := p.delta], st.pending + [p], st.trace))
  {
    hide ResolveLeg, StageAtomic, StageLeg, Observe;
    AtomicStaging(effects, env, input, st);
    NothingObserved(effects[0], input, st);
    LegStaged(effects[0], env, input.symbols, st, p);
  }

  lemma NothingObserved(e: PlanEffect, input: TransitionInput, st: Evaluator.Staging)
    requires e.guard.None? && e.attestationInput == ""
    ensures Observe(e, true, input, st) == st
  {
  }

  lemma LegStaged(e: PlanEffect, env: Env, symbols: map<string, string>, st: Evaluator.Staging, p: Posting)
    requires ResolveLeg(e, env, symbols) == Ok(p) && p.account !in st.balances
    ensures StageLeg(e, env, symbols, st)
         == Staged(Evaluator.Staging(st.balances[p.account := p.delta], st.pending + [p], st.trace))
  {
    hide ResolveLeg;
  }

  lemma NothingLeft(env: Env, input: TransitionInput, st: Evaluator.Staging)
    ensures StageAtomic([], env, input, st) == Staged(st)
  {
  }
}
