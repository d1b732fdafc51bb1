/**
 The value-nature search of the kernel verifier. One `visited` set is shared by all branches,
 so a nested call may return too low a nature; the root call does not.
 */
module ValueNature {
  import opened Kernel
  import opened ValueModel
  import opened Graphs

  datatype Nature = Unconstrained | Numeric | GovernedNonNumeric

  function InputNature(ty: string): Nature {
    var c := ClassifyValueType(ty);
    if !IsCanonical(c) then Unconstrained
    else if IsNumeric(c) then Numeric
    else GovernedNonNumeric
  }

  function Join(a: Nature, b: Nature): Nature {
    if a == GovernedNonNumeric || b == GovernedNonNumeric then GovernedNonNumeric
    else if a == Numeric || b == Numeric then Numeric
    else Unconstrained
  }

  /** A compute leads to its dependencies; nothing else leads anywhere. */
  function Deps(ops: seq<Op>): Value -> seq<Value> {
    v => if OpOf(ops, v).Compute? then OpOf(ops, v).deps else []
  }

  /** Some input of nature `n` is reachable from `v` through computes. */
  ghost predicate FeedsFrom(ops: seq<Op>, v: Value, n: Nature) {
    exists w :: Reaches(Deps(ops), v, w) && OpOf(ops, w).Input? && InputNature(OpOf(ops, w).ty) == n
  }

  /** The nature an operand really has: the join over all inputs that feed it. */
  ghost function TrueNature(ops: seq<Op>, v: Value): Nature {
    if FeedsFrom(ops, v, GovernedNonNumeric) then GovernedNonNumeric
    else if FeedsFrom(ops, v, Numeric) then Numeric
    else Unconstrained
  }

  /** `n` is the join of the natures of the inputs in `inputs`. */
  ghost predicate JoinOf(ops: seq<Op>, inputs: set<Value>, n: Nature) {
    && (n == GovernedNonNumeric <==> exists w :: w in inputs && InputHas(ops, w, GovernedNonNumeric))
    && (n == Unconstrained <==> forall w :: w in inputs ==> InputHas(ops, w, Unconstrained))
  }

  ghost predicate InputHas(ops: seq<Op>, w: Value, n: Nature) {
    OpOf(ops, w).Input? && InputNature(OpOf(ops, w).ty) == n
  }

  /** The inputs that the computes in `s` name directly. */
  ghost function DirectInputs(ops: seq<Op>, s: set<Value>): set<Value> {
    set x, w | x in s && w in Deps(ops)(x) && OpOf(ops, w).Input? :: w
  }

  ghost function InputsOf(ops: seq<Op>, deps: seq<Value>): set<Value> {
    set w | w in deps && OpOf(ops, w).Input?
  }

  ghost function Computes(ops: seq<Op>): set<Value> {
    set v | 0 <= v < |ops| && OpOf(ops, v).Compute?
  }

  lemma JoinUnion(ops: seq<Op>, a: set<Value>, m: Nature, b: set<Value>, n: Nature)
    requires JoinOf(ops, a, m) && JoinOf(ops, b, n)
    requires forall w :: w in a || w in b ==> OpOf(ops, w).Input?
    ensures JoinOf(ops, a + b, Join(m, n))
  {
    if m == GovernedNonNumeric {
      var w :| w in a && InputHas(ops, w, GovernedNonNumeric);
      assert w in a + b;
    }
    if n == GovernedNonNumeric {
      var w :| w in b && InputHas(ops, w, GovernedNonNumeric);
      assert w in a + b;
    }
    if m != Unconstrained {
      var w :| w in a && !InputHas(ops, w, Unconstrained);
      assert w in a + b;
    }
    if n != Unconstrained {
      var w :| w in b && !InputHas(ops, w, Unconstrained);
      assert w in a + b;
    }
  }

  /** What one call covers: the computes it visits and the inputs hanging off them. */
  ghost predicate Covers(ops: seq<Op>, v: Value, before: set<Value>, after: set<Value>, n: Nature) {
    && before <= after
    && JoinOf(ops, DirectInputs(ops, after - before) + InputsOf(ops, [v]), n)
    && (OpOf(ops, v).Compute? ==> v in after)
    && (forall x :: x in after - before ==> Reaches(Deps(ops), v, x))
    && (forall x, y :: x in after - before && y in Deps(ops)(x) && OpOf(ops, y).Compute? ==> y in after)
  }

  /** The state of the loop over the dependencies of compute `v`, the first `i` of them handled. */
  ghost predicate CoversDeps(ops: seq<Op>, v: Value, i: nat, base: set<Value>, now: set<Value>, n: Nature)
    requires i <= |Deps(ops)(v)|
  {
    && base <= now
    && JoinOf(ops, DirectInputs(ops, now - base) + InputsOf(ops, Deps(ops)(v)[..i]), n)
    && (forall d :: d in Deps(ops)(v)[..i] && OpOf(ops, d).Compute? ==> d in now)
    && (forall x :: x in now - base ==> Reaches(Deps(ops), v, x))
    && (forall x, y :: x in now - base && y in Deps(ops)(x) && OpOf(ops, y).Compute? ==> y in now)
  }

  lemma InputsUnite(ops: seq<Op>, a: set<Value>, b: set<Value>, vs: seq<Value>, d: Value)
    ensures DirectInputs(ops, a + b) == DirectInputs(ops, a) + DirectInputs(ops, b)
    ensures InputsOf(ops, vs + [d]) == InputsOf(ops, vs) + InputsOf(ops, [d])
  {
  }

  lemma CoversNextDep(
      ops: seq<Op>, v: Value, i: nat, base: set<Value>, mid: set<Value>, now: set<Value>, m: Nature, n: Nature)
    requires i < |Deps(ops)(v)|
    requires CoversDeps(ops, v, i, base, mid, m) && Covers(ops, Deps(ops)(v)[i], mid, now, n)
    ensures CoversDeps(ops, v, i + 1, base, now, Join(m, n))
  {
    var deps := Deps(ops)(v);
    var d := deps[i];
    assert deps[..i + 1] == deps[..i] + [d];
    InputsJoin(ops, base, mid, now, deps[..i], d, m, n);
    ReachedBeyond(Deps(ops), v, d, base, mid, now);
    hide JoinOf, Reaches, DirectInputs, InputsOf;
    assert forall x :: x in deps[..i + 1] <==> x in deps[..i] || x == d;
  }

  lemma InputsJoin(ops: seq<Op>, base: set<Value>, mid: set<Value>, now: set<Value>, vs: seq<Value>, d: Value,
                   m: Nature, n: Nature)
    requires base <= mid <= now
    requires JoinOf(ops, DirectInputs(ops, mid - base) + InputsOf(ops, vs), m)
    requires JoinOf(ops, DirectInputs(ops, now - mid) + InputsOf(ops, [d]), n)
    ensures JoinOf(ops, DirectInputs(ops, now - base) + InputsOf(ops, vs + [d]), Join(m, n))
  {
    var old', new' := DirectInputs(ops, mid - base) + InputsOf(ops, vs),
        DirectInputs(ops, now - mid) + InputsOf(ops, [d]);
    assert forall w :: w in old' || w in new' ==> OpOf(ops, w).Input?;
    hide JoinOf, DirectInputs, InputsOf;
    JoinUnion(ops, old', m, new', n);
    assert now - base == (mid - base) + (now - mid);
    InputsUnite(ops, mid - base, now - mid, vs, d);
    assert DirectInputs(ops, now - base) + InputsOf(ops, vs + [d]) == old' + new';
  }

  lemma ReachedBeyond(edges: Value -> seq<Value>, v: Value, d: Value, base: set<Value>, mid: set<Value>,
                      now: set<Value>)
    requires d in edges(v)
    requires forall x :: x in mid - base ==> Reaches(edges, v, x)
    requires forall x :: x in now - mid ==> Reaches(edges, d, x)
    ensures forall x :: x in now - base ==> Reaches(edges, v, x)
  {
    forall x | x in now - base ensures Reaches(edges, v, x) {
      if x !in mid {
        ReachesFirst(edges, v, d, x);
      }
    }
  }

  lemma CoversCompute(ops: seq<Op>, v: Value, before: set<Value>, now: set<Value>, n: Nature)
    requires OpOf(ops, v).Compute? && v !in before
    requires CoversDeps(ops, v, |Deps(ops)(v)|, before + {v}, now, n)
    ensures Covers(ops, v, before, now, n)
  {
    var deps := Deps(ops)(v);
    assert deps[..|deps|] == deps;
    assert now - before == (now - (before + {v})) + {v};
    assert DirectInputs(ops, {v}) == InputsOf(ops, deps);
    assert DirectInputs(ops, now - before) == DirectInputs(ops, now - (before + {v})) + DirectInputs(ops, {v});
    assert InputsOf(ops, [v]) == {};
    assert DirectInputs(ops, now - before) + {} == DirectInputs(ops, now - before);
    ReachesSelf(Deps(ops), v);
  }

  lemma {:induction false} WalkIsVisited(ops: seq<Op>, v: Value, after: set<Value>, n: Nature, p: seq<Value>, i: nat)
    requires Covers(ops, v, {}, after, n) && IsWalk(Deps(ops), p) && p[0] == v && i < |p|
    ensures OpOf(ops, p[i]).Compute? ==> p[i] in after
    decreases i
  {
    assert after - {} == after;
    if i > 0 {
      WalkIsVisited(ops, v, after, n, p, i - 1);
      assert p[i] in Deps(ops)(p[i - 1]);
    }
  }

  lemma FeedingInputCovered(ops: seq<Op>, v: Value, after: set<Value>, n: Nature, w: Value)
    requires Covers(ops, v, {}, after, n) && OpOf(ops, w).Input?
    ensures w in DirectInputs(ops, after) + InputsOf(ops, [v]) <==> Reaches(Deps(ops), v, w)
  {
    assert after - {} == after;
    if w in DirectInputs(ops, after) {
      var x :| x in after && w in Deps(ops)(x);
      ReachesStep(Deps(ops), v, x, w);
    }
    if w == v {
      ReachesSelf(Deps(ops), v);
    } else if Reaches(Deps(ops), v, w) {
      var p :| WalkFromTo(Deps(ops), p, v, w);
      var x := p[|p| - 2];
      assert w in Deps(ops)(x);
      WalkIsVisited(ops, v, after, n, p, |p| - 2);
    }
  }

  /** At the root nothing was visited before, so the covered inputs are all the inputs that feed the value. */
  lemma RootIsExact(ops: seq<Op>, v: Value, after: set<Value>, n: Nature)
    requires Covers(ops, v, {}, after, n)
    ensures n == TrueNature(ops, v)
  {
    var inputs := DirectInputs(ops, after) + InputsOf(ops, [v]);
    assert after - {} == after;
    assert JoinOf(ops, inputs, n);
    assert forall w :: w in inputs ==> OpOf(ops, w).Input?;
    forall w | OpOf(ops, w).Input? ensures w in inputs <==> Reaches(Deps(ops), v, w) {
      FeedingInputCovered(ops, v, after, n, w);
    }
    hide Deps, DirectInputs, InputsOf, Reaches;
    forall m ensures FeedsFrom(ops, v, m) <==> exists w :: w in inputs && InputHas(ops, w, m) {
    }
  }

  /** The running search: `visited` is filled by every branch and read by every later one. */
  class NatureSearch {
    const ops: seq<Op>
    var visited: set<Value>

    constructor (ops: seq<Op>)
      ensures this.ops == ops && visited == {}
    {
      this.ops := ops;
      visited := {};
    }

    method Resolve(v: Value) returns (n: Nature)
      modifies this
      ensures Covers(ops, v, old(visited), visited, n)
      decreases Computes(ops) - visited
    {
      var op := OpOf(ops, v);
      if op.Input? {
        Leaf(v);
        n := InputNature(op.ty);
        return;
      }
      if !op.Compute? || v in visited {
        Leaf(v);
        return Unconstrained;
      }
      visited := visited + {v};
      NoDepsYet(v, visited);
      ghost var base := visited;
      var anyNonNumeric, anyNumeric := false, false;
      for i := 0 to |op.deps|
        invariant base <= visited
        invariant CoversDeps(ops, v, i, base, visited, Verdict(anyNonNumeric, anyNumeric))
      {
        hide CoversDeps, Covers, Computes;
        ghost var mid, soFar := visited, Verdict(anyNonNumeric, anyNumeric);
        assert Computes(ops) - visited < Computes(ops) - old(visited) by {
          Shrinks(v, old(visited), visited);
        }
        var d := Resolve(op.deps[i]);
        CoversNextDep(ops, v, i, base, mid, visited, soFar, d);
        GrowsOnly(op.deps[i], mid, visited, d);
        match d
        case GovernedNonNumeric => anyNonNumeric := true;
        case Numeric => anyNumeric := true;
        case Unconstrained =>
      }
      CoversCompute(ops, v, old(visited), visited, Verdict(anyNonNumeric, anyNumeric));
      return if anyNonNumeric then GovernedNonNumeric else if anyNumeric then Numeric else Unconstrained;
    }

    function Verdict(anyNonNumeric: bool, anyNumeric: bool): Nature {
      if anyNonNumeric then GovernedNonNumeric else if anyNumeric then Numeric else Unconstrained
    }

    lemma Shrinks(v: Value, before: set<Value>, now: set<Value>)
      requires OpOf(ops, v).Compute? && v !in before && before + {v} <= now
      ensures Computes(ops) - now < Computes(ops) - before
    {
      assert v in Computes(ops) - before && v !in Computes(ops) - now;
    }

    lemma GrowsOnly(v: Value, before: set<Value>, now: set<Value>, n: Nature)
      requires Covers(ops, v, before, now, n)
      ensures before <= now
    {
    }

    lemma Leaf(v: Value)
      ensures OpOf(ops, v).Input? ==> Covers(ops, v, visited, visited, InputNature(OpOf(ops, v).ty))
      ensures !OpOf(ops, v).Input? && (OpOf(ops, v).Compute? ==> v in visited) ==>
          Covers(ops, v, visited, visited, Unconstrained)
    {
      assert DirectInputs(ops, visited - visited) == {};
      if OpOf(ops, v).Input? {
        assert InputHas(ops, v, InputNature(OpOf(ops, v).ty));
        assert InputsOf(ops, [v]) == {v};
      }
    }

    lemma NoDepsYet(v: Value, base: set<Value>)
      ensures CoversDeps(ops, v, 0, base, base, Unconstrained)
    {
      assert DirectInputs(ops, base - base) == {};
      assert InputsOf(ops, []) == {};
    }
  }

  /** The root call: a fresh `visited` set, hence the exact nature, on any operand graph. */
  method ResolveNature(ops: seq<Op>, v: Value) returns (n: Nature)
    ensures n == TrueNature(ops, v)
  {
    var search := new NatureSearch(ops);
    n := search.Resolve(v);
    RootIsExact(ops, v, search.visited, n);
  }

  /** An operand passes unless it definitely resolves to the wrong side of the numeric axis. */
  method VerifyEntryOperand(ops: seq<Op>, v: Value, requireNumeric: bool) returns (ok: bool)
    ensures ok <==>
      if requireNumeric then !FeedsFrom(ops, v, GovernedNonNumeric)
      else FeedsFrom(ops, v, GovernedNonNumeric) || !FeedsFrom(ops, v, Numeric)
  {
    var n := ResolveNature(ops, v);
    if n == Unconstrained {
      return true;
    }
    ok := (n == Numeric) == requireNumeric;
  }

  /** An accepted entry moves an amount that no governed non-numeric input can reach. */
  method VerifyEntry(ops: seq<Op>, e: Entry) returns (ok: bool)
    ensures ok ==> !FeedsFrom(ops, e.amount, GovernedNonNumeric)
    ensures ok <==>
      && TrueNature(ops, e.party) != Numeric
      && TrueNature(ops, e.amount) != GovernedNonNumeric
      && TrueNature(ops, e.currency) != Numeric
  {
    var party := VerifyEntryOperand(ops, e.party, false);
    if !party {
      return false;
    }
    var amount := VerifyEntryOperand(ops, e.amount, true);
    if !amount {
      return false;
    }
    ok := VerifyEntryOperand(ops, e.currency, false);
  }
}
