/** The worklist that finds the inputs a set of values depends on through computes. */
module Reachability {
  import opened Wrappers
  import opened Graphs

  datatype ComputeView = ComputeView(name: string, deps: seq<string>)

  /** The dependencies of the last compute called `name`. */
  function DepsOfLast(computes: seq<ComputeView>, name: string): Option<seq<string>> {
    if computes == [] then None
    else if computes[|computes| - 1].name == name then Some(computes[|computes| - 1].deps)
    else DepsOfLast(computes[..|computes| - 1], name)
  }

  /** What a name leads to: an input to nothing, a compute to its dependencies. */
  function Uses(inputs: seq<string>, computes: seq<ComputeView>): string -> seq<string> {
    (n: string) =>
      if n in inputs then []
      else
        var deps := DepsOfLast(computes, n);
        if deps.Some? then deps.value else []
  }

  /** A declared input that some seed depends on, directly or through computes. */
  ghost predicate Needed(inputs: seq<string>, computes: seq<ComputeView>, seeds: seq<string>, x: string) {
    x in inputs && exists s :: s in seeds && Reaches(Uses(inputs, computes), s, x)
  }

  ghost predicate Reached(inputs: seq<string>, computes: seq<ComputeView>, seeds: seq<string>, x: string) {
    exists s :: s in seeds && Reaches(Uses(inputs, computes), s, x)
  }

  /** Every name that can come up: the seeds and all dependencies. */
  function Universe(computes: seq<ComputeView>, seeds: seq<string>): set<string> {
    (set s | s in seeds) + set i, j | 0 <= i < |computes| && 0 <= j < |computes[i].deps| :: computes[i].deps[j]
  }

  lemma {:induction false} LastIsListed(computes: seq<ComputeView>, name: string)
    requires DepsOfLast(computes, name).Some?
    ensures exists i ::
        0 <= i < |computes| && computes[i].name == name && DepsOfLast(computes, name).value == computes[i].deps
  {
    var n := |computes| - 1;
    if computes[n].name != name {
      LastIsListed(computes[..n], name);
      var i :| 0 <= i < n && computes[..n][i].name == name && DepsOfLast(computes, name).value == computes[..n][i].deps;
      assert computes[i] == computes[..n][i];
    }
  }

  lemma UsesStayInside(inputs: seq<string>, computes: seq<ComputeView>, seeds: seq<string>, n: string)
    ensures forall d :: d in Uses(inputs, computes)(n) ==> d in Universe(computes, seeds)
  {
    if n !in inputs && DepsOfLast(computes, n).Some? {
      LastIsListed(computes, n);
    }
  }

  lemma LastAdded(computes: seq<ComputeView>, i: nat, x: string)
    requires i < |computes|
    ensures DepsOfLast(computes[..i + 1], x)
         == (if x == computes[i].name then Some(computes[i].deps) else DepsOfLast(computes[..i], x))
  {
    assert computes[..i + 1][..i] == computes[..i];
  }

  method IndexComputes(computes: seq<ComputeView>) returns (byName: map<string, seq<string>>)
    ensures forall x :: (x in byName <==> DepsOfLast(computes, x).Some?)
    ensures forall x :: x in byName ==> DepsOfLast(computes, x) == Some(byName[x])
  {
    byName := map[];
    assert computes[..0] == [];
    for i := 0 to |computes|
      invariant forall x :: (x in byName <==> DepsOfLast(computes[..i], x).Some?)
      invariant forall x :: x in byName ==> DepsOfLast(computes[..i], x) == Some(byName[x])
    {
      forall x
        ensures DepsOfLast(computes[..i + 1], x)
             == (if x == computes[i].name then Some(computes[i].deps) else DepsOfLast(computes[..i], x))
      {
        LastAdded(computes, i, x);
      }
      hide DepsOfLast;
      byName := byName[computes[i].name := computes[i].deps];
    }
    assert computes[..|computes|] == computes;
  }

  /** The state of the worklist: what was seen is closed but for what is still waiting. */
  ghost predicate WorkOk(inputs: seq<string>, computes: seq<ComputeView>, seeds: seq<string>, seen: set<string>,
                         work: seq<string>) {
    && (forall s :: s in seeds ==> s in seen || s in work)
    && (forall x, d :: x in seen && d in Uses(inputs, computes)(x) ==> d in seen || d in work)
    && (forall x :: x in seen ==> Reached(inputs, computes, seeds, x))
    && (forall x :: x in work ==> Reached(inputs, computes, seeds, x))
    && (forall x :: x in work ==> x in Universe(computes, seeds))
    && seen <= Universe(computes, seeds)
  }

  lemma StartOk(inputs: seq<string>, computes: seq<ComputeView>, seeds: seq<string>)
    ensures WorkOk(inputs, computes, seeds, {}, seeds)
  {
    forall s | s in seeds ensures Reached(inputs, computes, seeds, s) {
      ReachesSelf(Uses(inputs, computes), s);
    }
  }

  lemma ReachedStep(inputs: seq<string>, computes: seq<ComputeView>, seeds: seq<string>, n: string, d: string)
    requires Reached(inputs, computes, seeds, n) && d in Uses(inputs, computes)(n)
    ensures Reached(inputs, computes, seeds, d)
  {
    var s :| s in seeds && Reaches(Uses(inputs, computes), s, n);
    ReachesStep(Uses(inputs, computes), s, n, d);
  }

  /** Taking `n` off the stack and pushing what it leads to keeps the worklist right. */
  lemma StepOk(inputs: seq<string>, computes: seq<ComputeView>, seeds: seq<string>, seen: set<string>,
               work: seq<string>)
    requires work != [] && WorkOk(inputs, computes, seeds, seen, work)
    ensures var n, rest := work[|work| - 1], work[..|work| - 1];
      && (n in seen ==> WorkOk(inputs, computes, seeds, seen, rest))
      && (n !in seen ==> WorkOk(inputs, computes, seeds, seen + {n}, rest + Uses(inputs, computes)(n)))
      && n in Universe(computes, seeds)
  {
    var n, rest := work[|work| - 1], work[..|work| - 1];
    assert work == rest + [n];
    UsesStayInside(inputs, computes, seeds, n);
    forall d | d in Uses(inputs, computes)(n) ensures Reached(inputs, computes, seeds, d) {
      ReachedStep(inputs, computes, seeds, n, d);
    }
    hide Uses, Universe, Reached;
    assert forall x :: x in work <==> x == n || x in rest;
    var more := rest + Uses(inputs, computes)(n);
    assert forall x :: x in more <==> x in rest || x in Uses(inputs, computes)(n);
  }

  lemma DoneIsExact(inputs: seq<string>, computes: seq<ComputeView>, seeds: seq<string>, seen: set<string>, x: string)
    requires WorkOk(inputs, computes, seeds, seen, [])
    ensures x in seen <==> Reached(inputs, computes, seeds, x)
  {
    if Reached(inputs, computes, seeds, x) {
      var s :| s in seeds && Reaches(Uses(inputs, computes), s, x);
      assert ClosedUnder(Uses(inputs, computes), seen);
      ClosedContainsReached(Uses(inputs, computes), seen, s, x);
    }
  }

  lemma UsesIndexed(inputs: seq<string>, computes: seq<ComputeView>, byName: map<string, seq<string>>)
    requires forall x :: (x in byName <==> DepsOfLast(computes, x).Some?)
    requires forall x :: x in byName ==> DepsOfLast(computes, x) == Some(byName[x])
    ensures forall n :: Uses(inputs, computes)(n) == (if n in inputs || n !in byName then [] else byName[n])
  {
  }

  lemma NeededIsReached(inputs: seq<string>, computes: seq<ComputeView>, seeds: seq<string>, x: string)
    ensures Needed(inputs, computes, seeds, x) <==> x in inputs && Reached(inputs, computes, seeds, x)
  {
  }

  method ReachableInputs(inputs: seq<string>, computes: seq<ComputeView>, seeds: seq<string>)
    returns (needed: set<string>)
    ensures forall x :: x in needed <==> Needed(inputs, computes, seeds, x)
  {
    var inputNames := NamesOf(inputs);
    var byName := IndexComputes(computes);
    UsesIndexed(inputs, computes, byName);
    StartOk(inputs, computes, seeds);
    hide *;
    ghost var edges, universe := Uses(inputs, computes), Universe(computes, seeds);
    needed := {};
    var seen: set<string> := {};
    var work := seeds;
    while work != []
      invariant WorkOk(inputs, computes, seeds, seen, work)
      invariant forall x :: x in needed <==> x in seen && x in inputs
      decreases universe - seen, |work|
    {
      StepOk(inputs, computes, seeds, seen, work);
      var n := work[|work| - 1];
      work := work[..|work| - 1];
      if n !in seen {
        seen := seen + {n};
        if n in inputNames {
          needed := needed + {n};
          NothingPushed(work);
        } else if n in byName {
          work := Push(work, byName[n]);
        } else {
          NothingPushed(work);
        }
      }
    }
    forall x ensures x in needed <==> Needed(inputs, computes, seeds, x) {
      DoneIsExact(inputs, computes, seeds, seen, x);
      NeededIsReached(inputs, computes, seeds, x);
    }
  }

  lemma NothingPushed(work: seq<string>)
    ensures work + [] == work
  {
  }

  method NamesOf(inputs: seq<string>) returns (names: set<string>)
    ensures forall x :: x in names <==> x in inputs
  {
    names := {};
    for i := 0 to |inputs|
      invariant forall x :: x in names <==> x in inputs[..i]
    {
      assert inputs[..i + 1] == inputs[..i] + [inputs[i]];
      names := names + {inputs[i]};
    }
    assert inputs[..|inputs|] == inputs;
  }

  method Push(work: seq<string>, deps: seq<string>) returns (next: seq<string>)
    ensures next == work + deps
  {
    next := work;
    for k := 0 to |deps|
      invariant next == work + deps[..k]
    {
      next := next + [deps[k]];
    }
    assert deps[..|deps|] == deps;
  }

  /** The needed inputs of several seeds are those of each, taken together. */
  lemma NeededDistributes(inputs: seq<string>, computes: seq<ComputeView>, a: seq<string>, b: seq<string>, x: string)
    ensures Needed(inputs, computes, a + b, x) <==> Needed(inputs, computes, a, x) || Needed(inputs, computes, b, x)
  {
    assert forall s :: s in a + b <==> s in a || s in b;
  }

  /** A compute's needed inputs are those of its dependencies. */
  lemma NeededThroughCompute(inputs: seq<string>, computes: seq<ComputeView>, n: string, x: string)
    requires n !in inputs && DepsOfLast(computes, n).Some?
    ensures Needed(inputs, computes, [n], x) <==> Needed(inputs, computes, DepsOfLast(computes, n).value, x)
  {
    var edges, deps := Uses(inputs, computes), DepsOfLast(computes, n).value;
    if Needed(inputs, computes, [n], x) {
      var p :| WalkFromTo(edges, p, n, x);
      assert |p| > 1;
      assert WalkFromTo(edges, p[1..], p[1], x);
    }
    if Needed(inputs, computes, deps, x) {
      var s :| s in deps && Reaches(edges, s, x);
      ReachesFirst(edges, n, s, x);
      assert n in [n];
    }
  }
}
