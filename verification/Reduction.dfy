/** Reduction of a verified domain onto the features its plan induces. */
module Reduction {
  import opened Wrappers
  import opened Order
  import opened Bags
  import opened Domain

  datatype Edge = Edge(id: string, from: string, to: string, relation: string)

  datatype Model = Model(l1Features: seq<(string, string)>, edges: seq<Edge>)

  datatype Binding = Binding(conceptName: string, edge: string, relation: string, feature: string, inducedBy: string)

  datatype ReductionError = Unregistered(feature: string) | Misclassified(feature: string) | PlanAbsent(feature: string)

  function FeaturesOf(body: seq<Rec>): seq<(string, string)> {
    if body == [] then []
    else
      var last := body[|body| - 1];
      FeaturesOf(body[..|body| - 1]) + if last.L1Feature? then [(last.name, last.kind)] else []
  }

  function EdgesOf(body: seq<Rec>): seq<Edge> {
    if body == [] then []
    else
      var last := body[|body| - 1];
      EdgesOf(body[..|body| - 1]) + if last.Reduce? then [Edge(last.id, last.from, last.to, last.relation)] else []
  }

  method ModelOf(d: DomainOp) returns (m: Model)
    ensures m == Model(FeaturesOf(d.body), EdgesOf(d.body))
  {
    var features, edges := [], [];
    for k := 0 to |d.body|
      invariant features == FeaturesOf(d.body[..k]) && edges == EdgesOf(d.body[..k])
    {
      assert d.body[..k + 1][..k] == d.body[..k];
      match d.body[k]
      case L1Feature(name, kind) => features := features + [(name, kind)];
      case Reduce(id, from, to, relation, _) => edges := edges + [Edge(id, from, to, relation)];
      case _ =>
    }
    assert d.body[..|d.body|] == d.body;
    return Model(features, edges);
  }

  /** A feature declared under its registered category that the plan induces. */
  predicate FeatureOk(f: (string, string), registry: map<string, string>, induced: map<string, string>) {
    f.0 in registry && registry[f.0] == f.1 && f.0 in induced
  }

  /** Why a declared feature cannot be bound, the checks in their order. */
  function FeatureFault(f: (string, string), registry: map<string, string>,
                        induced: map<string, string>): Option<ReductionError> {
    if f.0 !in registry then Some(Unregistered(f.0))
    else if registry[f.0] != f.1 then Some(Misclassified(f.0))
    else if f.0 !in induced then Some(PlanAbsent(f.0))
    else None
  }

  function BindingOf(bound: map<string, string>): Edge -> Binding {
    (e: Edge) =>
      if e.relation == "failure" then Binding(e.from, e.id, e.relation, "failure:" + e.to, "")
      else Binding(e.from, e.id, e.relation, e.to, if e.to in bound then bound[e.to] else "")
  }

  /** The order bindings are listed in: by feature, then by edge. */
  predicate KeyLe(a: Binding, b: Binding) {
    PairLe((a.feature, a.edge), (b.feature, b.edge))
  }

  lemma KeyLeTotal(a: Binding, b: Binding, c: Binding)
    ensures KeyLe(a, b) || KeyLe(b, a)
    ensures KeyLe(a, b) && KeyLe(b, c) ==> KeyLe(a, c)
    ensures KeyLe(a, b) && KeyLe(b, a) ==> a.feature == b.feature && a.edge == b.edge
  {
    PairLeTotalOrder();
  }

  lemma {:induction false} InsertKeepsKeys(x: Binding, s: seq<Binding>)
    requires Sorted(s, KeyLe)
    ensures Sorted(Insert(x, s, KeyLe), KeyLe)
  {
    if s != [] && !KeyLe(x, s[0]) {
      InsertKeepsKeys(x, s[1..]);
      var t := Insert(x, s[1..], KeyLe);
      forall y | y in t ensures KeyLe(s[0], y) {
        assert y in multiset(t);
        KeyLeTotal(s[0], x, y);
        assert y == x || y in s[1..];
      }
    } else if s != [] {
      forall y | y in s ensures KeyLe(x, y) {
        KeyLeTotal(x, s[0], y);
        KeyLeTotal(s[0], s[0], y);
      }
    }
  }

  lemma {:induction false} SortByKey(s: seq<Binding>)
    ensures Sorted(Sort(s, KeyLe), KeyLe)
  {
    if s != [] {
      SortByKey(s[1..]);
      InsertKeepsKeys(s[0], Sort(s[1..], KeyLe));
    }
  }

  /**
   Each declared feature is resolved against the registry and the plan; the edges become bindings,
   listed by feature and edge.
   */
  method ReduceModel(m: Model, registry: map<string, string>, induced: map<string, string>)
    returns (r: Result<seq<Binding>, ReductionError>)
    ensures r.Ok? <==> forall f :: f in m.l1Features ==> FeatureOk(f, registry, induced)
    ensures r.Err? ==> exists f :: f in m.l1Features && FeatureFault(f, registry, induced) == Some(r.error)
    ensures r.Ok? ==> Sorted(r.value, KeyLe)
    ensures r.Ok? ==> exists bound ::
        Binds(bound, m, induced) && multiset(r.value) == multiset(Map(BindingOf(bound), m.edges))
  {
    var bound: map<string, string> := map[];
    for k := 0 to |m.l1Features|
      invariant forall i :: 0 <= i < k ==> FeatureOk(m.l1Features[i], registry, induced)
      invariant forall x :: x in bound <==> exists i :: 0 <= i < k && m.l1Features[i].0 == x
      invariant forall x :: x in bound ==> x in induced && bound[x] == induced[x]
    {
      var f := m.l1Features[k];
      assert f in m.l1Features;
      var fault := FeatureFault(f, registry, induced);
      if fault.Some? {
        return Err(fault.value);
      }
      bound := bound[f.0 := induced[f.0]];
    }
    var bindings: seq<Binding> := [];
    for k := 0 to |m.edges|
      invariant bindings == Map(BindingOf(bound), m.edges[..k])
    {
      assert m.edges[..k + 1] == m.edges[..k] + [m.edges[k]];
      MapAppend(BindingOf(bound), m.edges[..k], [m.edges[k]]);
      MapSingle(BindingOf(bound), m.edges[k]);
      bindings := bindings + [BindingOf(bound)(m.edges[k])];
    }
    assert m.edges[..|m.edges|] == m.edges;
    SortByKey(bindings);
    assert Binds(bound, m, induced);
    return Ok(Sort(bindings, KeyLe));
  }

  lemma MapSingle<A, B>(f: A -> B, x: A)
    ensures Map(f, [x]) == [f(x)]
  {
  }

  /** The inducing construct of every declared feature, and of no other. */
  ghost predicate Binds(bound: map<string, string>, m: Model, induced: map<string, string>) {
    && (forall x :: x in bound <==> exists i :: 0 <= i < |m.l1Features| && m.l1Features[i].0 == x)
    && (forall x :: x in bound ==> x in induced && bound[x] == induced[x])
  }

  // ---------------------------------------------------------------- what a reduction guarantees

  lemma {:induction false} EdgeListed(body: seq<Rec>, r: Rec)
    requires r in body && r.Reduce?
    ensures Edge(r.id, r.from, r.to, r.relation) in EdgesOf(body)
  {
    var n := |body| - 1;
    if body[n] != r {
      assert r in body[..n];
      EdgeListed(body[..n], r);
    }
  }

  lemma {:induction false} ListedEdge(body: seq<Rec>, e: Edge)
    requires e in EdgesOf(body)
    ensures exists r :: r in body && r.Reduce? && e == Edge(r.id, r.from, r.to, r.relation)
  {
    var n := |body| - 1;
    if body[n].Reduce? && e == Edge(body[n].id, body[n].from, body[n].to, body[n].relation) {
      assert body[n] in body;
    } else {
      ListedEdge(body[..n], e);
    }
  }

  lemma {:induction false} FeatureListed(body: seq<Rec>, name: string)
    requires HasL1Feature(body, name)
    ensures exists i :: 0 <= i < |FeaturesOf(body)| && FeaturesOf(body)[i].0 == name
  {
    var n := |body| - 1;
    var k :| 0 <= k < |body| && body[k].L1Feature? && body[k].name == name;
    if k == n {
      assert FeaturesOf(body)[|FeaturesOf(body)| - 1].0 == name;
    } else {
      assert body[..n][k] == body[k];
      FeatureListed(body[..n], name);
      var i :| 0 <= i < |FeaturesOf(body[..n])| && FeaturesOf(body[..n])[i].0 == name;
      assert FeaturesOf(body)[i].0 == name;
    }
  }

  /** The bindings that an accepted domain reduces to. */
  ghost predicate Reduced(d: DomainOp, induced: map<string, string>, bindings: seq<Binding>) {
    && Sorted(bindings, KeyLe)
    && exists bound :: Binds(bound, Model(FeaturesOf(d.body), EdgesOf(d.body)), induced)
                    && multiset(bindings) == multiset(Map(BindingOf(bound), EdgesOf(d.body)))
  }

  method ReduceDomain(d: DomainOp, registry: map<string, string>, induced: map<string, string>)
    returns (r: Result<seq<Binding>, ReductionError>)
    ensures r.Ok? <==> forall f :: f in FeaturesOf(d.body) ==> FeatureOk(f, registry, induced)
    ensures r.Ok? ==> Reduced(d, induced, r.value)
  {
    var m := ModelOf(d);
    r := ReduceModel(m, registry, induced);
  }

  lemma BindingOfEdge(d: DomainOp, induced: map<string, string>, bindings: seq<Binding>, bound: map<string, string>,
                      r: Rec)
    requires Binds(bound, Model(FeaturesOf(d.body), EdgesOf(d.body)), induced)
    requires multiset(bindings) == multiset(Map(BindingOf(bound), EdgesOf(d.body)))
    requires r in d.body && r.Reduce?
    ensures BindingOf(bound)(Edge(r.id, r.from, r.to, r.relation)) in bindings
  {
    var edges, e := EdgesOf(d.body), Edge(r.id, r.from, r.to, r.relation);
    EdgeListed(d.body, r);
    var i :| 0 <= i < |edges| && edges[i] == e;
    assert Map(BindingOf(bound), edges)[i] == BindingOf(bound)(e);
    assert BindingOf(bound)(e) in multiset(Map(BindingOf(bound), edges));
    assert BindingOf(bound)(e) in multiset(bindings);
  }

  /** Every non-failure edge of an accepted domain is bound to its feature, which the plan induces. */
  lemma EdgesAreBound(d: DomainOp, induced: map<string, string>, bindings: seq<Binding>, r: Rec)
    requires Acceptable(d) && Reduced(d, induced, bindings)
    requires r in d.body && r.Reduce? && r.relation != "failure"
    ensures r.to in induced && Binding(r.from, r.id, r.relation, r.to, induced[r.to]) in bindings
  {
    var bound :| Binds(bound, Model(FeaturesOf(d.body), EdgesOf(d.body)), induced)
              && multiset(bindings) == multiset(Map(BindingOf(bound), EdgesOf(d.body)));
    BindingOfEdge(d, induced, bindings, bound, r);
    assert EdgeOk(d.body, r);
    FeatureListed(d.body, r.to);
  }

  /** Every concept of an accepted domain lands, through some supported edge, on a feature the plan induces. */
  lemma EveryConceptLands(d: DomainOp, induced: map<string, string>, bindings: seq<Binding>, c: Rec)
    requires Acceptable(d) && Reduced(d, induced, bindings) && c in d.body && c.Concept?
    ensures exists b ::
        b in bindings && b.conceptName == c.name && b.feature in induced && b.inducedBy == induced[b.feature]
    ensures exists r :: r in d.body && Traces(r, c.name) && r.to in induced
  {
    assert Traced(d.body, c.name);
    var i :| 0 <= i < |d.body| && Traces(d.body[i], c.name);
    var r := d.body[i];
    assert r in d.body;
    EdgesAreBound(d, induced, bindings, r);
    assert Binding(r.from, r.id, r.relation, r.to, induced[r.to]) in bindings;
  }

  /** An executable binding has an accepted provenance for its edge, and an executable concept behind it. */
  lemma ExecutableIsAccepted(d: DomainOp, induced: map<string, string>, bindings: seq<Binding>, b: Binding)
    requires Acceptable(d) && Reduced(d, induced, bindings) && b in bindings && IsExecutable(b.relation)
    ensures AcceptedFor(d.body, b.edge) && !Descriptive(d.body, b.conceptName)
  {
    EdgeOfBinding(d, induced, bindings, b);
    hide Reduced, AcceptedFor, UniqueIdentities, UniqueImports, HeaderOk, Traced;
    var e :| e in EdgesOf(d.body) && e.id == b.edge && e.from == b.conceptName && e.relation == b.relation;
    ListedEdge(d.body, e);
    hide EdgesOf;
    var r :| r in d.body && r.Reduce? && e == Edge(r.id, r.from, r.to, r.relation);
    assert EdgeOk(d.body, r);
  }

  lemma EdgeOfBinding(d: DomainOp, induced: map<string, string>, bindings: seq<Binding>, b: Binding)
    requires Reduced(d, induced, bindings) && b in bindings
    ensures exists e :: e in EdgesOf(d.body) && e.id == b.edge && e.from == b.conceptName && e.relation == b.relation
  {
    var edges := EdgesOf(d.body);
    var bound :| Binds(bound, Model(FeaturesOf(d.body), edges), induced)
        && multiset(bindings) == multiset(Map(BindingOf(bound), edges));
    hide EdgesOf, FeaturesOf, Binds, Map, BindingOf;
    assert b in multiset(bindings);
    var i := MappedEdge(bound, edges, b);
    assert edges[i] in edges;
  }

  // ---------------------------------------------------------------- record order does not matter

  lemma {:induction false} EdgesAppend(a: seq<Rec>, b: seq<Rec>)
    ensures EdgesOf(a + b) == EdgesOf(a) + EdgesOf(b)
    ensures FeaturesOf(a + b) == FeaturesOf(a) + FeaturesOf(b)
    decreases |b|
  {
    if b == [] {
      assert a + b == a;
    } else {
      assert (a + b)[..|a + b| - 1] == a + b[..|b| - 1];
      EdgesAppend(a, b[..|b| - 1]);
    }
  }

  lemma EdgesWithout(body: seq<Rec>, i: nat)
    requires i < |body|
    ensures multiset(EdgesOf(body)) == multiset(EdgesOf([body[i]])) + multiset(EdgesOf(Without(body, i)))
    ensures multiset(FeaturesOf(body)) == multiset(FeaturesOf([body[i]])) + multiset(FeaturesOf(Without(body, i)))
  {
    hide EdgesOf, FeaturesOf;
    var before, one, after := body[..i], [body[i]], body[i + 1..];
    assert body == before + (one + after);
    EdgesAppend(before, one + after);
    EdgesAppend(one, after);
    EdgesAppend(before, after);
    MiddleOut(EdgesOf(before), EdgesOf(one), EdgesOf(after));
    MiddleOut(FeaturesOf(before), FeaturesOf(one), FeaturesOf(after));
  }

  lemma MiddleOut<T>(a: seq<T>, b: seq<T>, c: seq<T>)
    ensures multiset(a + (b + c)) == multiset(b) + multiset(a + c)
  {
  }

  lemma {:induction false} EdgesAreOfBag(a: seq<Rec>, b: seq<Rec>)
    requires multiset(a) == multiset(b)
    ensures multiset(EdgesOf(a)) == multiset(EdgesOf(b))
    ensures multiset(FeaturesOf(a)) == multiset(FeaturesOf(b))
  {
    if a == [] {
      assert |b| == |multiset(b)| == 0;
    } else {
      assert a[0] in multiset(b);
      var i :| 0 <= i < |b| && b[i] == a[0];
      WithoutBag(a, 0);
      WithoutBag(b, i);
      EdgesWithout(a, 0);
      EdgesWithout(b, i);
      EdgesAreOfBag(Without(a, 0), Without(b, i));
    }
  }

  ghost predicate UniqueEdges(edges: seq<Edge>) {
    forall i, j :: 0 <= i < j < |edges| ==> edges[i].id != edges[j].id
  }

  lemma {:induction false} EdgesAreUnique(body: seq<Rec>)
    requires UniqueIdentities(body)
    ensures UniqueEdges(EdgesOf(body))
  {
    if body != [] {
      var n := |body| - 1;
      var rest := EdgesOf(body[..n]);
      EdgesAreUnique(body[..n]);
      if body[n].Reduce? {
        forall i | 0 <= i < |rest| ensures rest[i].id != body[n].id {
          assert rest[i] in rest;
          ListedEdge(body[..n], rest[i]);
          var r :| r in body[..n] && r.Reduce? && rest[i] == Edge(r.id, r.from, r.to, r.relation);
          var k :| 0 <= k < n && body[k] == r;
          assert Identity(body[k]).Some?;
        }
      }
    }
  }

  /** Lists sorted by key with the same members are equal when no two members share an edge. */
  lemma {:induction false} KeySortedUnique(s: seq<Binding>, t: seq<Binding>)
    requires Sorted(s, KeyLe) && Sorted(t, KeyLe) && multiset(s) == multiset(t)
    requires forall a, b :: a in s && b in s && a.edge == b.edge ==> a == b
    ensures s == t
  {
    HeadsOfOneBag(s, t);
    if s != [] {
      KeyLeTotal(s[0], t[0], t[0]);
      KeyLeTotal(t[0], t[0], t[0]);
      assert KeyLe(t[0], s[0]) && KeyLe(s[0], t[0]);
      assert s[0] == t[0];
      hide KeyLe;
      TailsOfOneBag(s, t);
      KeySortedUnique(s[1..], t[1..]);
      assert s == [s[0]] + s[1..] && t == [t[0]] + t[1..];
    }
  }

  /** The edge that a binding of the list comes from. */
  lemma MappedEdge(bound: map<string, string>, edges: seq<Edge>, b: Binding) returns (i: nat)
    requires b in Map(BindingOf(bound), edges)
    ensures i < |edges| && BindingOf(bound)(edges[i]) == b
    ensures edges[i].id == b.edge && edges[i].from == b.conceptName && edges[i].relation == b.relation
  {
    i :| 0 <= i < |edges| && Map(BindingOf(bound), edges)[i] == b;
  }

  lemma BindingsByEdge(bound: map<string, string>, edges: seq<Edge>, a: Binding, b: Binding)
    requires UniqueEdges(edges) && a in Map(BindingOf(bound), edges)
    requires b in Map(BindingOf(bound), edges) && a.edge == b.edge
    ensures a == b
  {
    var i := MappedEdge(bound, edges, a);
    var j := MappedEdge(bound, edges, b);
    hide Map, BindingOf;
    assert i == j;
  }

  /** Two accepted domains with the same records, in whatever order, reduce to the same binding list. */
  lemma RecordOrderIrrelevant(d: DomainOp, e: DomainOp, induced: map<string, string>, s: seq<Binding>, t: seq<Binding>)
    requires Acceptable(d) && multiset(d.body) == multiset(e.body)
    requires Reduced(d, induced, s) && Reduced(e, induced, t)
    ensures s == t
  {
    EdgesAreOfBag(d.body, e.body);
    EdgesAreUnique(d.body);
    var edges, others := EdgesOf(d.body), EdgesOf(e.body);
    var bound :| Binds(bound, Model(FeaturesOf(d.body), edges), induced)
        && multiset(s) == multiset(Map(BindingOf(bound), edges));
    var bound2 :| Binds(bound2, Model(FeaturesOf(e.body), others), induced)
        && multiset(t) == multiset(Map(BindingOf(bound2), others));
    SameBound(FeaturesOf(d.body), edges, FeaturesOf(e.body), others, induced, bound, bound2);
    MapIsOfBag(BindingOf(bound), edges, others);
    forall a, b | a in s && b in s && a.edge == b.edge ensures a == b {
      assert a in multiset(s) && b in multiset(s);
      assert a in multiset(Map(BindingOf(bound), edges)) && b in multiset(Map(BindingOf(bound), edges));
      BindingsByEdge(bound, edges, a, b);
    }
    hide *;
    KeySortedUnique(s, t);
  }

  lemma SameBound(fs: seq<(string, string)>, edges: seq<Edge>, gs: seq<(string, string)>, others: seq<Edge>,
                  induced: map<string, string>, a: map<string, string>, b: map<string, string>)
    requires Binds(a, Model(fs, edges), induced) && Binds(b, Model(gs, others), induced)
    requires multiset(fs) == multiset(gs)
    ensures a == b
  {
    forall x ensures x in a <==> x in b {
      if x in a {
        var i :| 0 <= i < |fs| && fs[i].0 == x;
        assert fs[i] in multiset(gs);
        var j :| 0 <= j < |gs| && gs[j] == fs[i];
      }
      if x in b {
        var i :| 0 <= i < |gs| && gs[i].0 == x;
        assert gs[i] in multiset(fs);
        var j :| 0 <= j < |fs| && fs[j] == gs[i];
      }
    }
    assert a.Keys == b.Keys;
  }
}
