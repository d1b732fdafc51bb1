/**
 The versioned domain-import resolver: a registry indexed by (capability, version) key
 strings and a depth-first search over governed import edges.
 */
module L2Imports {
  import opened Wrappers
  import opened Graphs
  import Bags
  import Order

  /** A (capability, version) pair. */
  type Node = (string, string)

  const SEPARATOR: char := '\U{001F}'

  /** The string under which the resolver files a node. */
  function NodeKey(n: Node): string {
    n.0 + [SEPARATOR] + n.1
  }

  predicate SeparatorFree(version: string) {
    SEPARATOR !in version
  }

  /** The separator that ends the capability is the last one in the key. */
  lemma LastSeparator(n: Node)
    requires SeparatorFree(n.1)
    ensures NodeKey(n)[|n.0|] == SEPARATOR
    ensures forall i :: |n.0| < i < |NodeKey(n)| ==> NodeKey(n)[i] != SEPARATOR
  {
    forall i | |n.0| < i < |NodeKey(n)| ensures NodeKey(n)[i] != SEPARATOR {
      assert NodeKey(n)[i] == n.1[i - |n.0| - 1];
    }
  }

  /** Separator-free versions make the key strings as good as the pairs. */
  lemma NodeKeyInjective(a: Node, b: Node)
    requires SeparatorFree(a.1) && SeparatorFree(b.1)
    ensures NodeKey(a) == NodeKey(b) <==> a == b
  {
    LastSeparator(a);
    LastSeparator(b);
    if NodeKey(a) == NodeKey(b) {
      assert a.0 == NodeKey(a)[..|a.0|] == b.0;
      assert a.1 == NodeKey(a)[|a.0| + 1..] == b.1;
    }
  }

  /** Without that condition two distinct nodes can share one key. */
  lemma NodeKeyCollides()
    ensures NodeKey(("a", "b" + [SEPARATOR] + "c")) == NodeKey(("a" + [SEPARATOR] + "b", "c"))
  {
    assert "a" + [SEPARATOR] + ("b" + [SEPARATOR] + "c") == ("a" + [SEPARATOR] + "b") + [SEPARATOR] + "c";
  }

  // ---------------------------------------------------------------- the registry

  datatype Fixture =
    | NotAnObject
    | Fixture(cap: Option<string>, ver: Option<string>, l2v2: Option<string>, l2v2Hash: Option<string>)

  datatype Entry = Entry(path: string, hash: string)

  datatype Registry = Registry(
    capabilities: set<string>,
    exactCount: map<string, nat>,
    entry: map<string, Entry>)

  datatype ImportError =
    | Dangling
    | Unknown
    | Ambiguous(count: nat)
    | Ungoverned
    | Cyclic(path: seq<string>)

  predicate Publishes(f: Fixture) {
    f.Fixture? && f.cap.Some? && f.ver.Some?
  }

  function NodeOf(f: Fixture): Node
    requires Publishes(f)
  {
    (f.cap.value, f.ver.value)
  }

  function EntryOf(f: Fixture): Entry
    requires Publishes(f)
  {
    Entry(if f.l2v2.Some? then f.l2v2.value else "", if f.l2v2Hash.Some? then f.l2v2Hash.value else "")
  }

  ghost predicate AllPublish(fs: seq<Fixture>) {
    forall f :: f in fs ==> Publishes(f)
  }

  /** How many fixtures publish exactly this node. */
  ghost function TimesPublished(fs: seq<Fixture>, n: Node): nat
    requires AllPublish(fs)
  {
    if fs == [] then 0
    else TimesPublished(fs[..|fs| - 1], n) + if NodeOf(fs[|fs| - 1]) == n then 1 else 0
  }

  ghost function TimesKeyed(fs: seq<Fixture>, key: string): nat
    requires AllPublish(fs)
  {
    if fs == [] then 0
    else TimesKeyed(fs[..|fs| - 1], key) + if NodeKey(NodeOf(fs[|fs| - 1])) == key then 1 else 0
  }

  /** `e` is the sidecar reference of the first fixture filed under `key`. */
  ghost predicate FirstEntry(fs: seq<Fixture>, key: string, e: Entry)
    requires AllPublish(fs)
  {
    exists i :: 0 <= i < |fs| && NodeKey(NodeOf(fs[i])) == key && EntryOf(fs[i]) == e
      && forall j :: 0 <= j < i ==> NodeKey(NodeOf(fs[j])) != key
  }

  ghost predicate Indexes(reg: Registry, fs: seq<Fixture>) {
    && AllPublish(fs)
    && reg.capabilities == (set f | f in fs :: f.cap.value)
    && reg.exactCount.Keys == reg.entry.Keys
    && (forall key :: key in reg.exactCount <==> TimesKeyed(fs, key) > 0)
    && (forall key :: key in reg.exactCount ==> reg.exactCount[key] == TimesKeyed(fs, key))
    && (forall key :: key in reg.entry ==> FirstEntry(fs, key, reg.entry[key]))
  }

  lemma FirstEntryExtends(fs: seq<Fixture>, f: Fixture, key: string, e: Entry)
    requires AllPublish(fs) && Publishes(f)
    requires FirstEntry(fs, key, e) || (TimesKeyed(fs, key) == 0 && NodeKey(NodeOf(f)) == key && e == EntryOf(f))
    ensures AllPublish(fs + [f]) && FirstEntry(fs + [f], key, e)
  {
    var t := fs + [f];
    if FirstEntry(fs, key, e) {
      var i :| 0 <= i < |fs| && NodeKey(NodeOf(fs[i])) == key && EntryOf(fs[i]) == e
        && forall j :: 0 <= j < i ==> NodeKey(NodeOf(fs[j])) != key;
      assert t[i] == fs[i];
    } else {
      NeverKeyed(fs, key);
      assert t[|fs|] == f;
    }
  }

  lemma {:induction false} NeverKeyed(fs: seq<Fixture>, key: string)
    requires AllPublish(fs) && TimesKeyed(fs, key) == 0
    ensures forall j :: 0 <= j < |fs| ==> NodeKey(NodeOf(fs[j])) != key
  {
    if fs != [] {
      NeverKeyed(fs[..|fs| - 1], key);
      forall j | 0 <= j < |fs| ensures NodeKey(NodeOf(fs[j])) != key {
        if j < |fs| - 1 {
          assert fs[..|fs| - 1][j] == fs[j];
        }
      }
    }
  }

  /** The index after filing one more fixture. */
  function File(reg: Registry, f: Fixture): Registry
    requires Publishes(f)
  {
    var key := NodeKey(NodeOf(f));
    Registry(
      reg.capabilities + {f.cap.value},
      reg.exactCount[key := (if key in reg.exactCount then reg.exactCount[key] else 0) + 1],
      if key in reg.entry then reg.entry else reg.entry[key := EntryOf(f)])
  }

  /** The index of a whole catalogue. */
  function Index(fs: seq<Fixture>): Registry
    requires forall f :: f in fs ==> Publishes(f)
  {
    if fs == [] then Registry({}, map[], map[]) else File(Index(fs[..|fs| - 1]), fs[|fs| - 1])
  }

  lemma CountsExtend(reg: Registry, fs: seq<Fixture>, f: Fixture, key: string)
    requires Indexes(reg, fs) && Publishes(f)
    ensures AllPublish(fs + [f])
    ensures key in File(reg, f).exactCount <==> TimesKeyed(fs + [f], key) > 0
    ensures key in File(reg, f).exactCount ==> File(reg, f).exactCount[key] == TimesKeyed(fs + [f], key)
  {
    var t := fs + [f];
    assert t[..|t| - 1] == fs;
    assert key in reg.exactCount <==> TimesKeyed(fs, key) > 0;
  }

  lemma CapabilitiesExtend(fs: seq<Fixture>, f: Fixture)
    requires AllPublish(fs) && Publishes(f)
    ensures AllPublish(fs + [f])
    ensures (set x | x in fs + [f] :: x.cap.value) == (set x | x in fs :: x.cap.value) + {f.cap.value}
  {
    assert forall x :: x in fs + [f] <==> x in fs || x == f;
  }

  lemma IndexExtends(reg: Registry, fs: seq<Fixture>, f: Fixture)
    requires Indexes(reg, fs) && Publishes(f)
    ensures Indexes(File(reg, f), fs + [f])
  {
    var t, next := fs + [f], File(reg, f);
    CapabilitiesExtend(fs, f);
    hide FirstEntry, TimesKeyed, NodeKey, Publishes;
    forall key
      ensures key in next.exactCount <==> TimesKeyed(t, key) > 0
      ensures key in next.exactCount ==> next.exactCount[key] == TimesKeyed(t, key)
    {
      CountsExtend(reg, fs, f, key);
    }
    forall key | key in next.entry ensures FirstEntry(t, key, next.entry[key]) {
      assert key in reg.exactCount <==> TimesKeyed(fs, key) > 0;
      FirstEntryExtends(fs, f, key, next.entry[key]);
    }
  }

  lemma NothingIndexed()
    ensures Indexes(Index([]), [])
  {
  }

  lemma {:induction false} IndexIndexes(fs: seq<Fixture>)
    requires AllPublish(fs)
    ensures Indexes(Index(fs), fs)
  {
    hide Indexes, File;
    if fs == [] {
      NothingIndexed();
    } else {
      IndexIndexes(fs[..|fs| - 1]);
      IndexExtends(Index(fs[..|fs| - 1]), fs[..|fs| - 1], fs[|fs| - 1]);
      assert fs == fs[..|fs| - 1] + [fs[|fs| - 1]];
    }
  }

  /** Index the catalogue; a malformed fixture is refused before anything is resolved. */
  method ParseRegistry(fixtures: Option<seq<Fixture>>) returns (r: Result<Registry, ImportError>)
    ensures r.Ok? <==> fixtures.Some? && AllPublish(fixtures.value)
    ensures r.Ok? ==> r.value == Index(fixtures.value) && Indexes(r.value, fixtures.value)
    ensures r.Err? ==> r.error == Dangling
  {
    if fixtures.None? {
      return Err(Dangling);
    }
    var fs := fixtures.value;
    var capabilities, exactCount, entry := {}, map[], map[];
    for i := 0 to |fs|
      invariant AllPublish(fs[..i]) && Registry(capabilities, exactCount, entry) == Index(fs[..i])
    {
      var f := fs[i];
      if !Publishes(f) {
        return Err(Dangling);
      }
      assert fs[..i + 1][..i] == fs[..i];
      var key := NodeKey(NodeOf(f));
      capabilities := capabilities + {f.cap.value};
      exactCount := exactCount[key := (if key in exactCount then exactCount[key] else 0) + 1];
      if key !in entry {
        entry := entry[key := EntryOf(f)];
      }
    }
    assert fs[..|fs|] == fs;
    IndexIndexes(fs);
    return Ok(Registry(capabilities, exactCount, entry));
  }

  // ---------------------------------------------------------------- one node

  /** The hash-pinned sidecar read behind a registry entry: the edges, or nothing. */
  type Governor = (Entry, string, string) -> Option<seq<Node>>

  function ResolveNode(reg: Registry, governed: Governor, n: Node): Result<seq<Node>, ImportError>
    requires reg.exactCount.Keys == reg.entry.Keys
  {
    if n.0 !in reg.capabilities then Err(Dangling)
    else
      var key := NodeKey(n);
      if key !in reg.exactCount then Err(Unknown)
      else if reg.exactCount[key] > 1 then Err(Ambiguous(reg.exactCount[key]))
      else
        var edges := governed(reg.entry[key], n.0, n.1);
        if edges.None? then Err(Ungoverned) else Ok(edges.value)
  }

  lemma {:induction false} KeyCountsNodes(fs: seq<Fixture>, n: Node)
    requires AllPublish(fs) && SeparatorFree(n.1)
    requires forall f :: f in fs ==> SeparatorFree(f.ver.value)
    ensures TimesKeyed(fs, NodeKey(n)) == TimesPublished(fs, n)
  {
    if fs != [] {
      KeyCountsNodes(fs[..|fs| - 1], n);
      NodeKeyInjective(NodeOf(fs[|fs| - 1]), n);
    }
  }

  /** Each verdict of `ResolveNode`, stated over the catalogue itself. */
  lemma ResolveNodeMeans(fs: seq<Fixture>, reg: Registry, governed: Governor, n: Node)
    requires Indexes(reg, fs) && SeparatorFree(n.1)
    requires forall f :: f in fs ==> SeparatorFree(f.ver.value)
    ensures ResolveNode(reg, governed, n) == Err(Dangling) <==> forall f :: f in fs ==> f.cap.value != n.0
    ensures ResolveNode(reg, governed, n) == Err(Unknown)
       <==> (exists f :: f in fs && f.cap.value == n.0) && TimesPublished(fs, n) == 0
    ensures forall k :: ResolveNode(reg, governed, n) == Err(Ambiguous(k)) <==> TimesPublished(fs, n) == k > 1
    ensures ResolveNode(reg, governed, n).Ok? || ResolveNode(reg, governed, n) == Err(Ungoverned)
       <==> TimesPublished(fs, n) == 1
    ensures ResolveNode(reg, governed, n).Ok?
        ==> exists f :: f in fs && NodeOf(f) == n
              && governed(EntryOf(f), n.0, n.1) == Some(ResolveNode(reg, governed, n).value)
  {
    KeyCountsNodes(fs, n);
    var key := NodeKey(n);
    assert key in reg.exactCount <==> TimesKeyed(fs, key) > 0;
    if key in reg.exactCount {
      assert FirstEntry(fs, key, reg.entry[key]);
      var i :| 0 <= i < |fs| && NodeKey(NodeOf(fs[i])) == key && EntryOf(fs[i]) == reg.entry[key];
      NodeKeyInjective(NodeOf(fs[i]), n);
      assert fs[i] in fs && fs[i].cap.value == n.0;
    }
  }

  // ---------------------------------------------------------------- the search

  function Label(n: Node): string {
    n.0 + "@" + n.1
  }

  function Labels(p: seq<Node>): seq<string> {
    seq(|p|, i requires 0 <= i < |p| => Label(p[i]))
  }

  /** One resolution: the index, the sidecar reader, the importing domain and its own imports. */
  datatype Problem = Problem(reg: Registry, governed: Governor, root: Node, rootEdges: seq<Node>) {

    /** Versions come from checked semantic versions, which never hold the separator. */
    ghost predicate Versioned() {
      && SeparatorFree(root.1)
      && (forall n :: n in rootEdges ==> SeparatorFree(n.1))
      && (forall e, c, v, n :: governed(e, c, v).Some? && n in governed(e, c, v).value ==> SeparatorFree(n.1))
    }

    ghost predicate WellFormed() {
      reg.exactCount.Keys == reg.entry.Keys && Versioned()
    }

    function Resolve(n: Node): Result<seq<Node>, ImportError>
      requires reg.exactCount.Keys == reg.entry.Keys
    {
      ResolveNode(reg, governed, n)
    }

    /** The import graph: the domain's own imports leave the root, sidecar edges leave the rest. */
    function Edges(): Node -> seq<Node>
      requires reg.exactCount.Keys == reg.entry.Keys
    {
      n =>
        if n == root then rootEdges
        else if Resolve(n).Ok? then Resolve(n).value
        else []
    }

    /** Every import reachable from the root is published once and governed, and none leads into a cycle. */
    ghost predicate Resolvable()
      requires reg.exactCount.Keys == reg.entry.Keys
    {
      && (forall n :: n != root && Reaches(Edges(), root, n) ==> Resolve(n).Ok?)
      && !ReachesCycle(Edges(), root)
    }

    /** What a refusal has to show: a walk into a cycle, or a reachable import that does not resolve. */
    ghost predicate Justifies(e: ImportError)
      requires reg.exactCount.Keys == reg.entry.Keys
    {
      if e.Cyclic? then exists p :: Lasso(Edges(), p, root) && e.path == Labels(p)
      else exists n :: n != root && Reaches(Edges(), root, n) && Resolve(n) == Err(e)
    }

    lemma JustifiedMeansUnresolvable(e: ImportError)
      requires reg.exactCount.Keys == reg.entry.Keys && Justifies(e)
      ensures !Resolvable()
    {
    }

    /** A node the search may enter: the root, or a node that resolved. */
    ghost predicate Enterable(n: Node)
      requires reg.exactCount.Keys == reg.entry.Keys
    {
      SeparatorFree(n.1) && (n == root || Resolve(n).Ok?)
    }
  }

  /** The nodes behind the key sets: the stack, the finished nodes by finishing time, the resolved ones. */
  datatype Trail = Trail(path: seq<Node>, rank: map<Node, nat>, resolved: seq<Node>)

  /** The stack is a walk from the root. */
  ghost predicate PathOk(p: Problem, path: seq<Node>)
    requires p.WellFormed()
  {
    && (path != [] ==> path[0] == p.root && IsWalk(p.Edges(), path))
    && Bags.Distinct(path)
    && (forall n :: n in path ==> p.Enterable(n))
  }

  /** Finished nodes lead only to nodes finished before them. */
  ghost predicate RankOk(p: Problem, rank: map<Node, nat>)
    requires p.WellFormed()
  {
    && Ranked(p.Edges(), rank) && RanksBelowSize(rank)
    && (forall n :: n in rank ==> p.Enterable(n))
  }

  ghost predicate TrailOk(p: Problem, t: Trail)
    requires p.WellFormed()
  {
    && PathOk(p, t.path) && RankOk(p, t.rank)
    && (forall n :: n in t.path ==> n !in t.rank)
    && Bags.Distinct(t.resolved)
    && (forall n :: n in t.resolved ==> n in t.path || n in t.rank)
  }

  ghost function Keys(s: set<Node>): set<string> {
    set n | n in s :: NodeKey(n)
  }

  ghost function Elements(s: seq<Node>): set<Node> {
    set n | n in s
  }

  /** `n` may be pushed next. */
  ghost predicate Next(p: Problem, t: Trail, n: Node)
    requires p.WellFormed()
  {
    && p.Enterable(n) && n !in t.path && n !in t.rank
    && if t.path == [] then n == p.root else n in p.Edges()(t.path[|t.path| - 1])
  }

  ghost function Push(t: Trail, n: Node): Trail {
    t.(path := t.path + [n], resolved := t.resolved + [n])
  }

  ghost function Pop(t: Trail): Trail
    requires t.path != []
  {
    t.(path := t.path[..|t.path| - 1], rank := t.rank[t.path[|t.path| - 1] := |t.rank|])
  }

  lemma PushKeeps(p: Problem, t: Trail, n: Node)
    requires p.WellFormed() && TrailOk(p, t) && Next(p, t, n)
    ensures TrailOk(p, Push(t, n))
    ensures Elements(Push(t, n).path) == Elements(t.path) + {n}
  {
    PathGrows(p, t.path, n);
    hide PathOk, RankOk, Problem.Enterable, Problem.Edges;
    assert forall x :: x in Push(t, n).path <==> x in t.path || x == n;
  }

  lemma PathGrows(p: Problem, path: seq<Node>, n: Node)
    requires p.WellFormed() && PathOk(p, path) && p.Enterable(n) && n !in path
    requires if path == [] then n == p.root else n in p.Edges()(path[|path| - 1])
    ensures PathOk(p, path + [n])
  {
    hide Problem.Enterable, Problem.Edges;
  }

  lemma PathBelow(p: Problem, path: seq<Node>)
    requires p.WellFormed() && PathOk(p, path) && path != []
    ensures PathOk(p, path[..|path| - 1])
    ensures p.Enterable(path[|path| - 1])
    ensures path[|path| - 1] !in path[..|path| - 1]
    ensures forall m :: m in path <==> m in path[..|path| - 1] || m == path[|path| - 1]
  {
    assert path == path[..|path| - 1] + [path[|path| - 1]];
  }

  lemma RankOkExtends(p: Problem, rank: map<Node, nat>, n: Node)
    requires p.WellFormed() && RankOk(p, rank) && n !in rank && p.Enterable(n)
    requires forall e :: e in p.Edges()(n) ==> e in rank
    ensures RankOk(p, rank[n := |rank|])
    ensures rank[n := |rank|].Keys == rank.Keys + {n}
  {
    RankExtends(p.Edges(), rank, n);
  }

  lemma PopKeeps(p: Problem, t: Trail)
    requires p.WellFormed() && TrailOk(p, t) && t.path != []
    requires forall e :: e in p.Edges()(t.path[|t.path| - 1]) ==> e in t.rank
    ensures TrailOk(p, Pop(t))
    ensures Elements(Pop(t).path) == Elements(t.path) - {t.path[|t.path| - 1]}
    ensures Pop(t).rank.Keys == t.rank.Keys + {t.path[|t.path| - 1]}
  {
    hide PathOk, RankOk, Bags.Distinct, Problem.Edges, Problem.Enterable, Problem.WellFormed;
    PathBelow(p, t.path);
    RankOkExtends(p, t.rank, t.path[|t.path| - 1]);
  }

  /** Key membership is node membership. */
  lemma KeysDecide(s: set<Node>, n: Node)
    requires SeparatorFree(n.1) && forall m :: m in s ==> SeparatorFree(m.1)
    ensures NodeKey(n) in Keys(s) <==> n in s
    ensures Keys(s + {n}) == Keys(s) + {NodeKey(n)}
    ensures Keys(s - {n}) == Keys(s) - {NodeKey(n)}
  {
    forall m | m in s ensures NodeKey(m) == NodeKey(n) <==> m == n {
      NodeKeyInjective(m, n);
    }
  }

  /** Where the search stands at an edge `e` of the node on top of the stack. */
  lemma EdgeCases(p: Problem, t: Trail, e: Node)
    requires p.WellFormed() && TrailOk(p, t) && t.path != [] && e in p.Edges()(t.path[|t.path| - 1])
    ensures SeparatorFree(e.1) && Reaches(p.Edges(), p.root, e)
    ensures NodeKey(e) in Keys(Elements(t.path)) <==> e in t.path
    ensures NodeKey(e) in Keys(t.rank.Keys) <==> e in t.rank
    ensures e in t.path ==> Lasso(p.Edges(), t.path + [e], p.root)
    ensures e !in t.path && e !in t.rank ==> e != p.root && e !in t.resolved
    ensures e !in t.path && e !in t.rank && p.Resolve(e).Ok? ==> Next(p, t, e)
  {
    assert WalkFromTo(p.Edges(), t.path + [e], p.root, e);
    KeysDecide(Elements(t.path), e);
    KeysDecide(t.rank.Keys, e);
  }

  // ---------------------------------------------------------------- the search as a function

  /** How a search ends: with its first error, or with the nodes it finished. */
  datatype Found = Stopped(error: ImportError) | Finished(nodes: set<Node>)

  ghost predicate Searchable(p: Problem, path: seq<Node>, edges: seq<Node>) {
    p.WellFormed() && (forall n :: n in path ==> p.Enterable(n)) && forall e :: e in edges ==> SeparatorFree(e.1)
  }

  ghost function Unvisited(p: Problem, path: seq<Node>): set<string> {
    p.reg.exactCount.Keys + {NodeKey(p.root)} - Keys(Elements(path))
  }

  /** A node that resolves and is not on the path can be searched in its turn. */
  lemma Deeper(p: Problem, path: seq<Node>, e: Node)
    requires Searchable(p, path, [e]) && e !in path && p.Resolve(e).Ok?
    ensures Searchable(p, path + [e], p.Edges()(e))
    ensures Unvisited(p, path + [e]) < Unvisited(p, path)
  {
    assert e in [e];
    assert NodeKey(e) in p.reg.exactCount;
    KeysDecide(Elements(path), e);
    assert Elements(path + [e]) == Elements(path) + {e};
    assert NodeKey(e) in Unvisited(p, path) && NodeKey(e) !in Unvisited(p, path + [e]);
  }

  /**
   Depth first from the end of `path` along `edges`, in their order, past the nodes in `done`: the
   first edge back into the path or to a node that does not resolve ends the search.
   */
  ghost function Search(p: Problem, path: seq<Node>, edges: seq<Node>, done: set<Node>): Found
    requires Searchable(p, path, edges)
    decreases Unvisited(p, path), |edges|
  {
    if edges == [] then Finished(done)
    else
      var e := edges[0];
      if e in path then Stopped(Cyclic(Labels(path + [e])))
      else if e in done then Search(p, path, edges[1..], done)
      else if p.Resolve(e).Err? then Stopped(p.Resolve(e).error)
      else
        Deeper(p, path, e);
        var below := Search(p, path + [e], p.Edges()(e), done);
        if below.Stopped? then below else Search(p, path, edges[1..], below.nodes + {e})
  }

  lemma SearchOn(p: Problem, path: seq<Node>, edges: seq<Node>, i: nat, done: set<Node>)
    requires Searchable(p, path, edges) && i < |edges|
    ensures Searchable(p, path, edges[i..]) && Searchable(p, path, edges[i + 1..])
    ensures var e, now := edges[i], Search(p, path, edges[i..], done);
      && (e in path ==> now == Stopped(Cyclic(Labels(path + [e]))))
      && (e !in path && e in done ==> now == Search(p, path, edges[i + 1..], done))
      && (e !in path && e !in done && p.Resolve(e).Err? ==> now == Stopped(p.Resolve(e).error))
      && (e !in path && e !in done && p.Resolve(e).Ok? ==>
            && Searchable(p, path + [e], p.Edges()(e))
            && var below := Search(p, path + [e], p.Edges()(e), done);
               now == if below.Stopped? then below else Search(p, path, edges[i + 1..], below.nodes + {e}))
  {
    assert edges[i..][0] == edges[i] && edges[i..][1..] == edges[i + 1..];
    hide Problem.Resolve, Problem.Edges, Problem.WellFormed, Problem.Enterable, SeparatorFree, Labels;
    if edges[i] !in path && p.Resolve(edges[i]).Ok? {
      Deeper(p, path, edges[i]);
    }
  }

  lemma NothingToSearch(p: Problem, path: seq<Node>, edges: seq<Node>, done: set<Node>)
    requires Searchable(p, path, edges)
    ensures edges[0..] == edges && edges[|edges|..] == []
    ensures Search(p, path, edges[|edges|..], done) == Finished(done)
  {
  }

  /** The mutable state of one resolution: the two key sets and the path stack of the search. */
  class ImportSearch {
    const p: Problem
    var onStack: set<string>
    var done: set<string>
    var stack: seq<string>
    ghost var trail: Trail

    constructor (p: Problem)
      requires p.WellFormed()
      ensures this.p == p && Valid() && trail == Trail([], map[], [])
    {
      this.p := p;
      onStack, done, stack := {}, {}, [];
      trail := Trail([], map[], []);
    }

    ghost predicate Valid()
      reads this
    {
      && p.WellFormed()
      && TrailOk(p, trail)
      && onStack == Keys(Elements(trail.path))
      && done == Keys(trail.rank.Keys)
      && stack == Labels(trail.path)
    }

    /** Visit `n`, whose out-edges are `edges`: cycle test, then done test, then lazy resolution. */
    method Dfs(n: Node, edges: seq<Node>) returns (err: Option<ImportError>)
      requires Valid() && Next(p, trail, n) && n !in trail.resolved
      requires edges == p.Edges()(n)
      modifies this
      ensures Bags.Distinct(trail.resolved)
      ensures err.None? ==> Valid() && trail.path == old(trail).path && onStack == old(onStack)
      ensures err.None? ==> n in trail.rank && old(trail).rank.Keys <= trail.rank.Keys
      ensures err.Some? ==> p.Justifies(err.value)
      ensures Searchable(p, old(trail).path + [n], edges)
      ensures var found := Search(p, old(trail).path + [n], edges, old(trail).rank.Keys);
        if err.Some? then found == Stopped(err.value)
        else found.Finished? && trail.rank.Keys == found.nodes + {n}
      decreases p.reg.exactCount.Keys + {NodeKey(p.root)} - onStack
    {
      hide *;
      Enter(n);
      CanSearch(edges);
      NothingToSearch(p, trail.path, edges, trail.rank.Keys);
      for i := 0 to |edges|
        invariant Valid() && trail.path == old(trail).path + [n] && onStack == old(onStack) + {NodeKey(n)}
        invariant Searchable(p, trail.path, edges) && Searchable(p, trail.path, edges[i..])
        invariant Search(p, trail.path, edges[i..], trail.rank.Keys)
               == Search(p, trail.path, edges, old(trail).rank.Keys)
        invariant old(trail).rank.Keys <= trail.rank.Keys
        invariant forall e :: e in edges[..i] ==> e in trail.rank
      {
        var e := edges[i];
        assert e in p.Edges()(n);
        At(e);
        SearchOn(p, trail.path, edges, i, trail.rank.Keys);
        assert edges[..i + 1] == edges[..i] + [e];
        if NodeKey(e) in onStack {
          return Some(Cyclic(stack + [Label(e)]));
        }
        if NodeKey(e) !in done {
          var child := p.Resolve(e);
          if child.Err? {
            trail := trail.(resolved := trail.resolved + [e]);
            return Some(child.error);
          }
          err := Dfs(e, child.value);
          if err.Some? {
            return;
          }
        }
      }
      assert edges[..|edges|] == edges;
      NothingToSearch(p, trail.path, edges, trail.rank.Keys);
      Leave(n);
      err := None;
    }

    lemma CanSearch(edges: seq<Node>)
      requires Valid() && trail.path != [] && edges == p.Edges()(trail.path[|trail.path| - 1])
      ensures Searchable(p, trail.path, edges)
    {
      forall n | n in trail.path ensures p.Enterable(n) {
      }
    }

    /** Everything the visit of an edge needs to know about where the search stands. */
    lemma At(e: Node)
      requires Valid() && trail.path != [] && e in p.Edges()(trail.path[|trail.path| - 1])
      ensures Bags.Distinct(trail.resolved) && p.reg.exactCount.Keys == p.reg.entry.Keys
      ensures NodeKey(e) in onStack ==> p.Justifies(Cyclic(stack + [Label(e)]))
      ensures NodeKey(e) in onStack ==> e in trail.path && stack + [Label(e)] == Labels(trail.path + [e])
      ensures NodeKey(e) in done <==> e in trail.rank
      ensures e in trail.path ==> NodeKey(e) in onStack
      ensures NodeKey(e) !in onStack && NodeKey(e) !in done ==>
        && e !in trail.resolved && Bags.Distinct(trail.resolved + [e])
        && (p.Resolve(e).Err? ==> p.Justifies(p.Resolve(e).error))
        && (p.Resolve(e).Ok? ==> Next(p, trail, e) && p.Resolve(e).value == p.Edges()(e))
    {
      EdgeCases(p, trail, e);
      if e in trail.path {
        assert stack + [Label(e)] == Labels(trail.path + [e]);
      }
    }

    lemma Versions()
      requires Valid()
      ensures Bags.Distinct(trail.resolved)
      ensures forall n :: n in Elements(trail.path) || n in trail.rank.Keys ==> SeparatorFree(n.1)
    {
      forall n | n in trail.path || n in trail.rank ensures p.Enterable(n) {
      }
    }

    lemma FinishedMeansResolvable()
      requires Valid() && p.root in trail.rank
      ensures p.Resolvable()
    {
      hide Problem.Edges, IsWalk, RanksBelowSize, PathOk;
      RankedHasNoCycle(p.Edges(), trail.rank, p.root);
      forall n | n != p.root && Reaches(p.Edges(), p.root, n) ensures p.Resolve(n).Ok? {
        ClosedContainsReached(p.Edges(), trail.rank.Keys, p.root, n);
        assert p.Enterable(n);
      }
    }

    /** Push a node: the first half of a visit. */
    method Enter(n: Node)
      requires Valid() && Next(p, trail, n) && n !in trail.resolved
      modifies this
      ensures Valid() && trail.path == old(trail).path + [n] && trail.rank == old(trail).rank
      ensures NodeKey(n) !in old(onStack) && onStack == old(onStack) + {NodeKey(n)}
      ensures NodeKey(n) in p.reg.exactCount.Keys + {NodeKey(p.root)}
      ensures p.reg.exactCount.Keys == p.reg.entry.Keys
    {
      PushKeeps(p, trail, n);
      KeysDecide(Elements(trail.path), n);
      onStack := onStack + {NodeKey(n)};
      stack := stack + [Label(n)];
      trail := Push(trail, n);
    }

    /** Pop a node all of whose edges are finished: the last step of a visit. */
    method Leave(n: Node)
      requires Valid() && trail.path != [] && trail.path[|trail.path| - 1] == n
      requires forall e :: e in p.Edges()(n) ==> e in trail.rank
      modifies this
      ensures Valid() && Bags.Distinct(trail.resolved)
      ensures trail.path == old(trail).path[..|old(trail).path| - 1]
      ensures trail.rank.Keys == old(trail).rank.Keys + {n}
      ensures onStack == old(onStack) - {NodeKey(n)}
    {
      hide TrailOk, Ranked, IsWalk, RanksBelowSize, Problem.Edges, Problem.Enterable, Bags.Distinct;
      PopKeeps(p, trail);
      Versions();
      KeysDecide(Elements(trail.path), n);
      KeysDecide(trail.rank.Keys, n);
      onStack := onStack - {NodeKey(n)};
      done := done + {NodeKey(n)};
      stack := stack[..|stack| - 1];
      trail := Pop(trail);
    }
  }

  datatype DomainImports = DomainImports(domain: string, imports: seq<Node>)

  /** The resolution problem of a domain over a catalogue; its own imports are visited in sorted order. */
  ghost function ProblemOf(root: Node, directImports: seq<Node>, fs: seq<Fixture>, governed: Governor): Problem
    requires AllPublish(fs)
  {
    Problem(Index(fs), governed, root, Order.Sort(directImports, Order.PairLe))
  }

  lemma RootIsSearchable(p: Problem)
    requires p.WellFormed()
    ensures Searchable(p, [p.root], p.Edges()(p.root))
  {
  }

  /** The outcome of a resolution, its first error included, as a function of the problem. */
  ghost function Resolution(domainId: string, p: Problem): Result<DomainImports, ImportError>
    requires p.WellFormed()
  {
    RootIsSearchable(p);
    match Search(p, [p.root], p.Edges()(p.root), {})
    case Stopped(error) => Err(error)
    case Finished(_) => Ok(DomainImports(domainId, p.rootEdges))
  }

  /**
   Resolve a domain's imports. It succeeds exactly when the registry is well formed, every
   import reachable from the domain is published once and governed, and no import cycle is
   reachable, the domain itself included; a refusal carries its own justification.
   */
  method ResolveDomainImports(
      domainId: string, domainVersion: string, directImports: seq<Node>,
      fixtures: Option<seq<Fixture>>, governed: Governor)
    returns (r: Result<DomainImports, ImportError>)
    requires Problem(Index([]), governed, (domainId, domainVersion), directImports).Versioned()
    ensures fixtures.None? || !AllPublish(fixtures.value) ==> r == Err(Dangling)
    ensures fixtures.Some? && AllPublish(fixtures.value) ==>
      var p := ProblemOf((domainId, domainVersion), directImports, fixtures.value, governed);
      && p.WellFormed()
      && (r.Ok? <==> p.Resolvable())
      && (r.Ok? ==> r.value == DomainImports(domainId, p.rootEdges))
      && (r.Err? ==> p.Justifies(r.error))
      && r == Resolution(domainId, p)
  {
    var rootEdges := Order.Sort(directImports, Order.PairLe);
    var parsed := ParseRegistry(fixtures);
    if parsed.Err? {
      return Err(parsed.error);
    }
    var p := Problem(parsed.value, governed, (domainId, domainVersion), rootEdges);
    forall n | n in rootEdges ensures SeparatorFree(n.1) {
      assert n in multiset(rootEdges);
      assert n in directImports;
    }
    var search := new ImportSearch(p);
    RootIsSearchable(p);
    assert [] + [p.root] == [p.root];
    var err := search.Dfs(p.root, rootEdges);
    if err.Some? {
      p.JustifiedMeansUnresolvable(err.value);
      return Err(err.value);
    }
    search.FinishedMeansResolvable();
    return Ok(DomainImports(domainId, rootEdges));
  }

  /** The order in which a domain lists its imports changes nothing, the error that is found first included. */
  lemma ListingOrderIrrelevant(domainId: string, root: Node, a: seq<Node>, b: seq<Node>, fs: seq<Fixture>,
                               governed: Governor)
    requires AllPublish(fs) && multiset(a) == multiset(b) && ProblemOf(root, a, fs, governed).WellFormed()
    ensures ProblemOf(root, b, fs, governed).WellFormed()
    ensures Resolution(domainId, ProblemOf(root, a, fs, governed))
         == Resolution(domainId, ProblemOf(root, b, fs, governed))
  {
    Order.PairLeTotalOrder();
    Order.SortForgetsOrder(a, b, Order.PairLe);
    assert ProblemOf(root, a, fs, governed) == ProblemOf(root, b, fs, governed);
    hide *;
  }
}
