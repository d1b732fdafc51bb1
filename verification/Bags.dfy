/** Sequences read as multisets: what survives mapping, filtering and summing in another order. */
module Bags {

  function Map<A, B>(f: A -> B, s: seq<A>): (r: seq<B>)
    ensures |r| == |s|
    ensures forall i :: 0 <= i < |s| ==> r[i] == f(s[i])
  {
    if s == [] then [] else [f(s[0])] + Map(f, s[1..])
  }

  ghost predicate Distinct<A>(s: seq<A>) {
    forall i, j :: 0 <= i < j < |s| ==> s[i] != s[j]
  }

  function Filter<A>(p: A -> bool, s: seq<A>): seq<A> {
    if s == [] then []
    else (if p(s[0]) then [s[0]] else []) + Filter(p, s[1..])
  }

  function Sum<A>(f: A -> int, s: seq<A>): int {
    if s == [] then 0 else f(s[0]) + Sum(f, s[1..])
  }

  ghost function Without<A>(s: seq<A>, i: nat): seq<A>
    requires i < |s|
  {
    s[..i] + s[i + 1..]
  }

  lemma WithoutBag<A>(s: seq<A>, i: nat)
    requires i < |s|
    ensures multiset(Without(s, i)) == multiset(s) - multiset{s[i]}
  {
    assert s == s[..i] + [s[i]] + s[i + 1..];
  }

  lemma {:induction false} MapAppend<A, B>(f: A -> B, s: seq<A>, t: seq<A>)
    ensures Map(f, s + t) == Map(f, s) + Map(f, t)
  {
  }

  lemma {:induction false} FilterAppend<A>(p: A -> bool, s: seq<A>, t: seq<A>)
    ensures Filter(p, s + t) == Filter(p, s) + Filter(p, t)
  {
    if s == [] {
      assert s + t == t;
    } else {
      assert (s + t)[1..] == s[1..] + t;
      FilterAppend(p, s[1..], t);
    }
  }

  lemma {:induction false} SumAppend<A>(f: A -> int, s: seq<A>, t: seq<A>)
    ensures Sum(f, s + t) == Sum(f, s) + Sum(f, t)
  {
    if s == [] {
      assert s + t == t;
    } else {
      assert (s + t)[1..] == s[1..] + t;
      SumAppend(f, s[1..], t);
    }
  }

  lemma SumWithout<A>(f: A -> int, s: seq<A>, i: nat)
    requires i < |s|
    ensures Sum(f, s) == f(s[i]) + Sum(f, Without(s, i))
  {
    assert s == s[..i] + ([s[i]] + s[i + 1..]);
    SumAppend(f, s[..i], [s[i]] + s[i + 1..]);
    SumAppend(f, [s[i]], s[i + 1..]);
    SumAppend(f, s[..i], s[i + 1..]);
  }

  /** A sum does not depend on the order of its terms. */
  lemma {:induction false} SumIsOfBag<A>(f: A -> int, s: seq<A>, t: seq<A>)
    requires multiset(s) == multiset(t)
    ensures Sum(f, s) == Sum(f, t)
  {
    if s == [] {
      assert |t| == |multiset(t)| == 0;
    } else {
      assert s[0] in multiset(t);
      var i :| 0 <= i < |t| && t[i] == s[0];
      WithoutBag(s, 0);
      WithoutBag(t, i);
      assert Without(s, 0) == s[1..];
      SumIsOfBag(f, s[1..], Without(t, i));
      SumWithout(f, t, i);
    }
  }

  lemma MapWithout<A, B>(f: A -> B, s: seq<A>, i: nat)
    requires i < |s|
    ensures multiset(Map(f, s)) == multiset{f(s[i])} + multiset(Map(f, Without(s, i)))
  {
    var before, after := s[..i], s[i + 1..];
    assert s == before + ([s[i]] + after);
    assert Map(f, [s[i]]) == [f(s[i])];
    hide Map;
    MapAppend(f, before, [s[i]] + after);
    MapAppend(f, [s[i]], after);
    MapAppend(f, before, after);
  }

  lemma {:induction false} MapIsOfBag<A, B>(f: A -> B, s: seq<A>, t: seq<A>)
    requires multiset(s) == multiset(t)
    ensures multiset(Map(f, s)) == multiset(Map(f, t))
  {
    if s == [] {
      assert |t| == |multiset(t)| == 0;
    } else {
      assert s[0] in multiset(t);
      var i :| 0 <= i < |t| && t[i] == s[0];
      WithoutBag(s, 0);
      WithoutBag(t, i);
      MapWithout(f, s, 0);
      MapWithout(f, t, i);
      MapIsOfBag(f, Without(s, 0), Without(t, i));
    }
  }

  lemma {:induction false} FilterCounts<A>(p: A -> bool, s: seq<A>, x: A)
    ensures multiset(Filter(p, s))[x] == if p(x) then multiset(s)[x] else 0
  {
    if s != [] {
      FilterCounts(p, s[1..], x);
      assert s == [s[0]] + s[1..];
    }
  }

  lemma {:induction false} FilterSplits<A>(p: A -> bool, q: A -> bool, s: seq<A>)
    requires forall x :: q(x) <==> !p(x)
    ensures multiset(s) == multiset(Filter(p, s)) + multiset(Filter(q, s))
  {
    if s != [] {
      FilterSplits(p, q, s[1..]);
      assert s == [s[0]] + s[1..];
    }
  }

  lemma {:induction false} MapSplits<A, B>(f: A -> B, p: A -> bool, q: A -> bool, s: seq<A>)
    requires forall x :: q(x) <==> !p(x)
    ensures multiset(Map(f, s)) == multiset(Map(f, Filter(p, s))) + multiset(Map(f, Filter(q, s)))
  {
    FilterSplits(p, q, s);
    assert multiset(Filter(p, s) + Filter(q, s)) == multiset(s);
    MapIsOfBag(f, s, Filter(p, s) + Filter(q, s));
    MapAppend(f, Filter(p, s), Filter(q, s));
  }

  lemma {:induction false} SumOfMap<A, B>(f: A -> B, w: B -> int, v: A -> int, s: seq<A>)
    requires forall x :: x in s ==> v(x) == w(f(x))
    ensures Sum(v, s) == Sum(w, Map(f, s))
  {
    if s != [] {
      SumOfMap(f, w, v, s[1..]);
      assert Map(f, s)[1..] == Map(f, s[1..]);
    }
  }

  lemma MapGrows<A, B>(f: A -> B, s: seq<A>, i: nat)
    requires i < |s|
    ensures multiset(Map(f, s[..i + 1])) == multiset(Map(f, s[..i])) + multiset{f(s[i])}
  {
    assert s[..i + 1] == s[..i] + [s[i]];
    MapAppend(f, s[..i], [s[i]]);
    assert Map(f, [s[i]]) == [f(s[i])];
  }

  lemma {:induction false} FiltersCommute<A>(p: A -> bool, q: A -> bool, s: seq<A>)
    ensures Filter(p, Filter(q, s)) == Filter(q, Filter(p, s))
  {
    if s != [] {
      FiltersCommute(p, q, s[1..]);
      FilterAppend(p, if q(s[0]) then [s[0]] else [], Filter(q, s[1..]));
      FilterAppend(q, if p(s[0]) then [s[0]] else [], Filter(p, s[1..]));
    }
  }

  lemma {:induction false} FilterOfMap<A, B>(f: A -> B, p: A -> bool, q: B -> bool, s: seq<A>)
    requires forall x :: x in s ==> (p(x) <==> q(f(x)))
    ensures Filter(q, Map(f, s)) == Map(f, Filter(p, s))
  {
    if s != [] {
      FilterOfMap(f, p, q, s[1..]);
      assert Map(f, s) == [f(s[0])] + Map(f, s[1..]);
    }
  }

  lemma FilterWithout<A>(p: A -> bool, s: seq<A>, i: nat)
    requires i < |s|
    ensures multiset(Filter(p, s)) == (if p(s[i]) then multiset{s[i]} else multiset{})
        + multiset(Filter(p, Without(s, i)))
  {
    var before, after := s[..i], s[i + 1..];
    assert s == before + ([s[i]] + after);
    FilterAppend(p, before, [s[i]] + after);
    FilterAppend(p, [s[i]], after);
    FilterAppend(p, before, after);
  }

  lemma {:induction false} FilterIsOfBag<A>(p: A -> bool, s: seq<A>, t: seq<A>)
    requires multiset(s) == multiset(t)
    ensures multiset(Filter(p, s)) == multiset(Filter(p, t))
  {
    if s == [] {
      assert |t| == |multiset(t)| == 0;
    } else {
      assert s[0] in multiset(t);
      var i :| 0 <= i < |t| && t[i] == s[0];
      WithoutBag(s, 0);
      WithoutBag(t, i);
      FilterWithout(p, s, 0);
      FilterWithout(p, t, i);
      FilterIsOfBag(p, Without(s, 0), Without(t, i));
    }
  }

  lemma {:induction false} MapOfMap<A, B, C>(f: A -> B, g: B -> C, h: A -> C, s: seq<A>)
    requires forall x :: x in s ==> h(x) == g(f(x))
    ensures Map(g, Map(f, s)) == Map(h, s)
  {
  }
}
