/** Expression source text: its tokens, and the character scan that finds its dependencies. */
module ExprText {
  import opened Wrappers
  import opened Decimal
  import opened Bags

  // ---------------------------------------------------------------- characters

  predicate IsSpace(c: char) {
    c == ' ' || 9 <= c as int <= 13
  }

  predicate IsIdentStart(c: char) {
    'a' <= c <= 'z' || 'A' <= c <= 'Z' || c == '_'
  }

  predicate IsIdent(c: char) {
    IsIdentStart(c) || IsDigit(c)
  }

  predicate IsPunctuation(c: char) {
    c == '+' || c == '-' || c == '*' || c == '/' || c == '(' || c == ')' || c == ','
  }

  predicate IsComparison(c: char) {
    c == '<' || c == '>' || c == '=' || c == '!'
  }

  /** The length of the longest prefix of `s` whose characters all satisfy `p`. */
  function Span(p: char -> bool, s: string): (n: nat)
    ensures n <= |s|
    ensures forall i :: 0 <= i < n ==> p(s[i])
    ensures n < |s| ==> !p(s[n])
  {
    if s == [] || !p(s[0]) then 0 else 1 + Span(p, s[1..])
  }

  lemma {:induction false} SpanIs(p: char -> bool, s: string, n: nat)
    requires n <= |s| && (forall i :: 0 <= i < n ==> p(s[i])) && (n < |s| ==> !p(s[n]))
    ensures Span(p, s) == n
    decreases n
  {
    if n > 0 {
      assert p(s[0]);
      assert forall i :: 0 <= i < n - 1 ==> s[1..][i] == s[i + 1];
      SpanIs(p, s[1..], n - 1);
    }
  }

  // ---------------------------------------------------------------- tokens

  function Cons(tok: string, rest: Result<seq<string>, char>): Result<seq<string>, char> {
    if rest.Err? then rest else Ok([tok] + rest.value)
  }

  /** The tokens of a text, or the first character that starts none. */
  function Lex(s: string): Result<seq<string>, char>
    decreases |s|
  {
    if s == [] then Ok([])
    else
      var c := s[0];
      if IsSpace(c) then Lex(s[1..])
      else if IsDigit(c) then Cons(s[..Span(IsDigit, s)], Lex(s[Span(IsDigit, s)..]))
      else if IsIdentStart(c) then Cons(s[..Span(IsIdent, s)], Lex(s[Span(IsIdent, s)..]))
      else if IsPunctuation(c) then Cons([c], Lex(s[1..]))
      else if IsComparison(c) && |s| > 1 && s[1] == '=' then Cons(s[..2], Lex(s[2..]))
      else if c == '<' || c == '>' then Cons([c], Lex(s[1..]))
      else Err(c)
  }

  function Prepend(toks: seq<string>, r: Result<seq<string>, char>): Result<seq<string>, char> {
    if r.Err? then r else Ok(toks + r.value)
  }

  lemma PrependOne(toks: seq<string>, tok: string, r: Result<seq<string>, char>)
    ensures Prepend(toks, Cons(tok, r)) == Prepend(toks + [tok], r)
  {
    if r.Ok? {
      assert toks + ([tok] + r.value) == toks + [tok] + r.value;
    }
  }

  /** Index of the first character at or after `i` that does not continue the run. */
  method RunEnd(s: string, i: nat, p: char -> bool) returns (j: nat)
    requires i <= |s|
    ensures i <= j <= |s| && j - i == Span(p, s[i..])
    ensures s[i..j] == s[i..][..Span(p, s[i..])] && s[j..] == s[i..][Span(p, s[i..])..]
  {
    j := i;
    while j < |s| && p(s[j])
      invariant i <= j <= |s| && forall k :: i <= k < j ==> p(s[k])
    {
      j := j + 1;
    }
    SpanIs(p, s[i..], j - i);
  }

  method Tokenize(s: string) returns (r: Result<seq<string>, char>)
    ensures r == Lex(s)
  {
    var toks: seq<string> := [];
    var i := 0;
    assert s[0..] == s;
    assert Lex(s).Ok? ==> [] + Lex(s).value == Lex(s).value;
    while i < |s|
      invariant i <= |s|
      invariant Lex(s) == Prepend(toks, Lex(s[i..]))
    {
      var c := s[i];
      var rest := s[i..];
      assert rest[0] == c && rest[1..] == s[i + 1..];
      if IsSpace(c) {
        i := i + 1;
      } else if IsDigit(c) {
        var j := RunEnd(s, i, IsDigit);
        PrependOne(toks, s[i..j], Lex(s[j..]));
        toks, i := toks + [s[i..j]], j;
      } else if IsIdentStart(c) {
        var j := RunEnd(s, i, IsIdent);
        PrependOne(toks, s[i..j], Lex(s[j..]));
        toks, i := toks + [s[i..j]], j;
      } else if IsPunctuation(c) {
        PrependOne(toks, [c], Lex(s[i + 1..]));
        toks, i := toks + [[c]], i + 1;
      } else if IsComparison(c) {
        if i + 1 < |s| && s[i + 1] == '=' {
          assert rest[2..] == s[i + 2..] && rest[..2] == s[i..i + 2];
          PrependOne(toks, s[i..i + 2], Lex(s[i + 2..]));
          toks, i := toks + [s[i..i + 2]], i + 2;
        } else if c == '<' || c == '>' {
          PrependOne(toks, [c], Lex(s[i + 1..]));
          toks, i := toks + [[c]], i + 1;
        } else {
          return Err(c);
        }
      } else {
        return Err(c);
      }
    }
    assert s[i..] == [] && toks + [] == toks;
    r := Ok(toks);
  }

  // ---------------------------------------------------------------- dependencies

  /** An opening parenthesis comes next, spaces aside. */
  predicate OpensNext(s: string) {
    var n := Span(IsSpace, s);
    n < |s| && s[n] == '('
  }

  /** The identifiers that are not called, with repetitions, in text order. */
  function ScanNames(s: string): seq<string>
    decreases |s|
  {
    if s == [] then []
    else if IsIdentStart(s[0]) then
      var n := Span(IsIdent, s);
      (if OpensNext(s[n..]) then [] else [s[..n]]) + ScanNames(s[n..])
    else ScanNames(s[1..])
  }

  /** `xs` added to `seen` one by one, leaving out what is already there. */
  function AddNew(seen: seq<string>, xs: seq<string>): seq<string>
    decreases |xs|
  {
    if xs == [] then seen
    else AddNew(if xs[0] in seen then seen else seen + [xs[0]], xs[1..])
  }

  /** The elements of `xs` in order of first appearance. */
  function FirstSeen(xs: seq<string>): seq<string> {
    AddNew([], xs)
  }

  method ComputeDeps(s: string) returns (out: seq<string>)
    ensures out == FirstSeen(ScanNames(s))
  {
    out := [];
    var i := 0;
    assert s[0..] == s;
    while i < |s|
      invariant i <= |s|
      invariant FirstSeen(ScanNames(s)) == AddNew(out, ScanNames(s[i..]))
    {
      assert s[i..][0] == s[i] && s[i..][1..] == s[i + 1..];
      if IsIdentStart(s[i]) {
        var j := RunEnd(s, i, IsIdent);
        var name := s[i..j];
        var k := RunEnd(s, j, IsSpace);
        var isCall := k < |s| && s[k] == '(';
        assert isCall <==> OpensNext(s[j..]);
        var rest := ScanNames(s[j..]);
        assert ([name] + rest)[1..] == rest;
        assert [] + rest == rest;
        if !isCall && name !in out {
          out := out + [name];
        }
        i := j;
      } else {
        i := i + 1;
      }
    }
  }

  // ---------------------------------------------------------------- the scan reads the tokens

  predicate IsName(tok: string) {
    tok != "" && IsIdentStart(tok[0])
  }

  predicate OpensCall(toks: seq<string>) {
    toks != [] && toks[0] == "("
  }

  /** The name tokens that no opening parenthesis follows. */
  function TokenNames(toks: seq<string>): seq<string> {
    if toks == [] then []
    else (if IsName(toks[0]) && !OpensCall(toks[1..]) then [toks[0]] else []) + TokenNames(toks[1..])
  }

  lemma {:induction false} OpensNextIsToken(s: string)
    requires Lex(s).Ok?
    ensures OpensNext(s) <==> OpensCall(Lex(s).value)
    decreases |s|
  {
    if s != [] && IsSpace(s[0]) {
      OpensNextIsToken(s[1..]);
      var n := Span(IsSpace, s);
      assert n == 1 + Span(IsSpace, s[1..]);
    } else if s != [] {
      assert Span(IsSpace, s) == 0;
      FirstToken(s);
    }
  }

  lemma FirstToken(s: string)
    requires s != [] && !IsSpace(s[0]) && Lex(s).Ok?
    ensures var toks := Lex(s).value; toks != [] && toks[0] != "" && toks[0][0] == s[0]
    ensures OpensCall(Lex(s).value) <==> s[0] == '('
  {
    if IsDigit(s[0]) {
      assert Span(IsDigit, s) > 0;
    } else if IsIdentStart(s[0]) {
      assert Span(IsIdent, s) > 0;
    }
  }

  lemma {:induction false} NoNamesIn(s: string, n: nat)
    requires n <= |s| && forall i :: 0 <= i < n ==> !IsIdentStart(s[i])
    ensures ScanNames(s) == ScanNames(s[n..])
    decreases n
  {
    if n == 0 {
      assert s[0..] == s;
    } else {
      NoNamesIn(s[1..], n - 1);
      assert s[1..][n - 1..] == s[n..];
    }
  }

  lemma ConsNames(tok: string, rest: seq<string>)
    ensures TokenNames([tok] + rest) == (if IsName(tok) && !OpensCall(rest) then [tok] else []) + TokenNames(rest)
  {
    assert ([tok] + rest)[1..] == rest;
  }

  /** On every text that has tokens, the character scan finds exactly the uncalled names among them. */
  lemma {:induction false} ScanReadsTokens(s: string)
    requires Lex(s).Ok?
    ensures ScanNames(s) == TokenNames(Lex(s).value)
    decreases |s|
  {
    if s != [] {
      var c := s[0];
      if IsSpace(c) {
        ScanReadsTokens(s[1..]);
      } else if IsDigit(c) {
        var n := Span(IsDigit, s);
        assert n > 0;
        NoNamesIn(s, n);
        ScanReadsTokens(s[n..]);
        ConsNames(s[..n], Lex(s[n..]).value);
      } else if IsIdentStart(c) {
        var n := Span(IsIdent, s);
        assert n > 0;
        ScanReadsTokens(s[n..]);
        OpensNextIsToken(s[n..]);
        ConsNames(s[..n], Lex(s[n..]).value);
      } else if IsPunctuation(c) {
        ScanReadsTokens(s[1..]);
        ConsNames([c], Lex(s[1..]).value);
      } else if |s| > 1 && s[1] == '=' {
        NoNamesIn(s, 2);
        ScanReadsTokens(s[2..]);
        ConsNames(s[..2], Lex(s[2..]).value);
      } else {
        ScanReadsTokens(s[1..]);
        ConsNames([c], Lex(s[1..]).value);
      }
    }
  }

  // ---------------------------------------------------------------- first appearances

  lemma {:induction false} AddNewHolds(seen: seq<string>, xs: seq<string>, x: string)
    ensures x in AddNew(seen, xs) <==> x in seen || x in xs
    decreases |xs|
  {
    if xs != [] {
      var next := if xs[0] in seen then seen else seen + [xs[0]];
      AddNewHolds(next, xs[1..], x);
      assert x in xs <==> x == xs[0] || x in xs[1..];
    }
  }

  lemma {:induction false} AddNewStaysDistinct(seen: seq<string>, xs: seq<string>)
    requires Distinct(seen)
    ensures Distinct(AddNew(seen, xs))
    decreases |xs|
  {
    if xs != [] {
      AddNewStaysDistinct(if xs[0] in seen then seen else seen + [xs[0]], xs[1..]);
    }
  }
}
