/**
 What the provenance check is worth: exactly when an accepted attribute has the structure that its
 source text parses to, and an accepted attribute that has not.
 */
module Provenance {
  import opened Wrappers
  import opened Decimal
  import opened ValueModel
  import opened Expr
  import opened ExprText
  import opened ExprParser
  import opened ExprGrammar
  import opened ExprNames
  import opened Typing
  import opened ExprAttr
  import opened Frontend

  // ---------------------------------------------------------------- names decide safety

  ghost predicate AllClean(names: seq<string>) {
    forall x :: x in names ==> Clean(x)
  }

  lemma AllCleanAppend(xs: seq<string>, ys: seq<string>)
    ensures AllClean(xs + ys) <==> AllClean(xs) && AllClean(ys)
  {
    hide Clean;
    assert forall x :: x in xs + ys <==> x in xs || x in ys;
  }

  /** Known operators and the two known callees. */
  predicate Known(n: ExprNode) {
    match n
    case Num(_, _) => true
    case Var(_, _) => true
    case Bin(op, l, r, _) => IsBinOp(op) && Known(l) && Known(r)
    case Cmp(name, l, r, _) => IsCmpOp(name) && Known(l) && Known(r)
    case Call(name, args, _) => (name == "round" || name == "accepted") && AllKnown(args)
  }

  predicate AllKnown(args: seq<ExprNode>) {
    args == [] || (Known(args[0]) && AllKnown(args[1..]))
  }

  /** A tree over the known vocabulary is safe exactly when its variables are clean. */
  lemma {:induction false} KnownIsSafeByNames(n: ExprNode)
    requires Known(n)
    ensures KeySafe(n) <==> AllClean(Occurrences(n))
    decreases n
  {
    hide AllClean, IsCmpOp, IsBinOp;
    match n
    case Num(_, _) =>
      OneName("");
    case Var(name, _) =>
      OneName(name);
    case Bin(_, l, r, _) =>
      KnownIsSafeByNames(l);
      KnownIsSafeByNames(r);
      AllCleanAppend(Occurrences(l), Occurrences(r));
    case Cmp(_, l, r, _) =>
      KnownIsSafeByNames(l);
      KnownIsSafeByNames(r);
      AllCleanAppend(Occurrences(l), Occurrences(r));
    case Call(name, args, _) =>
      AllKnownAreSafeByNames(args);
      KnownCallee(name);
  }

  lemma OneName(name: string)
    ensures AllClean([name]) <==> Clean(name)
    ensures AllClean([])
  {
    assert name in [name];
  }

  lemma KnownCallee(name: string)
    requires name == "round" || name == "accepted"
    ensures Clean(name) && !IsCmpOp(name) && |name| != 1
  {
  }

  lemma {:induction false} AllKnownAreSafeByNames(args: seq<ExprNode>)
    requires AllKnown(args)
    ensures AllKeySafe(args) <==> AllClean(OccurrencesAll(args))
    decreases args
  {
    if args != [] {
      KnownIsSafeByNames(args[0]);
      AllKnownAreSafeByNames(args[1..]);
      hide KeySafe, Known, AllClean;
      AllCleanAppend(Occurrences(args[0]), OccurrencesAll(args[1..]));
    }
  }

  // ---------------------------------------------------------------- what typing leaves

  /** A canonical attribute that types without fault is over the known vocabulary. */
  lemma {:induction false} TypedIsKnown(a: Attr, deps: seq<string>, env: Cats)
    requires Canonical(a) && TypeExpr(ToNode(a, deps), env).fault.None?
    ensures Known(ToNode(a, deps))
    decreases a
  {
    var n := ToNode(a, deps);
    if n.Bin? {
      TypedIsKnown(a.children[0], deps, env);
      TypedIsKnown(a.children[1], deps, env);
    } else if n.Call? {
      AllTypedAreKnown(a.children, deps, env);
    }
  }

  lemma {:induction false} AllTypedAreKnown(children: seq<Attr>, deps: seq<string>, env: Cats)
    requires forall i :: 0 <= i < |children| ==> Canonical(children[i])
    requires TypeArgs(ToNodes(children, deps), env).fault.None?
    ensures AllKnown(ToNodes(children, deps))
    decreases children
  {
    if children != [] {
      var nodes := ToNodes(children, deps);
      assert nodes[0] == ToNode(children[0], deps) && nodes[1..] == ToNodes(children[1..], deps);
      TypedIsKnown(children[0], deps, env);
      AllTypedAreKnown(children[1..], deps, env);
    }
  }

  lemma InferredIsKnown(a: Attr, deps: seq<string>, env: Cats, guard: bool)
    requires Canonical(a) && Infer(ToNode(a, deps), env, guard).fault.None?
    ensures Known(ToNode(a, deps))
  {
    var n := ToNode(a, deps);
    if !guard {
      TypedIsKnown(a, deps, env);
    } else if n.Cmp? {
      hide AllDeclared, TypeExpr;
      TypedIsKnown(a.children[0], deps, env);
      TypedIsKnown(a.children[1], deps, env);
    } else {
      OneVariableIsKnown(n.args);
    }
  }

  /** Inference accepts as guards only comparisons and accepted() on one variable. */
  lemma InferredGuardHasForm(a: Attr, deps: seq<string>, env: Cats)
    requires Canonical(a) && Infer(ToNode(a, deps), env, true).fault.None?
    ensures GuardForm(ToNode(a, deps)) && GuardForm(Infer(ToNode(a, deps), env, true).node)
  {
    hide AllDeclared, TypeExpr, ToNodes;
    InferredIsKnown(a, deps, env, true);
  }

  lemma OneVariableIsKnown(args: seq<ExprNode>)
    requires |args| == 1 && args[0].Var?
    ensures AllKnown(args)
  {
    assert args[1..] == [];
  }

  // ---------------------------------------------------------------- the names an attribute reads

  function NamesAt(deps: seq<string>, slots: seq<int>): seq<string> {
    if slots == [] then [] else [DepName(deps, slots[0])] + NamesAt(deps, slots[1..])
  }

  lemma {:induction false} NamesAtAppend(deps: seq<string>, a: seq<int>, b: seq<int>)
    ensures NamesAt(deps, a + b) == NamesAt(deps, a) + NamesAt(deps, b)
  {
    if a == [] {
      assert a + b == b;
    } else {
      assert (a + b)[1..] == a[1..] + b;
      NamesAtAppend(deps, a[1..], b);
    }
  }

  lemma {:induction false} DecodedNames(a: Attr, deps: seq<string>)
    requires Canonical(a)
    ensures Occurrences(ToNode(a, deps)) == NamesAt(deps, CollectSlots(a))
    decreases a, 1
  {
    NodeFields(a);
    hide VerifyNode, CategoryFromName, CategoryName, DepName, NamesAt, CollectSlots, ToNode, ToNodes, Occurrences;
    if a.kind == "var" || a.kind == "num" {
      LeafNames(a, deps);
    } else if a.kind == "call" {
      AllDecodedNames(a.children, deps);
      CallNames(a, deps);
    } else {
      DecodedNames(a.children[0], deps);
      DecodedNames(a.children[1], deps);
      PairNames(a, deps);
    }
  }

  lemma CallNames(a: Attr, deps: seq<string>)
    requires Canonical(a) && a.kind == "call"
    ensures Occurrences(ToNode(a, deps)) == OccurrencesAll(ToNodes(a.children, deps))
    ensures CollectSlots(a) == CollectAll(a.children)
  {
    hide VerifyNode, CategoryFromName, CategoryName, DepName;
  }

  lemma LeafNames(a: Attr, deps: seq<string>)
    requires Canonical(a) && (a.kind == "var" || a.kind == "num")
    ensures Occurrences(ToNode(a, deps)) == NamesAt(deps, CollectSlots(a))
  {
    NodeFields(a);
    hide CategoryFromName, CategoryName, DepName, VerifyNode;
    assert CollectAll(a.children) == [];
    if a.kind == "var" {
      assert CollectSlots(a) == [a.slot as int] && [a.slot as int][1..] == [];
    }
  }

  lemma PairOccurs(a: Attr, deps: seq<string>)
    requires Canonical(a) && (a.kind == "bin" || a.kind == "cmp") && |a.children| == 2
    ensures Occurrences(ToNode(a, deps))
         == Occurrences(ToNode(a.children[0], deps)) + Occurrences(ToNode(a.children[1], deps))
    ensures CollectSlots(a) == CollectSlots(a.children[0]) + CollectSlots(a.children[1])
  {
    NodeFields(a);
    PairSlots(a.children[0], a.children[1]);
    assert CollectSlots(a) == CollectSlots(a.children[0]) + CollectSlots(a.children[1]);
    hide CategoryFromName, CategoryName, DepName, VerifyNode, CollectSlots;
  }

  lemma PairNames(a: Attr, deps: seq<string>)
    requires Canonical(a) && (a.kind == "bin" || a.kind == "cmp") && |a.children| == 2
    requires forall i :: 0 <= i < 2 ==>
      Occurrences(ToNode(a.children[i], deps)) == NamesAt(deps, CollectSlots(a.children[i]))
    ensures Occurrences(ToNode(a, deps)) == NamesAt(deps, CollectSlots(a))
  {
    var l, r := a.children[0], a.children[1];
    hide *;
    PairOccurs(a, deps);
    NamesAtAppend(deps, CollectSlots(l), CollectSlots(r));
  }

  lemma {:induction false} AllDecodedNames(children: seq<Attr>, deps: seq<string>)
    requires forall i :: 0 <= i < |children| ==> Canonical(children[i])
    ensures OccurrencesAll(ToNodes(children, deps)) == NamesAt(deps, CollectAll(children))
    decreases children, 0
  {
    if children != [] {
      var nodes := ToNodes(children, deps);
      assert nodes[0] == ToNode(children[0], deps) && nodes[1..] == ToNodes(children[1..], deps);
      DecodedNames(children[0], deps);
      AllDecodedNames(children[1..], deps);
      NamesAtAppend(deps, CollectSlots(children[0]), CollectAll(children[1..]));
    }
  }

  lemma {:induction false} NamesAtHolds(deps: seq<string>, slots: seq<int>)
    ensures AllClean(NamesAt(deps, slots)) <==> forall s :: s in slots ==> Clean(DepName(deps, s))
  {
    if slots != [] {
      NamesAtHolds(deps, slots[1..]);
      AllCleanAppend([DepName(deps, slots[0])], NamesAt(deps, slots[1..]));
      hide Clean, DepName;
      assert slots == [slots[0]] + slots[1..];
      assert DepName(deps, slots[0]) in [DepName(deps, slots[0])];
    }
  }

  /** In a bound attribute the names read are the dependencies. */
  lemma BoundNames(a: Attr, deps: seq<string>)
    requires Canonical(a) && Bound(a, deps)
    ensures AllClean(Occurrences(ToNode(a, deps))) <==> AllClean(deps)
  {
    DecodedNames(a, deps);
    NamesAtHolds(deps, CollectSlots(a));
    hide Clean, CollectSlots, ToNode;
    if AllClean(deps) {
      forall s | s in CollectSlots(a) ensures Clean(DepName(deps, s)) {
        assert deps[s] in deps;
      }
    }
    if forall s :: s in CollectSlots(a) ==> Clean(DepName(deps, s)) {
      forall x | x in deps ensures Clean(x) {
        var i :| 0 <= i < |deps| && deps[i] == x;
        assert i in CollectSlots(a) && DepName(deps, i) == x;
      }
    }
  }

  /**
   What the provenance check is for, exactly: an accepted attribute has the structure its text
   parses to if and only if no dependency is named with a space or a closing parenthesis.
   */
  lemma AcceptedIsItsTextExactly(a: Attr, deps: seq<string>, text: string, env: Cats, guard: bool)
    requires Canonical(a) && Accepts(a, deps, text, env, guard)
    ensures SameShape(Parse(text, guard).value, ToNode(a, deps)) <==> AllClean(deps)
  {
    hide Parse, Infer, Bound, Canonical, ToNode, GuardKey, KeySafe, AllClean, Known, CarriesTypes;
    ParsedIsKeySafe(text, guard);
    SharedKeyExactly(Parse(text, guard).value, ToNode(a, deps));
    InferredIsKnown(a, deps, env, guard);
    KnownIsSafeByNames(ToNode(a, deps));
    BoundNames(a, deps);
  }

  // ---------------------------------------------------------------- two guards with one key

  /** `round` of a variable to two places. */
  function Rounded(x: string, d: Category): ExprNode {
    Call("round", [Var(x, d), Num(2, d)], d)
  }

  /** `round` of a variable. */
  function Whole(x: string, d: Category): ExprNode {
    Call("round", [Var(x, d)], d)
  }

  function Positive(n: ExprNode, d: Category): ExprNode {
    Cmp(">", n, Num(0, d), Extension)
  }

  lemma PositiveKey(a: ExprNode, b: ExprNode, d: Category)
    requires GuardKey(a) == GuardKey(b)
    ensures GuardKey(Positive(a, d)) == GuardKey(Positive(b, d))
  {
  }

  lemma PositiveShape(a: ExprNode, b: ExprNode, c: Category, d: Category)
    ensures SameShape(Positive(a, c), Positive(b, d)) <==> SameShape(a, b)
  {
  }

  lemma RoundedShape(x: string, c: Category, d: Category)
    ensures SameShape(Rounded(x, c), Rounded(x, d))
  {
    var a, b := [Var(x, c), Num(2, c)], [Var(x, d), Num(2, d)];
    assert a[1..] == [Num(2, c)] && b[1..] == [Num(2, d)] && a[1..][1..] == [] && b[1..][1..] == [];
    assert SameShapes(a[1..][1..], b[1..][1..]);
    assert SameShapes(a[1..], b[1..]);
  }

  const ALIAS: string := "x #2"

  /** What a text says, and what an attribute with a dependency named `ALIAS` says under the same key. */
  const FINE: ExprNode := Positive(Rounded("x", Decimal), Decimal)
  const COARSE: ExprNode := Positive(Whole(ALIAS, Decimal), Decimal)

  lemma KeysCollide()
    ensures GuardKey(FINE) == GuardKey(COARSE) && !SameShape(FINE, COARSE)
  {
    GuardKeyCollides(Decimal);
    hide GuardKey, SameShape;
    PositiveKey(Rounded("x", Decimal), Whole(ALIAS, Decimal), Decimal);
    PositiveShape(Rounded("x", Decimal), Whole(ALIAS, Decimal), Decimal, Decimal);
  }

  // ---------------------------------------------------------------- an accepted attribute that means something else

  const TEXT: string := "round(x, 2) > 0"
  lemma LexWord(word: string, rest: string)
    requires word != [] && IsIdentStart(word[0]) && forall i :: 0 <= i < |word| ==> IsIdent(word[i])
    requires rest != [] && !IsIdent(rest[0])
    ensures Lex(word + rest) == Cons(word, Lex(rest))
  {
    var s := word + rest;
    assert s[|word|] == rest[0] && s[..|word|] == word && s[|word|..] == rest;
    SpanIs(IsIdent, s, |word|);
  }

  lemma LexMark(c: char, rest: string)
    requires IsPunctuation(c)
    ensures Lex([c] + rest) == Cons([c], Lex(rest))
  {
    assert ([c] + rest)[1..] == rest;
  }

  lemma LexSpace(rest: string)
    ensures Lex(" " + rest) == Lex(rest)
  {
    assert (" " + rest)[1..] == rest;
  }

  lemma LexDigit(c: char, rest: string)
    requires IsDigit(c) && rest != [] && !IsDigit(rest[0])
    ensures Lex([c] + rest) == Cons([c], Lex(rest))
  {
    var s := [c] + rest;
    assert s[1] == rest[0] && s[..1] == [c] && s[1..] == rest;
    SpanIs(IsDigit, s, 1);
  }

  lemma ParenIsMark()
    ensures IsPunctuation('(') && !IsIdent('(') && IsPunctuation(')') && !IsDigit(')')
    ensures IsPunctuation(',') && !IsIdent(',')
  {
  }

  lemma ConsOk(tok: string, toks: seq<string>)
    ensures Cons(tok, Ok(toks)) == Ok([tok] + toks)
  {
  }

  /** A call of a name and a digit, with one space after the comma, lexes to its six tokens. */
  lemma CallLexes(callee: string, x: string, c: char, rest: string, more: seq<string>)
    requires callee != [] && IsIdentStart(callee[0]) && forall i :: 0 <= i < |callee| ==> IsIdent(callee[i])
    requires x != [] && IsIdentStart(x[0]) && forall i :: 0 <= i < |x| ==> IsIdent(x[i])
    requires IsDigit(c) && Lex(rest) == Ok(more)
    ensures Lex(callee + (['('] + (x + ([','] + (" " + ([c] + ([')'] + rest)))))))
        == Ok([callee] + ([['(']] + ([x] + ([[',']] + ([[c]] + ([[')']] + more))))))
  {
    var s2 := x + ([','] + (" " + ([c] + ([')'] + rest))));
    var toks := [x] + ([[',']] + ([[c]] + ([[')']] + more)));
    hide *;
    ArgumentsLex(x, c, rest, more);
    ParenIsMark();
    LexMark('(', s2);
    LexWord(callee, ['('] + s2);
    ConsOk(['('], toks);
    ConsOk(callee, [['(']] + toks);
  }

  lemma ArgumentsLex(x: string, c: char, rest: string, more: seq<string>)
    requires x != [] && IsIdentStart(x[0]) && (forall i :: 0 <= i < |x| ==> IsIdent(x[i])) && IsDigit(c)
    requires Lex(rest) == Ok(more)
    ensures Lex(x + ([','] + (" " + ([c] + ([')'] + rest)))))
        == Ok([x] + ([[',']] + ([[c]] + ([[')']] + more))))
  {
    hide *;
    var last := [c] + ([')'] + rest);
    ParenIsMark();
    DigitLexes(c, rest, more);
    LexSpace(last);
    LexMark(',', " " + last);
    ConsOk([','], [[c]] + ([[')']] + more));
    LexWord(x, [','] + (" " + last));
    ConsOk(x, [[',']] + ([[c]] + ([[')']] + more)));
  }

  lemma DigitLexes(c: char, rest: string, more: seq<string>)
    requires IsDigit(c) && Lex(rest) == Ok(more)
    ensures Lex([c] + ([')'] + rest)) == Ok([[c]] + ([[')']] + more))
  {
    hide *;
    ParenIsMark();
    LexMark(')', rest);
    LexDigit(c, [')'] + rest);
    ConsOk([')'], more);
    ConsOk([c], [[')']] + more);
  }

  lemma ComparisonLexes(c: char)
    requires IsDigit(c)
    ensures Lex(" " + (['>'] + (" " + [c]))) == Ok([['>']] + [[c]])
  {
    var last := " " + [c];
    assert IsDigit(c) && last[0] == ' ';
    hide IsDigit, Lex;
    LexGreater(last);
    LexSpace(['>'] + last);
    LexSpace([c]);
    LexLast(c);
    ConsOk(['>'], [[c]]);
  }

  lemma LexGreater(rest: string)
    requires rest != [] && rest[0] != '='
    ensures Lex(['>'] + rest) == Cons(['>'], Lex(rest))
  {
    assert (['>'] + rest)[1..] == rest && (['>'] + rest)[1] == rest[0];
  }

  lemma LexLast(c: char)
    requires IsDigit(c)
    ensures Lex([c]) == Ok([[c]])
  {
    SpanIs(IsDigit, [c], 1);
    assert [c][..1] == [c] && [c][1..] == [];
    LexNothing();
    ConsOk([c], []);
    assert [[c]] + [] == [[c]];
    assert Lex([c]) == Cons([c], Lex([]));
  }

  /** The tokens of the text. */
  function Tokens(): seq<string> {
    ["round", "("] + (["x"] + [","] + ["2"]) + [")"] + ([">"] + ["0"])
  }

  lemma TextIs(rest: string)
    ensures "round" + (['('] + ("x" + ([','] + (" " + (['2'] + ([')'] + rest)))))) == "round(x, 2)" + rest
    ensures "round(x, 2)" + (" " + (['>'] + (" " + ['0']))) == TEXT
  {
  }

  lemma TokensAre(more: seq<string>)
    requires more == [['>']] + [['0']]
    ensures Tokens() == ["round"] + ([['(']] + (["x"] + ([[',']] + ([['2']] + ([[')']] + more)))))
  {
  }

  lemma WordsAreWords()
    ensures "round" != [] && IsIdentStart("round"[0]) && forall i :: 0 <= i < |"round"| ==> IsIdent("round"[i])
    ensures "x" != [] && IsIdentStart("x"[0]) && forall i :: 0 <= i < |"x"| ==> IsIdent("x"[i])
    ensures IsDigit('2') && IsDigit('0')
  {
  }

  lemma RoundLexes()
    ensures Lex(TEXT) == Ok(Tokens())
  {
    var rest, more := " " + (['>'] + (" " + ['0'])), [['>']] + [['0']];
    hide *;
    WordsAreWords();
    ComparisonLexes('0');
    CallLexes("round", "x", '2', rest, more);
    TextIs(rest);
    TokensAre(more);
  }

  lemma LexNothing()
    ensures Lex("") == Ok([])
  {
  }

  lemma DigitParses(i: I64, text: string)
    requires 0 <= i < 10 && text == [DigitChar(i)]
    ensures ParseI64(text) == Some(i) && IsNumber(text)
  {
    TextParses(i);
    assert ToText(i) == text;
  }

  lemma NamesAreNames()
    ensures IsName("round") && IsName("x")
  {
  }

  /** A call of two factors is a sum of the grammar, spelled and meant as one would think. */
  lemma CallOfTwo(callee: string, l: Source, r: Source)
    requires IsName(callee) && IsFactor(l) && IsFactor(r) && !l.Infix? && !r.Infix?
    ensures var c := Apply(callee, [l, r]);
      && IsSum(c) && Tree(c) == Call(callee, [Tree(l), Tree(r)], Extension)
      && Spell(c) == [callee, "("] + (Spell(l) + [","] + Spell(r)) + [")"]
  {
    Levels(l);
    Levels(r);
    hide IsName, IsNumber, ParseI64, IsSum, IsProduct;
    assert forall i :: 0 <= i < |[l, r]| ==> IsSum([l, r][i]);
    assert IsFactor(Apply(callee, [l, r]));
    Levels(Apply(callee, [l, r]));
    assert [l, r][1..] == [r] && [r][1..] == [];
    assert SpellArgs([r]) == Spell(r);
    assert Trees([r]) == [Tree(r)] + Trees([]);
  }

  lemma LeavesMean(x: string, text: string, i: I64)
    requires IsName(x) && IsNumber(text) && ParseI64(text) == Some(i)
    ensures IsFactor(Name(x)) && Tree(Name(x)) == Var(x, Extension) && Spell(Name(x)) == [x]
    ensures IsFactor(Number(text)) && Tree(Number(text)) == Num(i, Extension) && Spell(Number(text)) == [text]
  {
    hide ParseI64, IsNumber, IsName;
  }

  lemma ComparisonParses(l: Source, r: Source)
    requires IsSum(l) && IsSum(r) && Lex(TEXT) == Ok(Spell(l) + ([">"] + Spell(r)))
    ensures Parse(TEXT, true) == Ok(Cmp(">", Tree(l), Tree(r), Extension))
  {
    var toks, n := Spell(l) + ([">"] + Spell(r)), Cmp(">", Tree(l), Tree(r), Extension);
    assert IsCmpOp(">");
    hide Lex, ParseGuardTokens, Spell, Tree, IsSum, IsCmpOp, TEXT;
    assert SpellsGuard(toks, n);
    GuardTokensExactly(toks, n);
  }

  /** The text compares a call of `round` with two arguments. */
  lemma RoundParses()
    ensures Parse(TEXT, true) == Ok(Positive(Rounded("x", Extension), Extension))
  {
    var l, r, zero := Name("x"), Number("2"), Number("0");
    var call := Apply("round", [l, r]);
    RoundLexes();
    DigitParses(2, "2");
    DigitParses(0, "0");
    NamesAreNames();
    LeavesMean("x", "2", 2);
    LeavesMean("x", "0", 0);
    assert Tokens() == ["round", "("] + (["x"] + [","] + ["2"]) + [")"] + ([">"] + ["0"]);
    assert Positive(Rounded("x", Extension), Extension)
        == Cmp(">", Call("round", [Var("x", Extension), Num(2, Extension)], Extension), Num(0, Extension), Extension);
    assert !l.Infix? && !r.Infix?;
    hide *;
    CallOfTwo("round", l, r);
    Levels(zero);
    ComparisonParses(call, zero);
  }

  /** `round` of the one variable in slot 0. */
  function Aliased(): Attr {
    Attr("call", "decimal", 0, -1, "round", "", [Attr("var", "decimal", 0, 0, "", "", [])])
  }

  /** That it is positive. */
  function Aliasing(): Attr {
    Attr("cmp", "extension", 0, -1, ">", "", [Aliased(), Attr("num", "decimal", 0, -1, "", "", [])])
  }

  lemma AliasedIsCanonical()
    ensures Canonical(Aliased()) && CollectSlots(Aliased()) == [0]
  {
    var a, child := Aliased(), Attr("var", "decimal", 0, 0, "", "", []);
    assert Canonical(child);
    assert a.children == [child] && a.children[1..] == [];
    assert CollectAll([]) == [];
    assert CollectSlots(child) == [0];
    assert CollectAll([child]) == [0];
  }

  lemma AliasingIsCanonical()
    ensures Canonical(Aliasing()) && Bound(Aliasing(), [ALIAS])
  {
    var zero := Attr("num", "decimal", 0, -1, "", "", []);
    AliasedIsCanonical();
    hide Aliased;
    assert Canonical(zero) && CollectSlots(zero) == [] by {
      assert CollectAll([]) == [];
    }
    var children := [Aliased(), zero];
    assert children[1..] == [zero] && children[1..][1..] == [] && CollectAll([]) == [];
    assert CollectAll([zero]) == [] && CollectAll(children) == [0];
    assert CollectSlots(Aliasing()) == [0];
  }

  lemma AliasedReads()
    requires Canonical(Aliased())
    ensures ToNode(Aliased(), [ALIAS]) == Whole(ALIAS, Decimal)
  {
    var child := Attr("var", "decimal", 0, 0, "", "", []);
    assert Aliased().children == [child] && [child][1..] == [];
    assert Canonical(child);
    assert CategoryFromName("decimal") == Decimal;
    hide VerifyNode, CategoryName;
    assert ToNode(child, [ALIAS]) == Var(ALIAS, Decimal);
    assert ToNodes([child], [ALIAS]) == [Var(ALIAS, Decimal)];
  }

  lemma AliasingReads()
    requires Canonical(Aliasing())
    ensures ToNode(Aliasing(), [ALIAS]) == COARSE
  {
    var zero := Attr("num", "decimal", 0, -1, "", "", []);
    AliasedIsCanonical();
    AliasedReads();
    assert Canonical(zero);
    assert CategoryFromName("decimal") == Decimal && CategoryFromName("extension") == Extension;
    hide VerifyNode, CategoryName, Aliased, CategoryFromName, Whole;
    assert ToNode(zero, [ALIAS]) == Num(0, CategoryFromName("decimal"));
  }

  lemma WholeTypes(x: string, cats: Cats)
    requires x in cats && cats[x] == Decimal
    ensures TypeExpr(Whole(x, Decimal), cats) == Typed(Whole(x, Decimal), None)
    ensures ExprVars(Whole(x, Decimal)) == [x]
  {
    var args := [Var(x, Decimal)];
    assert args[1..] == [];
    assert TypeArgs([], cats) == TypedArgs([], None);
    assert TypeArgs(args, cats) == TypedArgs(args, None);
    assert [] + [x] == [x] && WalkAll([], [x]) == [x] && WalkAll(args, []) == [x];
  }

  lemma AliasingTypes()
    ensures Infer(COARSE, map[ALIAS := Decimal], true) == Typed(COARSE, None)
    ensures CarriesTypes(Aliasing(), COARSE)
  {
    var cats := map[ALIAS := Decimal];
    WholeTypes(ALIAS, cats);
  }

  /**
   The verifier takes, for the text of a guard, one of another structure, whose dependency is named
   with a space.
   */
  lemma VerifierTakesAnAlias()
    ensures Canonical(Aliasing()) && Accepts(Aliasing(), [ALIAS], TEXT, map[ALIAS := Decimal], true)
    ensures ToNode(Aliasing(), [ALIAS]) == COARSE && !SameShape(FINE, COARSE)
    ensures SameShape(Parse(TEXT, true).value, FINE)
  {
    var says := Positive(Rounded("x", Extension), Extension);
    RoundParses();
    AliasingIsCanonical();
    AliasingReads();
    AliasingTypes();
    KeysCollide();
    hide Canonical, ToNode, Bound, Parse, Infer, CarriesTypes, Aliasing, TEXT, ALIAS, FINE, COARSE, GuardKey, SameShape;
    SaysFine();
    SameShapeSameKey(says, FINE);
  }

  lemma SaysFine()
    ensures SameShape(Positive(Rounded("x", Extension), Extension), FINE)
  {
    hide SameShape;
    RoundedShape("x", Extension, Decimal);
    PositiveShape(Rounded("x", Extension), Rounded("x", Decimal), Extension, Decimal);
  }
}
