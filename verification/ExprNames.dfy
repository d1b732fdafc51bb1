/** The variables of a parsed tree: the character scan finds them, and its names make guard keys trustworthy. */
module ExprNames {
  import opened Decimal
  import opened ValueModel
  import opened Expr
  import opened ExprText
  import opened ExprParser
  import opened ExprGrammar

  /** The variable leaves of a tree, left to right, with repetitions. */
  function Occurrences(n: ExprNode): seq<string> {
    match n
    case Num(_, _) => []
    case Var(name, _) => [name]
    case Bin(_, l, r, _) => Occurrences(l) + Occurrences(r)
    case Cmp(_, l, r, _) => Occurrences(l) + Occurrences(r)
    case Call(_, args, _) => OccurrencesAll(args)
  }

  function OccurrencesAll(args: seq<ExprNode>): seq<string> {
    if args == [] then [] else Occurrences(args[0]) + OccurrencesAll(args[1..])
  }

  /** The walk of `exprVars`, adding each new name to `seen`. */
  function Walk(n: ExprNode, seen: seq<string>): seq<string> {
    match n
    case Num(_, _) => seen
    case Var(name, _) => if name in seen then seen else seen + [name]
    case Bin(_, l, r, _) => Walk(r, Walk(l, seen))
    case Cmp(_, l, r, _) => Walk(r, Walk(l, seen))
    case Call(_, args, _) => WalkAll(args, seen)
  }

  function WalkAll(args: seq<ExprNode>, seen: seq<string>): seq<string> {
    if args == [] then seen else WalkAll(args[1..], Walk(args[0], seen))
  }

  function ExprVars(n: ExprNode): seq<string> {
    Walk(n, [])
  }

  lemma {:induction false} AddNewAppend(seen: seq<string>, xs: seq<string>, ys: seq<string>)
    ensures AddNew(seen, xs + ys) == AddNew(AddNew(seen, xs), ys)
    decreases |xs|
  {
    if xs == [] {
      assert xs + ys == ys;
    } else {
      assert (xs + ys)[1..] == xs[1..] + ys;
      AddNewAppend(if xs[0] in seen then seen else seen + [xs[0]], xs[1..], ys);
    }
  }

  lemma {:induction false} WalkAddsNew(n: ExprNode, seen: seq<string>)
    ensures Walk(n, seen) == AddNew(seen, Occurrences(n))
    decreases n
  {
    match n
    case Num(_, _) =>
    case Var(name, _) => assert [name][1..] == [];
    case Bin(_, l, r, _) =>
      WalkAddsNew(l, seen);
      WalkAddsNew(r, Walk(l, seen));
      AddNewAppend(seen, Occurrences(l), Occurrences(r));
    case Cmp(_, l, r, _) =>
      WalkAddsNew(l, seen);
      WalkAddsNew(r, Walk(l, seen));
      AddNewAppend(seen, Occurrences(l), Occurrences(r));
    case Call(_, args, _) =>
      WalkAllAddsNew(args, seen);
  }

  lemma {:induction false} WalkAllAddsNew(args: seq<ExprNode>, seen: seq<string>)
    ensures WalkAll(args, seen) == AddNew(seen, OccurrencesAll(args))
    decreases args
  {
    if args != [] {
      WalkAddsNew(args[0], seen);
      WalkAllAddsNew(args[1..], Walk(args[0], seen));
      AddNewAppend(seen, Occurrences(args[0]), OccurrencesAll(args[1..]));
    }
  }

  // ---------------------------------------------------------------- the names in a spelling

  lemma Punctuation(tok: string, u: seq<string>)
    requires !IsName(tok)
    ensures TokenNames([tok] + u) == TokenNames(u)
  {
    ConsNames(tok, u);
    assert [] + TokenNames(u) == TokenNames(u);
  }

  lemma OperatorsAreNotNames(c: Source)
    requires IsSum(c) && c.Infix?
    ensures !IsName([c.op]) && !OpensCall([[c.op]]) && IsSum(c.left) && IsSum(c.right)
  {
    Levels(c);
    Levels(c.right);
  }

  lemma FactorEnded(tok: string, u: seq<string>)
    requires !OpensCall([tok])
    ensures EndsFactor([tok] + u)
  {
  }

  lemma LeafNames(c: Source, u: seq<string>)
    requires IsSum(c) && EndsFactor(u) && (c.Number? || c.Name?)
    ensures TokenNames(Spell(c) + u) == Occurrences(Tree(c)) + TokenNames(u)
  {
    Levels(c);
    ConsNames(c.text, u);
  }

  lemma CalleeNames(callee: string, inside: seq<string>)
    ensures TokenNames([callee] + (["("] + inside)) == TokenNames(inside)
  {
    ConsNames(callee, ["("] + inside);
    Punctuation("(", inside);
    assert OpensCall(["("] + inside);
    assert [] + TokenNames(inside) == TokenNames(inside);
  }

  lemma Together(a: seq<string>, b: seq<string>, u: seq<string>)
    ensures a + (b + u) == a + b + u
  {
  }

  lemma TreeNames(c: Source)
    ensures c.Paren? ==> Occurrences(Tree(c)) == Occurrences(Tree(c.inner))
    ensures c.Apply? ==> Occurrences(Tree(c)) == OccurrencesAll(Trees(c.args))
    ensures c.Infix? ==> Occurrences(Tree(c)) == Occurrences(Tree(c.left)) + Occurrences(Tree(c.right))
  {
  }

  /** The uncalled names of a spelling are the variables of its tree. */
  lemma {:induction false} SpellingNames(c: Source, u: seq<string>)
    requires IsSum(c) && EndsFactor(u)
    ensures TokenNames(Spell(c) + u) == Occurrences(Tree(c)) + TokenNames(u)
    decreases c, 0
  {
    Levels(c);
    TreeNames(c);
    if c.Number? || c.Name? {
      LeafNames(c, u);
    } else if c.Paren? {
      assert IsSum(c.inner);
      hide *;
      ParenShape(c.inner, u);
      Punctuation("(", Spell(c.inner) + ([")"] + u));
      ClosingEnds(u);
      SpellingNames(c.inner, [")"] + u);
      Punctuation(")", u);
    } else if c.Apply? {
      assert forall i :: 0 <= i < |c.args| ==> IsSum(c.args[i]);
      hide *;
      var inside := SpellArgs(c.args) + ([")"] + u);
      ApplyShape(c.callee, c.args, u);
      CalleeNames(c.callee, inside);
      ClosingEnds(u);
      ArgNames(c.args, [")"] + u);
      Punctuation(")", u);
    } else {
      hide *;
      OperatorsAreNotNames(c);
      InfixShape(c, u);
      FactorEnded([c.op], Spell(c.right) + u);
      SpellingNames(c.left, [[c.op]] + (Spell(c.right) + u));
      Punctuation([c.op], Spell(c.right) + u);
      SpellingNames(c.right, u);
      Together(Occurrences(Tree(c.left)), Occurrences(Tree(c.right)), TokenNames(u));
    }
  }

  lemma ClosingEnds(u: seq<string>)
    ensures EndsFactor([")"] + u) && !IsName(")") && !IsName("(")
  {
  }

  lemma {:induction false} ArgNames(args: seq<Source>, u: seq<string>)
    requires EndsFactor(u) && forall i :: 0 <= i < |args| ==> IsSum(args[i])
    ensures TokenNames(SpellArgs(args) + u) == OccurrencesAll(Trees(args)) + TokenNames(u)
    decreases args
  {
    if args == [] {
      assert SpellArgs(args) + u == u;
    } else if |args| == 1 {
      assert args == [args[0]];
      LastArg(args[0], u);
      SpellingNames(args[0], u);
      assert [Tree(args[0])][1..] == [];
      assert OccurrencesAll([Tree(args[0])]) == Occurrences(Tree(args[0])) + [];
    } else {
      var more := SpellArgs(args[1..]) + u;
      NextArg(args, u);
      FactorEnded(",", more);
      SpellingNames(args[0], [","] + more);
      Punctuation(",", more);
      ArgNames(args[1..], u);
      assert Trees(args)[1..] == Trees(args[1..]);
      assert Occurrences(Tree(args[0])) + (OccurrencesAll(Trees(args[1..])) + TokenNames(u))
          == Occurrences(Tree(args[0])) + OccurrencesAll(Trees(args[1..])) + TokenNames(u);
    }
  }

  lemma ValueNames(toks: seq<string>, n: ExprNode)
    requires SpellsValue(toks, n)
    ensures TokenNames(toks) == Occurrences(n)
  {
    var c :| IsSum(c) && Spell(c) == toks && Tree(c) == n;
    SpellingNames(c, []);
    assert Spell(c) + [] == toks;
    assert Occurrences(n) + [] == Occurrences(n);
  }

  lemma GuardNames(toks: seq<string>, n: ExprNode)
    requires SpellsGuard(toks, n)
    ensures TokenNames(toks) == Occurrences(n)
  {
    if SpellsValue(toks, n) {
      ValueNames(toks, n);
    } else {
      var l, r, op :| IsSum(l) && IsSum(r) && IsCmpOp(op)
        && toks == Spell(l) + ([op] + Spell(r)) && n == Cmp(op, Tree(l), Tree(r), Extension);
      SpellingNames(l, [op] + Spell(r));
      Punctuation(op, Spell(r));
      SpellingNames(r, []);
      assert Spell(r) + [] == Spell(r) && Occurrences(Tree(r)) + [] == Occurrences(Tree(r));
    }
  }

  /** On every text that parses, the character scan yields exactly the tree's variables, in first-appearance order. */
  lemma DepsAreVars(text: string, guard: bool)
    requires Parse(text, guard).Ok?
    ensures FirstSeen(ScanNames(text)) == ExprVars(Parse(text, guard).value)
  {
    var n, toks := Parse(text, guard).value, Lex(text).value;
    hide ParseValueTokens, ParseGuardTokens, SpellsValue, SpellsGuard, Lex;
    ScanReadsTokens(text);
    if guard {
      GuardTokensExactly(toks, n);
      GuardNames(toks, n);
    } else {
      ValueTokensExactly(toks, n);
      ValueNames(toks, n);
    }
    WalkAddsNew(n, []);
  }

  // ---------------------------------------------------------------- parsed trees have trustworthy keys

  /** Name tokens consist of identifier characters. */
  predicate TidyToken(tok: string) {
    IsName(tok) ==> forall i :: 0 <= i < |tok| ==> IsIdent(tok[i])
  }

  ghost predicate Tidy(toks: seq<string>) {
    forall t :: t in toks ==> TidyToken(t)
  }

  lemma TidyAppend(a: seq<string>, b: seq<string>)
    ensures Tidy(a + b) <==> Tidy(a) && Tidy(b)
  {
    assert forall t :: t in a + b <==> t in a || t in b;
  }

  lemma {:induction false} LexIsTidy(s: string)
    requires Lex(s).Ok?
    ensures Tidy(Lex(s).value)
    decreases |s|
  {
    if s != [] {
      var c := s[0];
      if IsSpace(c) {
        LexIsTidy(s[1..]);
      } else if IsDigit(c) {
        assert Span(IsDigit, s) > 0;
        LexIsTidy(s[Span(IsDigit, s)..]);
      } else if IsIdentStart(c) {
        assert Span(IsIdent, s) > 0;
        LexIsTidy(s[Span(IsIdent, s)..]);
      } else if IsPunctuation(c) {
        LexIsTidy(s[1..]);
      } else if |s| > 1 && s[1] == '=' {
        LexIsTidy(s[2..]);
      } else {
        LexIsTidy(s[1..]);
      }
    }
  }

  lemma TidyNameIsClean(tok: string)
    requires IsName(tok) && TidyToken(tok)
    ensures Clean(tok) && !IsCmpOp(tok) && !(|tok| == 1 && IsBinOp(tok[0]))
  {
  }

  lemma {:induction false} TidySourceIsKeySafe(c: Source)
    requires IsSum(c) && Tidy(Spell(c))
    ensures KeySafe(Tree(c))
    decreases c
  {
    Levels(c);
    match c
    case Number(_) =>
    case Name(text) =>
      assert text in Spell(c);
      TidyNameIsClean(text);
    case Paren(inner) =>
      TidyAppend(["("] + Spell(inner), [")"]);
      TidyAppend(["("], Spell(inner));
      TidySourceIsKeySafe(inner);
    case Apply(callee, args) =>
      assert callee in Spell(c);
      TidyNameIsClean(callee);
      TidyAppend([callee, "("] + SpellArgs(args), [")"]);
      TidyAppend([callee, "("], SpellArgs(args));
      TidyArgsAreKeySafe(args);
    case Infix(op, l, r) =>
      OperatorsAreNotNames(c);
      TidyAppend(Spell(l) + [[op]], Spell(r));
      TidyAppend(Spell(l), [[op]]);
      TidySourceIsKeySafe(l);
      TidySourceIsKeySafe(r);
  }

  lemma {:induction false} TidyArgsAreKeySafe(args: seq<Source>)
    requires Tidy(SpellArgs(args)) && forall i :: 0 <= i < |args| ==> IsSum(args[i])
    ensures AllKeySafe(Trees(args))
    decreases args
  {
    if |args| == 1 {
      assert args[1..] == [];
      TidySourceIsKeySafe(args[0]);
    } else if args != [] {
      TidyAppend(Spell(args[0]) + [","], SpellArgs(args[1..]));
      TidyAppend(Spell(args[0]), [","]);
      TidySourceIsKeySafe(args[0]);
      TidyArgsAreKeySafe(args[1..]);
      assert Trees(args)[1..] == Trees(args[1..]);
    }
  }

  /** Every guard that parses has a key that identifies it. */
  lemma ParsedIsKeySafe(text: string, guard: bool)
    requires Parse(text, guard).Ok?
    ensures KeySafe(Parse(text, guard).value)
  {
    var n, toks := Parse(text, guard).value, Lex(text).value;
    hide ParseValueTokens, ParseGuardTokens, Lex, Spell, Tree, IsSum, Tidy, KeySafe, IsCmpOp;
    LexIsTidy(text);
    if guard {
      GuardTokensExactly(toks, n);
    } else {
      ValueTokensExactly(toks, n);
    }
    if SpellsValue(toks, n) {
      var c :| IsSum(c) && Spell(c) == toks && Tree(c) == n;
      TidySourceIsKeySafe(c);
    } else {
      var l, r, op :| IsSum(l) && IsSum(r) && IsCmpOp(op)
        && toks == Spell(l) + ([op] + Spell(r)) && n == Cmp(op, Tree(l), Tree(r), Extension);
      TidyAppend(Spell(l), [op] + Spell(r));
      TidyAppend([op], Spell(r));
      TidySourceIsKeySafe(l);
      TidySourceIsKeySafe(r);
      ComparisonIsKeySafe(op, Tree(l), Tree(r));
    }
  }

  lemma ComparisonIsKeySafe(op: string, l: ExprNode, r: ExprNode)
    requires IsCmpOp(op) && KeySafe(l) && KeySafe(r)
    ensures KeySafe(Cmp(op, l, r, Extension))
  {
  }
}
