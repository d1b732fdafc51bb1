/**
 The grammar of expressions, apart from any parser: which spellings there are and which tree each
 one means. The parser accepts exactly these, and the character scan finds their variables.
 */
module ExprGrammar {
  import opened Wrappers
  import opened Decimal
  import opened ValueModel
  import opened Expr
  import opened ExprText
  import opened ExprParser

  /** A derivation, parentheses kept. */
  datatype Source =
    | Number(text: string)
    | Name(text: string)
    | Apply(callee: string, args: seq<Source>)
    | Paren(inner: Source)
    | Infix(op: char, left: Source, right: Source)

  predicate IsFactor(c: Source)
    decreases c, 0
  {
    match c
    case Number(text) => IsNumber(text) && ParseI64(text).Some?
    case Name(text) => IsName(text)
    case Apply(callee, args) => IsName(callee) && forall i :: 0 <= i < |args| ==> IsSum(args[i])
    case Paren(inner) => IsSum(inner)
    case Infix(_, _, _) => false
  }

  predicate IsProduct(c: Source)
    decreases c, 1
  {
    if c.Infix? then (c.op == '*' || c.op == '/') && IsProduct(c.left) && IsFactor(c.right)
    else IsFactor(c)
  }

  predicate IsSum(c: Source)
    decreases c, 2
  {
    if c.Infix? && (c.op == '+' || c.op == '-') then IsSum(c.left) && IsProduct(c.right)
    else IsProduct(c)
  }

  function Spell(c: Source): seq<string> {
    match c
    case Number(text) => [text]
    case Name(text) => [text]
    case Apply(callee, args) => [callee, "("] + SpellArgs(args) + [")"]
    case Paren(inner) => ["("] + Spell(inner) + [")"]
    case Infix(op, l, r) => Spell(l) + [[op]] + Spell(r)
  }

  function SpellArgs(args: seq<Source>): seq<string> {
    if args == [] then []
    else if |args| == 1 then Spell(args[0])
    else Spell(args[0]) + [","] + SpellArgs(args[1..])
  }

  /** The tree a derivation means; parentheses leave no trace in it. */
  function Tree(c: Source): ExprNode {
    match c
    case Number(text) => Num(if ParseI64(text).Some? then ParseI64(text).value else 0, Extension)
    case Name(text) => Var(text, Extension)
    case Apply(callee, args) => Call(callee, Trees(args), Extension)
    case Paren(inner) => Tree(inner)
    case Infix(op, l, r) => Bin(op, Tree(l), Tree(r), Extension)
  }

  function Trees(args: seq<Source>): seq<ExprNode> {
    if args == [] then [] else [Tree(args[0])] + Trees(args[1..])
  }

  // ---------------------------------------------------------------- every spelling parses to its tree

  /** A factor ends here: nothing turns its last name into a call. */
  predicate EndsFactor(u: seq<string>) {
    !OpensCall(u)
  }

  predicate EndsProduct(u: seq<string>) {
    EndsFactor(u) && !AtProduct(u)
  }

  predicate EndsSum(u: seq<string>) {
    EndsProduct(u) && !AtSum(u)
  }

  lemma SkipOne(tok: string, u: seq<string>)
    ensures ([tok] + u)[0] == tok && ([tok] + u)[1..] == u
  {
  }

  lemma InfixShape(c: Source, u: seq<string>)
    requires c.Infix?
    ensures Spell(c) + u == Spell(c.left) + ([[c.op]] + (Spell(c.right) + u))
  {
    hide Spell;
    assert Spell(c) == Spell(c.left) + [[c.op]] + Spell(c.right) by {
      InfixSpells(c);
    }
  }

  lemma InfixSpells(c: Source)
    requires c.Infix?
    ensures Spell(c) == Spell(c.left) + [[c.op]] + Spell(c.right)
  {
  }

  lemma {:induction false} SumParses(c: Source, u: seq<string>)
    requires IsSum(c) && EndsProduct(u)
    ensures ParseSum(Spell(c) + u) == MoreTerms(Tree(c), u)
    decreases c, 3
  {
    if c.Infix? && (c.op == '+' || c.op == '-') {
      var more := [[c.op]] + (Spell(c.right) + u);
      InfixShape(c, u);
      SkipOne([c.op], Spell(c.right) + u);
      SumParses(c.left, more);
      ProductParsesWhole(c.right, u);
    } else {
      ProductParsesWhole(c, u);
      assert ParseProduct(Spell(c) + u) == Got(Tree(c), u);
    }
  }

  lemma {:induction false} ProductParsesWhole(c: Source, u: seq<string>)
    requires IsProduct(c) && EndsProduct(u)
    ensures ParseProduct(Spell(c) + u) == Got(Tree(c), u)
    decreases c, 2
  {
    hide ParseProduct, Spell, Tree, IsProduct;
    ProductParses(c, u);
  }

  lemma {:induction false} ProductParses(c: Source, u: seq<string>)
    requires IsProduct(c) && EndsFactor(u)
    ensures ParseProduct(Spell(c) + u) == MoreFactors(Tree(c), u)
    decreases c, 1
  {
    if c.Infix? {
      var more := [[c.op]] + (Spell(c.right) + u);
      InfixShape(c, u);
      SkipOne([c.op], Spell(c.right) + u);
      ProductParses(c.left, more);
      FactorParses(c.right, u);
    } else {
      FactorParses(c, u);
    }
  }

  lemma ParenShape(inner: Source, u: seq<string>)
    ensures Spell(Paren(inner)) + u == ["("] + (Spell(inner) + ([")"] + u))
  {
    hide Spell;
    assert Spell(Paren(inner)) == ["("] + Spell(inner) + [")"] by {
      ParenSpells(inner);
    }
  }

  lemma ParenSpells(inner: Source)
    ensures Spell(Paren(inner)) == ["("] + Spell(inner) + [")"]
  {
  }

  lemma ApplyShape(callee: string, args: seq<Source>, u: seq<string>)
    ensures Spell(Apply(callee, args)) + u == [callee] + (["("] + (SpellArgs(args) + ([")"] + u)))
  {
    hide SpellArgs;
    assert Spell(Apply(callee, args)) == [callee, "("] + SpellArgs(args) + [")"];
  }

  lemma {:induction false} FactorParses(c: Source, u: seq<string>)
    requires IsFactor(c) && EndsFactor(u)
    ensures ParseFactor(Spell(c) + u) == Got(Tree(c), u)
    decreases c, 0
  {
    match c
    case Number(text) =>
      SkipOne(text, u);
      assert text != "(";
    case Name(text) =>
      SkipOne(text, u);
      NamesAreNothingElse(text);
    case Paren(inner) =>
      ParenShape(inner, u);
      SkipOne("(", Spell(inner) + ([")"] + u));
      SkipOne(")", u);
      SumParsesWhole(inner, [")"] + u);
    case Apply(callee, args) =>
      ApplyParses(callee, args, u);
  }

  lemma NamesAreNothingElse(text: string)
    requires IsName(text)
    ensures text != "(" && text != ")" && !IsNumber(text)
  {
  }

  lemma {:induction false} SumParsesWhole(c: Source, u: seq<string>)
    requires IsSum(c) && EndsSum(u)
    ensures ParseSum(Spell(c) + u) == Got(Tree(c), u)
    decreases c, 4
  {
    hide ParseSum, Spell, Tree, IsSum;
    SumParses(c, u);
  }

  lemma {:induction false} ApplyParses(callee: string, args: seq<Source>, u: seq<string>)
    requires IsFactor(Apply(callee, args))
    ensures ParseFactor(Spell(Apply(callee, args)) + u) == Got(Tree(Apply(callee, args)), u)
    decreases args, 1
  {
    ApplyShape(callee, args, u);
    NamesAreNothingElse(callee);
    var close := [")"] + u;
    var inside := SpellArgs(args) + close;
    SkipOne(callee, ["("] + inside);
    SkipOne("(", inside);
    SkipOne(")", u);
    if args == [] {
      assert inside == close;
    } else {
      ArgsParse(args, u, []);
      FirstOfArgs(args, close);
      assert [] + Trees(args) == Trees(args);
    }
    var toks := Spell(Apply(callee, args)) + u;
    assert toks == [callee] + (["("] + inside);
    assert toks[1..][1..] == inside && toks[2..] == inside;
    assert toks[3..] == inside[1..];
    hide ParseArgs, SpellArgs, Spell, Trees, IsFactor, IsName, IsNumber;
  }

  lemma Levels(c: Source)
    ensures IsFactor(c) ==> IsProduct(c)
    ensures IsProduct(c) ==> IsSum(c)
    ensures IsSum(c) && !c.Infix? ==> IsFactor(c)
    ensures IsSum(c) && c.Infix? ==> IsSum(c.left) && IsProduct(c.right)
  {
    if c.Infix? && IsProduct(c) {
      Levels(c.left);
      assert IsFactor(c.right) ==> IsProduct(c.right);
    }
  }

  /** No expression starts with a closing parenthesis. */
  lemma {:induction false} FirstOfSource(c: Source, u: seq<string>)
    requires IsSum(c)
    ensures Spell(c) != [] && !At(Spell(c) + u, ")")
    decreases c
  {
    Levels(c);
    match c
    case Number(_) =>
    case Name(_) =>
    case Apply(callee, args) =>
      NamesAreNothingElse(callee);
      ApplyShape(callee, args, u);
    case Paren(_) =>
    case Infix(_, l, r) =>
      FirstOfSource(l, [[c.op]] + (Spell(r) + u));
      InfixShape(c, u);
  }

  lemma FirstOfArgs(args: seq<Source>, u: seq<string>)
    requires args != [] && forall i :: 0 <= i < |args| ==> IsSum(args[i])
    ensures !At(SpellArgs(args) + u, ")")
  {
    FirstOfSource(args[0], []);
    assert Spell(args[0]) + [] == Spell(args[0]);
  }

  lemma LastArg(arg: Source, u: seq<string>)
    ensures SpellArgs([arg]) + u == Spell(arg) + u
    ensures Trees([arg]) == [Tree(arg)]
  {
    assert [arg][1..] == [];
  }

  lemma NextArg(args: seq<Source>, u: seq<string>)
    requires |args| > 1
    ensures SpellArgs(args) + u == Spell(args[0]) + ([","] + (SpellArgs(args[1..]) + u))
  {
    assert SpellArgs(args) == Spell(args[0]) + [","] + SpellArgs(args[1..]);
    hide *;
    Commas(Spell(args[0]), SpellArgs(args[1..]), u);
  }

  lemma Commas(a: seq<string>, b: seq<string>, u: seq<string>)
    ensures a + [","] + b + u == a + ([","] + (b + u))
  {
  }

  lemma {:induction false} ArgsParse(args: seq<Source>, u: seq<string>, acc: seq<ExprNode>)
    requires args != [] && forall i :: 0 <= i < |args| ==> IsSum(args[i])
    ensures ParseArgs(SpellArgs(args) + ([")"] + u), acc) == Got(acc + Trees(args), [")"] + u)
    decreases args, 0
  {
    var close := [")"] + u;
    if |args| == 1 {
      assert args == [args[0]];
      LastArg(args[0], close);
      SkipOne(")", u);
      SumParsesWhole(args[0], close);
    } else {
      var more := SpellArgs(args[1..]) + close;
      NextArg(args, close);
      SkipOne(",", more);
      SumParsesWhole(args[0], [","] + more);
      ArgsParse(args[1..], u, acc + [Tree(args[0])]);
      assert acc + [Tree(args[0])] + Trees(args[1..]) == acc + Trees(args);
    }
  }

  // ---------------------------------------------------------------- everything that parses is a spelling

  lemma Regroup(a: seq<string>, op: string, b: seq<string>, u: seq<string>)
    ensures a + [op] + b + u == a + ([op] + (b + u))
  {
  }

  lemma StartsThere(toks: seq<string>)
    requires toks != []
    ensures toks == [toks[0]] + toks[1..]
  {
  }

  lemma InfixIs(op: char, l: Source, r: Source)
    ensures Spell(Infix(op, l, r)) == Spell(l) + [[op]] + Spell(r)
    ensures Tree(Infix(op, l, r)) == Bin(op, Tree(l), Tree(r), Extension)
    ensures (op == '+' || op == '-') && IsSum(l) && IsProduct(r) ==> IsSum(Infix(op, l, r))
    ensures (op == '*' || op == '/') && IsProduct(l) && IsFactor(r) ==> IsProduct(Infix(op, l, r))
  {
  }

  lemma {:induction false} SumSpelled(toks: seq<string>) returns (c: Source)
    requires ParseSum(toks).Got?
    ensures IsSum(c) && ParseSum(toks) == Got(Tree(c), ParseSum(toks).rest) && Spell(c) + ParseSum(toks).rest == toks
    decreases |toks|, 5
  {
    hide ParseProduct, MoreTerms, IsSum, IsProduct, IsFactor, Tree, Spell;
    var first := ProductSpelled(toks);
    Levels(first);
    c := TermsSpelled(first, ParseProduct(toks).rest);
  }

  lemma {:induction false} TermsSpelled(left: Source, toks: seq<string>) returns (c: Source)
    requires IsSum(left) && MoreTerms(Tree(left), toks).Got?
    ensures var r := MoreTerms(Tree(left), toks);
      IsSum(c) && r == Got(Tree(c), r.rest) && Spell(c) + r.rest == Spell(left) + toks
    decreases |toks|, 4
  {
    hide ParseProduct, IsSum, IsProduct, IsFactor, Tree, Spell;
    if !AtSum(toks) {
      c := left;
    } else {
      var term := ProductSpelled(toks[1..]);
      var op, rest := toks[0][0], ParseProduct(toks[1..]).rest;
      InfixIs(op, left, term);
      c := TermsSpelled(Infix(op, left, term), rest);
      StartsThere(toks);
      assert [op] == toks[0];
      Regroup(Spell(left), toks[0], Spell(term), rest);
    }
  }

  lemma {:induction false} ProductSpelled(toks: seq<string>) returns (c: Source)
    requires ParseProduct(toks).Got?
    ensures IsProduct(c) && ParseProduct(toks) == Got(Tree(c), ParseProduct(toks).rest)
        && Spell(c) + ParseProduct(toks).rest == toks
    decreases |toks|, 3
  {
    hide ParseFactor, MoreFactors, IsSum, IsProduct, IsFactor, Tree, Spell;
    var first := FactorSpelled(toks);
    Levels(first);
    c := FactorsSpelled(first, ParseFactor(toks).rest);
  }

  lemma {:induction false} FactorsSpelled(left: Source, toks: seq<string>) returns (c: Source)
    requires IsProduct(left) && MoreFactors(Tree(left), toks).Got?
    ensures var r := MoreFactors(Tree(left), toks);
      IsProduct(c) && r == Got(Tree(c), r.rest) && Spell(c) + r.rest == Spell(left) + toks
    decreases |toks|, 2
  {
    hide ParseFactor, IsSum, IsProduct, IsFactor, Tree, Spell;
    if !AtProduct(toks) {
      c := left;
    } else {
      var factor := FactorSpelled(toks[1..]);
      var op, rest := toks[0][0], ParseFactor(toks[1..]).rest;
      InfixIs(op, left, factor);
      c := FactorsSpelled(Infix(op, left, factor), rest);
      StartsThere(toks);
      assert [op] == toks[0];
      Regroup(Spell(left), toks[0], Spell(factor), rest);
    }
  }

  lemma {:induction false} FactorSpelled(toks: seq<string>) returns (c: Source)
    requires ParseFactor(toks).Got?
    ensures IsFactor(c) && ParseFactor(toks) == Got(Tree(c), ParseFactor(toks).rest)
        && Spell(c) + ParseFactor(toks).rest == toks
    decreases |toks|, 1
  {
    StartsThere(toks);
    if toks[0] == "(" {
      hide ParseSum, IsSum, Tree, Spell, IsNumber, IsName;
      var inner := SumSpelled(toks[1..]);
      var rest := ParseSum(toks[1..]).rest;
      StartsThere(rest);
      c := Paren(inner);
      ParenIs(inner);
      ParenShape(inner, rest[1..]);
    } else if IsNumber(toks[0]) {
      c := Number(toks[0]);
    } else if !OpensCall(toks[1..]) {
      c := Name(toks[0]);
    } else {
      c := ApplySpelled(toks);
    }
  }

  lemma ParenIs(inner: Source)
    ensures Tree(Paren(inner)) == Tree(inner) && (IsSum(inner) ==> IsFactor(Paren(inner)))
  {
  }

  lemma {:induction false} ApplySpelled(toks: seq<string>) returns (c: Source)
    requires ParseFactor(toks).Got?
    requires toks != [] && toks[0] != "(" && !IsNumber(toks[0]) && OpensCall(toks[1..])
    ensures IsFactor(c) && ParseFactor(toks) == Got(Tree(c), ParseFactor(toks).rest)
        && Spell(c) + ParseFactor(toks).rest == toks
    decreases |toks|, 0
  {
    hide ParseSum, ParseArgs, IsSum, Spell, IsNumber, IsName;
    var callee, inside := toks[0], toks[2..];
    StartsThere(toks);
    StartsThere(toks[1..]);
    assert toks[1..][1..] == inside;
    if At(inside, ")") {
      c := Apply(callee, []);
      ApplyIs(callee, []);
      StartsThere(inside);
      assert inside[1..] == toks[3..];
      assert SpellArgs([]) + inside == inside;
      ApplyShape(callee, [], toks[3..]);
    } else {
      var args := ArgsSpelled(inside, []);
      var rest := ParseArgs(inside, []).rest;
      assert [] + Trees(args) == Trees(args);
      c := Apply(callee, args);
      ApplyIs(callee, args);
      StartsThere(rest);
      ApplyShape(callee, args, rest[1..]);
    }
  }

  lemma ApplyIs(callee: string, args: seq<Source>)
    requires IsName(callee) && forall i :: 0 <= i < |args| ==> IsSum(args[i])
    ensures IsFactor(Apply(callee, args)) && Tree(Apply(callee, args)) == Call(callee, Trees(args), Extension)
  {
  }

  lemma {:induction false} ArgsSpelled(toks: seq<string>, acc: seq<ExprNode>) returns (args: seq<Source>)
    requires ParseArgs(toks, acc).Got?
    ensures args != [] && forall i :: 0 <= i < |args| ==> IsSum(args[i])
    ensures ParseArgs(toks, acc).value == acc + Trees(args)
    ensures SpellArgs(args) + ParseArgs(toks, acc).rest == toks
    decreases |toks|, 6
  {
    hide ParseSum, IsSum, Tree, Spell, SpellArgs, Trees;
    var first := SumSpelled(toks);
    var rest := ParseSum(toks).rest;
    if At(rest, ",") {
      StartsThere(rest);
      var others := ArgsSpelled(rest[1..], acc + [Tree(first)]);
      args := [first] + others;
      assert args[1..] == others;
      TreesGrow(first, others);
      NextArg(args, ParseArgs(toks, acc).rest);
      assert acc + [Tree(first)] + Trees(others) == acc + ([Tree(first)] + Trees(others));
    } else {
      args := [first];
      LastArg(first, rest);
    }
  }

  lemma TreesGrow(first: Source, others: seq<Source>)
    ensures Trees([first] + others) == [Tree(first)] + Trees(others)
  {
    assert ([first] + others)[1..] == others;
  }

  // ---------------------------------------------------------------- the language of the parser

  /** `toks` spells `n` as a value expression. */
  ghost predicate SpellsValue(toks: seq<string>, n: ExprNode) {
    exists c :: IsSum(c) && Spell(c) == toks && Tree(c) == n
  }

  /** `toks` spells `n` as a guard: a comparison of two sums, or accepted() alone. */
  ghost predicate SpellsGuard(toks: seq<string>, n: ExprNode) {
    || (SpellsValue(toks, n) && IsAcceptedGuard(n))
    || (exists l, r, op :: IsSum(l) && IsSum(r) && IsCmpOp(op)
          && toks == Spell(l) + ([op] + Spell(r)) && n == Cmp(op, Tree(l), Tree(r), Extension))
  }

  lemma NothingAfter(s: seq<string>)
    ensures s + [] == s && EndsSum([])
  {
  }

  /** The value parser accepts exactly the spellings of the grammar, with their trees. */
  lemma ValueTokensExactly(toks: seq<string>, n: ExprNode)
    ensures ParseValueTokens(toks) == Ok(n) <==> SpellsValue(toks, n)
  {
    hide ParseSum, Spell, Tree, IsSum;
    if ParseValueTokens(toks) == Ok(n) {
      var c := SumSpelled(toks);
      NothingAfter(Spell(c));
    }
    if SpellsValue(toks, n) {
      var c :| IsSum(c) && Spell(c) == toks && Tree(c) == n;
      NothingAfter(Spell(c));
      SumParsesWhole(c, []);
    }
  }

  lemma ComparisonEnds(op: string, u: seq<string>)
    requires IsCmpOp(op)
    ensures EndsSum([op] + u) && AtComparison([op] + u) && ([op] + u)[1..] == u
  {
  }

  /** The guard parser, likewise. */
  lemma GuardTokensExactly(toks: seq<string>, n: ExprNode)
    ensures ParseGuardTokens(toks) == Ok(n) <==> SpellsGuard(toks, n)
  {
    hide ParseSum, Spell, Tree, IsSum, IsCmpOp;
    if ParseGuardTokens(toks) == Ok(n) {
      var l := SumSpelled(toks);
      var rest := ParseSum(toks).rest;
      if AtComparison(rest) {
        var r := SumSpelled(rest[1..]);
        StartsThere(rest);
        NothingAfter(Spell(r));
        assert toks == Spell(l) + ([rest[0]] + Spell(r));
      } else {
        NothingAfter(Spell(l));
      }
    }
    if SpellsValue(toks, n) && IsAcceptedGuard(n) {
      var c :| IsSum(c) && Spell(c) == toks && Tree(c) == n;
      NothingAfter(Spell(c));
      SumParsesWhole(c, []);
    }
    if l, r, op :| IsSum(l) && IsSum(r) && IsCmpOp(op) && toks == Spell(l) + ([op] + Spell(r))
                   && n == Cmp(op, Tree(l), Tree(r), Extension) {
      ComparisonEnds(op, Spell(r));
      NothingAfter(Spell(r));
      SumParsesWhole(l, [op] + Spell(r));
      SumParsesWhole(r, []);
    }
  }
}
