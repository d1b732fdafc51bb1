/**
 The recursive-descent parser of expressions and guards, its grammar, and the proof that it
 accepts exactly the spellings of the grammar and returns the tree each of them spells.
 */
module ExprParser {
  import opened Wrappers
  import opened Decimal
  import opened ValueModel
  import opened Expr
  import opened ExprText

  datatype ParseError =
    | UnexpectedEnd | MissingParen | MissingCallParen | UnexpectedToken
    | NumberRange | TrailingTokens | NotAGuard | UnexpectedCharacter(c: char)

  datatype Parsed<T> = Got(value: T, rest: seq<string>) | Bad(error: ParseError)

  // ---------------------------------------------------------------- the parser as functions

  predicate At(toks: seq<string>, tok: string) {
    toks != [] && toks[0] == tok
  }

  predicate AtSum(toks: seq<string>) {
    At(toks, "+") || At(toks, "-")
  }

  predicate AtProduct(toks: seq<string>) {
    At(toks, "*") || At(toks, "/")
  }

  predicate IsNumber(tok: string) {
    tok != "" && IsDigit(tok[0])
  }

  function ParseSum(toks: seq<string>): (r: Parsed<ExprNode>)
    ensures r.Got? ==> |r.rest| < |toks|
    decreases |toks|, 4
  {
    var first := ParseProduct(toks);
    if first.Bad? then first else MoreTerms(first.value, first.rest)
  }

  /** The sum so far, extended by every further term. */
  function MoreTerms(left: ExprNode, toks: seq<string>): (r: Parsed<ExprNode>)
    ensures r.Got? ==> |r.rest| <= |toks|
    decreases |toks|, 3
  {
    if !AtSum(toks) then Got(left, toks)
    else
      var term := ParseProduct(toks[1..]);
      if term.Bad? then term else MoreTerms(Bin(toks[0][0], left, term.value, Extension), term.rest)
  }

  function ParseProduct(toks: seq<string>): (r: Parsed<ExprNode>)
    ensures r.Got? ==> |r.rest| < |toks|
    decreases |toks|, 2
  {
    var first := ParseFactor(toks);
    if first.Bad? then first else MoreFactors(first.value, first.rest)
  }

  function MoreFactors(left: ExprNode, toks: seq<string>): (r: Parsed<ExprNode>)
    ensures r.Got? ==> |r.rest| <= |toks|
    decreases |toks|, 1
  {
    if !AtProduct(toks) then Got(left, toks)
    else
      var factor := ParseFactor(toks[1..]);
      if factor.Bad? then factor else MoreFactors(Bin(toks[0][0], left, factor.value, Extension), factor.rest)
  }

  function ParseFactor(toks: seq<string>): (r: Parsed<ExprNode>)
    ensures r.Got? ==> |r.rest| < |toks|
    decreases |toks|, 0
  {
    if toks == [] then Bad(UnexpectedEnd)
    else if toks[0] == "(" then
      var inner := ParseSum(toks[1..]);
      if inner.Bad? then inner
      else if !At(inner.rest, ")") then Bad(MissingParen)
      else Got(inner.value, inner.rest[1..])
    else if IsNumber(toks[0]) then
      if ParseI64(toks[0]).None? then Bad(NumberRange) else Got(Num(ParseI64(toks[0]).value, Extension), toks[1..])
    else if !IsName(toks[0]) then Bad(UnexpectedToken)
    else if !OpensCall(toks[1..]) then Got(Var(toks[0], Extension), toks[1..])
    else if At(toks[2..], ")") then Got(Call(toks[0], [], Extension), toks[3..])
    else
      var args := ParseArgs(toks[2..], []);
      if args.Bad? then Bad(args.error)
      else if !At(args.rest, ")") then Bad(MissingCallParen)
      else Got(Call(toks[0], args.value, Extension), args.rest[1..])
  }

  /** The remaining arguments, after those already in `acc`. */
  function ParseArgs(toks: seq<string>, acc: seq<ExprNode>): (r: Parsed<seq<ExprNode>>)
    ensures r.Got? ==> |r.rest| < |toks|
    decreases |toks|, 5
  {
    var arg := ParseSum(toks);
    if arg.Bad? then Bad(arg.error)
    else if At(arg.rest, ",") then ParseArgs(arg.rest[1..], acc + [arg.value])
    else Got(acc + [arg.value], arg.rest)
  }

  /** A value expression: one sum and nothing after it. */
  function ParseValueTokens(toks: seq<string>): Result<ExprNode, ParseError> {
    var r := ParseSum(toks);
    if r.Bad? then Err(r.error)
    else if r.rest != [] then Err(TrailingTokens)
    else Ok(r.value)
  }

  predicate AtComparison(toks: seq<string>) {
    toks != [] && IsCmpOp(toks[0])
  }

  /** A guard: one comparison of two sums, or a bare accepted(). */
  function ParseGuardTokens(toks: seq<string>): Result<ExprNode, ParseError> {
    var l := ParseSum(toks);
    if l.Bad? then Err(l.error)
    else if !AtComparison(l.rest) then
      if !IsAcceptedGuard(l.value) then Err(NotAGuard)
      else if l.rest != [] then Err(TrailingTokens)
      else Ok(l.value)
    else
      var r := ParseSum(l.rest[1..]);
      if r.Bad? then Err(r.error)
      else if r.rest != [] then Err(TrailingTokens)
      else Ok(Cmp(l.rest[0], l.value, r.value, Extension))
  }

  function Parse(text: string, guard: bool): Result<ExprNode, ParseError> {
    var toks := Lex(text);
    if toks.Err? then Err(UnexpectedCharacter(toks.error))
    else if guard then ParseGuardTokens(toks.value)
    else ParseValueTokens(toks.value)
  }

  // ---------------------------------------------------------------- the parser

  lemma SumUnfolds(toks: seq<string>)
    ensures var first := ParseProduct(toks);
      ParseSum(toks) == if first.Bad? then first else MoreTerms(first.value, first.rest)
  {
  }

  lemma TermsUnfold(left: ExprNode, toks: seq<string>)
    ensures !AtSum(toks) ==> MoreTerms(left, toks) == Got(left, toks)
    ensures AtSum(toks) ==>
      var term := ParseProduct(toks[1..]);
      MoreTerms(left, toks)
        == if term.Bad? then term else MoreTerms(Bin(toks[0][0], left, term.value, Extension), term.rest)
  {
    hide ParseProduct;
  }

  lemma ProductUnfolds(toks: seq<string>)
    ensures var first := ParseFactor(toks);
      ParseProduct(toks) == if first.Bad? then first else MoreFactors(first.value, first.rest)
  {
  }

  lemma FactorsUnfold(left: ExprNode, toks: seq<string>)
    ensures !AtProduct(toks) ==> MoreFactors(left, toks) == Got(left, toks)
    ensures AtProduct(toks) ==>
      var factor := ParseFactor(toks[1..]);
      MoreFactors(left, toks)
        == if factor.Bad? then factor else MoreFactors(Bin(toks[0][0], left, factor.value, Extension), factor.rest)
  {
    hide ParseFactor;
  }

  lemma ArgsUnfold(toks: seq<string>, acc: seq<ExprNode>)
    ensures var arg := ParseSum(toks);
      ParseArgs(toks, acc) ==
        if arg.Bad? then Bad(arg.error)
        else if At(arg.rest, ",") then ParseArgs(arg.rest[1..], acc + [arg.value])
        else Got(acc + [arg.value], arg.rest)
  {
  }

  /** Reads a token list from left to right; every method does what the function of its name says. */
  class Parser {
    const toks: seq<string>
    var pos: nat

    predicate Valid()
      reads this
    {
      pos <= |toks|
    }

    function Rest(): seq<string>
      requires Valid()
      reads this
    {
      toks[pos..]
    }

    constructor (toks: seq<string>)
      ensures Valid() && this.toks == toks && pos == 0
    {
      this.toks, pos := toks, 0;
    }

    /** What a method returns and leaves behind is what `want` says. */
    ghost predicate Delivers(r: Result<ExprNode, ParseError>, want: Parsed<ExprNode>)
      requires Valid()
      reads this
    {
      if r.Ok? then want == Got(r.value, Rest()) else want == Bad(r.error)
    }

    method Sum() returns (r: Result<ExprNode, ParseError>)
      requires Valid()
      modifies this
      ensures Valid() && Delivers(r, ParseSum(old(Rest())))
      decreases |Rest()|, 3
    {
      hide ParseSum, MoreTerms, ParseProduct;
      ghost var start := Rest();
      SumUnfolds(start);
      r := Product();
      if r.Err? { return; }
      while pos < |toks| && (toks[pos] == "+" || toks[pos] == "-")
        invariant Valid() && |Rest()| <= |start|
        invariant r.Ok? && ParseSum(start) == MoreTerms(r.value, Rest())
        decreases |Rest()|
      {
        var op, left := toks[pos][0], r.value;
        assert AtSum(Rest()) && Rest()[0] == toks[pos] && Rest()[1..] == toks[pos + 1..];
        TermsUnfold(left, Rest());
        pos := pos + 1;
        r := Product();
        if r.Err? { return; }
        r := Ok(Bin(op, left, r.value, Extension));
      }
      TermsUnfold(r.value, Rest());
    }

    method Product() returns (r: Result<ExprNode, ParseError>)
      requires Valid()
      modifies this
      ensures Valid() && Delivers(r, ParseProduct(old(Rest())))
      decreases |Rest()|, 2
    {
      hide ParseProduct, MoreFactors, ParseFactor;
      ghost var start := Rest();
      ProductUnfolds(start);
      r := Factor();
      if r.Err? { return; }
      while pos < |toks| && (toks[pos] == "*" || toks[pos] == "/")
        invariant Valid() && |Rest()| <= |start|
        invariant r.Ok? && ParseProduct(start) == MoreFactors(r.value, Rest())
        decreases |Rest()|
      {
        var op, left := toks[pos][0], r.value;
        assert AtProduct(Rest()) && Rest()[0] == toks[pos] && Rest()[1..] == toks[pos + 1..];
        FactorsUnfold(left, Rest());
        pos := pos + 1;
        r := Factor();
        if r.Err? { return; }
        r := Ok(Bin(op, left, r.value, Extension));
      }
      FactorsUnfold(r.value, Rest());
    }

    method Factor() returns (r: Result<ExprNode, ParseError>)
      requires Valid()
      modifies this
      ensures Valid() && Delivers(r, ParseFactor(old(Rest())))
      decreases |Rest()|, 1
    {
      if pos == |toks| {
        return Err(UnexpectedEnd);
      }
      hide ParseSum, ParseArgs, ParseI64;
      var t := toks[pos];
      assert Rest()[0] == t && Rest()[1..] == toks[pos + 1..];
      pos := pos + 1;
      if t == "(" {
        r := Sum();
        if r.Err? { return; }
        if pos == |toks| || toks[pos] != ")" {
          return Err(MissingParen);
        }
        pos := pos + 1;
      } else if IsNumber(t) {
        if ParseI64(t).None? {
          return Err(NumberRange);
        }
        r := Ok(Num(ParseI64(t).value, Extension));
      } else if IsName(t) {
        if pos < |toks| && toks[pos] == "(" {
          pos := pos + 1;
          r := Callee(t);
        } else {
          r := Ok(Var(t, Extension));
        }
      } else {
        r := Err(UnexpectedToken);
      }
    }

    /** The argument list of `name`, after its opening parenthesis and through the closing one. */
    method Callee(name: string) returns (r: Result<ExprNode, ParseError>)
      requires Valid()
      modifies this
      ensures Valid()
      ensures At(old(Rest()), ")") ==> r == Ok(Call(name, [], Extension)) && Rest() == old(Rest())[1..]
      ensures !At(old(Rest()), ")") ==>
        var args := ParseArgs(old(Rest()), []);
        Delivers(r, if args.Bad? then Bad(args.error)
                    else if !At(args.rest, ")") then Bad(MissingCallParen)
                    else Got(Call(name, args.value, Extension), args.rest[1..]))
      decreases |Rest()|, 4
    {
      hide ParseArgs, ParseSum;
      ghost var start := Rest();
      ArgsUnfold(start, []);
      var args: seq<ExprNode> := [];
      if !(pos < |toks| && toks[pos] == ")") {
        var arg := Sum();
        if arg.Err? { return arg; }
        args := [arg.value];
        assert [] + args == args;
        while pos < |toks| && toks[pos] == ","
          invariant Valid() && |Rest()| <= |start| && args != []
          invariant ParseArgs(start, []) == if At(Rest(), ",") then ParseArgs(Rest()[1..], args) else Got(args, Rest())
          decreases |Rest()|
        {
          pos := pos + 1;
          ArgsUnfold(Rest(), args);
          arg := Sum();
          if arg.Err? { return arg; }
          args := args + [arg.value];
        }
      }
      if pos == |toks| || toks[pos] != ")" {
        return Err(MissingCallParen);
      }
      pos := pos + 1;
      return Ok(Call(name, args, Extension));
    }
  }

  method ParseText(text: string, guard: bool) returns (r: Result<ExprNode, ParseError>)
    ensures r == Parse(text, guard)
  {
    hide ParseSum, Lex;
    var toks := Tokenize(text);
    if toks.Err? {
      return Err(UnexpectedCharacter(toks.error));
    }
    var p := new Parser(toks.value);
    assert p.Rest() == toks.value;
    var l := p.Sum();
    if l.Err? { return l; }
    if !guard {
      return if p.pos != |p.toks| then Err(TrailingTokens) else l;
    }
    if p.pos == |p.toks| || !IsCmpOp(p.toks[p.pos]) {
      if !IsAcceptedGuard(l.value) { return Err(NotAGuard); }
      return if p.pos != |p.toks| then Err(TrailingTokens) else l;
    }
    var op := p.toks[p.pos];
    assert p.Rest()[0] == op;
    p.pos := p.pos + 1;
    r := p.Sum();
    if r.Err? { return; }
    if p.pos != |p.toks| { return Err(TrailingTokens); }
    return Ok(Cmp(op, l.value, r.value, Extension));
  }
}
