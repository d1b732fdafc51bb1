/** The typed expression tree, its checked evaluation and the structural guard key. */
module Expr {
  import opened Wrappers
  import opened Decimal
  import opened ValueModel

  datatype ExprNode =
    | Num(num: I64, dtype: Category)
    | Var(name: string, dtype: Category)
    | Bin(op: char, lhs: ExprNode, rhs: ExprNode, dtype: Category)
    | Call(name: string, args: seq<ExprNode>, dtype: Category)
    | Cmp(name: string, lhs: ExprNode, rhs: ExprNode, dtype: Category)

  /** The stable diagnostic codes of the evaluator, `expr.*`. */
  datatype ExprCode = Overflow | DivideByZero | Unbound | Unsupported | TypeError | Invalid | Internal

  type Env = map<string, I64>

  // ---------------------------------------------------------------- evaluation

  function Checked(i: int): Result<I64, ExprCode> {
    if InI64(i) then Ok(i) else Err(Overflow)
  }

  /** Division that truncates toward zero, as in C++. */
  function TruncatedQuotient(a: int, b: int): int
    requires b != 0
  {
    if a >= 0 then (if b > 0 then a / b else -(a / -b))
    else if b > 0 then -(-a / b)
    else -a / -b
  }

  function CheckedBin(op: char, a: I64, b: I64): Result<I64, ExprCode> {
    if op == '+' then Checked(a + b)
    else if op == '-' then Checked(a - b)
    else if op == '*' then Checked(a * b)
    else if op == '/' then
      if b == 0 then Err(DivideByZero)
      else if a == I64_MIN && b == -1 then Err(Overflow)
      else Checked(TruncatedQuotient(a, b))
    else Err(Invalid)
  }

  function EvalExpr(n: ExprNode, env: Env): Result<I64, ExprCode> {
    match n
    case Num(i, _) => Ok(i)
    case Var(name, _) => if name in env then Ok(env[name]) else Err(Unbound)
    case Bin(op, l, r, _) =>
      var a := EvalExpr(l, env);
      if a.Err? then a
      else
        var b := EvalExpr(r, env);
        if b.Err? then b else CheckedBin(op, a.value, b.value)
    case Call(name, args, _) =>
      if name != "round" then Err(Unsupported)
      else if args == [] then Err(Invalid)
      else EvalExpr(args[0], env)
    case Cmp(_, _, _, _) => Err(TypeError)
  }

  function Compare(op: string, a: I64, b: I64): Result<bool, ExprCode> {
    if op == "<" then Ok(a < b)
    else if op == "<=" then Ok(a <= b)
    else if op == ">" then Ok(a > b)
    else if op == ">=" then Ok(a >= b)
    else if op == "==" then Ok(a == b)
    else if op == "!=" then Ok(a != b)
    else Err(Invalid)
  }

  /** The environment slot that carries the quorum decision of policy `x`. */
  function AcceptedKey(x: string): string {
    "accepted:" + x
  }

  predicate IsAcceptedGuard(n: ExprNode) {
    n.Call? && n.name == "accepted"
  }

  function EvalGuard(n: ExprNode, env: Env): Result<bool, ExprCode> {
    if IsAcceptedGuard(n) then
      if |n.args| != 1 || !n.args[0].Var? then Err(Invalid)
      else
        var key := AcceptedKey(n.args[0].name);
        Ok(key in env && env[key] != 0)
    else if !n.Cmp? then Err(Internal)
    else
      var a := EvalExpr(n.lhs, env);
      if a.Err? then Err(a.error)
      else
        var b := EvalExpr(n.rhs, env);
        if b.Err? then Err(b.error) else Compare(n.name, a.value, b.value)
  }

  // ---------------------------------------------------------------- the structural key

  /** The deterministic serialization that guards are partitioned by. */
  function GuardKey(n: ExprNode): string {
    match n
    case Num(i, _) => "#" + ToText(i)
    case Var(name, _) => "$" + name
    case Bin(op, l, r, _) => "(" + [op] + " " + GuardKey(l) + " " + GuardKey(r) + ")"
    case Cmp(name, l, r, _) => "(" + name + " " + GuardKey(l) + " " + GuardKey(r) + ")"
    case Call(name, args, _) => "(" + name + ArgKeys(args) + ")"
  }

  function ArgKeys(args: seq<ExprNode>): string {
    if args == [] then "" else " " + GuardKey(args[0]) + ArgKeys(args[1..])
  }

  /** The key of an optional guard; an unconditional effect has the empty key. */
  function OptGuardKey(g: Option<ExprNode>): string {
    if g.None? then "" else GuardKey(g.value)
  }

  predicate IsBinOp(c: char) {
    c == '+' || c == '-' || c == '*' || c == '/'
  }

  predicate IsCmpOp(s: string) {
    s == "<" || s == "<=" || s == ">" || s == ">=" || s == "==" || s == "!="
  }

  /** The guards the front end types: comparisons, and accepted() on one variable. */
  predicate GuardForm(n: ExprNode) {
    || (n.Cmp? && IsCmpOp(n.name))
    || (IsAcceptedGuard(n) && |n.args| == 1 && n.args[0].Var?)
  }

  predicate Clean(s: string) {
    ' ' !in s && ')' !in s
  }

  /** Trees over the closed operator vocabulary whose names hold no delimiter, such as every parsed tree. */
  predicate KeySafe(n: ExprNode) {
    match n
    case Num(_, _) => true
    case Var(name, _) => Clean(name)
    case Bin(op, l, r, _) => IsBinOp(op) && KeySafe(l) && KeySafe(r)
    case Cmp(name, l, r, _) => IsCmpOp(name) && KeySafe(l) && KeySafe(r)
    case Call(name, args, _) =>
      Clean(name) && !IsCmpOp(name) && !(|name| == 1 && IsBinOp(name[0])) && AllKeySafe(args)
  }

  predicate AllKeySafe(args: seq<ExprNode>) {
    args == [] || (KeySafe(args[0]) && AllKeySafe(args[1..]))
  }

  /** Equality up to the value categories carried by the nodes. */
  predicate SameShape(a: ExprNode, b: ExprNode) {
    match a
    case Num(i, _) => b.Num? && b.num == i
    case Var(name, _) => b.Var? && b.name == name
    case Bin(op, l, r, _) => b.Bin? && b.op == op && SameShape(l, b.lhs) && SameShape(r, b.rhs)
    case Cmp(name, l, r, _) => b.Cmp? && b.name == name && SameShape(l, b.lhs) && SameShape(r, b.rhs)
    case Call(name, args, _) => b.Call? && b.name == name && SameShapes(args, b.args)
  }

  predicate SameShapes(xs: seq<ExprNode>, ys: seq<ExprNode>) {
    if xs == [] then ys == []
    else ys != [] && SameShape(xs[0], ys[0]) && SameShapes(xs[1..], ys[1..])
  }

  lemma {:induction false} SameShapeSameKey(a: ExprNode, b: ExprNode)
    requires SameShape(a, b)
    ensures GuardKey(a) == GuardKey(b)
    decreases a
  {
    match a
    case Num(_, _) =>
    case Var(_, _) =>
    case Bin(_, l, r, _) =>
      SameShapeSameKey(l, b.lhs);
      SameShapeSameKey(r, b.rhs);
    case Cmp(_, l, r, _) =>
      SameShapeSameKey(l, b.lhs);
      SameShapeSameKey(r, b.rhs);
    case Call(_, args, _) =>
      SameShapesSameKeys(args, b.args);
  }

  lemma {:induction false} SameShapesSameKeys(xs: seq<ExprNode>, ys: seq<ExprNode>)
    requires SameShapes(xs, ys)
    ensures ArgKeys(xs) == ArgKeys(ys)
    decreases xs
  {
    if xs != [] {
      SameShapeSameKey(xs[0], ys[0]);
      SameShapesSameKeys(xs[1..], ys[1..]);
    }
  }

  /** A token ends where the text ends or a delimiter begins. */
  predicate Delimited(u: string) {
    u == [] || u[0] == ' ' || u[0] == ')'
  }

  /** Where the first delimiter stands. */
  function TokenLength(w: string): nat {
    if Delimited(w) then 0 else 1 + TokenLength(w[1..])
  }

  lemma {:induction false} TokenIsMeasured(s: string, u: string)
    requires Clean(s) && Delimited(u)
    ensures TokenLength(s + u) == |s|
  {
    if s == [] {
      assert s + u == u;
    } else {
      assert (s + u)[0] == s[0] && (s + u)[1..] == s[1..] + u;
      TokenIsMeasured(s[1..], u);
    }
  }

  lemma TokenEnds(s: string, t: string, u: string, v: string)
    requires Clean(s) && Clean(t) && Delimited(u) && Delimited(v)
    requires s + u == t + v
    ensures s == t && u == v
  {
    TokenIsMeasured(s, u);
    TokenIsMeasured(t, v);
    assert s == (s + u)[..|s|] && t == (t + v)[..|t|];
    Cancel(s, u, v);
  }

  lemma Cancel(h: string, u: string, v: string)
    requires h + u == h + v
    ensures u == v
  {
    assert u == (h + u)[|h|..];
    assert v == (h + v)[|h|..];
  }

  lemma Assoc(a: string, b: string, c: string)
    ensures a + b + c == a + (b + c)
  {
  }

  lemma SpacedPair(l: string, r: string, u: string)
    ensures " " + l + " " + r + ")" + u == " " + (l + (" " + (r + (")" + u))))
  {
  }

  /** The token after an opening parenthesis. */
  function Head(n: ExprNode): string
    requires n.Bin? || n.Cmp? || n.Call?
  {
    if n.Bin? then [n.op] else n.name
  }

  /** What follows the head of a compound key, closing parenthesis included. */
  function Tail(n: ExprNode): string
    requires n.Bin? || n.Cmp? || n.Call?
  {
    if n.Call? then ArgKeys(n.args) + ")"
    else " " + GuardKey(n.lhs) + " " + GuardKey(n.rhs) + ")"
  }

  lemma HeadThenTail(n: ExprNode)
    requires n.Bin? || n.Cmp? || n.Call?
    ensures GuardKey(n) == "(" + (Head(n) + Tail(n))
  {
    if n.Call? {
      Assoc("(" + n.name, ArgKeys(n.args), ")");
      Assoc("(", n.name, ArgKeys(n.args) + ")");
    } else {
      SpacedPair(GuardKey(n.lhs), GuardKey(n.rhs), "");
      Parenthesized(Head(n), GuardKey(n.lhs), GuardKey(n.rhs));
    }
  }

  lemma Parenthesized(h: string, l: string, r: string)
    ensures "(" + h + " " + l + " " + r + ")" == "(" + (h + (" " + l + " " + r + ")"))
  {
  }

  lemma HeadAndTail(n: ExprNode, u: string)
    requires KeySafe(n) && (n.Bin? || n.Cmp? || n.Call?)
    ensures GuardKey(n) + u == "(" + (Head(n) + (Tail(n) + u))
    ensures Clean(Head(n)) && Delimited(Tail(n) + u)
  {
    HeadThenTail(n);
    assert Delimited(Tail(n)) && Tail(n) != [] by {
      if n.Call? && n.args != [] {
        assert Tail(n)[0] == ' ';
      }
    }
    assert Clean(Head(n));
    hide *;
    Assoc("(", Head(n) + Tail(n), u);
    Assoc(Head(n), Tail(n), u);
    assert Delimited(Tail(n) + u) by {
      FirstOf(Tail(n), u);
    }
  }

  lemma FirstOf(t: string, u: string)
    requires t != [] && Delimited(t)
    ensures Delimited(t + u)
  {
  }

  lemma HeadDecides(a: ExprNode, b: ExprNode)
    requires KeySafe(a) && (a.Bin? || a.Cmp? || a.Call?)
    requires KeySafe(b) && (b.Bin? || b.Cmp? || b.Call?)
    requires Head(a) == Head(b)
    ensures a.Bin? <==> b.Bin?
    ensures a.Cmp? <==> b.Cmp?
    ensures a.Bin? ==> a.op == b.op
    ensures !a.Bin? ==> a.name == b.name
  {
    assert a.Bin? ==> Head(a)[0] == a.op;
    assert b.Bin? ==> Head(b)[0] == b.op;
  }

  lemma FirstChar(n: ExprNode, u: string)
    ensures GuardKey(n) != []
    ensures n.Num? ==> (GuardKey(n) + u)[0] == '#'
    ensures n.Var? ==> (GuardKey(n) + u)[0] == '$'
    ensures n.Bin? || n.Cmp? || n.Call? ==> (GuardKey(n) + u)[0] == '('
  {
  }

  /** A key can be read off the front of a text in one way only. */
  lemma {:induction false} KeyReadsBack(a: ExprNode, b: ExprNode, u: string, v: string)
    requires KeySafe(a) && KeySafe(b) && Delimited(u) && Delimited(v)
    requires GuardKey(a) + u == GuardKey(b) + v
    ensures SameShape(a, b) && u == v
    decreases a, 2
  {
    FirstChar(a, u);
    FirstChar(b, v);
    if a.Num? {
      Assoc("#", ToText(a.num), u);
      Assoc("#", ToText(b.num), v);
      Cancel("#", ToText(a.num) + u, ToText(b.num) + v);
      TokenEnds(ToText(a.num), ToText(b.num), u, v);
      TextInjective(a.num, b.num);
    } else if a.Var? {
      Assoc("$", a.name, u);
      Assoc("$", b.name, v);
      Cancel("$", a.name + u, b.name + v);
      TokenEnds(a.name, b.name, u, v);
    } else {
      CompoundReadsBack(a, b, u, v);
    }
  }

  lemma {:induction false} CompoundReadsBack(a: ExprNode, b: ExprNode, u: string, v: string)
    requires KeySafe(a) && KeySafe(b) && Delimited(u) && Delimited(v)
    requires (a.Bin? || a.Cmp? || a.Call?) && (b.Bin? || b.Cmp? || b.Call?)
    requires GuardKey(a) + u == GuardKey(b) + v
    ensures SameShape(a, b) && u == v
    decreases a, 1
  {
    assert Head(a) == Head(b) && Tail(a) + u == Tail(b) + v by {
      hide GuardKey, ArgKeys, KeySafe, Head, Tail, Delimited, Clean;
      HeadAndTail(a, u);
      HeadAndTail(b, v);
      Cancel("(", Head(a) + (Tail(a) + u), Head(b) + (Tail(b) + v));
      TokenEnds(Head(a), Head(b), Tail(a) + u, Tail(b) + v);
    }
    HeadDecides(a, b);
    hide Head, Delimited, Clean;
    if a.Call? {
      Assoc(ArgKeys(a.args), ")", u);
      Assoc(ArgKeys(b.args), ")", v);
      ArgsReadBack(a.args, b.args, ")" + u, ")" + v);
      Cancel(")", u, v);
    } else {
      OperandsReadBack(a, b, u, v);
    }
  }

  lemma {:induction false} OperandsReadBack(a: ExprNode, b: ExprNode, u: string, v: string)
    requires (a.Bin? && b.Bin?) || (a.Cmp? && b.Cmp?)
    requires KeySafe(a.lhs) && KeySafe(a.rhs) && KeySafe(b.lhs) && KeySafe(b.rhs)
    requires " " + GuardKey(a.lhs) + " " + GuardKey(a.rhs) + ")" + u
        == " " + GuardKey(b.lhs) + " " + GuardKey(b.rhs) + ")" + v
    ensures SameShape(a.lhs, b.lhs) && SameShape(a.rhs, b.rhs) && u == v
    decreases a, 0
  {
    hide GuardKey, KeySafe, SameShape;
    var restA, restB := " " + (GuardKey(a.rhs) + (")" + u)), " " + (GuardKey(b.rhs) + (")" + v));
    SpacedPair(GuardKey(a.lhs), GuardKey(a.rhs), u);
    SpacedPair(GuardKey(b.lhs), GuardKey(b.rhs), v);
    Cancel(" ", GuardKey(a.lhs) + restA, GuardKey(b.lhs) + restB);
    KeyReadsBack(a.lhs, b.lhs, restA, restB);
    Cancel(" ", GuardKey(a.rhs) + (")" + u), GuardKey(b.rhs) + (")" + v));
    KeyReadsBack(a.rhs, b.rhs, ")" + u, ")" + v);
    Cancel(")", u, v);
  }

  lemma {:induction false} ArgsReadBack(xs: seq<ExprNode>, ys: seq<ExprNode>, u: string, v: string)
    requires AllKeySafe(xs) && AllKeySafe(ys)
    requires u != [] && v != [] && u[0] == ')' == v[0]
    requires ArgKeys(xs) + u == ArgKeys(ys) + v
    ensures SameShapes(xs, ys) && u == v
    decreases xs
  {
    ArgsFirst(xs, u);
    ArgsFirst(ys, v);
    if xs == [] {
      assert u == ArgKeys(xs) + u && v == ArgKeys(ys) + v;
    } else {
      assert Delimited(ArgKeys(xs[1..]) + u) && Delimited(ArgKeys(ys[1..]) + v) by {
        ArgsFirst(xs[1..], u);
        ArgsFirst(ys[1..], v);
      }
      var restX, restY := ArgKeys(xs[1..]) + u, ArgKeys(ys[1..]) + v;
      assert GuardKey(xs[0]) + restX == GuardKey(ys[0]) + restY by {
        hide GuardKey;
        Spaced(GuardKey(xs[0]), ArgKeys(xs[1..]), u);
        Spaced(GuardKey(ys[0]), ArgKeys(ys[1..]), v);
        Cancel(" ", GuardKey(xs[0]) + restX, GuardKey(ys[0]) + restY);
      }
      hide GuardKey, ArgKeys, Delimited;
      KeyReadsBack(xs[0], ys[0], restX, restY);
      ArgsReadBack(xs[1..], ys[1..], u, v);
    }
  }

  lemma Spaced(k: string, rest: string, u: string)
    ensures " " + k + rest + u == " " + (k + (rest + u))
  {
  }

  lemma ArgsFirst(xs: seq<ExprNode>, u: string)
    requires u != [] && u[0] == ')'
    ensures ArgKeys(xs) + u != []
    ensures (ArgKeys(xs) + u)[0] == if xs == [] then ')' else ' '
  {
  }

  /** Two guards share a key exactly when they are structurally identical. */
  lemma GuardKeyIsStructural(a: ExprNode, b: ExprNode)
    requires KeySafe(a) && KeySafe(b)
    ensures GuardKey(a) == GuardKey(b) <==> SameShape(a, b)
  {
    if GuardKey(a) == GuardKey(b) {
      assert GuardKey(a) + "" == GuardKey(a) && GuardKey(b) + "" == GuardKey(b);
      KeyReadsBack(a, b, "", "");
    }
    if SameShape(a, b) {
      SameShapeSameKey(a, b);
    }
  }

  lemma {:induction false} SameShapeSameSafety(a: ExprNode, b: ExprNode)
    requires SameShape(a, b)
    ensures KeySafe(a) <==> KeySafe(b)
    decreases a
  {
    hide Clean, IsCmpOp, IsBinOp;
    match a
    case Num(_, _) =>
    case Var(_, _) =>
    case Bin(_, l, r, _) => SameShapeSameSafety(l, b.lhs); SameShapeSameSafety(r, b.rhs);
    case Cmp(_, l, r, _) => SameShapeSameSafety(l, b.lhs); SameShapeSameSafety(r, b.rhs);
    case Call(_, args, _) => SameShapesSameSafety(args, b.args);
  }

  lemma {:induction false} SameShapesSameSafety(xs: seq<ExprNode>, ys: seq<ExprNode>)
    requires SameShapes(xs, ys)
    ensures AllKeySafe(xs) <==> AllKeySafe(ys)
    decreases xs
  {
    if xs != [] {
      SameShapeSameSafety(xs[0], ys[0]);
      SameShapesSameSafety(xs[1..], ys[1..]);
    }
  }

  /**
   Exactly which guards hide behind the key of a safe one: among all guards with its key, those of
   its structure are the safe ones.
   */
  lemma SharedKeyExactly(a: ExprNode, b: ExprNode)
    requires KeySafe(a) && GuardKey(a) == GuardKey(b)
    ensures SameShape(a, b) <==> KeySafe(b)
  {
    if SameShape(a, b) {
      SameShapeSameSafety(a, b);
    }
    if KeySafe(b) {
      GuardKeyIsStructural(a, b);
    }
  }

  /** A name that holds a space makes two different calls share a key. */
  lemma GuardKeyCollides(d: Category)
    ensures
      var a := Call("round", [Var("x", d), Num(2, d)], d);
      var b := Call("round", [Var("x #2", d)], d);
      GuardKey(a) == GuardKey(b) && !SameShape(a, b)
  {
    var x, two := Var("x", d), Num(2, d);
    assert [x, two][1..] == [two];
    assert ArgKeys([two]) == " " + "#2" + "";
    assert ArgKeys([x, two]) == " " + "$x" + ArgKeys([two]);
    assert ArgKeys([Var("x #2", d)]) == " " + "$x #2" + "";
    assert !SameShapes([two], []);
  }

  // ---------------------------------------------------------------- shape decides meaning

  lemma {:induction false} SameShapeSameValue(a: ExprNode, b: ExprNode, env: Env)
    requires SameShape(a, b)
    ensures EvalExpr(a, env) == EvalExpr(b, env)
  {
    match a
    case Num(_, _) =>
    case Var(_, _) =>
    case Bin(_, l, r, _) =>
      SameShapeSameValue(l, b.lhs, env);
      SameShapeSameValue(r, b.rhs, env);
    case Cmp(_, l, r, _) =>
    case Call(_, args, _) =>
      if args != [] {
        SameShapeSameValue(args[0], b.args[0], env);
      }
  }

  /** Guards of one structure say the same in every environment. */
  lemma SameShapeSameTruth(a: ExprNode, b: ExprNode, env: Env)
    requires SameShape(a, b)
    ensures EvalGuard(a, env) == EvalGuard(b, env)
  {
    if a.Cmp? {
      SameShapeSameValue(a.lhs, b.lhs, env);
      SameShapeSameValue(a.rhs, b.rhs, env);
    } else if a.Call? && |a.args| == 1 {
      assert SameShape(a.args[0], b.args[0]);
      assert SameShapes(a.args[1..], b.args[1..]);
    } else if a.Call? && a.args != [] {
      assert SameShapes(a.args[1..], b.args[1..]);
      assert a.args[1..] != [] && b.args[1..] != [];
    }
  }

  /** No guard on either side, or guards of one structure. */
  predicate SameStructure(a: Option<ExprNode>, b: Option<ExprNode>) {
    a.Some? == b.Some? && (a.Some? ==> SameShape(a.value, b.value))
  }

  /** No guard at all has a key of its own. */
  lemma UnguardedKey(a: Option<ExprNode>)
    ensures OptGuardKey(a) == "" <==> a.None?
  {
    if a.Some? {
      FirstChar(a.value, "");
    }
  }

  /** Among guards with clean names the key decides the structure, so the legs filed under it hold alike. */
  lemma SafeKeyFixesStructure(a: Option<ExprNode>, b: Option<ExprNode>)
    requires a.Some? ==> KeySafe(a.value)
    requires b.Some? ==> KeySafe(b.value)
    requires OptGuardKey(a) == OptGuardKey(b)
    ensures SameStructure(a, b)
  {
    UnguardedKey(a);
    UnguardedKey(b);
    if a.Some? && b.Some? {
      GuardKeyIsStructural(a.value, b.value);
    }
  }
}
