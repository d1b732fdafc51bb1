/** Type inference on expression trees: categories are attached node by node, faults stop it midway. */
module Typing {
  import opened Wrappers
  import opened ValueModel
  import opened Expr
  import opened ExprNames

  type Cats = map<string, Category>

  datatype TypeFault = IllTyped | UnsupportedCall

  /** The tree as far as inference annotated it, and the fault that stopped inference if any. */
  datatype Typed = Typed(node: ExprNode, fault: Option<TypeFault>)

  datatype TypedArgs = TypedArgs(nodes: seq<ExprNode>, fault: Option<TypeFault>)

  predicate GovernedNonNumeric(c: Category) {
    IsCanonical(c) && !IsNumeric(c)
  }

  function JoinNumeric(a: Category, b: Category): Category {
    if a == Money || b == Money then Money else Decimal
  }

  function TypeExpr(n: ExprNode, env: Cats): Typed {
    match n
    case Num(i, _) => Typed(Num(i, Decimal), None)
    case Var(name, _) => Typed(Var(name, if name in env then env[name] else Extension), None)
    case Bin(op, lhs, rhs, d) =>
      var l := TypeExpr(lhs, env);
      if l.fault.Some? then Typed(Bin(op, l.node, rhs, d), l.fault)
      else
        var r := TypeExpr(rhs, env);
        if r.fault.Some? then Typed(Bin(op, l.node, r.node, d), r.fault)
        else if GovernedNonNumeric(l.node.dtype) || GovernedNonNumeric(r.node.dtype) then
          Typed(Bin(op, l.node, r.node, d), Some(IllTyped))
        else Typed(Bin(op, l.node, r.node, JoinNumeric(l.node.dtype, r.node.dtype)), None)
    case Call(name, args, d) =>
      if name == "accepted" then Typed(n, Some(IllTyped))
      else if name != "round" || (|args| != 1 && |args| != 2) then Typed(n, Some(UnsupportedCall))
      else
        var typed := TypeArgs(args, env);
        var partial := Call(name, typed.nodes, d);
        if typed.fault.Some? then Typed(partial, typed.fault)
        else if |args| == 2 && !args[1].Num? then Typed(partial, Some(IllTyped))
        else if GovernedNonNumeric(typed.nodes[0].dtype) then Typed(partial, Some(IllTyped))
        else Typed(Call(name, typed.nodes, typed.nodes[0].dtype), None)
    case Cmp(_, _, _, _) => Typed(n, Some(IllTyped))
  }

  function TypeArgs(args: seq<ExprNode>, env: Cats): (r: TypedArgs)
    ensures |r.nodes| == |args|
  {
    if args == [] then TypedArgs([], None)
    else
      var first := TypeExpr(args[0], env);
      if first.fault.Some? then TypedArgs([first.node] + args[1..], first.fault)
      else
        var rest := TypeArgs(args[1..], env);
        TypedArgs([first.node] + rest.nodes, rest.fault)
  }

  predicate AllDeclared(n: ExprNode, env: Cats) {
    forall i :: 0 <= i < |ExprVars(n)| ==> ExprVars(n)[i] in env
  }

  function TypeGuard(n: ExprNode, env: Cats): Typed {
    if IsAcceptedGuard(n) then
      if |n.args| != 1 || !n.args[0].Var? then Typed(n, Some(IllTyped))
      else
        var x := n.args[0].name;
        if x !in env || env[x] != Evidence then Typed(n, Some(IllTyped))
        else Typed(Call(n.name, [Var(x, Evidence)], n.dtype), None)
    else if !n.Cmp? then Typed(n, Some(IllTyped))
    else
      var l := TypeExpr(n.lhs, env);
      if l.fault.Some? then Typed(Cmp(n.name, l.node, n.rhs, n.dtype), l.fault)
      else
        var r := TypeExpr(n.rhs, env);
        var typed := Cmp(n.name, l.node, r.node, n.dtype);
        if r.fault.Some? then Typed(typed, r.fault)
        else if GovernedNonNumeric(l.node.dtype) || GovernedNonNumeric(r.node.dtype) then Typed(typed, Some(IllTyped))
        else if !AllDeclared(typed, env) then Typed(typed, Some(IllTyped))
        else Typed(typed, None)
  }

  function Infer(n: ExprNode, env: Cats, guard: bool): Typed {
    if guard then TypeGuard(n, env) else TypeExpr(n, env)
  }

  // ---------------------------------------------------------------- inference only sets categories

  lemma {:induction false} SameShapeSelf(n: ExprNode)
    ensures SameShape(n, n)
    decreases n
  {
    match n
    case Num(_, _) =>
    case Var(_, _) =>
    case Bin(_, l, r, _) => SameShapeSelf(l); SameShapeSelf(r);
    case Cmp(_, l, r, _) => SameShapeSelf(l); SameShapeSelf(r);
    case Call(_, args, _) => SameShapesSelf(args);
  }

  lemma {:induction false} SameShapesSelf(args: seq<ExprNode>)
    ensures SameShapes(args, args)
    decreases args
  {
    if args != [] {
      SameShapeSelf(args[0]);
      SameShapesSelf(args[1..]);
    }
  }

  lemma {:induction false} TypeExprKeepsShape(n: ExprNode, env: Cats)
    ensures SameShape(n, TypeExpr(n, env).node)
    decreases n
  {
    SameShapeSelf(n);
    match n
    case Num(_, _) =>
    case Var(_, _) =>
    case Bin(_, l, r, _) =>
      TypeExprKeepsShape(l, env);
      TypeExprKeepsShape(r, env);
      SameShapeSelf(r);
    case Cmp(_, _, _, _) =>
    case Call(_, args, _) =>
      TypeArgsKeepShape(args, env);
  }

  lemma {:induction false} TypeArgsKeepShape(args: seq<ExprNode>, env: Cats)
    ensures SameShapes(args, TypeArgs(args, env).nodes)
    decreases args
  {
    if args != [] {
      TypeExprKeepsShape(args[0], env);
      TypeArgsKeepShape(args[1..], env);
      SameShapesSelf(args[1..]);
    }
  }

  lemma TypeKeepsShape(n: ExprNode, env: Cats, guard: bool)
    ensures SameShape(n, Infer(n, env, guard).node)
  {
    SameShapeSelf(n);
    TypeExprKeepsShape(n, env);
    if n.Cmp? {
      TypeExprKeepsShape(n.lhs, env);
      TypeExprKeepsShape(n.rhs, env);
    }
    if IsAcceptedGuard(n) && |n.args| == 1 {
      assert n.args[1..] == [];
    }
  }

  lemma {:induction false} SameShapeSameNames(a: ExprNode, b: ExprNode)
    requires SameShape(a, b)
    ensures Occurrences(a) == Occurrences(b)
    decreases a
  {
    match a
    case Num(_, _) =>
    case Var(_, _) =>
    case Bin(_, l, r, _) => SameShapeSameNames(l, b.lhs); SameShapeSameNames(r, b.rhs);
    case Cmp(_, l, r, _) => SameShapeSameNames(l, b.lhs); SameShapeSameNames(r, b.rhs);
    case Call(_, args, _) => SameShapesSameNames(args, b.args);
  }

  lemma {:induction false} SameShapesSameNames(xs: seq<ExprNode>, ys: seq<ExprNode>)
    requires SameShapes(xs, ys)
    ensures OccurrencesAll(xs) == OccurrencesAll(ys)
    decreases xs
  {
    if xs != [] {
      SameShapeSameNames(xs[0], ys[0]);
      SameShapesSameNames(xs[1..], ys[1..]);
    }
  }

  // ---------------------------------------------------------------- inference depends on structure and categories only

  /** The two environments say the same of every listed name. */
  ghost predicate SameCats(names: seq<string>, a: Cats, b: Cats) {
    forall x :: x in names ==> (x in a <==> x in b) && (x in a ==> a[x] == b[x])
  }

  lemma SameCatsParts(xs: seq<string>, ys: seq<string>, a: Cats, b: Cats)
    requires SameCats(xs + ys, a, b)
    ensures SameCats(xs, a, b) && SameCats(ys, a, b)
  {
    assert forall x :: x in xs + ys <==> x in xs || x in ys;
  }

  lemma {:induction false} SameShapesLength(xs: seq<ExprNode>, ys: seq<ExprNode>)
    requires SameShapes(xs, ys)
    ensures |xs| == |ys| && forall i :: 0 <= i < |xs| ==> SameShape(xs[i], ys[i])
  {
    if xs != [] {
      SameShapesLength(xs[1..], ys[1..]);
    }
  }

  /** Inference on trees of one shape fails alike, and otherwise yields one tree. */
  lemma {:induction false} TypeExprAgrees(n: ExprNode, m: ExprNode, a: Cats, b: Cats)
    requires SameShape(n, m) && SameCats(Occurrences(n), a, b)
    ensures TypeExpr(n, a).fault == TypeExpr(m, b).fault
    ensures TypeExpr(n, a).fault.None? ==> TypeExpr(n, a).node == TypeExpr(m, b).node
    decreases n
  {
    hide GovernedNonNumeric, JoinNumeric;
    match n
    case Num(_, _) =>
    case Var(_, _) =>
    case Bin(_, l, r, _) =>
      SameCatsParts(Occurrences(l), Occurrences(r), a, b);
      TypeExprAgrees(l, m.lhs, a, b);
      TypeExprAgrees(r, m.rhs, a, b);
    case Cmp(_, _, _, _) =>
    case Call(_, args, _) =>
      SameShapesLength(args, m.args);
      TypeArgsAgree(args, m.args, a, b);
  }

  lemma {:induction false} TypeArgsAgree(xs: seq<ExprNode>, ys: seq<ExprNode>, a: Cats, b: Cats)
    requires SameShapes(xs, ys) && SameCats(OccurrencesAll(xs), a, b)
    ensures TypeArgs(xs, a).fault == TypeArgs(ys, b).fault
    ensures TypeArgs(xs, a).fault.None? ==> TypeArgs(xs, a).nodes == TypeArgs(ys, b).nodes
    decreases xs
  {
    if xs != [] {
      SameCatsParts(Occurrences(xs[0]), OccurrencesAll(xs[1..]), a, b);
      TypeExprAgrees(xs[0], ys[0], a, b);
      TypeArgsAgree(xs[1..], ys[1..], a, b);
    }
  }

  lemma AllDeclaredMeans(n: ExprNode, env: Cats)
    ensures AllDeclared(n, env) <==> forall x :: x in Occurrences(n) ==> x in env
  {
    WalkAddsNew(n, []);
    forall x ensures x in ExprVars(n) <==> x in Occurrences(n) {
      ExprText.AddNewHolds([], Occurrences(n), x);
    }
    hide Walk, Occurrences;
    if forall x :: x in Occurrences(n) ==> x in env {
      assert forall i :: 0 <= i < |ExprVars(n)| ==> ExprVars(n)[i] in ExprVars(n);
    }
  }

  lemma VarsAgree(n: ExprNode, m: ExprNode, a: Cats, b: Cats)
    requires Occurrences(n) == Occurrences(m) && SameCats(Occurrences(n), a, b)
    ensures AllDeclared(n, a) <==> AllDeclared(m, b)
  {
    AllDeclaredMeans(n, a);
    AllDeclaredMeans(m, b);
  }

  lemma InferAgrees(n: ExprNode, m: ExprNode, a: Cats, b: Cats, guard: bool)
    requires SameShape(n, m) && SameCats(Occurrences(n), a, b) && n.dtype == m.dtype
    ensures Infer(n, a, guard).fault == Infer(m, b, guard).fault
    ensures Infer(n, a, guard).fault.None? ==> Infer(n, a, guard).node == Infer(m, b, guard).node
  {
    if !guard {
      TypeExprAgrees(n, m, a, b);
    } else if IsAcceptedGuard(n) {
      SameShapesLength(n.args, m.args);
      if |n.args| == 1 && n.args[0].Var? {
        assert n.args[1..] == [];
        assert n.args[0].name in Occurrences(n);
      }
    } else if n.Cmp? {
      GuardAgrees(n, m, a, b);
    }
  }

  lemma GuardAgrees(n: ExprNode, m: ExprNode, a: Cats, b: Cats)
    requires n.Cmp? && SameShape(n, m) && SameCats(Occurrences(n), a, b) && n.dtype == m.dtype
    ensures TypeGuard(n, a).fault == TypeGuard(m, b).fault
    ensures TypeGuard(n, a).fault.None? ==> TypeGuard(n, a).node == TypeGuard(m, b).node
  {
    SameCatsParts(Occurrences(n.lhs), Occurrences(n.rhs), a, b);
    TypeExprAgrees(n.lhs, m.lhs, a, b);
    TypeExprAgrees(n.rhs, m.rhs, a, b);
    var l, r := TypeExpr(n.lhs, a), TypeExpr(n.rhs, a);
    if l.fault.None? && r.fault.None? {
      var typed := Cmp(n.name, l.node, r.node, n.dtype);
      TypeExprKeepsShape(n.lhs, a);
      TypeExprKeepsShape(n.rhs, a);
      SameShapeSameNames(n.lhs, l.node);
      SameShapeSameNames(n.rhs, r.node);
      assert Occurrences(typed) == Occurrences(n);
      VarsAgree(typed, typed, a, b);
    }
    hide TypeExpr, AllDeclared, SameShape, Occurrences;
  }
}
