/**
 From expression text to the structured attribute, and the verifier that checks the attribute
 against its dependencies, its source text and its types. What the front end builds, the verifier
 accepts exactly when the expression is well typed.
 */
module Frontend {
  import opened Wrappers
  import opened Decimal
  import opened ValueModel
  import opened Expr
  import opened Bags
  import opened ExprText
  import opened ExprParser
  import opened ExprGrammar
  import opened ExprNames
  import opened Typing
  import opened ExprAttr

  // ---------------------------------------------------------------- building

  /** The dependencies of a text: its uncalled identifiers in order of first appearance. */
  function DepsOf(text: string): seq<string> {
    FirstSeen(ScanNames(text))
  }

  /** The declared categories of the names in `deps`. */
  function Restrict(defined: Cats, deps: seq<string>): Cats {
    map x | x in deps && x in defined :: defined[x]
  }

  lemma {:induction false} ScanIsShort(s: string)
    ensures |ScanNames(s)| <= |s|
    ensures forall x :: x in ScanNames(s) ==> x != ""
    decreases |s|
  {
    if s != [] {
      if IsIdentStart(s[0]) {
        assert Span(IsIdent, s) > 0;
        ScanIsShort(s[Span(IsIdent, s)..]);
      } else {
        ScanIsShort(s[1..]);
      }
    }
  }

  lemma {:induction false} AddNewIsShort(seen: seq<string>, xs: seq<string>)
    ensures |AddNew(seen, xs)| <= |seen| + |xs|
    decreases |xs|
  {
    if xs != [] {
      AddNewIsShort(if xs[0] in seen then seen else seen + [xs[0]], xs[1..]);
    }
  }

  lemma DepsAreWellFormed(text: string)
    ensures Distinct(DepsOf(text)) && "" !in DepsOf(text) && |DepsOf(text)| <= |text|
  {
    ScanIsShort(text);
    AddNewIsShort([], ScanNames(text));
    AddNewStaysDistinct([], ScanNames(text));
    AddNewHolds([], ScanNames(text), "");
  }

  lemma SlotsGrow(deps: seq<string>, i: nat)
    requires i < |deps| <= I64_MAX
    ensures SlotsOf(deps[..i + 1]) == SlotsOf(deps[..i])[deps[i] := i]
  {
    assert deps[..i + 1][..i] == deps[..i];
  }

  /** Parse, type as far as typing goes, and encode; a typing fault is left to the verifier. */
  method BuildExprAttr(text: string, defined: Cats, guard: bool) returns (r: Result<Attr, ParseError>)
    requires |text| <= I64_MAX
    ensures |DepsOf(text)| <= I64_MAX
    ensures r.Ok? <==> Parse(text, guard).Ok?
    ensures r.Err? ==> Parse(text, guard) == Err(r.error)
    ensures r.Ok? ==>
      r.value == ToAttr(Infer(Parse(text, guard).value, Restrict(defined, DepsOf(text)), guard).node,
                        SlotsOf(DepsOf(text)))
  {
    hide Parse, Infer, SlotsOf, Distinct;
    DepsAreWellFormed(text);
    var deps := ComputeDeps(text);
    var env: Cats, slotOf: map<string, I64> := map[], map[];
    NoSlots();
    assert deps[..0] == [];
    for slot := 0 to |deps|
      invariant env == Restrict(defined, deps[..slot])
      invariant slotOf == SlotsOf(deps[..slot])
    {
      SlotsGrow(deps, slot);
      assert deps[..slot + 1] == deps[..slot] + [deps[slot]];
      if deps[slot] in defined {
        env := env[deps[slot] := defined[deps[slot]]];
      }
      slotOf := slotOf[deps[slot] := slot];
    }
    assert deps[..|deps|] == deps;
    var node := ParseText(text, guard);
    if node.Err? {
      return Err(node.error);
    }
    return Ok(ToAttr(Infer(node.value, env, guard).node, slotOf));
  }

  lemma NoSlots()
    ensures SlotsOf([]) == map[]
  {
  }

  // ---------------------------------------------------------------- verifying

  /** The carried category of every node is the inferred one. */
  predicate CarriesTypes(a: Attr, n: ExprNode)
    decreases a
  {
    && a.dtype == CategoryName(n.dtype)
    && (n.Bin? || n.Cmp? ==>
          && (|a.children| > 0 ==> CarriesTypes(a.children[0], n.lhs))
          && (|a.children| > 1 ==> CarriesTypes(a.children[1], n.rhs)))
    && (n.Call? ==> forall i :: 0 <= i < |n.args| && i < |a.children| ==> CarriesTypes(a.children[i], n.args[i]))
  }

  datatype ExprVerdict =
    | Accepted
    | BadSlots(slots: SlotError)
    | Unparsed(parse: ParseError)
    | WrongText
    | Faulty(fault: TypeFault)
    | WrongCategory

  /** An attribute that means what its text says, over exactly its dependencies, with true types. */
  ghost predicate Accepts(a: Attr, deps: seq<string>, text: string, env: Cats, guard: bool)
    requires Canonical(a)
  {
    && Bound(a, deps)
    && Parse(text, guard).Ok?
    && GuardKey(Parse(text, guard).value) == GuardKey(ToNode(a, deps))
    && var typed := Infer(ToNode(a, deps), env, guard);
       typed.fault.None? && CarriesTypes(a, typed.node)
  }

  method VerifyTypedExpr(a: Attr, deps: seq<string>, text: string, env: Cats, guard: bool) returns (v: ExprVerdict)
    requires Canonical(a)
    ensures v == Accepted <==> Accepts(a, deps, text, env, guard)
  {
    hide Parse, Infer, GuardKey, Bound, ToNode, Canonical;
    var slots := VerifyDepBijection(a, deps);
    if slots.Some? {
      return BadSlots(slots.value);
    }
    var node := ToNode(a, deps);
    var fromText := ParseText(text, guard);
    if fromText.Err? {
      return Unparsed(fromText.error);
    }
    if GuardKey(fromText.value) != GuardKey(node) {
      return WrongText;
    }
    var typed := Infer(node, env, guard);
    if typed.fault.Some? {
      return Faulty(typed.fault.value);
    }
    if !CarriesTypes(a, typed.node) {
      return WrongCategory;
    }
    return Accepted;
  }

  // ---------------------------------------------------------------- encodings of parsed trees

  /** Every call has an argument. */
  predicate CallsApplied(n: ExprNode) {
    match n
    case Num(_, _) => true
    case Var(_, _) => true
    case Bin(_, l, r, _) => CallsApplied(l) && CallsApplied(r)
    case Cmp(_, l, r, _) => CallsApplied(l) && CallsApplied(r)
    case Call(_, args, _) => args != [] && AllApplied(args)
  }

  predicate AllApplied(args: seq<ExprNode>) {
    args == [] || (CallsApplied(args[0]) && AllApplied(args[1..]))
  }

  ghost predicate Slotted(names: seq<string>, slots: map<string, I64>) {
    forall x :: x in names ==> x in slots && slots[x] >= 0
  }

  lemma SlottedParts(xs: seq<string>, ys: seq<string>, slots: map<string, I64>)
    requires Slotted(xs + ys, slots)
    ensures Slotted(xs, slots) && Slotted(ys, slots)
  {
    assert forall x :: x in xs + ys <==> x in xs || x in ys;
  }

  lemma {:induction false} SourceEncodes(c: Source, slots: map<string, I64>)
    requires IsSum(c) && Slotted(Occurrences(Tree(c)), slots)
    ensures Encodable(Tree(c), slots) <==> CallsApplied(Tree(c))
    decreases c
  {
    Levels(c);
    match c
    case Number(_) =>
    case Name(text) =>
      assert text in Occurrences(Tree(c));
    case Paren(inner) =>
      SourceEncodes(inner, slots);
    case Apply(_, args) =>
      SourcesEncode(args, slots);
    case Infix(_, l, r) =>
      OperatorsAreNotNames(c);
      SlottedParts(Occurrences(Tree(l)), Occurrences(Tree(r)), slots);
      SourceEncodes(l, slots);
      SourceEncodes(r, slots);
  }

  lemma {:induction false} SourcesEncode(args: seq<Source>, slots: map<string, I64>)
    requires (forall i :: 0 <= i < |args| ==> IsSum(args[i])) && Slotted(OccurrencesAll(Trees(args)), slots)
    ensures AllEncodable(Trees(args), slots) <==> AllApplied(Trees(args))
    decreases args
  {
    if args != [] {
      assert Trees(args)[1..] == Trees(args[1..]);
      SlottedParts(Occurrences(Tree(args[0])), OccurrencesAll(Trees(args[1..])), slots);
      SourceEncodes(args[0], slots);
      SourcesEncode(args[1..], slots);
    }
  }

  /** A parsed tree whose variables have slots is encodable exactly when its calls have arguments. */
  lemma ParsedEncodes(text: string, guard: bool, slots: map<string, I64>)
    requires Parse(text, guard).Ok? && Slotted(Occurrences(Parse(text, guard).value), slots)
    ensures Encodable(Parse(text, guard).value, slots) <==> CallsApplied(Parse(text, guard).value)
  {
    var n, toks := Parse(text, guard).value, Lex(text).value;
    hide ParseValueTokens, ParseGuardTokens, Lex, Spell, Tree, IsSum, Slotted, IsCmpOp;
    if guard {
      GuardTokensExactly(toks, n);
    } else {
      ValueTokensExactly(toks, n);
    }
    if SpellsValue(toks, n) {
      var c :| IsSum(c) && Spell(c) == toks && Tree(c) == n;
      SourceEncodes(c, slots);
    } else {
      var l, r, op :| IsSum(l) && IsSum(r) && IsCmpOp(op)
        && toks == Spell(l) + ([op] + Spell(r)) && n == Cmp(op, Tree(l), Tree(r), Extension);
      SlottedParts(Occurrences(Tree(l)), Occurrences(Tree(r)), slots);
      SourceEncodes(l, slots);
      SourceEncodes(r, slots);
    }
  }

  lemma {:induction false} ShapeEncodes(a: ExprNode, b: ExprNode, slots: map<string, I64>)
    requires SameShape(a, b)
    ensures Encodable(a, slots) <==> Encodable(b, slots)
    decreases a
  {
    match a
    case Num(_, _) =>
    case Var(_, _) =>
    case Bin(_, l, r, _) => ShapeEncodes(l, b.lhs, slots); ShapeEncodes(r, b.rhs, slots);
    case Cmp(_, l, r, _) => ShapeEncodes(l, b.lhs, slots); ShapeEncodes(r, b.rhs, slots);
    case Call(_, args, _) => ShapesEncode(args, b.args, slots);
  }

  lemma {:induction false} ShapesEncode(xs: seq<ExprNode>, ys: seq<ExprNode>, slots: map<string, I64>)
    requires SameShapes(xs, ys)
    ensures AllEncodable(xs, slots) <==> AllEncodable(ys, slots)
    ensures xs == [] <==> ys == []
    decreases xs
  {
    if xs != [] {
      ShapeEncodes(xs[0], ys[0], slots);
      ShapesEncode(xs[1..], ys[1..], slots);
    }
  }

  // ---------------------------------------------------------------- the slots of an encoding

  function SlotList(names: seq<string>, slots: map<string, I64>): seq<int> {
    if names == [] then [] else [SlotOf(slots, names[0]) as int] + SlotList(names[1..], slots)
  }

  lemma {:induction false} SlotListAppend(xs: seq<string>, ys: seq<string>, slots: map<string, I64>)
    ensures SlotList(xs + ys, slots) == SlotList(xs, slots) + SlotList(ys, slots)
  {
    if xs == [] {
      assert xs + ys == ys;
    } else {
      assert (xs + ys)[1..] == xs[1..] + ys;
      SlotListAppend(xs[1..], ys, slots);
    }
  }

  lemma PairSlots(l: Attr, r: Attr)
    ensures CollectAll([l, r]) == CollectSlots(l) + CollectSlots(r)
    ensures CollectAll([]) == []
  {
    assert [l, r][1..] == [r] && [r][1..] == [];
    assert CollectAll([r]) == CollectSlots(r) + [];
  }

  lemma {:induction false} EncodedSlots(n: ExprNode, slots: map<string, I64>)
    ensures CollectSlots(ToAttr(n, slots)) == SlotList(Occurrences(n), slots)
    decreases n
  {
    match n
    case Num(_, _) =>
    case Var(name, _) =>
      assert [name][1..] == [];
    case Bin(_, l, r, _) =>
      EncodedSlots(l, slots);
      EncodedSlots(r, slots);
      PairSlots(ToAttr(l, slots), ToAttr(r, slots));
      SlotListAppend(Occurrences(l), Occurrences(r), slots);
    case Cmp(_, l, r, _) =>
      EncodedSlots(l, slots);
      EncodedSlots(r, slots);
      PairSlots(ToAttr(l, slots), ToAttr(r, slots));
      SlotListAppend(Occurrences(l), Occurrences(r), slots);
    case Call(_, args, _) =>
      AllEncodedSlots(args, slots);
  }

  lemma {:induction false} AllEncodedSlots(args: seq<ExprNode>, slots: map<string, I64>)
    ensures CollectAll(ToAttrs(args, slots)) == SlotList(OccurrencesAll(args), slots)
    decreases args
  {
    if args != [] {
      EncodedSlots(args[0], slots);
      AllEncodedSlots(args[1..], slots);
      assert ToAttrs(args, slots)[1..] == ToAttrs(args[1..], slots);
      SlotListAppend(Occurrences(args[0]), OccurrencesAll(args[1..]), slots);
    }
  }

  lemma {:induction false} SlotListHolds(names: seq<string>, slots: map<string, I64>)
    ensures forall x :: x in names ==> SlotOf(slots, x) as int in SlotList(names, slots)
    ensures forall s :: s in SlotList(names, slots) ==> exists x :: x in names && SlotOf(slots, x) == s
  {
    if names != [] {
      SlotListHolds(names[1..], slots);
    }
  }

  lemma PositionIsSlot(deps: seq<string>, i: nat)
    requires |deps| <= I64_MAX && Distinct(deps) && i < |deps|
    ensures SlotOf(SlotsOf(deps), deps[i]) == i
  {
    SlotsArePositions(deps);
  }

  lemma NameIsPosition(deps: seq<string>, x: string)
    requires |deps| <= I64_MAX && Distinct(deps) && x in deps
    ensures 0 <= SlotOf(SlotsOf(deps), x) < |deps|
  {
    SlotsArePositions(deps);
  }

  lemma BoundMeans(a: Attr, deps: seq<string>)
    requires Distinct(deps) && "" !in deps
    requires forall s :: s in CollectSlots(a) ==> 0 <= s < |deps|
    requires forall i :: 0 <= i < |deps| ==> i in CollectSlots(a)
    ensures Bound(a, deps)
  {
  }

  lemma SlottedMeans(names: seq<string>, deps: seq<string>)
    requires |deps| <= I64_MAX && Distinct(deps) && forall x :: x in deps <==> x in names
    ensures Slotted(names, SlotsOf(deps))
  {
    SlotsArePositions(deps);
  }

  /** With the dependencies of the tree itself, every variable has a slot and every slot a variable. */
  lemma EncodingIsBound(n: ExprNode, deps: seq<string>)
    requires |deps| <= I64_MAX && Distinct(deps) && "" !in deps
    requires forall x :: x in deps <==> x in Occurrences(n)
    ensures Bound(ToAttr(n, SlotsOf(deps)), deps)
    ensures Slotted(Occurrences(n), SlotsOf(deps)) && Inverts(SlotsOf(deps), deps)
  {
    var slots := SlotsOf(deps);
    SlotsArePositions(deps);
    EncodedSlots(n, slots);
    SlotListHolds(Occurrences(n), slots);
    var collected := CollectSlots(ToAttr(n, slots));
    hide *;
    forall i | 0 <= i < |deps| ensures i in collected {
      assert deps[i] in Occurrences(n);
      PositionIsSlot(deps, i);
    }
    forall s | s in collected ensures 0 <= s < |deps| {
      var x :| x in Occurrences(n) && SlotOf(slots, x) == s;
      NameIsPosition(deps, x);
    }
    BoundMeans(ToAttr(n, slots), deps);
    SlottedMeans(Occurrences(n), deps);
  }

  // ---------------------------------------------------------------- front end and verifier agree

  lemma {:induction false} EncodingCarriesTypes(n: ExprNode, slots: map<string, I64>)
    ensures CarriesTypes(ToAttr(n, slots), n)
    decreases n
  {
    match n
    case Num(_, _) =>
    case Var(_, _) =>
    case Bin(_, l, r, _) => EncodingCarriesTypes(l, slots); EncodingCarriesTypes(r, slots);
    case Cmp(_, l, r, _) => EncodingCarriesTypes(l, slots); EncodingCarriesTypes(r, slots);
    case Call(_, args, _) => EncodingsCarryTypes(args, slots);
  }

  lemma {:induction false} EncodingsCarryTypes(args: seq<ExprNode>, slots: map<string, I64>)
    ensures |ToAttrs(args, slots)| == |args|
    ensures forall i :: 0 <= i < |args| ==> CarriesTypes(ToAttrs(args, slots)[i], args[i])
    decreases args
  {
    if args != [] {
      EncodingCarriesTypes(args[0], slots);
      EncodingsCarryTypes(args[1..], slots);
      hide CarriesTypes, ToAttr;
      assert ToAttrs(args, slots) == [ToAttr(args[0], slots)] + ToAttrs(args[1..], slots);
    }
  }

  lemma GuardKeepsCategory(n: ExprNode, env: Cats)
    requires n.Cmp? || IsAcceptedGuard(n)
    ensures Infer(n, env, true).node.dtype == n.dtype
  {
    hide TypeExpr, AllDeclared;
  }

  lemma ParsedGuardForm(text: string)
    requires Parse(text, true).Ok?
    ensures Parse(text, true).value.Cmp? || IsAcceptedGuard(Parse(text, true).value)
  {
    hide ParseSum, Lex;
  }

  /** Inference on its own result changes nothing more, in any environment that agrees on the variables. */
  lemma InferTwice(n: ExprNode, a: Cats, b: Cats, guard: bool)
    requires SameCats(Occurrences(n), a, b)
    requires guard ==> n.Cmp? || IsAcceptedGuard(n)
    ensures var t := Infer(n, a, guard);
      && Infer(t.node, b, guard).fault == t.fault
      && (t.fault.None? ==> Infer(t.node, b, guard).node == t.node)
  {
    var t := Infer(n, a, guard);
    TypeKeepsShape(n, a, guard);
    SameShapeSameNames(n, t.node);
    if guard {
      GuardKeepsCategory(n, a);
      InferAgrees(n, t.node, a, b, guard);
    } else {
      TypeExprAgrees(n, t.node, a, b);
    }
  }

  /**
   What the front end builds from a text it can parse, over declared names: the attribute is
   canonical exactly when every call has an argument, and the verifier then accepts it exactly when
   inference finds no fault. Its slots and dependencies always correspond.
   */
  lemma BuiltIsAcceptedExactly(text: string, defined: Cats, env: Cats, guard: bool)
    requires |text| <= I64_MAX && Parse(text, guard).Ok?
    requires forall x :: x in DepsOf(text) ==> x in defined && x in env && env[x] == defined[x]
    ensures |DepsOf(text)| <= I64_MAX
    ensures var n, deps := Parse(text, guard).value, DepsOf(text);
      var t := Infer(n, Restrict(defined, deps), guard);
      var a := ToAttr(t.node, SlotsOf(deps));
      && Bound(a, deps)
      && (Canonical(a) <==> CallsApplied(n))
      && (Canonical(a) ==> (Accepts(a, deps, text, env, guard) <==> t.fault.None?))
  {
    DepsAreWellFormed(text);
    hide *;
    var n, deps := Parse(text, guard).value, DepsOf(text);
    var t := Infer(n, Restrict(defined, deps), guard);
    var slots := SlotsOf(deps);
    var a := ToAttr(t.node, slots);
    TypeKeepsShape(n, Restrict(defined, deps), guard);
    SameShapeSameNames(n, t.node);
    DepsAreOccurrences(text, guard);
    EncodingIsBound(t.node, deps);
    ParsedEncodes(text, guard, slots);
    ShapeEncodes(n, t.node, slots);
    EncodingIsCanonical(t.node, slots);
    if Canonical(a) {
      DecodeEncoded(t.node, slots, deps);
      SameShapeSameKey(n, t.node);
      EncodingCarriesTypes(t.node, slots);
      RestrictAgrees(n, defined, deps, env);
      if guard {
        ParsedGuardForm(text);
      }
      InferTwice(n, Restrict(defined, deps), env, guard);
      AcceptsMeans(a, deps, text, env, guard);
    }
  }

  lemma AcceptsMeans(a: Attr, deps: seq<string>, text: string, env: Cats, guard: bool)
    requires Canonical(a) && Bound(a, deps) && Parse(text, guard).Ok?
    requires GuardKey(Parse(text, guard).value) == GuardKey(ToNode(a, deps))
    ensures Accepts(a, deps, text, env, guard) <==>
      Infer(ToNode(a, deps), env, guard).fault.None? && CarriesTypes(a, Infer(ToNode(a, deps), env, guard).node)
  {
  }

  lemma DepsAreOccurrences(text: string, guard: bool)
    requires Parse(text, guard).Ok?
    ensures forall x :: x in DepsOf(text) <==> x in Occurrences(Parse(text, guard).value)
  {
    var n := Parse(text, guard).value;
    DepsAreVars(text, guard);
    WalkAddsNew(n, []);
    hide Parse, Occurrences, ScanNames, AddNew;
    forall x ensures x in DepsOf(text) <==> x in Occurrences(n) {
      AddNewHolds([], Occurrences(n), x);
    }
  }

  lemma RestrictAgrees(n: ExprNode, defined: Cats, deps: seq<string>, env: Cats)
    requires forall x :: x in deps <==> x in Occurrences(n)
    requires forall x :: x in deps ==> x in defined && x in env && env[x] == defined[x]
    ensures SameCats(Occurrences(n), Restrict(defined, deps), env)
  {
  }
}
