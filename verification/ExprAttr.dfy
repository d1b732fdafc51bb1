/**
 The structured expression attribute: its canonical-form rules, the conversion to and from the
 named tree, and the check that ties variable slots to an operation's dependencies.
 */
module ExprAttr {
  import opened Wrappers
  import opened Decimal
  import opened ValueModel
  import opened Expr
  import opened Bags

  datatype Attr = Attr(
    kind: string,
    dtype: string,
    num: I64,
    slot: I64,
    name: string,
    binop: string,
    children: seq<Attr>)

  datatype AttrError =
    | BadDtype | StraySlot | StrayName | StrayBinop | StrayNum
    | BadNum | BadVar | BadBin | BadCmp | BadCall | UnknownKind

  /** The structural rules of one node, in the order they are checked. */
  function VerifyNode(a: Attr): Option<AttrError> {
    if CategoryName(CategoryFromName(a.dtype)) != a.dtype then Some(BadDtype)
    else if a.kind != "var" && a.slot != -1 then Some(StraySlot)
    else if a.kind != "cmp" && a.kind != "call" && a.name != "" then Some(StrayName)
    else if a.kind != "bin" && a.binop != "" then Some(StrayBinop)
    else if a.kind != "num" && a.num != 0 then Some(StrayNum)
    else if a.kind == "num" then (if a.children != [] then Some(BadNum) else None)
    else if a.kind == "var" then (if a.children != [] || a.slot < 0 then Some(BadVar) else None)
    else if a.kind == "bin" then
      (if |a.children| != 2 || |a.binop| != 1 || !IsBinOp(a.binop[0]) then Some(BadBin) else None)
    else if a.kind == "cmp" then (if |a.children| != 2 || !IsCmpOp(a.name) then Some(BadCmp) else None)
    else if a.kind == "call" then (if a.children == [] || a.name == "" then Some(BadCall) else None)
    else Some(UnknownKind)
  }

  /** Every node of the attribute passes its rules; nodes are checked when they are built. */
  predicate Canonical(a: Attr) {
    VerifyNode(a).None? && forall i :: 0 <= i < |a.children| ==> Canonical(a.children[i])
  }

  // ---------------------------------------------------------------- the two conversions

  function SlotOf(slots: map<string, I64>, name: string): I64 {
    if name in slots then slots[name] else -1
  }

  function ToAttr(n: ExprNode, slots: map<string, I64>): Attr {
    match n
    case Num(i, d) => Attr("num", CategoryName(d), i, -1, "", "", [])
    case Var(name, d) => Attr("var", CategoryName(d), 0, SlotOf(slots, name), "", "", [])
    case Bin(op, l, r, d) => Attr("bin", CategoryName(d), 0, -1, "", [op], [ToAttr(l, slots), ToAttr(r, slots)])
    case Cmp(name, l, r, d) => Attr("cmp", CategoryName(d), 0, -1, name, "", [ToAttr(l, slots), ToAttr(r, slots)])
    case Call(name, args, d) => Attr("call", CategoryName(d), 0, -1, name, "", ToAttrs(args, slots))
  }

  function ToAttrs(args: seq<ExprNode>, slots: map<string, I64>): seq<Attr> {
    if args == [] then [] else [ToAttr(args[0], slots)] + ToAttrs(args[1..], slots)
  }

  /** The name a slot is bound to; a slot past the dependencies has none. */
  function DepName(deps: seq<string>, slot: int): string {
    if 0 <= slot < |deps| then deps[slot] else ""
  }

  function ToNode(a: Attr, deps: seq<string>): ExprNode
    requires Canonical(a)
  {
    var d := CategoryFromName(a.dtype);
    if a.kind == "num" then Num(a.num, d)
    else if a.kind == "var" then Var(DepName(deps, a.slot), d)
    else if a.kind == "bin" then Bin(a.binop[0], ToNode(a.children[0], deps), ToNode(a.children[1], deps), d)
    else if a.kind == "cmp" then Cmp(a.name, ToNode(a.children[0], deps), ToNode(a.children[1], deps), d)
    else Call(a.name, ToNodes(a.children, deps), d)
  }

  function ToNodes(children: seq<Attr>, deps: seq<string>): seq<ExprNode>
    requires forall i :: 0 <= i < |children| ==> Canonical(children[i])
  {
    if children == [] then [] else [ToNode(children[0], deps)] + ToNodes(children[1..], deps)
  }

  // ---------------------------------------------------------------- canonical forms are exactly the encodings

  /** Trees over the closed vocabulary whose variables all have a slot. */
  predicate Encodable(n: ExprNode, slots: map<string, I64>) {
    match n
    case Num(_, _) => true
    case Var(name, _) => name in slots && slots[name] >= 0
    case Bin(op, l, r, _) => IsBinOp(op) && Encodable(l, slots) && Encodable(r, slots)
    case Cmp(name, l, r, _) => IsCmpOp(name) && Encodable(l, slots) && Encodable(r, slots)
    case Call(name, args, _) => name != "" && args != [] && AllEncodable(args, slots)
  }

  predicate AllEncodable(args: seq<ExprNode>, slots: map<string, I64>) {
    args == [] || (Encodable(args[0], slots) && AllEncodable(args[1..], slots))
  }

  lemma NodeRules(n: ExprNode, slots: map<string, I64>)
    ensures VerifyNode(ToAttr(n, slots)).None? <==>
      match n
      case Num(_, _) => true
      case Var(name, _) => name in slots && slots[name] >= 0
      case Bin(op, _, _, _) => IsBinOp(op)
      case Cmp(name, _, _, _) => IsCmpOp(name)
      case Call(name, args, _) => name != "" && args != []
  {
    hide IsCmpOp, IsBinOp;
    CategoryRoundTrip(n.dtype);
    if n.Call? && n.args != [] {
      assert ToAttrs(n.args, slots) != [];
    }
  }

  /** An encoding is canonical exactly when the tree is over the closed vocabulary and fully bound. */
  lemma {:induction false} EncodingIsCanonical(n: ExprNode, slots: map<string, I64>)
    ensures Canonical(ToAttr(n, slots)) <==> Encodable(n, slots)
    decreases n
  {
    NodeRules(n, slots);
    hide VerifyNode;
    match n
    case Num(_, _) =>
    case Var(_, _) =>
    case Bin(_, l, r, _) =>
      EncodingIsCanonical(l, slots);
      EncodingIsCanonical(r, slots);
      assert ToAttr(n, slots).children[0] == ToAttr(l, slots) && ToAttr(n, slots).children[1] == ToAttr(r, slots);
    case Cmp(_, l, r, _) =>
      EncodingIsCanonical(l, slots);
      EncodingIsCanonical(r, slots);
      assert ToAttr(n, slots).children[0] == ToAttr(l, slots) && ToAttr(n, slots).children[1] == ToAttr(r, slots);
    case Call(name, args, _) =>
      EncodingsAreCanonical(args, slots);
      assert ToAttr(n, slots).children == ToAttrs(args, slots);
      assert VerifyNode(ToAttr(n, slots)).None? <==> name != "" && args != [];
  }

  lemma {:induction false} EncodingsAreCanonical(args: seq<ExprNode>, slots: map<string, I64>)
    ensures (forall i :: 0 <= i < |ToAttrs(args, slots)| ==> Canonical(ToAttrs(args, slots)[i]))
        <==> AllEncodable(args, slots)
    decreases args
  {
    if args != [] {
      EncodingIsCanonical(args[0], slots);
      EncodingsAreCanonical(args[1..], slots);
      hide Canonical, Encodable, ToAttr;
      var all, rest := ToAttrs(args, slots), ToAttrs(args[1..], slots);
      assert all[0] == ToAttr(args[0], slots) && all[1..] == rest;
      assert forall i :: 0 <= i < |rest| ==> rest[i] == all[i + 1];
    }
  }

  /** The dependencies bind each slot back to its name. */
  ghost predicate Inverts(slots: map<string, I64>, deps: seq<string>) {
    forall x :: x in slots ==> 0 <= slots[x] < |deps| && deps[slots[x]] == x
  }

  /** Decoding an encoded tree gives the tree back, categories included. */
  lemma {:induction false} DecodeEncoded(n: ExprNode, slots: map<string, I64>, deps: seq<string>)
    requires Encodable(n, slots) && Inverts(slots, deps)
    ensures Canonical(ToAttr(n, slots)) && ToNode(ToAttr(n, slots), deps) == n
    decreases n
  {
    EncodingIsCanonical(n, slots);
    CategoryRoundTrip(n.dtype);
    hide VerifyNode, CategoryName, CategoryFromName, Canonical;
    match n
    case Num(_, _) =>
    case Var(_, _) =>
    case Bin(_, l, r, _) =>
      DecodeEncoded(l, slots, deps);
      DecodeEncoded(r, slots, deps);
    case Cmp(_, l, r, _) =>
      DecodeEncoded(l, slots, deps);
      DecodeEncoded(r, slots, deps);
    case Call(_, args, _) =>
      EncodingsAreCanonical(args, slots);
      DecodeAllEncoded(args, slots, deps);
  }

  lemma {:induction false} DecodeAllEncoded(args: seq<ExprNode>, slots: map<string, I64>, deps: seq<string>)
    requires AllEncodable(args, slots) && Inverts(slots, deps)
    requires forall i :: 0 <= i < |ToAttrs(args, slots)| ==> Canonical(ToAttrs(args, slots)[i])
    ensures ToNodes(ToAttrs(args, slots), deps) == args
    decreases args
  {
    if args != [] {
      var all, rest := ToAttrs(args, slots), ToAttrs(args[1..], slots);
      assert all[0] == ToAttr(args[0], slots) && all[1..] == rest;
      assert forall i :: 0 <= i < |rest| ==> rest[i] == all[i + 1];
      DecodeEncoded(args[0], slots, deps);
      DecodeAllEncoded(args[1..], slots, deps);
    }
  }

  /** The slot of each dependency is its position. */
  function SlotsOf(deps: seq<string>): map<string, I64>
    requires |deps| <= I64_MAX
  {
    if deps == [] then map[]
    else SlotsOf(deps[..|deps| - 1])[deps[|deps| - 1] := |deps| - 1]
  }

  lemma {:induction false} SlotsArePositions(deps: seq<string>)
    requires |deps| <= I64_MAX && Distinct(deps)
    ensures forall i :: 0 <= i < |deps| ==> deps[i] in SlotsOf(deps) && SlotsOf(deps)[deps[i]] == i
    ensures forall x :: x in SlotsOf(deps) <==> x in deps
    ensures Inverts(SlotsOf(deps), deps)
  {
    if deps != [] {
      var n := |deps| - 1;
      var rest, last := deps[..n], deps[n];
      SlotsArePositions(rest);
      assert SlotsOf(deps) == SlotsOf(rest)[last := n];
      hide SlotsOf, Inverts;
      forall i | 0 <= i < |deps| ensures deps[i] in SlotsOf(deps) && SlotsOf(deps)[deps[i]] == i {
        assert i < n ==> rest[i] == deps[i] && deps[i] != last;
      }
      assert forall x :: x in deps <==> x in rest || x == last;
    }
  }

  // ---------------------------------------------------------------- slots and dependencies

  /** The slots of the variable leaves, left to right. */
  function CollectSlots(a: Attr): seq<int> {
    (if a.kind == "var" then [a.slot as int] else []) + CollectAll(a.children)
  }

  function CollectAll(children: seq<Attr>): seq<int> {
    if children == [] then [] else CollectSlots(children[0]) + CollectAll(children[1..])
  }

  /** Every variable slot is a dependency and every dependency is a variable slot. */
  ghost predicate SlotsCover(a: Attr, n: nat) {
    && (forall s :: s in CollectSlots(a) ==> 0 <= s < n)
    && (forall i :: 0 <= i < n ==> i in CollectSlots(a))
  }

  ghost predicate Bound(a: Attr, deps: seq<string>) {
    Distinct(deps) && "" !in deps && SlotsCover(a, |deps|)
  }

  datatype SlotError = Undeclared(dep: nat) | Repeated(dep: nat) | OutOfRange(slot: int) | Dead(dep: nat)

  /** The bijection check between variable leaves and dependency symbols. */
  method VerifyDepBijection(a: Attr, deps: seq<string>) returns (e: Option<SlotError>)
    ensures e.None? <==> Bound(a, deps)
    ensures e.Some? ==>
      match e.value
      case Undeclared(i) => i < |deps| && deps[i] == "" && Distinct(deps[..i])
      case Repeated(i) => i < |deps| && deps[i] != "" && deps[i] in deps[..i] && Distinct(deps[..i])
      case OutOfRange(s) => Distinct(deps) && s in CollectSlots(a) && !(0 <= s < |deps|)
      case Dead(i) => Distinct(deps) && i < |deps| && i !in CollectSlots(a)
                      && forall j :: 0 <= j < i ==> j in CollectSlots(a)
  {
    e := VerifyDepNames(deps);
    if e.None? {
      e := VerifySlots(CollectSlots(a), |deps|);
    }
  }

  /** Each dependency has a name, and no name repeats. */
  method VerifyDepNames(deps: seq<string>) returns (e: Option<SlotError>)
    ensures e.None? <==> Distinct(deps) && "" !in deps
    ensures e.Some? ==>
      match e.value
      case Undeclared(i) => i < |deps| && deps[i] == "" && Distinct(deps[..i])
      case Repeated(i) => i < |deps| && deps[i] != "" && deps[i] in deps[..i] && Distinct(deps[..i])
      case _ => false
  {
    var seen: set<string> := {};
    for i := 0 to |deps|
      invariant forall x :: x in seen <==> x in deps[..i]
      invariant "" !in deps[..i] && Distinct(deps[..i])
    {
      assert deps[..i + 1] == deps[..i] + [deps[i]];
      if deps[i] == "" {
        return Some(Undeclared(i));
      }
      if deps[i] in seen {
        assert exists j :: 0 <= j < i && deps[j] == deps[i] by {
          var j :| 0 <= j < i && deps[..i][j] == deps[i];
        }
        return Some(Repeated(i));
      }
      seen := seen + {deps[i]};
    }
    assert deps[..|deps|] == deps;
    return None;
  }

  /** Each slot is one of the `n` dependencies, and each dependency is used. */
  method VerifySlots(slots: seq<int>, n: nat) returns (e: Option<SlotError>)
    ensures e.None? <==> (forall s :: s in slots ==> 0 <= s < n) && (forall i :: 0 <= i < n ==> i in slots)
    ensures e.Some? ==>
      match e.value
      case OutOfRange(s) => s in slots && !(0 <= s < n)
      case Dead(i) => i < n && i !in slots && forall j :: 0 <= j < i ==> j in slots
      case _ => false
  {
    var used := new bool[n](_ => false);
    for k := 0 to |slots|
      invariant forall s :: s in slots[..k] ==> 0 <= s < n
      invariant forall i :: 0 <= i < n ==> (used[i] <==> i in slots[..k])
    {
      var s := slots[k];
      assert slots[..k + 1] == slots[..k] + [s];
      assert s in slots;
      if s < 0 || s >= n {
        return Some(OutOfRange(s));
      }
      used[s] := true;
    }
    assert slots[..|slots|] == slots;
    for i := 0 to n
      invariant forall j :: 0 <= j < i ==> used[j]
    {
      if !used[i] {
        return Some(Dead(i));
      }
    }
    return None;
  }

  lemma {:induction false} SlotsOfChildren(children: seq<Attr>, i: nat)
    requires i < |children|
    ensures forall s :: s in CollectSlots(children[i]) ==> s in CollectAll(children)
  {
    if i > 0 {
      SlotsOfChildren(children[1..], i - 1);
    }
  }

  ghost predicate InDeps(slots: seq<int>, n: nat) {
    forall s :: s in slots ==> 0 <= s < n
  }

  lemma InDepsAppend(a: seq<int>, b: seq<int>, n: nat)
    ensures InDeps(a + b, n) <==> InDeps(a, n) && InDeps(b, n)
  {
    assert forall s :: s in a + b <==> s in a || s in b;
  }

  lemma ChildrenInDeps(a: Attr, n: nat)
    requires InDeps(CollectSlots(a), n)
    ensures InDeps(CollectAll(a.children), n)
    ensures forall i :: 0 <= i < |a.children| ==> InDeps(CollectSlots(a.children[i]), n)
    ensures a.kind == "var" ==> 0 <= a.slot < n
  {
    InDepsAppend(if a.kind == "var" then [a.slot as int] else [], CollectAll(a.children), n);
    if a.kind == "var" {
      assert CollectSlots(a)[0] == a.slot && a.slot as int in CollectSlots(a);
    }
    forall i | 0 <= i < |a.children| ensures InDeps(CollectSlots(a.children[i]), n) {
      SlotsOfChildren(a.children, i);
    }
  }

  /** A canonical node is what its decoded children and fields encode to. */
  lemma EncodeDecodedNode(a: Attr, deps: seq<string>)
    requires Canonical(a) && |deps| <= I64_MAX && Distinct(deps)
    requires a.kind == "var" ==> 0 <= a.slot < |deps|
    requires a.kind == "bin" || a.kind == "cmp" ==>
      && ToAttr(ToNode(a.children[0], deps), SlotsOf(deps)) == a.children[0]
      && ToAttr(ToNode(a.children[1], deps), SlotsOf(deps)) == a.children[1]
    requires a.kind == "call" ==> ToAttrs(ToNodes(a.children, deps), SlotsOf(deps)) == a.children
    ensures ToAttr(ToNode(a, deps), SlotsOf(deps)) == a
  {
    NodeFields(a);
    hide *;
    if a.kind == "var" {
      VarBack(a, deps);
    } else if a.kind == "num" {
      NumBack(a, deps);
    } else if a.kind == "call" {
      CallBack(a, deps);
    } else {
      PairBack(a, deps);
    }
  }

  lemma VarBack(a: Attr, deps: seq<string>)
    requires Canonical(a) && a.kind == "var" && |deps| <= I64_MAX && Distinct(deps) && 0 <= a.slot < |deps|
    ensures ToAttr(ToNode(a, deps), SlotsOf(deps)) == a
  {
    NodeFields(a);
    SlotRoundTrips(deps, a.slot);
    hide SlotsOf, SlotOf, DepName, CategoryName, CategoryFromName, Distinct, Canonical, VerifyNode;
  }

  lemma NumBack(a: Attr, deps: seq<string>)
    requires Canonical(a) && a.kind == "num" && |deps| <= I64_MAX
    ensures ToAttr(ToNode(a, deps), SlotsOf(deps)) == a
  {
    NodeFields(a);
    hide SlotsOf, CategoryName, CategoryFromName, Canonical, VerifyNode;
  }

  lemma CallBack(a: Attr, deps: seq<string>)
    requires Canonical(a) && a.kind == "call" && |deps| <= I64_MAX
    requires ToAttrs(ToNodes(a.children, deps), SlotsOf(deps)) == a.children
    ensures ToAttr(ToNode(a, deps), SlotsOf(deps)) == a
  {
    NodeFields(a);
    hide SlotsOf, CategoryName, CategoryFromName, Canonical, VerifyNode, ToAttrs, ToNodes;
  }

  lemma PairBack(a: Attr, deps: seq<string>)
    requires Canonical(a) && (a.kind == "bin" || a.kind == "cmp") && |a.children| == 2 && |deps| <= I64_MAX
    requires ToAttr(ToNode(a.children[0], deps), SlotsOf(deps)) == a.children[0]
    requires ToAttr(ToNode(a.children[1], deps), SlotsOf(deps)) == a.children[1]
    ensures ToAttr(ToNode(a, deps), SlotsOf(deps)) == a
  {
    NodeFields(a);
    hide SlotsOf, CategoryName, CategoryFromName, Canonical, VerifyNode;
  }

  /** The fields of a canonical node that its kind does not use have their one value. */
  lemma NodeFields(a: Attr)
    requires Canonical(a)
    ensures CategoryName(CategoryFromName(a.dtype)) == a.dtype
    ensures a.kind == "num" || a.kind == "var" || a.kind == "bin" || a.kind == "cmp" || a.kind == "call"
    ensures a.kind != "var" ==> a.slot == -1
    ensures a.kind != "cmp" && a.kind != "call" ==> a.name == ""
    ensures a.kind != "num" ==> a.num == 0
    ensures a.kind == "num" || a.kind == "var" ==> a.children == []
    ensures a.kind == "bin" || a.kind == "cmp" ==> |a.children| == 2 && a.children == [a.children[0], a.children[1]]
    ensures a.binop == if a.kind == "bin" && |a.binop| == 1 then [a.binop[0]] else ""
    ensures a.kind == "bin" ==> |a.binop| == 1
  {
  }

  lemma SlotRoundTrips(deps: seq<string>, slot: int)
    requires |deps| <= I64_MAX && Distinct(deps) && 0 <= slot < |deps|
    ensures SlotOf(SlotsOf(deps), DepName(deps, slot)) == slot
  {
    SlotsArePositions(deps);
  }

  /** Encoding a decoded canonical attribute gives the attribute back. */
  lemma {:induction false} EncodeDecoded(a: Attr, deps: seq<string>)
    requires Canonical(a) && |deps| <= I64_MAX && Distinct(deps) && InDeps(CollectSlots(a), |deps|)
    ensures ToAttr(ToNode(a, deps), SlotsOf(deps)) == a
    decreases a
  {
    ChildrenInDeps(a, |deps|);
    if a.kind == "bin" || a.kind == "cmp" {
      EncodeDecoded(a.children[0], deps);
      EncodeDecoded(a.children[1], deps);
    } else if a.kind == "call" {
      EncodeAllDecoded(a.children, deps);
    }
    hide ToNode, ToAttr, SlotsOf, Distinct, InDeps;
    EncodeDecodedNode(a, deps);
  }

  lemma {:induction false} EncodeAllDecoded(children: seq<Attr>, deps: seq<string>)
    requires |deps| <= I64_MAX && Distinct(deps)
    requires forall i :: 0 <= i < |children| ==> Canonical(children[i])
    requires InDeps(CollectAll(children), |deps|)
    ensures ToAttrs(ToNodes(children, deps), SlotsOf(deps)) == children
    decreases children
  {
    if children != [] {
      InDepsAppend(CollectSlots(children[0]), CollectAll(children[1..]), |deps|);
      EncodeDecoded(children[0], deps);
      EncodeAllDecoded(children[1..], deps);
      hide Canonical, ToNode, ToAttr;
      var nodes := ToNodes(children, deps);
      assert nodes[1..] == ToNodes(children[1..], deps);
    }
  }

  /** Over the same checked dependencies, one tree has one encoding. */
  lemma OneEncoding(a: Attr, b: Attr, deps: seq<string>)
    requires Canonical(a) && Canonical(b) && |deps| <= I64_MAX
    requires Bound(a, deps) && Bound(b, deps)
    requires ToNode(a, deps) == ToNode(b, deps)
    ensures a == b
  {
    EncodeDecoded(a, deps);
    EncodeDecoded(b, deps);
  }
}
