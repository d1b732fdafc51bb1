/** Labels ignore names: an injective renaming of a plan's declarations changes no label and no type index. */
module LabelRenaming {
  import opened Decimal
  import opened Order
  import opened Bags
  import opened Evaluator
  import opened Labels

  /** `f` keeps the names in `names` apart, and keeps named names named. */
  ghost predicate Renames(f: string -> string, names: set<string>) {
    && (forall x, y :: x in names && y in names && f(x) == f(y) ==> x == y)
    && (forall x :: x in names ==> (f(x) == "" <==> x == ""))
  }

  function RenameInput(f: string -> string): PlanInput -> PlanInput {
    (p: PlanInput) => PlanInput(f(p.name), p.ty)
  }

  function RenameCompute(f: string -> string): PlanCompute -> PlanCompute {
    (c: PlanCompute) => PlanCompute(f(c.name), c.expr)
  }

  /** The plan with its declarations renamed; labelling reads nothing else of it. */
  function Rename(plan: CoordinationPlan, f: string -> string): CoordinationPlan {
    plan.(inputs := Map(RenameInput(f), plan.inputs), computes := Map(RenameCompute(f), plan.computes))
  }

  /** All declared names are among `names`. */
  ghost predicate DeclaredIn(plan: CoordinationPlan, names: set<string>) {
    && (forall i :: 0 <= i < |plan.inputs| ==> plan.inputs[i].name in names)
    && (forall i :: 0 <= i < |plan.computes| ==> plan.computes[i].name in names)
  }

  lemma DeclaredAlike(plan: CoordinationPlan, f: string -> string, names: set<string>, name: string)
    requires Renames(f, names) && DeclaredIn(plan, names) && name in names
    ensures IsInput(plan, name) <==> IsInput(Rename(plan, f), f(name))
    ensures IsCompute(plan, name) <==> IsCompute(Rename(plan, f), f(name))
  {
    var other := Rename(plan, f);
    if IsInput(plan, name) {
      var i :| 0 <= i < |plan.inputs| && plan.inputs[i].name == name;
      assert other.inputs[i].name == f(name);
    }
    if IsInput(other, f(name)) {
      var i :| 0 <= i < |other.inputs| && other.inputs[i].name == f(name);
      assert other.inputs[i].name == f(plan.inputs[i].name);
    }
    if IsCompute(plan, name) {
      var i :| 0 <= i < |plan.computes| && plan.computes[i].name == name;
      assert other.computes[i].name == f(name);
    }
    if IsCompute(other, f(name)) {
      var i :| 0 <= i < |other.computes| && other.computes[i].name == f(name);
      assert other.computes[i].name == f(plan.computes[i].name);
    }
  }

  /** One table is the other renamed, both being sound and over `names`. */
  ghost predicate Alike(t: Table, u: Table, f: string -> string, names: set<string>) {
    && TableOk(t) && TableOk(u)
    && u.order == Map(f, t.order)
    && (forall i :: 0 <= i < |t.order| ==> t.order[i] in names)
  }

  lemma KnownAlike(t: Table, u: Table, f: string -> string, names: set<string>, name: string)
    requires Alike(t, u, f, names) && Renames(f, names) && name in names
    ensures name in t.labels <==> f(name) in u.labels
    ensures Number(t, name) == Number(u, f(name))
  {
    if name in t.labels {
      assert u.order[t.labels[name]] == f(name);
    }
    if f(name) in u.labels {
      var i := u.labels[f(name)];
      assert u.order[i] == f(t.order[i]);
      assert t.order[i] == name;
    }
  }

  lemma EnterAlike(t: Table, u: Table, f: string -> string, names: set<string>, name: string)
    requires Alike(t, u, f, names) && Renames(f, names) && name in names
    ensures Alike(Enter(t, name), Enter(u, f(name)), f, names)
  {
    hide *;
    KnownAlike(t, u, f, names, name);
    AlikeTables(t, u, f, names);
    EnterKeeps(t, name);
    EnterKeeps(u, f(name));
    EnterOrder(t, name);
    EnterOrder(u, f(name));
    if name !in t.labels {
      AlikeGrows(t, u, Enter(t, name), Enter(u, f(name)), f, names, name);
    }
  }

  lemma EnterOrder(t: Table, name: string)
    ensures name in t.labels ==> Enter(t, name) == t
    ensures name !in t.labels ==> Enter(t, name).order == t.order + [name]
  {
  }

  lemma AlikeTables(t: Table, u: Table, f: string -> string, names: set<string>)
    requires Alike(t, u, f, names)
    ensures TableOk(t) && TableOk(u)
  {
  }

  lemma AlikeGrows(t: Table, u: Table, t1: Table, u1: Table, f: string -> string, names: set<string>, name: string)
    requires Alike(t, u, f, names) && TableOk(t1) && TableOk(u1) && name in names
    requires t1.order == t.order + [name] && u1.order == u.order + [f(name)]
    ensures Alike(t1, u1, f, names)
  {
    hide TableOk, Map;
    MapAppend(f, t.order, [name]);
    MapOne(f, name);
  }

  lemma MapOne(f: string -> string, name: string)
    ensures Map(f, [name]) == [f(name)] && Map(f, []) == []
  {
  }

  ghost predicate ValuesAlike(v: Values, w: Values, f: string -> string, names: set<string>) {
    Alike(v.inputs, w.inputs, f, names) && Alike(v.computes, w.computes, f, names)
  }

  /** One reference: the tables stay alike, and a declared name gets the same label under either naming. */
  lemma ReferAlike(plan: CoordinationPlan, v: Values, w: Values, f: string -> string, names: set<string>, name: string)
    requires Renames(f, names) && DeclaredIn(plan, names) && name in names && ValuesAlike(v, w, f, names)
    ensures ValuesAlike(Refer(plan, v, name), Refer(Rename(plan, f), w, f(name)), f, names)
    ensures IsInput(plan, name) || IsCompute(plan, name) ==>
      ValueLabel(plan, v, name) == ValueLabel(Rename(plan, f), w, f(name))
  {
    DeclaredAlike(plan, f, names, name);
    assert f(name) == "" <==> name == "";
    EnterAlike(v.inputs, w.inputs, f, names, name);
    EnterAlike(v.computes, w.computes, f, names, name);
    KnownAlike(Enter(v.inputs, name), Enter(w.inputs, f(name)), f, names, name);
    KnownAlike(Enter(v.computes, name), Enter(w.computes, f(name)), f, names, name);
    hide Alike, Renames, DeclaredIn, Rename, IsInput, IsCompute, Enter, Number, ToText;
  }

  /** The labels that a sequence of references returns, starting from `v`. */
  function LabelsOf(plan: CoordinationPlan, v: Values, names: seq<string>): seq<string> {
    if names == [] then []
    else
      var n := |names| - 1;
      LabelsOf(plan, v, names[..n]) + [ValueLabel(plan, ReferAll(plan, v, names[..n]), names[n])]
  }

  ghost predicate AllDeclared(plan: CoordinationPlan, calls: seq<string>) {
    forall i :: 0 <= i < |calls| ==> IsInput(plan, calls[i]) || IsCompute(plan, calls[i])
  }

  lemma {:induction false} ReferAllAlike(plan: CoordinationPlan, v: Values, w: Values, f: string -> string,
                                         names: set<string>, calls: seq<string>)
    requires Renames(f, names) && DeclaredIn(plan, names) && ValuesAlike(v, w, f, names)
    requires forall i :: 0 <= i < |calls| ==> calls[i] in names
    ensures ValuesAlike(ReferAll(plan, v, calls), ReferAll(Rename(plan, f), w, Map(f, calls)), f, names)
  {
    if calls != [] {
      hide Renames, DeclaredIn, ValuesAlike, Refer, Rename, Map;
      var n := |calls| - 1;
      ReferAllAlike(plan, v, w, f, names, calls[..n]);
      MapLast(f, calls);
      ReferAlike(plan, ReferAll(plan, v, calls[..n]), ReferAll(Rename(plan, f), w, Map(f, calls[..n])), f, names,
                 calls[n]);
    }
  }

  lemma MapLast(f: string -> string, calls: seq<string>)
    requires calls != []
    ensures var n := |calls| - 1; Map(f, calls)[..n] == Map(f, calls[..n]) && Map(f, calls)[n] == f(calls[n])
  {
    hide Map;
    var n := |calls| - 1;
    assert forall i :: 0 <= i < n ==> Map(f, calls)[i] == f(calls[..n][i]);
  }

  lemma {:induction false} LabelsAlike(plan: CoordinationPlan, v: Values, w: Values, f: string -> string,
                                       names: set<string>, calls: seq<string>)
    requires Renames(f, names) && DeclaredIn(plan, names) && ValuesAlike(v, w, f, names) && AllDeclared(plan, calls)
    requires forall i :: 0 <= i < |calls| ==> calls[i] in names
    ensures LabelsOf(plan, v, calls) == LabelsOf(Rename(plan, f), w, Map(f, calls))
  {
    if calls != [] {
      hide Renames, DeclaredIn, ValuesAlike, Refer, ReferAll, ValueLabel, Rename, Map, IsInput, IsCompute;
      var n := |calls| - 1;
      LabelsAlike(plan, v, w, f, names, calls[..n]);
      MapLast(f, calls);
      ReferAllAlike(plan, v, w, f, names, calls[..n]);
      ReferAlike(plan, ReferAll(plan, v, calls[..n]), ReferAll(Rename(plan, f), w, Map(f, calls[..n])), f, names,
                 calls[n]);
    }
  }

  lemma NoLabelsAlike(f: string -> string, names: set<string>)
    ensures ValuesAlike(Values(NO_LABELS, NO_LABELS), Values(NO_LABELS, NO_LABELS), f, names)
  {
  }

  /** Any sequence of references to declared names returns the same labels under any renaming. */
  lemma LabelsIgnoreNames(plan: CoordinationPlan, f: string -> string, names: set<string>, calls: seq<string>)
    requires Renames(f, names) && DeclaredIn(plan, names) && AllDeclared(plan, calls)
    ensures var start := Values(NO_LABELS, NO_LABELS);
      LabelsOf(plan, start, calls) == LabelsOf(Rename(plan, f), start, Map(f, calls))
  {
    NoLabelsAlike(f, names);
    forall i | 0 <= i < |calls| ensures calls[i] in names {
      assert IsInput(plan, calls[i]) || IsCompute(plan, calls[i]);
    }
    hide Renames, DeclaredIn, ValuesAlike, Refer, ValueLabel, Rename, AllDeclared, LabelsOf, Map;
    LabelsAlike(plan, Values(NO_LABELS, NO_LABELS), Values(NO_LABELS, NO_LABELS), f, names, calls);
  }

  // ---------------------------------------------------------------- the leftovers, sorted by type and name

  lemma StringLeTotalOrder()
    ensures TotalOrder(StringLe)
  {
    forall a: string, b: string
      ensures StringLe(a, b) || StringLe(b, a)
      ensures StringLe(a, b) && StringLe(b, a) ==> a == b
    {
      StringLeTotal(a, b);
    }
    forall a: string, b: string, c: string | StringLe(a, b) && StringLe(b, c) ensures StringLe(a, c) {
      StringLeTransitive(a, b, c);
    }
  }

  /** Sorting by (type, name) lists the types in their own order, whatever the names. */
  lemma SortedByTypeFirst(pairs: seq<(string, string)>)
    ensures Map(First, Sort(pairs, PairLe)) == Sort(Map(First, pairs), StringLe)
  {
    var sorted := Sort(pairs, PairLe);
    PairLeTotalOrder();
    StringLeTotalOrder();
    SortSorted(pairs, PairLe);
    SortSorted(Map(First, pairs), StringLe);
    forall i, j | 0 <= i < j < |sorted| ensures StringLe(Map(First, sorted)[i], Map(First, sorted)[j]) {
      assert PairLe(sorted[i], sorted[j]);
      StringLeTotal(sorted[i].0, sorted[j].0);
    }
    MapIsOfBag(First, sorted, pairs);
    hide Sort, Map, PairLe, StringLe;
    SortedUnique(Map(First, sorted), Sort(Map(First, pairs), StringLe), StringLe);
  }

  lemma {:induction false} RemainingAlike(inputs: seq<PlanInput>, t: Table, u: Table, f: string -> string,
                                          names: set<string>)
    requires Renames(f, names) && Alike(t, u, f, names) && forall i :: 0 <= i < |inputs| ==> inputs[i].name in names
    ensures Map(First, Remaining(inputs, t)) == Map(First, Remaining(Map(RenameInput(f), inputs), u))
  {
    if inputs != [] {
      var n := |inputs| - 1;
      var last, other := inputs[n], Map(RenameInput(f), inputs);
      assert other[..n] == Map(RenameInput(f), inputs[..n]) && other[n] == PlanInput(f(last.name), last.ty);
      RemainingAlike(inputs[..n], t, u, f, names);
      KnownAlike(t, u, f, names, last.name);
      hide Alike, Renames;
      MapAppend(First, Remaining(inputs[..n], t), if last.name in t.labels then [] else [(last.ty, last.name)]);
      MapAppend(First, Remaining(other[..n], u), if f(last.name) in u.labels then [] else [(last.ty, f(last.name))]);
      assert Map(First, [(last.ty, last.name)]) == [last.ty] == Map(First, [(last.ty, f(last.name))]);
    }
  }

  /** The leftovers enter in the same order of types under either naming. */
  lemma LeftoversKeepTypes(plan: CoordinationPlan, v: Values, w: Values, f: string -> string, names: set<string>)
    requires Renames(f, names) && DeclaredIn(plan, names) && ValuesAlike(v, w, f, names)
    ensures Map(First, Sort(Remaining(plan.inputs, v.inputs), PairLe))
         == Map(First, Sort(Remaining(Rename(plan, f).inputs, w.inputs), PairLe))
  {
    RemainingAlike(plan.inputs, v.inputs, w.inputs, f, names);
    hide Sort, Remaining, Map;
    SortedByTypeFirst(Remaining(plan.inputs, v.inputs));
    SortedByTypeFirst(Remaining(Rename(plan, f).inputs, w.inputs));
  }

  // ---------------------------------------------------------------- types by index after completion

  ghost predicate UniqueInputs(inputs: seq<PlanInput>) {
    forall i, j :: 0 <= i < j < |inputs| ==> inputs[i].name != inputs[j].name
  }

  /** The declared type of an input. */
  function TypeOf(inputs: seq<PlanInput>, name: string): string {
    if inputs == [] then ""
    else if inputs[|inputs| - 1].name == name then inputs[|inputs| - 1].ty
    else TypeOf(inputs[..|inputs| - 1], name)
  }

  function TypesOf(inputs: seq<PlanInput>): string -> string {
    (name: string) => TypeOf(inputs, name)
  }

  lemma {:induction false} RemainingMeans(inputs: seq<PlanInput>, t: Table)
    requires UniqueInputs(inputs)
    ensures forall p :: p in Remaining(inputs, t) ==>
      p.1 !in t.labels && p.0 == TypeOf(inputs, p.1) && Listed(inputs, p.1)
    ensures forall i, j :: 0 <= i < j < |Remaining(inputs, t)| ==>
        Remaining(inputs, t)[i].1 != Remaining(inputs, t)[j].1
  {
    if inputs != [] {
      var n := |inputs| - 1;
      var rest := Remaining(inputs[..n], t);
      RemainingMeans(inputs[..n], t);
      forall p | p in rest ensures p.1 != inputs[n].name && Listed(inputs, p.1) {
        assert Listed(inputs[..n], p.1);
        var i :| 0 <= i < n && inputs[..n][i].name == p.1;
        assert inputs[i].name == p.1;
      }
      assert Listed(inputs, inputs[n].name);
      forall i | 0 <= i < |rest| ensures rest[i].1 != inputs[n].name {
        assert rest[i] in rest;
      }
    }
  }

  predicate Listed(inputs: seq<PlanInput>, name: string) {
    exists i :: 0 <= i < |inputs| && inputs[i].name == name
  }

  /** New, distinct input names enter one after the other. */
  lemma {:induction false} NewNamesEnter(plan: CoordinationPlan, v: Values, calls: seq<string>)
    requires Distinct(calls)
    requires forall i :: 0 <= i < |calls| ==> calls[i] !in v.inputs.labels && calls[i] != "" && IsInput(plan, calls[i])
    ensures ReferAll(plan, v, calls).inputs.order == v.inputs.order + calls
    ensures ReferAll(plan, v, calls).computes == v.computes
    ensures forall x :: x in ReferAll(plan, v, calls).inputs.labels <==> x in v.inputs.labels || x in calls
  {
    if calls != [] {
      var n := |calls| - 1;
      NewNamesEnter(plan, v, calls[..n]);
      assert calls == calls[..n] + [calls[n]];
      assert calls[n] !in calls[..n];
      hide IsInput;
    }
  }

  /** Labelled or computed names change no input any more. */
  lemma {:induction false} KnownNamesStay(plan: CoordinationPlan, v: Values, calls: seq<string>)
    requires forall i :: 0 <= i < |calls| ==> !IsInput(plan, calls[i]) || calls[i] in v.inputs.labels
    ensures ReferAll(plan, v, calls).inputs == v.inputs
  {
    if calls != [] {
      KnownNamesStay(plan, v, calls[..|calls| - 1]);
      hide IsInput;
    }
  }

  lemma {:induction false} MapOfSeconds(inputs: seq<PlanInput>, pairs: seq<(string, string)>)
    requires forall p :: p in pairs ==> p.0 == TypeOf(inputs, p.1)
    ensures Map(TypesOf(inputs), Map(Second, pairs)) == Map(First, pairs)
  {
    forall i | 0 <= i < |pairs| ensures TypesOf(inputs)(pairs[i].1) == pairs[i].0 {
      assert pairs[i] in pairs;
    }
  }

  /** The leftovers, sorted, are distinct inputs without a label, each with its declared type. */
  lemma LeftoversAreNew(plan: CoordinationPlan, v: Values)
    requires UniqueInputs(plan.inputs)
    requires forall i :: 0 <= i < |plan.inputs| ==> plan.inputs[i].name != ""
    ensures var left := Sort(Remaining(plan.inputs, v.inputs), PairLe);
      var calls := Map(Second, left);
      && Distinct(calls)
      && (forall i :: 0 <= i < |calls| ==> calls[i] !in v.inputs.labels && calls[i] != "" && IsInput(plan, calls[i]))
      && Map(TypesOf(plan.inputs), calls) == Map(First, left)
  {
    var pairs := Remaining(plan.inputs, v.inputs);
    var left := Sort(pairs, PairLe);
    RemainingMeans(plan.inputs, v.inputs);
    SortedNamesDistinct(pairs, left);
    hide Sort, Remaining, PairLe;
    forall p | p in left ensures p in pairs {
      assert p in multiset(left);
    }
    MapOfSeconds(plan.inputs, left);
    var calls := Map(Second, left);
    forall i | 0 <= i < |calls| ensures calls[i] !in v.inputs.labels && calls[i] != "" && IsInput(plan, calls[i]) {
      assert left[i] in left;
      assert Listed(plan.inputs, left[i].1);
    }
  }

  /** After completion the input order is the old one followed by the leftovers, sorted by type and name. */
  lemma CompleteOrder(plan: CoordinationPlan, v: Values)
    requires ValuesOk(v) && UniqueInputs(plan.inputs)
    requires forall i :: 0 <= i < |plan.inputs| ==> plan.inputs[i].name != "" && !IsCompute(plan, plan.inputs[i].name)
    ensures var left := Sort(Remaining(plan.inputs, v.inputs), PairLe);
      && Complete(plan, v).inputs.order == v.inputs.order + Map(Second, left)
      && Map(TypesOf(plan.inputs), Map(Second, left)) == Map(First, left)
  {
    var left := Sort(Remaining(plan.inputs, v.inputs), PairLe);
    var calls := Map(Second, left);
    LeftoversAreNew(plan, v);
    hide Distinct, Sort, Remaining;
    NewNamesEnter(plan, v, calls);
    var middle := ReferAll(plan, v, calls);
    var computes := Map(ComputeName, plan.computes);
    forall i | 0 <= i < |computes| ensures !IsInput(plan, computes[i]) {
      assert IsCompute(plan, computes[i]);
      forall j | 0 <= j < |plan.inputs| ensures plan.inputs[j].name != computes[i] {
      }
    }
    KnownNamesStay(plan, middle, computes);
  }

  lemma SortedNamesDistinct(pairs: seq<(string, string)>, left: seq<(string, string)>)
    requires multiset(pairs) == multiset(left)
    requires forall i, j :: 0 <= i < j < |pairs| ==> pairs[i].1 != pairs[j].1
    ensures Distinct(Map(Second, left))
  {
    MapIsOfBag(Second, pairs, left);
    DistinctIsOfBag(Map(Second, pairs), Map(Second, left));
  }

  lemma DistinctIsOfBag(s: seq<string>, t: seq<string>)
    requires Distinct(s) && multiset(s) == multiset(t)
    ensures Distinct(t)
  {
    DistinctCounts(s);
    forall i, j | 0 <= i < j < |t| ensures t[i] != t[j] {
      CountTwice(t, i, j);
    }
  }

  lemma CountTwice(t: seq<string>, i: nat, j: nat)
    requires i < j < |t|
    ensures multiset(t)[t[j]] >= if t[i] == t[j] then 2 else 1
  {
    assert t == t[..j] + ([t[j]] + t[j + 1..]);
    assert t[..j][i] == t[i] && t[i] in t[..j];
  }

  lemma {:induction false} DistinctCounts(s: seq<string>)
    requires Distinct(s)
    ensures forall x :: multiset(s)[x] <= 1
  {
    if s != [] {
      DistinctCounts(s[1..]);
      assert s == [s[0]] + s[1..];
      assert s[0] !in s[1..];
    }
  }

  lemma RenamedTypes(inputs: seq<PlanInput>, f: string -> string, names: set<string>, name: string)
    requires Renames(f, names) && name in names && forall i :: 0 <= i < |inputs| ==> inputs[i].name in names
    ensures TypeOf(Map(RenameInput(f), inputs), f(name)) == TypeOf(inputs, name)
    decreases |inputs|
  {
    if inputs != [] {
      var n := |inputs| - 1;
      assert Map(RenameInput(f), inputs)[..n] == Map(RenameInput(f), inputs[..n]);
      RenamedTypes(inputs[..n], f, names, name);
    }
  }

  lemma TypesAlike(plan: CoordinationPlan, t: Table, u: Table, f: string -> string, names: set<string>)
    requires Renames(f, names) && DeclaredIn(plan, names) && Alike(t, u, f, names)
    ensures Map(TypesOf(Rename(plan, f).inputs), u.order) == Map(TypesOf(plan.inputs), t.order)
  {
    forall i | 0 <= i < |t.order|
      ensures TypesOf(Rename(plan, f).inputs)(u.order[i]) == TypesOf(plan.inputs)(t.order[i])
    {
      RenamedTypes(plan.inputs, f, names, t.order[i]);
    }
  }

  /** The declarations as the compiler's front end guarantees them: named, distinct, and inputs apart from computes. */
  ghost predicate WellDeclared(plan: CoordinationPlan) {
    && UniqueInputs(plan.inputs)
    && forall i :: 0 <= i < |plan.inputs| ==> plan.inputs[i].name != "" && !IsCompute(plan, plan.inputs[i].name)
  }

  lemma RenamedIsWellDeclared(plan: CoordinationPlan, f: string -> string, names: set<string>)
    requires Renames(f, names) && DeclaredIn(plan, names) && WellDeclared(plan)
    ensures WellDeclared(Rename(plan, f))
  {
    var other := Rename(plan, f);
    forall i | 0 <= i < |other.inputs| ensures other.inputs[i].name != "" && !IsCompute(other, other.inputs[i].name) {
      assert other.inputs[i].name == f(plan.inputs[i].name);
      DeclaredAlike(plan, f, names, plan.inputs[i].name);
    }
    forall i, j | 0 <= i < j < |other.inputs| ensures other.inputs[i].name != other.inputs[j].name {
      assert other.inputs[i].name == f(plan.inputs[i].name) && other.inputs[j].name == f(plan.inputs[j].name);
    }
  }

  /**
   Completing the values is where names are compared, and still none leaks: after any references,
   the type found at each input index is the same under any renaming, although the inputs that
   were left over may be numbered in another order.
   */
  lemma TypesIgnoreNames(plan: CoordinationPlan, f: string -> string, names: set<string>, calls: seq<string>)
    requires Renames(f, names) && DeclaredIn(plan, names) && WellDeclared(plan)
    requires forall i :: 0 <= i < |calls| ==> calls[i] in names
    ensures var start, other := Values(NO_LABELS, NO_LABELS), Rename(plan, f);
      var v, w := Complete(plan, ReferAll(plan, start, calls)), Complete(other, ReferAll(other, start, Map(f, calls)));
      Map(TypesOf(plan.inputs), v.inputs.order) == Map(TypesOf(other.inputs), w.inputs.order)
  {
    hide *;
    var start, other := Values(NO_LABELS, NO_LABELS), Rename(plan, f);
    var v, w := ReferAll(plan, start, calls), ReferAll(other, start, Map(f, calls));
    NoLabelsAlike(f, names);
    ReferAllAlike(plan, start, start, f, names, calls);
    AlikeParts(v, w, f, names);
    RenamedIsWellDeclared(plan, f, names);
    DeclaredParts(plan);
    DeclaredParts(other);
    CompleteOrder(plan, v);
    CompleteOrder(other, w);
    TypesAlike(plan, v.inputs, w.inputs, f, names);
    LeftoversKeepTypes(plan, v, w, f, names);
    MapAppend(TypesOf(plan.inputs), v.inputs.order, Map(Second, Sort(Remaining(plan.inputs, v.inputs), PairLe)));
    MapAppend(TypesOf(other.inputs), w.inputs.order, Map(Second, Sort(Remaining(other.inputs, w.inputs), PairLe)));
  }

  /** What computes are labelled depends on the references and on nothing the inputs were labelled. */
  lemma {:induction false} ComputesApart(plan: CoordinationPlan, v: Values, w: Values, calls: seq<string>)
    requires v.computes == w.computes
    ensures ReferAll(plan, v, calls).computes == ReferAll(plan, w, calls).computes
  {
    if calls != [] {
      hide Enter, IsInput, IsCompute;
      ComputesApart(plan, v, w, calls[..|calls| - 1]);
    }
  }

  lemma CompleteComputes(plan: CoordinationPlan, v: Values)
    requires UniqueInputs(plan.inputs)
    requires forall i :: 0 <= i < |plan.inputs| ==> plan.inputs[i].name != "" && !IsCompute(plan, plan.inputs[i].name)
    ensures Complete(plan, v).computes == ReferAll(plan, v, Map(ComputeName, plan.computes)).computes
  {
    var left := Map(Second, Sort(Remaining(plan.inputs, v.inputs), PairLe));
    LeftoversAreNew(plan, v);
    hide Distinct, Remaining, Sort, Map, IsInput, IsCompute;
    NewNamesEnter(plan, v, left);
    ComputesApart(plan, ReferAll(plan, v, left), v, Map(ComputeName, plan.computes));
  }

  lemma ComputeNamesAlike(plan: CoordinationPlan, f: string -> string)
    ensures Map(ComputeName, Rename(plan, f).computes) == Map(f, Map(ComputeName, plan.computes))
  {
    forall i | 0 <= i < |plan.computes|
      ensures ComputeName(Map(RenameCompute(f), plan.computes)[i]) == f(Map(ComputeName, plan.computes)[i])
    {
    }
  }

  lemma {:induction false} ComputesAreLabelled(plan: CoordinationPlan, v: Values, calls: seq<string>, i: nat)
    requires i < |calls| && calls[i] != "" && IsCompute(plan, calls[i]) && !IsInput(plan, calls[i])
    ensures calls[i] in ReferAll(plan, v, calls).computes.labels
  {
    hide IsInput, IsCompute;
    var n := |calls| - 1;
    if i < n {
      ComputesAreLabelled(plan, v, calls[..n], i);
    }
  }

  /** After completion every compute is labelled, and has the same label under any renaming. */
  lemma ComputeLabelsIgnoreNames(plan: CoordinationPlan, f: string -> string, names: set<string>, calls: seq<string>,
                                 i: nat)
    requires Renames(f, names) && DeclaredIn(plan, names) && WellDeclared(plan)
    requires (forall i :: 0 <= i < |calls| ==> calls[i] in names) && i < |plan.computes| && plan.computes[i].name != ""
    ensures var start, other := Values(NO_LABELS, NO_LABELS), Rename(plan, f);
      var v, w := Complete(plan, ReferAll(plan, start, calls)), Complete(other, ReferAll(other, start, Map(f, calls)));
      var name := plan.computes[i].name;
      && name in v.computes.labels && f(name) in w.computes.labels
      && v.computes.labels[name] == w.computes.labels[f(name)]
      && w.computes.order == Map(f, v.computes.order)
  {
    var start, other, name := Values(NO_LABELS, NO_LABELS), Rename(plan, f), plan.computes[i].name;
    var v, w := ReferAll(plan, start, calls), ReferAll(other, start, Map(f, calls));
    var computes := Map(ComputeName, plan.computes);
    ComputesAreNames(plan, names);
    assert computes[i] == name && name in names;
    ComputesAreNoInputs(plan, i);
    NoLabelsAlike(f, names);
    RenamedIsWellDeclared(plan, f, names);
    DeclaredParts(plan);
    DeclaredParts(other);
    hide *;
    ReferAllAlike(plan, start, start, f, names, calls);
    CompleteComputes(plan, v);
    CompleteComputes(other, w);
    ComputeNamesAlike(plan, f);
    ReferAllAlike(plan, v, w, f, names, computes);
    ComputesAreLabelled(plan, v, computes, i);
    AlikeMeans(ReferAll(plan, v, computes), ReferAll(other, w, Map(f, computes)), f, names, name);
  }

  lemma ComputesAreNames(plan: CoordinationPlan, names: set<string>)
    requires DeclaredIn(plan, names)
    ensures |Map(ComputeName, plan.computes)| == |plan.computes|
    ensures forall j :: 0 <= j < |plan.computes| ==> Map(ComputeName, plan.computes)[j] == plan.computes[j].name
    ensures forall j :: 0 <= j < |plan.computes| ==> Map(ComputeName, plan.computes)[j] in names
  {
  }

  lemma ComputesAreNoInputs(plan: CoordinationPlan, i: nat)
    requires WellDeclared(plan) && i < |plan.computes|
    ensures IsCompute(plan, plan.computes[i].name) && !IsInput(plan, plan.computes[i].name)
  {
    assert IsCompute(plan, plan.computes[i].name);
  }

  lemma AlikeMeans(v: Values, w: Values, f: string -> string, names: set<string>, name: string)
    requires ValuesAlike(v, w, f, names) && Renames(f, names) && name in names && name in v.computes.labels
    ensures f(name) in w.computes.labels && v.computes.labels[name] == w.computes.labels[f(name)]
    ensures w.computes.order == Map(f, v.computes.order)
  {
    KnownAlike(v.computes, w.computes, f, names, name);
  }

  lemma AlikeParts(v: Values, w: Values, f: string -> string, names: set<string>)
    requires ValuesAlike(v, w, f, names)
    ensures Alike(v.inputs, w.inputs, f, names) && ValuesOk(v) && ValuesOk(w)
  {
  }

  lemma DeclaredParts(plan: CoordinationPlan)
    requires WellDeclared(plan)
    ensures UniqueInputs(plan.inputs)
    ensures forall i :: 0 <= i < |plan.inputs| ==> plan.inputs[i].name != "" && !IsCompute(plan, plan.inputs[i].name)
  {
  }
}
