/**
 Canonical labels of a plan's names: each name gets the next number of its kind when it is first
 referenced, so that labels depend on the plan's structure and on no declared name.
 */
module Labels {
  import opened Decimal
  import opened Order
  import opened Bags
  import opened Evaluator

  // ---------------------------------------------------------------- one kind of label

  datatype Table = Table(labels: map<string, nat>, order: seq<string>)

  /** The labels number the names in `order`, each once: the two are inverse to each other. */
  ghost predicate TableOk(t: Table) {
    && (forall i :: 0 <= i < |t.order| ==> t.order[i] in t.labels && t.labels[t.order[i]] == i)
    && (forall x :: x in t.labels ==> t.labels[x] < |t.order| && t.order[t.labels[x]] == x)
    && |t.labels| == |t.order|
  }

  const NO_LABELS: Table := Table(map[], [])

  function Enter(t: Table, name: string): Table {
    if name in t.labels then t else Table(t.labels[name := |t.labels|], t.order + [name])
  }

  /** The number of a name that has one. */
  function Number(t: Table, name: string): nat {
    if name in t.labels then t.labels[name] else 0
  }

  lemma EnterKeeps(t: Table, name: string)
    requires TableOk(t)
    ensures TableOk(Enter(t, name)) && name in Enter(t, name).labels
    ensures t.order <= Enter(t, name).order
    ensures forall x :: x in t.labels ==> x in Enter(t, name).labels && Number(Enter(t, name), x) == Number(t, x)
  {
    if name !in t.labels {
      var next := Enter(t, name);
      assert next.labels.Keys == t.labels.Keys + {name};
      assert |next.labels| == |next.labels.Keys| && |t.labels| == |t.labels.Keys|;
    }
  }

  // ---------------------------------------------------------------- values

  predicate IsInput(plan: CoordinationPlan, name: string) {
    exists i :: 0 <= i < |plan.inputs| && plan.inputs[i].name == name
  }

  predicate IsCompute(plan: CoordinationPlan, name: string) {
    exists i :: 0 <= i < |plan.computes| && plan.computes[i].name == name
  }

  datatype Values = Values(inputs: Table, computes: Table)

  /** The tables after `name` is referenced as a value. */
  function Refer(plan: CoordinationPlan, v: Values, name: string): Values {
    if name == "" then v
    else if IsInput(plan, name) then v.(inputs := Enter(v.inputs, name))
    else if IsCompute(plan, name) then v.(computes := Enter(v.computes, name))
    else v
  }

  /** The label that reference returns. */
  function ValueLabel(plan: CoordinationPlan, v: Values, name: string): string {
    var next := Refer(plan, v, name);
    if name == "" then ""
    else if IsInput(plan, name) then "input:" + ToText(Number(next.inputs, name))
    else if IsCompute(plan, name) then "compute:" + ToText(Number(next.computes, name))
    else "unresolved:" + name
  }

  ghost predicate ValuesOk(v: Values) {
    TableOk(v.inputs) && TableOk(v.computes)
  }

  function ReferAll(plan: CoordinationPlan, v: Values, names: seq<string>): Values {
    if names == [] then v else Refer(plan, ReferAll(plan, v, names[..|names| - 1]), names[|names| - 1])
  }

  lemma {:induction false} ReferAllKeeps(plan: CoordinationPlan, v: Values, names: seq<string>)
    requires ValuesOk(v)
    ensures ValuesOk(ReferAll(plan, v, names))
  {
    if names != [] {
      hide Refer, ValuesOk;
      ReferAllKeeps(plan, v, names[..|names| - 1]);
      ReferKeeps(plan, ReferAll(plan, v, names[..|names| - 1]), names[|names| - 1]);
    }
  }

  lemma ReferKeeps(plan: CoordinationPlan, v: Values, name: string)
    requires ValuesOk(v)
    ensures ValuesOk(Refer(plan, v, name))
  {
    hide TableOk, Enter, IsInput, IsCompute, Number;
    EnterKeeps(v.inputs, name);
    EnterKeeps(v.computes, name);
  }

  // ---------------------------------------------------------------- the values no call referenced

  /** The declared inputs without a label, as (type, name), in declaration order. */
  function Remaining(inputs: seq<PlanInput>, t: Table): seq<(string, string)> {
    if inputs == [] then []
    else
      Remaining(inputs[..|inputs| - 1], t)
      + if inputs[|inputs| - 1].name in t.labels then [] else [(inputs[|inputs| - 1].ty, inputs[|inputs| - 1].name)]
  }

  function Second(p: (string, string)): string {
    p.1
  }

  function First(p: (string, string)): string {
    p.0
  }

  function ComputeName(c: PlanCompute): string {
    c.name
  }

  /** Leftover inputs enter by (type, name), then the computes in declaration order. */
  function Complete(plan: CoordinationPlan, v: Values): Values {
    var left := Map(Second, Sort(Remaining(plan.inputs, v.inputs), PairLe));
    ReferAll(plan, ReferAll(plan, v, left), Map(ComputeName, plan.computes))
  }

  // ---------------------------------------------------------------- the labeller

  class SemanticLabels {
    const plan: CoordinationPlan
    var inputTypes: map<string, string>
    var computeNames: set<string>
    var inputs: Table
    var computes: Table
    var ledgers: Table
    var observerSets: Table
    var observerRoles: Table

    ghost predicate Valid()
      reads this
    {
      && (forall x :: x in inputTypes <==> IsInput(plan, x))
      && (forall x :: x in computeNames <==> IsCompute(plan, x))
      && TableOk(inputs) && TableOk(computes) && TableOk(ledgers) && TableOk(observerSets) && TableOk(observerRoles)
    }

    function State(): Values
      reads this
    {
      Values(inputs, computes)
    }

    constructor (plan: CoordinationPlan)
      ensures Valid() && this.plan == plan && State() == Values(NO_LABELS, NO_LABELS)
    {
      this.plan := plan;
      inputs, computes, ledgers, observerSets, observerRoles := NO_LABELS, NO_LABELS, NO_LABELS, NO_LABELS, NO_LABELS;
      inputTypes, computeNames := map[], {};
      new;
      inputTypes := InputTypes(plan.inputs);
      computeNames := ComputeNames(plan.computes);
    }

    /** The declared type of each input name, the first declaration deciding. */
    static method InputTypes(inputs: seq<PlanInput>) returns (types: map<string, string>)
      ensures forall x :: x in types <==> exists j :: 0 <= j < |inputs| && inputs[j].name == x
    {
      types := map[];
      for i := 0 to |inputs|
        invariant forall x :: x in types <==> exists j :: 0 <= j < i && inputs[j].name == x
      {
        if inputs[i].name !in types {
          types := types[inputs[i].name := inputs[i].ty];
        }
      }
    }

    static method ComputeNames(computes: seq<PlanCompute>) returns (names: set<string>)
      ensures forall x :: x in names <==> exists j :: 0 <= j < |computes| && computes[j].name == x
    {
      names := {};
      for i := 0 to |computes|
        invariant forall x :: x in names <==> exists j :: 0 <= j < i && computes[j].name == x
      {
        names := names + {computes[i].name};
      }
    }

    method Value(name: string) returns (text: string)
      requires Valid()
      modifies `inputs, `computes
      ensures Valid()
      ensures text == ValueLabel(plan, old(State()), name) && State() == Refer(plan, old(State()), name)
    {
      hide TableOk, Enter, ToText;
      EnterKeeps(inputs, name);
      EnterKeeps(computes, name);
      if name == "" {
        return "";
      }
      if name in inputTypes {
        inputs := Enter(inputs, name);
        return "input:" + ToText(Number(inputs, name));
      }
      if name in computeNames {
        computes := Enter(computes, name);
        return "compute:" + ToText(Number(computes, name));
      }
      return "unresolved:" + name;
    }

    /** A `ref:` operand gets the label of its value; anything else stays as it is. */
    method Operand(encoded: string) returns (text: string)
      requires Valid()
      modifies `inputs, `computes
      ensures Valid()
      ensures var op := SplitOperand(encoded);
        && text == (if op.Ref? then "ref:" + ValueLabel(plan, old(State()), op.value) else encoded)
        && State() == (if op.Ref? then Refer(plan, old(State()), op.value) else old(State()))
    {
      hide Refer, ValueLabel, TableOk;
      var i := FindColon(encoded);
      if i == |encoded| || encoded[..i] != "ref" {
        return encoded;
      }
      var inner := Value(encoded[i + 1..]);
      return "ref:" + inner;
    }

    method Ledger(name: string) returns (text: string)
      requires Valid()
      modifies `ledgers
      ensures Valid()
      ensures ledgers == Enter(old(ledgers), name) && text == ToText(Number(ledgers, name))
    {
      hide TableOk, Enter, ToText;
      EnterKeeps(ledgers, name);
      ledgers := Enter(ledgers, name);
      return ToText(Number(ledgers, name));
    }

    method ObserverSet(name: string) returns (text: string)
      requires Valid()
      modifies `observerSets
      ensures Valid()
      ensures observerSets == Enter(old(observerSets), name) && text == ToText(Number(observerSets, name))
    {
      hide TableOk, Enter, ToText;
      EnterKeeps(observerSets, name);
      observerSets := Enter(observerSets, name);
      return ToText(Number(observerSets, name));
    }

    /** An unnamed role stays unnamed. */
    method ObserverRole(name: string) returns (text: string)
      requires Valid()
      modifies `observerRoles
      ensures Valid()
      ensures name == "" ==> text == "" && observerRoles == old(observerRoles)
      ensures name != "" ==>
          observerRoles == Enter(old(observerRoles), name) && text == ToText(Number(observerRoles, name))
    {
      hide TableOk, Enter, ToText;
      if name == "" {
        return "";
      }
      EnterKeeps(observerRoles, name);
      observerRoles := Enter(observerRoles, name);
      return ToText(Number(observerRoles, name));
    }

    /** Leftover inputs enter by (type, name), then the computes in declaration order. */
    method CompleteValues()
      requires Valid()
      modifies `inputs, `computes
      ensures Valid() && State() == Complete(plan, old(State()))
    {
      hide TableOk, Refer, Remaining, ReferAll, Valid, IsInput, IsCompute;
      var remaining := StillUnlabelled(plan.inputs, inputs);
      ReferEach(Map(Second, Sort(remaining, PairLe)));
      ReferEach(Map(ComputeName, plan.computes));
    }

    static method StillUnlabelled(all: seq<PlanInput>, t: Table) returns (remaining: seq<(string, string)>)
      ensures remaining == Remaining(all, t)
    {
      hide Remaining;
      remaining := [];
      NothingRemains(t);
      assert all[..0] == [];
      for i := 0 to |all|
        invariant remaining == Remaining(all[..i], t)
      {
        RemainingGrows(all, i, t);
        if all[i].name !in t.labels {
          remaining := remaining + [(all[i].ty, all[i].name)];
        }
      }
      assert all[..|all|] == all;
    }

    method ReferEach(names: seq<string>)
      requires Valid()
      modifies `inputs, `computes
      ensures Valid() && State() == ReferAll(plan, old(State()), names)
    {
      hide TableOk, Refer, IsInput, IsCompute;
      for i := 0 to |names|
        invariant Valid() && State() == ReferAll(plan, old(State()), names[..i])
      {
        assert names[..i + 1][..i] == names[..i];
        var _ := Value(names[i]);
      }
      assert names[..|names|] == names;
    }
  }

  lemma NothingRemains(t: Table)
    ensures Remaining([], t) == []
  {
  }

  lemma RemainingGrows(inputs: seq<PlanInput>, i: nat, t: Table)
    requires i < |inputs|
    ensures Remaining(inputs[..i + 1], t)
         == Remaining(inputs[..i], t) + (if inputs[i].name in t.labels then [] else [(inputs[i].ty, inputs[i].name)])
  {
    assert inputs[..i + 1][..i] == inputs[..i];
  }
}
