/** The domain meta-model: its records, the cross-record verifier, and what acceptance means. */
module Domain {
  import opened Wrappers

  datatype Rec =
    | Concept(name: string, kind: string, classification: string)
    | FailureMode(name: string)
    | L1Feature(name: string, kind: string)
    | Reduce(id: string, from: string, to: string, relation: string, lossiness: string)
    | Import(capability: string)
    | Invariant(onFailure: Option<string>)
    | Provenance(subject: string, status: string)
    | Foreign

  /** `versionOk` stands for the semantic-version check on the domain's version. */
  datatype DomainOp = DomainOp(
    name: string,
    implementing: string,
    versionOk: bool,
    coverage: Option<string>,
    body: seq<Rec>)

  datatype DomainError =
    | BadHeader | Collision(name: string) | DuplicateImport(capability: string) | NotARecord
    | UndeclaredConcept(edge: string) | UndeclaredTarget(edge: string) | DescriptiveDrives(edge: string)
    | Untraced(name: string) | UnresolvedProvenance(subject: string) | NoProvenance(edge: string)
    | UndeclaredFailure

  predicate IsL1Relation(rel: string) {
    rel == "expands" || rel == "discharges" || rel == "protects"
  }

  /** A relation that drives behaviour. */
  predicate IsExecutable(rel: string) {
    rel == "expands" || rel == "discharges"
  }

  predicate IsSupported(loss: string) {
    loss == "lossless" || loss == "lossy_preserved"
  }

  predicate HeaderOk(d: DomainOp) {
    && d.name != "" && d.implementing != "" && d.versionOk
    && (d.coverage.Some? ==> d.coverage.value == "full" || d.coverage.value == "partial")
  }

  /** The identity a record claims in the shared namespace. */
  function Identity(r: Rec): Option<string> {
    match r
    case Concept(name, _, _) => Some(name)
    case FailureMode(name) => Some(name)
    case L1Feature(name, _) => Some(name)
    case Reduce(id, _, _, _, _) => Some(id)
    case _ => None
  }

  ghost predicate UniqueIdentities(body: seq<Rec>) {
    forall i, j :: 0 <= i < j < |body| && Identity(body[i]).Some? ==> Identity(body[j]) != Identity(body[i])
  }

  ghost predicate UniqueImports(body: seq<Rec>) {
    forall i, j :: 0 <= i < j < |body| && body[i].Import? && body[j].Import? ==>
        body[i].capability != body[j].capability
  }

  ghost predicate HasConcept(body: seq<Rec>, name: string) {
    exists i :: 0 <= i < |body| && body[i].Concept? && body[i].name == name
  }

  ghost predicate HasFailureMode(body: seq<Rec>, name: string) {
    FailureMode(name) in body
  }

  ghost predicate HasL1Feature(body: seq<Rec>, name: string) {
    exists i :: 0 <= i < |body| && body[i].L1Feature? && body[i].name == name
  }

  ghost predicate HasEdge(body: seq<Rec>, id: string) {
    exists i :: 0 <= i < |body| && body[i].Reduce? && body[i].id == id
  }

  ghost predicate Descriptive(body: seq<Rec>, name: string) {
    exists i :: 0 <= i < |body| && body[i].Concept? && body[i].name == name && body[i].classification == "descriptive"
  }

  /** An edge between declared ends that no descriptive concept drives. */
  ghost predicate EdgeOk(body: seq<Rec>, r: Rec)
    requires r.Reduce?
  {
    && HasConcept(body, r.from)
    && (if r.relation == "failure" then HasFailureMode(body, r.to) else HasL1Feature(body, r.to))
    && (IsExecutable(r.relation) ==> !Descriptive(body, r.from))
  }

  /** A supported edge that lands on an L1 feature. */
  predicate Traces(r: Rec, name: string) {
    r.Reduce? && r.from == name && IsL1Relation(r.relation) && IsSupported(r.lossiness)
  }

  ghost predicate Traced(body: seq<Rec>, name: string) {
    exists i :: 0 <= i < |body| && Traces(body[i], name)
  }

  ghost predicate AcceptedFor(body: seq<Rec>, id: string) {
    exists i :: 0 <= i < |body| && body[i].Provenance? && body[i].subject == id && body[i].status == "accepted"
  }

  /** Everything the domain verifier demands, record by record. */
  ghost predicate Acceptable(d: DomainOp) {
    && HeaderOk(d)
    && UniqueIdentities(d.body) && UniqueImports(d.body)
    && (forall r :: r in d.body ==> !r.Foreign?)
    && (forall r :: r in d.body && r.Reduce? ==> EdgeOk(d.body, r))
    && (forall r :: r in d.body && r.Concept? ==> Traced(d.body, r.name))
    && (forall r :: r in d.body && r.Provenance? ==> HasConcept(d.body, r.subject) || HasEdge(d.body, r.subject))
    && (forall r :: r in d.body && r.Reduce? && IsExecutable(r.relation) ==> AcceptedFor(d.body, r.id))
    && (forall r :: r in d.body && r.Invariant? && r.onFailure.Some? ==> HasFailureMode(d.body, r.onFailure.value))
  }

  /** The name tables of the first pass. */
  datatype Tables = Tables(
    classification: map<string, string>,
    features: set<string>,
    failures: set<string>,
    edges: set<string>,
    ids: set<string>,
    imports: set<string>)

  const NO_TABLES: Tables := Tables(map[], {}, {}, {}, {}, {})

  ghost predicate TablesOk(t: Tables, body: seq<Rec>) {
    && (forall x :: x in t.classification <==> HasConcept(body, x))
    && (forall x :: x in t.classification ==> (t.classification[x] == "descriptive" <==> Descriptive(body, x)))
    && (forall x :: x in t.features <==> HasL1Feature(body, x))
    && (forall x :: x in t.failures <==> HasFailureMode(body, x))
    && (forall x :: x in t.edges <==> HasEdge(body, x))
    && (forall x :: x in t.ids <==> exists i :: 0 <= i < |body| && Identity(body[i]) == Some(x))
    && (forall x :: x in t.imports <==> exists i :: 0 <= i < |body| && body[i] == Import(x))
  }

  /** The tables after one more record that claims nothing taken. */
  function File(t: Tables, r: Rec): Tables {
    match r
    case Concept(name, _, c) => t.(classification := t.classification[name := c], ids := t.ids + {name})
    case FailureMode(name) => t.(failures := t.failures + {name}, ids := t.ids + {name})
    case L1Feature(name, _) => t.(features := t.features + {name}, ids := t.ids + {name})
    case Reduce(id, _, _, _, _) => t.(edges := t.edges + {id}, ids := t.ids + {id})
    case Import(capability) => t.(imports := t.imports + {capability})
    case _ => t
  }

  predicate Taken(t: Tables, r: Rec) {
    || (Identity(r).Some? && Identity(r).value in t.ids)
    || (r.Import? && r.capability in t.imports)
  }

  lemma HasGrows(body: seq<Rec>, r: Rec, x: string)
    ensures HasConcept(body + [r], x) <==> HasConcept(body, x) || (r.Concept? && r.name == x)
    ensures Descriptive(body + [r], x)
       <==> Descriptive(body, x) || (r.Concept? && r.name == x && r.classification == "descriptive")
    ensures HasL1Feature(body + [r], x) <==> HasL1Feature(body, x) || (r.L1Feature? && r.name == x)
    ensures HasFailureMode(body + [r], x) <==> HasFailureMode(body, x) || r == FailureMode(x)
    ensures HasEdge(body + [r], x) <==> HasEdge(body, x) || (r.Reduce? && r.id == x)
    ensures (exists i :: 0 <= i < |body + [r]| && Identity((body + [r])[i]) == Some(x))
       <==> (exists i :: 0 <= i < |body| && Identity(body[i]) == Some(x)) || Identity(r) == Some(x)
    ensures (exists i :: 0 <= i < |body + [r]| && (body + [r])[i] == Import(x))
       <==> (exists i :: 0 <= i < |body| && body[i] == Import(x)) || r == Import(x)
  {
    var all := body + [r];
    assert all[|body|] == r;
    assert forall i :: 0 <= i < |body| ==> all[i] == body[i];
  }

  lemma NoDescriptiveElsewhere(body: seq<Rec>, x: string)
    ensures Descriptive(body, x) ==> HasConcept(body, x)
  {
  }

  lemma FileKeeps(t: Tables, body: seq<Rec>, r: Rec)
    requires TablesOk(t, body) && !Taken(t, r)
    ensures TablesOk(File(t, r), body + [r])
  {
    var next := File(t, r);
    forall x
      ensures x in next.classification <==> HasConcept(body + [r], x)
      ensures x in next.classification ==> (next.classification[x] == "descriptive" <==> Descriptive(body + [r], x))
      ensures x in next.features <==> HasL1Feature(body + [r], x)
      ensures x in next.failures <==> HasFailureMode(body + [r], x)
      ensures x in next.edges <==> HasEdge(body + [r], x)
      ensures x in next.ids <==> exists i :: 0 <= i < |body + [r]| && Identity((body + [r])[i]) == Some(x)
      ensures x in next.imports <==> exists i :: 0 <= i < |body + [r]| && (body + [r])[i] == Import(x)
    {
      HasGrows(body, r, x);
      NoDescriptiveElsewhere(body, x);
      hide HasConcept, Descriptive, HasL1Feature, HasFailureMode, HasEdge;
    }
  }

  method Collect(body: seq<Rec>) returns (r: Result<Tables, DomainError>)
    ensures r.Ok? <==> UniqueIdentities(body) && UniqueImports(body) && forall x :: x in body ==> !x.Foreign?
    ensures r.Ok? ==> TablesOk(r.value, body)
  {
    var t := NO_TABLES;
    assert body[..0] == [];
    for k := 0 to |body|
      invariant TablesOk(t, body[..k])
      invariant UniqueIdentities(body[..k]) && UniqueImports(body[..k])
      invariant forall x :: x in body[..k] ==> !x.Foreign?
    {
      var rec := body[k];
      assert body[..k + 1] == body[..k] + [rec];
      assert rec in body;
      if Identity(rec).Some? && Identity(rec).value in t.ids {
        TakenMeans(t, body, k);
        return Err(Collision(Identity(rec).value));
      }
      if rec.Import? && rec.capability in t.imports {
        TakenMeans(t, body, k);
        return Err(DuplicateImport(rec.capability));
      }
      if rec.Foreign? {
        return Err(NotARecord);
      }
      FreshMeans(t, body, k);
      FileKeeps(t, body[..k], rec);
      t := File(t, rec);
    }
    assert body[..|body|] == body;
    return Ok(t);
  }

  lemma TakenMeans(t: Tables, body: seq<Rec>, k: nat)
    requires k < |body| && TablesOk(t, body[..k]) && Taken(t, body[k])
    ensures !UniqueIdentities(body) || !UniqueImports(body)
  {
    var rec := body[k];
    if Identity(rec).Some? && Identity(rec).value in t.ids {
      var i :| 0 <= i < k && Identity(body[..k][i]) == Identity(rec);
      assert Identity(body[i]) == Identity(body[k]);
    } else {
      var i :| 0 <= i < k && body[..k][i] == Import(rec.capability);
      assert body[i] == Import(rec.capability);
    }
  }

  lemma FreshMeans(t: Tables, body: seq<Rec>, k: nat)
    requires k < |body| && TablesOk(t, body[..k]) && !Taken(t, body[k])
    requires UniqueIdentities(body[..k]) && UniqueImports(body[..k])
    ensures UniqueIdentities(body[..k + 1]) && UniqueImports(body[..k + 1])
  {
    var all, rec := body[..k + 1], body[k];
    assert forall i :: 0 <= i < k ==> all[i] == body[..k][i];
    forall i | 0 <= i < k && Identity(all[i]).Some? ensures Identity(all[i]) != Identity(rec) {
      assert Identity(body[..k][i]) == Some(Identity(all[i]).value);
    }
    forall i | 0 <= i < k && all[i].Import? && rec.Import? ensures all[i].capability != rec.capability {
      assert body[..k][i] == Import(all[i].capability);
    }
  }

  // ---------------------------------------------------------------- the later passes

  /** Every reduction edge resolves; the result lists the concepts that trace to an L1 feature. */
  method ResolveEdges(body: seq<Rec>, t: Tables) returns (r: Result<set<string>, DomainError>)
    requires TablesOk(t, body)
    ensures r.Ok? <==> forall x :: x in body && x.Reduce? ==> EdgeOk(body, x)
    ensures r.Ok? ==> forall x :: x in r.value <==> Traced(body, x)
  {
    hide HasConcept, Descriptive, HasL1Feature, HasFailureMode, HasEdge, IsL1Relation, IsSupported, IsExecutable;
    var traced: set<string> := {};
    for k := 0 to |body|
      invariant forall i :: 0 <= i < k && body[i].Reduce? ==> EdgeOk(body, body[i])
      invariant forall x :: x in traced <==> exists i :: 0 <= i < k && Traces(body[i], x)
    {
      var e := body[k];
      assert e in body;
      if e.Reduce? {
        if e.from !in t.classification {
          return Err(UndeclaredConcept(e.id));
        }
        if e.relation == "failure" {
          if e.to !in t.failures {
            return Err(UndeclaredTarget(e.id));
          }
        } else if e.to !in t.features {
          return Err(UndeclaredTarget(e.id));
        }
        if IsExecutable(e.relation) && t.classification[e.from] == "descriptive" {
          return Err(DescriptiveDrives(e.id));
        }
        if IsL1Relation(e.relation) && IsSupported(e.lossiness) {
          traced := traced + {e.from};
        }
      }
    }
    return Ok(traced);
  }

  method CheckTraced(body: seq<Rec>, traced: set<string>) returns (e: Option<DomainError>)
    requires forall x :: x in traced <==> Traced(body, x)
    ensures e.None? <==> forall x :: x in body && x.Concept? ==> Traced(body, x.name)
  {
    hide Traced;
    for k := 0 to |body|
      invariant forall i :: 0 <= i < k && body[i].Concept? ==> Traced(body, body[i].name)
    {
      assert body[k] in body;
      if body[k].Concept? && body[k].name !in traced {
        return Some(Untraced(body[k].name));
      }
    }
    return None;
  }

  /** Provenance resolves, and every executable edge has an accepted one. */
  method CheckProvenance(body: seq<Rec>, t: Tables) returns (e: Option<DomainError>)
    requires TablesOk(t, body)
    ensures e.None? <==>
      && (forall r :: r in body && r.Provenance? ==> HasConcept(body, r.subject) || HasEdge(body, r.subject))
      && (forall r :: r in body && r.Reduce? && IsExecutable(r.relation) ==> AcceptedFor(body, r.id))
  {
    hide HasConcept, Descriptive, HasL1Feature, HasFailureMode, HasEdge, IsExecutable;
    var accepted: set<string> := {};
    for k := 0 to |body|
      invariant forall i :: 0 <= i < k && body[i].Provenance? ==>
          HasConcept(body, body[i].subject) || HasEdge(body, body[i].subject)
      invariant forall x :: x in accepted <==>
        exists i :: 0 <= i < k && body[i].Provenance? && body[i].subject == x && body[i].status == "accepted"
    {
      var p := body[k];
      assert p in body;
      if p.Provenance? {
        if p.subject !in t.classification && p.subject !in t.edges {
          return Some(UnresolvedProvenance(p.subject));
        }
        if p.status == "accepted" {
          accepted := accepted + {p.subject};
        }
      }
    }
    assert forall x :: x in accepted <==> AcceptedFor(body, x);
    hide AcceptedFor;
    for k := 0 to |body|
      invariant forall i :: 0 <= i < k && body[i].Reduce? && IsExecutable(body[i].relation) ==>
          AcceptedFor(body, body[i].id)
    {
      assert body[k] in body;
      if body[k].Reduce? && IsExecutable(body[k].relation) && body[k].id !in accepted {
        return Some(NoProvenance(body[k].id));
      }
    }
    return None;
  }

  method CheckInvariants(body: seq<Rec>, t: Tables) returns (e: Option<DomainError>)
    requires TablesOk(t, body)
    ensures e.None? <==> forall r :: r in body && r.Invariant? && r.onFailure.Some? ==>
        HasFailureMode(body, r.onFailure.value)
  {
    hide HasConcept, Descriptive, HasL1Feature, HasFailureMode, HasEdge;
    for k := 0 to |body|
      invariant forall i :: 0 <= i < k && body[i].Invariant? && body[i].onFailure.Some? ==>
          HasFailureMode(body, body[i].onFailure.value)
    {
      assert body[k] in body;
      if body[k].Invariant? && body[k].onFailure.Some? && body[k].onFailure.value !in t.failures {
        return Some(UndeclaredFailure);
      }
    }
    return None;
  }

  /** The domain verifier: it accepts exactly the acceptable domains. */
  method VerifyDomain(d: DomainOp) returns (e: Option<DomainError>)
    ensures e.None? <==> Acceptable(d)
  {
    hide UniqueIdentities, UniqueImports, EdgeOk, Traced, AcceptedFor, HasConcept, HasEdge, HasFailureMode, TablesOk,
         IsExecutable;
    if !HeaderOk(d) {
      return Some(BadHeader);
    }
    var tables := Collect(d.body);
    if tables.Err? {
      return Some(tables.error);
    }
    var traced := ResolveEdges(d.body, tables.value);
    if traced.Err? {
      return Some(traced.error);
    }
    e := CheckTraced(d.body, traced.value);
    if e.Some? {
      return;
    }
    e := CheckProvenance(d.body, tables.value);
    if e.Some? {
      return;
    }
    e := CheckInvariants(d.body, tables.value);
  }
}
