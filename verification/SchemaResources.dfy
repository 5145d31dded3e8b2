/**
 `_schema_resource_issue`: one embedded JSON Schema resource is scanned, its schemas are found, their local
 references resolved, and containment and references together searched for a cycle.
 */
module SchemaResources {
  import opened Prelude
  import opened JsonPointer
  import opened SchemaScan
  import opened SchemaGraph

  function Ascii(s: string): Text {
    seq(|s|, i requires 0 <= i < |s| => if s[i] as int < 128 then s[i] as int as Byte else Zero)
  }

  /** The keywords of JSON Schema (Draft 2020-12) with a schema per name, with one schema, and with a list of schemas. */
  const MapKeywords: set<Text> := {Ascii("$defs"), Ascii("definitions"), Ascii("properties"), Ascii("patternProperties"),
    Ascii("dependentSchemas")}
  const SingleKeywords: set<Text> := {Ascii("additionalProperties"), Ascii("unevaluatedProperties"), Ascii("propertyNames"),
    Ascii("contains"), Ascii("items"), Ascii("unevaluatedItems"), Ascii("not"), Ascii("if"), Ascii("then"), Ascii("else"),
    Ascii("contentSchema")}
  const ArrayKeywords: set<Text> := {Ascii("allOf"), Ascii("anyOf"), Ascii("oneOf"), Ascii("prefixItems")}
  const BannedKeywords: set<Text> := {Ascii("$id"), Ascii("$anchor"), Ascii("$dynamicAnchor"), Ascii("$dynamicRef"),
    Ascii("$recursiveRef")}
  const RefKeyword: Text := Ascii("$ref")

  /** A resource in an object graph, nested at most `levels` deep. */
  datatype Resource = Resource(heap: Heap, root: Val, levels: nat)

  function ValueAt(r: Resource, p: Location): Option<Val> { Below(r.heap, r.root, p) }
  predicate IsDict(r: Resource, v: Val) { v.Container? && v.ref in r.heap && r.heap[v.ref].Dict? }
  predicate IsList(r: Resource, v: Val) { v.Container? && v.ref in r.heap && r.heap[v.ref].List? }
  predicate DictAt(r: Resource, p: Location) { ValueAt(r, p).Some? && IsDict(r, ValueAt(r, p).value) }
  predicate ContainerAt(r: Resource, p: Location) { ValueAt(r, p).Some? && ValueAt(r, p).value.Container? }
  function Member(r: Resource, v: Val, keyword: Text): Option<Val> { Step(r.heap, v, Key(keyword)) }

  // ---------------------------------------------------------------- what counts as a schema

  /** A keyword leads from a schema at `p` to a schema at `q`. */
  predicate Inner(p: Location, q: Location) {
    && |p| < |q| && q[..|p|] == p && q[|p|].Key?
    && ((|q| == |p| + 1 && q[|p|].key in SingleKeywords)
        || (|q| == |p| + 2 && q[|p|].key in MapKeywords && q[|p| + 1].Key?)
        || (|q| == |p| + 2 && q[|p|].key in ArrayKeywords && q[|p| + 1].Index?))
  }

  predicate Schemalike(r: Resource, q: Location) {
    ValueAt(r, q).Some? && (ValueAt(r, q).value.Bool? || IsDict(r, ValueAt(r, q).value))
  }

  /** The root is a schema, and so is every object or boolean that a keyword of a schema leads to. */
  ghost predicate SchemaAt(r: Resource, q: Location)
    decreases |q|
  {
    Schemalike(r, q) && (q == [] || exists k :: 0 <= k < |q| && Inner(q[..k], q) && SchemaAt(r, q[..k]))
  }

  function Entries(r: Resource, v: Val): seq<Entry>
    requires IsDict(r, v)
  {
    r.heap[v.ref].entries
  }

  function Items(r: Resource, v: Val): seq<Val>
    requires IsList(r, v)
  {
    r.heap[v.ref].items
  }

  /** What `_json_schema_locations` puts on its worklist for an object `v` at `p`. */
  function Pushed(r: Resource, v: Val, p: Location): set<Location> {
    PushedNames(r, v, p) + (set k | k in SingleKeywords && Member(r, v, k).Some? :: p + [Key(k)]) + PushedItems(r, v, p)
  }

  function PushedNames(r: Resource, v: Val, p: Location): set<Location> {
    set k, i | k in MapKeywords && Member(r, v, k).Some? && IsDict(r, Member(r, v, k).value)
               && 0 <= i < |Entries(r, Member(r, v, k).value)| ::
      p + [Key(k)] + [Key(Entries(r, Member(r, v, k).value)[i].key)]
  }

  function PushedItems(r: Resource, v: Val, p: Location): set<Location> {
    set k, i | k in ArrayKeywords && Member(r, v, k).Some? && IsList(r, Member(r, v, k).value)
               && 0 <= i < |Items(r, Member(r, v, k).value)| ::
      p + [Key(k)] + [Index(i)]
  }

  lemma PartOfEntry(r: Resource, v: Val, i: nat)
    requires Sound(r.heap) && IsDict(r, v) && i < |Entries(r, v)|
    ensures Step(r.heap, v, Key(Entries(r, v)[i].key)).Some?
  {
    LookupAt(Kids(r.heap[v.ref]), i);
  }

  lemma PartOfItem(r: Resource, v: Val, i: nat)
    requires Sound(r.heap) && IsList(r, v) && i < |Items(r, v)|
    ensures Step(r.heap, v, Index(i)).Some?
  {
    LookupAt(Kids(r.heap[v.ref]), i);
  }

  lemma KeyOfEntry(r: Resource, v: Val, key: Text) returns (i: nat)
    requires Step(r.heap, v, Key(key)).Some?
    ensures IsDict(r, v) && i < |Entries(r, v)| && Entries(r, v)[i].key == key
  {
    var kids := Kids(r.heap[v.ref]);
    LookupFound(kids, Key(key));
    i :| 0 <= i < |kids| && kids[i] == Kid(Key(key), Lookup(kids, Key(key)).value);
  }

  lemma IndexOfItem(r: Resource, v: Val, index: nat)
    requires Step(r.heap, v, Index(index)).Some?
    ensures IsList(r, v) && index < |Items(r, v)|
  {
    var kids := Kids(r.heap[v.ref]);
    LookupFound(kids, Index(index));
    var i :| 0 <= i < |kids| && kids[i] == Kid(Index(index), Lookup(kids, Index(index)).value);
  }

  lemma NameIsInner(r: Resource, v: Val, p: Location, q: Location)
    requires Sound(r.heap) && ValueAt(r, p) == Some(v) && q in PushedNames(r, v, p)
    ensures Inner(p, q) && ValueAt(r, q).Some?
  {
    var k, i :| k in MapKeywords && Member(r, v, k).Some? && IsDict(r, Member(r, v, k).value)
      && 0 <= i < |Entries(r, Member(r, v, k).value)|
      && q == p + [Key(k)] + [Key(Entries(r, Member(r, v, k).value)[i].key)];
    PartOfEntry(r, Member(r, v, k).value, i);
    BelowChild(r.heap, r.root, p, Key(k));
    BelowChild(r.heap, r.root, p + [Key(k)], q[|p| + 1]);
  }

  lemma ItemIsInner(r: Resource, v: Val, p: Location, q: Location)
    requires Sound(r.heap) && ValueAt(r, p) == Some(v) && q in PushedItems(r, v, p)
    ensures Inner(p, q) && ValueAt(r, q).Some?
  {
    var k, i :| k in ArrayKeywords && Member(r, v, k).Some? && IsList(r, Member(r, v, k).value)
      && 0 <= i < |Items(r, Member(r, v, k).value)| && q == p + [Key(k)] + [Index(i)];
    PartOfItem(r, Member(r, v, k).value, i);
    BelowChild(r.heap, r.root, p, Key(k));
    BelowChild(r.heap, r.root, p + [Key(k)], Index(i));
  }

  /** Everything pushed is a location that a keyword leads to. */
  lemma PushedIsInner(r: Resource, v: Val, p: Location, q: Location)
    requires Sound(r.heap) && ValueAt(r, p) == Some(v) && q in Pushed(r, v, p)
    ensures Inner(p, q) && ValueAt(r, q).Some?
  {
    if q in PushedNames(r, v, p) {
      NameIsInner(r, v, p, q);
    } else if q in PushedItems(r, v, p) {
      ItemIsInner(r, v, p, q);
    } else {
      var k :| k in SingleKeywords && Member(r, v, k).Some? && q == p + [Key(k)];
      BelowChild(r.heap, r.root, p, Key(k));
    }
  }

  /** Every location that a keyword leads to is pushed. */
  lemma InnerIsPushed(r: Resource, v: Val, p: Location, q: Location)
    requires ValueAt(r, p) == Some(v) && Inner(p, q) && ValueAt(r, q).Some?
    ensures q in Pushed(r, v, p)
  {
    var k := q[|p|].key;
    BelowChild(r.heap, r.root, p, Key(k));
    if |q| == |p| + 1 {
      assert q == p + [Key(k)];
    } else {
      var last := q[|p| + 1];
      assert q == p + [Key(k)] + [last];
      BelowChild(r.heap, r.root, p + [Key(k)], last);
      var w := Member(r, v, k).value;
      if last.Key? {
        var i := KeyOfEntry(r, w, last.key);
      } else {
        IndexOfItem(r, w, last.index);
      }
    }
  }

  /** The worklist has reached only schemas, and for each of them everything its keywords lead to. */
  ghost predicate Searching(r: Resource, schemas: set<Location>, pending: set<Location>) {
    && (forall p :: p in schemas ==> SchemaAt(r, p))
    && (forall q :: q in pending ==> q == [] || exists p :: p in schemas && Inner(p, q))
    && ([] in schemas || [] in pending || !Schemalike(r, []))
    && forall p, q :: p in schemas && Inner(p, q) && Schemalike(r, q) ==> q in schemas || q in pending
  }

  /** One location is taken from the worklist. */
  method Visit(r: Resource, schemas: set<Location>, pending: set<Location>, p: Location)
    returns (found: set<Location>, rest: set<Location>)
    requires Sound(r.heap) && Searching(r, schemas, pending) && p in pending
    ensures Searching(r, found, rest)
    ensures (found == schemas && rest == pending - {p}) || (found == schemas + {p} && p !in schemas && Schemalike(r, p))
  {
    found, rest := schemas, pending - {p};
    if p in schemas { return; }
    var value := ValueAt(r, p);
    if value.None? || !(value.value.Bool? || IsDict(r, value.value)) { return; }
    found := found + {p};
    NewSchema(r, schemas, pending, p);
    if IsDict(r, value.value) {
      rest := rest + Pushed(r, value.value, p);
    }
    Visited(r, schemas, pending, p, rest);
  }

  lemma NewSchema(r: Resource, schemas: set<Location>, pending: set<Location>, p: Location)
    requires Searching(r, schemas, pending) && p in pending && Schemalike(r, p)
    ensures SchemaAt(r, p)
  {
    if p != [] {
      var q :| q in schemas && Inner(q, p);
      assert p[..|q|] == q && SchemaAt(r, p[..|q|]);
    }
  }

  lemma Visited(r: Resource, schemas: set<Location>, pending: set<Location>, p: Location, rest: set<Location>)
    requires Sound(r.heap) && Searching(r, schemas, pending) && p in pending && Schemalike(r, p) && SchemaAt(r, p)
    requires rest == pending - {p} + if DictAt(r, p) then Pushed(r, ValueAt(r, p).value, p) else {}
    ensures Searching(r, schemas + {p}, rest)
  {
    forall q | q in rest ensures q == [] || exists a :: a in schemas + {p} && Inner(a, q) {
      StillReached(r, schemas, pending, p, q);
    }
    forall a, q | a in schemas + {p} && Inner(a, q) && Schemalike(r, q) ensures q in schemas + {p} || q in rest {
      StillCovered(r, schemas, pending, p, rest, a, q);
    }
  }

  lemma StillCovered(r: Resource, schemas: set<Location>, pending: set<Location>, p: Location, rest: set<Location>,
                     a: Location, q: Location)
    requires Searching(r, schemas, pending) && Schemalike(r, p)
    requires rest == pending - {p} + if DictAt(r, p) then Pushed(r, ValueAt(r, p).value, p) else {}
    requires a in schemas + {p} && Inner(a, q) && Schemalike(r, q)
    ensures q in schemas + {p} || q in rest
  {
    if a == p {
      InnerIsPushed(r, ValueAt(r, p).value, p, q);
      OnlyDictsPush(r, ValueAt(r, p).value, p, q);
    }
  }

  lemma OnlyDictsPush(r: Resource, v: Val, p: Location, q: Location)
    requires q in Pushed(r, v, p)
    ensures IsDict(r, v)
  {
    if k: Text :| Member(r, v, k).Some? {
      var i := KeyOfEntry(r, v, k);
    }
  }

  lemma StillReached(r: Resource, schemas: set<Location>, pending: set<Location>, p: Location, q: Location)
    requires Sound(r.heap) && Searching(r, schemas, pending) && ValueAt(r, p).Some?
    requires q in pending || q in Pushed(r, ValueAt(r, p).value, p)
    ensures q == [] || exists a :: a in schemas + {p} && Inner(a, q)
  {
    if q in pending {
      if q != [] {
        var a :| a in schemas && Inner(a, q);
        assert a in schemas + {p};
      }
    } else {
      PushedIsInner(r, ValueAt(r, p).value, p, q);
      assert p in schemas + {p};
    }
  }

  /** `_json_schema_locations`: exactly the schemas of the resource. */
  method JsonSchemaLocations(r: Resource, locations: map<Location, Val>) returns (schemas: set<Location>)
    requires Sound(r.heap) && forall p :: p in locations <==> ValueAt(r, p).Some?
    ensures forall p :: p in schemas <==> SchemaAt(r, p)
  {
    schemas := {};
    var pending: set<Location> := {[]};
    while pending != {}
      invariant Searching(r, schemas, pending) && schemas <= locations.Keys
      decreases locations.Keys - schemas, pending
    {
      var p :| p in pending;
      var found, rest := Visit(r, schemas, pending, p);
      if found != schemas {
        assert p in locations.Keys - schemas;
      }
      schemas, pending := found, rest;
    }
    forall p | SchemaAt(r, p) ensures p in schemas {
      SchemasReached(r, schemas, p);
    }
  }

  lemma {:induction false} SchemasReached(r: Resource, schemas: set<Location>, q: Location)
    requires Searching(r, schemas, {}) && SchemaAt(r, q)
    ensures q in schemas
    decreases |q|
  {
    if q != [] {
      var k :| 0 <= k < |q| && Inner(q[..k], q) && SchemaAt(r, q[..k]);
      SchemasReached(r, schemas, q[..k]);
    }
  }

  // ---------------------------------------------------------------- references

  function RefAt(r: Resource, p: Location): Option<Val> {
    if DictAt(r, p) then Member(r, ValueAt(r, p).value, RefKeyword) else None
  }

  function Document(r: Resource): Json { Unfold(r.heap, r.root, r.levels) }

  /** The schema at `p` has a local reference that resolves to the schema at `q`. */
  ghost predicate RefersTo(r: Resource, p: Location, q: Location) {
    && SchemaAt(r, p) && SchemaAt(r, q) && RefAt(r, p).Some? && RefAt(r, p).value.Str?
    && Resolve(Document(r), RefAt(r, p).value.text) == Some(q)
  }

  predicate HasKeyword(r: Resource, p: Location, k: Text) { DictAt(r, p) && Member(r, ValueAt(r, p).value, k).Some? }

  predicate Plain(r: Resource, p: Location) { forall k :: k in BannedKeywords ==> !HasKeyword(r, p, k) }

  /** Every schema stays within the resource. */
  ghost predicate SelfContained(r: Resource) {
    forall p :: SchemaAt(r, p) ==> Plain(r, p) && (RefAt(r, p).Some? ==> exists q :: RefersTo(r, p, q))
  }

  /** Expanding a schema leads from a container to one inside it, or from a reference to its target. */
  ghost predicate Leads(r: Resource, p: Location, q: Location) {
    Holds(r.heap, r.root, p, q) || (RefersTo(r, p, q) && ContainerAt(r, q))
  }

  ghost predicate Expansion(r: Resource, w: seq<Location>) {
    && |w| >= 1 && ContainerAt(r, w[0])
    && forall i :: 0 < i < |w| ==> Leads(r, w[i - 1], w[i])
  }

  ghost predicate Recurs(r: Resource) {
    exists w :: Expansion(r, w) && |w| >= 2 && w[0] == w[|w| - 1]
  }

  // ---------------------------------------------------------------- the issue of a resource

  datatype SchemaIssue =
    | ExternalSchema
    | ScanFailed(reason: Reason, path: Location)
    | UnsupportedKeyword(path: Location, keyword: Text)
    | InvalidReference(path: Location)
    | ExternalReference(path: Location)
    | UnresolvedReference(path: Location)
    | ReferencesRecur

  /** What each issue says is so. */
  ghost predicate Justified(r: Resource, lim: Limits, issue: SchemaIssue) {
    match issue
    case ExternalSchema => !IsDict(r, r.root)
    case ScanFailed(reason, path) => Explains(r.heap, r.root, lim, reason, path)
    case UnsupportedKeyword(p, k) => SchemaAt(r, p) && k in BannedKeywords && HasKeyword(r, p, k)
    case InvalidReference(p) => SchemaAt(r, p) && RefAt(r, p).Some? && !RefAt(r, p).value.Str?
    case ExternalReference(p) => SchemaAt(r, p) && RefAt(r, p).Some? && RefAt(r, p).value.Str? && !IsLocal(RefAt(r, p).value.text)
    case UnresolvedReference(p) =>
      SchemaAt(r, p) && RefAt(r, p).Some? && RefAt(r, p).value.Str? && IsLocal(RefAt(r, p).value.text)
      && forall q :: !RefersTo(r, p, q)
    case ReferencesRecur => Recurs(r)
  }

  predicate IsLocal(reference: Text) { reference != [] && reference[0] == Hash }

  /** One schema: its keywords, and the target of its reference if it has one. */
  method CheckSchema(r: Resource, schemas: set<Location>, p: Location, ghost lim: Limits)
    returns (issue: Option<SchemaIssue>, target: Option<Location>)
    requires (forall q :: q in schemas <==> SchemaAt(r, q)) && p in schemas
    ensures issue.Some? ==> Justified(r, lim, issue.value) && !SelfContained(r)
    ensures issue.None? ==> Plain(r, p) && (RefAt(r, p).Some? <==> target.Some?)
    ensures issue.None? && target.Some? ==> RefersTo(r, p, target.value)
  {
    target := None;
    if k :| k in BannedKeywords && HasKeyword(r, p, k) {
      return Some(UnsupportedKeyword(p, k)), None;
    }
    var reference := RefAt(r, p);
    if reference.None? { return None, None; }
    if !reference.value.Str? { return Some(InvalidReference(p)), None; }
    if !IsLocal(reference.value.text) { return Some(ExternalReference(p)), None; }
    target := ResolveLocalPointer(reference.value.text, Document(r));
    if target.None? || target.value !in schemas { return Some(UnresolvedReference(p)), None; }
    return None, target;
  }

  /** The references of all schemas, or the issue of one of them. */
  method CollectReferences(r: Resource, schemas: set<Location>, ghost lim: Limits)
    returns (issue: Option<SchemaIssue>, references: seq<Reference>)
    requires forall q :: q in schemas <==> SchemaAt(r, q)
    ensures issue.Some? ==> Justified(r, lim, issue.value) && !SelfContained(r)
    ensures issue.None? ==> SelfContained(r) && forall p, q :: Reference(p, q) in references <==> RefersTo(r, p, q)
  {
    issue, references := None, [];
    var rest := schemas;
    while rest != {}
      invariant issue.None? && rest <= schemas
      invariant forall p :: p in schemas - rest ==> Plain(r, p) && (RefAt(r, p).Some? ==> exists q :: RefersTo(r, p, q))
      invariant forall p, q :: Reference(p, q) in references <==> p in schemas - rest && RefersTo(r, p, q)
      decreases rest
    {
      var p :| p in rest;
      rest := rest - {p};
      var target;
      issue, target := CheckSchema(r, schemas, p, lim);
      if issue.Some? { return; }
      if target.Some? {
        references := references + [Reference(p, target.value)];
      }
    }
  }

  lemma HoldsInside(r: Resource, p: Location, q: Location)
    requires Holds(r.heap, r.root, p, q)
    ensures ContainerAt(r, p) && ContainerAt(r, q)
  {
    assert q == p + [q[|p|]];
    BelowChild(r.heap, r.root, p, q[|p|]);
  }

  /** The cycle that is searched for is one of the resource. */
  lemma GraphIsResource(r: Resource, containers: set<Location>, edges: Edges, references: seq<Reference>)
    requires forall p :: p in containers <==> ContainerAt(r, p)
    requires forall p, q :: q in Out(edges, p) <==> Holds(r.heap, r.root, p, q)
    requires forall p, q :: Reference(p, q) in references <==> RefersTo(r, p, q)
    ensures Prepared(containers, edges, references)
    ensures forall w :: SchemaGraph.Walk(containers, edges, references, w) <==> Expansion(r, w)
    ensures Recursive(containers, edges, references) <==> Recurs(r)
  {
    forall p, q {:trigger q in Out(edges, p)} | q in Out(edges, p) ensures p in containers && q in containers {
      HoldsInside(r, p, q);
    }
    forall i | 0 <= i < |references| ensures references[i].source in containers {
      assert Reference(references[i].source, references[i].target) in references;
    }
    forall p, q ensures Expands(containers, edges, references, p, q) <==> Leads(r, p, q) {
    }
    forall w ensures SchemaGraph.Walk(containers, edges, references, w) <==> Expansion(r, w) {
    }
  }

  /**
   `_schema_resource_issue`: nothing is reported exactly when the resource is an acceptable object, all its
   references lead to schemas inside it, and expanding them never recurs.  Then no expansion is longer than
   the number of containers.
   */
  method SchemaResourceIssue(heap: Heap, root: Val, lim: Limits) returns (issue: Option<SchemaIssue>, ghost containers: set<Location>)
    requires Sound(heap) && Linked(heap, root)
    ensures var r := Resource(heap, root, lim.depth + 1);
      issue.None? <==> IsDict(r, root) && Acceptable(heap, root, lim) && SelfContained(r) && !Recurs(r)
    ensures issue.Some? ==> Justified(Resource(heap, root, lim.depth + 1), lim, issue.value)
    ensures issue.None? ==> forall p :: p in containers <==> ContainerAt(Resource(heap, root, lim.depth + 1), p)
    ensures issue.None? ==> forall w :: Expansion(Resource(heap, root, lim.depth + 1), w) ==> |w| <= |containers|
  {
    var r := Resource(heap, root, lim.depth + 1);
    containers := {};
    if !IsDict(r, root) { return Some(ExternalSchema), containers; }
    var scan := ScanJsonResource(heap, root, lim);
    if scan.Rejected? { return Some(ScanFailed(scan.reason, scan.path)), containers; }
    var schemas := JsonSchemaLocations(r, scan.locations);
    var references;
    issue, references := CollectReferences(r, schemas, lim);
    if issue.Some? { return; }
    var found := set p | p in scan.locations && scan.locations[p].Container?;
    containers := found;
    GraphIsResource(r, containers, scan.edges, references);
    var cyclic;
    ghost var rank;
    cyclic, rank := ReferenceCycle(found, scan.edges, references);
    if cyclic { return Some(ReferencesRecur), containers; }
    forall w | Expansion(r, w) ensures |w| <= |containers| {
      ExpansionEnds(containers, scan.edges, references, rank, w);
    }
  }
}
