/**
 `_scan_json_resource`: an iterative walk over a graph of Python containers, which may share and even
 contain one another, proved against the recursive definition of what it measures.
 */
module SchemaScan {
  import opened Prelude
  import opened JsonPointer

  /** A value: a primitive, a reference to a container, or something that is not JSON. */
  datatype Val = Null | Bool | Str(text: Text) | Int(bits: nat) | Float | Container(ref: nat) | Alien

  /** A dictionary with its string keys in sorted order and the number of its other keys, or a list. */
  datatype Entry = Entry(key: Text, val: Val)
  datatype Cell = Dict(entries: seq<Entry>, oddKeys: nat) | List(items: seq<Val>)
  type Heap = map<nat, Cell>

  datatype Kid = Kid(part: Part, val: Val)

  function Kids(cell: Cell): seq<Kid> {
    match cell
    case Dict(entries, _) => seq(|entries|, i requires 0 <= i < |entries| => Kid(Key(entries[i].key), entries[i].val))
    case List(items) => seq(|items|, i requires 0 <= i < |items| => Kid(Index(i), items[i]))
  }

  function Size(cell: Cell): nat { match cell case Dict(entries, odd) => |entries| + odd case List(items) => |items| }

  predicate OddKeys(cell: Cell) { cell.Dict? && cell.oddKeys > 0 }

  function KeyBytes(cell: Cell): nat { if cell.Dict? then EntryBytes(cell.entries) else 0 }

  function EntryBytes(entries: seq<Entry>): nat {
    if entries == [] then 0 else |entries[0].key| + EntryBytes(entries[1..])
  }

  /** `_primitive_bytes` */
  function PrimitiveBytes(v: Val): nat {
    match v
    case Null => 4
    case Bool => 5
    case Str(text) => |text|
    case Int(bits) => (bits * 30103) / 100000 + 2
    case Float => 32
    case _ => 0
  }

  /** Every reference leads to a container whose parts are distinct, as in any Python object graph. */
  ghost predicate Linked(heap: Heap, v: Val) { v.Container? ==> v.ref in heap }

  ghost predicate Sound(heap: Heap) {
    forall r :: r in heap ==>
      && (forall i :: 0 <= i < |Kids(heap[r])| ==> Linked(heap, Kids(heap[r])[i].val))
      && DistinctParts(Kids(heap[r]))
  }

  predicate DistinctParts(kids: seq<Kid>) { forall i, j :: 0 <= i < j < |kids| ==> kids[i].part != kids[j].part }

  // ---------------------------------------------------------------- locations

  function Lookup(kids: seq<Kid>, part: Part): Option<Val> {
    if kids == [] then None else if kids[0].part == part then Some(kids[0].val) else Lookup(kids[1..], part)
  }

  function Step(heap: Heap, v: Val, part: Part): Option<Val> {
    if v.Container? && v.ref in heap then Lookup(Kids(heap[v.ref]), part) else None
  }

  /** The value at a path below `v`; in a cyclic graph there are infinitely many paths. */
  function Below(heap: Heap, v: Val, p: Location): Option<Val>
    decreases |p|
  {
    if p == [] then Some(v)
    else match Step(heap, v, p[0])
      case None => None
      case Some(w) => Below(heap, w, p[1..])
  }

  lemma {:induction false} BelowAppend(heap: Heap, v: Val, p: Location, q: Location)
    ensures Below(heap, v, p + q) == match Below(heap, v, p) case None => None case Some(w) => Below(heap, w, q)
    decreases |p|
  {
    if p == [] {
      assert p + q == q;
    } else {
      assert (p + q)[1..] == p[1..] + q && (p + q)[0] == p[0];
      match Step(heap, v, p[0])
      case None =>
      case Some(w) => BelowAppend(heap, w, p[1..], q);
    }
  }

  lemma BelowChild(heap: Heap, v: Val, p: Location, part: Part)
    ensures Below(heap, v, p + [part]) == match Below(heap, v, p) case None => None case Some(w) => Step(heap, w, part)
  {
    BelowAppend(heap, v, p, [part]);
    match Below(heap, v, p)
    case None =>
    case Some(w) =>
      assert [part][1..] == [];
  }

  lemma {:induction false} LookupAt(kids: seq<Kid>, i: nat)
    requires i < |kids| && DistinctParts(kids)
    ensures Lookup(kids, kids[i].part) == Some(kids[i].val)
  {
    if i > 0 {
      assert kids[0].part != kids[i].part;
      LookupAt(kids[1..], i - 1);
    }
  }

  lemma {:induction false} LookupFound(kids: seq<Kid>, part: Part)
    requires Lookup(kids, part).Some?
    ensures exists i :: 0 <= i < |kids| && kids[i] == Kid(part, Lookup(kids, part).value)
  {
    if kids[0].part == part {
      assert kids[0] == Kid(part, Lookup(kids, part).value);
    } else {
      LookupFound(kids[1..], part);
      var i :| 0 <= i < |kids[1..]| && kids[1..][i] == Kid(part, Lookup(kids, part).value);
      assert kids[i + 1] == Kid(part, Lookup(kids, part).value);
    }
  }

  // ---------------------------------------------------------------- the recursive definition

  datatype Load = Load(nodes: nat, bytes: nat)

  function Plus(a: Option<Load>, b: Option<Load>): Option<Load> {
    if a.Some? && b.Some? then Some(Load(a.value.nodes + b.value.nodes, a.value.bytes + b.value.bytes)) else None
  }

  /** Values and bytes of `v`, if it is JSON throughout and nests at most `levels` deep. */
  function Tally(heap: Heap, v: Val, levels: nat): Option<Load>
    decreases levels, 0
  {
    if levels == 0 || v.Alien? then None
    else if !v.Container? then Some(Load(1, PrimitiveBytes(v)))
    else if v.ref !in heap || OddKeys(heap[v.ref]) then None
    else Plus(Some(Load(1, KeyBytes(heap[v.ref]))), TallyAll(heap, Kids(heap[v.ref]), levels - 1))
  }

  function TallyAll(heap: Heap, kids: seq<Kid>, levels: nat): Option<Load>
    decreases levels, |kids| + 1
  {
    if kids == [] then Some(Load(0, 0)) else Plus(Tally(heap, kids[0].val, levels), TallyAll(heap, kids[1..], levels))
  }

  datatype Limits = Limits(depth: nat, nodes: nat, bytes: nat)

  predicate Acceptable(heap: Heap, root: Val, lim: Limits) {
    var load := Tally(heap, root, lim.depth + 1);
    load.Some? && load.value.nodes <= lim.nodes && load.value.bytes <= lim.bytes
  }

  lemma {:induction false} TallyGrows(heap: Heap, v: Val, levels: nat, more: nat)
    requires Tally(heap, v, levels).Some? && levels <= more
    ensures Tally(heap, v, more) == Tally(heap, v, levels)
    decreases levels, 0
  {
    if v.Container? {
      TallyAllGrows(heap, Kids(heap[v.ref]), levels - 1, more - 1);
    }
  }

  lemma {:induction false} TallyAllGrows(heap: Heap, kids: seq<Kid>, levels: nat, more: nat)
    requires TallyAll(heap, kids, levels).Some? && levels <= more
    ensures TallyAll(heap, kids, more) == TallyAll(heap, kids, levels)
    decreases levels, |kids| + 1
  {
    if kids != [] {
      TallyGrows(heap, kids[0].val, levels, more);
      TallyAllGrows(heap, kids[1..], levels, more);
    }
  }

  lemma {:induction false} TallyOfKid(heap: Heap, kids: seq<Kid>, levels: nat, i: nat)
    requires TallyAll(heap, kids, levels).Some? && i < |kids|
    ensures Tally(heap, kids[i].val, levels).Some?
    ensures Tally(heap, kids[i].val, levels).value.nodes <= TallyAll(heap, kids, levels).value.nodes
  {
    if i > 0 {
      TallyOfKid(heap, kids[1..], levels, i - 1);
    }
  }

  /** What lies below a measured value is measured too, and weighs less. */
  lemma {:induction false} TallyBelow(heap: Heap, v: Val, levels: nat, p: Location)
    requires Tally(heap, v, levels).Some? && Below(heap, v, p).Some?
    ensures |p| < levels && Tally(heap, Below(heap, v, p).value, levels - |p|).Some?
    ensures var part := Tally(heap, Below(heap, v, p).value, levels - |p|).value;
      part.nodes + |p| <= Tally(heap, v, levels).value.nodes
    decreases |p|
  {
    if p != [] {
      var kids := Kids(heap[v.ref]);
      LookupFound(kids, p[0]);
      var i :| 0 <= i < |kids| && kids[i] == Kid(p[0], Lookup(kids, p[0]).value);
      TallyOfKid(heap, kids, levels - 1, i);
      TallyBelow(heap, kids[i].val, levels - 1, p[1..]);
    }
  }

  /** A value that can be measured does not contain itself. */
  lemma NoSelfContainment(heap: Heap, v: Val, levels: nat, p: Location)
    requires Tally(heap, v, levels).Some? && p != []
    ensures Below(heap, v, p) != Some(v)
  {
    var less: nat := if |p| < levels then levels - |p| else 0;
    if Below(heap, v, p) == Some(v) {
      TallyBelow(heap, v, levels, p);
      TallyGrows(heap, v, less, levels);
    }
  }

  /** JSON at this location: no foreign object, no key that is not a string. */
  predicate IsJson(heap: Heap, v: Val) { !v.Alien? && (v.Container? ==> v.ref in heap && !OddKeys(heap[v.ref])) }

  /** `p` is a location whose nesting and type are allowed. */
  predicate Allowed(heap: Heap, v: Val, p: Location, depth: nat) {
    Below(heap, v, p).Some? ==> |p| <= depth && IsJson(heap, Below(heap, v, p).value)
  }

  /** The recursive measure exists exactly when every location is JSON and lies at most the allowed depth down. */
  lemma TallyExists(heap: Heap, v: Val, depth: nat)
    requires Sound(heap)
    ensures Tally(heap, v, depth + 1).Some? <==> forall p :: Allowed(heap, v, p, depth)
  {
    if Tally(heap, v, depth + 1).Some? {
      forall p ensures Allowed(heap, v, p, depth) {
        if Below(heap, v, p).Some? {
          TallyBelow(heap, v, depth + 1, p);
        }
      }
    } else {
      var p := Offence(heap, v, depth + 1);
      assert !Allowed(heap, v, p, depth);
    }
  }

  /** In an acceptable resource no container contains itself. */
  lemma AcceptableIsAcyclic(heap: Heap, root: Val, lim: Limits, p: Location, q: Location)
    requires Acceptable(heap, root, lim) && Below(heap, root, p).Some? && q != []
    ensures Below(heap, root, p + q) != Below(heap, root, p)
  {
    TallyBelow(heap, root, lim.depth + 1, p);
    NoSelfContainment(heap, Below(heap, root, p).value, lim.depth + 1 - |p|, q);
    BelowAppend(heap, root, p, q);
  }

  /** A value that cannot be measured has a location that is too deep or not JSON. */
  lemma {:induction false} Offence(heap: Heap, v: Val, levels: nat) returns (p: Location)
    requires Sound(heap) && Tally(heap, v, levels).None?
    ensures Below(heap, v, p).Some? && (|p| >= levels || !IsJson(heap, Below(heap, v, p).value))
    decreases levels
  {
    if levels == 0 || !IsJson(heap, v) {
      p := [];
    } else {
      var kids := Kids(heap[v.ref]);
      var i := OffendingKid(heap, kids, levels - 1);
      var q := Offence(heap, kids[i].val, levels - 1);
      LookupAt(kids, i);
      p := [kids[i].part] + q;
      assert p[0] == kids[i].part && p[1..] == q;
    }
  }

  lemma {:induction false} OffendingKid(heap: Heap, kids: seq<Kid>, levels: nat) returns (i: nat)
    requires TallyAll(heap, kids, levels).None?
    ensures i < |kids| && Tally(heap, kids[i].val, levels).None?
    decreases |kids|
  {
    if Tally(heap, kids[0].val, levels).None? {
      i := 0;
    } else {
      var j := OffendingKid(heap, kids[1..], levels);
      i := j + 1;
    }
  }

  // ---------------------------------------------------------------- the iterative walk

  datatype Frame = Visit(val: Val, path: Location, depth: nat) | Exit(ref: nat, path: Location)
  type Edges = map<Location, set<Location>>

  datatype Reason = DepthExceeded | NodeLimitExceeded | TypeError | BytesExceeded | ObjectCycle
  datatype Outcome = Scanned(locations: map<Location, Val>, edges: Edges) | Rejected(reason: Reason, path: Location)

  /** The local variables of the walk. */
  datatype State = State(stack: seq<Frame>, count: nat, bytes: nat, active: set<nat>, locations: map<Location, Val>, edges: Edges)

  function Levels(lim: Limits, depth: nat): nat { if depth <= lim.depth then lim.depth + 1 - depth else 0 }

  /** What the frames on the stack still have to add. */
  function Rest(heap: Heap, lim: Limits, stack: seq<Frame>): Option<Load> {
    if stack == [] then Some(Load(0, 0))
    else
      var top, rest := stack[|stack| - 1], Rest(heap, lim, stack[..|stack| - 1]);
      if top.Visit? then Plus(Tally(heap, top.val, Levels(lim, top.depth)), rest) else rest
  }

  /** The children are pushed last first, so that they are visited first to last. */
  function Push(stack: seq<Frame>, kids: seq<Kid>, path: Location, depth: nat): seq<Frame> {
    if kids == [] then stack
    else Push(stack, kids[1..], path, depth) + [Visit(kids[0].val, path + [kids[0].part], depth)]
  }

  function Out(edges: Edges, p: Location): set<Location> { if p in edges then edges[p] else {} }

  /** The containment edges of one container, recorded child by child. */
  function AddEdges(edges: Edges, kids: seq<Kid>, path: Location): Edges {
    if kids == [] then edges
    else
      var added := AddEdges(edges, kids[1..], path);
      if kids[0].val.Container? then added[path := Out(added, path) + {path + [kids[0].part]}] else added
  }

  predicate ProperPrefix(p: Location, q: Location) { |p| < |q| && q[..|p|] == p }

  predicate IsPrefix(p: Location, q: Location) { |p| <= |q| && q[..|p|] == p }

  /** Each frame is about a location of the resource. */
  ghost predicate Placed(heap: Heap, root: Val, f: Frame) {
    match f
    case Visit(v, p, d) => Below(heap, root, p) == Some(v) && |p| == d
    case Exit(r, p) => Below(heap, root, p) == Some(Container(r))
  }

  /** The exit frames are the containers being walked: everything above one lies inside it. */
  ghost predicate Nested(stack: seq<Frame>, active: set<nat>) {
    && (forall i, j :: 0 <= i < j < |stack| && stack[i].Exit? ==> ProperPrefix(stack[i].path, stack[j].path))
    && (forall i, j :: 0 <= i < j < |stack| && stack[i].Exit? && stack[j].Exit? ==> stack[i].ref != stack[j].ref)
    && (forall i :: 0 <= i < |stack| && stack[i].Exit? ==> stack[i].ref in active)
    && (forall r :: r in active ==> exists i :: 0 <= i < |stack| && stack[i] == Exit(r, stack[i].path))
  }

  /** Every location is recorded or lies below one still to be visited. */
  ghost predicate Pending(stack: seq<Frame>, p: Location) {
    exists i :: 0 <= i < |stack| && stack[i].Visit? && IsPrefix(stack[i].path, p)
  }

  ghost predicate Covers(heap: Heap, root: Val, stack: seq<Frame>, locations: map<Location, Val>) {
    && (forall p :: p in locations ==> Below(heap, root, p) == Some(locations[p]))
    && (forall p :: Below(heap, root, p).Some? ==> p in locations || Pending(stack, p))
  }

  /** `q` is a container directly inside the one at `p`. */
  predicate Holds(heap: Heap, root: Val, p: Location, q: Location) {
    && |q| == |p| + 1 && q[..|p|] == p
    && Below(heap, root, q).Some? && Below(heap, root, q).value.Container?
  }

  ghost predicate EdgesFor(heap: Heap, root: Val, locations: map<Location, Val>, edges: Edges) {
    && (forall p, q :: q in Out(edges, p) ==> Holds(heap, root, p, q))
    && (forall p, q :: p in locations && Holds(heap, root, p, q) ==> q in Out(edges, p))
  }

  ghost predicate AllPlaced(heap: Heap, root: Val, stack: seq<Frame>) {
    forall i :: 0 <= i < |stack| ==> Placed(heap, root, stack[i])
  }

  /** What has been counted and what the stack still holds make up the whole. */
  predicate Balanced(heap: Heap, root: Val, lim: Limits, s: State) {
    Tally(heap, root, lim.depth + 1) == Plus(Some(Load(s.count, s.bytes)), Rest(heap, lim, s.stack))
  }

  ghost predicate Scanning(heap: Heap, root: Val, lim: Limits, s: State) {
    && Sound(heap) && Linked(heap, root) && s.count <= lim.nodes && s.bytes <= lim.bytes
    && Balanced(heap, root, lim, s)
    && AllPlaced(heap, root, s.stack)
    && Nested(s.stack, s.active) && Covers(heap, root, s.stack, s.locations) && EdgesFor(heap, root, s.locations, s.edges)
  }

  lemma ScanningAtFirst(heap: Heap, root: Val, lim: Limits)
    requires Sound(heap) && Linked(heap, root)
    ensures Scanning(heap, root, lim, State([Visit(root, [], 0)], 0, 0, {}, map[], map[]))
  {
    var stack := [Visit(root, [], 0)];
    assert stack[..0] == [];
    forall p | Below(heap, root, p).Some? ensures Pending(stack, p) {
      assert stack[0].Visit? && IsPrefix(stack[0].path, p);
    }
  }

  lemma PlacedPops(heap: Heap, root: Val, stack: seq<Frame>)
    requires stack != [] && AllPlaced(heap, root, stack)
    ensures AllPlaced(heap, root, stack[..|stack| - 1])
  {
  }

  lemma NestedPopsExit(stack: seq<Frame>, active: set<nat>)
    requires stack != [] && stack[|stack| - 1].Exit? && Nested(stack, active)
    ensures Nested(stack[..|stack| - 1], active - {stack[|stack| - 1].ref})
  {
    var top, rest := stack[|stack| - 1], stack[..|stack| - 1];
    forall r | r in active - {top.ref} ensures exists i :: 0 <= i < |rest| && rest[i] == Exit(r, rest[i].path) {
      var i :| 0 <= i < |stack| && stack[i] == Exit(r, stack[i].path);
      assert rest[i] == stack[i];
    }
  }

  lemma NestedPopsVisit(stack: seq<Frame>, active: set<nat>)
    requires stack != [] && stack[|stack| - 1].Visit? && Nested(stack, active)
    ensures Nested(stack[..|stack| - 1], active)
  {
    var rest := stack[..|stack| - 1];
    forall r | r in active ensures exists i :: 0 <= i < |rest| && rest[i] == Exit(r, rest[i].path) {
      var i :| 0 <= i < |stack| && stack[i] == Exit(r, stack[i].path);
      assert rest[i] == stack[i];
    }
  }

  lemma CoversPopsExit(heap: Heap, root: Val, stack: seq<Frame>, locations: map<Location, Val>)
    requires stack != [] && stack[|stack| - 1].Exit? && Covers(heap, root, stack, locations)
    ensures Covers(heap, root, stack[..|stack| - 1], locations)
  {
    var rest := stack[..|stack| - 1];
    forall p | Below(heap, root, p).Some? && p !in locations ensures Pending(rest, p) {
      var i :| 0 <= i < |stack| && stack[i].Visit? && IsPrefix(stack[i].path, p);
      assert rest[i] == stack[i];
    }
  }

  /** What the walk does when a container has been left. */
  function AfterExit(s: State, top: Frame): State
    requires s.stack != [] && top.Exit?
  {
    s.(stack := s.stack[..|s.stack| - 1], active := s.active - {top.ref})
  }

  lemma ExitBalance(heap: Heap, root: Val, lim: Limits, s: State)
    requires Balanced(heap, root, lim, s) && s.stack != [] && s.stack[|s.stack| - 1].Exit?
    ensures Balanced(heap, root, lim, AfterExit(s, s.stack[|s.stack| - 1]))
  {
  }

  lemma ScanningExits(heap: Heap, root: Val, lim: Limits, s: State)
    requires Scanning(heap, root, lim, s) && s.stack != [] && s.stack[|s.stack| - 1].Exit?
    ensures Scanning(heap, root, lim, AfterExit(s, s.stack[|s.stack| - 1]))
  {
    ExitBalance(heap, root, lim, s);
    PlacedPops(heap, root, s.stack);
    NestedPopsExit(s.stack, s.active);
    CoversPopsExit(heap, root, s.stack, s.locations);
    Assemble(heap, root, lim, AfterExit(s, s.stack[|s.stack| - 1]));
  }

  lemma NothingBelowLeaf(heap: Heap, root: Val, p: Location, q: Location)
    requires Below(heap, root, p).Some? && !Below(heap, root, p).value.Container?
    requires IsPrefix(p, q) && Below(heap, root, q).Some?
    ensures q == p
  {
    BelowAppend(heap, root, p, q[|p|..]);
    assert p + q[|p|..] == q;
  }

  /** Nothing lies below a value without children. */
  lemma LeafCovers(heap: Heap, root: Val, stack: seq<Frame>, locations: map<Location, Val>)
    requires stack != [] && Covers(heap, root, stack, locations)
    requires var top := stack[|stack| - 1]; top.Visit? && !top.val.Container? && Below(heap, root, top.path) == Some(top.val)
    ensures var top := stack[|stack| - 1]; Covers(heap, root, stack[..|stack| - 1], locations[top.path := top.val])
  {
    var top, rest := stack[|stack| - 1], stack[..|stack| - 1];
    forall p | Below(heap, root, p).Some? && p !in locations && p != top.path ensures Pending(rest, p) {
      var i :| 0 <= i < |stack| && stack[i].Visit? && IsPrefix(stack[i].path, p);
      if i == |stack| - 1 {
        NothingBelowLeaf(heap, root, top.path, p);
        assert false;
      }
      assert rest[i] == stack[i];
    }
  }

  lemma LeafEdges(heap: Heap, root: Val, locations: map<Location, Val>, edges: Edges, p: Location, v: Val)
    requires EdgesFor(heap, root, locations, edges) && Below(heap, root, p) == Some(v) && !v.Container?
    ensures EdgesFor(heap, root, locations[p := v], edges)
  {
    forall q ensures !Holds(heap, root, p, q) {
      if Holds(heap, root, p, q) {
        assert q == p + [q[|p|]];
        BelowChild(heap, root, p, q[|p|]);
      }
    }
  }

  /** What the walk does with a primitive. */
  function AfterLeaf(s: State, top: Frame): State
    requires s.stack != [] && top.Visit?
  {
    State(s.stack[..|s.stack| - 1], s.count + 1, s.bytes + PrimitiveBytes(top.val),
          s.active, s.locations[top.path := top.val], s.edges)
  }

  lemma LeafBalance(heap: Heap, root: Val, lim: Limits, s: State)
    requires Balanced(heap, root, lim, s) && s.stack != [] && s.stack[|s.stack| - 1].Visit?
    requires var top := s.stack[|s.stack| - 1]; !top.val.Container? && !top.val.Alien? && top.depth <= lim.depth
    ensures Balanced(heap, root, lim, AfterLeaf(s, s.stack[|s.stack| - 1]))
  {
  }

  lemma ScanningLeaf(heap: Heap, root: Val, lim: Limits, s: State)
    requires Scanning(heap, root, lim, s) && s.stack != []
    requires var top := s.stack[|s.stack| - 1];
      top.Visit? && !top.val.Container? && !top.val.Alien? && top.depth <= lim.depth
      && s.count < lim.nodes && s.bytes + PrimitiveBytes(top.val) <= lim.bytes
    ensures Scanning(heap, root, lim, AfterLeaf(s, s.stack[|s.stack| - 1]))
  {
    var top := s.stack[|s.stack| - 1];
    assert Placed(heap, root, top);
    LeafBalance(heap, root, lim, s);
    PlacedPops(heap, root, s.stack);
    NestedPopsVisit(s.stack, s.active);
    LeafCovers(heap, root, s.stack, s.locations);
    LeafEdges(heap, root, s.locations, s.edges, top.path, top.val);
    Assemble(heap, root, lim, AfterLeaf(s, top));
  }

  // ---------------------------------------------------------------- entering a container

  lemma {:induction false} PushShape(stack: seq<Frame>, kids: seq<Kid>, path: Location, depth: nat)
    ensures var pushed := Push(stack, kids, path, depth);
      && |pushed| == |stack| + |kids|
      && (forall i :: 0 <= i < |stack| ==> pushed[i] == stack[i])
      && forall k :: 0 <= k < |kids| ==> pushed[|pushed| - 1 - k] == Visit(kids[k].val, path + [kids[k].part], depth)
  {
    if kids != [] {
      PushShape(stack, kids[1..], path, depth);
      var pushed := Push(stack, kids, path, depth);
      forall k | 0 <= k < |kids| ensures pushed[|pushed| - 1 - k] == Visit(kids[k].val, path + [kids[k].part], depth) {
        if k > 0 { assert kids[1..][k - 1] == kids[k]; }
      }
    }
  }

  lemma RestPushed(heap: Heap, lim: Limits, stack: seq<Frame>, v: Val, path: Location, depth: nat)
    ensures Rest(heap, lim, stack + [Visit(v, path, depth)]) == Plus(Tally(heap, v, Levels(lim, depth)), Rest(heap, lim, stack))
  {
    var pushed := stack + [Visit(v, path, depth)];
    assert pushed[..|pushed| - 1] == stack;
  }

  lemma PlusRegroups(a: Option<Load>, b: Option<Load>, c: Option<Load>)
    ensures Plus(Plus(a, b), c) == Plus(a, Plus(b, c))
  {
  }

  lemma {:induction false} PushRest(heap: Heap, lim: Limits, stack: seq<Frame>, kids: seq<Kid>, path: Location, depth: nat)
    ensures Rest(heap, lim, Push(stack, kids, path, depth))
            == Plus(TallyAll(heap, kids, Levels(lim, depth)), Rest(heap, lim, stack))
  {
    if kids != [] {
      PushRest(heap, lim, stack, kids[1..], path, depth);
      RestPushed(heap, lim, Push(stack, kids[1..], path, depth), kids[0].val, path + [kids[0].part], depth);
      PlusRegroups(Tally(heap, kids[0].val, Levels(lim, depth)), TallyAll(heap, kids[1..], Levels(lim, depth)), Rest(heap, lim, stack));
    }
  }

  lemma AddOne(edges: Edges, kids: seq<Kid>, path: Location)
    requires kids != []
    ensures var before, added := AddEdges(edges, kids[1..], path), AddEdges(edges, kids, path);
      && (forall p :: p != path ==> Out(added, p) == Out(before, p))
      && Out(added, path) == Out(before, path) + if kids[0].val.Container? then {path + [kids[0].part]} else {}
  {
  }

  /** A container child at position `k`, and its location. */
  predicate KidAt(kids: seq<Kid>, path: Location, k: nat, q: Location) {
    k < |kids| && kids[k].val.Container? && q == path + [kids[k].part]
  }

  lemma {:induction false} EdgesAdded(edges: Edges, kids: seq<Kid>, path: Location)
    ensures var added := AddEdges(edges, kids, path);
      && (forall p :: p != path ==> Out(added, p) == Out(edges, p))
      && forall q :: q in Out(added, path) <==> q in Out(edges, path) || exists k :: KidAt(kids, path, k, q)
  {
    if kids != [] {
      EdgesAdded(edges, kids[1..], path);
      AddOne(edges, kids, path);
      forall q ensures q in Out(AddEdges(edges, kids, path), path) <==> q in Out(edges, path) || exists k :: KidAt(kids, path, k, q) {
        KidsOf(kids, path, q);
        assert KidAt(kids, path, 0, q) <==> kids[0].val.Container? && q == path + [kids[0].part];
      }
    }
  }

  lemma KidsOf(kids: seq<Kid>, path: Location, q: Location)
    requires kids != []
    ensures (exists k :: KidAt(kids, path, k, q)) <==> KidAt(kids, path, 0, q) || exists k :: KidAt(kids[1..], path, k, q)
  {
    if k: nat :| KidAt(kids, path, k, q) && k > 0 { assert KidAt(kids[1..], path, k - 1, q); }
    if k: nat :| KidAt(kids[1..], path, k, q) { assert KidAt(kids, path, k + 1, q); }
  }

  /** A container whose parts and keys may be walked. */
  predicate Enterable(heap: Heap, lim: Limits, top: Frame) {
    top.Visit? && top.val.Container? && top.val.ref in heap && !OddKeys(heap[top.val.ref]) && top.depth <= lim.depth
  }

  /** What the walk does with a container. */
  function AfterContainer(heap: Heap, s: State, top: Frame): State
    requires s.stack != [] && top.Visit? && top.val.Container? && top.val.ref in heap
  {
    var cell := heap[top.val.ref];
    State(Push(s.stack[..|s.stack| - 1] + [Exit(top.val.ref, top.path)], Kids(cell), top.path, top.depth + 1),
          s.count + 1, s.bytes + KeyBytes(cell), s.active + {top.val.ref}, s.locations[top.path := top.val],
          AddEdges(s.edges, Kids(cell), top.path))
  }

  lemma PlusMoves(whole: Option<Load>, count: nat, bytes: nat, keys: nat, before: Option<Load>, kids: Option<Load>,
                  rest: Option<Load>, after: Option<Load>)
    requires whole == Plus(Some(Load(count, bytes)), before)
    requires before == Plus(Plus(Some(Load(1, keys)), kids), rest) && after == Plus(kids, rest)
    ensures whole == Plus(Some(Load(count + 1, bytes + keys)), after)
  {
  }

  lemma EnterTally(heap: Heap, lim: Limits, top: Frame)
    requires Enterable(heap, lim, top)
    ensures Tally(heap, top.val, Levels(lim, top.depth)) ==
      Plus(Some(Load(1, KeyBytes(heap[top.val.ref]))), TallyAll(heap, Kids(heap[top.val.ref]), Levels(lim, top.depth + 1)))
  {
    assert Levels(lim, top.depth + 1) == Levels(lim, top.depth) - 1;
  }

  lemma ExitRest(heap: Heap, lim: Limits, rest: seq<Frame>, r: nat, path: Location)
    ensures Rest(heap, lim, rest + [Exit(r, path)]) == Rest(heap, lim, rest)
  {
    assert (rest + [Exit(r, path)])[..|rest + [Exit(r, path)]| - 1] == rest;
  }

  lemma TopRest(heap: Heap, lim: Limits, rest: seq<Frame>, top: Frame, cell: Cell)
    requires Enterable(heap, lim, top) && cell == heap[top.val.ref]
    ensures Rest(heap, lim, rest + [top]) ==
      Plus(Plus(Some(Load(1, KeyBytes(cell))), TallyAll(heap, Kids(cell), Levels(lim, top.depth + 1))), Rest(heap, lim, rest))
  {
    EnterTally(heap, lim, top);
    RestPushed(heap, lim, rest, top.val, top.path, top.depth);
  }

  lemma EnteredRest(heap: Heap, lim: Limits, rest: seq<Frame>, r: nat, kids: seq<Kid>, path: Location, depth: nat)
    ensures Rest(heap, lim, Push(rest + [Exit(r, path)], kids, path, depth))
            == Plus(TallyAll(heap, kids, Levels(lim, depth)), Rest(heap, lim, rest))
  {
    PushRest(heap, lim, rest + [Exit(r, path)], kids, path, depth);
    ExitRest(heap, lim, rest, r, path);
  }

  lemma ContainerBalance(heap: Heap, lim: Limits, whole: Option<Load>, rest: seq<Frame>, top: Frame, count: nat, bytes: nat,
                         cell: Cell, kids: seq<Kid>, pushed: seq<Frame>)
    requires Enterable(heap, lim, top) && cell == heap[top.val.ref] && kids == Kids(cell)
    requires whole == Plus(Some(Load(count, bytes)), Rest(heap, lim, rest + [top]))
    requires pushed == Push(rest + [Exit(top.val.ref, top.path)], kids, top.path, top.depth + 1)
    ensures whole == Plus(Some(Load(count + 1, bytes + KeyBytes(cell))), Rest(heap, lim, pushed))
  {
    TopRest(heap, lim, rest, top, cell);
    EnteredRest(heap, lim, rest, top.val.ref, kids, top.path, top.depth + 1);
    PlusMoves(whole, count, bytes, KeyBytes(cell), Rest(heap, lim, rest + [top]),
              TallyAll(heap, kids, Levels(lim, top.depth + 1)), Rest(heap, lim, rest), Rest(heap, lim, pushed));
  }

  lemma KidPlaced(heap: Heap, root: Val, p: Location, r: nat, k: nat)
    requires Sound(heap) && r in heap && k < |Kids(heap[r])| && Below(heap, root, p) == Some(Container(r))
    ensures Below(heap, root, p + [Kids(heap[r])[k].part]) == Some(Kids(heap[r])[k].val)
  {
    LookupAt(Kids(heap[r]), k);
    BelowChild(heap, root, p, Kids(heap[r])[k].part);
  }

  /** A frame of the pushed stack: an old one, the exit frame, or a child. */
  lemma PushedFrame(rest: seq<Frame>, r: nat, kids: seq<Kid>, path: Location, depth: nat, i: nat)
    requires i < |Push(rest + [Exit(r, path)], kids, path, depth)|
    ensures var f := Push(rest + [Exit(r, path)], kids, path, depth)[i];
      if i < |rest| then f == rest[i]
      else if i == |rest| then f == Exit(r, path)
      else exists k :: 0 <= k < |kids| && f == Visit(kids[k].val, path + [kids[k].part], depth)
  {
    var pushed := Push(rest + [Exit(r, path)], kids, path, depth);
    PushShape(rest + [Exit(r, path)], kids, path, depth);
    if i > |rest| {
      var k := |pushed| - 1 - i;
      assert pushed[|pushed| - 1 - k] == pushed[i];
    }
  }

  lemma ContainerPlaced(heap: Heap, root: Val, stack: seq<Frame>, r: nat, depth: nat)
    requires Sound(heap) && stack != [] && AllPlaced(heap, root, stack) && r in heap
    requires var top := stack[|stack| - 1]; top.Visit? && top.val == Container(r) && top.depth + 1 == depth
    ensures var path := stack[|stack| - 1].path;
      AllPlaced(heap, root, Push(stack[..|stack| - 1] + [Exit(r, path)], Kids(heap[r]), path, depth))
  {
    var top, rest, kids := stack[|stack| - 1], stack[..|stack| - 1], Kids(heap[r]);
    var pushed := Push(rest + [Exit(r, top.path)], kids, top.path, depth);
    assert Placed(heap, root, top);
    forall i | 0 <= i < |pushed| ensures Placed(heap, root, pushed[i]) {
      PushedFrame(rest, r, kids, top.path, depth, i);
      if i < |rest| {
        assert Placed(heap, root, stack[i]);
      } else if i > |rest| {
        var k :| 0 <= k < |kids| && pushed[i] == Visit(kids[k].val, top.path + [kids[k].part], depth);
        KidPlaced(heap, root, top.path, r, k);
      }
    }
  }

  lemma NestedOrder(stack: seq<Frame>, active: set<nat>, r: nat, kids: seq<Kid>, depth: nat, i: nat, j: nat)
    requires stack != [] && stack[|stack| - 1].Visit? && Nested(stack, active) && r !in active
    requires var path := stack[|stack| - 1].path;
      var pushed := Push(stack[..|stack| - 1] + [Exit(r, path)], kids, path, depth);
      i < j < |pushed| && pushed[i].Exit?
    ensures var path := stack[|stack| - 1].path;
      var pushed := Push(stack[..|stack| - 1] + [Exit(r, path)], kids, path, depth);
      ProperPrefix(pushed[i].path, pushed[j].path) && (pushed[j].Exit? ==> pushed[i].ref != pushed[j].ref)
  {
    var top, rest := stack[|stack| - 1], stack[..|stack| - 1];
    PushedFrame(rest, r, kids, top.path, depth, i);
    PushedFrame(rest, r, kids, top.path, depth, j);
    if i < |rest| {
      assert ProperPrefix(stack[i].path, stack[if j < |rest| then j else |stack| - 1].path);
    }
  }

  lemma NestedActive(stack: seq<Frame>, active: set<nat>, r: nat, kids: seq<Kid>, depth: nat, x: nat)
    requires stack != [] && stack[|stack| - 1].Visit? && Nested(stack, active) && x in active + {r}
    ensures var path := stack[|stack| - 1].path;
      var pushed := Push(stack[..|stack| - 1] + [Exit(r, path)], kids, path, depth);
      exists i :: 0 <= i < |pushed| && pushed[i] == Exit(x, pushed[i].path)
  {
    var top, rest := stack[|stack| - 1], stack[..|stack| - 1];
    var pushed := Push(rest + [Exit(r, top.path)], kids, top.path, depth);
    PushShape(rest + [Exit(r, top.path)], kids, top.path, depth);
    if x == r {
      PushedFrame(rest, r, kids, top.path, depth, |rest|);
      assert pushed[|rest|] == Exit(r, top.path);
    } else {
      var i :| 0 <= i < |stack| && stack[i] == Exit(x, stack[i].path);
      PushedFrame(rest, r, kids, top.path, depth, i);
      assert pushed[i] == stack[i];
    }
  }

  lemma ContainerNested(stack: seq<Frame>, active: set<nat>, r: nat, kids: seq<Kid>, depth: nat)
    requires stack != [] && stack[|stack| - 1].Visit? && Nested(stack, active) && r !in active
    ensures var path := stack[|stack| - 1].path;
      Nested(Push(stack[..|stack| - 1] + [Exit(r, path)], kids, path, depth), active + {r})
  {
    var top, rest := stack[|stack| - 1], stack[..|stack| - 1];
    var pushed := Push(rest + [Exit(r, top.path)], kids, top.path, depth);
    forall i, j | 0 <= i < j < |pushed| && pushed[i].Exit?
      ensures ProperPrefix(pushed[i].path, pushed[j].path)
      ensures pushed[j].Exit? ==> pushed[i].ref != pushed[j].ref
    {
      NestedOrder(stack, active, r, kids, depth, i, j);
    }
    forall i | 0 <= i < |pushed| && pushed[i].Exit? ensures pushed[i].ref in active + {r} {
      PushedFrame(rest, r, kids, top.path, depth, i);
      if i < |rest| { assert stack[i] == pushed[i]; }
    }
    forall x | x in active + {r} ensures exists i :: 0 <= i < |pushed| && pushed[i] == Exit(x, pushed[i].path) {
      NestedActive(stack, active, r, kids, depth, x);
    }
  }

  /** Whatever lies below a container is the container or lies below one of its children. */
  lemma BelowContainer(heap: Heap, root: Val, p: Location, r: nat, q: Location) returns (k: nat)
    requires r in heap && Below(heap, root, p) == Some(Container(r))
    requires IsPrefix(p, q) && q != p && Below(heap, root, q).Some?
    ensures k < |Kids(heap[r])| && IsPrefix(p + [Kids(heap[r])[k].part], q)
    ensures |q| == |p| + 1 ==> Below(heap, root, q).value == Kids(heap[r])[k].val && q == p + [Kids(heap[r])[k].part]
  {
    var rest := q[|p|..];
    assert p + rest == q;
    BelowAppend(heap, root, p, rest);
    var kids := Kids(heap[r]);
    LookupFound(kids, rest[0]);
    k :| 0 <= k < |kids| && kids[k] == Kid(rest[0], Lookup(kids, rest[0]).value);
    assert q[..|p| + 1] == p + [rest[0]];
    if |q| == |p| + 1 {
      assert rest[1..] == [];
    }
  }

  /** A location inside the container lies below one of the children pushed. */
  lemma PendingInside(heap: Heap, root: Val, rest: seq<Frame>, path: Location, r: nat, depth: nat, p: Location)
    requires r in heap && Below(heap, root, path) == Some(Container(r))
    requires IsPrefix(path, p) && p != path && Below(heap, root, p).Some?
    ensures Pending(Push(rest + [Exit(r, path)], Kids(heap[r]), path, depth), p)
  {
    var k := BelowContainer(heap, root, path, r, p);
    PendingKid(rest + [Exit(r, path)], Kids(heap[r]), path, depth, p, k);
  }

  lemma PendingKid(stack: seq<Frame>, kids: seq<Kid>, path: Location, depth: nat, p: Location, k: nat)
    requires k < |kids| && IsPrefix(path + [kids[k].part], p)
    ensures Pending(Push(stack, kids, path, depth), p)
  {
    var pushed := Push(stack, kids, path, depth);
    PushShape(stack, kids, path, depth);
    var i := |pushed| - 1 - k;
    assert pushed[i] == Visit(kids[k].val, path + [kids[k].part], depth);
    assert pushed[i].Visit? && IsPrefix(pushed[i].path, p);
  }

  /** A location below another frame stays below it. */
  lemma PendingElsewhere(rest: seq<Frame>, kids: seq<Kid>, path: Location, r: nat, depth: nat, p: Location, i: nat)
    requires i < |rest| && rest[i].Visit? && IsPrefix(rest[i].path, p)
    ensures Pending(Push(rest + [Exit(r, path)], kids, path, depth), p)
  {
    PushShape(rest + [Exit(r, path)], kids, path, depth);
    var pushed := Push(rest + [Exit(r, path)], kids, path, depth);
    assert pushed[i] == (rest + [Exit(r, path)])[i] == rest[i];
    assert pushed[i].Visit? && IsPrefix(pushed[i].path, p);
  }

  lemma ContainerCovers(heap: Heap, root: Val, stack: seq<Frame>, locations: map<Location, Val>, r: nat, depth: nat)
    requires stack != [] && Covers(heap, root, stack, locations) && r in heap
    requires var top := stack[|stack| - 1]; top.Visit? && top.val == Container(r) && Below(heap, root, top.path) == Some(top.val)
    ensures var top := stack[|stack| - 1];
      Covers(heap, root, Push(stack[..|stack| - 1] + [Exit(r, top.path)], Kids(heap[r]), top.path, depth),
             locations[top.path := top.val])
  {
    var top := stack[|stack| - 1];
    var pushed := Push(stack[..|stack| - 1] + [Exit(r, top.path)], Kids(heap[r]), top.path, depth);
    forall p | Below(heap, root, p).Some? && p !in locations && p != top.path ensures Pending(pushed, p) {
      var i :| 0 <= i < |stack| && stack[i].Visit? && IsPrefix(stack[i].path, p);
      if i == |stack| - 1 {
        PendingInside(heap, root, stack[..|stack| - 1], top.path, r, depth, p);
      } else {
        PendingElsewhere(stack[..|stack| - 1], Kids(heap[r]), top.path, r, depth, p, i);
      }
    }
  }

  lemma HoldsIsKid(heap: Heap, root: Val, p: Location, r: nat, q: Location)
    requires Sound(heap) && r in heap && Below(heap, root, p) == Some(Container(r))
    ensures Holds(heap, root, p, q) <==> exists k :: KidAt(Kids(heap[r]), p, k, q)
  {
    if Holds(heap, root, p, q) {
      var k := BelowContainer(heap, root, p, r, q);
      assert KidAt(Kids(heap[r]), p, k, q);
    }
    if k: nat :| KidAt(Kids(heap[r]), p, k, q) {
      KidPlaced(heap, root, p, r, k);
    }
  }

  lemma ContainerEdges(heap: Heap, root: Val, locations: map<Location, Val>, edges: Edges, p: Location, r: nat)
    requires Sound(heap) && r in heap && Below(heap, root, p) == Some(Container(r)) && EdgesFor(heap, root, locations, edges)
    ensures EdgesFor(heap, root, locations[p := Container(r)], AddEdges(edges, Kids(heap[r]), p))
  {
    EdgesAdded(edges, Kids(heap[r]), p);
    forall q ensures Holds(heap, root, p, q) <==> exists k :: KidAt(Kids(heap[r]), p, k, q) {
      HoldsIsKid(heap, root, p, r, q);
    }
  }

  lemma Assemble(heap: Heap, root: Val, lim: Limits, s: State)
    requires Sound(heap) && Linked(heap, root) && s.count <= lim.nodes && s.bytes <= lim.bytes
    requires Balanced(heap, root, lim, s) && AllPlaced(heap, root, s.stack)
    requires Nested(s.stack, s.active) && Covers(heap, root, s.stack, s.locations)
    requires EdgesFor(heap, root, s.locations, s.edges)
    ensures Scanning(heap, root, lim, s)
  {
  }

  lemma ScanningContainer(heap: Heap, root: Val, lim: Limits, s: State, top: Frame, after: State)
    requires Scanning(heap, root, lim, s) && s.stack != [] && top == s.stack[|s.stack| - 1] && Enterable(heap, lim, top)
    requires top.val.ref !in s.active && s.count < lim.nodes && s.bytes + KeyBytes(heap[top.val.ref]) <= lim.bytes
    requires after == AfterContainer(heap, s, top)
    ensures Scanning(heap, root, lim, after)
  {
    assert Placed(heap, root, top);
    ContainerCounts(heap, root, lim, s, top, after);
    ContainerShape(heap, root, s, top, after);
    ContainerRecords(heap, root, s, top, after);
    Assemble(heap, root, lim, after);
  }

  lemma SplitTop(stack: seq<Frame>)
    requires stack != []
    ensures stack == stack[..|stack| - 1] + [stack[|stack| - 1]]
  {
  }

  lemma ContainerCounts(heap: Heap, root: Val, lim: Limits, s: State, top: Frame, after: State)
    requires Balanced(heap, root, lim, s) && s.stack != [] && top == s.stack[|s.stack| - 1] && Enterable(heap, lim, top)
    requires after == AfterContainer(heap, s, top)
    ensures Balanced(heap, root, lim, after)
  {
    var rest, cell := s.stack[..|s.stack| - 1], heap[top.val.ref];
    SplitTop(s.stack);
    ContainerBalance(heap, lim, Tally(heap, root, lim.depth + 1), rest, top, s.count, s.bytes, cell, Kids(cell), after.stack);
  }

  lemma ContainerRecords(heap: Heap, root: Val, s: State, top: Frame, after: State)
    requires Sound(heap) && Covers(heap, root, s.stack, s.locations) && EdgesFor(heap, root, s.locations, s.edges)
    requires s.stack != [] && top == s.stack[|s.stack| - 1] && top.Visit? && top.val.Container? && top.val.ref in heap
    requires Below(heap, root, top.path) == Some(top.val) && after == AfterContainer(heap, s, top)
    ensures Covers(heap, root, after.stack, after.locations) && EdgesFor(heap, root, after.locations, after.edges)
  {
    ContainerCovers(heap, root, s.stack, s.locations, top.val.ref, top.depth + 1);
    ContainerEdges(heap, root, s.locations, s.edges, top.path, top.val.ref);
  }

  lemma ContainerShape(heap: Heap, root: Val, s: State, top: Frame, after: State)
    requires Sound(heap) && AllPlaced(heap, root, s.stack) && Nested(s.stack, s.active)
    requires s.stack != [] && top == s.stack[|s.stack| - 1] && top.Visit? && top.val.Container? && top.val.ref in heap
    requires top.val.ref !in s.active && after == AfterContainer(heap, s, top)
    ensures AllPlaced(heap, root, after.stack) && Nested(after.stack, after.active)
  {
    ContainerPlaced(heap, root, s.stack, top.val.ref, top.depth + 1);
    ContainerNested(s.stack, s.active, top.val.ref, Kids(heap[top.val.ref]), top.depth + 1);
  }

  // ---------------------------------------------------------------- verdicts

  /** Why a resource was rejected, and that the reason is real. */
  ghost predicate Explains(heap: Heap, root: Val, lim: Limits, reason: Reason, path: Location) {
    && Below(heap, root, path).Some?
    && var load := Tally(heap, root, lim.depth + 1);
       match reason
       case DepthExceeded => |path| > lim.depth
       case TypeError => !IsJson(heap, Below(heap, root, path).value)
       case NodeLimitExceeded => load.Some? ==> load.value.nodes > lim.nodes
       case BytesExceeded => load.Some? ==> load.value.bytes > lim.bytes
       case ObjectCycle => Below(heap, root, path).value.Container? && exists p :: InsideItself(heap, root, p, path)
  }

  predicate InsideItself(heap: Heap, root: Val, p: Location, path: Location) {
    ProperPrefix(p, path) && Below(heap, root, p) == Below(heap, root, path)
  }

  /** A reason to reject is a reason not to accept. */
  lemma ReasonsAreSound(heap: Heap, root: Val, lim: Limits, reason: Reason, path: Location)
    requires Explains(heap, root, lim, reason, path)
    ensures !Acceptable(heap, root, lim)
  {
    if Acceptable(heap, root, lim) {
      match reason
      case DepthExceeded => TallyBelow(heap, root, lim.depth + 1, path);
      case TypeError => TallyBelow(heap, root, lim.depth + 1, path);
      case NodeLimitExceeded =>
      case BytesExceeded =>
      case ObjectCycle =>
        var p :| InsideItself(heap, root, p, path);
        assert p + path[|p|..] == path;
        AcceptableIsAcyclic(heap, root, lim, p, path[|p|..]);
    }
  }

  lemma {:induction false} KidsWeigh(heap: Heap, kids: seq<Kid>, levels: nat)
    requires TallyAll(heap, kids, levels).Some?
    ensures TallyAll(heap, kids, levels).value.nodes >= |kids|
  {
    if kids != [] {
      KidsWeigh(heap, kids[1..], levels);
    }
  }

  /** A value weighs at least itself and its children. */
  lemma Weighs(heap: Heap, v: Val, levels: nat)
    requires Tally(heap, v, levels).Some?
    ensures Tally(heap, v, levels).value.nodes >= 1
    ensures !v.Container? ==> Tally(heap, v, levels).value.bytes == PrimitiveBytes(v)
    ensures v.Container? ==>
      v.ref in heap && Tally(heap, v, levels).value.nodes >= 1 + Size(heap[v.ref])
      && Tally(heap, v, levels).value.bytes >= KeyBytes(heap[v.ref])
  {
    if v.Container? {
      KidsWeigh(heap, Kids(heap[v.ref]), levels - 1);
    }
  }

  /** The whole weighs at least what was counted and the value about to be visited. */
  lemma WholeWeighs(heap: Heap, root: Val, lim: Limits, s: State)
    requires Balanced(heap, root, lim, s) && s.stack != [] && s.stack[|s.stack| - 1].Visit?
    requires Tally(heap, root, lim.depth + 1).Some?
    ensures var top, whole := s.stack[|s.stack| - 1], Tally(heap, root, lim.depth + 1).value;
      && whole.nodes >= s.count + 1
      && (!top.val.Container? ==> whole.bytes >= s.bytes + PrimitiveBytes(top.val))
      && (top.val.Container? ==> top.val.ref in heap && whole.nodes >= s.count + 1 + Size(heap[top.val.ref])
                                 && whole.bytes >= s.bytes + KeyBytes(heap[top.val.ref]))
  {
    var top := s.stack[|s.stack| - 1];
    Weighs(heap, top.val, Levels(lim, top.depth));
  }

  /** A container met again while it is being walked lies inside itself. */
  lemma MetAgain(heap: Heap, root: Val, lim: Limits, s: State)
    requires AllPlaced(heap, root, s.stack) && Nested(s.stack, s.active) && s.stack != []
    requires var top := s.stack[|s.stack| - 1]; top.Visit? && top.val.Container? && top.val.ref in s.active
    ensures Explains(heap, root, lim, ObjectCycle, s.stack[|s.stack| - 1].path)
  {
    var top := s.stack[|s.stack| - 1];
    var i :| 0 <= i < |s.stack| && s.stack[i] == Exit(top.val.ref, s.stack[i].path);
    assert Placed(heap, root, s.stack[i]) && Placed(heap, root, top);
    assert InsideItself(heap, root, s.stack[i].path, top.path);
  }

  /** The records of a finished walk: exactly the locations, and exactly the containment edges. */
  ghost predicate Exact(heap: Heap, root: Val, locations: map<Location, Val>, edges: Edges) {
    && (forall p :: p in locations <==> Below(heap, root, p).Some?)
    && (forall p :: p in locations ==> Below(heap, root, p) == Some(locations[p]))
    && (forall p, q :: q in Out(edges, p) <==> Holds(heap, root, p, q))
  }

  lemma ScanningAtLast(heap: Heap, root: Val, lim: Limits, s: State)
    requires Scanning(heap, root, lim, s) && s.stack == []
    ensures Acceptable(heap, root, lim) && Exact(heap, root, s.locations, s.edges)
  {
    forall p | Below(heap, root, p).Some? ensures p in s.locations {
      assert !Pending(s.stack, p);
    }
    forall p, q | Holds(heap, root, p, q) ensures p in s.locations {
      BelowAppend(heap, root, p, q[|p|..]);
      assert p + q[|p|..] == q;
    }
  }

  /** One visit of the walk: why it has to stop, if it has to. */
  method Inspect(heap: Heap, root: Val, lim: Limits, s: State, top: Frame) returns (reason: Option<Reason>)
    requires Scanning(heap, root, lim, s) && s.stack != [] && top == s.stack[|s.stack| - 1] && top.Visit?
    ensures reason.Some? ==> Explains(heap, root, lim, reason.value, top.path)
    ensures reason.None? ==> top.depth <= lim.depth && s.count < lim.nodes && !top.val.Alien?
    ensures reason.None? && !top.val.Container? ==> s.bytes + PrimitiveBytes(top.val) <= lim.bytes
    ensures reason.None? && top.val.Container? ==>
      Enterable(heap, lim, top) && top.val.ref !in s.active && s.bytes + KeyBytes(heap[top.val.ref]) <= lim.bytes
  {
    var count, bytes := s.count, s.bytes;
    assert Placed(heap, root, top);
    if Tally(heap, root, lim.depth + 1).Some? { WholeWeighs(heap, root, lim, s); }
    if top.depth > lim.depth { return Some(DepthExceeded); }
    if count + 1 > lim.nodes { return Some(NodeLimitExceeded); }
    if !top.val.Container? {
      if top.val.Alien? { return Some(TypeError); }
      if bytes + PrimitiveBytes(top.val) > lim.bytes { return Some(BytesExceeded); }
      return None;
    }
    LinkedBelow(heap, root, top.path);
    var cell := heap[top.val.ref];
    if top.val.ref in s.active {
      MetAgain(heap, root, lim, s);
      return Some(ObjectCycle);
    }
    if count + 1 + Size(cell) > lim.nodes { return Some(NodeLimitExceeded); }
    if OddKeys(cell) { return Some(TypeError); }
    if bytes + KeyBytes(cell) > lim.bytes { return Some(BytesExceeded); }
    return None;
  }

  /** Every reference found in the resource leads somewhere. */
  lemma {:induction false} LinkedBelow(heap: Heap, v: Val, p: Location)
    requires Sound(heap) && Linked(heap, v) && Below(heap, v, p).Some?
    ensures Linked(heap, Below(heap, v, p).value)
    decreases |p|
  {
    if p != [] {
      LookupFound(Kids(heap[v.ref]), p[0]);
      LinkedBelow(heap, Step(heap, v, p[0]).value, p[1..]);
    }
  }

  /** The children of a container are pushed in reverse, and its container children become edges. */
  method PushChildren(base: seq<Frame>, edges: Edges, kids: seq<Kid>, path: Location, depth: nat)
    returns (stack: seq<Frame>, later: Edges)
    ensures stack == Push(base, kids, path, depth) && later == AddEdges(edges, kids, path)
  {
    stack, later := base, edges;
    for k := |kids| downto 0
      invariant stack == Push(base, kids[k..], path, depth) && later == AddEdges(edges, kids[k..], path)
    {
      assert kids[k..][1..] == kids[k + 1..];
      var child := path + [kids[k].part];
      if kids[k].val.Container? {
        later := later[path := Out(later, path) + {child}];
      }
      stack := stack + [Visit(kids[k].val, child, depth)];
    }
    assert kids[0..] == kids;
  }

  /** The container on top of the stack is entered: it is left again after its children. */
  method EnterContainer(heap: Heap, s: State, top: Frame) returns (after: State)
    requires s.stack != [] && top.Visit? && top.val.Container? && top.val.ref in heap
    ensures after == AfterContainer(heap, s, top)
  {
    var cell := heap[top.val.ref];
    var exiting := s.stack[..|s.stack| - 1] + [Exit(top.val.ref, top.path)];
    var stack, edges := PushChildren(exiting, s.edges, Kids(cell), top.path, top.depth + 1);
    after := State(stack, s.count + 1, s.bytes + KeyBytes(cell), s.active + {top.val.ref},
                   s.locations[top.path := top.val], edges);
  }

  /**
   `_scan_json_resource`: halts on every object graph, cyclic ones included; accepts exactly the acceptable
   resources, with exactly their locations and containment edges; and rejects for a reason that holds.
   */
  method ScanJsonResource(heap: Heap, root: Val, lim: Limits) returns (outcome: Outcome)
    requires Sound(heap) && Linked(heap, root)
    ensures outcome.Scanned? <==> Acceptable(heap, root, lim)
    ensures outcome.Scanned? ==> Exact(heap, root, outcome.locations, outcome.edges)
    ensures outcome.Rejected? ==> Explains(heap, root, lim, outcome.reason, outcome.path)
  {
    var s := State([Visit(root, [], 0)], 0, 0, {}, map[], map[]);
    ScanningAtFirst(heap, root, lim);
    while s.stack != []
      invariant Scanning(heap, root, lim, s)
      decreases lim.nodes - s.count, |s.stack|
    {
      var top := s.stack[|s.stack| - 1];
      if top.Exit? {
        ScanningExits(heap, root, lim, s);
        s := AfterExit(s, top);
      } else {
        var reason := Inspect(heap, root, lim, s, top);
        if reason.Some? {
          ReasonsAreSound(heap, root, lim, reason.value, top.path);
          return Rejected(reason.value, top.path);
        }
        if top.val.Container? {
          ScanningContainer(heap, root, lim, s, top, AfterContainer(heap, s, top));
          s := EnterContainer(heap, s, top);
        } else {
          ScanningLeaf(heap, root, lim, s);
          s := AfterLeaf(s, top);
        }
      }
    }
    ScanningAtLast(heap, root, lim, s);
    return Scanned(s.locations, s.edges);
  }

  // ---------------------------------------------------------------- pointers into a scanned resource

  /** The document that an acceptable resource unfolds to. */
  function Unfold(heap: Heap, v: Val, levels: nat): Json
    decreases levels
  {
    if levels == 0 || !v.Container? || v.ref !in heap then Leaf
    else
      match heap[v.ref]
      case List(items) => Arr(seq(|items|, i requires 0 <= i < |items| => Unfold(heap, items[i], levels - 1)))
      case Dict(entries, _) =>
        Obj(map k | k in KeysOf(entries) && Step(heap, v, Key(k)).Some? :: Unfold(heap, Step(heap, v, Key(k)).value, levels - 1))
  }

  function KeysOf(entries: seq<Entry>): set<Text> { set i | 0 <= i < |entries| :: entries[i].key }

  /** The parts of a container are the parts of the document it unfolds to. */
  lemma UnfoldStep(heap: Heap, v: Val, levels: nat, part: Part)
    requires Sound(heap) && levels > 0 && v.Container? && v.ref in heap
    ensures Child(Unfold(heap, v, levels), part) ==
      match Step(heap, v, part) case None => None case Some(w) => Some(Unfold(heap, w, levels - 1))
  {
    var kids := Kids(heap[v.ref]);
    if Step(heap, v, part).Some? {
      LookupFound(kids, part);
    }
    if heap[v.ref].List? && part.Index? && part.index < |kids| {
      LookupAt(kids, part.index);
    }
  }

  lemma {:induction false} UnfoldAt(heap: Heap, v: Val, levels: nat, p: Location)
    requires Sound(heap) && Tally(heap, v, levels).Some?
    ensures At(Unfold(heap, v, levels), p).Some? <==> Below(heap, v, p).Some?
    decreases |p|
  {
    if p != [] {
      if v.Container? {
        UnfoldStep(heap, v, levels, p[0]);
        if Step(heap, v, p[0]).Some? {
          var kids := Kids(heap[v.ref]);
          LookupFound(kids, p[0]);
          var i :| 0 <= i < |kids| && kids[i] == Kid(p[0], Lookup(kids, p[0]).value);
          TallyOfKid(heap, kids, levels - 1, i);
          UnfoldAt(heap, kids[i].val, levels - 1, p[1..]);
        }
      }
    }
  }

  /** Every location the scan records can be printed as a pointer and resolved back. */
  lemma ScannedLocationsRoundTrip(heap: Heap, root: Val, lim: Limits, literal: Byte -> bool, p: Location)
    requires Sound(heap) && Acceptable(heap, root, lim) && Below(heap, root, p).Some?
    ensures Resolve(Unfold(heap, root, lim.depth + 1), Print(literal, p)) == Some(p)
  {
    UnfoldAt(heap, root, lim.depth + 1, p);
    RoundTrip(literal, Unfold(heap, root, lim.depth + 1), p);
  }
}
