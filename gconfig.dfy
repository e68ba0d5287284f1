/**
 * Loading a graph from a configuration document: the document's records, the validation done
 * after decoding, and the reconciler that turns a document plus the graph currently running into
 * the next graph, exporting to and collecting from the distributed store on the way.
 */
module GConfig {
  import opened Wrappers
  import opened Resources
  import opened PGraph
  import opened Etcd

  // ---------------------------------------------------------------------------------------------
  // The document

  datatype CollectorResConfig = CollectorResConfig(kind: string, pattern: string)

  datatype VertexConfig = VertexConfig(kind: string, name: string)

  datatype EdgeConfig = EdgeConfig(name: string, from: VertexConfig, to: VertexConfig)

  /** The resources section: one list per resource kind, in the order the fields are declared. */
  datatype ResourcesConfig = ResourcesConfig(
    noop: seq<Resource>,
    pkg: seq<Resource>,
    file: seq<Resource>,
    svc: seq<Resource>,
    exec: seq<Resource>,
    timer: seq<Resource>,
    msg: seq<Resource>)

  datatype GraphConfig = GraphConfig(
    graph: string,
    resources: ResourcesConfig,
    collector: seq<CollectorResConfig>,
    edges: seq<EdgeConfig>,
    comment: string,
    hostname: string,  // identifies this host in the store
    remote: string)

  datatype ParseError = DecodeFailed(reason: string) | InvalidGraph

  /**
   * The check that follows decoding. `decoded` is what the document decoder produced (or why it
   * failed); a document is accepted exactly when it decoded and names its graph.
   */
  function Parse(decoded: Result<GraphConfig, string>): (r: Result<GraphConfig, ParseError>)
    ensures r.Success? <==> decoded.Success? && decoded.value.graph != ""
    ensures r.Success? ==> r.value == decoded.value
    ensures decoded.Failure? ==> r == Failure(DecodeFailed(decoded.error))
    ensures decoded.Success? && decoded.value.graph == "" ==> r == Failure(InvalidGraph)
  {
    match decoded
    case Failure(reason) => Failure(DecodeFailed(reason))
    case Success(c) => if c.graph == "" then Failure(InvalidGraph) else Success(c)
  }

  // ---------------------------------------------------------------------------------------------
  // Declared resources, in the order the reconciler visits them

  /** A field of the resources section: the field's name and the resources listed in it. */
  datatype Field = Field(name: string, entries: seq<Resource>)

  function Fields(rc: ResourcesConfig): seq<Field> {
    [Field("Noop", rc.noop), Field("Pkg", rc.pkg), Field("File", rc.file), Field("Svc", rc.svc),
     Field("Exec", rc.exec), Field("Timer", rc.timer), Field("Msg", rc.msg)]
  }

  /** A declared resource together with the kind of the field it was listed in. */
  datatype Decl = Decl(kind: string, res: Resource)

  function Tagged(kind: string, rs: seq<Resource>): (ds: seq<Decl>)
    ensures |ds| == |rs|
    ensures forall i :: 0 <= i < |rs| ==> ds[i] == Decl(kind, rs[i])
  {
    seq(|rs|, i requires 0 <= i < |rs| => Decl(kind, rs[i]))
  }

  /** Every declared resource, field by field, each tagged with its field's kind. */
  function Declared(fs: seq<Field>): seq<Decl> {
    if fs == [] then []
    else Declared(fs[..|fs| - 1]) + Tagged(FirstToUpper(fs[|fs| - 1].name), fs[|fs| - 1].entries)
  }

  function DeclaredIn(c: GraphConfig): seq<Decl> {
    Declared(Fields(c.resources))
  }

  /** The declarations of a document are exactly its listed resources, each tagged with its field's own name. */
  lemma DeclaredKinds(rc: ResourcesConfig)
    ensures forall d :: d in Declared(Fields(rc)) <==>
      exists f, r :: f in Fields(rc) && r in f.entries && d == Decl(f.name, r)
  {
    DeclaredMembers(Fields(rc));
  }

  /** A declaration is exactly a resource listed in some field, tagged with that field's kind. */
  lemma {:induction false} DeclaredMembers(fs: seq<Field>)
    ensures forall d :: d in Declared(fs) <==>
      exists f, r :: f in fs && r in f.entries && d == Decl(FirstToUpper(f.name), r)
  {
    if fs != [] {
      var init, f := fs[..|fs| - 1], fs[|fs| - 1];
      DeclaredMembers(init);
      assert fs == init + [f];
      var tagged := Tagged(FirstToUpper(f.name), f.entries);
      forall d | d in Declared(fs)
        ensures exists f', r :: f' in fs && r in f'.entries && d == Decl(FirstToUpper(f'.name), r)
      {
        if d !in Declared(init) {
          var j :| 0 <= j < |tagged| && tagged[j] == d;
          assert f.entries[j] in f.entries;
        }
      }
      forall d | exists f', r :: f' in fs && r in f'.entries && d == Decl(FirstToUpper(f'.name), r)
        ensures d in Declared(fs)
      {
        var f', r :| f' in fs && r in f'.entries && d == Decl(FirstToUpper(f'.name), r);
        if f' !in init {
          var j :| 0 <= j < |f.entries| && f.entries[j] == r;
          assert tagged[j] == d;
        }
      }
    }
  }

  /** The resource a vertex is created or looked up for: the no-op flag forced on under noop. */
  function WithNoop(r: Resource, noop: bool): (r': Resource)
    ensures r'.name == r.name && r'.kind == r.kind && r'.params == r.params
    ensures r'.noop == (noop || r.noop) && r'.collectPattern == r.collectPattern
  {
    if noop then r.(noop := true) else r
  }

  /** What is published for an exported declaration: the marker cut off the name, the kind set. */
  function Export(d: Decl): (r: Resource)
    requires IsExported(d.res.name)
    ensures ExportMarker + r.name == d.res.name && r.kind == d.kind
    ensures r.noop == d.res.noop && r.params == d.res.params && r.collectPattern == d.res.collectPattern
  {
    d.res.(name := Unmarked(d.res.name), kind := d.kind)
  }

  /** The exported declarations, in declaration order, as published. */
  function ExportsOf(ds: seq<Decl>): seq<Resource> {
    if ds == [] then []
    else
      var d := ds[|ds| - 1];
      ExportsOf(ds[..|ds| - 1]) + (if IsExported(d.res.name) then [Export(d)] else [])
  }

  /** The batch written to the store for this host; nothing is exported under noop. */
  function ExportList(c: GraphConfig, noop: bool): seq<Resource> {
    if noop then [] else ExportsOf(DeclaredIn(c))
  }

  lemma {:induction false} ExportsOfMembers(ds: seq<Decl>)
    ensures forall r :: r in ExportsOf(ds) <==>
      exists d :: d in ds && IsExported(d.res.name) && r == Export(d)
  {
    if ds != [] {
      var init, d := ds[..|ds| - 1], ds[|ds| - 1];
      ExportsOfMembers(init);
      assert ds == init + [d];
      forall r | r in ExportsOf(ds)
        ensures exists d' :: d' in ds && IsExported(d'.res.name) && r == Export(d')
      {
        if r !in ExportsOf(init) {
          assert IsExported(d.res.name) && r == Export(d);
        }
      }
    }
  }

  /** The batch keeps declaration order: the exports of a joined list are those of each part, joined. */
  lemma {:induction false} ExportsOfAppend(a: seq<Decl>, b: seq<Decl>)
    ensures ExportsOf(a + b) == ExportsOf(a) + ExportsOf(b)
  {
    if b != [] {
      var init, d := b[..|b| - 1], b[|b| - 1];
      ExportsOfAppend(a, init);
      assert (a + b)[..|a + b| - 1] == a + init;
    } else {
      assert a + b == a;
    }
  }

  /** Every published resource stands for a declaration of the same kind named with the marker. */
  lemma ExportedFromMarked(c: GraphConfig, noop: bool, r: Resource)
    requires r in ExportList(c, noop)
    ensures !noop
    ensures exists d :: d in DeclaredIn(c) && d.kind == r.kind && d.res.name == ExportMarker + r.name
  {
    ExportsOfMembers(DeclaredIn(c));
    var d :| d in DeclaredIn(c) && IsExported(d.res.name) && r == Export(d);
  }

  /** Every marked declaration is published, unless noop. */
  lemma MarkedIsExported(c: GraphConfig, noop: bool, d: Decl)
    requires d in DeclaredIn(c) && IsExported(d.res.name) && !noop
    ensures Export(d) in ExportList(c, noop)
  {
    ExportsOfMembers(DeclaredIn(c));
  }

  // ---------------------------------------------------------------------------------------------
  // The lookup table and its shape

  /** kind -> name -> vertex, used to resolve edges. */
  type Lookup = map<string, map<string, Vertex>>

  /** Which kinds and names a lookup table resolves, without the vertices. */
  type Shape = map<string, set<string>>

  /** The names recorded under a kind, none when the kind has no entry yet. */
  function Entry(lookup: Lookup, k: string): map<string, Vertex> {
    if k in lookup then lookup[k] else map[]
  }

  ghost function ShapeOf(lookup: Lookup): Shape {
    map k | k in lookup :: lookup[k].Keys
  }

  ghost function NamesAt(s: Shape, k: string): set<string> {
    if k in s then s[k] else {}
  }

  ghost function Merge(a: Shape, b: Shape): Shape {
    map k | k in a.Keys + b.Keys :: NamesAt(a, k) + NamesAt(b, k)
  }

  /** A kind gets a lookup entry for every declaration of it, exported or not. */
  ghost function Kinds(ds: seq<Decl>): set<string> {
    set d | d in ds :: d.kind
  }

  /** Only declarations without the marker get a name in the lookup table. */
  ghost function LocalNames(ds: seq<Decl>, k: string): set<string> {
    set d | d in ds && d.kind == k && !IsExported(d.res.name) :: d.res.name
  }

  ghost function DeclaredShape(ds: seq<Decl>): Shape {
    map k | k in Kinds(ds) :: LocalNames(ds, k)
  }

  /** The kinds the collector rules ask for. */
  ghost function RuleKinds(rules: seq<CollectorResConfig>): set<string> {
    set t | t in rules :: FirstToUpper(t.kind)
  }

  /** The resources of a list that some collector rule takes. */
  ghost function Collectable(rs: seq<Resource>, rules: seq<CollectorResConfig>): set<Resource> {
    set r | r in rs && r.kind in RuleKinds(rules)
  }

  /** What the store holds, across all hosts, of a kind some collector rule asks for. */
  ghost function Stored(data: map<string, seq<Resource>>, rules: seq<CollectorResConfig>): set<Resource> {
    set h, r | h in data && r in data[h] && r.kind in RuleKinds(rules) :: r
  }

  ghost function KindsOf(rs: set<Resource>): set<string> {
    set r | r in rs :: r.kind
  }

  ghost function NamesOf(rs: set<Resource>, k: string): set<string> {
    set r | r in rs && r.kind == k :: r.name
  }

  ghost function SetShape(rs: set<Resource>): Shape {
    map k | k in KindsOf(rs) :: NamesOf(rs, k)
  }

  /**
   * The kinds and names a pass resolves edges against, given the store after this host's export:
   * the local declarations plus every stored resource of a collected kind.
   */
  ghost function ExpectedShape(c: GraphConfig, data: map<string, seq<Resource>>): Shape {
    Merge(DeclaredShape(DeclaredIn(c)), SetShape(Stored(data, c.collector)))
  }

  // ---------------------------------------------------------------------------------------------
  // Edge resolution

  datatype EdgeError = NoFromKind | NoToKind | NoFromName | NoToName

  /** The checks made for one edge, in the order they are made; None when the edge resolves. */
  function CheckEdge(s: Shape, e: EdgeConfig): Option<EdgeError> {
    var fk, tk := FirstToUpper(e.from.kind), FirstToUpper(e.to.kind);
    if fk !in s then Some(NoFromKind)
    else if tk !in s then Some(NoToKind)
    else if e.from.name !in s[fk] then Some(NoFromName)
    else if e.to.name !in s[tk] then Some(NoToName)
    else None
  }

  /** The outcome of resolving a list of edges in order: the first failing check, if any. */
  function FirstEdgeError(s: Shape, es: seq<EdgeConfig>): Option<EdgeError> {
    if es == [] then None
    else
      var before := FirstEdgeError(s, es[..|es| - 1]);
      if before.Some? then before else CheckEdge(s, es[|es| - 1])
  }

  /** The outcome is None exactly when every edge resolves. */
  lemma {:induction false} FirstEdgeErrorNone(s: Shape, es: seq<EdgeConfig>)
    ensures FirstEdgeError(s, es) == None <==> forall i :: 0 <= i < |es| ==> CheckEdge(s, es[i]) == None
  {
    if es != [] {
      var init := es[..|es| - 1];
      FirstEdgeErrorNone(s, init);
      assert forall i :: 0 <= i < |init| ==> init[i] == es[i];
    }
  }

  /** A failed outcome is the error of the first edge that does not resolve. */
  lemma {:induction false} FirstEdgeErrorIsFirst(s: Shape, es: seq<EdgeConfig>) returns (k: nat)
    requires FirstEdgeError(s, es) != None
    ensures k < |es| && CheckEdge(s, es[k]) == FirstEdgeError(s, es)
    ensures forall i :: 0 <= i < k ==> CheckEdge(s, es[i]) == None
  {
    var init := es[..|es| - 1];
    assert forall i :: 0 <= i < |init| ==> init[i] == es[i];
    if FirstEdgeError(s, init) != None {
      k := FirstEdgeErrorIsFirst(s, init);
    } else {
      FirstEdgeErrorNone(s, init);
      k := |es| - 1;
    }
  }

  /** Once an edge has failed, the edges after it do not change the outcome. */
  lemma {:induction false} FirstEdgeErrorSticks(s: Shape, es: seq<EdgeConfig>, n: nat)
    requires n <= |es| && FirstEdgeError(s, es[..n]) != None
    ensures FirstEdgeError(s, es) == FirstEdgeError(s, es[..n])
  {
    if n < |es| {
      assert es[..|es| - 1][..n] == es[..n];
      FirstEdgeErrorSticks(s, es[..|es| - 1], n);
    } else {
      assert es[..n] == es;
    }
  }

  /** Every kind of a is a kind of b, with at least the names a has for it. */
  ghost predicate Within(a: Shape, b: Shape) {
    forall k :: k in a ==> k in b && a[k] <= b[k]
  }

  /** Edges that all resolve against a shape still all resolve against any shape it is within. */
  lemma FirstEdgeErrorWithin(a: Shape, b: Shape, es: seq<EdgeConfig>)
    requires Within(a, b) && FirstEdgeError(a, es) == None
    ensures FirstEdgeError(b, es) == None
  {
    FirstEdgeErrorNone(a, es);
    FirstEdgeErrorNone(b, es);
  }

  /** Collected resources only add kinds and names: edges between local declarations keep resolving. */
  lemma LocalEdgesResolve(c: GraphConfig, data: map<string, seq<Resource>>)
    requires FirstEdgeError(DeclaredShape(DeclaredIn(c)), c.edges) == None
    ensures FirstEdgeError(ExpectedShape(c, data), c.edges) == None
  {
    FirstEdgeErrorWithin(DeclaredShape(DeclaredIn(c)), ExpectedShape(c, data), c.edges);
  }

  /** The edge an edge declaration stands for, when both end points are in the lookup table. */
  function Resolve(lookup: Lookup, e: EdgeConfig): (r: Option<Edge>)
    ensures r.Some? <==> CheckEdge(ShapeOf(lookup), e) == None
    ensures r.Some? ==>
      && r.value.name == e.name
      && r.value.from == lookup[FirstToUpper(e.from.kind)][e.from.name]
      && r.value.to == lookup[FirstToUpper(e.to.kind)][e.to.name]
  {
    var fk, tk := FirstToUpper(e.from.kind), FirstToUpper(e.to.kind);
    if fk in lookup && tk in lookup && e.from.name in lookup[fk] && e.to.name in lookup[tk] then
      Some(Edge(lookup[fk][e.from.name], lookup[tk][e.to.name], e.name))
    else None
  }

  ghost function ResolvedEdges(lookup: Lookup, es: seq<EdgeConfig>): set<Edge> {
    set e | e in es && Resolve(lookup, e).Some? :: Resolve(lookup, e).value
  }

  // ---------------------------------------------------------------------------------------------
  // What a pass does besides changing the graph and the store

  datatype Event =
    | Initialized(v: Vertex)       // the resource was initialised and wrapped in the new vertex v
    | Queried(kinds: seq<string>)  // the one read of the store for collected kinds
    | ExitSent(v: Vertex)          // v was told to exit and the exit was waited for
    | Deleted(v: Vertex)           // v was removed from the graph

  ghost predicate Distinct<T>(s: seq<T>) {
    forall i, j :: 0 <= i < j < |s| ==> s[i] != s[j]
  }

  /** A vertex is only ever deleted right after it was told to exit. */
  ghost predicate ExitBeforeDelete(t: seq<Event>) {
    forall i :: 0 <= i < |t| && t[i].Deleted? ==> 0 < i && t[i - 1] == ExitSent(t[i].v)
  }

  /** The events of pruning the given vertices, one after another. */
  function PruneLog(removed: seq<Vertex>): seq<Event> {
    if removed == [] then []
    else PruneLog(removed[..|removed| - 1]) + [ExitSent(removed[|removed| - 1]), Deleted(removed[|removed| - 1])]
  }

  /** Pruning distinct vertices tells each exactly one to exit, and deletes it right after. */
  lemma {:induction false} PruneLogFacts(removed: seq<Vertex>)
    requires Distinct(removed)
    ensures |PruneLog(removed)| == 2 * |removed|
    ensures Distinct(PruneLog(removed))
    ensures ExitBeforeDelete(PruneLog(removed))
    ensures forall ev :: ev in PruneLog(removed) ==> (ev.ExitSent? || ev.Deleted?) && ev.v in removed
    ensures forall v :: v in removed ==> ExitSent(v) in PruneLog(removed) && Deleted(v) in PruneLog(removed)
  {
    if removed != [] {
      var init, v := removed[..|removed| - 1], removed[|removed| - 1];
      assert forall i :: 0 <= i < |init| ==> init[i] == removed[i];
      PruneLogFacts(init);
      var t := PruneLog(removed);
      assert t == PruneLog(init) + [ExitSent(v), Deleted(v)];
      assert v !in init;
      forall i, j | 0 <= i < j < |t| ensures t[i] != t[j] {
        if j >= |PruneLog(init)| && i < |PruneLog(init)| {
          assert t[i] in PruneLog(init);
        }
      }
    }
  }

  lemma DistinctConcat<T>(a: seq<T>, b: seq<T>)
    requires Distinct(a) && Distinct(b)
    requires forall x :: x in a ==> x !in b
    ensures Distinct(a + b)
  {
    forall i, j | 0 <= i < j < |a + b| ensures (a + b)[i] != (a + b)[j] {
      if i < |a| && j >= |a| {
        assert (a + b)[i] in a && (a + b)[j] in b;
      }
    }
  }

  lemma ExitBeforeDeleteConcat(a: seq<Event>, b: seq<Event>)
    requires forall ev :: ev in a ==> !ev.Deleted?
    requires ExitBeforeDelete(b)
    ensures ExitBeforeDelete(a + b)
  {
    forall i | 0 <= i < |a + b| && (a + b)[i].Deleted?
      ensures 0 < i && (a + b)[i - 1] == ExitSent((a + b)[i].v)
    {
      if i >= |a| {
        assert b[i - |a|] == (a + b)[i];
      }
    }
  }

  // ---------------------------------------------------------------------------------------------
  // Building the lookup table, step by step

  /** The kind -> name table records every vertex it maps to in the keep list. */
  ghost predicate LookupKept(lookup: Lookup, keep: seq<Vertex>) {
    forall k, n :: k in lookup && n in lookup[k] ==> lookup[k][n] in keep
  }

  /**
   * The declarations of one more field follow those of the fields before it. This only unfolds
   * Declared; the field order it rests on is the one Fields fixes.
   */
  lemma DeclaredStep(fs: seq<Field>, i: nat)
    requires i < |fs|
    ensures Declared(fs[..i + 1]) == Declared(fs[..i]) + Tagged(FirstToUpper(fs[i].name), fs[i].entries)
  {
    assert fs[..i + 1][..i] == fs[..i];
  }

  lemma TaggedStep(kind: string, rs: seq<Resource>, j: nat)
    requires j < |rs|
    ensures Tagged(kind, rs[..j + 1]) == Tagged(kind, rs[..j]) + [Decl(kind, rs[j])]
  {
  }

  /** The declarations handled so far, one more entry of a field into the walk. */
  lemma DoneStep(done: seq<Decl>, kind: string, slice: seq<Resource>, j: nat)
    requires j < |slice|
    ensures done + Tagged(kind, slice[..j + 1]) == (done + Tagged(kind, slice[..j])) + [Decl(kind, slice[j])]
  {
    TaggedStep(kind, slice, j);
  }

  lemma DeclaredShapeOf(lookup: Lookup, ds: seq<Decl>)
    requires lookup.Keys == Kinds(ds)
    requires forall k :: k in lookup ==> lookup[k].Keys == LocalNames(ds, k)
    ensures ShapeOf(lookup) == DeclaredShape(ds)
  {
  }

  /** Before the first declaration nothing is recorded and nothing was added. */
  lemma ClassifiedStart(vs: set<Vertex>, noop: bool, matches: MatchFn)
    ensures ClassifiedOn(vs, vs, [], noop, map[], [], [], [])
    ensures DeclReuse(vs, vs, map[], [], noop, matches)
  {
  }

  /** After the last declaration the lookup has the declared shape. */
  lemma ClassifiedShape(vs: set<Vertex>, before: set<Vertex>, ds: seq<Decl>, noop: bool,
                        lookup: Lookup, keep: seq<Vertex>, exports: seq<Resource>, inits: seq<Event>)
    requires ClassifiedOn(vs, before, ds, noop, lookup, keep, exports, inits)
    ensures ShapeOf(lookup) == DeclaredShape(ds)
  {
    DeclaredShapeOf(lookup, ds);
  }

  /**
   * The vertex for one resource: an existing vertex whose resource matches is reused as it is;
   * only when there is none is the resource initialised and a new vertex added.
   */
  method VertexFor(graph: Graph, res: Resource, matches: MatchFn) returns (v: Vertex, created: bool)
    requires graph.Valid()
    modifies graph
    ensures graph.Valid() && graph.name == old(graph.name) && graph.edges == old(graph.edges)
    ensures created <==> forall w :: w in old(graph.vertices) ==> !matches(w.res, res)
    ensures created ==> fresh(v) && v.res == res && graph.vertices == old(graph.vertices) + {v}
    ensures !created ==> v in old(graph.vertices) && matches(v.res, res) && graph.vertices == old(graph.vertices)
  {
    var m := graph.GetVertexMatch(res, matches);
    if m == null {
      v := new Vertex(res);
      graph.AddVertex(v);
      created := true;
    } else {
      v, created := m, false;
    }
  }

  /**
   * The bookkeeping shared by the walk over declared resources and by collection: the lookup
   * table only points at kept vertices, kept vertices are in the graph, and every vertex added
   * since `before` is kept and was initialised exactly once.
   */
  ghost predicate Tracked(vs: set<Vertex>, before: set<Vertex>, lookup: Lookup, keep: seq<Vertex>, inits: seq<Event>) {
    && before <= vs
    && LookupKept(lookup, keep)
    && (forall v :: v in keep ==> v in vs)
    && (forall v :: v in vs && v !in before ==> v in keep && Initialized(v) in inits)
    && (forall ev :: ev in inits ==> ev.Initialized? && ev.v in vs && ev.v !in before)
    && Distinct(inits)
  }

  /** Recording the vertex found or created for a resource keeps the bookkeeping consistent. */
  lemma KeepStep(vs: set<Vertex>, vs': set<Vertex>, before: set<Vertex>, lookup: Lookup, keep: seq<Vertex>,
                 inits: seq<Event>, kind: string, name: string, v: Vertex, created: bool)
    requires Tracked(vs, before, lookup, keep, inits)
    requires created ==> v !in vs && vs' == vs + {v}
    requires !created ==> v in vs && vs' == vs
    requires kind in lookup
    ensures Tracked(vs', before, lookup[kind := lookup[kind][name := v]], keep + [v],
                    if created then inits + [Initialized(v)] else inits)
  {
    var inits' := if created then inits + [Initialized(v)] else inits;
    if created {
      forall i, j | 0 <= i < j < |inits'| ensures inits'[i] != inits'[j] {
        if j == |inits| {
          assert inits'[i] in inits;
        }
      }
    }
  }

  /** Some vertex of vs wraps a resource that matches res. */
  ghost predicate HasMatch(vs: set<Vertex>, res: Resource, matches: MatchFn) {
    exists w :: w in vs && matches(w.res, res)
  }

  /**
   * What recording the vertex v for res did, going from the vertex set vs to vs': v was appended
   * to keep; it is an existing vertex matching res when there is one, and otherwise a new vertex
   * made for res, added to the graph and initialised.
   */
  ghost predicate Recorded(vs: set<Vertex>, vs': set<Vertex>, res: Resource, matches: MatchFn, v: Vertex,
                           keep: seq<Vertex>, keep': seq<Vertex>, inits: seq<Event>, inits': seq<Event>) {
    && keep' == keep + [v]
    && (HasMatch(vs, res, matches) ==> v in vs && matches(v.res, res) && vs' == vs && inits' == inits)
    && (!HasMatch(vs, res, matches) ==>
          v !in vs && v.res == res && vs' == vs + {v} && inits' == inits + [Initialized(v)])
  }

  /**
   * Each vertex the trace initialises wraps a resource that no vertex initialised before it
   * matches: a new vertex is made only when no vertex made earlier in the pass will do.
   */
  ghost predicate NoneReinitialized(t: seq<Event>, matches: MatchFn) {
    forall i, j {:trigger Apart(t[i], t[j], matches)} :: 0 <= i < j < |t| ==> Apart(t[i], t[j], matches)
  }

  /** When both events initialise a vertex, the later vertex's resource does not match the earlier one's. */
  ghost predicate Apart(a: Event, b: Event, matches: MatchFn) {
    a.Initialized? && b.Initialized? ==> !matches(a.v.res, b.v.res)
  }

  /** Under a comparison that matches every resource with itself, no two initialised vertices wrap the same resource. */
  lemma NoDuplicateInits(t: seq<Event>, matches: MatchFn, i: nat, j: nat)
    requires NoneReinitialized(t, matches) && forall r :: matches(r, r)
    requires i < j < |t| && t[i].Initialized? && t[j].Initialized?
    ensures t[i].v.res != t[j].v.res
  {
    assert Apart(t[i], t[j], matches);
  }

  /** A vertex is created only when no vertex of the graph matches, so none initialised earlier does. */
  lemma NoneReinitializedStep(vs: set<Vertex>, vs': set<Vertex>, res: Resource, matches: MatchFn, v: Vertex,
                              keep: seq<Vertex>, keep': seq<Vertex>, inits: seq<Event>, inits': seq<Event>)
    requires Recorded(vs, vs', res, matches, v, keep, keep', inits, inits')
    requires forall ev :: ev in inits ==> ev.Initialized? && ev.v in vs
    requires NoneReinitialized(inits, matches)
    ensures NoneReinitialized(inits', matches)
  {
    if !HasMatch(vs, res, matches) {
      forall i, j | 0 <= i < j < |inits'| ensures Apart(inits'[i], inits'[j], matches) {
        IndexLeft(inits, [Initialized(v)], i);
        if j < |inits| {
          IndexLeft(inits, [Initialized(v)], j);
        } else {
          assert inits[i] in inits;
        }
      }
    }
  }

  /**
   * Finding or creating the vertex for one resource and recording it under its kind and name and
   * in keep; the same code serves declared and collected resources.
   */
  method Record(graph: Graph, kind: string, res: Resource, matches: MatchFn,
                lookup: Lookup, keep: seq<Vertex>, inits: seq<Event>)
    returns (v: Vertex, created: bool, lookup': Lookup, keep': seq<Vertex>, inits': seq<Event>)
    requires graph.Valid() && kind in lookup
    modifies graph
    ensures graph.Valid() && graph.name == old(graph.name) && graph.edges == old(graph.edges)
    ensures created <==> !HasMatch(old(graph.vertices), res, matches)
    ensures created ==> fresh(v)
    ensures old(graph.vertices) <= graph.vertices
    ensures forall w :: w in graph.vertices && w !in old(graph.vertices) ==> fresh(w)
    ensures Recorded(old(graph.vertices), graph.vertices, res, matches, v, keep, keep', inits, inits')
    ensures lookup' == lookup[kind := lookup[kind][res.name := v]]
    ensures inits' == if created then inits + [Initialized(v)] else inits
  {
    v, created := VertexFor(graph, res, matches);
    lookup' := lookup[kind := lookup[kind][res.name := v]];
    keep' := keep + [v];
    inits' := if created then inits + [Initialized(v)] else inits;
  }

  /** v is the vertex for r: made for it, or an existing vertex that matches it. */
  ghost predicate Stands(v: Vertex, r: Resource, matches: MatchFn) {
    v.res == r || matches(v.res, r)
  }

  /** A non-empty suffix b splits into its init and its last element. */
  lemma SplitLast<T>(a: seq<T>, b: seq<T>)
    requires b != []
    ensures b == b[..|b| - 1] + [b[|b| - 1]]
    ensures a + b == (a + b[..|b| - 1]) + [b[|b| - 1]]
  {
    assert b == b[..|b| - 1] + [b[|b| - 1]];
  }

  lemma AppendAssoc<T>(a: seq<T>, b: seq<T>, c: seq<T>)
    ensures (a + b) + c == a + (b + c)
  {
  }

  /** Place by place, each vertex of vs stands for the resource at the same place in rs. */
  ghost predicate Aligned(vs: seq<Vertex>, rs: seq<Resource>, matches: MatchFn) {
    && |vs| == |rs|
    && (vs != [] ==>
          Aligned(vs[..|vs| - 1], rs[..|rs| - 1], matches) && Stands(vs[|vs| - 1], rs[|rs| - 1], matches))
  }

  lemma {:induction false} AlignedAt(vs: seq<Vertex>, rs: seq<Resource>, matches: MatchFn, m: nat)
    requires Aligned(vs, rs, matches) && m < |vs|
    ensures m < |rs| && Stands(vs[m], rs[m], matches)
    decreases |vs|
  {
    if m < |vs| - 1 {
      AlignedAt(vs[..|vs| - 1], rs[..|rs| - 1], matches, m);
    }
  }

  /** Recording one more vertex for one more resource keeps keep aligned with what it stands for. */
  lemma AlignedSnoc(keep: seq<Vertex>, rs: seq<Resource>, v: Vertex, r: Resource, matches: MatchFn)
    requires Aligned(keep, rs, matches) && Stands(v, r, matches)
    ensures Aligned(keep + [v], rs + [r], matches)
  {
    assert (keep + [v])[..|keep|] == keep && (rs + [r])[..|rs|] == rs;
  }

  lemma {:induction false} AlignedAppend(a: seq<Vertex>, ra: seq<Resource>, b: seq<Vertex>, rb: seq<Resource>,
                                         matches: MatchFn)
    requires Aligned(a, ra, matches) && Aligned(b, rb, matches)
    ensures Aligned(a + b, ra + rb, matches)
    decreases |b|
  {
    if b == [] {
      assert a + b == a && ra + rb == ra;
    } else {
      var b', rb' := b[..|b| - 1], rb[..|rb| - 1];
      AlignedAppend(a, ra, b', rb', matches);
      AlignedSnoc(a + b', ra + rb', b[|b| - 1], rb[|rb| - 1], matches);
      SplitLast(a, b);
      SplitLast(ra, rb);
    }
  }

  /** The vertex recorded for res stands for it. */
  lemma RecordedStands(vs: set<Vertex>, vs': set<Vertex>, res: Resource, matches: MatchFn, v: Vertex,
                       keep: seq<Vertex>, keep': seq<Vertex>, inits: seq<Event>, inits': seq<Event>)
    requires Recorded(vs, vs', res, matches, v, keep, keep', inits, inits')
    ensures Stands(v, res, matches) && keep' == keep + [v]
  {
  }

  /** No vertex added since `before` matches a vertex that was already there. */
  ghost predicate NoneRecreated(vs: set<Vertex>, before: set<Vertex>, matches: MatchFn) {
    forall v, w :: v in vs && v !in before && w in before ==> !matches(w.res, v.res)
  }

  /** v stands for an unmarked declaration of kind k named n. */
  ghost predicate DeclaredTarget(v: Vertex, k: string, n: string, ds: seq<Decl>, noop: bool, matches: MatchFn) {
    exists d :: d in ds && d.kind == k && d.res.name == n && !IsExported(d.res.name) && Stands(v, WithNoop(d.res, noop), matches)
  }

  /**
   * The vertices the walk over the declared resources settled on: every lookup entry stands for a
   * declaration of its kind and name, and no added vertex matches one that was there before.
   */
  ghost predicate DeclReuse(vs: set<Vertex>, before: set<Vertex>, lookup: Lookup, ds: seq<Decl>, noop: bool,
                            matches: MatchFn) {
    && NoneRecreated(vs, before, matches)
    && forall k, n :: k in lookup && n in lookup[k] ==> DeclaredTarget(lookup[k][n], k, n, ds, noop, matches)
  }

  /** Recording the vertex for an unmarked declaration keeps DeclReuse. */
  lemma DeclReuseStep(vs: set<Vertex>, vs': set<Vertex>, before: set<Vertex>, lookup: Lookup, lk: Lookup,
                      ds: seq<Decl>, d: Decl, noop: bool, matches: MatchFn, v: Vertex, created: bool)
    requires DeclReuse(vs, before, lookup, ds, noop, matches) && before <= vs
    requires lk == if d.kind in lookup then lookup else lookup[d.kind := map[]]
    requires !IsExported(d.res.name)
    requires created ==> vs' == vs + {v} && v.res == WithNoop(d.res, noop) && !HasMatch(vs, WithNoop(d.res, noop), matches)
    requires !created ==> vs' == vs && matches(v.res, WithNoop(d.res, noop))
    ensures DeclReuse(vs', before, lk[d.kind := lk[d.kind][WithNoop(d.res, noop).name := v]], ds + [d], noop, matches)
  {
    var r := WithNoop(d.res, noop);
    var lookup' := lk[d.kind := lk[d.kind][r.name := v]];
    forall k, n | k in lookup' && n in lookup'[k] ensures DeclaredTarget(lookup'[k][n], k, n, ds + [d], noop, matches) {
      if k == d.kind && n == r.name {
        assert d in ds + [d] && Stands(v, r, matches);
      } else {
        assert k in lookup && n in lookup[k] && lookup'[k][n] == lookup[k][n];
        var d' :| d' in ds && d'.kind == k && d'.res.name == n && !IsExported(d'.res.name)
          && Stands(lookup[k][n], WithNoop(d'.res, noop), matches);
        assert d' in ds + [d];
      }
    }
    forall u, w | u in vs' && u !in before && w in before ensures !matches(w.res, u.res) {
      if created && u == v {
        assert w in vs;
      }
    }
  }

  /** A marked declaration adds at most an empty entry, which keeps DeclReuse. */
  lemma DeclReuseMarked(vs: set<Vertex>, before: set<Vertex>, lookup: Lookup, lk: Lookup,
                        ds: seq<Decl>, d: Decl, noop: bool, matches: MatchFn)
    requires DeclReuse(vs, before, lookup, ds, noop, matches)
    requires lk == if d.kind in lookup then lookup else lookup[d.kind := map[]]
    ensures DeclReuse(vs, before, lk, ds + [d], noop, matches)
  {
    forall k, n | k in lk && n in lk[k] ensures DeclaredTarget(lk[k][n], k, n, ds + [d], noop, matches) {
      var d' :| d' in ds && d'.kind == k && d'.res.name == n && !IsExported(d'.res.name)
        && Stands(lookup[k][n], WithNoop(d'.res, noop), matches);
      assert d' in ds + [d];
    }
  }

  /**
   * What the walk over the declared resources has established once it has visited `done`:
   * the lookup table has an entry for every kind visited and a name for every unmarked resource,
   * and the export batch holds the marked ones.
   */
  ghost predicate Shaped(done: seq<Decl>, noop: bool, lookup: Lookup, exports: seq<Resource>) {
    && lookup.Keys == Kinds(done)
    && (forall k :: k in lookup ==> lookup[k].Keys == LocalNames(done, k))
    && exports == (if noop then [] else ExportsOf(done))
  }

  /** ... and every vertex it added wraps an unmarked declaration. */
  ghost predicate ClassifiedOn(vs: set<Vertex>, before: set<Vertex>, done: seq<Decl>, noop: bool,
                               lookup: Lookup, keep: seq<Vertex>, exports: seq<Resource>, inits: seq<Event>)
  {
    && Shaped(done, noop, lookup, exports)
    && Tracked(vs, before, lookup, keep, inits)
    && (forall v :: v in vs && v !in before ==> FromDeclaration(v.res, done, noop))
  }

  /** ... and the vertices it settled on are the ones DeclReuse describes. */
  ghost predicate Classified(graph: Graph, before: set<Vertex>, done: seq<Decl>, noop: bool, matches: MatchFn,
                             lookup: Lookup, keep: seq<Vertex>, exports: seq<Resource>, inits: seq<Event>)
    reads graph
  {
    && graph.Valid()
    && ClassifiedOn(graph.vertices, before, done, noop, lookup, keep, exports, inits)
    && DeclReuse(graph.vertices, before, lookup, done, noop, matches)
    && NoneReinitialized(inits, matches)
  }

  /** What a declaration hands to the graph: nothing when it is marked, else its resource under the no-op override. */
  ghost function Local(d: Decl, noop: bool): seq<Resource> {
    if IsExported(d.res.name) then [] else [WithNoop(d.res, noop)]
  }

  /** What the declarations of ds hand to the graph, in their order: one resource per unmarked declaration. */
  ghost function Locals(ds: seq<Decl>, noop: bool): seq<Resource> {
    if ds == [] then [] else Locals(ds[..|ds| - 1], noop) + Local(ds[|ds| - 1], noop)
  }

  lemma LocalsStep(ds: seq<Decl>, d: Decl, noop: bool)
    ensures Locals(ds + [d], noop) == Locals(ds, noop) + Local(d, noop)
  {
    assert (ds + [d])[..|ds|] == ds;
  }

  lemma {:induction false} LocalsAppend(a: seq<Decl>, b: seq<Decl>, noop: bool)
    ensures Locals(a + b, noop) == Locals(a, noop) + Locals(b, noop)
    decreases |b|
  {
    if b == [] {
      assert a + b == a;
    } else {
      var b', d := b[..|b| - 1], b[|b| - 1];
      LocalsAppend(a, b', noop);
      SplitLast(a, b);
      LocalsStep(a + b', d, noop);
      LocalsStep(b', d, noop);
      AppendAssoc(Locals(a, noop), Locals(b', noop), Local(d, noop));
    }
  }

  /** One more declaration of a field: keep grows by what it hands to the graph. */
  lemma FieldKeep(kind: string, slice: seq<Resource>, j: nat, noop: bool, matches: MatchFn,
                  keep: seq<Vertex>, added: seq<Vertex>, one: seq<Vertex>)
    requires j < |slice|
    requires Aligned(added, Locals(Tagged(kind, slice[..j]), noop), matches)
    requires Aligned(one, Local(Decl(kind, slice[j]), noop), matches)
    ensures Aligned(added + one, Locals(Tagged(kind, slice[..j + 1]), noop), matches)
    ensures (keep + added) + one == keep + (added + one)
  {
    TaggedStep(kind, slice, j);
    LocalsStep(Tagged(kind, slice[..j]), Decl(kind, slice[j]), noop);
    AlignedAppend(added, Locals(Tagged(kind, slice[..j]), noop), one, Local(Decl(kind, slice[j]), noop), matches);
    AppendAssoc(keep, added, one);
  }

  /** One more field: keep grows by what the field's declarations hand to the graph. */
  lemma DeclaredKeep(fs: seq<Field>, i: nat, noop: bool, matches: MatchFn, keep: seq<Vertex>, added: seq<Vertex>)
    requires i < |fs|
    requires Aligned(keep, Locals(Declared(fs[..i]), noop), matches)
    requires Aligned(added, Locals(Tagged(FirstToUpper(fs[i].name), fs[i].entries), noop), matches)
    ensures Aligned(keep + added, Locals(Declared(fs[..i + 1]), noop), matches)
  {
    var tagged := Tagged(FirstToUpper(fs[i].name), fs[i].entries);
    DeclaredStep(fs, i);
    LocalsAppend(Declared(fs[..i]), tagged, noop);
    AlignedAppend(keep, Locals(Declared(fs[..i]), noop), added, Locals(tagged, noop), matches);
  }

  /** Locals holds exactly the unmarked declarations' resources, under the no-op override. */
  lemma {:induction false} LocalsMembers(ds: seq<Decl>, noop: bool, x: Resource)
    ensures x in Locals(ds, noop) <==> exists d :: d in ds && !IsExported(d.res.name) && x == WithNoop(d.res, noop)
  {
    if ds != [] {
      var init, d := ds[..|ds| - 1], ds[|ds| - 1];
      LocalsMembers(init, noop, x);
      assert ds == init + [d];
      if x in Locals(ds, noop) && x !in Locals(init, noop) {
        assert x in Local(d, noop);
      }
      if exists d' :: d' in ds && !IsExported(d'.res.name) && x == WithNoop(d'.res, noop) {
        var d' :| d' in ds && !IsExported(d'.res.name) && x == WithNoop(d'.res, noop);
        if d' !in init {
          assert d' == d && Local(d, noop) == [x];
        }
      }
    }
  }

  /**
   * Recording the vertex v for an unmarked declaration d updates only d's kind and name in the
   * table, and the one vertex it appends to keep stands for what d hands to the graph.
   */
  lemma LocalKeep(vs: set<Vertex>, vs': set<Vertex>, lookup: Lookup, lk: Lookup, lookup': Lookup,
                  d: Decl, noop: bool, matches: MatchFn, v: Vertex,
                  keep: seq<Vertex>, keep': seq<Vertex>, inits: seq<Event>, inits': seq<Event>)
    requires lk == if d.kind in lookup then lookup else lookup[d.kind := map[]]
    requires lookup' == lk[d.kind := lk[d.kind][d.res.name := v]]
    requires !IsExported(d.res.name)
    requires Recorded(vs, vs', WithNoop(d.res, noop), matches, v, keep, keep', inits, inits')
    ensures lookup' == lookup[d.kind := Entry(lookup, d.kind)[d.res.name := v]]
    ensures keep' == keep + [v] && Aligned([v], Local(d, noop), matches)
  {
    EntryUpdate(lookup, lk, d.kind, d.res.name, v);
    RecordedStands(vs, vs', WithNoop(d.res, noop), matches, v, keep, keep', inits, inits');
    AlignedSnoc([], [], v, WithNoop(d.res, noop), matches);
  }

  /** The step for an unmarked declaration: its vertex is recorded under its kind and name. */
  lemma LocalStep(vs: set<Vertex>, vs': set<Vertex>, before: set<Vertex>, done: seq<Decl>, d: Decl, noop: bool,
                  lookup: Lookup, lk: Lookup, keep: seq<Vertex>, exports: seq<Resource>, inits: seq<Event>,
                  v: Vertex, created: bool)
    requires ClassifiedOn(vs, before, done, noop, lookup, keep, exports, inits)
    requires lk == if d.kind in lookup then lookup else lookup[d.kind := map[]]
    requires !IsExported(d.res.name)
    requires created ==> v !in vs && vs' == vs + {v} && v.res == WithNoop(d.res, noop)
    requires !created ==> v in vs && vs' == vs
    ensures ClassifiedOn(vs', before, done + [d], noop, lk[d.kind := lk[d.kind][WithNoop(d.res, noop).name := v]],
                         keep + [v], exports, if created then inits + [Initialized(v)] else inits)
  {
    EntryUpdate(lookup, lk, d.kind, d.res.name, v);
    LocalStepOn(vs, vs', before, done, d, noop, lookup, keep, exports, inits, v, created);
  }

  /**
   * The proof of LocalStep, with the kind's entry written as Entry(lookup, kind) rather than as
   * the table the walk holds after inserting an empty entry; LocalStep only converts between the two.
   */
  lemma LocalStepOn(vs: set<Vertex>, vs': set<Vertex>, before: set<Vertex>, done: seq<Decl>, d: Decl, noop: bool,
                    lookup: Lookup, keep: seq<Vertex>, exports: seq<Resource>, inits: seq<Event>,
                    v: Vertex, created: bool)
    requires ClassifiedOn(vs, before, done, noop, lookup, keep, exports, inits)
    requires !IsExported(d.res.name)
    requires created ==> v !in vs && vs' == vs + {v} && v.res == WithNoop(d.res, noop)
    requires !created ==> v in vs && vs' == vs
    ensures var named := Entry(lookup, d.kind);
      ClassifiedOn(vs', before, done + [d], noop, lookup[d.kind := named[d.res.name := v]], keep + [v],
                   exports, if created then inits + [Initialized(v)] else inits)
  {
    var named := Entry(lookup, d.kind);
    var lk' := lookup[d.kind := named[d.res.name := v]];
    var inits' := if created then inits + [Initialized(v)] else inits;
    ShapedStep(done, d, noop, lookup, exports, named[d.res.name := v], exports);
    KeepStep(vs, vs', before, lookup[d.kind := named], keep, inits, d.kind, d.res.name, v, created);
    Overwrite(lookup, d.kind, named, named[d.res.name := v]);
    OriginsLocal(vs, vs', before, done, d, noop, v, created);
  }

  lemma Overwrite<K, V>(m: map<K, V>, k: K, a: V, b: V)
    ensures m[k := a][k := b] == m[k := b]
  {
  }

  /** A vertex made for an unmarked declaration keeps every new vertex wrapping a declaration. */
  lemma OriginsLocal(vs: set<Vertex>, vs': set<Vertex>, before: set<Vertex>, done: seq<Decl>, d: Decl, noop: bool,
                     v: Vertex, created: bool)
    requires forall u :: u in vs && u !in before ==> FromDeclaration(u.res, done, noop)
    requires !IsExported(d.res.name)
    requires created ==> vs' == vs + {v} && v.res == WithNoop(d.res, noop)
    requires !created ==> vs' == vs
    ensures forall u :: u in vs' && u !in before ==> FromDeclaration(u.res, done + [d], noop)
  {
    OriginsStep(vs, before, done, d, noop);
  }

  /** The step for a marked declaration: no vertex, no name, only the kind entry and the export. */
  lemma MarkedStep(vs: set<Vertex>, before: set<Vertex>, done: seq<Decl>, d: Decl, noop: bool,
                   lookup: Lookup, lk: Lookup, keep: seq<Vertex>, exports: seq<Resource>, inits: seq<Event>)
    requires ClassifiedOn(vs, before, done, noop, lookup, keep, exports, inits)
    requires lk == if d.kind in lookup then lookup else lookup[d.kind := map[]]
    requires IsExported(d.res.name)
    ensures ClassifiedOn(vs, before, done + [d], noop, lk, keep,
                         if noop then exports else exports + [Export(d)], inits)
  {
    assert lk == lookup[d.kind := Entry(lookup, d.kind)];
    MarkedStepOn(vs, before, done, d, noop, lookup, keep, exports, inits);
  }

  /** The proof of MarkedStep, over Entry(lookup, kind) in the same way as LocalStepOn. */
  lemma MarkedStepOn(vs: set<Vertex>, before: set<Vertex>, done: seq<Decl>, d: Decl, noop: bool,
                   lookup: Lookup, keep: seq<Vertex>, exports: seq<Resource>, inits: seq<Event>)
    requires ClassifiedOn(vs, before, done, noop, lookup, keep, exports, inits)
    requires IsExported(d.res.name)
    ensures var named := Entry(lookup, d.kind);
      ClassifiedOn(vs, before, done + [d], noop, lookup[d.kind := named], keep,
                   if noop then exports else exports + [Export(d)], inits)
  {
    ShapedStep(done, d, noop, lookup, exports, Entry(lookup, d.kind),
               if noop then exports else exports + [Export(d)]);
    OriginsStep(vs, before, done, d, noop);
  }

  /** r is what the walk hands to the graph for some unmarked declaration. */
  ghost predicate FromDeclaration(r: Resource, ds: seq<Decl>, noop: bool) {
    exists d :: d in ds && !IsExported(d.res.name) && r == WithNoop(d.res, noop)
  }

  lemma KindsStep(done: seq<Decl>, d: Decl)
    ensures Kinds(done + [d]) == Kinds(done) + {d.kind}
    ensures d.kind !in Kinds(done) ==> LocalNames(done, d.kind) == {}
  {
  }

  lemma NamesStep(done: seq<Decl>, d: Decl, k: string)
    ensures LocalNames(done + [d], k) ==
      LocalNames(done, k) + (if d.kind == k && !IsExported(d.res.name) then {d.res.name} else {})
  {
  }

  lemma ExportsStep(done: seq<Decl>, d: Decl)
    ensures ExportsOf(done + [d]) == ExportsOf(done) + (if IsExported(d.res.name) then [Export(d)] else [])
  {
    assert (done + [d])[..|done|] == done;
  }

  lemma OriginsStep(vs: set<Vertex>, before: set<Vertex>, done: seq<Decl>, d: Decl, noop: bool)
    requires forall v :: v in vs && v !in before ==> FromDeclaration(v.res, done, noop)
    ensures forall v :: v in vs && v !in before ==> FromDeclaration(v.res, done + [d], noop)
    ensures !IsExported(d.res.name) ==> FromDeclaration(WithNoop(d.res, noop), done + [d], noop)
  {
    forall v | v in vs && v !in before ensures FromDeclaration(v.res, done + [d], noop) {
      var e :| e in done && !IsExported(e.res.name) && v.res == WithNoop(e.res, noop);
      assert e in done + [d];
    }
    assert d in done + [d];
  }

  /** The names part of a step: the kind gets an entry, an unmarked name gets recorded. */
  lemma ShapedStep(done: seq<Decl>, d: Decl, noop: bool, lookup: Lookup, exports: seq<Resource>,
                   named: map<string, Vertex>, exports': seq<Resource>)
    requires Shaped(done, noop, lookup, exports)
    requires named.Keys == Entry(lookup, d.kind).Keys + (if IsExported(d.res.name) then {} else {d.res.name})
    requires exports' == if noop || !IsExported(d.res.name) then exports else exports + [Export(d)]
    ensures Shaped(done + [d], noop, lookup[d.kind := named], exports')
  {
    var lookup' := lookup[d.kind := named];
    KindsStep(done, d);
    ExportsStep(done, d);
    forall k | k in lookup' ensures lookup'[k].Keys == LocalNames(done + [d], k) {
      ShapedNames(done, d, noop, lookup, exports, named, k);
    }
  }

  /** ShapedStep for the names of one kind. */
  lemma ShapedNames(done: seq<Decl>, d: Decl, noop: bool, lookup: Lookup, exports: seq<Resource>,
                named: map<string, Vertex>, k: string)
    requires Shaped(done, noop, lookup, exports)
    requires named.Keys == Entry(lookup, d.kind).Keys + (if IsExported(d.res.name) then {} else {d.res.name})
    requires k in lookup[d.kind := named]
    ensures lookup[d.kind := named][k].Keys == LocalNames(done + [d], k)
  {
    NamesStep(done, d, k);
    KindsStep(done, d);
  }

  /**
   * The body run for an unmarked declaration d, once its kind has an entry in lk: the vertex for
   * its resource is found or created, then recorded under its kind and name and in keep.
   */
  method ClassifyLocal(graph: Graph, d: Decl, res: Resource, matches: MatchFn,
                       lk: Lookup, keep: seq<Vertex>, inits: seq<Event>, ghost noop: bool,
                       ghost before: set<Vertex>, ghost done: seq<Decl>, ghost lookup: Lookup,
                       ghost exports: seq<Resource>)
    returns (lookup': Lookup, keep': seq<Vertex>, inits': seq<Event>, ghost added: seq<Vertex>)
    requires Classified(graph, before, done, noop, matches, lookup, keep, exports, inits)
    requires lk == if d.kind in lookup then lookup else lookup[d.kind := map[]]
    requires !IsExported(d.res.name) && res == WithNoop(d.res, noop)
    modifies graph
    ensures Classified(graph, before, done + [d], noop, matches, lookup', keep', exports, inits')
    ensures graph.name == old(graph.name) && graph.edges == old(graph.edges)
    ensures old(graph.vertices) <= graph.vertices
    ensures forall v :: v in graph.vertices && v !in old(graph.vertices) ==> fresh(v)
    ensures d.kind in lookup' && d.res.name in lookup'[d.kind]
    ensures Recorded(old(graph.vertices), graph.vertices, res, matches, lookup'[d.kind][d.res.name],
                     keep, keep', inits, inits')
    ensures lookup' == lookup[d.kind := Entry(lookup, d.kind)[d.res.name := lookup'[d.kind][d.res.name]]]
    ensures keep' == keep + added && Aligned(added, Local(d, noop), matches)
  {
    ghost var vs := graph.vertices;
    var v, created;
    v, created, lookup', keep', inits' := Record(graph, d.kind, res, matches, lk, keep, inits);
    LocalStep(vs, graph.vertices, before, done, d, noop, lookup, lk, keep, exports, inits, v, created);
    DeclReuseStep(vs, graph.vertices, before, lookup, lk, done, d, noop, matches, v, created);
    LocalKeep(vs, graph.vertices, lookup, lk, lookup', d, noop, matches, v, keep, keep', inits, inits');
    NoneReinitializedStep(vs, graph.vertices, res, matches, v, keep, keep', inits, inits');
    added := [v];
  }

  /**
   * One declared resource of the given kind (the body of the inner loop of the walk). An unmarked
   * one gets the vertex Record settles on, entered under the kind and its name; a marked one only
   * makes sure the kind has an entry.
   */
  method ClassifyOne(graph: Graph, kind: string, declared: Resource, noop: bool, matches: MatchFn,
                     lookup: Lookup, keep: seq<Vertex>, exports: seq<Resource>, inits: seq<Event>,
                     ghost before: set<Vertex>, ghost done: seq<Decl>)
    returns (lookup': Lookup, keep': seq<Vertex>, exports': seq<Resource>, inits': seq<Event>,
             ghost added: seq<Vertex>)
    requires Classified(graph, before, done, noop, matches, lookup, keep, exports, inits)
    modifies graph
    ensures Classified(graph, before, done + [Decl(kind, declared)], noop, matches, lookup', keep', exports', inits')
    ensures graph.name == old(graph.name) && graph.edges == old(graph.edges)
    ensures old(graph.vertices) <= graph.vertices
    ensures forall v :: v in graph.vertices && v !in old(graph.vertices) ==> fresh(v)
    ensures !IsExported(declared.name) ==>
      && kind in lookup' && declared.name in lookup'[kind]
      && Recorded(old(graph.vertices), graph.vertices, WithNoop(declared, noop), matches,
                  lookup'[kind][declared.name], keep, keep', inits, inits')
    ensures IsExported(declared.name) ==> keep' == keep && inits' == inits && graph.vertices == old(graph.vertices)
    ensures !IsExported(declared.name) ==>
      lookup' == lookup[kind := Entry(lookup, kind)[declared.name := lookup'[kind][declared.name]]]
    ensures IsExported(declared.name) ==> lookup' == lookup[kind := Entry(lookup, kind)]
    ensures keep' == keep + added && Aligned(added, Local(Decl(kind, declared), noop), matches)
  {
    var d := Decl(kind, declared);
    lookup', keep', exports', inits' := lookup, keep, exports, inits;
    var res := WithNoop(declared, noop);
    if kind !in lookup' {
      lookup' := lookup'[kind := map[]];
    }
    if !IsExported(res.name) {
      lookup', keep', inits', added := ClassifyLocal(graph, d, res, matches, lookup', keep', inits', noop, before, done, lookup, exports);
    } else {
      added := [];
      EntryInserted(lookup, lookup', kind);
      MarkedStep(graph.vertices, before, done, d, noop, lookup, lookup', keep, exports, inits);
      DeclReuseMarked(graph.vertices, before, lookup, lookup', done, d, noop, matches);
      if !noop {
        exports' := exports' + [res.(name := Unmarked(res.name), kind := kind)];
      }
    }
  }

  /**
   * The resources listed in one field of the document, in order, all of the kind named after the
   * field.
   */
  method ClassifyField(graph: Graph, kind: string, slice: seq<Resource>, noop: bool, matches: MatchFn,
                       lookup: Lookup, keep: seq<Vertex>, exports: seq<Resource>, inits: seq<Event>,
                       ghost before: set<Vertex>, ghost done: seq<Decl>)
    returns (lookup': Lookup, keep': seq<Vertex>, exports': seq<Resource>, inits': seq<Event>,
             ghost added: seq<Vertex>)
    requires Classified(graph, before, done, noop, matches, lookup, keep, exports, inits)
    modifies graph
    ensures Classified(graph, before, done + Tagged(kind, slice), noop, matches, lookup', keep', exports', inits')
    ensures graph.name == old(graph.name) && graph.edges == old(graph.edges)
    ensures forall v :: v in graph.vertices && v !in old(graph.vertices) ==> fresh(v)
    ensures keep' == keep + added && Aligned(added, Locals(Tagged(kind, slice), noop), matches)
  {
    lookup', keep', exports', inits' := lookup, keep, exports, inits;
    ghost var done' := done;
    added := [];
    var j := 0;
    while j < |slice|
      invariant 0 <= j <= |slice|
      invariant done' == done + Tagged(kind, slice[..j])
      invariant Classified(graph, before, done', noop, matches, lookup', keep', exports', inits')
      invariant graph.name == old(graph.name) && graph.edges == old(graph.edges)
      invariant forall v :: v in graph.vertices && v !in old(graph.vertices) ==> fresh(v)
      invariant keep' == keep + added && Aligned(added, Locals(Tagged(kind, slice[..j]), noop), matches)
    {
      ghost var one;
      lookup', keep', exports', inits', one :=
        ClassifyOne(graph, kind, slice[j], noop, matches, lookup', keep', exports', inits', before, done');
      DoneStep(done, kind, slice, j);
      FieldKeep(kind, slice, j, noop, matches, keep, added, one);
      added := added + one;
      done' := done' + [Decl(kind, slice[j])];
      j := j + 1;
    }
    assert slice[..j] == slice;
  }

  /**
   * The walk over the declared resources, kind by kind. A resource without the export marker gets
   * a vertex, a lookup entry under its kind and name, and a place in the keep list; a marked one is
   * only added to the export batch, renamed and tagged with its kind, and not at all under noop.
   * Every kind that declares anything gets a lookup entry.
   */
  method Classify(graph: Graph, fs: seq<Field>, noop: bool, matches: MatchFn)
    returns (lookup: Lookup, keep: seq<Vertex>, exports: seq<Resource>, inits: seq<Event>)
    requires graph.Valid()
    modifies graph
    ensures graph.Valid() && graph.name == old(graph.name) && graph.edges == old(graph.edges)
    ensures Tracked(graph.vertices, old(graph.vertices), lookup, keep, inits)
    ensures ShapeOf(lookup) == DeclaredShape(Declared(fs))
    ensures exports == if noop then [] else ExportsOf(Declared(fs))
    ensures forall v :: v in graph.vertices && v !in old(graph.vertices) ==>
      fresh(v) && FromDeclaration(v.res, Declared(fs), noop)
    ensures DeclReuse(graph.vertices, old(graph.vertices), lookup, Declared(fs), noop, matches)
    ensures NoneReinitialized(inits, matches)
    ensures Aligned(keep, Locals(Declared(fs), noop), matches)
  {
    lookup, keep, exports, inits := map[], [], [], [];
    ghost var before := graph.vertices;
    ClassifiedStart(before, noop, matches);
    var i := 0;
    while i < |fs|
      invariant 0 <= i <= |fs|
      invariant Classified(graph, before, Declared(fs[..i]), noop, matches, lookup, keep, exports, inits)
      invariant graph.name == old(graph.name) && graph.edges == old(graph.edges)
      invariant forall v :: v in graph.vertices && v !in old(graph.vertices) ==> fresh(v)
      invariant Aligned(keep, Locals(Declared(fs[..i]), noop), matches)
    {
      var kind := FirstToUpper(fs[i].name);
      ghost var keep0, added := keep, [];
      lookup, keep, exports, inits, added :=
        ClassifyField(graph, kind, fs[i].entries, noop, matches, lookup, keep, exports, inits, before, Declared(fs[..i]));
      DeclaredStep(fs, i);
      DeclaredKeep(fs, i, noop, matches, keep0, added);
      i := i + 1;
    }
    assert fs[..i] == fs;
    ClassifiedShape(graph.vertices, before, Declared(fs), noop, lookup, keep, exports, inits);
  }

  // ---------------------------------------------------------------------------------------------
  // Collection

  /** The kinds the collector rules ask for, in rule order, as the one query is made with. */
  method KindFilter(rules: seq<CollectorResConfig>) returns (kinds: seq<string>)
    ensures |kinds| == |rules|
    ensures forall i :: 0 <= i < |rules| ==> kinds[i] == FirstToUpper(rules[i].kind)
    ensures forall k :: k in kinds <==> k in RuleKinds(rules)
  {
    kinds := [];
    var i := 0;
    while i < |rules|
      invariant 0 <= i <= |rules|
      invariant |kinds| == i
      invariant forall j :: 0 <= j < i ==> kinds[j] == FirstToUpper(rules[j].kind)
    {
      kinds := kinds + [FirstToUpper(rules[i].kind)];
      i := i + 1;
    }
    forall k | k in RuleKinds(rules) ensures k in kinds {
      var t :| t in rules && FirstToUpper(t.kind) == k;
      var j :| 0 <= j < |rules| && rules[j] == t;
      assert kinds[j] == k;
    }
  }

  /** A collector rule takes a resource when the rule's kind, upper-cased, is the resource's kind. */
  predicate Takes(t: CollectorResConfig, r: Resource) {
    FirstToUpper(t.kind) == r.kind
  }

  /**
   * r' is what collection hands to the graph for the stored resource r: the same resource, with
   * the no-op flag forced on under noop and, if some rule taking it has a pattern, that pattern.
   */
  ghost predicate CollectedAs(r': Resource, r: Resource, rules: seq<CollectorResConfig>, noop: bool) {
    && r'.kind == r.kind && r'.name == r.name && r'.params == r.params
    && r'.noop == (noop || r.noop)
    && (r'.collectPattern == r.collectPattern ||
        exists t :: t in rules && Takes(t, r) && t.pattern != "" && r'.collectPattern == Some(t.pattern))
  }

  ghost predicate FromCollected(r': Resource, rs: seq<Resource>, rules: seq<CollectorResConfig>, noop: bool) {
    exists r :: r in rs && r.kind in RuleKinds(rules) && CollectedAs(r', r, rules, noop)
  }

  /** lookup is lookup0 with the kinds and names of rs added. */
  ghost predicate Extends(lookup: Lookup, lookup0: Lookup, rs: set<Resource>) {
    && lookup.Keys == lookup0.Keys + KindsOf(rs)
    && forall k :: k in lookup ==> lookup[k].Keys == Entry(lookup0, k).Keys + NamesOf(rs, k)
  }

  lemma KindsOfAdd(rs: set<Resource>, r: Resource)
    ensures KindsOf(rs + {r}) == KindsOf(rs) + {r.kind}
  {
  }

  lemma NamesOfAdd(rs: set<Resource>, r: Resource, k: string)
    ensures NamesOf(rs + {r}, k) == NamesOf(rs, k) + (if r.kind == k then {r.name} else {})
  {
  }

  lemma NamesOfNone(rs: set<Resource>, k: string)
    requires k !in KindsOf(rs)
    ensures NamesOf(rs, k) == {}
  {
  }

  lemma ExtendsStep(lookup: Lookup, lookup0: Lookup, rs: set<Resource>, r: Resource, v: Vertex)
    requires Extends(lookup, lookup0, rs)
    ensures Extends(lookup[r.kind := Entry(lookup, r.kind)[r.name := v]], lookup0, rs + {r})
  {
    var lookup' := lookup[r.kind := Entry(lookup, r.kind)[r.name := v]];
    KindsOfAdd(rs, r);
    forall k | k in lookup' ensures lookup'[k].Keys == Entry(lookup0, k).Keys + NamesOf(rs + {r}, k) {
      if k == r.kind {
        ExtendsAtKind(lookup, lookup0, rs, r, v);
      } else {
        NamesOfAdd(rs, r, k);
      }
    }
  }

  /** The entry of the kind just recorded gains the recorded name. */
  lemma ExtendsAtKind(lookup: Lookup, lookup0: Lookup, rs: set<Resource>, r: Resource, v: Vertex)
    requires Extends(lookup, lookup0, rs)
    ensures Entry(lookup, r.kind)[r.name := v].Keys == Entry(lookup0, r.kind).Keys + NamesOf(rs + {r}, r.kind)
  {
    NamesOfAdd(rs, r, r.kind);
    if r.kind !in lookup {
      NamesOfNone(rs, r.kind);
    }
  }

  lemma RuleKindsStep(rules: seq<CollectorResConfig>, j: nat)
    requires j < |rules|
    ensures RuleKinds(rules[..j + 1]) == RuleKinds(rules[..j]) + {FirstToUpper(rules[j].kind)}
  {
    assert rules[..j + 1] == rules[..j] + [rules[j]];
  }

  lemma CollectableStep(coll: seq<Resource>, rules: seq<CollectorResConfig>, i: nat)
    requires i < |coll|
    ensures Collectable(coll[..i + 1], rules) ==
      Collectable(coll[..i], rules) + (if coll[i].kind in RuleKinds(rules) then {coll[i]} else {})
  {
    assert coll[..i + 1] == coll[..i] + [coll[i]];
  }

  /**
   * What collecting has established: the lookup table is the one before collection extended by
   * the collected resources `taken`, the bookkeeping holds, and every vertex added during
   * collection wraps a collected resource.
   */
  ghost predicate CollectedOn(vs: set<Vertex>, before: set<Vertex>, coll: seq<Resource>,
                              rules: seq<CollectorResConfig>, noop: bool, lookup0: Lookup, taken: set<Resource>,
                              lookup: Lookup, keep: seq<Vertex>, inits: seq<Event>)
  {
    && Extends(lookup, lookup0, taken)
    && Tracked(vs, before, lookup, keep, inits)
    && (forall v :: v in vs && v !in before ==> FromCollected(v.res, coll, rules, noop))
  }

  /** Recording the vertex for a collected resource under a rule that takes it. */
  lemma CollectStep(vs: set<Vertex>, vs': set<Vertex>, before: set<Vertex>, coll: seq<Resource>,
                    rules: seq<CollectorResConfig>, noop: bool, lookup0: Lookup, taken: set<Resource>,
                    lookup: Lookup, lk: Lookup, keep: seq<Vertex>, inits: seq<Event>,
                    r: Resource, cur: Resource, v: Vertex, created: bool)
    requires CollectedOn(vs, before, coll, rules, noop, lookup0, taken, lookup, keep, inits)
    requires r in coll && r.kind in RuleKinds(rules) && CollectedAs(cur, r, rules, noop)
    requires created ==> v !in vs && vs' == vs + {v} && v.res == cur
    requires !created ==> v in vs && vs' == vs
    requires lk == if r.kind in lookup then lookup else lookup[r.kind := map[]]
    ensures CollectedOn(vs', before, coll, rules, noop, lookup0, taken + {r},
                        lk[r.kind := lk[r.kind][cur.name := v]], keep + [v],
                        if created then inits + [Initialized(v)] else inits)
  {
    EntryUpdate(lookup, lk, r.kind, r.name, v);
    CollectStepOn(vs, vs', before, coll, rules, noop, lookup0, taken, lookup, keep, inits, r, cur, v, created);
  }

  /** The proof of CollectStep, over Entry(lookup, kind) in the same way as LocalStepOn. */
  lemma CollectStepOn(vs: set<Vertex>, vs': set<Vertex>, before: set<Vertex>, coll: seq<Resource>,
                    rules: seq<CollectorResConfig>, noop: bool, lookup0: Lookup, taken: set<Resource>,
                    lookup: Lookup, keep: seq<Vertex>, inits: seq<Event>,
                    r: Resource, cur: Resource, v: Vertex, created: bool)
    requires CollectedOn(vs, before, coll, rules, noop, lookup0, taken, lookup, keep, inits)
    requires r in coll && r.kind in RuleKinds(rules) && CollectedAs(cur, r, rules, noop)
    requires created ==> v !in vs && vs' == vs + {v} && v.res == cur
    requires !created ==> v in vs && vs' == vs
    ensures CollectedOn(vs', before, coll, rules, noop, lookup0, taken + {r},
                        lookup[r.kind := Entry(lookup, r.kind)[r.name := v]], keep + [v],
                        if created then inits + [Initialized(v)] else inits)
  {
    ExtendsStep(lookup, lookup0, taken, r, v);
    KeepStep(vs, vs', before, lookup[r.kind := Entry(lookup, r.kind)], keep, inits, r.kind, r.name, v, created);
    Overwrite(lookup, r.kind, Entry(lookup, r.kind), Entry(lookup, r.kind)[r.name := v]);
    OriginsCollected(vs, vs', before, coll, rules, noop, r, cur, v, created);
  }

  /** A vertex made for a collected resource keeps every new vertex wrapping a collected resource. */
  lemma OriginsCollected(vs: set<Vertex>, vs': set<Vertex>, before: set<Vertex>, coll: seq<Resource>,
                         rules: seq<CollectorResConfig>, noop: bool, r: Resource, cur: Resource, v: Vertex,
                         created: bool)
    requires forall u :: u in vs && u !in before ==> FromCollected(u.res, coll, rules, noop)
    requires r in coll && r.kind in RuleKinds(rules) && CollectedAs(cur, r, rules, noop)
    requires created ==> vs' == vs + {v} && v.res == cur
    requires !created ==> vs' == vs
    ensures forall u :: u in vs' && u !in before ==> FromCollected(u.res, coll, rules, noop)
  {
    assert FromCollected(cur, coll, rules, noop);
  }

  /** Inserting an empty entry for a missing kind gives the table with the kind's entry made explicit. */
  lemma EntryInserted(lookup: Lookup, lk: Lookup, k: string)
    requires lk == if k in lookup then lookup else lookup[k := map[]]
    ensures lk == lookup[k := Entry(lookup, k)]
  {
  }

  lemma EntryUpdate(lookup: Lookup, lk: Lookup, k: string, n: string, v: Vertex)
    requires lk == if k in lookup then lookup else lookup[k := map[]]
    ensures lk[k := lk[k][n := v]] == lookup[k := Entry(lookup, k)[n := v]]
  {
  }

  /** v stands for a collected resource of kind k named n, as the rules changed it. */
  ghost predicate CollectedTarget(v: Vertex, k: string, n: string, coll: seq<Resource>,
                                  rules: seq<CollectorResConfig>, noop: bool, matches: MatchFn) {
    exists r, r' :: r in coll && r.kind in RuleKinds(rules) && r.kind == k && r.name == n
      && CollectedAs(r', r, rules, noop) && Stands(v, r', matches)
  }

  /**
   * The vertices collection settled on: every lookup entry is the one from before collection or
   * stands for a collected resource of its kind and name, and no added vertex matches one that
   * was there before.
   */
  ghost predicate CollReuse(vs: set<Vertex>, before: set<Vertex>, lookup0: Lookup, lookup: Lookup,
                            coll: seq<Resource>, rules: seq<CollectorResConfig>, noop: bool, matches: MatchFn) {
    && NoneRecreated(vs, before, matches)
    && forall k, n :: k in lookup && n in lookup[k] ==>
         (k in lookup0 && n in lookup0[k] && lookup[k][n] == lookup0[k][n])
         || CollectedTarget(lookup[k][n], k, n, coll, rules, noop, matches)
  }

  /** Recording the vertex for a collected resource keeps CollReuse. */
  lemma CollReuseStep(vs: set<Vertex>, vs': set<Vertex>, before: set<Vertex>, lookup0: Lookup, lookup: Lookup,
                      lk: Lookup, coll: seq<Resource>, rules: seq<CollectorResConfig>, noop: bool, matches: MatchFn,
                      r: Resource, cur: Resource, v: Vertex, created: bool)
    requires CollReuse(vs, before, lookup0, lookup, coll, rules, noop, matches) && before <= vs
    requires lk == if r.kind in lookup then lookup else lookup[r.kind := map[]]
    requires r in coll && r.kind in RuleKinds(rules) && CollectedAs(cur, r, rules, noop)
    requires created ==> vs' == vs + {v} && v.res == cur && !HasMatch(vs, cur, matches)
    requires !created ==> vs' == vs && matches(v.res, cur)
    ensures CollReuse(vs', before, lookup0, lk[r.kind := lk[r.kind][cur.name := v]], coll, rules, noop, matches)
  {
    var lookup' := lk[r.kind := lk[r.kind][cur.name := v]];
    forall k, n | k in lookup' && n in lookup'[k]
      ensures (k in lookup0 && n in lookup0[k] && lookup'[k][n] == lookup0[k][n])
              || CollectedTarget(lookup'[k][n], k, n, coll, rules, noop, matches)
    {
      if k == r.kind && n == cur.name {
        assert Stands(v, cur, matches);
      } else {
        assert k in lookup && n in lookup[k] && lookup'[k][n] == lookup[k][n];
      }
    }
    forall u, w | u in vs' && u !in before && w in before ensures !matches(w.res, u.res) {
      if created && u == v {
        assert w in vs;
      }
    }
  }

  /** How far the rules seen so far have changed the collected resource r into res. */
  ghost predicate Applied(res: Resource, r: Resource, rules: seq<CollectorResConfig>, seen: seq<CollectorResConfig>, noop: bool) {
    && res.kind == r.kind && res.name == r.name && res.params == r.params
    && res.noop == (r.noop || (noop && r.kind in RuleKinds(seen)))
    && (res.collectPattern == r.collectPattern ||
        exists t :: t in rules && Takes(t, r) && t.pattern != "" && res.collectPattern == Some(t.pattern))
  }

  /** One collector rule's changes to a resource it takes: the no-op override and its pattern, if any. */
  ghost function Retag(res: Resource, t: CollectorResConfig, noop: bool): Resource {
    res.(noop := noop || res.noop, collectPattern := if t.pattern != "" then Some(t.pattern) else res.collectPattern)
  }

  /** The collected resource r as the first k rules, applied in order, leave it. */
  ghost function Retagged(r: Resource, rules: seq<CollectorResConfig>, k: nat, noop: bool): Resource
    requires k <= |rules|
  {
    if k == 0 then r
    else
      var res := Retagged(r, rules, k - 1, noop);
      if Takes(rules[k - 1], r) then Retag(res, rules[k - 1], noop) else res
  }

  /**
   * What the first k rules hand to the graph for the collected resource r, in order: for each
   * rule that takes r, r as the rules up to and including that one leave it.
   */
  ghost function Handed(r: Resource, rules: seq<CollectorResConfig>, k: nat, noop: bool): seq<Resource>
    requires k <= |rules|
  {
    if k == 0 then []
    else Handed(r, rules, k - 1, noop) + (if Takes(rules[k - 1], r) then [Retagged(r, rules, k, noop)] else [])
  }

  /** What collection hands to the graph for the resources rs, in order. */
  ghost function HandedAll(rs: seq<Resource>, rules: seq<CollectorResConfig>, noop: bool): seq<Resource> {
    if rs == [] then [] else HandedAll(rs[..|rs| - 1], rules, noop) + Handed(rs[|rs| - 1], rules, |rules|, noop)
  }

  /** For each of the first k rules that takes r, Handed holds r as the rules up to that one leave it. */
  lemma {:induction false} HandedHas(r: Resource, rules: seq<CollectorResConfig>, k: nat, noop: bool, j: nat)
    requires j < k <= |rules| && Takes(rules[j], r)
    ensures Retagged(r, rules, j + 1, noop) in Handed(r, rules, k, noop)
    decreases k
  {
    if j < k - 1 {
      HandedHas(r, rules, k - 1, noop, j);
    }
  }

  /** ... and Handed holds nothing else. */
  lemma {:induction false} HandedIn(r: Resource, rules: seq<CollectorResConfig>, k: nat, noop: bool, x: Resource)
    returns (j: nat)
    requires k <= |rules| && x in Handed(r, rules, k, noop)
    ensures j < k && Takes(rules[j], r) && x == Retagged(r, rules, j + 1, noop)
    decreases k
  {
    if x in Handed(r, rules, k - 1, noop) {
      j := HandedIn(r, rules, k - 1, noop, x);
    } else {
      j := k - 1;
    }
  }

  /** HandedAll holds what the rules hand to the graph for each resource of rs ... */
  lemma {:induction false} HandedAllHas(rs: seq<Resource>, rules: seq<CollectorResConfig>, noop: bool,
                                        r: Resource, x: Resource)
    requires r in rs && x in Handed(r, rules, |rules|, noop)
    ensures x in HandedAll(rs, rules, noop)
    decreases |rs|
  {
    var init, last := rs[..|rs| - 1], rs[|rs| - 1];
    if r != last {
      var k :| 0 <= k < |rs| && rs[k] == r;
      assert init[k] == r;
      HandedAllHas(init, rules, noop, r, x);
    }
  }

  /** ... and nothing else. */
  lemma {:induction false} HandedAllIn(rs: seq<Resource>, rules: seq<CollectorResConfig>, noop: bool, x: Resource)
    returns (r: Resource)
    requires x in HandedAll(rs, rules, noop)
    ensures r in rs && x in Handed(r, rules, |rules|, noop)
    decreases |rs|
  {
    var init, last := rs[..|rs| - 1], rs[|rs| - 1];
    if x in HandedAll(init, rules, noop) {
      r := HandedAllIn(init, rules, noop, x);
      var k :| 0 <= k < |init| && init[k] == r;
      assert rs[k] == r;
    } else {
      r := last;
    }
  }

  /**
   * One more rule for the collected resource r: the resource moves on to what Retagged says, and
   * the vertex recorded, if the rule takes r, extends keep in line with Handed.
   */
  lemma RuleKeep(r: Resource, rules: seq<CollectorResConfig>, j: nat, noop: bool, matches: MatchFn,
                 res: Resource, res': Resource, keep: seq<Vertex>, added: seq<Vertex>, one: seq<Vertex>)
    requires j < |rules| && res.kind == r.kind
    requires res == Retagged(r, rules, j, noop)
    requires Takes(rules[j], res) ==> res' == Retag(res, rules[j], noop)
    requires !Takes(rules[j], res) ==> res' == res
    requires Aligned(added, Handed(r, rules, j, noop), matches)
    requires Aligned(one, if Takes(rules[j], res) then [res'] else [], matches)
    ensures res' == Retagged(r, rules, j + 1, noop)
    ensures Aligned(added + one, Handed(r, rules, j + 1, noop), matches)
    ensures (keep + added) + one == keep + (added + one)
  {
    AlignedAppend(added, Handed(r, rules, j, noop), one, if Takes(rules[j], res) then [res'] else [], matches);
    AppendAssoc(keep, added, one);
  }

  /** One more collected resource: keep grows in line with HandedAll. */
  lemma ResourceKeep(rs: seq<Resource>, rules: seq<CollectorResConfig>, i: nat, noop: bool, matches: MatchFn,
                     keep: seq<Vertex>, added: seq<Vertex>, one: seq<Vertex>)
    requires i < |rs|
    requires Aligned(added, HandedAll(rs[..i], rules, noop), matches)
    requires Aligned(one, Handed(rs[i], rules, |rules|, noop), matches)
    ensures Aligned(added + one, HandedAll(rs[..i + 1], rules, noop), matches)
    ensures (keep + added) + one == keep + (added + one)
  {
    assert rs[..i + 1][..i] == rs[..i];
    AlignedAppend(added, HandedAll(rs[..i], rules, noop), one, Handed(rs[i], rules, |rules|, noop), matches);
    AppendAssoc(keep, added, one);
  }

  /**
   * What running the rule t on the resource res, as the earlier rules left it, has done: res' is res
   * as t changes it, and its name under the rule's kind maps to the vertex recorded for it, while
   * the rest of the table is as it was.
   */
  ghost predicate Took(vs: set<Vertex>, vs': set<Vertex>, t: CollectorResConfig, res: Resource, res': Resource,
                       noop: bool, matches: MatchFn, lookup: Lookup, lookup': Lookup, keep: seq<Vertex>,
                       keep': seq<Vertex>, inits: seq<Event>, inits': seq<Event>) {
    var kind := FirstToUpper(t.kind);
    && res' == Retag(res, t, noop)
    && kind in lookup' && res'.name in lookup'[kind]
    && Recorded(vs, vs', res', matches, lookup'[kind][res'.name], keep, keep', inits, inits')
    && lookup' == lookup[kind := Entry(lookup, kind)[res'.name := lookup'[kind][res'.name]]]
  }

  /** The vertex a rule recorded extends keep and stands for the resource as the rule left it. */
  lemma TookOne(vs: set<Vertex>, vs': set<Vertex>, t: CollectorResConfig, res: Resource, res': Resource,
                noop: bool, matches: MatchFn, lookup: Lookup, lookup': Lookup, keep: seq<Vertex>,
                keep': seq<Vertex>, inits: seq<Event>, inits': seq<Event>)
    returns (one: seq<Vertex>)
    requires Took(vs, vs', t, res, res', noop, matches, lookup, lookup', keep, keep', inits, inits')
    ensures keep' == keep + one && Aligned(one, [res'], matches)
  {
    var v := lookup'[FirstToUpper(t.kind)][res'.name];
    one := [v];
    AlignedSnoc([], [], v, res', matches);
  }

  /**
   * The body run for a rule that takes the collected resource: the no-op override, the rule's
   * pattern if it has one, then the same find-or-create and recording as for a declared resource.
   */
  method CollectUnder(graph: Graph, t: CollectorResConfig, res: Resource, noop: bool, matches: MatchFn,
                      lookup: Lookup, keep: seq<Vertex>, inits: seq<Event>,
                      ghost coll: seq<Resource>, ghost r: Resource, ghost rules: seq<CollectorResConfig>,
                      ghost seen: seq<CollectorResConfig>, ghost before: set<Vertex>, ghost lookup0: Lookup,
                      ghost taken: set<Resource>)
    returns (res': Resource, lookup': Lookup, keep': seq<Vertex>, inits': seq<Event>)
    requires graph.Valid()
    requires t in rules && Takes(t, r) && r in coll
    requires Applied(res, r, rules, seen, noop)
    requires CollectedOn(graph.vertices, before, coll, rules, noop, lookup0, taken, lookup, keep, inits)
    requires CollReuse(graph.vertices, before, lookup0, lookup, coll, rules, noop, matches)
    requires NoneReinitialized(inits, matches)
    modifies graph
    ensures graph.Valid() && graph.name == old(graph.name) && graph.edges == old(graph.edges)
    ensures old(graph.vertices) <= graph.vertices
    ensures forall v :: v in graph.vertices && v !in old(graph.vertices) ==> fresh(v)
    ensures res'.kind == res.kind && res'.name == res.name && res'.params == res.params
    ensures res'.noop == (noop || res.noop)
    ensures res'.collectPattern == if t.pattern != "" then Some(t.pattern) else res.collectPattern
    ensures Took(old(graph.vertices), graph.vertices, t, res, res', noop, matches, lookup, lookup', keep, keep',
                 inits, inits')
    ensures Applied(res', r, rules, seen + [t], noop)
    ensures CollectedOn(graph.vertices, before, coll, rules, noop, lookup0, taken + {r}, lookup', keep', inits')
    ensures CollReuse(graph.vertices, before, lookup0, lookup', coll, rules, noop, matches)
    ensures NoneReinitialized(inits', matches)
  {
    var kind := FirstToUpper(t.kind);
    assert kind == r.kind;
    res' := res;
    if noop {
      res' := res'.(noop := true);
    }
    if t.pattern != "" {
      res' := res'.(collectPattern := Some(t.pattern));
    }
    RetagStep(res, res', r, rules, seen, t, noop);
    lookup', keep', inits' := CollectRecord(graph, t, res, res', matches, lookup, keep, inits, noop, coll, r, rules,
                                            before, lookup0, taken);
  }

  /**
   * The find-or-create and recording of a resource a rule has taken, as the rule left it: the
   * same steps as for a declared resource, under the rule's kind.
   */
  method CollectRecord(graph: Graph, t: CollectorResConfig, ghost res: Resource, res': Resource, matches: MatchFn,
                       lookup: Lookup, keep: seq<Vertex>, inits: seq<Event>, ghost noop: bool,
                       ghost coll: seq<Resource>, ghost r: Resource, ghost rules: seq<CollectorResConfig>,
                       ghost before: set<Vertex>, ghost lookup0: Lookup, ghost taken: set<Resource>)
    returns (lookup': Lookup, keep': seq<Vertex>, inits': seq<Event>)
    requires graph.Valid() && Takes(t, r) && r in coll && r.kind in RuleKinds(rules)
    requires res' == Retag(res, t, noop) && CollectedAs(res', r, rules, noop)
    requires CollectedOn(graph.vertices, before, coll, rules, noop, lookup0, taken, lookup, keep, inits)
    requires CollReuse(graph.vertices, before, lookup0, lookup, coll, rules, noop, matches)
    requires NoneReinitialized(inits, matches)
    modifies graph
    ensures graph.Valid() && graph.name == old(graph.name) && graph.edges == old(graph.edges)
    ensures old(graph.vertices) <= graph.vertices
    ensures forall v :: v in graph.vertices && v !in old(graph.vertices) ==> fresh(v)
    ensures Took(old(graph.vertices), graph.vertices, t, res, res', noop, matches, lookup, lookup', keep, keep',
                 inits, inits')
    ensures CollectedOn(graph.vertices, before, coll, rules, noop, lookup0, taken + {r}, lookup', keep', inits')
    ensures CollReuse(graph.vertices, before, lookup0, lookup', coll, rules, noop, matches)
    ensures NoneReinitialized(inits', matches)
  {
    var kind := FirstToUpper(t.kind);
    lookup' := lookup;
    if kind !in lookup' {
      lookup' := lookup'[kind := map[]];
    }
    ghost var vs := graph.vertices;
    ghost var lk := lookup';
    var v, created;
    v, created, lookup', keep', inits' := Record(graph, kind, res', matches, lookup', keep, inits);
    CollectStep(vs, graph.vertices, before, coll, rules, noop, lookup0, taken, lookup, lk, keep, inits, r, res', v, created);
    CollReuseStep(vs, graph.vertices, before, lookup0, lookup, lk, coll, rules, noop, matches, r, res', v, created);
    RecordTook(vs, graph.vertices, t, res, res', noop, matches, lookup, lk, lookup', keep, keep', inits, inits', v);
    NoneReinitializedStep(vs, graph.vertices, res', matches, v, keep, keep', inits, inits');
  }

  /** Recording the retagged resource under the rule's kind is what Took describes. */
  lemma RecordTook(vs: set<Vertex>, vs': set<Vertex>, t: CollectorResConfig, res: Resource, res': Resource,
                   noop: bool, matches: MatchFn, lookup: Lookup, lk: Lookup, lookup': Lookup, keep: seq<Vertex>,
                   keep': seq<Vertex>, inits: seq<Event>, inits': seq<Event>, v: Vertex)
    requires res' == Retag(res, t, noop)
    requires lk == if FirstToUpper(t.kind) in lookup then lookup else lookup[FirstToUpper(t.kind) := map[]]
    requires lookup' == lk[FirstToUpper(t.kind) := lk[FirstToUpper(t.kind)][res'.name := v]]
    requires Recorded(vs, vs', res', matches, v, keep, keep', inits, inits')
    ensures Took(vs, vs', t, res, res', noop, matches, lookup, lookup', keep, keep', inits, inits')
  {
    EntryUpdate(lookup, lk, FirstToUpper(t.kind), res'.name, v);
  }

  /** A rule that takes r applies its no-op override and its pattern. */
  lemma RetagStep(res: Resource, res': Resource, r: Resource, rules: seq<CollectorResConfig>,
                  seen: seq<CollectorResConfig>, t: CollectorResConfig, noop: bool)
    requires Applied(res, r, rules, seen, noop) && t in rules && Takes(t, r)
    requires res'.kind == res.kind && res'.name == res.name && res'.params == res.params
    requires res'.noop == (noop || res.noop)
    requires res'.collectPattern == if t.pattern != "" then Some(t.pattern) else res.collectPattern
    ensures r.kind in RuleKinds(rules)
    ensures Applied(res', r, rules, seen + [t], noop)
    ensures CollectedAs(res', r, rules, noop)
  {
    assert FirstToUpper(t.kind) in RuleKinds(seen + [t]);
    assert FirstToUpper(t.kind) in RuleKinds(rules);
  }

  /** A rule that does not take r leaves it as it is. */
  lemma SkipStep(res: Resource, r: Resource, rules: seq<CollectorResConfig>,
                 seen: seq<CollectorResConfig>, t: CollectorResConfig, noop: bool)
    requires Applied(res, r, rules, seen, noop) && res.kind != FirstToUpper(t.kind)
    ensures Applied(res, r, rules, seen + [t], noop)
  {
  }

  /**
   * One collector rule applied to one collected resource: when the rule's kind is the resource's
   * kind, the resource is handed on under the rule (CollectUnder); otherwise nothing happens.
   */
  method CollectRule(graph: Graph, coll: seq<Resource>, i: nat, rules: seq<CollectorResConfig>, j: nat,
                     noop: bool, matches: MatchFn, res: Resource, lookup: Lookup, keep: seq<Vertex>,
                     inits: seq<Event>, ghost before: set<Vertex>, ghost lookup0: Lookup,
                     ghost taken: set<Resource>, ghost got: set<Resource>)
    returns (res': Resource, lookup': Lookup, keep': seq<Vertex>, inits': seq<Event>, ghost got': set<Resource>,
             ghost one: seq<Vertex>)
    requires i < |coll| && j < |rules| && graph.Valid()
    requires got == taken + (if coll[i].kind in RuleKinds(rules[..j]) then {coll[i]} else {})
    requires CollectedOn(graph.vertices, before, coll, rules, noop, lookup0, got, lookup, keep, inits)
    requires CollReuse(graph.vertices, before, lookup0, lookup, coll, rules, noop, matches)
    requires NoneReinitialized(inits, matches)
    requires Applied(res, coll[i], rules, rules[..j], noop)
    modifies graph
    ensures graph.Valid() && graph.name == old(graph.name) && graph.edges == old(graph.edges)
    ensures old(graph.vertices) <= graph.vertices
    ensures forall v :: v in graph.vertices && v !in old(graph.vertices) ==> fresh(v)
    ensures got' == taken + (if coll[i].kind in RuleKinds(rules[..j + 1]) then {coll[i]} else {})
    ensures CollectedOn(graph.vertices, before, coll, rules, noop, lookup0, got', lookup', keep', inits')
    ensures CollReuse(graph.vertices, before, lookup0, lookup', coll, rules, noop, matches)
    ensures NoneReinitialized(inits', matches)
    ensures Applied(res', coll[i], rules, rules[..j + 1], noop)
    ensures keep' == keep + one && Aligned(one, if Takes(rules[j], res) then [res'] else [], matches)
    ensures !Takes(rules[j], res) ==>
      res' == res && lookup' == lookup && keep' == keep && inits' == inits && graph.vertices == old(graph.vertices)
    ensures Takes(rules[j], res) ==>
      Took(old(graph.vertices), graph.vertices, rules[j], res, res', noop, matches, lookup, lookup', keep, keep',
           inits, inits')
  {
    RuleKindsStep(rules, j);
    var t := rules[j];
    assert rules[..j + 1] == rules[..j] + [t];
    if Takes(t, res) {
      res', lookup', keep', inits' := CollectUnder(graph, t, res, noop, matches, lookup, keep, inits,
        coll, coll[i], rules, rules[..j], before, lookup0, got);
      got' := got + {coll[i]};
      one := TookOne(old(graph.vertices), graph.vertices, t, res, res', noop, matches, lookup, lookup', keep, keep',
                     inits, inits');
    } else {
      SkipStep(res, coll[i], rules, rules[..j], t, noop);
      res', lookup', keep', inits', got', one := res, lookup, keep, inits, got, [];
    }
  }

  /**
   * One collected resource, checked against every collector rule in turn; it is handed to the
   * graph once for every rule that takes it, each time with the rule's pattern if it has one.
   */
  method CollectOne(graph: Graph, coll: seq<Resource>, i: nat, rules: seq<CollectorResConfig>, noop: bool,
                    matches: MatchFn, lookup: Lookup, keep: seq<Vertex>, inits: seq<Event>,
                    ghost before: set<Vertex>, ghost lookup0: Lookup)
    returns (lookup': Lookup, keep': seq<Vertex>, inits': seq<Event>, ghost added: seq<Vertex>)
    requires i < |coll| && graph.Valid()
    requires CollectedOn(graph.vertices, before, coll, rules, noop, lookup0, Collectable(coll[..i], rules), lookup, keep, inits)
    requires CollReuse(graph.vertices, before, lookup0, lookup, coll, rules, noop, matches)
    requires NoneReinitialized(inits, matches)
    modifies graph
    ensures graph.Valid() && graph.name == old(graph.name) && graph.edges == old(graph.edges)
    ensures old(graph.vertices) <= graph.vertices
    ensures forall v :: v in graph.vertices && v !in old(graph.vertices) ==> fresh(v)
    ensures CollectedOn(graph.vertices, before, coll, rules, noop, lookup0, Collectable(coll[..i + 1], rules), lookup', keep', inits')
    ensures CollReuse(graph.vertices, before, lookup0, lookup', coll, rules, noop, matches)
    ensures NoneReinitialized(inits', matches)
    ensures keep' == keep + added && Aligned(added, Handed(coll[i], rules, |rules|, noop), matches)
  {
    CollectableStep(coll, rules, i);
    ghost var taken := Collectable(coll[..i], rules);
    lookup', keep', inits' := lookup, keep, inits;
    var res := coll[i];
    ghost var got := taken;
    added := [];
    var j := 0;
    while j < |rules|
      invariant 0 <= j <= |rules|
      invariant graph.Valid() && graph.name == old(graph.name) && graph.edges == old(graph.edges)
      invariant old(graph.vertices) <= graph.vertices
      invariant forall v :: v in graph.vertices && v !in old(graph.vertices) ==> fresh(v)
      invariant got == taken + (if coll[i].kind in RuleKinds(rules[..j]) then {coll[i]} else {})
      invariant CollectedOn(graph.vertices, before, coll, rules, noop, lookup0, got, lookup', keep', inits')
      invariant CollReuse(graph.vertices, before, lookup0, lookup', coll, rules, noop, matches)
      invariant NoneReinitialized(inits', matches)
      invariant Applied(res, coll[i], rules, rules[..j], noop)
      invariant res == Retagged(coll[i], rules, j, noop)
      invariant keep' == keep + added && Aligned(added, Handed(coll[i], rules, j, noop), matches)
    {
      ghost var res0, one := res, [];
      res, lookup', keep', inits', got, one := CollectRule(graph, coll, i, rules, j, noop, matches, res, lookup', keep',
        inits', before, lookup0, taken, got);
      RuleKeep(coll[i], rules, j, noop, matches, res0, res, keep, added, one);
      added := added + one;
      j := j + 1;
    }
    WholePrefix(rules, j);
  }

  /**
   * Every resource read back from the store goes through every collector rule; the vertices the
   * pass settles on are added to the lookup table and to keep. The pass starts from the table and
   * keep list that the declared resources produced.
   */
  method Collect(graph: Graph, coll: seq<Resource>, rules: seq<CollectorResConfig>, noop: bool,
                 matches: MatchFn, lookup0: Lookup, keep0: seq<Vertex>)
    returns (lookup: Lookup, keep: seq<Vertex>, inits: seq<Event>, ghost added: seq<Vertex>)
    requires graph.Valid() && Tracked(graph.vertices, graph.vertices, lookup0, keep0, [])
    modifies graph
    ensures graph.Valid() && graph.name == old(graph.name) && graph.edges == old(graph.edges)
    ensures Tracked(graph.vertices, old(graph.vertices), lookup, keep, inits)
    ensures ShapeOf(lookup) == Merge(ShapeOf(lookup0), SetShape(Collectable(coll, rules)))
    ensures forall v :: v in graph.vertices && v !in old(graph.vertices) ==>
      fresh(v) && FromCollected(v.res, coll, rules, noop)
    ensures CollReuse(graph.vertices, old(graph.vertices), lookup0, lookup, coll, rules, noop, matches)
    ensures NoneReinitialized(inits, matches)
    ensures keep == keep0 + added && Aligned(added, HandedAll(coll, rules, noop), matches)
  {
    lookup, keep, inits, added := lookup0, keep0, [], [];
    var i := 0;
    while i < |coll|
      invariant 0 <= i <= |coll|
      invariant graph.Valid() && graph.name == old(graph.name) && graph.edges == old(graph.edges)
      invariant old(graph.vertices) <= graph.vertices
      invariant forall v :: v in graph.vertices && v !in old(graph.vertices) ==> fresh(v)
      invariant CollectedOn(graph.vertices, old(graph.vertices), coll, rules, noop, lookup0,
                            Collectable(coll[..i], rules), lookup, keep, inits)
      invariant CollReuse(graph.vertices, old(graph.vertices), lookup0, lookup, coll, rules, noop, matches)
      invariant NoneReinitialized(inits, matches)
      invariant keep == keep0 + added && Aligned(added, HandedAll(coll[..i], rules, noop), matches)
    {
      ghost var one;
      lookup, keep, inits, one := CollectOne(graph, coll, i, rules, noop, matches, lookup, keep, inits,
                                             old(graph.vertices), lookup0);
      ResourceKeep(coll, rules, i, noop, matches, keep0, added, one);
      added := added + one;
      i := i + 1;
    }
    WholePrefix(coll, i);
    ExtendsShape(lookup, lookup0, Collectable(coll, rules));
  }

  lemma WholePrefix<T>(s: seq<T>, i: nat)
    requires i == |s|
    ensures s[..i] == s
  {
  }

  /** A table that extends another by a set of resources has the merged shape. */
  lemma ExtendsShape(lookup: Lookup, lookup0: Lookup, rs: set<Resource>)
    requires Extends(lookup, lookup0, rs)
    ensures ShapeOf(lookup) == Merge(ShapeOf(lookup0), SetShape(rs))
  {
    var a, b := ShapeOf(lookup), Merge(ShapeOf(lookup0), SetShape(rs));
    ShapeKeys(lookup, lookup0, rs);
    forall k | k in a ensures a[k] == b[k] {
      NamesAtShape(lookup, lookup0, rs, k);
    }
  }

  lemma ShapeKeys(lookup: Lookup, lookup0: Lookup, rs: set<Resource>)
    requires Extends(lookup, lookup0, rs)
    ensures ShapeOf(lookup).Keys == Merge(ShapeOf(lookup0), SetShape(rs)).Keys
  {
    assert ShapeOf(lookup).Keys == lookup.Keys;
    assert SetShape(rs).Keys == KindsOf(rs);
  }

  lemma NamesAtShape(lookup: Lookup, lookup0: Lookup, rs: set<Resource>, k: string)
    requires Extends(lookup, lookup0, rs) && k in lookup
    ensures lookup[k].Keys == NamesAt(ShapeOf(lookup0), k) + NamesAt(SetShape(rs), k)
  {
    if k !in KindsOf(rs) {
      NamesOfNone(rs, k);
    }
  }

  // ---------------------------------------------------------------------------------------------
  // Pruning and edges

  /** The vertices still present while pruning: those not yet visited and those kept. */
  ghost function Remaining(vs0: set<Vertex>, pending: set<Vertex>, keep: seq<Vertex>): set<Vertex> {
    set v | v in vs0 && (v in pending || v in keep)
  }

  /** The edges still present while pruning: those touching no removed vertex. */
  ghost function Untouched(es0: set<Edge>, removed: seq<Vertex>): set<Edge> {
    set e | e in es0 && e.from !in removed && e.to !in removed
  }

  /** Visiting a vertex that is not kept removes it and the edges at it. */
  lemma DropStep(vs0: set<Vertex>, es0: set<Edge>, pending: set<Vertex>, keep: seq<Vertex>,
                 removed: seq<Vertex>, v: Vertex)
    requires v in pending && v !in keep
    ensures Remaining(vs0, pending, keep) - {v} == Remaining(vs0, pending - {v}, keep)
    ensures (set e | e in Untouched(es0, removed) && e.from != v && e.to != v) == Untouched(es0, removed + [v])
  {
  }

  /** The bookkeeping of the removed vertices after one more is dropped. */
  lemma RemovedStep(vs0: set<Vertex>, pending: set<Vertex>, keep: seq<Vertex>, removed: seq<Vertex>, v: Vertex)
    requires v in pending && pending <= vs0 && v !in keep && Distinct(removed)
    requires forall u :: u in removed <==> u in vs0 && u !in pending && u !in keep
    ensures Distinct(removed + [v])
    ensures forall u :: u in removed + [v] <==> u in vs0 && u !in pending - {v} && u !in keep
    ensures PruneLog(removed + [v]) == PruneLog(removed) + [ExitSent(v), Deleted(v)]
  {
    assert (removed + [v])[..|removed|] == removed;
  }

  /** Visiting a kept vertex changes nothing. */
  lemma KeepVisit(vs0: set<Vertex>, pending: set<Vertex>, keep: seq<Vertex>, v: Vertex)
    requires v in keep
    ensures Remaining(vs0, pending, keep) == Remaining(vs0, pending - {v}, keep)
  {
  }

  /** Once every vertex is visited, what remains is what is kept. */
  lemma PruneDone(vs0: set<Vertex>, es0: set<Edge>, keep: seq<Vertex>, removed: seq<Vertex>)
    requires forall v :: v in removed <==> v in vs0 && v !in keep
    requires forall e :: e in es0 ==> e.from in vs0 && e.to in vs0
    ensures Remaining(vs0, {}, keep) == set v | v in vs0 && v in keep
    ensures Untouched(es0, removed) == set e | e in es0 && e.from in keep && e.to in keep
  {
  }

  /**
   * Every vertex of the graph that the pass did not keep is told to exit, waited for and deleted,
   * in the order the graph hands its vertices out (left open here).
   */
  method Prune(graph: Graph, keep: seq<Vertex>) returns (removed: seq<Vertex>, events: seq<Event>)
    requires graph.Valid()
    modifies graph
    ensures graph.Valid() && graph.name == old(graph.name)
    ensures graph.vertices == set v | v in old(graph.vertices) && v in keep
    ensures graph.edges == set e | e in old(graph.edges) && e.from in keep && e.to in keep
    ensures Distinct(removed)
    ensures forall v :: v in removed <==> v in old(graph.vertices) && v !in keep
    ensures events == PruneLog(removed)
  {
    ghost var vs0, es0 := graph.vertices, graph.edges;
    var pending := graph.vertices;
    removed, events := [], [];
    assert graph.vertices == Remaining(vs0, pending, keep);
    assert graph.edges == Untouched(es0, removed);
    while pending != {}
      invariant graph.Valid() && graph.name == old(graph.name)
      invariant pending <= vs0
      invariant graph.vertices == Remaining(vs0, pending, keep)
      invariant graph.edges == Untouched(es0, removed)
      invariant Distinct(removed)
      invariant forall v :: v in removed <==> v in vs0 && v !in pending && v !in keep
      invariant events == PruneLog(removed)
      decreases pending
    {
      var v :| v in pending;
      if v !in keep {
        DropStep(vs0, es0, pending, keep, removed, v);
        RemovedStep(vs0, pending, keep, removed, v);
        events := events + [ExitSent(v), Deleted(v)];
        removed := removed + [v];
        graph.DeleteVertex(v);
      } else {
        KeepVisit(vs0, pending, keep, v);
      }
      pending := pending - {v};
    }
    PruneDone(vs0, es0, keep, removed);
  }

  lemma ResolvedStep(lookup: Lookup, es: seq<EdgeConfig>, i: nat)
    requires i < |es|
    ensures ResolvedEdges(lookup, es[..i + 1]) ==
      ResolvedEdges(lookup, es[..i]) + (if Resolve(lookup, es[i]).Some? then {Resolve(lookup, es[i]).value} else {})
  {
    assert es[..i + 1] == es[..i] + [es[i]];
  }

  /** The i-th edge resolves, so the edges so far still all resolve and it joins the resolved set. */
  lemma PassAt(lookup: Lookup, es: seq<EdgeConfig>, i: nat)
    requires i < |es| && FirstEdgeError(ShapeOf(lookup), es[..i]) == None
    requires CheckEdge(ShapeOf(lookup), es[i]) == None
    ensures FirstEdgeError(ShapeOf(lookup), es[..i + 1]) == None
    ensures ResolvedEdges(lookup, es[..i + 1]) == ResolvedEdges(lookup, es[..i]) + {Resolve(lookup, es[i]).value}
  {
    ResolvedStep(lookup, es, i);
    assert es[..i + 1][..i] == es[..i];
  }

  /** The i-th edge fails the check `err`, which therefore decides the outcome of the whole list. */
  lemma FailAt(s: Shape, es: seq<EdgeConfig>, i: nat, err: EdgeError)
    requires i < |es| && FirstEdgeError(s, es[..i]) == None && CheckEdge(s, es[i]) == Some(err)
    ensures FirstEdgeError(s, es) == Some(err)
  {
    assert es[..i + 1][..i] == es[..i];
    FirstEdgeErrorSticks(s, es, i + 1);
  }

  /**
   * One edge declaration: the four lookups in the order they are made, and the edge between the
   * two vertices found when all of them succeed.
   */
  method AttachOne(graph: Graph, e: EdgeConfig, lookup: Lookup) returns (err: Option<EdgeError>)
    requires graph.Valid()
    requires forall k, n :: k in lookup && n in lookup[k] ==> lookup[k][n] in graph.vertices
    modifies graph
    ensures graph.Valid() && graph.name == old(graph.name) && graph.vertices == old(graph.vertices)
    ensures err == CheckEdge(ShapeOf(lookup), e)
    ensures err.Some? ==> graph.edges == old(graph.edges)
    ensures err == None ==> graph.edges == old(graph.edges) + {Resolve(lookup, e).value}
  {
    var fk, tk := FirstToUpper(e.from.kind), FirstToUpper(e.to.kind);
    if fk !in lookup {
      return Some(NoFromKind);
    }
    if tk !in lookup {
      return Some(NoToKind);
    }
    if e.from.name !in lookup[fk] {
      return Some(NoFromName);
    }
    if e.to.name !in lookup[tk] {
      return Some(NoToName);
    }
    var from, to := lookup[fk][e.from.name], lookup[tk][e.to.name];
    graph.AddEdge(from, to, e.name);
    err := None;
  }

  /**
   * The edge declarations, in order: an edge whose end kinds or names have no lookup entry stops
   * the pass with the first check it fails; any other edge joins the two vertices it names.
   */
  method AttachEdges(graph: Graph, es: seq<EdgeConfig>, lookup: Lookup) returns (err: Option<EdgeError>)
    requires graph.Valid()
    requires forall k, n :: k in lookup && n in lookup[k] ==> lookup[k][n] in graph.vertices
    modifies graph
    ensures graph.Valid() && graph.name == old(graph.name) && graph.vertices == old(graph.vertices)
    ensures err == FirstEdgeError(ShapeOf(lookup), es)
    ensures err == None ==> graph.edges == old(graph.edges) + ResolvedEdges(lookup, es)
  {
    ghost var s := ShapeOf(lookup);
    var i := 0;
    while i < |es|
      invariant 0 <= i <= |es|
      invariant graph.Valid() && graph.name == old(graph.name) && graph.vertices == old(graph.vertices)
      invariant FirstEdgeError(s, es[..i]) == None
      invariant graph.edges == old(graph.edges) + ResolvedEdges(lookup, es[..i])
    {
      err := AttachOne(graph, es[i], lookup);
      if err.Some? {
        FailAt(s, es, i, err.value);
        return;
      }
      PassAt(lookup, es, i);
      i := i + 1;
    }
    assert es[..i] == es;
    err := None;
  }

  // ---------------------------------------------------------------------------------------------
  // The whole pass

  datatype ConfigError =
    | EmptyHostname          // the document names no host
    | ExportFailed           // the store refused the exported resources
    | CollectFailed          // the store could not be read for collected kinds
    | EdgeFailed(e: EdgeError)  // an edge declaration names an unknown kind or name

  /** The stored resource, on any host, that a collected vertex's resource was made from. */
  ghost predicate FromStore(r': Resource, data: map<string, seq<Resource>>, rules: seq<CollectorResConfig>, noop: bool) {
    exists r :: r in Stored(data, rules) && CollectedAs(r', r, rules, noop)
  }

  /** v stands for a stored resource, on any host, of a collected kind k named n, as the rules changed it. */
  ghost predicate StoredTarget(v: Vertex, k: string, n: string, data: map<string, seq<Resource>>,
                               rules: seq<CollectorResConfig>, noop: bool, matches: MatchFn) {
    exists r, r' :: r in Stored(data, rules) && r.kind == k && r.name == n
      && CollectedAs(r', r, rules, noop) && Stands(v, r', matches)
  }

  /** Every lookup entry stands for a declaration or a stored resource of its kind and name. */
  ghost predicate PassTargets(lookup: Lookup, ds: seq<Decl>, data: map<string, seq<Resource>>,
                              rules: seq<CollectorResConfig>, noop: bool, matches: MatchFn) {
    forall k, n :: k in lookup && n in lookup[k] ==>
      DeclaredTarget(lookup[k][n], k, n, ds, noop, matches) || StoredTarget(lookup[k][n], k, n, data, rules, noop, matches)
  }

  /**
   * v stands for what one of the sources of vertices hands to the graph: an unmarked declaration
   * under the no-op override, or a stored resource of a collected kind as the rules up to one
   * taking it leave it.
   */
  ghost predicate Accounted(v: Vertex, ds: seq<Decl>, data: map<string, seq<Resource>>,
                            rules: seq<CollectorResConfig>, noop: bool, matches: MatchFn) {
    || (exists d :: d in ds && !IsExported(d.res.name) && Stands(v, WithNoop(d.res, noop), matches))
    || (exists r, j :: r in Stored(data, rules) && 0 <= j < |rules| && Takes(rules[j], r)
          && Stands(v, Retagged(r, rules, j + 1, noop), matches))
  }

  /** Everything the sources of vertices hand to the graph has a vertex of vs standing for it. */
  ghost predicate Covered(vs: set<Vertex>, ds: seq<Decl>, data: map<string, seq<Resource>>,
                          rules: seq<CollectorResConfig>, noop: bool, matches: MatchFn) {
    && (forall d :: d in ds && !IsExported(d.res.name) ==>
          exists v :: v in vs && Stands(v, WithNoop(d.res, noop), matches))
    && (forall r, j :: r in Stored(data, rules) && 0 <= j < |rules| && Takes(rules[j], r) ==>
          exists v :: v in vs && Stands(v, Retagged(r, rules, j + 1, noop), matches))
  }

  lemma IndexLeft<T>(a: seq<T>, b: seq<T>, m: nat)
    requires m < |a|
    ensures (a + b)[m] == a[m]
  {
  }

  lemma IndexRight<T>(a: seq<T>, b: seq<T>, m: nat)
    requires m < |b|
    ensures (a + b)[|a| + m] == b[m]
  {
  }

  /** Each vertex of a keep list aligned with the declarations and collected resources is accounted for. */
  lemma KeepAccounted(keep: seq<Vertex>, ds: seq<Decl>, got: seq<Resource>, data: map<string, seq<Resource>>,
                      rules: seq<CollectorResConfig>, noop: bool, matches: MatchFn, m: nat)
    requires Collectable(got, rules) == Stored(data, rules) && m < |keep|
    requires Aligned(keep, Locals(ds, noop) + HandedAll(got, rules, noop), matches)
    ensures Accounted(keep[m], ds, data, rules, noop, matches)
  {
    var local, collected := Locals(ds, noop), HandedAll(got, rules, noop);
    var rs := local + collected;
    AlignedAt(keep, rs, matches, m);
    if m < |local| {
      IndexLeft(local, collected, m);
      LocalsMembers(ds, noop, rs[m]);
    } else {
      IndexRight(local, collected, m - |local|);
      var r := HandedAllIn(got, rules, noop, rs[m]);
      var j := HandedIn(r, rules, |rules|, noop, rs[m]);
      assert r in Collectable(got, rules);
    }
  }

  /** Such a keep list has a vertex standing for each unmarked declaration ... */
  lemma KeepHasLocal(keep: seq<Vertex>, ds: seq<Decl>, got: seq<Resource>, rules: seq<CollectorResConfig>,
                     noop: bool, matches: MatchFn, d: Decl)
    returns (v: Vertex)
    requires Aligned(keep, Locals(ds, noop) + HandedAll(got, rules, noop), matches)
    requires d in ds && !IsExported(d.res.name)
    ensures v in keep && Stands(v, WithNoop(d.res, noop), matches)
  {
    var local, collected := Locals(ds, noop), HandedAll(got, rules, noop);
    var rs := local + collected;
    LocalsMembers(ds, noop, WithNoop(d.res, noop));
    var m :| 0 <= m < |local| && local[m] == WithNoop(d.res, noop);
    IndexLeft(local, collected, m);
    AlignedAt(keep, rs, matches, m);
    v := keep[m];
  }

  /** ... and for each collected resource as each rule taking it leaves it. */
  lemma KeepHasHanded(keep: seq<Vertex>, ds: seq<Decl>, got: seq<Resource>, rules: seq<CollectorResConfig>,
                      noop: bool, matches: MatchFn, r: Resource, j: nat)
    returns (v: Vertex)
    requires Aligned(keep, Locals(ds, noop) + HandedAll(got, rules, noop), matches)
    requires r in got && j < |rules| && Takes(rules[j], r)
    ensures v in keep && Stands(v, Retagged(r, rules, j + 1, noop), matches)
  {
    var local, collected := Locals(ds, noop), HandedAll(got, rules, noop);
    var rs := local + collected;
    var x := Retagged(r, rules, j + 1, noop);
    HandedHas(r, rules, |rules|, noop, j);
    HandedAllHas(got, rules, noop, r, x);
    var m :| 0 <= m < |collected| && collected[m] == x;
    IndexRight(local, collected, m);
    AlignedAt(keep, rs, matches, |local| + m);
    v := keep[|local| + m];
  }

  /**
   * A keep list aligned with what the declarations and the collected resources hand to the graph
   * holds only vertices accounted for, and a vertex for each of them.
   */
  lemma PassKeep(keep: seq<Vertex>, ds: seq<Decl>, got: seq<Resource>, data: map<string, seq<Resource>>,
                 rules: seq<CollectorResConfig>, noop: bool, matches: MatchFn)
    requires Collectable(got, rules) == Stored(data, rules)
    requires Aligned(keep, Locals(ds, noop) + HandedAll(got, rules, noop), matches)
    ensures forall v :: v in keep ==> Accounted(v, ds, data, rules, noop, matches)
    ensures Covered((set v | v in keep), ds, data, rules, noop, matches)
  {
    forall v | v in keep ensures Accounted(v, ds, data, rules, noop, matches) {
      var m :| 0 <= m < |keep| && keep[m] == v;
      KeepAccounted(keep, ds, got, data, rules, noop, matches, m);
    }
    var vs := set v | v in keep;
    forall d | d in ds && !IsExported(d.res.name)
      ensures exists v :: v in vs && Stands(v, WithNoop(d.res, noop), matches)
    {
      var v := KeepHasLocal(keep, ds, got, rules, noop, matches, d);
      assert v in vs;
    }
    forall r, j | r in Stored(data, rules) && 0 <= j < |rules| && Takes(rules[j], r)
      ensures exists v :: v in vs && Stands(v, Retagged(r, rules, j + 1, noop), matches)
    {
      assert r in Collectable(got, rules);
      var v := KeepHasHanded(keep, ds, got, rules, noop, matches, r, j);
      assert v in vs;
    }
  }

  /** At most one event of the trace is a store query. */
  ghost predicate OneQuery(t: seq<Event>) {
    forall i, j :: 0 <= i < |t| && 0 <= j < |t| && t[i].Queried? && t[j].Queried? ==> i == j
  }

  /** Events around at most one query that are not queries themselves keep OneQuery. */
  lemma OneQueryOf(a: seq<Event>, q: seq<Event>, b: seq<Event>)
    requires |q| <= 1
    requires forall ev :: ev in a ==> !ev.Queried?
    requires forall ev :: ev in b ==> !ev.Queried?
    ensures OneQuery(a + q + b)
  {
    var t := a + q + b;
    forall i | 0 <= i < |a| ensures !t[i].Queried? {
      assert t[i] == a[i];
    }
    forall i | |a| + |q| <= i < |t| ensures !t[i].Queried? {
      assert t[i] == b[i - |a| - |q|];
    }
  }

  /**
   * The declared walk's initialisations, the query, then collection's: a vertex collection creates
   * matches no vertex of the graph it started from, so none the declared walk created either.
   */
  lemma NoneReinitializedJoin(v1: set<Vertex>, v2: set<Vertex>, a: seq<Event>, q: seq<Event>, b: seq<Event>,
                              matches: MatchFn)
    requires NoneReinitialized(a, matches) && NoneReinitialized(b, matches)
    requires forall ev :: ev in a ==> ev.Initialized? && ev.v in v1
    requires forall ev :: ev in q ==> ev.Queried?
    requires forall ev :: ev in b ==> ev.Initialized? && ev.v in v2 && ev.v !in v1
    requires NoneRecreated(v2, v1, matches)
    ensures NoneReinitialized(a + q + b, matches)
  {
    var t := a + q + b;
    forall i, j | 0 <= i < j < |t| ensures Apart(t[i], t[j], matches) {
      if j < |a| {
        assert t[i] == a[i] && t[j] == a[j];
        assert Apart(a[i], a[j], matches);
      } else if j < |a| + |q| {
        assert t[j] == q[j - |a|] && q[j - |a|] in q;
      } else if i < |a| {
        assert t[i] == a[i] && a[i] in a;
        assert t[j] == b[j - |a| - |q|] && b[j - |a| - |q|] in b;
      } else if i < |a| + |q| {
        assert t[i] == q[i - |a|] && q[i - |a|] in q;
      } else {
        assert t[i] == b[i - |a| - |q|] && t[j] == b[j - |a| - |q|];
        assert Apart(b[i - |a| - |q|], b[j - |a| - |q|], matches);
      }
    }
  }

  /** Pruning initialises nothing, so it keeps NoneReinitialized. */
  lemma NoneReinitializedPrune(t: seq<Event>, removed: seq<Vertex>, matches: MatchFn)
    requires Distinct(removed) && NoneReinitialized(t, matches)
    ensures NoneReinitialized(t + PruneLog(removed), matches)
  {
    PruneLogFacts(removed);
    var t' := t + PruneLog(removed);
    forall i, j | 0 <= i < j < |t'| ensures Apart(t'[i], t'[j], matches) {
      if j < |t| {
        assert t'[i] == t[i] && t'[j] == t[j];
        assert Apart(t[i], t[j], matches);
      } else {
        assert t'[j] in PruneLog(removed);
      }
    }
  }

  /** The two walks together: the declared entries, overwritten or extended by collected ones. */
  lemma GatherReuse(v0: set<Vertex>, v1: set<Vertex>, v2: set<Vertex>, lookup1: Lookup, lookup: Lookup,
                    ds: seq<Decl>, rs: seq<Resource>, data: map<string, seq<Resource>>,
                    rules: seq<CollectorResConfig>, noop: bool, matches: MatchFn)
    requires DeclReuse(v1, v0, lookup1, ds, noop, matches) && CollReuse(v2, v1, lookup1, lookup, rs, rules, noop, matches)
    requires v0 <= v1
    requires Collectable(rs, rules) == Stored(data, rules)
    ensures NoneRecreated(v2, v0, matches)
    ensures PassTargets(lookup, ds, data, rules, noop, matches)
  {
    forall k, n | k in lookup && n in lookup[k]
      ensures DeclaredTarget(lookup[k][n], k, n, ds, noop, matches) || StoredTarget(lookup[k][n], k, n, data, rules, noop, matches)
    {
      if !(k in lookup1 && n in lookup1[k] && lookup[k][n] == lookup1[k][n]) {
        var r, r' :| r in rs && r.kind in RuleKinds(rules) && r.kind == k && r.name == n
          && CollectedAs(r', r, rules, noop) && Stands(lookup[k][n], r', matches);
        assert r in Collectable(rs, rules);
      }
    }
  }

  /** v stands for a declaration or a stored resource of the kind and name an edge end names. */
  ghost predicate Names(v: Vertex, end: VertexConfig, ds: seq<Decl>, data: map<string, seq<Resource>>,
                        rules: seq<CollectorResConfig>, noop: bool, matches: MatchFn) {
    var k := FirstToUpper(end.kind);
    DeclaredTarget(v, k, end.name, ds, noop, matches) || StoredTarget(v, k, end.name, data, rules, noop, matches)
  }

  /** e carries the label of the declared edge ec and joins vertices standing for what ec names. */
  ghost predicate Joins(e: Edge, ec: EdgeConfig, ds: seq<Decl>, data: map<string, seq<Resource>>,
                        rules: seq<CollectorResConfig>, noop: bool, matches: MatchFn) {
    && e.name == ec.name
    && Names(e.from, ec.from, ds, data, rules, noop, matches)
    && Names(e.to, ec.to, ds, data, rules, noop, matches)
  }

  /** Every resolved edge joins vertices standing for the resources its declaration names. */
  lemma ResolvedTargets(lookup: Lookup, es: seq<EdgeConfig>, ds: seq<Decl>, data: map<string, seq<Resource>>,
                        rules: seq<CollectorResConfig>, noop: bool, matches: MatchFn)
    requires PassTargets(lookup, ds, data, rules, noop, matches)
    ensures forall e :: e in ResolvedEdges(lookup, es) ==>
      exists ec :: ec in es && Joins(e, ec, ds, data, rules, noop, matches)
  {
    forall e | e in ResolvedEdges(lookup, es)
      ensures exists ec :: ec in es && Joins(e, ec, ds, data, rules, noop, matches)
    {
      var ec :| ec in es && Resolve(lookup, ec).Some? && Resolve(lookup, ec).value == e;
      ResolvedJoins(lookup, ec, ds, data, rules, noop, matches);
    }
  }

  lemma ResolvedJoins(lookup: Lookup, ec: EdgeConfig, ds: seq<Decl>, data: map<string, seq<Resource>>,
                      rules: seq<CollectorResConfig>, noop: bool, matches: MatchFn)
    requires PassTargets(lookup, ds, data, rules, noop, matches) && Resolve(lookup, ec).Some?
    ensures Joins(Resolve(lookup, ec).value, ec, ds, data, rules, noop, matches)
  {
    var fk, tk := FirstToUpper(ec.from.kind), FirstToUpper(ec.to.kind);
    assert fk in lookup && ec.from.name in lookup[fk];
    assert tk in lookup && ec.to.name in lookup[tk];
  }

  /** A subset of the vertices of a pass still re-creates nothing. */
  lemma NoneRecreatedKept(vs: set<Vertex>, start: set<Vertex>, keep: seq<Vertex>, matches: MatchFn)
    requires NoneRecreated(vs, start, matches) && forall v :: v in keep ==> v in vs
    ensures NoneRecreated((set v | v in keep), start, matches)
  {
  }

  /** The vertices of the graph a pass starts from; none when there is no graph yet. */
  ghost function StartVertices(g: Graph?): set<Vertex>
    reads g
  {
    if g == null then {} else g.vertices
  }

  /** The edges of the graph a pass starts from; none when there is no graph yet. */
  ghost function StartEdges(g: Graph?): set<Edge>
    reads g
  {
    if g == null then {} else g.edges
  }

  /** The edges whose two ends are both kept. */
  ghost function KeptEdges(es: set<Edge>, keep: seq<Vertex>): set<Edge> {
    set e | e in es && e.from in keep && e.to in keep
  }

  /** The store read for collected kinds yields exactly the stored resources of those kinds. */
  lemma CollectedIsStored(data: map<string, seq<Resource>>, rules: seq<CollectorResConfig>,
                          kinds: seq<string>, rs: seq<Resource>)
    requires forall k :: k in kinds <==> k in RuleKinds(rules)
    requires forall r :: r in rs <==> exists h :: h in data && r in data[h] && Store.Selected([], kinds, h, r)
    ensures Collectable(rs, rules) == Stored(data, rules)
  {
    forall r | r in Stored(data, rules) ensures r in rs {
      var h :| h in data && r in data[h] && r.kind in RuleKinds(rules);
      assert Store.Selected([], kinds, h, r);
    }
  }

  /** Without collector rules nothing is collected and nothing stored counts. */
  lemma NothingCollected(data: map<string, seq<Resource>>, rules: seq<CollectorResConfig>, rs: seq<Resource>)
    requires rules == []
    ensures Collectable(rs, rules) == {} && Stored(data, rules) == {}
  {
    assert RuleKinds(rules) == {};
  }

  /** The bookkeeping of the declared resources is a valid start for collection. */
  lemma Restart(vs: set<Vertex>, before: set<Vertex>, lookup: Lookup, keep: seq<Vertex>, inits: seq<Event>)
    requires Tracked(vs, before, lookup, keep, inits)
    ensures Tracked(vs, vs, lookup, keep, [])
  {
  }

  /** A collected vertex's resource comes from the store when the read returned what is stored. */
  lemma FromStoreOf(r': Resource, rs: seq<Resource>, data: map<string, seq<Resource>>,
                    rules: seq<CollectorResConfig>, noop: bool)
    requires FromCollected(r', rs, rules, noop) && Collectable(rs, rules) == Stored(data, rules)
    ensures FromStore(r', data, rules, noop)
  {
    var r :| r in rs && r.kind in RuleKinds(rules) && CollectedAs(r', r, rules, noop);
    assert r in Collectable(rs, rules);
  }

  /** Every vertex added by either stage of a pass is kept, so pruning removes only old vertices. */
  lemma NewAreKept(v0: set<Vertex>, v1: set<Vertex>, v2: set<Vertex>,
                   lookup1: Lookup, keep1: seq<Vertex>, inits1: seq<Event>,
                   lookup2: Lookup, keep2: seq<Vertex>, inits2: seq<Event>)
    requires Tracked(v1, v0, lookup1, keep1, inits1) && Tracked(v2, v1, lookup2, keep2, inits2)
    requires |keep1| <= |keep2| && keep2[..|keep1|] == keep1
    ensures v0 <= v2
    ensures forall v :: v in v2 && v !in v0 ==> v in keep2
    ensures (set v | v in v2 && v in keep2) == set v | v in keep2
  {
    forall v | v in v2 && v !in v0 ensures v in keep2 {
      if v in v1 {
        var i :| 0 <= i < |keep1| && keep1[i] == v;
        assert keep2[i] == v;
      }
    }
  }

  /** Events that only initialise vertices or query the store. */
  ghost predicate BeforePruning(t: seq<Event>) {
    forall ev :: ev in t ==> ev.Initialized? || ev.Queried?
  }

  lemma NothingDeleted(t: seq<Event>)
    requires BeforePruning(t)
    ensures ExitBeforeDelete(t)
  {
    forall i | 0 <= i < |t| ensures !t[i].Deleted? {
      assert t[i] in t;
    }
  }

  /**
   * The trace up to the end of collection: the initialisations of declared resources, the store
   * query if there was one, and the initialisations of collected resources. Each vertex is
   * initialised at most once, and exactly the vertices added to the graph are.
   */
  lemma GatherTrace(v0: set<Vertex>, v1: set<Vertex>, v2: set<Vertex>,
                    lookup1: Lookup, keep1: seq<Vertex>, inits1: seq<Event>, queried: seq<Event>,
                    lookup2: Lookup, keep2: seq<Vertex>, inits2: seq<Event>, matches: MatchFn)
    requires Tracked(v1, v0, lookup1, keep1, inits1) && Tracked(v2, v1, lookup2, keep2, inits2)
    requires |queried| <= 1 && forall ev :: ev in queried ==> ev.Queried?
    requires NoneReinitialized(inits1, matches) && NoneReinitialized(inits2, matches)
    requires NoneRecreated(v2, v1, matches)
    ensures var t := inits1 + queried + inits2;
      && Distinct(t) && BeforePruning(t)
      && (forall v :: Initialized(v) in t <==> v in v2 && v !in v0)
      && (forall ev :: ev in t && ev.Queried? ==> ev in queried)
      && (forall ev :: ev in queried ==> ev in t)
      && OneQuery(t)
      && NoneReinitialized(t, matches)
  {
    DistinctConcat(inits1, queried);
    DistinctConcat(inits1 + queried, inits2);
    OneQueryOf(inits1, queried, inits2);
    NoneReinitializedJoin(v1, v2, inits1, queried, inits2, matches);
  }

  /**
   * Pruning appends, for each removed vertex in turn, its exit and its deletion to a trace that
   * so far only initialised vertices and queried the store. vs is the graph before pruning, whose
   * vertices are those of the starting graph and the added ones, all of them kept; vs' is the
   * graph after pruning.
   */
  lemma PruneTrace(t: seq<Event>, removed: seq<Vertex>, start: set<Vertex>, vs: set<Vertex>, vs': set<Vertex>,
                   keep: seq<Vertex>)
    requires Distinct(t) && BeforePruning(t) && Distinct(removed) && OneQuery(t)
    requires start <= vs && (forall v :: v in keep ==> v in vs)
    requires forall v :: v in vs && v !in start ==> v in keep
    requires forall v :: Initialized(v) in t <==> v in vs && v !in start
    requires forall v :: v in removed <==> v in vs && v !in keep
    requires vs' == set v | v in vs && v in keep
    ensures var t' := t + PruneLog(removed);
      && Distinct(t') && ExitBeforeDelete(t')
      && (forall v :: v in start && v !in keep <==> ExitSent(v) in t')
      && (forall v :: v in start && v !in keep <==> Deleted(v) in t')
      && (forall v :: Initialized(v) in t' <==> v in vs' && v !in start)
      && (forall ev :: ev in t' && ev.Queried? ==> ev in t)
      && ((exists ev :: ev in t' && ev.Queried?) <==> exists ev :: ev in t && ev.Queried?)
      && OneQuery(t')
      && vs' == set v | v in keep
  {
    PruneLogFacts(removed);
    DistinctConcat(t, PruneLog(removed));
    ExitBeforeDeleteConcat(t, PruneLog(removed));
    var t' := t + PruneLog(removed);
    forall i | |t| <= i < |t'| ensures !t'[i].Queried? {
      assert t'[i] in PruneLog(removed);
    }
    forall i | 0 <= i < |t| ensures t'[i] == t[i] {
    }
  }

  /** A trace whose queries are exactly those of queried has one exactly when queried is not empty. */
  lemma QueriedIn(t: seq<Event>, queried: seq<Event>)
    requires forall ev :: ev in queried ==> ev.Queried?
    requires forall ev :: ev in t && ev.Queried? ==> ev in queried
    requires forall ev :: ev in queried ==> ev in t
    ensures queried != [] <==> exists ev :: ev in t && ev.Queried?
  {
    if queried != [] {
      assert queried[0] in t;
    }
  }

  /**
   * The one store query of a pass, across all hosts, for the kinds the collector rules name; it is
   * made only when there are rules. Without rules the exported batch is what collection walks,
   * and no rule takes any of it.
   */
  method Query(store: Store, rules: seq<CollectorResConfig>, exports: seq<Resource>)
    returns (ok: bool, queried: seq<Event>, resourceList: seq<Resource>)
    ensures |queried| <= 1 && (queried != [] <==> |rules| > 0)
    ensures forall ev :: ev in queried ==> ev.Queried? && forall k :: k in ev.kinds <==> k in RuleKinds(rules)
    ensures !ok ==> |rules| > 0
    ensures ok ==> Collectable(resourceList, rules) == Stored(store.data, rules)
  {
    var kinds := KindFilter(rules);
    resourceList := exports;
    queried := [];
    ok := true;
    if |kinds| > 0 {
      queried := [Queried(kinds)];
      ok, resourceList := store.GetResources([], kinds);
      if ok {
        CollectedIsStored(store.data, rules, kinds, resourceList);
      }
    } else {
      NothingCollected(store.data, rules, resourceList);
    }
  }

  /**
   * The part of a pass up to the end of collection, on a fresh copy of the running graph: the
   * declared resources, the export to the store, the one store query and the collected resources.
   */
  method Gather(graph: Graph, c: GraphConfig, store: Store, noop: bool, matches: MatchFn)
    returns (err: Option<ConfigError>, trace: seq<Event>, lookup: Lookup, keep: seq<Vertex>, ghost got: seq<Resource>)
    requires graph.Valid() && c.hostname != ""
    modifies graph, store
    ensures graph.Valid() && graph.name == old(graph.name) && graph.edges == old(graph.edges)
    ensures err == None || err == Some(ExportFailed) || err == Some(CollectFailed)
    ensures err == Some(ExportFailed) ==> store.data == old(store.data) && forall ev :: ev in trace ==> ev.Initialized?
    ensures err != Some(ExportFailed) ==> store.data == old(store.data)[c.hostname := ExportList(c, noop)]
    ensures err == Some(CollectFailed) ==> |c.collector| > 0
    ensures Distinct(trace) && BeforePruning(trace) && OneQuery(trace)
    ensures NoneReinitialized(trace, matches)
    ensures forall ev :: ev in trace && ev.Queried? ==>
      |c.collector| > 0 && forall k :: k in ev.kinds <==> k in RuleKinds(c.collector)
    ensures err == None ==>
      && (|c.collector| > 0 <==> exists ev :: ev in trace && ev.Queried?)
      && ShapeOf(lookup) == ExpectedShape(c, store.data)
      && PassTargets(lookup, DeclaredIn(c), store.data, c.collector, noop, matches)
      && NoneRecreated(graph.vertices, old(graph.vertices), matches)
      && LookupKept(lookup, keep)
      && Collectable(got, c.collector) == Stored(store.data, c.collector)
      && Aligned(keep, Locals(DeclaredIn(c), noop) + HandedAll(got, c.collector, noop), matches)
      && old(graph.vertices) <= graph.vertices
      && (forall v :: v in keep ==> v in graph.vertices)
      && (forall v :: Initialized(v) in trace <==> v in graph.vertices && v !in old(graph.vertices))
      && (forall v :: v in graph.vertices && v !in old(graph.vertices) ==>
            && v in keep && fresh(v)
            && (FromDeclaration(v.res, DeclaredIn(c), noop) || FromStore(v.res, store.data, c.collector, noop)))
  {
    ghost var v0 := graph.vertices;
    var lookup1, keep1, exports, inits1 := Classify(graph, Fields(c.resources), noop, matches);
    trace := inits1;
    lookup, keep := lookup1, keep1;
    var ok := store.SetResources(c.hostname, exports);
    if !ok {
      OneQueryOf(inits1, [], []);
      assert inits1 + [] + [] == inits1;
      return Some(ExportFailed), trace, lookup, keep, [];
    }
    var queried, resourceList;
    ok, queried, resourceList := Query(store, c.collector, exports);
    if !ok {
      trace := inits1 + queried;
      DistinctConcat(inits1, queried);
      OneQueryOf(inits1, queried, []);
      NoneReinitializedJoin(graph.vertices, graph.vertices, inits1, queried, [], matches);
      assert inits1 + queried + [] == trace;
      return Some(CollectFailed), trace, lookup, keep, [];
    }
    ghost var v1 := graph.vertices;
    Restart(v1, v0, lookup1, keep1, inits1);
    var inits2;
    ghost var added;
    lookup, keep, inits2, added := Collect(graph, resourceList, c.collector, noop, matches, lookup1, keep1);
    got := resourceList;
    AlignedAppend(keep1, Locals(DeclaredIn(c), noop), added, HandedAll(got, c.collector, noop), matches);
    assert keep[..|keep1|] == keep1;
    trace := inits1 + queried + inits2;
    NewAreKept(v0, v1, graph.vertices, lookup1, keep1, inits1, lookup, keep, inits2);
    GatherTrace(v0, v1, graph.vertices, lookup1, keep1, inits1, queried, lookup, keep, inits2, matches);
    QueriedIn(trace, queried);
    GatherReuse(v0, v1, graph.vertices, lookup1, lookup, DeclaredIn(c), resourceList, store.data, c.collector, noop, matches);
    forall v | v in graph.vertices && v !in v0
      ensures FromDeclaration(v.res, DeclaredIn(c), noop) || FromStore(v.res, store.data, c.collector, noop)
    {
      if v !in v1 {
        FromStoreOf(v.res, resourceList, store.data, c.collector, noop);
      }
    }
    err := None;
  }

  /**
   * The part of a pass after collection: pruning the vertices that were not kept, then the
   * edges. gathered is the trace so far; the ghost parameters carry what is known about it.
   */
  method Settle(graph: Graph, es: seq<EdgeConfig>, lookup: Lookup, keep: seq<Vertex>, gathered: seq<Event>,
                ghost start: set<Vertex>, ghost rules: seq<CollectorResConfig>, ghost queried: bool,
                ghost matches: MatchFn)
    returns (err: Option<EdgeError>, trace: seq<Event>)
    requires graph.Valid() && Distinct(gathered) && BeforePruning(gathered) && OneQuery(gathered)
    requires NoneReinitialized(gathered, matches)
    requires LookupKept(lookup, keep) && start <= graph.vertices && (forall v :: v in keep ==> v in graph.vertices)
    requires forall v :: Initialized(v) in gathered <==> v in graph.vertices && v !in start
    requires forall v :: v in graph.vertices && v !in start ==> v in keep
    requires forall ev :: ev in gathered && ev.Queried? ==>
      |rules| > 0 && forall k :: k in ev.kinds <==> k in RuleKinds(rules)
    requires queried <==> exists ev :: ev in gathered && ev.Queried?
    modifies graph
    ensures graph.Valid() && graph.name == old(graph.name)
    ensures err == FirstEdgeError(ShapeOf(lookup), es)
    ensures Distinct(trace) && ExitBeforeDelete(trace) && OneQuery(trace)
    ensures NoneReinitialized(trace, matches)
    ensures forall v :: v in start && v !in keep <==> ExitSent(v) in trace
    ensures forall v :: v in start && v !in keep <==> Deleted(v) in trace
    ensures forall ev :: ev in trace && ev.Queried? ==>
      |rules| > 0 && forall k :: k in ev.kinds <==> k in RuleKinds(rules)
    ensures queried <==> exists ev :: ev in trace && ev.Queried?
    ensures err == None ==>
      && graph.vertices == (set v | v in keep)
      && graph.edges == KeptEdges(old(graph.edges), keep) + ResolvedEdges(lookup, es)
      && (forall v :: Initialized(v) in trace <==> v in graph.vertices && v !in start)
  {
    ghost var vs := graph.vertices;
    var removed, events := Prune(graph, keep);
    trace := gathered + events;
    PruneTrace(gathered, removed, start, vs, graph.vertices, keep);
    NoneReinitializedPrune(gathered, removed, matches);
    err := AttachEdges(graph, es, lookup);
  }

  /**
   * Builds the graph a configuration document describes, starting from the graph g that is
   * running (or from nothing): the declared resources become vertices (reusing the vertices of g
   * that match them), the exported ones are written to the store under this host, the collected
   * ones are read back from the store and become vertices too, the vertices of g that were not
   * reused are stopped and removed, and the declared edges join the vertices they name.
   */
  method NewGraphFromConfig(c: GraphConfig, g: Graph?, store: Store, noop: bool, matches: MatchFn)
    returns (result: Result<Graph, ConfigError>, trace: seq<Event>, ghost lookup: Lookup, ghost keep: seq<Vertex>,
             ghost start: set<Vertex>, ghost got: seq<Resource>)
    requires g != null ==> g.Valid()
    modifies store
    ensures start == old(StartVertices(g))
    ensures result == Failure(EmptyHostname) <==> c.hostname == ""
    ensures c.hostname == "" ==> trace == [] && store.data == old(store.data)
    ensures result == Failure(ExportFailed) ==>
      store.data == old(store.data) && forall ev :: ev in trace ==> ev.Initialized?
    ensures c.hostname != "" && result != Failure(ExportFailed) ==>
      store.data == old(store.data)[c.hostname := ExportList(c, noop)]
    ensures result == Failure(CollectFailed) ==> |c.collector| > 0
    ensures forall ev :: ev in trace && ev.Queried? ==>
      |c.collector| > 0 && forall k :: k in ev.kinds <==> k in RuleKinds(c.collector)
    ensures Distinct(trace) && ExitBeforeDelete(trace) && OneQuery(trace)
    ensures NoneReinitialized(trace, matches)
    ensures result.Success? || result.error.EdgeFailed? ==>
      && ShapeOf(lookup) == ExpectedShape(c, store.data)
      && PassTargets(lookup, DeclaredIn(c), store.data, c.collector, noop, matches)
      && (result.Success? <==> FirstEdgeError(ExpectedShape(c, store.data), c.edges) == None)
      && (result.Failure? ==> Some(result.error.e) == FirstEdgeError(ExpectedShape(c, store.data), c.edges))
      && (|c.collector| > 0 <==> exists ev :: ev in trace && ev.Queried?)
      && (forall v :: v in start && v !in keep <==> ExitSent(v) in trace)
      && (forall v :: v in start && v !in keep <==> Deleted(v) in trace)
      && Collectable(got, c.collector) == Stored(store.data, c.collector)
      && Aligned(keep, Locals(DeclaredIn(c), noop) + HandedAll(got, c.collector, noop), matches)
      && (forall v :: v in start && !Accounted(v, DeclaredIn(c), store.data, c.collector, noop, matches) ==>
            ExitSent(v) in trace && Deleted(v) in trace)
    ensures result.Failure? && !result.error.EdgeFailed? ==> BeforePruning(trace)
    ensures result.Success? ==>
      && (forall v :: v in result.value.vertices ==> Accounted(v, DeclaredIn(c), store.data, c.collector, noop, matches))
      && Covered(result.value.vertices, DeclaredIn(c), store.data, c.collector, noop, matches)
      && fresh(result.value) && result.value.Valid()
      && result.value.name == c.graph
      && result.value.vertices == (set v | v in keep)
      && result.value.edges == KeptEdges(old(StartEdges(g)), keep) + ResolvedEdges(lookup, c.edges)
      && (forall v :: Initialized(v) in trace <==> v in result.value.vertices && v !in start)
      && NoneRecreated(result.value.vertices, start, matches)
      && (forall e :: e in ResolvedEdges(lookup, c.edges) ==>
            exists ec :: ec in c.edges && Joins(e, ec, DeclaredIn(c), store.data, c.collector, noop, matches))
      && (forall v :: v in result.value.vertices && v !in start ==>
            fresh(v) && (FromDeclaration(v.res, DeclaredIn(c), noop) || FromStore(v.res, store.data, c.collector, noop)))
  {
    start := old(StartVertices(g));
    if c.hostname == "" {
      return Failure(EmptyHostname), [], map[], [], start, [];
    }
    var graph: Graph;
    if g == null {
      graph := new Graph("Graph");
    } else {
      graph := g.Copy();
    }
    graph.SetName(c.graph);
    assert graph.vertices == start && graph.edges == old(StartEdges(g));
    var err, gathered, table, kept;
    err, gathered, table, kept, got := Gather(graph, c, store, noop, matches);
    trace, lookup, keep := gathered, table, kept;
    if err.Some? {
      NothingDeleted(trace);
      return Failure(err.value), trace, lookup, keep, start, got;
    }
    PassKeep(kept, DeclaredIn(c), got, store.data, c.collector, noop, matches);
    NoneRecreatedKept(graph.vertices, start, kept, matches);
    ResolvedTargets(table, c.edges, DeclaredIn(c), store.data, c.collector, noop, matches);
    var edgeErr;
    edgeErr, trace := Settle(graph, c.edges, table, kept, gathered, start, c.collector, |c.collector| > 0, matches);
    if edgeErr.Some? {
      return Failure(EdgeFailed(edgeErr.value)), trace, lookup, keep, start, got;
    }
    result := Success(graph);
  }
}
