/** A small concrete kernel and the runs on which the guarantees fail without their
    conditions: a phantom import and a reordered edge after an assertion, a stale call link
    and a lost data-flow link after a compaction, a stale call link after a restart, an
    import link lost to the cold tier. */
module Witness {
  import opened Ops
  import opened Memory
  import opened Linking
  import opened Replay
  import opened Snapshot
  import opened Chain
  import opened Session
  import opened Timeline

  // ---------------------------------------------------------------- failure propagation

  const DECAY := 0.8
  const FANOUT := 6.0
  const FLOOR := 0.2
  const SEVERITY := 0.95

  type Relevance = map<NodeId, real>

  function At(scores: Relevance, id: NodeId): real {
    if id in scores then scores[id] else 0.0
  }

  function Clamp(x: real): real {
    if x < 0.0 then 0.0 else if x > 1.0 then 1.0 else x
  }

  function DecayTo(depth: nat): real {
    if depth == 0 then 1.0 else DECAY * DecayTo(depth - 1)
  }

  function Damping(degree: nat): real {
    if degree as real <= FANOUT then 1.0 else FANOUT / degree as real
  }

  function Pressure(scores: Relevance, origin: NodeId, depth: nat, degree: nat): real {
    At(scores, origin) * DecayTo(depth) * Damping(degree)
  }

  /** The out-edges of `origin`, in insertion order. */
  function OutEdges(edges: Edges, origin: NodeId): (r: Edges)
    ensures |r| <= |edges|
  {
    if edges == [] then []
    else if edges[0].edge.source == origin then [edges[0]] + OutEdges(edges[1..], origin)
    else OutEdges(edges[1..], origin)
  }

  /** `propagate_failure`, weights in hundredths: press each target in turn, relaying at once
      from whatever it has accumulated so far. */
  function Propagate(edges: Edges, nodes: set<NodeId>, scores: Relevance, origin: NodeId, depth: nat, max: nat): Relevance
    decreases if depth > max then 0 else max + 1 - depth, |edges| + 1
  {
    if depth > max then scores
    else
      var targets := OutEdges(edges, origin);
      Press(edges, nodes, scores, targets, Pressure(scores, origin, depth, |targets|), depth, max)
  }

  function Press(edges: Edges, nodes: set<NodeId>, scores: Relevance, targets: Edges, pressure: real, depth: nat, max: nat): Relevance
    requires depth <= max && |targets| <= |edges|
    decreases max + 1 - depth, |targets|
  {
    if targets == [] then scores
    else
      var target, push := targets[0].edge.target, pressure * (targets[0].weight as real / 100.0);
      var hit := if target in nodes then scores[target := Clamp(At(scores, target) + push)] else scores;
      var relayed := if push > FLOOR then Propagate(edges, nodes, hit, target, depth + 1, max) else hit;
      Press(edges, nodes, relayed, targets[1..], pressure, depth, max)
  }

  function ToyFailure(attrs: Attrs, nodes: set<NodeId>, edges: Edges, node: NodeId, depth: nat): Attrs {
    if node !in nodes then attrs
    else attrs.(relevance := Propagate(edges, nodes, attrs.relevance[node := SEVERITY], node, 0, depth))
  }

  // ---------------------------------------------------------------- the kernel

  const TOY_WEIGHTS := Weights(0, 0, 0, 0, 0, 0, 0, 0, false)
  const TOY_ATTRS := Attrs(map[], TOY_WEIGHTS, [])
  const NO_FACTS := Facts([], [], [])

  /** A file holding one item: its file node, the item's node, and the edge between them. */
  function OneItem(path: Path, item: NodeId, weight: Bits, facts: Facts, constants: set<NodeId>): Parsed {
    Parsed({FileNode(path), item}, [Link(Edge(Structure, FileNode(path), item), weight)], facts, constants)
  }

  function ToyParse(path: Path, text: string): Parsed {
    if text == "" then Parsed({FileNode(path)}, [], NO_FACTS, {})
    else if text == "use x" then OneItem(path, UseNode(path, "x"), 50, NO_FACTS, {})
    else if text == "fn g" then OneItem(path, SymbolNode(path, "g"), 60, NO_FACTS, {})
    else if text == "call g" then OneItem(path, SymbolNode(path, "run"), 60, Facts([("run", "g")], [], []), {})
    else if text == "const X" then OneItem(path, SymbolNode(path, "X"), 60, NO_FACTS, {SymbolNode(path, "X")})
    else OneItem(path, SymbolNode(path, "reader"), 60, Facts([], [("reader", "X")], []), {})
  }

  const IMPORT := Link(Edge(Import, FileNode("a"), FileNode("x")), 85)
  const CALL := Link(Edge(Call, SymbolNode("c", "run"), SymbolNode("x", "g")), 75)
  const FLOW := Link(Edge(Flow, SymbolNode("r", "reader"), SymbolNode("d", "X")), 60)

  /** The crate root `lib` contains the module `x` and may also import it: two links between
      the same two files. */
  const LIB_USES := Link(Edge(Import, FileNode("lib"), FileNode("x")), 85)
  const LIB_HOLDS := Link(Edge(Hierarchy, FileNode("lib"), FileNode("x")), 85)

  function ToyUses(nodes: set<NodeId>): Edges {
    if FileNode("lib") in nodes && UseNode("lib", "x") in nodes && FileNode("x") in nodes then [LIB_USES] else []
  }

  function ToyHolds(nodes: set<NodeId>): Edges {
    if FileNode("lib") in nodes && FileNode("x") in nodes then [LIB_HOLDS] else []
  }

  /** Importers to the imported file `x`, then the module hierarchy. */
  function ToyImports(nodes: set<NodeId>): Edges {
    (if FileNode("a") in nodes && UseNode("a", "x") in nodes && FileNode("x") in nodes then [IMPORT] else [])
    + (ToyUses(nodes) + ToyHolds(nodes))
  }

  /** Resolve-uniquely-or-skip: `c`'s call links to `x`'s `g` while `b` defines none. */
  function ToyCalls(nodes: set<NodeId>, index: Index): Edges {
    if HasCalls(index, "c") && SymbolNode("c", "run") in nodes
       && SymbolNode("x", "g") in nodes && SymbolNode("b", "g") !in nodes
    then [CALL] else []
  }

  /** `r`'s read links to `d`'s `X` while that is marked as a constant. */
  function ToyFlows(nodes: set<NodeId>, index: Index): Edges {
    if HasReads(index, "r") && SymbolNode("r", "reader") in nodes
       && SymbolNode("d", "X") in nodes && SymbolNode("d", "X") in index.constants
    then [FLOW] else []
  }

  function ToyReferences(nodes: set<NodeId>, index: Index): Edges {
    ToyCalls(nodes, index) + ToyFlows(nodes, index)
  }

  // ---------------------------------------------------------------- the cold tier

  predicate Incident(l: Link, id: NodeId) {
    l.edge.source == id || l.edge.target == id
  }

  function Archived(edges: Edges, id: NodeId): Edges {
    if edges == [] then []
    else (if Incident(edges[0], id) then [edges[0]] else []) + Archived(edges[1..], id)
  }

  function Detached(edges: Edges, id: NodeId): Edges {
    if edges == [] then []
    else (if Incident(edges[0], id) then [] else [edges[0]]) + Detached(edges[1..], id)
  }

  /** `demote`: the node leaves with the edges it has at that moment. */
  function Demoted(g: Graph, id: NodeId): Graph {
    g.(nodes := g.nodes - {id}, edges := Detached(g.edges, id), cold := g.cold[id := Archived(g.edges, id)])
  }

  /** `page_in` hands every archived edge back: to the graph if both ends are resident, else
      to the end that is still cold. */
  function Rehomed(g: Graph, archived: Edges): Graph
    decreases |archived|
  {
    if archived == [] then g
    else
      var l := archived[0];
      var h :=
        if l.edge.source in g.nodes && l.edge.target in g.nodes then g.(edges := Add(g.edges, l))
        else if l.edge.source in g.cold then g.(cold := g.cold[l.edge.source := Add(g.cold[l.edge.source], l)])
        else if l.edge.target in g.cold then g.(cold := g.cold[l.edge.target := Add(g.cold[l.edge.target], l)])
        else g;
      Rehomed(h, archived[1..])
  }

  function PagedIn(g: Graph, id: NodeId): Graph {
    if id !in g.cold then g
    else Rehomed(g.(nodes := g.nodes + {id}, cold := g.cold - {id}), g.cold[id])
  }

  /** Scores are equal here, so the first file id goes; a node just paged in is spared. */
  function Victim(nodes: set<NodeId>, spared: Option<NodeId>): NodeId {
    if FileNode("a") in nodes && spared != Some(FileNode("a")) then FileNode("a") else FileNode("b")
  }

  function Trimmed(g: Graph, cap: nat, spared: Option<NodeId>): Graph {
    if |g.nodes| > cap then Demoted(g, Victim(g.nodes, spared)) else g
  }

  function ToyPage(cap: nat, op: Op, next: Memory): Graph {
    var g := Graph(next.nodes, next.edges, next.cold, next.attrs);
    if op.Ingest? then Trimmed(g, cap, None)
    else if op.Recalled? && op.recall.Around? then Trimmed(PagedIn(g, op.recall.node), cap, Some(op.recall.node))
    else g
  }

  function ToyWith(cap: nat): Kernel {
    Kernel(
      TOY_ATTRS, s => s, ToyParse, ToyImports, ToyReferences, w => w,
      (a, ns, p, s) => a, (a, ns, e, w) => a, ToyFailure, (a, ns, es, n) => a,
      cap, (m, op, next) => ToyPage(cap, op, next))
  }

  const DEFAULT_CAP := 5000

  function Toy(): Kernel {
    ToyWith(DEFAULT_CAP)
  }

  /** Paging aside, the cap makes no difference. */
  lemma {:induction false} CapIsForPaging(cap: nat, m: Memory, op: Op)
    ensures Acted(ToyWith(cap), m, op) == Acted(Toy(), m, op) && Resolve(ToyWith(cap), m) == Resolve(Toy(), m)
    ensures New(ToyWith(cap)) == New(Toy())
  {
    hide ToyParse, ToyImports, ToyReferences, ToyFailure, AddAll, EvictedEdges, Retained;
    if op.PageFault? { SignalAllAlike(cap, m, op.files, op.depth); }
  }

  lemma {:induction false} SignalAllAlike(cap: nat, m: Memory, files: seq<Path>, depth: nat)
    ensures SignalAll(ToyWith(cap), m, files, depth) == SignalAll(Toy(), m, files, depth)
  {
    hide ToyFailure;
    if files != [] { SignalAllAlike(cap, m, files[..|files| - 1], depth); }
  }

  lemma {:induction false} ToyReadsLinkable(ns: set<NodeId>, ix: Index)
    ensures ToyImports(ns) == ToyImports(LinkableIn(ns))
    ensures ToyReferences(ns, ix) == ToyReferences(LinkableIn(ns), ix)
  {
    hide HasCalls, HasReads;
    assert forall id | Linkable(id) :: id in ns <==> id in LinkableIn(ns);
  }

  lemma {:induction false} ToyLinksAreOwned(ns: set<NodeId>, ix: Index, l: Link)
    requires l in ToyReferences(ns, ix)
    ensures (l.edge.kind == Call || l.edge.kind == Flow) && Owned(l.edge, ix)
  {
  }

  lemma {:induction false} ToyHasNoDuplicates(ns: set<NodeId>, ix: Index)
    ensures DuplicateFree(ToyImports(ns)) && DuplicateFree(ToyReferences(ns, ix))
  {
  }

  lemma {:induction false} ToyIsWellFormed(cap: nat)
    ensures WellFormed(ToyWith(cap)) && Settled(New(ToyWith(cap)))
  {
    hide Propagate, ToyImports, ToyReferences, ToyFailure, Owned, LinkableIn, DuplicateFree;
    var k := ToyWith(cap);
    forall p, s, l | l in k.parse(p, s).edges ensures l.edge.kind == Structure {}
    forall ns ensures k.imports(ns) == k.imports(LinkableIn(ns)) { ToyReadsLinkable(ns, EMPTY_INDEX); }
    forall ns, ix ensures k.references(ns, ix) == k.references(LinkableIn(ns), ix) { ToyReadsLinkable(ns, ix); }
    forall ns, ix, l | l in k.references(ns, ix) ensures (l.edge.kind == Call || l.edge.kind == Flow) && Owned(l.edge, ix) {
      ToyLinksAreOwned(ns, ix, l);
    }
    forall ns ensures DuplicateFree(k.imports(ns)) { ToyHasNoDuplicates(ns, EMPTY_INDEX); }
    forall ns, ix ensures DuplicateFree(k.references(ns, ix)) { ToyHasNoDuplicates(ns, ix); }
    forall ns, l | l in k.imports(ns) ensures l.edge.kind == Import || l.edge.kind == Hierarchy { ToyImportKind(ns, l); }
  }

  lemma {:induction false} DefaultIsWellFormed()
    ensures WellFormed(Toy())
  {
    hide WellFormed, ToyWith;
    ToyIsWellFormed(DEFAULT_CAP);
  }

  lemma {:induction false} ToyImportKind(ns: set<NodeId>, l: Link)
    requires l in ToyImports(ns)
    ensures l.edge.kind == Import || l.edge.kind == Hierarchy
  {
  }

  /** A crate root that imports its own module is linked to it twice, once for each reason. */
  lemma {:induction false} RootIsLinkedTwice()
    ensures ToyImports({FileNode("lib"), UseNode("lib", "x"), FileNode("x")}) == [LIB_USES, LIB_HOLDS]
  {
  }

  // ---------------------------------------------------------------- room

  lemma {:induction false} CountGrows(c: Census, op: Op)
    ensures |Count(Toy(), c, op).nodes| <= |c.nodes| + 2
  {
    hide ToyImports, ToyReferences, ToyFailure;
    match op
    case Ingest(path, source) =>
      var p := ToyParse(path, source);
      assert |p.nodes| <= 2 by { ParsesFew(path, source); }
      var kept := EvictedNodes(c.nodes, path);
      assert kept <= c.nodes;
      SubsetSize(kept, c.nodes);
      assert |kept + p.nodes| <= |kept| + |p.nodes| && |c.nodes + p.nodes| <= |c.nodes| + |p.nodes|;
    case Assert(evidence, claim, _, _) => assert |c.nodes + {evidence, claim}| <= |c.nodes| + |{evidence, claim}|;
    case _ =>
  }

  lemma {:induction false} ParsesFew(path: Path, text: string)
    ensures |ToyParse(path, text).nodes| <= 2
  {
  }

  lemma {:induction false} SubsetSize(a: set<NodeId>, b: set<NodeId>)
    requires a <= b
    ensures |a| <= |b|
  {
    assert b == a + (b - a);
  }

  lemma {:induction false} CountAllGrows(c: Census, ops: seq<Op>)
    ensures |CountAll(Toy(), c, ops).nodes| <= |c.nodes| + 2 * |ops|
  {
    hide Count, Toy;
    if ops != [] {
      CountAllGrows(c, ops[..|ops| - 1]);
      CountGrows(CountAll(Toy(), c, ops[..|ops| - 1]), ops[|ops| - 1]);
    }
  }

  /** The runs below are far from the default cap. */
  lemma {:induction false} SmallLogFits(m: Memory, ops: seq<Op>)
    requires m.cold == map[] && |m.nodes| + 2 * |ops| <= DEFAULT_CAP
    ensures Fits(Toy(), m, ops)
  {
    hide CountAll;
    forall i | 0 <= i <= |ops| ensures |CountAll(Toy(), CensusOf(m), ops[..i]).nodes| <= DEFAULT_CAP {
      CountAllGrows(CensusOf(m), ops[..i]);
    }
  }

  predicate Small(m: Memory) {
    m.cold == map[] && |m.nodes| <= 100
  }

  lemma {:induction false} SmallStep(m: Memory, op: Op)
    requires Small(m)
    ensures Applied(Toy(), m, op) == Acted(Toy(), m, op)
  {
    hide Acted, Count;
    ActedCount(Toy(), m, op);
    CountGrows(CensusOf(m), op);
  }

  lemma {:induction false} IngestStep(m: Memory, path: Path, text: string)
    requires Small(m)
    ensures var next := IngestDeferred(Toy(), m, path, text);
      Applied(Toy(), m, Ingest(path, text)) == next && Eager(Toy(), m, Ingest(path, text)) == Resolve(Toy(), next)
  {
    hide Toy, IngestDeferred, Applied, Relinked;
    SmallStep(m, Ingest(path, text));
  }

  lemma {:induction false} AssertStep(m: Memory, evidence: NodeId, claim: NodeId, supports: bool, weight: Bits)
    requires Small(m)
    ensures var op, belief := Assert(evidence, claim, supports, weight), Link(AssertionEdge(evidence, claim, supports), weight);
      Applied(Toy(), m, op) == Eager(Toy(), m, op) == m.(nodes := m.nodes + {evidence, claim}, edges := Add(m.edges, belief))
  {
    hide Applied, Add, ToyFailure, ToyImports, ToyReferences;
    SmallStep(m, Assert(evidence, claim, supports, weight));
  }

  lemma {:induction false} FailureStep(m: Memory, node: NodeId, depth: nat)
    requires Small(m)
    ensures Applied(Toy(), m, Failure(node, depth)) == Eager(Toy(), m, Failure(node, depth))
         == m.(attrs := ToyFailure(m.attrs, m.nodes, m.edges, node, depth))
  {
    hide Applied, ToyFailure, ToyImports, ToyReferences;
    SmallStep(m, Failure(node, depth));
  }

  lemma {:induction false} ToyLinks(nodes: set<NodeId>, index: Index)
    ensures Links(Toy(), nodes, index) == ToyImports(nodes) + (ToyCalls(nodes, index) + ToyFlows(nodes, index))
  {
    hide ToyImports, ToyCalls, ToyFlows;
  }

  lemma {:induction false} LiveNext(k: Kernel, m: Memory, ops: seq<Op>, i: nat)
    requires i < |ops|
    ensures Live(k, m, ops[..i + 1]) == Eager(k, Live(k, m, ops[..i]), ops[i])
  {
    hide Eager;
    assert ops[..i + 1][..i] == ops[..i];
  }

  lemma {:induction false} ReplayNext(k: Kernel, m: Memory, ops: seq<Op>, i: nat)
    requires i < |ops|
    ensures ApplyAll(k, Deferred(m, false), ops[..i + 1]) == ApplyOp(k, ApplyAll(k, Deferred(m, false), ops[..i]), ops[i])
  {
    hide ApplyOp;
    assert ops[..i + 1][..i] == ops[..i];
  }

  /** Ingesting a file nobody knew, before resolving. */
  lemma {:induction false} NewFile(m: Memory, path: Path, text: string)
    requires path !in m.files
    requires var edges := ToyParse(path, text).edges; edges == [] || (|edges| == 1 && !Has(m.edges, edges[0].edge))
    ensures var p := ToyParse(path, text);
      IngestDeferred(Toy(), m, path, text) == m.(
        files := m.files[path := text], nodes := m.nodes + p.nodes, edges := m.edges + p.edges,
        index := Index(m.index.facts[path := p.facts], m.index.constants + p.constants), stale := true)
  {
    hide ToyParse, ToyFailure, Has;
    AddsOne(m.edges, ToyParse(path, text).edges);
  }

  lemma {:induction false} AddsOne(edges: Edges, more: Edges)
    requires more == [] || (|more| == 1 && !Has(edges, more[0].edge))
    ensures AddAll(edges, more) == edges + more
  {
    hide Has;
    if more == [] {
      assert edges + more == edges;
    } else {
      assert more[..0] == [] && more == [more[0]];
      assert AddAll(edges, more) == Add(AddAll(edges, more[..0]), more[0]);
    }
  }

  /** Pruning a vector none of whose edges is owned. */
  lemma {:induction false} PrunesNothing(edges: Edges, index: Index)
    requires forall l | l in edges :: !Owned(l.edge, index)
    ensures Retained(edges, index) == edges
  {
    RetainedIsKept(edges, index);
    KeptAll(edges, OwnedBy(index));
  }

  lemma {:induction false} NothingToLink(nodes: set<NodeId>, index: Index)
    requires FileNode("a") !in nodes || FileNode("x") !in nodes
    requires FileNode("lib") !in nodes && !HasCalls(index, "c") && !HasReads(index, "r")
    ensures Links(Toy(), nodes, index) == []
  {
    hide Links, HasCalls, HasReads;
    ToyLinks(nodes, index);
  }

  /** An ingest of a new file, resolved. */
  lemma {:induction false} Ingested(m: Memory, path: Path, text: string)
    requires Small(m) && path !in m.files
    requires var edges := ToyParse(path, text).edges; edges == [] || (|edges| == 1 && !Has(m.edges, edges[0].edge))
    ensures var p := ToyParse(path, text);
      var nodes, index := m.nodes + p.nodes, Index(m.index.facts[path := p.facts], m.index.constants + p.constants);
      Eager(Toy(), m, Ingest(path, text)) == m.(
        files := m.files[path := text], nodes := nodes,
        edges := Retained(m.edges + p.edges, index) + Links(Toy(), nodes, index), index := index, stale := false)
  {
    hide Toy, ToyParse, IngestDeferred, Eager, Retained, Links, Has, Small;
    IngestStep(m, path, text);
    NewFile(m, path, text);
  }

  /** What the sources used here parse to. */
  lemma {:induction false} Parses(path: Path)
    ensures ToyParse(path, "fn g") == OneItem(path, SymbolNode(path, "g"), 60, NO_FACTS, {})
    ensures ToyParse(path, "call g") == OneItem(path, SymbolNode(path, "run"), 60, Facts([("run", "g")], [], []), {})
    ensures ToyParse(path, "read X") == OneItem(path, SymbolNode(path, "reader"), 60, Facts([], [("reader", "X")], []), {})
  {
    hide OneItem;
  }

  lemma {:induction false} ParsesOneItem(path: Path, text: string)
    requires text != ""
    ensures var edges := ToyParse(path, text).edges; |edges| == 1 && edges[0].edge.kind == Structure
  {
  }

  /** A first file, parsed. */
  function Parsing(path: Path, text: string, stale: bool): Memory {
    var p := ToyParse(path, text);
    Memory(map[path := text], p.nodes, p.edges, map[], TOY_ATTRS, Index(map[path := p.facts], p.constants), stale)
  }

  lemma {:induction false} FirstIngest(path: Path, text: string)
    requires text != ""
    ensures IngestDeferred(Toy(), New(Toy()), path, text) == Parsing(path, text, true)
  {
    hide ToyParse, ToyFailure, IngestDeferred;
    var p := ToyParse(path, text);
    ParsesOneItem(path, text);
    NewFile(New(Toy()), path, text);
    assert [] + p.edges == p.edges && {} + p.nodes == p.nodes && {} + p.constants == p.constants;
  }

  /** A first file that links nothing: resolving only clears the stale bit. */
  lemma {:induction false} FirstFile(path: Path, text: string)
    requires text != "" && path != "lib"
    requires var p := ToyParse(path, text);
      p.facts == NO_FACTS && FileNode("lib") !in p.nodes && (FileNode("a") !in p.nodes || FileNode("x") !in p.nodes)
    ensures IngestDeferred(Toy(), New(Toy()), path, text) == Parsing(path, text, true)
    ensures Resolve(Toy(), Parsing(path, text, true)) == Parsing(path, text, false)
  {
    hide Toy, ToyParse, IngestDeferred, Links, Retained;
    var p := ToyParse(path, text);
    FirstIngest(path, text);
    ParsesOneItem(path, text);
    var index := Index(map[path := p.facts], p.constants);
    NothingToLink(p.nodes, index);
    PrunesNothing(p.edges, index);
    assert p.edges + [] == p.edges;
  }

  // ---------------------------------------------------------------- phantom import

  const AU := Link(Edge(Structure, FileNode("a"), UseNode("a", "x")), 50)
  const ASSERT_X := Assert(FileNode("x"), OtherNode("claim"), true, 1)
  const PHANTOM_RUN: seq<Op> := [Ingest("a", "use x"), ASSERT_X]
  const CLAIM := Link(Edge(Supports, FileNode("x"), OtherNode("claim")), 1)

  const AFTER_USE := Memory(
    map["a" := "use x"], {FileNode("a"), UseNode("a", "x")}, [AU], map[], TOY_ATTRS, Index(map["a" := NO_FACTS], {}), true)

  lemma {:induction false} IngestsUse()
    ensures var k := Toy();
      && IngestDeferred(k, New(k), "a", "use x") == AFTER_USE
      && Resolve(k, AFTER_USE) == AFTER_USE.(stale := false)
  {
    hide Toy, IngestDeferred, Relinked;
    FirstFile("a", "use x");
  }

  lemma {:induction false} PhantomStates()
    ensures var k := Toy();
      && Live(k, New(k), PHANTOM_RUN) == Eager(k, AFTER_USE.(stale := false), ASSERT_X)
      && Replayed(k, New(k), PHANTOM_RUN) == Resolve(k, Applied(k, AFTER_USE, ASSERT_X))
  {
    hide IngestDeferred, Eager, Applied, Toy, Relinked;
    var k := Toy();
    IngestsUse();
    NewIsSmall();
    IngestStep(New(k), "a", "use x");
    assert PHANTOM_RUN[..0] == [] && PHANTOM_RUN[..2] == PHANTOM_RUN;
    LiveNext(k, New(k), PHANTOM_RUN, 0);
    LiveNext(k, New(k), PHANTOM_RUN, 1);
    ReplayNext(k, New(k), PHANTOM_RUN, 0);
    ReplayNext(k, New(k), PHANTOM_RUN, 1);
  }

  lemma {:induction false} NewIsSmall()
    ensures Small(New(Toy())) && Settled(New(Toy()))
  {
    hide ToyFailure;
  }

  /** Ingest a file that imports `x`, then assert about `file:x`. Live never links them;
      replay resolves after the assertion and does, so it ends with one edge more. */
  lemma {:induction false} AssertionMakesPhantomImport()
    ensures Live(Toy(), New(Toy()), PHANTOM_RUN).edges == [AU, CLAIM]
    ensures Replayed(Toy(), New(Toy()), PHANTOM_RUN).edges == [AU, CLAIM, IMPORT]
  {
    hide Live, Replayed, Toy, Retained, Links, Applied, Eager;
    PhantomStates();
    AssertStep(AFTER_USE, FileNode("x"), OtherNode("claim"), true, 1);
    AssertStep(AFTER_USE.(stale := false), FileNode("x"), OtherNode("claim"), true, 1);
    var next := Applied(Toy(), AFTER_USE, ASSERT_X);
    assert next.edges == [AU, CLAIM] && next.stale && next.index == AFTER_USE.index;
    PhantomLinks();
    PrunesNothing([AU, CLAIM], next.index);
    assert [AU, CLAIM] + [IMPORT] == [AU, CLAIM, IMPORT];
  }

  lemma {:induction false} PhantomLinks()
    ensures Links(Toy(), AFTER_USE.nodes + {FileNode("x"), OtherNode("claim")}, AFTER_USE.index) == [IMPORT]
  {
    hide Links;
    ToyLinks(AFTER_USE.nodes + {FileNode("x"), OtherNode("claim")}, AFTER_USE.index);
  }

  /** The same run costs the session its history: on the next open the consistency guard
      finds one edge too many and restarts the timeline from the snapshot. */
  lemma {:induction false} ReopenErasesHistory(c: Crypto, signer: Option<string>)
    requires Faithful(c)
    ensures var w := World(Toy(), c);
      var s := PerformAll(w, Fresh(w), PHANTOM_RUN);
      && Valid(w, s) && Length(s) == 2
      && Open(w, Save(s), signer).Opened? && Length(Open(w, Save(s), signer).session) == 0
  {
    hide Replayed, Live, Valid, Records, Perform, PerformAll, WellFormed;
    var w := World(Toy(), c);
    var s := PerformAll(w, Fresh(w), PHANTOM_RUN);
    ToyIsWellFormed(DEFAULT_CAP);
    FreshIsValid(w);
    PerformAllKeeps(w, Fresh(w), PHANTOM_RUN, []);
    PerformAllShape(w, Fresh(w), PHANTOM_RUN);
    RebuiltIsReplayed(w, s);
    assert Fresh(w).ops + PHANTOM_RUN == PHANTOM_RUN;
    AssertionMakesPhantomImport();
    RestartRestoresIff(w, s, signer);
  }

  // ---------------------------------------------------------------- edge order

  const XG := Link(Edge(Structure, FileNode("x"), SymbolNode("x", "g")), 60)
  const BELIEF := Link(Edge(Supports, FileNode("a"), FileNode("x")), 100)
  const ASSERT_AX := Assert(FileNode("a"), FileNode("x"), true, 100)
  const ORDER_RUN: seq<Op> := [Ingest("x", "fn g"), Ingest("a", "use x"), ASSERT_AX, Failure(FileNode("a"), 1)]

  const AFTER_G := Memory(
    map["x" := "fn g"], {FileNode("x"), SymbolNode("x", "g")}, [XG], map[], TOY_ATTRS, Index(map["x" := NO_FACTS], {}), true)

  const BOTH_NODES := {FileNode("x"), SymbolNode("x", "g"), FileNode("a"), UseNode("a", "x")}

  const BOTH := Memory(
    map["x" := "fn g", "a" := "use x"], BOTH_NODES, [XG, AU], map[], TOY_ATTRS,
    Index(map["x" := NO_FACTS, "a" := NO_FACTS], {}), true)

  lemma {:induction false} IngestsG()
    ensures var k := Toy();
      && IngestDeferred(k, New(k), "x", "fn g") == AFTER_G
      && Resolve(k, AFTER_G) == AFTER_G.(stale := false)
  {
    hide Toy, IngestDeferred, Relinked;
    FirstFile("x", "fn g");
  }

  lemma {:induction false} IngestsBoth()
    ensures var k := Toy();
      && IngestDeferred(k, AFTER_G, "a", "use x") == BOTH
      && IngestDeferred(k, AFTER_G.(stale := false), "a", "use x") == BOTH
      && Resolve(k, BOTH) == BOTH.(edges := [XG, AU, IMPORT], stale := false)
  {
    hide Toy, IngestDeferred, Retained, Links;
    NewFile(AFTER_G, "a", "use x");
    NewFile(AFTER_G.(stale := false), "a", "use x");
    assert AFTER_G.nodes + ToyParse("a", "use x").nodes == BOTH_NODES;
    BothLinks();
    PrunesNothing([XG, AU], BOTH.index);
    assert [XG, AU] + [IMPORT] == [XG, AU, IMPORT];
  }

  lemma {:induction false} BothLinks()
    ensures Links(Toy(), BOTH_NODES, BOTH.index) == [IMPORT]
  {
    hide Links;
    ToyLinks(BOTH_NODES, BOTH.index);
  }

  const LIVE_ORDER: Edges := [XG, AU, IMPORT, BELIEF]
  const REPLAY_ORDER: Edges := [XG, AU, BELIEF, IMPORT]

  lemma {:induction false} BothIsSmall(edges: Edges, stale: bool)
    ensures Small(AFTER_G) && Small(BOTH.(edges := edges, stale := stale))
    ensures BOTH_NODES + {FileNode("a"), FileNode("x")} == BOTH_NODES
  {
    FourNodes(FileNode("x"), SymbolNode("x", "g"), FileNode("a"), UseNode("a", "x"));
  }

  lemma {:induction false} FourNodes(a: NodeId, b: NodeId, c: NodeId, d: NodeId)
    ensures |{a, b, c, d}| <= 4
  {
  }

  /** The two ingests, live and deferred. */
  lemma {:induction false} AfterTwo()
    ensures var k := Toy();
      && Live(k, New(k), ORDER_RUN[..2]) == BOTH.(edges := [XG, AU, IMPORT], stale := false)
      && ApplyAll(k, Deferred(New(k), false), ORDER_RUN[..2]) == Deferred(BOTH, true)
  {
    hide Toy, IngestDeferred, Applied, Eager, Relinked;
    var k := Toy();
    IngestsG();
    IngestsBoth();
    NewIsSmall();
    BothIsSmall([], false);
    IngestStep(New(k), "x", "fn g");
    IngestStep(AFTER_G, "a", "use x");
    IngestStep(AFTER_G.(stale := false), "a", "use x");
    assert ORDER_RUN[..0] == [];
    LiveNext(k, New(k), ORDER_RUN, 0);
    LiveNext(k, New(k), ORDER_RUN, 1);
    ReplayNext(k, New(k), ORDER_RUN, 0);
    ReplayNext(k, New(k), ORDER_RUN, 1);
  }

  /** Live appends the belief after the import link. */
  lemma {:induction false} LiveOrder()
    ensures Live(Toy(), New(Toy()), ORDER_RUN[..3]) == BOTH.(edges := LIVE_ORDER, stale := false)
  {
    hide Toy, Applied, Eager;
    AfterTwo();
    LiveNext(Toy(), New(Toy()), ORDER_RUN, 2);
    var m := BOTH.(edges := [XG, AU, IMPORT], stale := false);
    BothIsSmall(m.edges, false);
    AssertStep(m, FileNode("a"), FileNode("x"), true, 100);
    assert Add(m.edges, BELIEF) == LIVE_ORDER;
  }

  /** Replay appends it before, the resolve still pending. */
  lemma {:induction false} ReplayOrder()
    ensures ApplyAll(Toy(), Deferred(New(Toy()), false), ORDER_RUN[..3]) == Deferred(BOTH.(edges := [XG, AU, BELIEF]), true)
  {
    hide Toy, Applied, Eager, ApplyAll;
    AfterTwo();
    ReplayNext(Toy(), New(Toy()), ORDER_RUN, 2);
    BothIsSmall([XG, AU], true);
    AssertStep(BOTH, FileNode("a"), FileNode("x"), true, 100);
    assert Add([XG, AU], BELIEF) == [XG, AU, BELIEF];
  }

  lemma {:induction false} ResolvesBehindBelief()
    ensures Resolve(Toy(), BOTH.(edges := [XG, AU, BELIEF])) == BOTH.(edges := REPLAY_ORDER, stale := false)
  {
    hide Toy, Links, Retained;
    BothLinks();
    PrunesNothing([XG, AU, BELIEF], BOTH.index);
    assert [XG, AU, BELIEF] + [IMPORT] == REPLAY_ORDER;
  }

  const G := SymbolNode("x", "g")

  /** From `x` the pressure reaches `g` alone, one hop further. */
  lemma {:induction false} RelaysToG(edges: Edges, scores: Relevance)
    requires OutEdges(edges, FileNode("x")) == [XG]
    ensures Propagate(edges, BOTH_NODES, scores, FileNode("x"), 1, 1)
         == scores[G := Clamp(At(scores, G) + At(scores, FileNode("x")) * 0.48)]
  {
    hide OutEdges, Propagate;
    assert DecayTo(1) == 0.8 && Damping(1) == 1.0 by { assert DecayTo(0) == 1.0; }
    var at := At(scores, FileNode("x"));
    OneHop(edges, scores, FileNode("x"));
    var targets := OutEdges(edges, FileNode("x"));
    var pressure := Pressure(scores, FileNode("x"), 1, |targets|);
    assert pressure == at * 0.8;
    PressesOnlyG(edges, scores, pressure);
    assert pressure * 0.6 == at * 0.48;
  }

  lemma {:induction false} OneHop(edges: Edges, scores: Relevance, origin: NodeId)
    ensures var targets := OutEdges(edges, origin);
      Propagate(edges, BOTH_NODES, scores, origin, 1, 1)
      == Press(edges, BOTH_NODES, scores, targets, Pressure(scores, origin, 1, |targets|), 1, 1)
  {
    hide OutEdges, Press, Pressure;
  }

  lemma {:induction false} TooDeep(edges: Edges, scores: Relevance, origin: NodeId)
    ensures Propagate(edges, BOTH_NODES, scores, origin, 2, 1) == scores
  {
  }

  lemma {:induction false} PressesOnlyG(edges: Edges, scores: Relevance, pressure: real)
    requires |edges| >= 1
    ensures Press(edges, BOTH_NODES, scores, [XG], pressure, 1, 1) == scores[G := Clamp(At(scores, G) + pressure * 0.6)]
  {
    hide Propagate;
    var hit := scores[G := Clamp(At(scores, G) + pressure * 0.6)];
    assert XG.weight as real / 100.0 == 0.6;
    TooDeep(edges, hit, G);
    assert [XG][1..] == [];
    assert Press(edges, BOTH_NODES, hit, [], pressure, 1, 1) == hit;
  }

  lemma {:induction false} RelaysNowhere(edges: Edges, scores: Relevance)
    requires OutEdges(edges, UseNode("a", "x")) == []
    ensures Propagate(edges, BOTH_NODES, scores, UseNode("a", "x"), 1, 1) == scores
  {
  }

  /** Pressing `x` with a link of the given weight, on top of what it has. */
  lemma {:induction false} PressesX(edges: Edges, scores: Relevance, targets: Edges)
    requires OutEdges(edges, FileNode("x")) == [XG] && targets != [] && |targets| <= |edges|
    requires targets[0].edge.target == FileNode("x") && targets[0].weight >= 85
    requires At(scores, FileNode("x")) >= 0.0
    ensures var x := Clamp(At(scores, FileNode("x")) + 0.95 * (targets[0].weight as real / 100.0));
      Press(edges, BOTH_NODES, scores, targets, 0.95, 0, 1)
      == Press(edges, BOTH_NODES, scores[FileNode("x") := x][G := Clamp(At(scores, G) + x * 0.48)], targets[1..], 0.95, 0, 1)
  {
    hide Propagate, OutEdges;
    var push := 0.95 * (targets[0].weight as real / 100.0);
    assert push > FLOOR;
    var x := Clamp(At(scores, FileNode("x")) + push);
    var hit := scores[FileNode("x") := x];
    RelaysToG(edges, hit);
    assert At(hit, FileNode("x")) == x && At(hit, G) == At(scores, G);
    assert Propagate(edges, BOTH_NODES, hit, FileNode("x"), 1, 1) == hit[G := Clamp(At(scores, G) + x * 0.48)];
    assert FileNode("x") in BOTH_NODES && Clamp(At(scores, FileNode("x")) + push) == x;
    assert Press(edges, BOTH_NODES, scores, targets, 0.95, 0, 1)
        == Press(edges, BOTH_NODES, Propagate(edges, BOTH_NODES, hit, FileNode("x"), 1, 1), targets[1..], 0.95, 0, 1);
  }

  lemma {:induction false} PressesUse(edges: Edges, scores: Relevance, targets: Edges)
    requires OutEdges(edges, UseNode("a", "x")) == [] && targets != [] && |targets| <= |edges|
    requires targets[0] == AU && UseNode("a", "x") !in scores
    ensures Press(edges, BOTH_NODES, scores, targets, 0.95, 0, 1)
         == Press(edges, BOTH_NODES, scores[UseNode("a", "x") := 0.475], targets[1..], 0.95, 0, 1)
  {
    hide Propagate;
    RelaysNowhere(edges, scores[UseNode("a", "x") := 0.475]);
  }

  function Pick(l: Link, origin: NodeId): Edges {
    if l.edge.source == origin then [l] else []
  }

  lemma {:induction false} OutCons(l: Link, rest: Edges, origin: NodeId)
    ensures OutEdges([l] + rest, origin) == Pick(l, origin) + OutEdges(rest, origin)
  {
    assert ([l] + rest)[1..] == rest;
  }

  lemma {:induction false} OutOfFour(a: Link, b: Link, c: Link, d: Link, origin: NodeId)
    ensures OutEdges([a, b, c, d], origin) == Pick(a, origin) + (Pick(b, origin) + (Pick(c, origin) + Pick(d, origin)))
  {
    assert OutEdges([], origin) == [];
    hide OutEdges, Pick;
    assert [d] + [] == [d] && [c] + [d] == [c, d] && [b] + [c, d] == [b, c, d] && [a] + [b, c, d] == [a, b, c, d];
    OutCons(d, [], origin);
    OutCons(c, [d], origin);
    OutCons(b, [c, d], origin);
    OutCons(a, [b, c, d], origin);
    assert Pick(d, origin) + [] == Pick(d, origin);
  }

  const START: Relevance := map[FileNode("a") := SEVERITY]

  /** Three out-edges of `a`: the use node first, then `x` twice. */
  lemma {:induction false} PressedTwice(edges: Edges, first: Link, second: Link)
    requires |edges| == 4 && OutEdges(edges, FileNode("a")) == [AU, first, second]
    requires OutEdges(edges, FileNode("x")) == [XG] && OutEdges(edges, UseNode("a", "x")) == []
    requires first.edge.target == second.edge.target == FileNode("x") && first.weight >= 85 && second.weight >= 85
    ensures var x := Clamp(0.95 * (first.weight as real / 100.0));
      var y := Clamp(x + 0.95 * (second.weight as real / 100.0));
      At(Propagate(edges, BOTH_NODES, START, FileNode("a"), 0, 1), G) == Clamp(Clamp(x * 0.48) + y * 0.48)
  {
    hide OutEdges, Press;
    var targets := [AU, first, second];
    assert targets[1..] == [first, second] && [first, second][1..] == [second] && [second][1..] == [];
    assert Propagate(edges, BOTH_NODES, START, FileNode("a"), 0, 1) == Press(edges, BOTH_NODES, START, targets, 0.95, 0, 1);
    PressesUse(edges, START, targets);
    var one := START[UseNode("a", "x") := 0.475];
    PressesX(edges, one, [first, second]);
    var x := Clamp(0.95 * (first.weight as real / 100.0));
    var two := one[FileNode("x") := x][G := Clamp(x * 0.48)];
    assert At(one, FileNode("x")) == 0.0 && At(one, G) == 0.0;
    PressesX(edges, two, [second]);
    NothingToPress(edges, two[FileNode("x") := Clamp(x + 0.95 * (second.weight as real / 100.0))][
      G := Clamp(Clamp(x * 0.48) + Clamp(x + 0.95 * (second.weight as real / 100.0)) * 0.48)]);
  }

  lemma {:induction false} NothingToPress(edges: Edges, scores: Relevance)
    ensures Press(edges, BOTH_NODES, scores, [], 0.95, 0, 1) == scores
  {
  }

  /** **Edge order is visible.** Two ingests, an assertion about the two existing files, a
      failure: replay appended the belief edge before the pending resolve appended the import
      link, failure propagation walks the edges in order, and the scores differ, though the
      assertion created no node. */
  lemma {:induction false} AssertionReordersEdges()
    ensures var k := Toy();
      && Grounded(Live(k, New(k), ORDER_RUN[..2]), ASSERT_AX)
      && At(Live(k, New(k), ORDER_RUN).attrs.relevance, G) == 0.8676
      && At(Replayed(k, New(k), ORDER_RUN).attrs.relevance, G) == 0.936
  {
    var k := Toy();
    OrderedLive();
    OrderedReplay();
    OutOfFour(XG, AU, IMPORT, BELIEF, FileNode("a"));
    OutOfFour(XG, AU, IMPORT, BELIEF, FileNode("x"));
    OutOfFour(XG, AU, IMPORT, BELIEF, UseNode("a", "x"));
    OutOfFour(XG, AU, BELIEF, IMPORT, FileNode("a"));
    OutOfFour(XG, AU, BELIEF, IMPORT, FileNode("x"));
    OutOfFour(XG, AU, BELIEF, IMPORT, UseNode("a", "x"));
    hide Live, Replayed, Propagate, OutEdges;
    PressedTwice(LIVE_ORDER, IMPORT, BELIEF);
    PressedTwice(REPLAY_ORDER, BELIEF, IMPORT);
  }

  lemma {:induction false} OrderedLive()
    ensures var k := Toy();
      && Grounded(Live(k, New(k), ORDER_RUN[..2]), ASSERT_AX)
      && Live(k, New(k), ORDER_RUN).attrs.relevance
         == Propagate(LIVE_ORDER, BOTH_NODES, START, FileNode("a"), 0, 1)
  {
    hide Toy, Applied, Eager, Propagate;
    AfterTwo();
    LiveOrder();
    assert ORDER_RUN[..4] == ORDER_RUN;
    LiveNext(Toy(), New(Toy()), ORDER_RUN, 3);
    var m := BOTH.(edges := LIVE_ORDER, stale := false);
    BothIsSmall(LIVE_ORDER, false);
    FailureStep(m, FileNode("a"), 1);
    Severe(LIVE_ORDER);
  }

  lemma {:induction false} Severe(edges: Edges)
    ensures ToyFailure(TOY_ATTRS, BOTH_NODES, edges, FileNode("a"), 1).relevance
         == Propagate(edges, BOTH_NODES, START, FileNode("a"), 0, 1)
  {
    hide Propagate;
  }

  lemma {:induction false} OrderedReplay()
    ensures Replayed(Toy(), New(Toy()), ORDER_RUN).attrs.relevance
         == Propagate(REPLAY_ORDER, BOTH_NODES, START, FileNode("a"), 0, 1)
  {
    hide Toy, Applied, Propagate, Relinked, ToyFailure;
    var k := Toy();
    ReplayOrder();
    ResolvesBehindBelief();
    assert ORDER_RUN[..4] == ORDER_RUN;
    ReplayNext(k, New(k), ORDER_RUN, 3);
    BothIsSmall(REPLAY_ORDER, false);
    FailureStep(BOTH.(edges := REPLAY_ORDER, stale := false), FileNode("a"), 1);
    Severe(REPLAY_ORDER);
  }

  // ---------------------------------------------------------------- stale call

  const CR := Link(Edge(Structure, FileNode("c"), SymbolNode("c", "run")), 60)
  const BG := Link(Edge(Structure, FileNode("b"), SymbolNode("b", "g")), 60)
  const DEFINE_AGAIN := Ingest("b", "fn g")
  const LATE_RUN: seq<Op> := [Ingest("x", "fn g"), Ingest("c", "call g"), DEFINE_AGAIN]

  const CALL_INDEX := Index(map["x" := NO_FACTS, "c" := Facts([("run", "g")], [], [])], {})
  const CALL_NODES := {FileNode("x"), SymbolNode("x", "g"), FileNode("c"), SymbolNode("c", "run")}

  /** The floor state: the call is linked to the only `g`. */
  const LINKED := Memory(
    map["x" := "fn g", "c" := "call g"], CALL_NODES, [XG, CR, CALL], map[], TOY_ATTRS, CALL_INDEX, false)

  lemma {:induction false} CallLinks(nodes: set<NodeId>, index: Index)
    requires FileNode("a") !in nodes && FileNode("lib") !in nodes && SymbolNode("r", "reader") !in nodes
    ensures Links(Toy(), nodes, index) == ToyCalls(nodes, index)
  {
    hide Links, ToyCalls;
    ToyLinks(nodes, index);
  }

  lemma {:induction false} LinkedIsSmall()
    ensures Small(AFTER_G) && Small(LINKED) && Small(Reload(LINKED))
  {
    FourNodes(FileNode("x"), SymbolNode("x", "g"), FileNode("c"), SymbolNode("c", "run"));
  }

  lemma {:induction false} LinksCall()
    ensures Eager(Toy(), AFTER_G.(stale := false), LATE_RUN[1]) == LINKED
  {
    hide Toy, ToyParse, Retained, Links, Eager;
    Parses("c");
    LinkedIsSmall();
    Ingested(AFTER_G.(stale := false), "c", "call g");
    assert AFTER_G.nodes + {FileNode("c"), SymbolNode("c", "run")} == CALL_NODES;
    CallLinks(CALL_NODES, CALL_INDEX);
    PrunesNothing([XG, CR], CALL_INDEX);
    assert [XG] + [CR] == [XG, CR] && [XG, CR] + [CALL] == [XG, CR, CALL];
  }

  lemma {:induction false} PrunesCall(index: Index)
    ensures Retained([XG, CR, CALL, BG], index) == if HasCalls(index, "c") then [XG, CR, BG] else [XG, CR, CALL, BG]
  {
    hide Retained;
    if HasCalls(index, "c") {
      PrunesNothing([XG, CR], index);
      PrunesNothing([BG], index);
      RetainedOne(CALL, index);
      RetainedAppend([CALL], [BG], index);
      RetainedAppend([XG, CR], [CALL] + [BG], index);
      assert [XG, CR] + ([CALL] + [BG]) == [XG, CR, CALL, BG] && [XG, CR] + ([] + [BG]) == [XG, CR, BG];
    } else {
      PrunesNothing([XG, CR, CALL, BG], index);
    }
  }

  /** A second `g` makes the name ambiguous: a link whose call site is known goes, any other
      stays. */
  lemma {:induction false} DefinesAgain(m: Memory)
    requires m == LINKED.(index := m.index) && "b" !in m.index.facts
    ensures Eager(Toy(), m, DEFINE_AGAIN).edges == if HasCalls(m.index, "c") then [XG, CR, BG] else [XG, CR, CALL, BG]
  {
    hide Toy, ToyParse, Retained, Links, Eager, HasCalls, ToyCalls;
    Parses("b");
    LinkedIsSmall();
    Ingested(m, "b", "fn g");
    var next := Eager(Toy(), m, DEFINE_AGAIN);
    assert [XG, CR, CALL] + [BG] == [XG, CR, CALL, BG];
    CallsElsewhere(m.index, next.index);
    PrunesCall(next.index);
    CallLinks(next.nodes, next.index);
    Ambiguous(next.nodes, next.index);
  }

  lemma {:induction false} Ambiguous(nodes: set<NodeId>, index: Index)
    requires SymbolNode("b", "g") in nodes
    ensures ToyCalls(nodes, index) == []
  {
  }

  lemma {:induction false} CallsElsewhere(before: Index, after: Index)
    requires "c" in before.facts <==> "c" in after.facts
    requires "c" in before.facts ==> after.facts["c"] == before.facts["c"]
    ensures HasCalls(after, "c") == HasCalls(before, "c")
  {
  }

  lemma {:induction false} SecondDefinitionArrives()
    ensures Eager(Toy(), LINKED, DEFINE_AGAIN).edges == [XG, CR, BG]
    ensures Eager(Toy(), Reload(LINKED), DEFINE_AGAIN).edges == [XG, CR, CALL, BG]
  {
    hide Eager;
    DefinesAgain(LINKED);
    DefinesAgain(Reload(LINKED));
  }

  /** A log of ingests replays to the live memory. */
  lemma {:induction false} IngestsReplay(m: Memory, ops: seq<Op>)
    requires Settled(m) && Small(m) && |ops| <= 100 && forall i | 0 <= i < |ops| :: ops[i].Ingest?
    ensures Replayed(Toy(), m, ops) == Live(Toy(), m, ops)
  {
    hide WellFormed, Replayed, Live, Toy, Fits;
    SmallLogFits(m, ops);
    DefaultIsWellFormed();
    OrderlyLogReproduces(Toy(), m, ops);
    ReproducesAtEnd(Toy(), m, ops);
  }

  lemma {:induction false} OneOp(m: Memory, op: Op)
    ensures Live(Toy(), m, [op]) == Eager(Toy(), m, op)
  {
    assert [op][..0] == [];
  }

  lemma {:induction false} LateStates()
    ensures Replayed(Toy(), New(Toy()), LATE_RUN[..2]) == Live(Toy(), New(Toy()), LATE_RUN[..2]) == LINKED
    ensures Replayed(Toy(), New(Toy()), LATE_RUN).edges == [XG, CR, BG]
    ensures Replayed(Toy(), Reload(LINKED), [DEFINE_AGAIN]).edges == [XG, CR, CALL, BG]
  {
    hide IngestDeferred, Relinked, Replayed, Eager, Toy;
    var k := Toy();
    assert Eager(k, New(k), LATE_RUN[0]) == AFTER_G.(stale := false) by { FirstIngestOfG(); }
    LinksCall();
    SecondDefinitionArrives();
    assert LATE_RUN[..0] == [] && LATE_RUN[..3] == LATE_RUN;
    LiveNext(k, New(k), LATE_RUN, 0);
    LiveNext(k, New(k), LATE_RUN, 1);
    LiveNext(k, New(k), LATE_RUN, 2);
    NewIsSmall();
    LinkedIsSmall();
    IngestsReplay(New(k), LATE_RUN[..2]);
    IngestsReplay(New(k), LATE_RUN);
    IngestsReplay(Reload(LINKED), [DEFINE_AGAIN]);
    OneOp(Reload(LINKED), DEFINE_AGAIN);
  }

  lemma {:induction false} FirstIngestOfG()
    ensures Eager(Toy(), New(Toy()), LATE_RUN[0]) == AFTER_G.(stale := false)
  {
    hide Toy, IngestDeferred, Relinked, Eager;
    IngestsG();
    NewIsSmall();
    IngestStep(New(Toy()), "x", "fn g");
  }

  /** The session after `ops`, in the toy world. */
  function After(c: Crypto, ops: seq<Op>): Session {
    var w := World(Toy(), c);
    PerformAll(w, Fresh(w), ops)
  }

  lemma {:induction false} AfterIsValid(c: Crypto, ops: seq<Op>)
    requires Faithful(c)
    ensures var w := World(Toy(), c);
      && Sound(w) && Valid(w, After(c, ops)) && Records(w, After(c, ops), ops) && After(c, ops).ops == ops
      && After(c, ops).live == Live(Toy(), New(Toy()), ops) && Start(w, After(c, ops)) == New(Toy())
      && After(c, ops).folded == 0 && |After(c, ops).chain| == |ops|
  {
    hide Replayed, Live, Perform, PerformAll, WellFormed, Records, HeadAt;
    var w := World(Toy(), c);
    ToyIsWellFormed(DEFAULT_CAP);
    FreshIsValid(w);
    PerformAllKeeps(w, Fresh(w), ops, []);
    PerformAllShape(w, Fresh(w), ops);
    assert [] + ops == ops;
  }

  /** A call links to the only `g`; a second `g` arrives later. The session drops the link.
      Folding the first two operations first makes replay keep it, because the folded file's
      call sites did not travel with the snapshot. */
  lemma {:induction false} CompactionKeepsStaleCall(c: Crypto)
    requires Faithful(c)
    ensures var w, s := World(Toy(), c), After(c, LATE_RUN);
      Valid(w, s) && |s.chain| == |s.ops| && !Transparent(w, s, Compact(w, s, 1))
  {
    hide Valid, After, Compact, Transparent, Replayed, Toy;
    LateStates();
    assert LATE_RUN[..2] + [DEFINE_AGAIN] == LATE_RUN;
    FoldShows(c, LATE_RUN[..2], DEFINE_AGAIN);
  }

  /** Where folding all but the last operation changes what that one replays to. */
  lemma {:induction false} FoldShows(c: Crypto, head: seq<Op>, last: Op)
    requires Faithful(c) && head != [] && !FoldSame(Toy(), New(Toy()), head, [last])
    ensures var w, s := World(Toy(), c), After(c, head + [last]);
      Valid(w, s) && |s.chain| == |s.ops| && !Transparent(w, s, Compact(w, s, 1))
  {
    hide Valid, Records, After, FoldSame, Same, ReplayTo, WellFormed, Toy, Commitment;
    var w, s := World(Toy(), c), After(c, head + [last]);
    AfterIsValid(c, head + [last]);
    CompactedReplay(w, s, 1, 1);
    assert s.ops[..|head|] == head && s.ops[|head|..][..1] == [last];
    var t := Compact(w, s, 1);
    assert !Same(ReplayTo(w, s, t.folded + 1), ReplayTo(w, t, t.folded + 1));
  }

  // ---------------------------------------------------------------- restart, then ingest

  lemma {:induction false} LinkedSessionTracks(c: Crypto)
    requires Faithful(c)
    ensures Tracks(World(Toy(), c), After(c, LATE_RUN[..2]))
  {
    hide Valid, Records, PerformAll, Replayed, ReplayTo, WellFormed;
    AfterIsValid(c, LATE_RUN[..2]);
    LateStates();
    RebuiltIsReplayed(World(Toy(), c), After(c, LATE_RUN[..2]));
  }

  /** The session of the first two operations, reopened, after the third. */
  function Reopened(c: Crypto, signer: Option<string>): Session {
    var w := World(Toy(), c);
    Perform(w, After(c, LATE_RUN[..2]).(live := Reload(LINKED), signer := signer), DEFINE_AGAIN)
  }

  lemma {:induction false} ReopenedStates(c: Crypto, signer: Option<string>)
    requires Faithful(c)
    ensures var w, t := World(Toy(), c), Reopened(c, signer);
      && Sound(w) && Valid(w, t) && Length(t) == 3 && t.ops != []
      && t.live.edges == [XG, CR, CALL, BG] && Rebuilt(w, t).edges == [XG, CR, BG]
  {
    hide PerformAll, Replayed, ReplayTo, WellFormed, ChainOver, HeadAt, Commitment, Eager, Faithful;
    var w := World(Toy(), c);
    var s := After(c, LATE_RUN[..2]);
    var r := s.(live := Reload(LINKED), signer := signer);
    AfterIsValid(c, LATE_RUN[..2]);
    LateStates();
    SecondDefinitionArrives();
    assert Valid(w, r) && Records(w, r, LATE_RUN[..2]);
    PerformKeeps(w, r, DEFINE_AGAIN, LATE_RUN[..2]);
    var t := Perform(w, r, DEFINE_AGAIN);
    RebuiltIsReplayed(w, t);
    assert LATE_RUN[..2] + [DEFINE_AGAIN] == LATE_RUN;
  }

  /** **A restart is not transparent either.** Ingest, ingest a caller, restart, ingest a
      second definition: now it is the live memory that lost the call sites and keeps the
      stale link, while replay drops it. The next open finds the counts apart and discards
      the timeline. */
  lemma {:induction false} RestartThenIngestErasesHistory(c: Crypto, signer: Option<string>, next: Option<string>)
    requires Faithful(c)
    ensures var w, s := World(Toy(), c), After(c, LATE_RUN[..2]);
      && |s.chain| == |s.ops| && Delivers(w, s, Restart(signer))
      && var t := Perform(w, Act(w, s, Restart(signer)), DEFINE_AGAIN);
         Length(t) == 3 && Open(w, Save(t), next).Opened? && Length(Open(w, Save(t), next).session) == 0
  {
    hide Valid, Records, PerformAll, Perform, Live, Replayed, ReplayTo, Open, WellFormed, Faithful;
    var w, s := World(Toy(), c), After(c, LATE_RUN[..2]);
    AfterIsValid(c, LATE_RUN[..2]);
    LateStates();
    LinkedSessionTracks(c);
    RestartDelivers(w, s, signer, LATE_RUN[..2]);
    ReopenedStates(c, signer);
    ResetsWhenCountsDiffer(w, Reopened(c, signer), next);
  }

  lemma {:induction false} ResetsWhenCountsDiffer(w: World, t: Session, signer: Option<string>)
    requires Valid(w, t) && t.ops != [] && |Rebuilt(w, t).edges| != |t.live.edges|
    ensures Open(w, Save(t), signer).Opened? && Length(Open(w, Save(t), signer).session) == 0
  {
    hide Replayed, WellFormed, Faithful, BrokenLinks, ChainOver;
    RestartRestoresIff(w, t, signer);
  }

  // ---------------------------------------------------------------- lost constant

  const DX := Link(Edge(Structure, FileNode("d"), SymbolNode("d", "X")), 60)
  const RR := Link(Edge(Structure, FileNode("r"), SymbolNode("r", "reader")), 60)
  const READ := Ingest("r", "read X")
  const FLOW_RUN: seq<Op> := [Ingest("d", "const X"), READ]

  const AFTER_X := Memory(
    map["d" := "const X"], {FileNode("d"), SymbolNode("d", "X")}, [DX], map[], TOY_ATTRS,
    Index(map["d" := NO_FACTS], {SymbolNode("d", "X")}), false)

  lemma {:induction false} ConstantIsSmall()
    ensures Small(AFTER_X) && Small(Reload(AFTER_X))
  {
  }

  lemma {:induction false} DefinesConstant()
    ensures Eager(Toy(), New(Toy()), FLOW_RUN[0]) == AFTER_X
  {
    hide Toy, IngestDeferred, Relinked, Eager;
    NewIsSmall();
    IngestStep(New(Toy()), "d", "const X");
    FirstFile("d", "const X");
  }

  /** Reading `X` after a memory that still marks it as a constant, or no longer does. */
  lemma {:induction false} ReadsAfter(m: Memory)
    requires m == AFTER_X.(index := m.index) && "r" !in m.index.facts
    ensures Eager(Toy(), m, READ).edges == if SymbolNode("d", "X") in m.index.constants then [DX, RR, FLOW] else [DX, RR]
  {
    hide Toy, ToyParse, Retained, Links, Eager;
    Parses("r");
    ConstantIsSmall();
    Ingested(m, "r", "read X");
    var next := Eager(Toy(), m, READ);
    assert [DX] + [RR] == [DX, RR];
    PrunesNothing([DX, RR], next.index);
    FlowLinks(next.nodes, next.index);
    assert [DX, RR] + [FLOW] == [DX, RR, FLOW] && [DX, RR] + [] == [DX, RR];
  }

  lemma {:induction false} FlowLinks(nodes: set<NodeId>, index: Index)
    requires SymbolNode("c", "run") !in nodes && FileNode("a") !in nodes && FileNode("lib") !in nodes
    ensures Links(Toy(), nodes, index) == ToyFlows(nodes, index)
  {
    hide Links, ToyFlows;
    ToyLinks(nodes, index);
  }

  lemma {:induction false} ReadsConstant()
    ensures Eager(Toy(), AFTER_X, READ).edges == [DX, RR, FLOW]
    ensures Eager(Toy(), Reload(AFTER_X), READ).edges == [DX, RR]
  {
    hide Eager;
    ReadsAfter(AFTER_X);
    ReadsAfter(Reload(AFTER_X));
  }

  lemma {:induction false} FlowStates()
    ensures Replayed(Toy(), New(Toy()), FLOW_RUN[..1]) == AFTER_X
    ensures Replayed(Toy(), New(Toy()), FLOW_RUN).edges == [DX, RR, FLOW]
    ensures Replayed(Toy(), Reload(AFTER_X), [READ]).edges == [DX, RR]
  {
    hide IngestDeferred, Relinked, Replayed, Eager, Toy;
    var k := Toy();
    DefinesConstant();
    ReadsConstant();
    assert FLOW_RUN[..0] == [] && FLOW_RUN[..2] == FLOW_RUN;
    LiveNext(k, New(k), FLOW_RUN, 0);
    LiveNext(k, New(k), FLOW_RUN, 1);
    NewIsSmall();
    ConstantIsSmall();
    IngestsReplay(New(k), FLOW_RUN[..1]);
    IngestsReplay(New(k), FLOW_RUN);
    IngestsReplay(Reload(AFTER_X), [READ]);
    OneOp(Reload(AFTER_X), READ);
  }

  /** A folded file's constants are forgotten too: a file ingested later that reads one gets
      its data-flow link in the session and not in the folded replay. */
  lemma {:induction false} CompactionLosesConstant(c: Crypto)
    requires Faithful(c)
    ensures var w, s := World(Toy(), c), After(c, FLOW_RUN);
      Valid(w, s) && |s.chain| == |s.ops| && !Transparent(w, s, Compact(w, s, 1))
  {
    hide Valid, After, Compact, Transparent, Replayed, Toy;
    FlowStates();
    assert FLOW_RUN[..1] + [READ] == FLOW_RUN;
    FoldShows(c, FLOW_RUN[..1], READ);
  }

  // ---------------------------------------------------------------- past the cap

  const TIGHT := 4
  const A := FileNode("a")
  const RECALL_A := Recalled(Around(A), 0)
  const PAGING_RUN: seq<Op> := [Ingest("x", "fn g"), Ingest("a", "use x"), Ingest("b", ""), RECALL_A]

  const CROWD := {FileNode("x"), SymbolNode("x", "g"), UseNode("a", "x"), FileNode("b")}

  /** The third file is in, `a` was demoted with the edges it had. */
  function Crowded(archive: Edges, stale: bool): Memory {
    Memory(
      map["x" := "fn g", "a" := "use x", "b" := ""], CROWD, [XG], map[A := archive], TOY_ATTRS,
      Index(map["x" := NO_FACTS, "a" := NO_FACTS, "b" := NO_FACTS], {}), stale)
  }

  /** Below the cap the tight kernel does what the other one does. */
  lemma {:induction false} TightStep(m: Memory, path: Path, text: string)
    requires m.cold == map[] && |IngestDeferred(Toy(), m, path, text).nodes| <= TIGHT
    ensures var next := IngestDeferred(Toy(), m, path, text);
      && Applied(ToyWith(TIGHT), m, Ingest(path, text)) == next
      && Eager(ToyWith(TIGHT), m, Ingest(path, text)) == Resolve(Toy(), next)
  {
    hide Toy, IngestDeferred, Resolve;
    var op := Ingest(path, text);
    CapIsForPaging(TIGHT, m, op);
    CapIsForPaging(TIGHT, IngestDeferred(Toy(), m, path, text), op);
    assert ToyWith(TIGHT).cap == TIGHT;
    hide ToyWith;
  }

  lemma {:induction false} FiveNodes()
    ensures |BOTH_NODES| == 4 && |BOTH_NODES + {FileNode("b")}| == 5
    ensures BOTH_NODES + {FileNode("b")} - {A} == CROWD && CROWD + {A} == BOTH_NODES + {FileNode("b")}
  {
    var two := {FileNode("x"), SymbolNode("x", "g")};
    var three := two + {A};
    assert |two| == 2 && |three| == 3 && three + {UseNode("a", "x")} == BOTH_NODES;
  }

  lemma {:induction false} SplitsAtA()
    ensures Archived([XG, AU], A) == [AU] && Detached([XG, AU], A) == [XG]
    ensures Archived([XG, AU, IMPORT], A) == [AU, IMPORT] && Detached([XG, AU, IMPORT], A) == [XG]
  {
    var none: Edges := [];
    assert Archived(none, A) == none && Detached(none, A) == none;
    assert [XG, AU, IMPORT][1..] == [AU, IMPORT] && [AU, IMPORT][1..] == [IMPORT] && [IMPORT][1..] == none;
    assert [XG, AU][1..] == [AU] && [AU][1..] == none;
    assert Detached([IMPORT], A) == [] + none;
    assert Archived([IMPORT], A) == [IMPORT] && Detached([IMPORT], A) == [];
    assert Archived([AU, IMPORT], A) == [AU] + [IMPORT] && Detached([AU, IMPORT], A) == [] + [];
    assert Archived([AU], A) == [AU] && Detached([AU], A) == [];
  }

  /** One node too many: `a` leaves with whatever edges it has by then. */
  lemma {:induction false} ThirdFileDemotes(edges: Edges, stale: bool)
    requires edges == [XG, AU] || edges == [XG, AU, IMPORT]
    ensures Applied(ToyWith(TIGHT), BOTH.(edges := edges, stale := stale), Ingest("b", "")) == Crowded(edges[1..], true)
  {
    hide Toy, Archived, Detached, ToyParse, IngestDeferred;
    var m, op := BOTH.(edges := edges, stale := stale), Ingest("b", "");
    CapIsForPaging(TIGHT, m, op);
    assert ToyParse("b", "") == Parsed({FileNode("b")}, [], NO_FACTS, {}) by { ParsesEmpty("b"); }
    NewFile(m, "b", "");
    FiveNodes();
    SplitsAtA();
    var next := IngestDeferred(Toy(), m, "b", "");
    assert next.nodes == BOTH_NODES + {FileNode("b")} && next.edges == edges && next.cold == map[];
    PagesIngest(m, op, next);
    assert edges[1..] == Archived(edges, A);
  }

  lemma {:induction false} ParsesEmpty(path: Path)
    ensures ToyParse(path, "") == Parsed({FileNode(path)}, [], NO_FACTS, {})
  {
  }

  lemma {:induction false} PagesIngest(m: Memory, op: Op, next: Memory)
    requires op.Ingest? && Acted(ToyWith(TIGHT), m, op) == next && |next.nodes| > TIGHT && A in next.nodes
    ensures Applied(ToyWith(TIGHT), m, op) == next.(
      nodes := next.nodes - {A}, edges := Detached(next.edges, A), cold := next.cold[A := Archived(next.edges, A)])
  {
    hide Acted, Archived, Detached, ToyParse, ToyImports, ToyReferences, ToyFailure;
  }

  /** With `a` gone there is nothing to link. */
  lemma {:induction false} CrowdedResolves(archive: Edges)
    ensures Resolve(ToyWith(TIGHT), Crowded(archive, true)) == Crowded(archive, false)
  {
    hide Toy, Links, Retained, ToyWith;
    var m := Crowded(archive, true);
    CapIsForPaging(TIGHT, m, RECALL_A);
    NothingToLink(CROWD, m.index);
    PrunesNothing([XG], m.index);
    assert [XG] + [] == [XG];
  }

  /** Paging `a` back in restores what was archived with it, and no more. */
  lemma {:induction false} PagesBackIn(archive: Edges)
    requires archive == [AU] || archive == [AU, IMPORT]
    ensures Applied(ToyWith(TIGHT), Crowded(archive, false), RECALL_A).edges == [XG] + archive
  {
    hide ToyParse, ToyImports, ToyReferences, ToyFailure, Rehomed, Detached;
    var m := Crowded(archive, false);
    var g := Graph(m.nodes, m.edges, m.cold, m.attrs);
    FiveNodes();
    Rehomes(g.(nodes := g.nodes + {A}, cold := g.cold - {A}), archive);
    KeepsWithoutB(archive);
    assert m.cold != map[] by { assert A in m.cold; }
    assert Acted(ToyWith(TIGHT), m, RECALL_A) == m;
  }

  lemma {:induction false} Rehomes(g: Graph, archive: Edges)
    requires archive == [AU] || archive == [AU, IMPORT]
    requires g.edges == [XG] && g.nodes == CROWD + {A}
    ensures Rehomed(g, archive) == g.(edges := [XG] + archive)
  {
    assert [AU, IMPORT][1..] == [IMPORT] && [IMPORT][1..] == [] && [AU][1..] == [];
    var one := g.(edges := [XG, AU]);
    assert Add([XG], AU) == [XG, AU] && Add([XG, AU], IMPORT) == [XG, AU, IMPORT];
    assert Rehomed(one, []) == one;
    if archive == [AU, IMPORT] {
      var two := g.(edges := [XG, AU, IMPORT]);
      assert Rehomed(two, []) == two && Rehomed(one, [IMPORT]) == two;
      assert [XG] + archive == [XG, AU, IMPORT];
    }
  }

  lemma {:induction false} KeepsWithoutB(archive: Edges)
    requires archive == [AU] || archive == [AU, IMPORT]
    ensures Detached([XG] + archive, FileNode("b")) == [XG] + archive
  {
    assert ([XG] + archive)[1..] == archive;
    assert [AU, IMPORT][1..] == [IMPORT] && [IMPORT][1..] == [] && [AU][1..] == [];
    assert Detached([IMPORT], FileNode("b")) == [IMPORT] && Detached([AU], FileNode("b")) == [AU];
    assert Detached([AU, IMPORT], FileNode("b")) == [AU] + [IMPORT];
  }

  lemma {:induction false} PagingStates()
    ensures var k := ToyWith(TIGHT);
      && Live(k, New(k), PAGING_RUN[..3]) == Crowded([AU, IMPORT], false)
      && ApplyAll(k, Deferred(New(k), false), PAGING_RUN[..3]) == Deferred(Crowded([AU], true), true)
  {
    hide Toy, ToyWith, IngestDeferred, Applied, Relinked;
    var k := ToyWith(TIGHT);
    CapIsForPaging(TIGHT, New(k), RECALL_A);
    IngestsG();
    IngestsBoth();
    FiveNodes();
    TightStep(New(k), "x", "fn g");
    TightStep(AFTER_G, "a", "use x");
    TightStep(AFTER_G.(stale := false), "a", "use x");
    ThirdFileDemotes([XG, AU], true);
    ThirdFileDemotes([XG, AU, IMPORT], false);
    CrowdedResolves([AU, IMPORT]);
    assert [XG, AU][1..] == [AU] && [XG, AU, IMPORT][1..] == [AU, IMPORT];
    assert PAGING_RUN[..0] == [];
    LiveNext(k, New(k), PAGING_RUN, 0);
    LiveNext(k, New(k), PAGING_RUN, 1);
    LiveNext(k, New(k), PAGING_RUN, 2);
    ReplayNext(k, New(k), PAGING_RUN, 0);
    ReplayNext(k, New(k), PAGING_RUN, 1);
    ReplayNext(k, New(k), PAGING_RUN, 2);
  }

  /** **Past the cap even a log of ingests and recalls diverges.** A third file pushes the
      importer into the cold tier: live with the import link it had already, in replay
      before the deferred resolve could make one. Recalling it brings back three edges in
      one case and two in the other. */
  lemma {:induction false} PagingLosesImport()
    ensures var k := ToyWith(TIGHT);
      && WellFormed(k) && (forall i | 0 <= i < |PAGING_RUN| :: Orderly(PAGING_RUN[..i], PAGING_RUN[i]))
      && Live(k, New(k), PAGING_RUN).edges == [XG, AU, IMPORT]
      && Replayed(k, New(k), PAGING_RUN).edges == [XG, AU]
  {
    hide ToyWith, Applied, Relinked, WellFormed, Crowded;
    var k := ToyWith(TIGHT);
    ToyIsWellFormed(TIGHT);
    PagingStates();
    CrowdedResolves([AU]);
    PagesBackIn([AU]);
    PagesBackIn([AU, IMPORT]);
    assert PAGING_RUN[..4] == PAGING_RUN;
    LiveNext(k, New(k), PAGING_RUN, 3);
    ReplayNext(k, New(k), PAGING_RUN, 3);
    assert [XG] + [AU, IMPORT] == [XG, AU, IMPORT] && [XG] + [AU] == [XG, AU];
  }

  /** And so does the session: on the next open the counts differ and the timeline goes. */
  lemma {:induction false} PagingErasesHistory(c: Crypto, signer: Option<string>)
    ensures var w := World(ToyWith(TIGHT), c);
      var s := PerformAll(w, Fresh(w), PAGING_RUN);
      Valid(w, s) && Length(s) == 4
      && Open(w, Save(s), signer).Opened? && Length(Open(w, Save(s), signer).session) == 0
  {
    hide ToyWith, Replayed, Live, Valid, Records, Perform, PerformAll, Open, WellFormed;
    var w := World(ToyWith(TIGHT), c);
    var s := PerformAll(w, Fresh(w), PAGING_RUN);
    FreshIsValid(w);
    PerformAllKeeps(w, Fresh(w), PAGING_RUN, []);
    PerformAllShape(w, Fresh(w), PAGING_RUN);
    assert Fresh(w).ops + PAGING_RUN == PAGING_RUN;
    RebuiltIsReplayed(w, s);
    PagingLosesImport();
    ResetsWhenCountsDiffer(w, s, signer);
  }
}
