/** The causal memory under a session (core/src/external_memory.rs, core/src/memory.rs):
    the resident nodes, the edge vector in insertion order, the cold tier, the parsed files,
    and the runtime-only index of unresolved references that whole-graph resolution reads.

    Parsing, the resolution passes, scoring and paging are parameters (`Kernel`); scoring
    and paging read the edges in order, as failure propagation does. What is fixed here is
    the part the results turn on: where an edge is inserted, which edges resolution owns,
    what a prune keeps, when paging steps in, and what a snapshot drops. */
module Memory {
  import opened Ops

  /** `Structure` is every link the parser makes; `Import` and `Hierarchy` are the file-to-file
      `DependsOn` and `Contains` links of the import pass. */
  datatype EdgeKind = Structure | Import | Hierarchy | Call | Flow | Supports | Contradicts

  /** An edge's identity: a second one is never inserted. */
  datatype Edge = Edge(kind: EdgeKind, source: NodeId, target: NodeId)

  datatype Link = Link(edge: Edge, weight: Bits)

  /** The edge vector, oldest first. */
  type Edges = seq<Link>

  predicate Has(edges: Edges, e: Edge) {
    exists i | 0 <= i < |edges| :: edges[i].edge == e
  }

  /** `add_edge`: append, unless that edge is already there. */
  function Add(edges: Edges, l: Link): Edges {
    if Has(edges, l.edge) then edges else edges + [l]
  }

  /** Nothing is inserted twice. */
  predicate DuplicateFree(edges: Edges) {
    forall i, j | 0 <= i < j < |edges| :: edges[i].edge != edges[j].edge
  }

  function AddAll(edges: Edges, more: Edges): Edges {
    if more == [] then edges else Add(AddAll(edges, more[..|more| - 1]), more[|more| - 1])
  }

  /** One file's pending references: call sites, constant reads, and the aliases and
      method owners that name resolution consults. */
  datatype Facts = Facts(
    calls: seq<(string, string)>, uses: seq<(string, string)>, scope: seq<(string, string)>)

  /** The runtime-only resolution inputs. Never serialized. */
  datatype Index = Index(facts: map<Path, Facts>, constants: set<NodeId>)

  const EMPTY_INDEX := Index(map[], {})

  datatype Parsed = Parsed(nodes: set<NodeId>, edges: Edges, facts: Facts, constants: set<NodeId>)

  /** Everything resolution neither reads nor writes: node scores, weights, audit logs. */
  datatype Attrs = Attrs(relevance: map<NodeId, real>, weights: Weights, journal: seq<string>)

  /** The demoted nodes, each with the edges archived when it left. */
  type Cold = map<NodeId, Edges>

  /** The part of a memory that paging rearranges. */
  datatype Graph = Graph(nodes: set<NodeId>, edges: Edges, cold: Cold, attrs: Attrs)

  datatype Memory = Memory(
    files: map<Path, string>, nodes: set<NodeId>, edges: Edges, cold: Cold, attrs: Attrs,
    index: Index, stale: bool)

  /** The parts of the memory that are parameters of the model. */
  datatype Kernel = Kernel(
    initial: Attrs,
    clean: string -> string,
    parse: (Path, string) -> Parsed,
    imports: set<NodeId> -> Edges,
    references: (set<NodeId>, Index) -> Edges,
    authority: Bits -> Bits,
    onIngest: (Attrs, set<NodeId>, Path, string) -> Attrs,
    onAssert: (Attrs, set<NodeId>, Edge, Bits) -> Attrs,
    onFailure: (Attrs, set<NodeId>, Edges, NodeId, nat) -> Attrs,
    onPageIn: (Attrs, set<NodeId>, Edges, NodeId) -> Attrs,
    cap: nat,
    page: (Memory, Op, Memory) -> Graph)

  function New(k: Kernel): Memory {
    Memory(map[], {}, [], map[], k.initial, EMPTY_INDEX, false)
  }

  // ---------------------------------------------------------------- resolution

  predicate HasCalls(index: Index, path: Path) {
    path in index.facts && index.facts[path].calls != []
  }

  predicate HasReads(index: Index, path: Path) {
    path in index.facts && index.facts[path].uses != []
  }

  /** The edges a resolve prunes: file-to-file links always, call and data-flow links
      only while their source file still has pending references to rebuild them from. */
  predicate Owned(e: Edge, index: Index) {
    match e.kind
    case Import | Hierarchy => true
    case Call => e.source.SymbolNode? && HasCalls(index, e.source.path)
    case Flow => e.source.SymbolNode? && HasReads(index, e.source.path)
    case _ => false
  }

  /** Ids that resolution reads: `file:`, `sym:` and `use:` nodes. */
  predicate Linkable(id: NodeId) {
    id.FileNode? || id.SymbolNode? || id.UseNode?
  }

  function LinkableIn(nodes: set<NodeId>): set<NodeId> {
    set id | id in nodes && Linkable(id)
  }

  /** What the source guarantees of the parser and of the three passes. */
  ghost predicate WellFormed(k: Kernel) {
    && (forall p, s, l :: l in k.parse(p, s).edges ==> l.edge.kind == Structure)
    && (forall ns, l :: l in k.imports(ns) ==> l.edge.kind == Import || l.edge.kind == Hierarchy)
    && (forall ns, ix, l :: l in k.references(ns, ix) ==> (l.edge.kind == Call || l.edge.kind == Flow) && Owned(l.edge, ix))
    && (forall ns :: DuplicateFree(k.imports(ns)))
    && (forall ns, ix :: DuplicateFree(k.references(ns, ix)))
    && (forall ns :: k.imports(ns) == k.imports(LinkableIn(ns)))
    && (forall ns, ix :: k.references(ns, ix) == k.references(LinkableIn(ns), ix))
  }

  /** The passes in order: imports, then calls and data flow. */
  function Links(k: Kernel, nodes: set<NodeId>, index: Index): Edges {
    k.imports(nodes) + k.references(nodes, index)
  }

  /** `prune_resolution_edges`: what is left keeps its order. */
  function Retained(edges: Edges, index: Index): Edges {
    if edges == [] then []
    else
      var rest := Retained(edges[..|edges| - 1], index);
      var last := edges[|edges| - 1];
      if Owned(last.edge, index) then rest else rest + [last]
  }

  /** `resolve_all`: prune, then append what the passes link. No pass links an edge that the
      prune kept, so appending needs no duplicate check. */
  function Relinked(k: Kernel, nodes: set<NodeId>, edges: Edges, index: Index): Edges {
    Retained(edges, index) + Links(k, nodes, index)
  }

  function Resolve(k: Kernel, m: Memory): Memory {
    if m.stale then m.(edges := Relinked(k, m.nodes, m.edges, m.index), stale := false) else m
  }

  // ---------------------------------------------------------------- mutations

  /** The nodes a re-ingest of `path` evicts first. */
  predicate BelongsTo(id: NodeId, path: Path) {
    !id.OtherNode? && id.path == path
  }

  function EvictedNodes(nodes: set<NodeId>, path: Path): set<NodeId> {
    set id | id in nodes && !BelongsTo(id, path)
  }

  function EvictedEdges(edges: Edges, path: Path): Edges {
    if edges == [] then []
    else
      var rest := EvictedEdges(edges[..|edges| - 1], path);
      var last := edges[|edges| - 1];
      if BelongsTo(last.edge.source, path) || BelongsTo(last.edge.target, path) then rest else rest + [last]
  }

  /** Ingest without resolving. An unchanged file only logs; a changed one evicts its old
      nodes with their incident edges, then adds the new parse. */
  function IngestDeferred(k: Kernel, m: Memory, path: Path, source: string): Memory {
    var text := k.clean(source);
    var attrs := k.onIngest(m.attrs, m.nodes, path, source);
    if path in m.files && m.files[path] == text then
      m.(attrs := attrs, stale := true)
    else
      var known := path in m.files;
      var nodes := if known then EvictedNodes(m.nodes, path) else m.nodes;
      var edges := if known then EvictedEdges(m.edges, path) else m.edges;
      var parsed := k.parse(path, text);
      m.(files := m.files[path := text], nodes := nodes + parsed.nodes, edges := AddAll(edges, parsed.edges), attrs := attrs,
         index := Index(m.index.facts[path := parsed.facts], m.index.constants + parsed.constants), stale := true)
  }

  function AssertionEdge(evidence: NodeId, claim: NodeId, supports: bool): Edge {
    Edge(if supports then Supports else Contradicts, evidence, claim)
  }

  /** Create missing endpoints, then append the belief edge unless it is already there. */
  function AssertEvidence(k: Kernel, m: Memory, evidence: NodeId, claim: NodeId,
                          supports: bool, weight: Bits): Memory {
    var e := AssertionEdge(evidence, claim, supports);
    m.(nodes := m.nodes + {evidence, claim},
       edges := Add(m.edges, Link(e, k.authority(weight))),
       attrs := k.onAssert(m.attrs, m.nodes, e, k.authority(weight)))
  }

  function SignalFailure(k: Kernel, m: Memory, node: NodeId, depth: nat): Memory {
    m.(attrs := k.onFailure(m.attrs, m.nodes, m.edges, node, depth))
  }

  function SignalAll(k: Kernel, m: Memory, files: seq<Path>, depth: nat): Memory {
    if files == [] then m
    else SignalFailure(k, SignalAll(k, m, files[..|files| - 1], depth), FileNode(files[|files| - 1]), depth)
  }

  function EnsureResident(k: Kernel, m: Memory, node: NodeId): Memory {
    m.(attrs := k.onPageIn(m.attrs, m.nodes, m.edges, node))
  }

  function PageRegion(k: Kernel, m: Memory, files: seq<Path>, depth: nat): Memory {
    var hit := SignalAll(k, m, files, depth);
    if files == [] then hit else EnsureResident(k, hit, FileNode(files[0]))
  }

  function SetWeights(m: Memory, weights: Weights): Memory {
    m.(attrs := m.attrs.(weights := weights))
  }

  /** One operation on the resident graph, nothing resolved and nothing paged. */
  function Acted(k: Kernel, m: Memory, op: Op): Memory {
    match op
    case Ingest(path, source) => IngestDeferred(k, m, path, source)
    case Failure(node, depth) => SignalFailure(k, m, node, depth)
    case PageFault(files, depth) => PageRegion(k, m, files, depth)
    case Recalled(recall, _) => if recall.Around? then EnsureResident(k, m, recall.node) else m
    case Retune(weights) => SetWeights(m, weights)
    case Assert(evidence, claim, supports, weight) => AssertEvidence(k, m, evidence, claim, supports, weight)
  }

  // ---------------------------------------------------------------- paging

  /** Operations that insert nodes or fault them in. */
  predicate MayPage(op: Op) {
    !op.Retune? && (op.Recalled? ==> op.recall.Around?)
  }

  /** Nothing is demoted and nothing has to be. An ingest only adds nodes once its file's old
      ones are gone, so the count at its end is the largest on the way. */
  predicate AllResident(k: Kernel, m: Memory, next: Memory) {
    m.cold == map[] && |next.nodes| <= k.cap
  }

  function Grafted(m: Memory, g: Graph): Memory {
    m.(nodes := g.nodes, edges := g.edges, cold := g.cold, attrs := g.attrs)
  }

  /** Past the resident cap, or with nodes already demoted, the paging code decides what
      becomes of the graph. It never touches files, index or the pending resolve. */
  function Paged(k: Kernel, m: Memory, op: Op, next: Memory): Memory {
    if !MayPage(op) || AllResident(k, m, next) then next else Grafted(next, k.page(m, op, next))
  }

  /** One operation, paging included, nothing resolved. */
  function Applied(k: Kernel, m: Memory, op: Op): Memory {
    Paged(k, m, op, Acted(k, m, op))
  }

  /** `op` on `m` stays below the cap. */
  predicate Roomy(k: Kernel, m: Memory, op: Op) {
    AllResident(k, m, Acted(k, m, op))
  }

  /** `from_json(to_json(m))` for a resolved memory: the index does not travel. */
  function Reload(m: Memory): Memory {
    m.(index := EMPTY_INDEX, stale := false)
  }

  /** Pending references exist only for ingested files. */
  predicate Indexed(m: Memory) {
    m.index.facts.Keys <= m.files.Keys
  }
}
