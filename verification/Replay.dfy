/** Live execution resolves after every ingest; replay defers resolution behind a `dirty`
    flag and resolves once before the next operation that reads edges. This module proves
    exactly when the fast form equals the simple one. */
module Replay {
  import opened Ops
  import opened Memory
  import opened Linking

  /** What the session does to its live memory when it records `op`. */
  function Eager(k: Kernel, m: Memory, op: Op): Memory {
    if op.Ingest? then Resolve(k, Applied(k, m, op)) else Applied(k, m, op)
  }

  function Live(k: Kernel, m: Memory, ops: seq<Op>): Memory {
    if ops == [] then m else Eager(k, Live(k, m, ops[..|ops| - 1]), ops[|ops| - 1])
  }

  /** A replay in progress: the memory and whether deferred ingests are pending. */
  datatype Deferred = Deferred(memory: Memory, dirty: bool)

  function Settle(k: Kernel, d: Deferred): Memory {
    if d.dirty then Resolve(k, d.memory) else d.memory
  }

  /** `apply_op`: one operation with the deferred-resolve discipline. */
  function ApplyOp(k: Kernel, d: Deferred, op: Op): Deferred {
    match op
    case Ingest(_, _) => Deferred(Applied(k, d.memory, op), true)
    case Retune(_) => Deferred(Applied(k, d.memory, op), d.dirty)
    case Assert(_, _, _, _) => Deferred(Applied(k, d.memory, op), d.dirty)
    case _ => Deferred(Applied(k, Settle(k, d), op), false)
  }

  function ApplyAll(k: Kernel, d: Deferred, ops: seq<Op>): Deferred {
    if ops == [] then d else ApplyOp(k, ApplyAll(k, d, ops[..|ops| - 1]), ops[|ops| - 1])
  }

  /** The state `replay_to` returns over a whole log. */
  function Replayed(k: Kernel, m: Memory, ops: seq<Op>): Memory {
    Settle(k, ApplyAll(k, Deferred(m, false), ops))
  }

  /** A resolved memory, as every session starts and every snapshot is. */
  predicate Settled(m: Memory) {
    !m.stale && Indexed(m)
  }

  // ---------------------------------------------------------------- one step

  lemma {:induction false} StepKeepsIndexed(k: Kernel, m: Memory, op: Op)
    requires Indexed(m)
    ensures Indexed(Applied(k, m, op)) && Applied(k, m, op).stale == (m.stale || op.Ingest?)
  {
    hide Relinked;
    if op.PageFault? { SignalAllFrame(k, m, op.files, op.depth); }
  }

  lemma {:induction false} SignalAllFrame(k: Kernel, m: Memory, files: seq<Path>, depth: nat)
    ensures SignalAll(k, m, files, depth) == m.(attrs := SignalAll(k, m, files, depth).attrs)
  {
    if files != [] { SignalAllFrame(k, m, files[..|files| - 1], depth); }
  }

  // ---------------------------------------------------------------- staying resident

  /** What ingests and assertions put into the graph, below the cap. */
  datatype Census = Census(files: map<Path, string>, nodes: set<NodeId>)

  function CensusOf(m: Memory): Census {
    Census(m.files, m.nodes)
  }

  function Count(k: Kernel, c: Census, op: Op): Census {
    match op
    case Ingest(path, source) =>
      var text := k.clean(source);
      if path in c.files && c.files[path] == text then c
      else
        var kept := if path in c.files then EvictedNodes(c.nodes, path) else c.nodes;
        Census(c.files[path := text], kept + k.parse(path, text).nodes)
    case Assert(evidence, claim, _, _) => c.(nodes := c.nodes + {evidence, claim})
    case _ => c
  }

  function CountAll(k: Kernel, c: Census, ops: seq<Op>): Census {
    if ops == [] then c else Count(k, CountAll(k, c, ops[..|ops| - 1]), ops[|ops| - 1])
  }

  /** Nothing is demoted at the start, and no prefix of the log needs more nodes than the cap:
      a condition on the log alone. */
  ghost predicate Fits(k: Kernel, m: Memory, ops: seq<Op>) {
    m.cold == map[] && forall i | 0 <= i <= |ops| :: |CountAll(k, CensusOf(m), ops[..i]).nodes| <= k.cap
  }

  lemma {:induction false} ActedCount(k: Kernel, m: Memory, op: Op)
    ensures CensusOf(Acted(k, m, op)) == Count(k, CensusOf(m), op) && Acted(k, m, op).cold == m.cold
  {
    if op.PageFault? { SignalAllFrame(k, m, op.files, op.depth); }
  }

  lemma {:induction false} FitsPrefix(k: Kernel, m: Memory, ops: seq<Op>, n: nat)
    requires Fits(k, m, ops) && n <= |ops|
    ensures Fits(k, m, ops[..n]) && |CountAll(k, CensusOf(m), ops[..n]).nodes| <= k.cap
  {
    hide CountAll;
    forall i | 0 <= i <= n ensures |CountAll(k, CensusOf(m), ops[..n][..i]).nodes| <= k.cap {
      assert ops[..n][..i] == ops[..i];
    }
  }

  /** A memory whose census and cold tier are those of the log has room for its next step. */
  lemma {:induction false} StepFits(k: Kernel, m: Memory, start: Memory, ops: seq<Op>, op: Op)
    requires Fits(k, start, ops + [op])
    requires m.cold == map[] && CensusOf(m) == CountAll(k, CensusOf(start), ops)
    ensures Roomy(k, m, op) && Applied(k, m, op) == Acted(k, m, op)
    ensures Applied(k, m, op).cold == map[] && CensusOf(Applied(k, m, op)) == CountAll(k, CensusOf(start), ops + [op])
  {
    hide Acted, Count;
    ActedCount(k, m, op);
    assert (ops + [op])[..|ops|] == ops && (ops + [op])[..|ops| + 1] == ops + [op];
  }

  lemma {:induction false} LiveFits(k: Kernel, m: Memory, ops: seq<Op>)
    requires Fits(k, m, ops)
    ensures Live(k, m, ops).cold == map[] && CensusOf(Live(k, m, ops)) == CountAll(k, CensusOf(m), ops)
  {
    hide Applied, Count, Fits, Relinked;
    if ops != [] {
      var init, op := ops[..|ops| - 1], ops[|ops| - 1];
      assert ops == init + [op];
      FitsPrefix(k, m, ops, |init|);
      LiveFits(k, m, init);
      StepFits(k, Live(k, m, init), m, init, op);
    } else {
      StartFits(k, m);
    }
  }

  lemma {:induction false} StartFits(k: Kernel, m: Memory)
    requires Fits(k, m, [])
    ensures m.cold == map[]
  {
  }

  lemma {:induction false} ReplayFits(k: Kernel, m: Memory, ops: seq<Op>)
    requires Fits(k, m, ops)
    ensures var d := ApplyAll(k, Deferred(m, false), ops);
      d.memory.cold == map[] && CensusOf(d.memory) == CountAll(k, CensusOf(m), ops)
  {
    hide Applied, Count, Fits, Relinked;
    if ops != [] {
      var init, op := ops[..|ops| - 1], ops[|ops| - 1];
      assert ops == init + [op];
      FitsPrefix(k, m, ops, |init|);
      ReplayFits(k, m, init);
      var d := ApplyAll(k, Deferred(m, false), init);
      StepFits(k, d.memory, m, init, op);
      StepFits(k, Settle(k, d), m, init, op);
    } else {
      StartFits(k, m);
    }
  }

  /** Whoever stands where the log leads, live or replaying, has room for the next step. */
  lemma {:induction false} RoomForNext(k: Kernel, m: Memory, ops: seq<Op>, op: Op)
    requires Fits(k, m, ops + [op])
    ensures Roomy(k, Live(k, m, ops), op)
    ensures Roomy(k, ApplyAll(k, Deferred(m, false), ops).memory, op) && Roomy(k, Replayed(k, m, ops), op)
  {
    hide Applied, Acted, Fits, Relinked, Roomy;
    assert (ops + [op])[..|ops|] == ops;
    FitsPrefix(k, m, ops + [op], |ops|);
    LiveFits(k, m, ops);
    ReplayFits(k, m, ops);
    StepFits(k, Live(k, m, ops), m, ops, op);
    StepFits(k, ApplyAll(k, Deferred(m, false), ops).memory, m, ops, op);
    StepFits(k, Replayed(k, m, ops), m, ops, op);
  }

  // ---------------------------------------------------------------- one step, exactly

  /** An edge owned before a changing ingest is owned after it too, or evicted by it. */
  lemma {:induction false} OwnedOrEvicted(m: Memory, path: Path, facts: Facts, constants: set<NodeId>, e: Edge)
    requires Indexed(m) && Owned(e, m.index)
    ensures var after := Index(m.index.facts[path := facts], constants);
      !Owned(e, after) ==> path in m.files && BelongsTo(e.source, path)
  {
  }

  /** Vectors that prune alike before an ingest still do after it, with its new index. */
  lemma {:induction false} IngestPrunesAlike(m: Memory, edges: Edges, path: Path, facts: Facts, constants: set<NodeId>)
    requires Indexed(m) && Retained(edges, m.index) == Retained(m.edges, m.index)
    ensures var after := Index(m.index.facts[path := facts], constants);
      if path in m.files then Retained(EvictedEdges(edges, path), after) == Retained(EvictedEdges(m.edges, path), after)
      else Retained(edges, after) == Retained(m.edges, after)
  {
    var after := Index(m.index.facts[path := facts], constants);
    var gone := if path in m.files then Touching(path) else iset{};
    var drop := gone + OwnedBy(after);
    forall e | e in OwnedBy(m.index) ensures e in drop { OwnedOrEvicted(m, path, facts, constants, e); }
    RetainedIsKept(edges, m.index);
    RetainedIsKept(m.edges, m.index);
    KeptThrough(edges, m.edges, OwnedBy(m.index), drop);
    if path in m.files {
      PrunedEviction(edges, path, after);
      PrunedEviction(m.edges, path, after);
    } else {
      assert drop == OwnedBy(after);
      RetainedIsKept(edges, after);
      RetainedIsKept(m.edges, after);
    }
  }

  lemma {:induction false} KeptThrough(a: Edges, b: Edges, x: iset<Edge>, drop: iset<Edge>)
    requires Kept(a, x) == Kept(b, x) && x <= drop
    ensures Kept(a, drop) == Kept(b, drop)
  {
    KeptTwice(a, x, drop);
    KeptTwice(b, x, drop);
    assert x + drop == drop;
  }

  lemma {:induction false} PrunedEviction(edges: Edges, path: Path, index: Index)
    ensures Retained(EvictedEdges(edges, path), index) == Kept(edges, Touching(path) + OwnedBy(index))
  {
    EvictedIsKept(edges, path);
    RetainedIsKept(EvictedEdges(edges, path), index);
    KeptTwice(edges, Touching(path), OwnedBy(index));
  }

  /** Every operation keeps the edge vector free of duplicates. */
  lemma {:induction false} StepKeepsDuplicateFree(k: Kernel, m: Memory, op: Op)
    requires WellFormed(k) && DuplicateFree(m.edges) && Roomy(k, m, op)
    ensures DuplicateFree(Acted(k, m, op).edges) && DuplicateFree(Eager(k, m, op).edges)
  {
    hide WellFormed, Relinked;
    match op
    case Ingest(path, source) =>
      EvictedIsKept(m.edges, path);
      KeptStaysDuplicateFree(m.edges, Touching(path));
      var parsed := k.parse(path, k.clean(source));
      AddAllKeepsDuplicateFree(m.edges, parsed.edges);
      AddAllKeepsDuplicateFree(EvictedEdges(m.edges, path), parsed.edges);
      var next := IngestDeferred(k, m, path, source);
      RelinkedIsDuplicateFree(k, next.nodes, next.edges, next.index);
    case PageFault(files, depth) => SignalAllFrame(k, m, files, depth);
    case _ =>
  }

  /** A node of the file at `path`: the file itself, or something declared in it. */
  ghost predicate Inside(id: NodeId, path: Path) {
    id == FileNode(path) || (exists name :: id == SymbolNode(path, name) || id == UseNode(path, name) || id == ModuleNode(path, name))
  }

  lemma {:induction false} InsideBelongs(id: NodeId, path: Path)
    ensures BelongsTo(id, path) <==> Inside(id, path)
  {
    match id
    case FileNode(_) =>
    case SymbolNode(p, name) => if p == path { assert id == SymbolNode(path, name); }
    case UseNode(p, name) => if p == path { assert id == UseNode(path, name); }
    case ModuleNode(p, name) => if p == path { assert id == ModuleNode(path, name); }
    case OtherNode(_) =>
  }

  ghost predicate Touches(l: Link, path: Path) {
    Inside(l.edge.source, path) || Inside(l.edge.target, path)
  }

  lemma {:induction false} AddAllMembers(edges: Edges, more: Edges)
    ensures forall l :: l in AddAll(edges, more) ==> l in edges || l in more
    ensures edges <= AddAll(edges, more)
    ensures forall l | l in more :: Has(AddAll(edges, more), l.edge)
  {
    if more != [] {
      var init, last := more[..|more| - 1], more[|more| - 1];
      AddAllMembers(edges, init);
      var part, whole := AddAll(edges, init), AddAll(edges, more);
      assert part <= whole && more == init + [last];
      forall l | l in more ensures Has(whole, l.edge) {
        if l in init {
          var i :| 0 <= i < |part| && part[i].edge == l.edge;
          assert whole[i].edge == l.edge;
        } else if !Has(part, last.edge) {
          assert whole[|part|].edge == last.edge;
        }
      }
    }
  }

  /** **A re-ingested file is replaced**: of its old nodes and edges nothing is left but what
      the new parse makes again; everything of other files stays, in order. */
  lemma {:induction false} IngestReplacesFile(k: Kernel, m: Memory, path: Path, source: string)
    requires path in m.files && m.files[path] != k.clean(source)
    ensures var n, parsed := IngestDeferred(k, m, path, source), k.parse(path, k.clean(source));
      && n.files == m.files[path := k.clean(source)] && n.stale && n.cold == m.cold
      && n.index.facts == m.index.facts[path := parsed.facts] && n.index.constants == m.index.constants + parsed.constants
      && n.attrs == k.onIngest(m.attrs, m.nodes, path, source)
      && (forall id :: id in n.nodes <==> id in parsed.nodes || (id in m.nodes && !Inside(id, path)))
      && (forall l | l in n.edges && Touches(l, path) :: l in parsed.edges)
      && (forall l | l in m.edges && !Touches(l, path) :: l in n.edges)
      && Kept(m.edges, Touching(path)) <= n.edges
      && (forall l | l in n.edges :: l in m.edges || l in parsed.edges)
      && (forall l | l in parsed.edges :: Has(n.edges, l.edge))
  {
    var parsed := k.parse(path, k.clean(source));
    forall id ensures BelongsTo(id, path) <==> Inside(id, path) { InsideBelongs(id, path); }
    hide Inside, BelongsTo;
    var kept := EvictedEdges(m.edges, path);
    EvictedIsKept(m.edges, path);
    KeptMembers(m.edges, Touching(path));
    AddAllMembers(kept, parsed.edges);
    assert forall l :: l in kept <==> l in m.edges && !Touches(l, path);
  }

  /** A new file only adds. */
  lemma {:induction false} IngestAddsFile(k: Kernel, m: Memory, path: Path, source: string)
    requires path !in m.files
    ensures var n, parsed := IngestDeferred(k, m, path, source), k.parse(path, k.clean(source));
      && n.files == m.files[path := k.clean(source)] && n.stale && n.cold == m.cold
      && n.index.facts == m.index.facts[path := parsed.facts] && n.index.constants == m.index.constants + parsed.constants
      && n.attrs == k.onIngest(m.attrs, m.nodes, path, source)
      && n.nodes == m.nodes + parsed.nodes && m.edges <= n.edges
      && (forall l | l in n.edges :: l in m.edges || l in parsed.edges)
      && (forall l | l in parsed.edges :: Has(n.edges, l.edge))
  {
    AddAllMembers(m.edges, k.parse(path, k.clean(source)).edges);
  }

  /** An assertion adds its endpoints and, unless it is there already, one edge at the end: of
      the kind its polarity says, from the evidence to the claim, with the clamped authority as
      weight. */
  lemma {:induction false} AssertAddsBelief(k: Kernel, m: Memory, evidence: NodeId, claim: NodeId, supports: bool, weight: Bits)
    ensures var n := Acted(k, m, Assert(evidence, claim, supports, weight));
      var e := Edge(if supports then Supports else Contradicts, evidence, claim);
      && n == m.(nodes := n.nodes, edges := n.edges, attrs := n.attrs)
      && (forall id :: id in n.nodes <==> id in m.nodes || id == evidence || id == claim)
      && n.edges == (if Has(m.edges, e) then m.edges else m.edges + [Link(e, k.authority(weight))])
      && n.attrs == k.onAssert(m.attrs, m.nodes, e, k.authority(weight))
  {
  }

  /** The failures a page fault stands for. */
  function FailureOps(files: seq<Path>, depth: nat): seq<Op> {
    if files == [] then [] else FailureOps(files[..|files| - 1], depth) + [Failure(FileNode(files[|files| - 1]), depth)]
  }

  lemma {:induction false} FailuresSignalAll(k: Kernel, m: Memory, files: seq<Path>, depth: nat)
    requires m.cold == map[] && |m.nodes| <= k.cap
    ensures Live(k, m, FailureOps(files, depth)) == SignalAll(k, m, files, depth)
  {
    if files != [] {
      var init, last := files[..|files| - 1], Failure(FileNode(files[|files| - 1]), depth);
      FailuresSignalAll(k, m, init, depth);
      SignalAllFrame(k, m, init, depth);
      assert FailureOps(files, depth)[..|FailureOps(init, depth)|] == FailureOps(init, depth);
    }
  }

  /** **A page fault is its failures and a recall**: below the cap it does to the memory what
      recording a failure of each faulting file in turn and then a recall around the first one
      would; with no file, nothing. */
  lemma {:induction false} PageFaultIsFailures(k: Kernel, m: Memory, files: seq<Path>, depth: nat, budget: nat)
    requires m.cold == map[] && |m.nodes| <= k.cap
    ensures files == [] ==> Eager(k, m, PageFault(files, depth)) == m
    ensures files != [] ==>
      Eager(k, m, PageFault(files, depth)) == Live(k, m, FailureOps(files, depth) + [Recalled(Around(FileNode(files[0])), budget)])
  {
    FailuresSignalAll(k, m, files, depth);
    SignalAllFrame(k, m, files, depth);
    if files != [] {
      var failures, recall := FailureOps(files, depth), Recalled(Around(FileNode(files[0])), budget);
      assert (failures + [recall])[..|failures|] == failures;
    }
  }

  /** A retune sets the weights and nothing else; a recall that is not around a node changes
      nothing at all, one around a node what paging it in changes. */
  lemma {:induction false} LightOperations(k: Kernel, m: Memory, weights: Weights, recall: Recall, budget: nat)
    ensures Eager(k, m, Retune(weights)) == m.(attrs := m.attrs.(weights := weights))
    ensures !recall.Around? ==> Eager(k, m, Recalled(recall, budget)) == m
    ensures recall.Around? && m.cold == map[] && |m.nodes| <= k.cap ==>
      Eager(k, m, Recalled(recall, budget)) == m.(attrs := k.onPageIn(m.attrs, m.nodes, m.edges, recall.node))
  {
  }

  /** An unchanged file leaves the graph alone. */
  lemma {:induction false} IngestKeepsUnchanged(k: Kernel, m: Memory, path: Path, source: string)
    requires path in m.files && m.files[path] == k.clean(source)
    ensures var n := IngestDeferred(k, m, path, source);
      n == m.(attrs := k.onIngest(m.attrs, m.nodes, path, source), stale := true)
  {
  }

  /** The same after the resolve, below the cap: an edge at the re-ingested file is one its
      parse made or one the passes link now. */
  lemma {:induction false} EagerReplacesFile(k: Kernel, m: Memory, path: Path, source: string)
    requires path in m.files && m.files[path] != k.clean(source) && Roomy(k, m, Ingest(path, source))
    ensures var n, parsed := Eager(k, m, Ingest(path, source)), k.parse(path, k.clean(source));
      && (forall id :: id in n.nodes <==> id in parsed.nodes || (id in m.nodes && !Inside(id, path)))
      && (forall l | l in n.edges && Touches(l, path) :: l in parsed.edges || l in Links(k, n.nodes, n.index))
  {
    hide Inside, Touches, Links, IngestDeferred;
    IngestReplacesFile(k, m, path, source);
    var next := IngestDeferred(k, m, path, source);
    RetainedIsKept(next.edges, next.index);
    KeptMembers(next.edges, OwnedBy(next.index));
    assert next == Acted(k, m, Ingest(path, source));
  }

  /** Resolving before a further ingest changes nothing the next resolve does not redo:
      whatever the earlier resolve linked is pruned or evicted with its file. */
  lemma {:induction false} ResolveBeforeIngestIsRedundant(k: Kernel, m: Memory, path: Path, source: string)
    requires WellFormed(k) && Indexed(m)
    ensures Resolve(k, IngestDeferred(k, Resolve(k, m), path, source))
         == Resolve(k, IngestDeferred(k, m, path, source))
  {
    if m.stale {
      var text := k.clean(source);
      var edges := Resolve(k, m).edges;
      RetainedRelinked(k, m.nodes, m.edges, m.index);
      if !(path in m.files && m.files[path] == text) {
        var parsed := k.parse(path, text);
        var constants := m.index.constants + parsed.constants;
        var after := Index(m.index.facts[path := parsed.facts], constants);
        IngestPrunesAlike(m, edges, path, parsed.facts, constants);
        if path in m.files {
          AddAllAlike(EvictedEdges(edges, path), EvictedEdges(m.edges, path), parsed.edges, after);
        } else {
          AddAllAlike(edges, m.edges, parsed.edges, after);
        }
      }
    }
  }

  /** `Quiet`: an assertion creates no node that resolution would link differently. */
  ghost predicate Quiet(k: Kernel, m: Memory, op: Op) {
    op.Assert? ==>
      Links(k, m.nodes + {op.evidence, op.claim}, m.index) == Links(k, m.nodes, m.index)
  }

  /** The belief edge lands in the same place on either side of a resolve: it is there
      already, or there is nothing to link. */
  ghost predicate InPlace(k: Kernel, m: Memory, op: Op) {
    op.Assert? ==>
      Has(m.edges, AssertionEdge(op.evidence, op.claim, op.supports)) || Links(k, m.nodes, m.index) == []
  }

  /** An assertion a pending resolve cannot tell from one made after it. */
  ghost predicate Silent(k: Kernel, m: Memory, op: Op) {
    Quiet(k, m, op) && InPlace(k, m, op)
  }

  lemma {:induction false} BeliefSurvivesResolve(k: Kernel, m: Memory, evidence: NodeId, claim: NodeId, supports: bool)
    requires WellFormed(k)
    ensures var e := AssertionEdge(evidence, claim, supports);
      && !Owned(e, m.index)
      && (Has(Relinked(k, m.nodes, m.edges, m.index), e) <==> Has(m.edges, e))
  {
    var e := AssertionEdge(evidence, claim, supports);
    HasRetained(m.edges, m.index, e);
    HasRetained(Relinked(k, m.nodes, m.edges, m.index), m.index, e);
    RetainedRelinked(k, m.nodes, m.edges, m.index);
  }

  lemma {:induction false} SilentAfterSettling(k: Kernel, d: Deferred, op: Op)
    requires WellFormed(k)
    ensures Silent(k, d.memory, op) <==> Silent(k, Settle(k, d), op)
  {
    hide WellFormed, Links, Relinked;
    if op.Assert? { BeliefSurvivesResolve(k, d.memory, op.evidence, op.claim, op.supports); }
  }

  /** Asserting before the pending resolve equals asserting after it exactly when the
      assertion is silent. */
  lemma {:induction false} AssertCommutesIffSilent(k: Kernel, m: Memory, op: Op)
    requires WellFormed(k) && m.stale && op.Assert? && Roomy(k, m, op)
    ensures Eager(k, Resolve(k, m), op) == Resolve(k, Eager(k, m, op)) <==> Silent(k, m, op)
  {
    hide WellFormed, Links, Retained, Owned, Has;
    var belief := Link(AssertionEdge(op.evidence, op.claim, op.supports), k.authority(op.weight));
    var before := Links(k, m.nodes, m.index);
    var after := Links(k, m.nodes + {op.evidence, op.claim}, m.index);
    var kept := Retained(m.edges, m.index);
    LinksAreOwned(k, m.nodes, m.index);
    BeliefSurvivesResolve(k, m, op.evidence, op.claim, op.supports);
    RetainedAppend(m.edges, [belief], m.index);
    assert Eager(k, Resolve(k, m), op).edges == Add(kept + before, belief);
    if Has(m.edges, belief.edge) {
      SameTailIff(kept, before, after);
    } else {
      RetainedOne(belief, m.index);
      assert Resolve(k, Eager(k, m, op)).edges == kept + [belief] + after;
      assert kept + before + [belief] == kept + (before + [belief]);
      assert kept + [belief] + after == kept + ([belief] + after);
      SameTailIff(kept, before + [belief], [belief] + after);
      BeliefMovesIff(belief, before, after);
    }
  }

  lemma {:induction false} SameTailIff(a: Edges, x: Edges, y: Edges)
    ensures a + x == a + y <==> x == y
  {
    assert x == (a + x)[|a|..] && y == (a + y)[|a|..];
  }

  /** Appended after the links or before them: the same only when there are none. */
  lemma {:induction false} BeliefMovesIff(belief: Link, before: Edges, after: Edges)
    requires belief !in before
    ensures before + [belief] == [belief] + after <==> before == [] && after == []
  {
    assert before != [] ==> (before + [belief])[0] == before[0] && before[0] in before;
    assert ([belief] + after)[0] == belief && after == ([belief] + after)[1..];
  }

  // ---------------------------------------------------------------- whole runs

  /** Whether a replay of `ops` still has an unresolved ingest at its end. */
  predicate Pending(ops: seq<Op>) {
    ops != [] &&
    var last := ops[|ops| - 1];
    last.Ingest? || ((last.Assert? || last.Retune?) && Pending(ops[..|ops| - 1]))
  }

  /** Every assertion that lands while an ingest is unresolved is silent. */
  ghost predicate AllSilent(k: Kernel, m: Memory, ops: seq<Op>) {
    forall i | 0 <= i < |ops| && Pending(ops[..i]) :: Silent(k, Live(k, m, ops[..i]), ops[i])
  }

  ghost predicate Reproduces(k: Kernel, m: Memory, ops: seq<Op>) {
    forall n | 0 <= n <= |ops| :: Replayed(k, m, ops[..n]) == Live(k, m, ops[..n])
  }

  /** The dirty flag is exactly the memory's own stale bit, and exactly `Pending`. */
  lemma {:induction false} DirtyIsPending(k: Kernel, m: Memory, ops: seq<Op>)
    requires Settled(m)
    ensures var d := ApplyAll(k, Deferred(m, false), ops);
      d.dirty == d.memory.stale == Pending(ops) && Indexed(d.memory)
  {
    if ops != [] {
      var init, op := ops[..|ops| - 1], ops[|ops| - 1];
      DirtyIsPending(k, m, init);
      var d := ApplyAll(k, Deferred(m, false), init);
      StepKeepsIndexed(k, d.memory, op);
      StepKeepsIndexed(k, Settle(k, d), op);
      if op.PageFault? { SignalAllFrame(k, Settle(k, d), op.files, op.depth); }
    }
  }

  /** One step of the refinement, both ways. */
  lemma {:induction false} StepAgreesIff(k: Kernel, d: Deferred, op: Op)
    requires WellFormed(k) && Indexed(d.memory) && d.dirty == d.memory.stale && Roomy(k, d.memory, op)
    ensures Settle(k, ApplyOp(k, d, op)) == Eager(k, Settle(k, d), op)
       <==> (d.dirty ==> Silent(k, d.memory, op))
  {
    if d.dirty {
      match op
      case Ingest(path, source) => ResolveBeforeIngestIsRedundant(k, d.memory, path, source);
      case Assert(_, _, _, _) => AssertCommutesIffSilent(k, d.memory, op);
      case _ =>
    }
  }

  /** **Replay == live, exactly when.** Rewinding to every step reproduces the state the
      live session had there, edge order included, if and only if every assertion that lands
      on an unresolved ingest is silent: it creates no node that changes what resolution
      links, and its edge exists already or there is nothing to link. */
  lemma {:induction false} ReplayEqualsLiveIff(k: Kernel, m: Memory, ops: seq<Op>)
    requires WellFormed(k) && Settled(m) && Fits(k, m, ops)
    ensures Reproduces(k, m, ops) <==> AllSilent(k, m, ops)
  {
    hide WellFormed, Silent, ApplyOp, Eager, Resolve, Reproduces, AllSilent, Pending, Fits, Roomy;
    if ops == [] {
      NothingToReplay(k, m);
    } else {
      var init, op := ops[..|ops| - 1], ops[|ops| - 1];
      assert ops == init + [op];
      FitsPrefix(k, m, ops, |init|);
      RoomForNext(k, m, init, op);
      ReplayEqualsLiveIff(k, m, init);
      PrefixesOf(k, m, ops);
      DirtyIsPending(k, m, init);
      var d := ApplyAll(k, Deferred(m, false), init);
      if Reproduces(k, m, init) {
        ReproducesAtEnd(k, m, init);
        StepAgreesIff(k, d, op);
        SilentAfterSettling(k, d, op);
      }
    }
  }

  lemma {:induction false} NothingToReplay(k: Kernel, m: Memory)
    ensures Reproduces(k, m, []) && AllSilent(k, m, [])
  {
  }

  lemma {:induction false} ReproducesAtEnd(k: Kernel, m: Memory, ops: seq<Op>)
    requires Reproduces(k, m, ops)
    ensures Replayed(k, m, ops) == Live(k, m, ops)
  {
    hide Replayed, Live;
    assert ops[..|ops|] == ops;
  }

  lemma {:induction false} PrefixesOf(k: Kernel, m: Memory, ops: seq<Op>)
    requires ops != []
    ensures var init, n := ops[..|ops| - 1], |ops| - 1;
      && (Reproduces(k, m, ops) <==>
          Reproduces(k, m, init) && Replayed(k, m, ops) == Live(k, m, ops))
      && (AllSilent(k, m, ops) <==>
          AllSilent(k, m, init) && (Pending(init) ==> Silent(k, Live(k, m, init), ops[n])))
  {
    hide Silent, Eager, Settle, ApplyAll;
    var init := ops[..|ops| - 1];
    assert forall i | 0 <= i <= |init| :: ops[..i] == init[..i];
    assert ops[..|ops|] == ops;
    assert forall i | 0 <= i < |init| :: ops[i] == init[i];
  }

  // ---------------------------------------------------------------- batches

  function DeferredBatch(k: Kernel, m: Memory, files: seq<(Path, string)>): Memory {
    if files == [] then m
    else
      var last := files[|files| - 1];
      Applied(k, DeferredBatch(k, m, files[..|files| - 1]), Ingest(last.0, last.1))
  }

  function BatchOps(files: seq<(Path, string)>): seq<Op> {
    seq(|files|, i requires 0 <= i < |files| => Ingest(files[i].0, files[i].1))
  }

  /** A deferred batch is the replay of its own log, below the cap or beyond it. */
  lemma {:induction false} BatchIsReplay(k: Kernel, m: Memory, files: seq<(Path, string)>)
    requires Settled(m)
    ensures Replayed(k, m, BatchOps(files)) == Resolve(k, DeferredBatch(k, m, files))
    ensures ApplyAll(k, Deferred(m, false), BatchOps(files)) == Deferred(DeferredBatch(k, m, files), files != [])
  {
    hide Applied, Relinked;
    if files != [] {
      var init := files[..|files| - 1];
      BatchIsReplay(k, m, init);
      assert BatchOps(files)[..|files| - 1] == BatchOps(init);
    }
  }

  /** A deferred batch with one final resolve is the per-file ingest loop, while all of it
      stays resident. */
  lemma {:induction false} BatchEqualsLoop(k: Kernel, m: Memory, files: seq<(Path, string)>)
    requires WellFormed(k) && Settled(m) && Fits(k, m, BatchOps(files))
    ensures Resolve(k, DeferredBatch(k, m, files)) == Live(k, m, BatchOps(files))
  {
    hide WellFormed, Live, Replayed, Applied, Fits, Links;
    BatchIsReplay(k, m, files);
    ReplayEqualsLiveIff(k, m, BatchOps(files));
    assert AllSilent(k, m, BatchOps(files));
    ReproducesAtEnd(k, m, BatchOps(files));
  }

  /** Resolving leaves no trace of itself but the edges. */
  lemma {:induction false} BatchStaysIndexed(k: Kernel, m: Memory, files: seq<(Path, string)>)
    requires Settled(m)
    ensures Settled(Resolve(k, DeferredBatch(k, m, files)))
  {
    hide Applied, Relinked;
    BatchIsReplay(k, m, files);
    DirtyIsPending(k, m, BatchOps(files));
  }
}
