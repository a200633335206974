/** What a snapshot costs. Compaction and restart both replay on top of a serialized
    memory, and serialization drops the pending-reference index. This module proves exactly
    when that loss is invisible. */
module Snapshot {
  import opened Ops
  import opened Memory
  import opened Linking
  import opened Replay

  /** Equal durable state: everything a snapshot carries. */
  predicate Same(a: Memory, b: Memory) {
    Reload(a) == Reload(b)
  }

  /** A snapshot carries everything but the index and the pending bit, cold tier included. */
  lemma {:induction false} SnapshotCarries(m: Memory)
    ensures Reload(m) == Memory(m.files, m.nodes, m.edges, m.cold, m.attrs, Index(map[], {}), false)
    ensures Reload(Reload(m)) == Reload(m)
  {
  }

  // ---------------------------------------------------------------- guards for assertions

  /** An assertion about nodes that exist already, or about ids resolution never reads. */
  predicate Grounded(m: Memory, op: Op) {
    op.Assert? ==>
      && (op.evidence in m.nodes || !Linkable(op.evidence))
      && (op.claim in m.nodes || !Linkable(op.claim))
  }

  /** A guard a caller can check against the graph before asserting: it makes the
      assertion quiet, whatever the index holds. */
  lemma {:induction false} GroundedIsQuiet(k: Kernel, m: Memory, op: Op)
    requires WellFormed(k) && Grounded(m, op)
    ensures Quiet(k, m, op)
  {
    if op.Assert? {
      var more := m.nodes + {op.evidence, op.claim};
      assert LinkableIn(more) == LinkableIn(m.nodes);
      assert k.imports(more) == k.imports(LinkableIn(more)) && k.imports(m.nodes) == k.imports(LinkableIn(m.nodes));
      assert k.references(more, m.index) == k.references(LinkableIn(more), m.index);
      assert k.references(m.nodes, m.index) == k.references(LinkableIn(m.nodes), m.index);
    }
  }

  /** An operation that is no assertion, or comes after something has read the edges since
      the last ingest: checkable on the log alone. */
  predicate Orderly(before: seq<Op>, op: Op) {
    op.Assert? ==> !Pending(before)
  }

  /** A log that recalls, or signals a failure, between an ingest and the next assertion
      replays to the live memory at every step. */
  lemma {:induction false} OrderlyLogReproduces(k: Kernel, m: Memory, ops: seq<Op>)
    requires WellFormed(k) && Settled(m) && Fits(k, m, ops)
    requires forall i | 0 <= i < |ops| :: Orderly(ops[..i], ops[i])
    ensures Reproduces(k, m, ops)
  {
    hide WellFormed, Live, Links, Fits;
    forall i | 0 <= i < |ops| && Pending(ops[..i])
      ensures Silent(k, Live(k, m, ops[..i]), ops[i])
    {
      assert Orderly(ops[..i], ops[i]);
    }
    ReplayEqualsLiveIff(k, m, ops);
  }

  // ---------------------------------------------------------------- what the log teaches

  /** The part of a memory that ingests determine by themselves. */
  datatype Known = Known(files: map<Path, string>, index: Index)

  function Learn(k: Kernel, x: Known, op: Op): Known {
    if !op.Ingest? then x
    else
      var text := k.clean(op.source);
      if op.path in x.files && x.files[op.path] == text then x
      else
        var parsed := k.parse(op.path, text);
        Known(x.files[op.path := text],
              Index(x.index.facts[op.path := parsed.facts], x.index.constants + parsed.constants))
  }

  function LearnAll(k: Kernel, x: Known, ops: seq<Op>): Known {
    if ops == [] then x else Learn(k, LearnAll(k, x, ops[..|ops| - 1]), ops[|ops| - 1])
  }

  function Knows(m: Memory): Known {
    Known(m.files, m.index)
  }

  lemma {:induction false} StepLearns(k: Kernel, m: Memory, op: Op)
    ensures Knows(Applied(k, m, op)) == Learn(k, Knows(m), op)
  {
    if op.PageFault? { SignalAllFrame(k, m, op.files, op.depth); }
  }

  lemma {:induction false} LiveLearns(k: Kernel, m: Memory, ops: seq<Op>)
    ensures Knows(Live(k, m, ops)) == LearnAll(k, Knows(m), ops)
  {
    hide Applied, Learn, Relinked;
    if ops != [] {
      LiveLearns(k, m, ops[..|ops| - 1]);
      StepLearns(k, Live(k, m, ops[..|ops| - 1]), ops[|ops| - 1]);
    }
  }

  lemma {:induction false} ReplayLearns(k: Kernel, m: Memory, ops: seq<Op>)
    ensures Knows(ApplyAll(k, Deferred(m, false), ops).memory) == LearnAll(k, Knows(m), ops)
    ensures Knows(Replayed(k, m, ops)) == LearnAll(k, Knows(m), ops)
  {
    hide Applied, Learn, Relinked;
    if ops != [] {
      var init, op := ops[..|ops| - 1], ops[|ops| - 1];
      ReplayLearns(k, m, init);
      var d := ApplyAll(k, Deferred(m, false), init);
      StepLearns(k, d.memory, op);
      StepLearns(k, Settle(k, d), op);
    }
  }

  // ---------------------------------------------------------------- losing the index

  /** An ingest into `m` resolves alike with `m`'s own index and with `other`. */
  ghost predicate IngestAlike(k: Kernel, m: Memory, other: Index, op: Op) {
    op.Ingest? ==>
      var next := IngestDeferred(k, m, op.path, op.source);
      LinksAlike(k, next.nodes, next.edges, next.index, Learn(k, Known(m.files, other), op).index)
  }

  /** From equal durable states an operation leads to equal durable states, except that an
      ingest needs one index to stand in for the other: whatever the thinner one can no
      longer prune must be what the fuller one would link again. */
  lemma {:induction false} StepSameIff(k: Kernel, a: Memory, b: Memory, op: Op)
    requires WellFormed(k) && Settled(a) && Settled(b) && Same(a, b) && Roomy(k, a, op)
    ensures Roomy(k, b, op)
    ensures Same(Eager(k, a, op), Eager(k, b, op)) <==> IngestAlike(k, a, b.index, op)
  {
    hide WellFormed, Relinked, LinksAlike;
    assert b == a.(index := b.index);
    SameRoom(k, a, b, op);
    match op
    case Ingest(path, source) =>
      var x, y := IngestDeferred(k, a, path, source), IngestDeferred(k, b, path, source);
      assert y == x.(index := y.index) && y.index == Learn(k, Known(a.files, b.index), op).index;
      RelinkedAlikeIff(k, x.nodes, x.edges, x.index, y.index);
    case PageFault(files, depth) =>
      SignalAllSame(k, a, b, files, depth);
    case _ =>
  }

  lemma {:induction false} SameRoom(k: Kernel, a: Memory, b: Memory, op: Op)
    requires CensusOf(a) == CensusOf(b) && a.cold == b.cold
    ensures Roomy(k, a, op) == Roomy(k, b, op)
  {
    hide Acted, Count;
    ActedCount(k, a, op);
    ActedCount(k, b, op);
  }

  lemma {:induction false} SignalAllSame(k: Kernel, a: Memory, b: Memory, files: seq<Path>, depth: nat)
    requires b == a.(index := b.index)
    ensures var x, y := SignalAll(k, a, files, depth), SignalAll(k, b, files, depth);
      y == x.(index := b.index) && x.index == a.index && x.stale == a.stale
  {
    if files != [] { SignalAllSame(k, a, b, files[..|files| - 1], depth); }
  }

  lemma {:induction false} LiveStaysSettled(k: Kernel, m: Memory, ops: seq<Op>)
    requires Settled(m)
    ensures Settled(Live(k, m, ops))
  {
    hide Applied, Relinked;
    if ops != [] {
      LiveStaysSettled(k, m, ops[..|ops| - 1]);
      StepKeepsIndexed(k, Live(k, m, ops[..|ops| - 1]), ops[|ops| - 1]);
    }
  }

  ghost predicate SameAfter(k: Kernel, m: Memory, ops: seq<Op>) {
    Same(Live(k, m, ops), Live(k, Reload(m), ops))
  }

  ghost predicate ReloadInvisible(k: Kernel, m: Memory, tail: seq<Op>) {
    forall t | 0 <= t <= |tail| :: SameAfter(k, m, tail[..t])
  }

  /** `op` links alike after `before` whether or not `m` was reloaded first: the memory that
      was not, and an index holding what `before` alone taught. */
  ghost predicate LinksSurvive(k: Kernel, m: Memory, before: seq<Op>, op: Op) {
    IngestAlike(k, Live(k, m, before), LearnAll(k, Known(m.files, EMPTY_INDEX), before).index, op)
  }

  ghost predicate SurvivesReload(k: Kernel, m: Memory, tail: seq<Op>) {
    forall i | 0 <= i < |tail| :: LinksSurvive(k, m, tail[..i], tail[i])
  }

  lemma {:induction false} SameAtStart(k: Kernel, m: Memory)
    ensures SameAfter(k, m, [])
  {
  }

  lemma {:induction false} StepAfterReload(k: Kernel, m: Memory, ops: seq<Op>)
    requires WellFormed(k) && Settled(m) && Fits(k, m, ops) && ops != [] && SameAfter(k, m, ops[..|ops| - 1])
    ensures SameAfter(k, m, ops) <==> LinksSurvive(k, m, ops[..|ops| - 1], ops[|ops| - 1])
  {
    hide WellFormed, Eager, IngestAlike, Fits, Roomy;
    var init := ops[..|ops| - 1];
    assert ops == init + [ops[|ops| - 1]];
    RoomForNext(k, m, init, ops[|ops| - 1]);
    LiveStaysSettled(k, m, init);
    LiveStaysSettled(k, Reload(m), init);
    LiveLearns(k, Reload(m), init);
    StepSameIff(k, Live(k, m, init), Live(k, Reload(m), init), ops[|ops| - 1]);
  }

  /** A reload of the live memory is invisible at every later step exactly when every later
      ingest links alike with its full index and with what was ingested since. */
  lemma {:induction false} ReloadInvisibleIff(k: Kernel, m: Memory, tail: seq<Op>)
    requires WellFormed(k) && Settled(m) && Fits(k, m, tail)
    ensures ReloadInvisible(k, m, tail) <==> SurvivesReload(k, m, tail)
  {
    hide WellFormed, Settled, SameAfter, LinksSurvive, Fits;
    if tail == [] {
      assert SameAfter(k, m, []) by { SameAtStart(k, m); }
    } else {
      var init := tail[..|tail| - 1];
      FitsPrefix(k, m, tail, |init|);
      ReloadInvisibleIff(k, m, init);
      AllPrefixes(ops => SameAfter(k, m, ops), (before, op) => LinksSurvive(k, m, before, op), tail);
      if ReloadInvisible(k, m, init) {
        assert init[..|init|] == init;
        StepAfterReload(k, m, tail);
      }
    }
  }

  lemma {:induction false} AllPrefixes(state: seq<Op> -> bool, step: (seq<Op>, Op) -> bool, ops: seq<Op>)
    requires ops != []
    ensures var init := ops[..|ops| - 1];
      && ((forall t | 0 <= t <= |ops| :: state(ops[..t])) <==>
          (forall t | 0 <= t <= |init| :: state(init[..t])) && state(ops))
      && ((forall i | 0 <= i < |ops| :: step(ops[..i], ops[i])) <==>
          (forall i | 0 <= i < |init| :: step(init[..i], init[i])) && step(init, ops[|ops| - 1]))
  {
    var init := ops[..|ops| - 1];
    assert forall i | 0 <= i <= |init| :: ops[..i] == init[..i];
    assert ops[..|ops|] == ops && init[..|init|] == init;
    assert forall i | 0 <= i < |init| :: ops[i] == init[i];
  }

  // ---------------------------------------------------------------- folding

  /** What a replay standing at the resolved memory `m` makes of `op`, `dirty` telling
      whether that resolve is still to come: a pending resolve moves behind what an
      assertion added. */
  ghost function Stepped(k: Kernel, m: Memory, dirty: bool, op: Op): Memory {
    var next := Eager(k, m, op);
    if dirty && op.Assert? then next.(edges := Relinked(k, next.nodes, next.edges, next.index)) else next
  }

  lemma {:induction false} PendingAssert(k: Kernel, m: Memory, op: Op)
    requires WellFormed(k) && m.stale && op.Assert? && Roomy(k, m, op)
    ensures Resolve(k, Eager(k, m, op)) == Stepped(k, Resolve(k, m), true, op)
  {
    var belief := Link(AssertionEdge(op.evidence, op.claim, op.supports), k.authority(op.weight));
    RetainedRelinked(k, m.nodes, m.edges, m.index);
    AddAlike(Relinked(k, m.nodes, m.edges, m.index), m.edges, belief, m.index);
    hide WellFormed, Links, Retained, Has;
  }

  /** Replay's next state is a function of its current one and of the dirty flag. */
  lemma {:induction false} ReplayStep(k: Kernel, d: Deferred, op: Op)
    requires WellFormed(k) && Indexed(d.memory) && d.dirty == d.memory.stale && Roomy(k, d.memory, op)
    ensures Settle(k, ApplyOp(k, d, op)) == Stepped(k, Settle(k, d), d.dirty, op)
  {
    hide WellFormed, Relinked;
    if d.dirty {
      match op
      case Ingest(path, source) => ResolveBeforeIngestIsRedundant(k, d.memory, path, source);
      case Assert(_, _, _, _) => PendingAssert(k, d.memory, op);
      case _ =>
    }
  }

  /** A memory that another resolve would leave alone. */
  ghost predicate Resolved(k: Kernel, m: Memory) {
    Relinked(k, m.nodes, m.edges, m.index) == m.edges
  }

  /** `op` ends alike in two replays at `m`, one with `m`'s own index and a resolve pending
      iff `dirty`, one with `other` and a resolve pending iff `dirtyToo`. An assertion meets
      the pending resolves: both relink the vector it extended, or only one does and must
      not notice. */
  ghost predicate StepsAlike(k: Kernel, m: Memory, dirty: bool, other: Index, dirtyToo: bool, op: Op) {
    && IngestAlike(k, m, other, op)
    && (op.Assert? && dirty ==>
          if dirtyToo then
            var next := Eager(k, m, op);
            LinksAlike(k, next.nodes, next.edges, m.index, other)
          else Silent(k, m, op))
  }

  lemma {:induction false} UnnoticedIffSilent(k: Kernel, m: Memory, op: Op)
    requires WellFormed(k) && Settled(m) && Resolved(k, m) && op.Assert? && Roomy(k, m, op)
    ensures Stepped(k, m, true, op).edges == Eager(k, m, op).edges <==> Silent(k, m, op)
  {
    hide WellFormed, Links, Retained, Relinked, Has;
    var pending := m.(stale := true);
    AssertCommutesIffSilent(k, pending, op);
    assert Resolve(k, pending) == m;
  }

  lemma {:induction false} StepsAlikeIff(k: Kernel, a: Memory, p: bool, b: Memory, q: bool, op: Op)
    requires WellFormed(k) && Settled(a) && Settled(b) && Same(a, b) && Roomy(k, a, op)
    requires (q ==> p) && (p ==> Resolved(k, a))
    ensures Same(Stepped(k, a, p, op), Stepped(k, b, q, op)) <==> StepsAlike(k, a, p, b.index, q, op)
  {
    hide WellFormed, Relinked, LinksAlike, Silent, Resolved;
    assert b == a.(index := b.index);
    SameRoom(k, a, b, op);
    if op.Assert? && p {
      var next := Eager(k, a, op);
      if q {
        RelinkedAlikeIff(k, next.nodes, next.edges, a.index, b.index);
      } else {
        UnnoticedIffSilent(k, a, op);
      }
    } else {
      StepSameIff(k, a, b, op);
    }
  }

  /** Replaying `xs` after `head`, with and without folding `head` into a snapshot first. */
  ghost predicate FoldSame(k: Kernel, start: Memory, head: seq<Op>, xs: seq<Op>) {
    Same(Replayed(k, start, head + xs), Replayed(k, Reload(Replayed(k, start, head)), xs))
  }

  /** The index left after a fold: what the kept operations teach by themselves. */
  function TailIndex(k: Kernel, start: Memory, head: seq<Op>, before: seq<Op>): Index {
    LearnAll(k, Known(LearnAll(k, Knows(start), head).files, EMPTY_INDEX), before).index
  }

  /** Replaying `op` next links alike with and without the fold: a condition on the unfolded
      replay and on what the kept operations teach. */
  ghost predicate FoldSafe(k: Kernel, start: Memory, head: seq<Op>, before: seq<Op>, op: Op) {
    StepsAlike(k, Replayed(k, start, head + before), Pending(head + before),
               TailIndex(k, start, head, before), Pending(before), op)
  }

  ghost predicate FoldInvisible(k: Kernel, start: Memory, head: seq<Op>, tail: seq<Op>) {
    forall t | 0 <= t <= |tail| :: FoldSame(k, start, head, tail[..t])
  }

  ghost predicate FoldSurvives(k: Kernel, start: Memory, head: seq<Op>, tail: seq<Op>) {
    forall i | 0 <= i < |tail| :: FoldSafe(k, start, head, tail[..i], tail[i])
  }

  lemma {:induction false} ReplayIsResolved(k: Kernel, m: Memory, ops: seq<Op>)
    requires WellFormed(k) && Settled(m)
    ensures Settled(Replayed(k, m, ops)) && (Pending(ops) ==> Resolved(k, Replayed(k, m, ops)))
  {
    hide WellFormed, ApplyOp, Pending, Links, Retained;
    DirtyIsPending(k, m, ops);
    var d := ApplyAll(k, Deferred(m, false), ops);
    if d.dirty { RetainedRelinked(k, d.memory.nodes, d.memory.edges, d.memory.index); }
  }

  lemma {:induction false} ReplayedStep(k: Kernel, m: Memory, ops: seq<Op>, op: Op)
    requires WellFormed(k) && Settled(m) && Fits(k, m, ops + [op])
    ensures Replayed(k, m, ops + [op]) == Stepped(k, Replayed(k, m, ops), Pending(ops), op)
    ensures Roomy(k, Replayed(k, m, ops), op)
  {
    hide WellFormed, Stepped, ApplyOp, Pending, Relinked, Fits, Roomy;
    assert (ops + [op])[..|ops|] == ops;
    DirtyIsPending(k, m, ops);
    RoomForNext(k, m, ops, op);
    ReplayStep(k, ApplyAll(k, Deferred(m, false), ops), op);
  }

  /** What fits as a whole fits in two stages, the second on top of the first's snapshot. */
  lemma {:induction false} FitsAfterFold(k: Kernel, start: Memory, head: seq<Op>, tail: seq<Op>)
    requires Fits(k, start, head + tail)
    ensures Fits(k, start, head) && Fits(k, Reload(Replayed(k, start, head)), tail)
  {
    hide CountAll, ApplyAll, Relinked;
    assert (head + tail)[..|head|] == head;
    FitsPrefix(k, start, head + tail, |head|);
    ReplayFits(k, start, head);
    var floor := Reload(Replayed(k, start, head));
    forall i | 0 <= i <= |tail| ensures |CountAll(k, CensusOf(floor), tail[..i]).nodes| <= k.cap {
      assert (head + tail)[..|head| + i] == head + tail[..i];
      CountAppend(k, CensusOf(start), head, tail[..i]);
    }
  }

  lemma {:induction false} CountAppend(k: Kernel, c: Census, xs: seq<Op>, ys: seq<Op>)
    ensures CountAll(k, c, xs + ys) == CountAll(k, CountAll(k, c, xs), ys)
  {
    hide Count;
    if ys == [] {
      assert xs + ys == xs;
    } else {
      CountAppend(k, c, xs, ys[..|ys| - 1]);
      assert (xs + ys)[..|xs + ys| - 1] == xs + ys[..|ys| - 1];
    }
  }

  lemma {:induction false} PendingPrefixed(head: seq<Op>, xs: seq<Op>)
    requires Pending(xs)
    ensures Pending(head + xs)
  {
    assert (head + xs)[..|head + xs| - 1] == head + xs[..|xs| - 1];
    if !xs[|xs| - 1].Ingest? { PendingPrefixed(head, xs[..|xs| - 1]); }
  }

  lemma {:induction false} FoldStep(k: Kernel, start: Memory, head: seq<Op>, before: seq<Op>, op: Op)
    requires WellFormed(k) && Settled(start) && FoldSame(k, start, head, before)
    requires Fits(k, start, head + (before + [op]))
    ensures FoldSame(k, start, head, before + [op]) <==> FoldSafe(k, start, head, before, op)
  {
    hide WellFormed, Replayed, Stepped, StepsAlike, Pending, Same, Resolved, LearnAll, Fits, Roomy;
    var floor := Reload(Replayed(k, start, head));
    assert head + before + [op] == head + (before + [op]);
    FitsAfterFold(k, start, head, before + [op]);
    ReplayIsResolved(k, start, head);
    ReplayIsResolved(k, start, head + before);
    ReplayIsResolved(k, floor, before);
    ReplayedStep(k, start, head + before, op);
    ReplayedStep(k, floor, before, op);
    ReplayLearns(k, start, head);
    ReplayLearns(k, floor, before);
    if Pending(before) { PendingPrefixed(head, before); }
    StepsAlikeIff(k, Replayed(k, start, head + before), Pending(head + before), Replayed(k, floor, before), Pending(before), op);
  }

  lemma {:induction false} FoldNothing(k: Kernel, start: Memory, head: seq<Op>)
    ensures FoldSame(k, start, head, [])
  {
    assert head + [] == head;
  }

  /** **A fold is invisible at every later step exactly when** every later operation links
      alike with and without it. Any log below the resident cap. */
  lemma {:induction false} FoldInvisibleIff(k: Kernel, start: Memory, head: seq<Op>, tail: seq<Op>)
    requires WellFormed(k) && Settled(start) && Fits(k, start, head + tail)
    ensures FoldInvisible(k, start, head, tail) <==> FoldSurvives(k, start, head, tail)
  {
    hide WellFormed, FoldSame, FoldSafe, Settled, Fits;
    if tail == [] {
      FoldNothing(k, start, head);
    } else {
      var init, last := tail[..|tail| - 1], tail[|tail| - 1];
      assert (head + tail)[..|head + init|] == head + init;
      FitsPrefix(k, start, head + tail, |head + init|);
      FoldInvisibleIff(k, start, head, init);
      AllPrefixes(xs => FoldSame(k, start, head, xs), (before, op) => FoldSafe(k, start, head, before, op), tail);
      if FoldInvisible(k, start, head, init) {
        assert init[..|init|] == init && tail == init + [last];
        FoldStep(k, start, head, init, last);
      }
    }
  }

  /** In particular, a tail that ingests nothing and asserts only once the folded ingests
      were resolved always survives: it never consults the lost index. */
  lemma {:induction false} IngestFreeTailSurvives(k: Kernel, start: Memory, head: seq<Op>, tail: seq<Op>)
    requires forall i | 0 <= i < |tail| :: !tail[i].Ingest? && Orderly(head + tail[..i], tail[i])
    ensures FoldSurvives(k, start, head, tail)
  {
    hide Replayed, TailIndex, LinksAlike, Silent;
  }
}
