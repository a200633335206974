/** Session-level guarantees over whole runs: replay reproduces the live memory, folding the
    log is transparent and confluent, and a restart restores everything. Each comes with the
    exact condition under which the code delivers it. */
module Timeline {
  import opened Ops
  import opened Memory
  import opened Linking
  import opened Replay
  import opened Snapshot
  import opened Chain
  import opened Session

  // ---------------------------------------------------------------- replay == live

  lemma {:induction false} PerformAllShape(w: World, s: Session, ops: seq<Op>)
    ensures var t := PerformAll(w, s, ops);
      && t.live == Live(w.kernel, s.live, ops) && t.ops == s.ops + ops
      && t == s.(live := t.live, ops := t.ops, chain := t.chain)
  {
    hide Eager, LinkHash;
    if ops != [] {
      PerformAllShape(w, s, ops[..|ops| - 1]);
      assert ops == ops[..|ops| - 1] + [ops[|ops| - 1]];
    }
  }

  lemma {:induction false} PerformAllKeeps(w: World, s: Session, ops: seq<Op>, history: seq<Op>)
    requires Valid(w, s) && Records(w, s, history)
    ensures Valid(w, PerformAll(w, s, ops)) && Records(w, PerformAll(w, s, ops), history + ops)
  {
    hide Valid, Records, Perform;
    if ops == [] {
      assert history + ops == history;
    } else {
      var init := ops[..|ops| - 1];
      PerformAllKeeps(w, s, init, history);
      PerformKeeps(w, PerformAll(w, s, init), ops[|ops| - 1], history + init);
      assert history + init + [ops[|ops| - 1]] == history + ops;
    }
  }

  lemma {:induction false} RewoundAndLive(w: World, ops: seq<Op>, n: nat)
    requires n <= |ops|
    ensures ReplayTo(w, PerformAll(w, Fresh(w), ops), n) == Replayed(w.kernel, New(w.kernel), ops[..n])
    ensures PerformAll(w, Fresh(w), ops[..n]).live == Live(w.kernel, New(w.kernel), ops[..n])
  {
    hide Live, Replayed, Perform, PerformAll, Commitment;
    PerformAllShape(w, Fresh(w), ops);
    PerformAllShape(w, Fresh(w), ops[..n]);
    assert Fresh(w).ops + ops == ops;
  }

  ghost predicate RewindsToLive(w: World, ops: seq<Op>, n: nat)
    requires n <= |ops|
  {
    ReplayTo(w, PerformAll(w, Fresh(w), ops), n) == PerformAll(w, Fresh(w), ops[..n]).live
  }

  /** A session rewound to every step shows exactly what was live there if and only if its
      log is silent. */
  lemma {:induction false} SessionReplayIff(w: World, ops: seq<Op>)
    requires Sound(w) && Fits(w.kernel, New(w.kernel), ops)
    ensures (forall n | 0 <= n <= |ops| :: RewindsToLive(w, ops, n)) <==> AllSilent(w.kernel, New(w.kernel), ops)
  {
    hide Live, Replayed, PerformAll, ReplayTo, AllSilent, WellFormed, Faithful, Fits;
    var k, m := w.kernel, New(w.kernel);
    forall n | 0 <= n <= |ops|
      ensures RewindsToLive(w, ops, n) <==> Replayed(k, m, ops[..n]) == Live(k, m, ops[..n])
    {
      RewoundAndLive(w, ops, n);
    }
    ReplayEqualsLiveIff(k, m, ops);
    if forall n | 0 <= n <= |ops| :: RewindsToLive(w, ops, n) {
      forall n | 0 <= n <= |ops| ensures Replayed(k, m, ops[..n]) == Live(k, m, ops[..n]) {
        assert RewindsToLive(w, ops, n);
      }
    }
  }

  /** Replaying the whole log reproduces what a snapshot of the live memory would hold. */
  ghost predicate Tracks(w: World, s: Session) {
    Same(ReplayTo(w, s, Length(s)), s.live)
  }

  function Rebuilt(w: World, s: Session): Memory {
    ReplayTo(w, s, Length(s))
  }

  lemma {:induction false} RebuiltIsReplayed(w: World, s: Session)
    ensures Rebuilt(w, s) == Replayed(w.kernel, Start(w, s), s.ops)
  {
    assert s.ops[..|s.ops|] == s.ops;
  }

  /** The index replay ends with: what the baseline holds and the kept operations teach. */
  function ReplayIndex(w: World, s: Session): Index {
    LearnAll(w.kernel, Knows(Start(w, s)), s.ops).index
  }

  /** What one recorded operation needs for replay to keep tracking the live memory: an
      ingest links alike with the live index and with replay's, and an assertion that
      replay still has a resolve pending for is silent. */
  ghost predicate StepSafe(w: World, s: Session, op: Op) {
    && IngestAlike(w.kernel, s.live, ReplayIndex(w, s), op)
    && (Pending(s.ops) ==> Silent(w.kernel, s.live.(index := ReplayIndex(w, s)), op))
  }

  /** A tracking session's replay is its live memory with replay's own index. */
  lemma {:induction false} TrackedReplay(w: World, s: Session)
    requires Valid(w, s) && Tracks(w, s)
    ensures Rebuilt(w, s) == s.live.(index := ReplayIndex(w, s))
    ensures Settled(Rebuilt(w, s))
  {
    hide ReplayTo, Replayed, LearnAll, Commitment, ChainOver;
    RebuiltIsReplayed(w, s);
    StartIsSettled(w, s);
    ReplayIsSettled(w.kernel, Start(w, s), s.ops);
    ReplayLearns(w.kernel, Start(w, s), s.ops);
  }

  /** One step, exactly: a tracking session still tracks after `op` if and only if the step
      is safe. */
  lemma {:induction false} StepTracksIff(w: World, s: Session, op: Op)
    requires Sound(w) && Valid(w, s) && Tracks(w, s) && Fits(w.kernel, Start(w, s), s.ops + [op])
    ensures Tracks(w, Perform(w, s, op)) <==> StepSafe(w, s, op)
  {
    hide WellFormed, Faithful, Replayed, ReplayTo, ChainOver, Commitment, Stepped, Silent, IngestAlike, LearnAll, Pending, Resolved, Fits, Roomy;
    var k, t := w.kernel, Perform(w, s, op);
    TrackedReplay(w, s);
    StartIsSettled(w, s);
    RebuiltIsReplayed(w, s);
    RebuiltIsReplayed(w, t);
    ReplayIsResolved(k, Start(w, s), s.ops);
    ReplayedStep(k, Start(w, s), s.ops, op);
    var rebuilt := Rebuilt(w, s);
    assert Rebuilt(w, t) == Stepped(k, rebuilt, Pending(s.ops), op);
    StepsAlikeIff(k, rebuilt, Pending(s.ops), s.live, false, op);
    NeverDirty(k, s.live, op);
    IngestAlikeSymmetric(k, s.live, rebuilt, op);
    if !op.Assert? { OnlyAssertsSpeak(k, rebuilt, op); }
  }

  lemma {:induction false} SameIsSymmetric(a: Memory, b: Memory)
    ensures Same(a, b) <==> Same(b, a)
  {
  }

  lemma {:induction false} NeverDirty(k: Kernel, m: Memory, op: Op)
    ensures Stepped(k, m, false, op) == Eager(k, m, op)
  {
  }

  lemma {:induction false} OnlyAssertsSpeak(k: Kernel, m: Memory, op: Op)
    requires !op.Assert?
    ensures Silent(k, m, op)
  {
  }

  /** Which of two indices is called the other does not matter. */
  lemma {:induction false} IngestAlikeSymmetric(k: Kernel, a: Memory, b: Memory, op: Op)
    requires b == a.(index := b.index)
    ensures IngestAlike(k, a, b.index, op) <==> IngestAlike(k, b, a.index, op)
  {
    hide Covers, AddAll, EvictedEdges;
  }

  // ---------------------------------------------------------------- compaction

  ghost predicate Transparent(w: World, s: Session, t: Session) {
    forall step | t.folded <= step <= Length(s) :: Same(ReplayTo(w, s, step), ReplayTo(w, t, step))
  }

  lemma {:induction false} CompactedReplay(w: World, s: Session, keep: nat, n: nat)
    requires |s.chain| == |s.ops| && keep < |s.ops| && n <= keep
    ensures var t, k, fold := Compact(w, s, keep), w.kernel, |s.ops| - keep;
      Same(ReplayTo(w, s, t.folded + n), ReplayTo(w, t, t.folded + n))
      <==> FoldSame(k, Start(w, s), s.ops[..fold], s.ops[fold..][..n])
  {
    hide Replayed, Same;
    var fold := |s.ops| - keep;
    assert s.ops[..fold] + s.ops[fold..][..n] == s.ops[..fold + n];
  }

  /** **Compaction is transparent exactly when** every kept operation links alike with and
      without the fold: every step at or above the new floor then replays as before. */
  lemma {:induction false} CompactTransparentIff(w: World, s: Session, keep: nat)
    requires Sound(w) && Valid(w, s) && keep < |s.ops| && Fits(w.kernel, Start(w, s), s.ops)
    ensures var fold := |s.ops| - keep;
      Transparent(w, s, Compact(w, s, keep)) <==> FoldSurvives(w.kernel, Start(w, s), s.ops[..fold], s.ops[fold..])
  {
    hide WellFormed, Faithful, Settled, ReplayTo, Same, FoldSurvives, FoldSame, Commitment, ChainOver, Fits;
    var t, k, start, fold := Compact(w, s, keep), w.kernel, Start(w, s), |s.ops| - keep;
    var head, tail := s.ops[..fold], s.ops[fold..];
    StartIsSettled(w, s);
    assert head + tail == s.ops;
    FoldInvisibleIff(k, start, head, tail);
    if Transparent(w, s, t) {
      forall n | 0 <= n <= |tail| ensures FoldSame(k, start, head, tail[..n]) {
        CompactedReplay(w, s, keep, n);
        assert Same(ReplayTo(w, s, t.folded + n), ReplayTo(w, t, t.folded + n));
      }
    }
    if FoldInvisible(k, start, head, tail) {
      forall step | t.folded <= step <= Length(s) ensures Same(ReplayTo(w, s, step), ReplayTo(w, t, step)) {
        CompactedReplay(w, s, keep, step - t.folded);
        assert FoldSame(k, start, head, tail[..step - t.folded]);
      }
    }
  }

  /** Steps at or below the new floor collapse to the floor state. */
  lemma {:induction false} CompactCollapses(w: World, s: Session, keep: nat, step: nat)
    requires Valid(w, s) && keep < |s.ops|
    requires step <= Compact(w, s, keep).folded
    ensures var t := Compact(w, s, keep);
      ReplayTo(w, t, step) == Reload(ReplayTo(w, s, t.folded))
  {
    var t := Compact(w, s, keep);
    assert t.ops[..Tail(t, step)] == [];
  }

  /** Folding in two stages differs from folding at once in the floor state at most, and
      exactly when the first stage changed what the deeper floor replays to. */
  lemma {:induction false} TwoStagesIff(w: World, s: Session, k1: nat, k2: nat)
    requires Valid(w, s) && k2 <= k1 < |s.ops|
    ensures var once, twice := Compact(w, s, k2), Compact(w, Compact(w, s, k1), k2);
      && twice == once.(baseline := twice.baseline, baselineHash := twice.baselineHash)
      && (twice == once <==> Same(ReplayTo(w, Compact(w, s, k1), once.folded), ReplayTo(w, s, once.folded)))
  {
    hide Replayed, Commitment, ChainOver, Settled;
    var mid := Compact(w, s, k1);
    var f1, f2 := |s.ops| - k1, |s.ops| - k2;
    assert s.ops[f1..][f2 - f1..] == s.ops[f2..];
    assert s.chain[f1..][f2 - f1..] == s.chain[f2..];
    if k1 == k2 { CompactCollapses(w, s, k1, mid.folded); }
  }

  lemma {:induction false} CompactSizes(w: World, s: Session, keep: nat)
    requires Valid(w, s) && keep < |s.ops|
    ensures |s.chain| == |s.ops|
    ensures var t := Compact(w, s, keep); |t.chain| == |t.ops| == keep && t.folded == Length(s) - keep
  {
    hide ReplayTo, Commitment;
  }

  /** **Compaction is confluent exactly when it is transparent**: after keeping `k1`, every
      deeper fold gives the session a single fold would, if and only if every kept operation
      links alike with and without the first fold. */
  lemma {:induction false} CompactConfluentIff(w: World, s: Session, k1: nat)
    requires Sound(w) && Valid(w, s) && k1 < |s.ops| && Fits(w.kernel, Start(w, s), s.ops)
    ensures var fold, mid := |s.ops| - k1, Compact(w, s, k1);
      |mid.chain| == |mid.ops| &&
      ((forall k2 | 0 <= k2 <= k1 :: Compact(w, mid, k2) == Compact(w, s, k2))
       <==> FoldSurvives(w.kernel, Start(w, s), s.ops[..fold], s.ops[fold..]))
  {
    hide ReplayTo, Same, FoldSurvives, Valid, Compact, WellFormed, Faithful, Fits;
    CompactTransparentIff(w, s, k1);
    CompactSizes(w, s, k1);
    var mid := Compact(w, s, k1);
    forall k2 | 0 <= k2 <= k1
      ensures Compact(w, mid, k2) == Compact(w, s, k2) <==> Same(ReplayTo(w, s, Length(s) - k2), ReplayTo(w, mid, Length(s) - k2))
    {
      CompactSizes(w, s, k2);
      TwoStagesIff(w, s, k1, k2);
      SameIsSymmetric(ReplayTo(w, s, Length(s) - k2), ReplayTo(w, mid, Length(s) - k2));
    }
    if forall k2 | 0 <= k2 <= k1 :: Compact(w, mid, k2) == Compact(w, s, k2) {
      forall step | mid.folded <= step <= Length(s) ensures Same(ReplayTo(w, s, step), ReplayTo(w, mid, step)) {
        var k2 := Length(s) - step;
        assert Compact(w, mid, k2) == Compact(w, s, k2);
      }
    }
  }

  // ---------------------------------------------------------------- restart

  datatype Sidecar = Sidecar(
    baseline: Option<Memory>, ops: seq<Op>, folded: nat, chain: seq<string>, anchor: string,
    baselineHash: string, agent: string, foreign: map<string, ForeignLog>, pins: map<string, string>)

  /** What a workspace leaves behind: the memory snapshot and the timeline sidecar. */
  datatype Disk = Disk(snapshot: Option<Memory>, sidecar: Option<Sidecar>)

  datatype Opened = Opened(session: Session) | TimelineTampered(errors: seq<Fault>)

  function Save(s: Session): Disk {
    Disk(
      Some(Reload(s.live)),
      Some(Sidecar(s.baseline, s.ops, s.folded, s.chain, s.anchor, s.baselineHash, s.agent, s.foreign, s.pins)))
  }

  function Stats(m: Memory): (nat, nat, nat) {
    (|m.nodes|, |m.edges|, |m.files|)
  }

  predicate TimelineReproducesMemory(w: World, s: Session) {
    Stats(ReplayTo(w, s, Length(s))) == Stats(s.live)
  }

  /** Trust the snapshot and start the timeline over from it. */
  function Reset(w: World, s: Session): Session {
    var baseline := Some(Reload(s.live));
    s.(baseline := baseline, ops := [], folded := 0, chain := [], anchor := GENESIS,
       baselineHash := Commitment(w.crypto, baseline))
  }

  function Restored(w: World, live: Memory, t: Sidecar, signer: Option<string>): Session {
    if Legacy(t.anchor, t.chain, t.baselineHash) then
      Session(live, t.ops, t.baseline, t.folded, ChainOver(w.crypto, GENESIS, t.folded, t.ops), GENESIS,
              Commitment(w.crypto, t.baseline), t.agent, t.foreign, t.pins, signer)
    else
      Session(live, t.ops, t.baseline, t.folded, t.chain, t.anchor, t.baselineHash,
              t.agent, t.foreign, t.pins, signer)
  }

  function Open(w: World, disk: Disk, signer: Option<string>): Opened {
    var live := if disk.snapshot.Some? then disk.snapshot.value else New(w.kernel);
    match disk.sidecar
    case None =>
      var baseline := Some(Reload(live));
      Opened(Session(live, [], baseline, 0, [], GENESIS, Commitment(w.crypto, baseline), "", map[], map[], signer))
    case Some(t) =>
      var audit := Audit(w.crypto, t.anchor, t.folded, t.ops, t.chain, t.baseline, t.baselineHash);
      if !audit.valid then TimelineTampered(audit.errors)
      else
        var s := Restored(w, live, t, signer);
        Opened(if s.ops != [] && !TimelineReproducesMemory(w, s) then Reset(w, s) else s)
  }

  /** An untouched workspace is never mistaken for legacy nor refused as tampered, and
      reopens to the very same session — except the consistency guard, which resets it
      exactly when a non-empty tail does not rebuild the snapshot's counts. */
  lemma {:induction false} RestartRestoresIff(w: World, s: Session, signer: Option<string>)
    requires Valid(w, s)
    ensures Open(w, Save(s), signer).Opened?
    ensures Open(w, Save(s), signer) == Opened(s.(live := Reload(s.live), signer := signer))
       <==> s.ops == [] || Stats(ReplayTo(w, s, Length(s))) == Stats(s.live)
  {
    hide BrokenLinks, Replayed;
    AuditAcceptsIff(w.crypto, s.anchor, s.folded, s.ops, s.chain, s.baseline, s.baselineHash);
  }

  /** The sidecar's own record, carried over field by field. */
  predicate Carries(s: Session, t: Sidecar) {
    && s.ops == t.ops && s.baseline == t.baseline && s.folded == t.folded
    && s.agent == t.agent && s.foreign == t.foreign && s.pins == t.pins
  }

  function Loaded(w: World, disk: Disk): Memory {
    if disk.snapshot.Some? then disk.snapshot.value else New(w.kernel)
  }

  /** The tail of a sidecar rebuilds the counts of the memory it is opened with. */
  predicate Rebuilds(w: World, t: Sidecar, live: Memory) {
    var start := if t.baseline.Some? then t.baseline.value else New(w.kernel);
    var m := Replayed(w.kernel, start, t.ops);
    |m.nodes| == |live.nodes| && |m.edges| == |live.edges| && |m.files| == |live.files|
  }

  /** **What open makes of any sidecar it does not refuse**, chained or legacy: the memory is
      the snapshot; the whole record is kept when the tail is empty or rebuilds the counts,
      and otherwise the timeline starts over from the snapshot while identity, foreign logs
      and pins stay. A legacy record gets the chain its operations produce from genesis. */
  lemma {:induction false} OpenKeepsRecord(w: World, disk: Disk, signer: Option<string>)
    requires disk.sidecar.Some? && Open(w, disk, signer).Opened?
    ensures var s, t := Open(w, disk, signer).session, disk.sidecar.value;
      && s.live == Loaded(w, disk) && s.signer == signer
      && s.agent == t.agent && s.foreign == t.foreign && s.pins == t.pins
      && (t.ops == [] || Rebuilds(w, t, s.live) ==>
            && Carries(s, t)
            && s.chain == ChainOver(w.crypto, s.anchor, t.folded, t.ops)
            && s.baselineHash == Commitment(w.crypto, t.baseline)
            && (if t.anchor == "" && t.chain == [] && t.baselineHash == "" then s.anchor == GENESIS else s.anchor == t.anchor))
      && (t.ops != [] && !Rebuilds(w, t, s.live) ==>
            s.ops == [] && s.folded == 0 && s.chain == [] && s.anchor == GENESIS && s.baseline == Some(Reload(s.live)))
  {
    hide BrokenLinks, Replayed, ChainOver;
    var t := disk.sidecar.value;
    var live := Loaded(w, disk);
    if !Legacy(t.anchor, t.chain, t.baselineHash) {
      AuditAcceptsIff(w.crypto, t.anchor, t.folded, t.ops, t.chain, t.baseline, t.baselineHash);
    }
    RebuildsIsTheGuard(w, Restored(w, live, t, signer), t);
  }

  lemma {:induction false} RebuildsIsTheGuard(w: World, s: Session, t: Sidecar)
    requires Carries(s, t)
    ensures TimelineReproducesMemory(w, s) <==> Rebuilds(w, t, s.live)
  {
    hide Replayed;
    assert s.ops[..|s.ops|] == s.ops;
  }

  /** A pre-chain sidecar that was never folded keeps its history: the backfilled session is
      valid and records exactly the old operations. */
  lemma {:induction false} LegacyHistoryIsKept(w: World, disk: Disk, signer: Option<string>)
    requires disk.sidecar.Some? && Settled(Loaded(w, disk))
    requires var t := disk.sidecar.value;
      && t.anchor == "" && t.chain == [] && t.baselineHash == ""
      && (t.baseline.Some? ==> t.baseline.value == Reload(t.baseline.value))
      && (t.ops == [] || Rebuilds(w, t, Loaded(w, disk)))
    ensures Open(w, disk, signer).Opened?
    ensures var s, t := Open(w, disk, signer).session, disk.sidecar.value;
      Valid(w, s) && Carries(s, t) && (t.folded == 0 ==> Records(w, s, t.ops))
  {
    hide BrokenLinks, Replayed, ChainOver, Commitment;
    OpenKeepsRecord(w, disk, signer);
  }

  /** Without a sidecar the snapshot is the history: nothing recorded, a valid timeline on top
      of it. */
  lemma {:induction false} OpenWithoutSidecar(w: World, disk: Disk, signer: Option<string>)
    requires disk.sidecar.None? && Settled(Loaded(w, disk))
    ensures Open(w, disk, signer).Opened?
    ensures var s := Open(w, disk, signer).session;
      && Valid(w, s) && Records(w, s, []) && Tracks(w, s)
      && s.live == Loaded(w, disk) && s.baseline == Some(Reload(s.live)) && s.signer == signer
      && s.agent == "" && s.foreign == map[] && s.pins == map[]
  {
    hide Commitment;
    var s := Open(w, disk, signer).session;
    assert s.ops[..0] == [];
  }

  lemma {:induction false} RestartOfTracking(w: World, s: Session, signer: Option<string>)
    requires Valid(w, s) && Tracks(w, s)
    ensures Open(w, Save(s), signer) == Opened(s.(live := Reload(s.live), signer := signer))
  {
    RestartRestoresIff(w, s, signer);
  }

  /** Whatever is on disk, open refuses exactly the chained sidecars that fail the audit, so
      a mutated history is reported and never healed. */
  lemma {:induction false} OpenRefusesIff(w: World, disk: Disk, signer: Option<string>)
    ensures Open(w, disk, signer).TimelineTampered? <==>
      disk.sidecar.Some?
      && var t := disk.sidecar.value;
         !Legacy(t.anchor, t.chain, t.baselineHash)
         && !(Commitment(w.crypto, t.baseline) == t.baselineHash
              && t.chain == ChainOver(w.crypto, t.anchor, t.folded, t.ops))
  {
    if disk.sidecar.Some? {
      var t := disk.sidecar.value;
      if !Legacy(t.anchor, t.chain, t.baselineHash) {
        AuditAcceptsIff(w.crypto, t.anchor, t.folded, t.ops, t.chain, t.baseline, t.baselineHash);
      }
    }
  }

  /** A refusal carries the audit's own report. */
  lemma {:induction false} RefusalReportsAudit(w: World, disk: Disk, signer: Option<string>)
    requires Open(w, disk, signer).TimelineTampered?
    ensures disk.sidecar.Some?
    ensures var t := disk.sidecar.value;
      Open(w, disk, signer).errors == Audit(w.crypto, t.anchor, t.folded, t.ops, t.chain, t.baseline, t.baselineHash).errors != []
  {
    hide BrokenLinks, Replayed;
  }

  /** The reset timeline is itself a valid, empty one. */
  lemma {:induction false} ResetIsValid(w: World, s: Session)
    requires Settled(s.live)
    ensures Valid(w, Reset(w, s)) && Records(w, Reset(w, s), []) && Tracks(w, Reset(w, s))
  {
    assert Reset(w, s).ops[..0] == [];
  }

  // ---------------------------------------------------------------- whole runs

  datatype Action = Do(op: Op) | Fold(keep: nat) | Restart(signer: Option<string>)

  function Act(w: World, s: Session, a: Action): Session
    requires |s.chain| == |s.ops|
  {
    match a
    case Do(op) => Perform(w, s, op)
    case Fold(keep) => Compact(w, s, keep)
    case Restart(signer) => var r := Open(w, Save(s), signer); if r.Opened? then r.session else s
  }

  /** The condition each action must meet, read off the session before it. */
  ghost predicate Safe(w: World, s: Session, a: Action) {
    match a
    case Do(op) => StepSafe(w, s, op)
    case Fold(keep) => keep < |s.ops| ==>
      var fold := |s.ops| - keep;
      FoldSurvives(w.kernel, Start(w, s), s.ops[..fold], s.ops[fold..])
    case Restart(_) => true
  }

  /** What the documentation promises of each action: replay still gives the live memory, a
      fold changes no step it keeps, a restart changes nothing. */
  ghost predicate Delivers(w: World, s: Session, a: Action)
    requires |s.chain| == |s.ops|
  {
    var t := Act(w, s, a);
    && Tracks(w, t)
    && (a.Fold? ==> Transparent(w, s, t))
    && (a.Restart? ==> t == s.(live := Reload(s.live), signer := a.signer))
  }

  /** The baseline holds what the folded part of the history put into the graph. */
  ghost predicate Seated(w: World, s: Session, history: seq<Op>) {
    && s.folded <= |history| && Start(w, s).cold == map[]
    && CensusOf(Start(w, s)) == CountAll(w.kernel, CensusOf(New(w.kernel)), history[..s.folded])
  }

  /** The invariant of every run that delivers. */
  ghost predicate Good(w: World, s: Session, history: seq<Op>) {
    Valid(w, s) && Records(w, s, history) && Tracks(w, s) && Seated(w, s, history)
  }

  /** The log of a seated session fits on its baseline when the whole history fits. */
  lemma {:induction false} SeatedFits(w: World, s: Session, history: seq<Op>, more: seq<Op>)
    requires Records(w, s, history) && Seated(w, s, history) && Fits(w.kernel, New(w.kernel), history + more)
    ensures Fits(w.kernel, Start(w, s), s.ops + more)
  {
    hide CountAll, HeadAt;
    var k, head, tail := w.kernel, history[..s.folded], s.ops + more;
    forall i | 0 <= i <= |tail| ensures |CountAll(k, CensusOf(Start(w, s)), tail[..i]).nodes| <= k.cap {
      assert (history + more)[..s.folded + i] == head + tail[..i];
      CountAppend(k, CensusOf(New(k)), head, tail[..i]);
    }
  }

  /** Folding seats the session on its new baseline. */
  lemma {:induction false} FoldStaysSeated(w: World, s: Session, keep: nat, history: seq<Op>)
    requires |s.chain| == |s.ops| && Records(w, s, history) && Seated(w, s, history)
    requires Fits(w.kernel, New(w.kernel), history)
    ensures Seated(w, Compact(w, s, keep), history)
  {
    hide CountAll, HeadAt, ApplyAll, Relinked, Commitment, Fits;
    if keep < |s.ops| {
      var k, fold := w.kernel, |s.ops| - keep;
      assert history + [] == history && s.ops + [] == s.ops;
      SeatedFits(w, s, history, []);
      FitsPrefix(k, Start(w, s), s.ops, fold);
      ReplayFits(k, Start(w, s), s.ops[..fold]);
      assert history[..s.folded] + s.ops[..fold] == history[..s.folded + fold];
      CountAppend(k, CensusOf(New(k)), history[..s.folded], s.ops[..fold]);
    }
  }

  lemma {:induction false} FreshIsGood(w: World)
    ensures Good(w, Fresh(w), [])
  {
    FreshIsValid(w);
    var none: seq<Op> := [];
    assert Fresh(w).ops[..0] == [] && none[..0] == [];
  }

  lemma {:induction false} NoFold(w: World, s: Session, keep: nat)
    requires |s.chain| == |s.ops| <= keep
    ensures Compact(w, s, keep) == s && Transparent(w, s, s)
  {
    hide ReplayTo;
  }

  lemma {:induction false} FoldDeliversIff(w: World, s: Session, keep: nat, history: seq<Op>)
    requires Sound(w) && Good(w, s, history) && |s.chain| == |s.ops| && Fits(w.kernel, New(w.kernel), history)
    ensures Delivers(w, s, Fold(keep)) <==> Safe(w, s, Fold(keep))
    ensures Valid(w, Compact(w, s, keep)) && Records(w, Compact(w, s, keep), history) && Seated(w, Compact(w, s, keep), history)
  {
    hide Valid, Records, ReplayTo, Compact, FoldSurvives, WellFormed, Faithful, Seated, Fits;
    CompactKeeps(w, s, keep, history);
    FoldStaysSeated(w, s, keep, history);
    assert history + [] == history && s.ops + [] == s.ops;
    SeatedFits(w, s, history, []);
    if keep < |s.ops| {
      CompactTransparentIff(w, s, keep);
      var t := Compact(w, s, keep);
      if Transparent(w, s, t) { assert Same(ReplayTo(w, s, Length(s)), ReplayTo(w, t, Length(s))); }
    } else {
      NoFold(w, s, keep);
    }
  }

  lemma {:induction false} RestartDelivers(w: World, s: Session, signer: Option<string>, history: seq<Op>)
    requires Good(w, s, history) && |s.chain| == |s.ops|
    ensures Delivers(w, s, Restart(signer)) && Good(w, Act(w, s, Restart(signer)), history)
  {
    RestartOfTracking(w, s, signer);
  }

  /** What an action adds to the history. */
  function Adds(a: Action): seq<Op> {
    if a.Do? then [a.op] else []
  }

  lemma {:induction false} PerformStaysSeated(w: World, s: Session, op: Op, history: seq<Op>)
    requires Seated(w, s, history)
    ensures Seated(w, Perform(w, s, op), history + [op])
  {
    hide CountAll, Eager;
    assert (history + [op])[..s.folded] == history[..s.folded];
  }

  /** **One action, exactly**: while the history stays below the cap, it delivers if and only
      if it is safe. */
  lemma {:induction false} ActionDeliversIff(w: World, s: Session, a: Action, history: seq<Op>)
    requires Sound(w) && Good(w, s, history) && |s.chain| == |s.ops|
    requires Fits(w.kernel, New(w.kernel), history + Adds(a))
    ensures Delivers(w, s, a) <==> Safe(w, s, a)
    ensures Safe(w, s, a) ==> Good(w, Act(w, s, a), history + Adds(a))
  {
    hide Valid, Records, Tracks, Seated, StepSafe, FoldSurvives, Transparent, Perform, Compact, Open, Save, WellFormed, Faithful, Fits;
    assert history + [] == history;
    match a
    case Do(op) =>
      PerformKeeps(w, s, op, history);
      PerformStaysSeated(w, s, op, history);
      SeatedFits(w, s, history, [op]);
      StepTracksIff(w, s, op);
    case Fold(keep) => FoldDeliversIff(w, s, keep, history);
    case Restart(signer) => RestartDelivers(w, s, signer, history);
  }

  /** Everything but an ingest is safe to record, an assertion once something has read the
      edges since the last ingest. */
  lemma {:induction false} OrderlyIsSafe(w: World, s: Session, op: Op)
    requires !op.Ingest? && Orderly(s.ops, op)
    ensures Safe(w, s, Do(op))
  {
    hide LearnAll, Links, Pending;
  }

  /** And so is an assertion about existing nodes whose edge exists already. */
  lemma {:induction false} RepeatedIsSafe(w: World, s: Session, op: Op)
    requires Sound(w) && op.Assert? && Grounded(s.live, op)
    requires Has(s.live.edges, AssertionEdge(op.evidence, op.claim, op.supports))
    ensures Safe(w, s, Do(op))
  {
    hide LearnAll, Links, Pending, WellFormed;
    GroundedIsQuiet(w.kernel, s.live.(index := ReplayIndex(w, s)), op);
  }

  /** A run, the sessions it passes through, and the operations it recorded. */
  ghost predicate IsRun(w: World, states: seq<Session>, actions: seq<Action>) {
    && |states| == |actions| + 1
    && (forall i | 0 <= i < |states| :: |states[i].chain| == |states[i].ops|)
    && (forall i | 0 <= i < |actions| :: states[i + 1] == Act(w, states[i], actions[i]))
  }

  function Recorded(actions: seq<Action>): seq<Op> {
    if actions == [] then []
    else
      var last := actions[|actions| - 1];
      Recorded(actions[..|actions| - 1]) + Adds(last)
  }

  ghost predicate EachDelivers(w: World, states: seq<Session>, actions: seq<Action>)
    requires IsRun(w, states, actions)
  {
    forall i | 0 <= i < |actions| :: Delivers(w, states[i], actions[i])
  }

  ghost predicate EachSafe(w: World, states: seq<Session>, actions: seq<Action>)
    requires IsRun(w, states, actions)
  {
    forall i | 0 <= i < |actions| :: Safe(w, states[i], actions[i])
  }

  /** A run is a shorter run and one more action. */
  lemma {:induction false} RunSplits(w: World, states: seq<Session>, actions: seq<Action>, n: nat)
    requires IsRun(w, states, actions) && |actions| == n + 1
    ensures IsRun(w, states[..n + 1], actions[..n]) && |states[n].chain| == |states[n].ops|
    ensures EachDelivers(w, states, actions) <==> EachDelivers(w, states[..n + 1], actions[..n]) && Delivers(w, states[n], actions[n])
    ensures EachSafe(w, states, actions) <==> EachSafe(w, states[..n + 1], actions[..n]) && Safe(w, states[n], actions[n])
  {
    hide Delivers, Safe, Act;
    assert forall i | 0 <= i < n :: states[..n + 1][i] == states[i] && actions[..n][i] == actions[i];
  }

  /** **Every run, exactly.** Over any mix of operations, folds and restarts from a fresh
      session whose recorded log stays below the resident cap: each of them delivers if and
      only if each is safe; and then the timeline is valid, records exactly the operations
      performed and replays to the live memory. */
  lemma {:induction false} RunDeliversIff(w: World, states: seq<Session>, actions: seq<Action>)
    requires Sound(w) && IsRun(w, states, actions) && states[0] == Fresh(w)
    requires Fits(w.kernel, New(w.kernel), Recorded(actions))
    ensures EachDelivers(w, states, actions) <==> EachSafe(w, states, actions)
    ensures EachSafe(w, states, actions) ==> Good(w, states[|actions|], Recorded(actions))
  {
    hide Good, Safe, Delivers, EachDelivers, EachSafe, Act, Sound, Fits;
    if actions == [] {
      FreshIsGood(w);
      NoActions(w, states, actions);
    } else {
      var n := |actions| - 1;
      var before := Recorded(actions[..n]);
      RunSplits(w, states, actions, n);
      assert Recorded(actions)[..|before|] == before;
      FitsPrefix(w.kernel, New(w.kernel), Recorded(actions), |before|);
      RunDeliversIff(w, states[..n + 1], actions[..n]);
      if EachSafe(w, states[..n + 1], actions[..n]) {
        ActionDeliversIff(w, states[n], actions[n], before);
      }
    }
  }

  lemma {:induction false} NoActions(w: World, states: seq<Session>, actions: seq<Action>)
    requires IsRun(w, states, actions) && actions == []
    ensures EachDelivers(w, states, actions) && EachSafe(w, states, actions)
  {
  }
}
