/** The session object, updating its fields in place as core/src/agent_session.rs does. Every
    method is proved against the value-level operation of the same name, about which the
    other modules prove what the session promises. */
module AgentSession {
  import opened Ops
  import opened Text
  import opened Memory
  import opened Replay
  import opened Chain
  import opened Session
  import Sync
  import Federation
  import Timeline
  import Tuning

  class AgentSession {
    const w: World
    const v: Sync.Signer

    var live: Memory
    var ops: seq<Op>
    var baseline: Option<Memory>
    var folded: nat
    var chain: seq<string>
    var anchor: string
    var baselineHash: string
    var agent: string
    var foreign: map<string, ForeignLog>
    var pins: map<string, string>
    var signer: Option<string>

    ghost function Model(): Session
      reads this
    {
      Session(live, ops, baseline, folded, chain, anchor, baselineHash, agent, foreign, pins, signer)
    }

    /** The object's invariant: a valid timeline and chain-verified foreign logs. */
    ghost predicate Ready()
      reads this
    {
      Faithful(w.crypto) && Valid(w, Model()) && Sync.AllLogsValid(w.crypto, Model())
    }

    constructor (world: World, build: Sync.Signer)
      requires Faithful(world.crypto)
      ensures w == world && v == build && Ready()
      ensures Model() == Fresh(world) && Records(world, Model(), [])
    {
      w, v := world, build;
      live, ops, baseline, folded := New(world.kernel), [], None, 0;
      chain, anchor, baselineHash := [], GENESIS, Commitment(world.crypto, None);
      agent, foreign, pins, signer := "", map[], map[], None;
      new;
      FreshIsValid(world);
    }

    /** A session in a given state, as fork and open build one. */
    constructor From(world: World, build: Sync.Signer, s: Session)
      ensures w == world && v == build && Model() == s
    {
      w, v := world, build;
      live, ops, baseline, folded := s.live, s.ops, s.baseline, s.folded;
      chain, anchor, baselineHash := s.chain, s.anchor, s.baselineHash;
      agent, foreign, pins, signer := s.agent, s.foreign, s.pins, s.signer;
    }

    /** The single write path of the timeline. */
    method RecordOp(op: Op)
      modifies `ops, `chain
      ensures Model() == Record(w, old(Model()), op)
    {
      var prev := if chain == [] then anchor else chain[|chain| - 1];
      chain := chain + [LinkHash(w.crypto, prev, folded + |ops|, op)];
      ops := ops + [op];
    }

    ghost predicate Kept(before: Session)
      reads this
    {
      Valid(w, before) && Sync.AllLogsValid(w.crypto, before)
    }

    lemma {:induction false} StaysReady(before: Session, op: Op)
      requires Faithful(w.crypto) && Kept(before) && Model() == Perform(w, before, op)
      ensures Ready()
    {
      hide ChainOver, Eager, Sync.LogValid, Commitment;
      EagerKeepsSettled(w.kernel, before.live, op);
      RecordKeepsChain(w.crypto, before.anchor, before.folded, before.ops, op);
    }

    method Ingest(path: Path, source: string)
      requires Ready()
      modifies `ops, `chain, `live
      ensures Ready() && Model() == Perform(w, old(Model()), Op.Ingest(path, source))
    {
      ghost var before := Model();
      RecordOp(Op.Ingest(path, source));
      live := Resolve(w.kernel, Applied(w.kernel, live, Op.Ingest(path, source)));
      StaysReady(before, Op.Ingest(path, source));
    }

    /** A batch records each file and defers every resolve to one at the end; while all of it
        stays resident, that leaves the session the per-file loop would. */
    method IngestBatch(files: seq<(Path, string)>)
      requires Ready()
      modifies `ops, `chain, `live
      ensures Ready()
      ensures Model() == PerformAll(w, old(Model()), BatchOps(files)).(live := Replayed(w.kernel, old(live), BatchOps(files)))
      ensures WellFormed(w.kernel) && Fits(w.kernel, old(live), BatchOps(files)) ==>
        Model() == PerformAll(w, old(Model()), BatchOps(files))
    {
      hide Faithful, Valid, Settled, BatchOps, Applied, Eager, LinkHash, Sync.LogValid, WellFormed, Fits, Replayed;
      assert Settled(live) by { ReadyIsSettled(); }
      ghost var before := Model();
      NoBatch(files[..0]);
      for i := 0 to |files|
        invariant Model() == PerformAll(w, before, BatchOps(files[..i])).(live := live)
        invariant live == DeferredBatch(w.kernel, before.live, files[..i])
      {
        assert files[..i + 1][..i] == files[..i];
        BatchGrows(files, i);
        RecordOp(Op.Ingest(files[i].0, files[i].1));
        live := Applied(w.kernel, live, Op.Ingest(files[i].0, files[i].1));
      }
      assert files[..|files|] == files;
      live := Resolve(w.kernel, live);
      BatchIsReplay(w.kernel, before.live, files);
      if WellFormed(w.kernel) && Fits(w.kernel, before.live, BatchOps(files)) {
        BatchEqualsLoop(w.kernel, before.live, files);
        Timeline.PerformAllShape(w, before, BatchOps(files));
      }
      PerformAllStaysReady(before, BatchOps(files));
      BatchStaysIndexed(w.kernel, before.live, files);
      LiveMayDiffer(PerformAll(w, before, BatchOps(files)), live);
    }

    lemma {:induction false} LiveMayDiffer(s: Session, m: Memory)
      requires Valid(w, s) && Settled(m)
      ensures Valid(w, s.(live := m))
    {
      hide ChainOver, Commitment;
    }

    lemma {:induction false} ReadyIsSettled()
      requires Ready()
      ensures Settled(live)
    {
      hide Faithful, ChainOver, Commitment, Sync.LogValid;
    }

    lemma {:induction false} PerformAllStaysReady(before: Session, done: seq<Op>)
      requires Faithful(w.crypto) && Kept(before)
      ensures Kept(PerformAll(w, before, done))
    {
      hide ChainOver, Eager, Sync.LogValid, Commitment;
      if done != [] {
        var init, op := done[..|done| - 1], done[|done| - 1];
        PerformAllStaysReady(before, init);
        var s := PerformAll(w, before, init);
        EagerKeepsSettled(w.kernel, s.live, op);
        RecordKeepsChain(w.crypto, s.anchor, s.folded, s.ops, op);
      }
    }

    method AssertClaim(evidence: NodeId, claim: NodeId, supports: bool, weight: Bits)
      requires Ready()
      modifies `ops, `chain, `live
      ensures Ready() && Model() == Perform(w, old(Model()), Assert(evidence, claim, supports, weight))
    {
      ghost var before := Model();
      RecordOp(Assert(evidence, claim, supports, weight));
      live := Applied(w.kernel, live, Assert(evidence, claim, supports, weight));
      StaysReady(before, Assert(evidence, claim, supports, weight));
    }

    method FailureSignal(node: NodeId, depth: nat)
      requires Ready()
      modifies `ops, `chain, `live
      ensures Ready() && Model() == Perform(w, old(Model()), Failure(node, depth))
    {
      ghost var before := Model();
      RecordOp(Failure(node, depth));
      live := Applied(w.kernel, live, Failure(node, depth));
      StaysReady(before, Failure(node, depth));
    }

    /** A recall around a node pages it in first; otherwise the memory is only read. */
    method RecallWindow(recall: Recall, budget: nat)
      requires Ready()
      modifies `ops, `chain, `live
      ensures Ready() && Model() == Perform(w, old(Model()), Recalled(recall, budget))
    {
      hide Faithful, ChainOver, Sync.LogValid, Commitment, LinkHash;
      ghost var before := Model();
      if recall.Around? { live := Applied(w.kernel, live, Recalled(recall, budget)); }
      RecordOp(Recalled(recall, budget));
      StaysReady(before, Recalled(recall, budget));
    }

    /** Signal every faulting file, then page in the region of the first. */
    method PageFault(files: seq<Path>, depth: nat)
      requires Ready()
      modifies `ops, `chain, `live
      ensures Ready() && Model() == Perform(w, old(Model()), Op.PageFault(files, depth))
    {
      hide Faithful, ChainOver, Sync.LogValid, Commitment;
      ghost var before := Model();
      var next := live;
      for i := 0 to |files|
        invariant next == SignalAll(w.kernel, before.live, files[..i], depth)
      {
        assert files[..i + 1][..i] == files[..i];
        next := SignalFailure(w.kernel, next, FileNode(files[i]), depth);
      }
      assert files[..|files|] == files;
      if files != [] { next := EnsureResident(w.kernel, next, FileNode(files[0])); }
      live := Paged(w.kernel, live, Op.PageFault(files, depth), next);
      RecordOp(Op.PageFault(files, depth));
      StaysReady(before, Op.PageFault(files, depth));
    }

    /** `replay_to`: one pass with the dirty flag, one trailing resolve. */
    method ReplayToStep(step: nat) returns (m: Memory)
      ensures m == ReplayTo(w, Model(), step)
    {
      m := if baseline.Some? then baseline.value else New(w.kernel);
      var clamped := if step < folded + |ops| then step else folded + |ops|;
      var tail := if clamped < folded then 0 else clamped - folded;
      var replay := ApplyStream(w.kernel, Deferred(m, false), ops[..tail]);
      m := Settle(w.kernel, replay);
    }

    /** Fold all but the last `keep` operations into the baseline. */
    method CompactTo(keep: nat)
      requires Ready()
      modifies `ops, `chain, `anchor, `baseline, `baselineHash, `folded
      ensures Ready() && Model() == Compact(w, old(Model()), keep)
    {
      hide Faithful, Valid, Sync.AllLogsValid, ReplayTo, Commitment;
      EvenChain();
      if |ops| <= keep { return; }
      ghost var before := Model();
      var fold := |ops| - keep;
      var floor := ReplayToStep(folded + fold);
      anchor := chain[fold - 1];
      chain := chain[fold..];
      baseline := Some(Reload(floor));
      baselineHash := Commitment(w.crypto, baseline);
      ops := ops[fold..];
      folded := folded + fold;
      CutStaysReady(before, fold);
    }

    lemma {:induction false} EvenChain()
      requires Ready()
      ensures |chain| == |ops|
    {
    }

    lemma {:induction false} CutStaysReady(before: Session, fold: nat)
      requires Faithful(w.crypto) && Kept(before) && 0 < fold <= |before.ops|
      requires Model() == Compact(w, before, |before.ops| - fold)
      ensures Ready()
    {
      hide Sync.LogValid, ReplayTo, Commitment, LinkHash, Settled, Faithful;
      HeadIsDigest(w.crypto, before.anchor, before.folded, before.ops, fold);
      assert before.chain[fold - 1] == HeadAt(w.crypto, before.anchor, before.folded, before.ops, fold);
      ChainSuffix(w.crypto, before.anchor, before.folded, before.ops, fold);
    }

    lemma {:induction false} ForkStaysReady(step: nat)
      requires Ready()
      ensures |chain| == |ops|
      ensures Valid(w, ForkAt(w, Model(), step)) && Sync.AllLogsValid(w.crypto, ForkAt(w, Model(), step))
    {
      hide Faithful, Sync.LogValid, Commitment, LinkHash, Replayed;
      var s := Model();
      ChainPrefix(w.crypto, s.anchor, s.folded, s.ops, Tail(s, step));
      StartIsSettled(w, s);
      var clamped := if step < s.folded then s.folded else step;
      ReplayIsSettled(w.kernel, Start(w, s), s.ops[..Tail(s, clamped)]);
    }

    /** An independent branch; the trunk is untouched. */
    method Fork(step: nat) returns (branch: AgentSession)
      requires Ready()
      ensures fresh(branch) && branch.w == w && branch.v == v
      ensures branch.Ready() && branch.Model() == ForkAt(w, Model(), step)
    {
      hide Faithful, Valid, Sync.AllLogsValid, Sync.LogValid, ReplayTo;
      ForkStaysReady(step);
      EvenChain();
      var past := ReplayToStep(if step < folded then folded else step);
      var clamped := if step < folded + |ops| then step else folded + |ops|;
      var n := if clamped < folded then 0 else clamped - folded;
      branch := new AgentSession.From(w, v, Session(
        past, ops[..n], baseline, folded, chain[..n], anchor, baselineHash, agent, foreign, pins, signer));
    }

    method Verify() returns (r: Integrity)
      requires Ready()
      ensures r.valid && r.errors == [] && r.verified == |ops|
    {
      hide ChainOver, Sync.AllLogsValid;
      r := VerifyTimeline(w.crypto, anchor, folded, ops, chain, baseline, baselineHash);
      AuditAcceptsIff(w.crypto, anchor, folded, ops, chain, baseline, baselineHash);
    }

    method SetAgent(id: string)
      requires Ready()
      modifies `agent
      ensures Ready() && Model() == old(Model()).(agent := id)
    {
      agent := id;
    }

    method Export(since: nat) returns (r: Sync.Result<Sync.Bundle>)
      requires Ready()
      ensures r == Sync.ExportBundle(v, Model(), since)
    {
      if agent == "" { return Sync.Err(Sync.NoAgentId); }
      if since < folded { return Sync.Err(Sync.CompactedHistory); }
      var start := if since - folded < |ops| then since - folded else |ops|;
      var from := if start == 0 then anchor else chain[start - 1];
      var bundle := Sync.Bundle(agent, since, from, ops[start..], chain[start..], None, None);
      if signer.Some? {
        bundle := bundle.(pubkey := signer, sig := Some(v.sign(bundle, signer.value)));
      }
      r := Sync.Ok(bundle);
    }

    /** The checks of `import_bundle`: authenticity, then every link, then continuity with
        what is known. */
    method Inspect(b: Sync.Bundle) returns (refusal: Option<Sync.SyncError>)
      requires b.agent in foreign ==> |foreign[b.agent].ops| == |foreign[b.agent].chain|
      ensures refusal == Sync.Refusal(w.crypto, v, Model(), b)
    {
      hide LinkHolds, Sync.AuthRefusal, Sync.FirstBroken, Sync.FirstMismatch;
      if b.agent == "" { return Some(Sync.Tampered(Sync.MissingAgent)); }
      if b.agent == agent { return Some(Sync.SelfImport); }
      var auth := Sync.AuthRefusal(v, pins, b);
      if auth.Some? { return auth; }
      if |b.ops| != |b.chain| { return Some(Sync.Tampered(Sync.LengthMismatch(|b.ops|, |b.chain|))); }
      if b.firstSeq == 0 && b.anchor != GENESIS { return Some(Sync.Tampered(Sync.NotGenesis)); }
      var broken := ScanBundle(w.crypto, b);
      if broken.Some? { return Some(Sync.Tampered(Sync.BadLink(b.firstSeq + broken.value + 1))); }
      var known := if b.agent in foreign then foreign[b.agent] else Sync.EMPTY_LOG;
      if b.firstSeq > |known.ops| { return Some(Sync.Gap(|known.ops|, b.firstSeq)); }
      if b.agent in foreign {
        if b.firstSeq > 0 && b.anchor != known.chain[b.firstSeq - 1] { return Some(Sync.Diverged(b.firstSeq)); }
        var mismatch := ScanOverlap(known.chain, b);
        if mismatch.Some? { return Some(Sync.Diverged(b.firstSeq + mismatch.value + 1)); }
      }
      refusal := None;
    }

    /** Nothing is assigned until every check has passed. */
    method Import(b: Sync.Bundle) returns (r: Sync.Result<nat>)
      requires Ready()
      modifies `foreign, `pins
      ensures Ready()
      ensures Sync.ImportBundle(w.crypto, v, old(Model()), b) == (r, Model())
    {
      hide Ready, Faithful, Valid, Sync.AllLogsValid, Sync.Refusal;
      ghost var before := Model();
      ImportFits(b);
      var refusal := Inspect(b);
      if refusal.Some? {
        ImportStaysReady(before, b);
        return Sync.Err(refusal.value);
      }
      var known := if b.agent in foreign then foreign[b.agent] else Sync.EMPTY_LOG;
      var overlap := if |known.ops| - b.firstSeq < |b.ops| then |known.ops| - b.firstSeq else |b.ops|;
      foreign := foreign[b.agent := ForeignLog(known.ops + b.ops[overlap..], known.chain + b.chain[overlap..])];
      if b.pubkey.Some? && b.agent !in pins { pins := pins[b.agent := b.pubkey.value]; }
      r := Sync.Ok(|b.ops| - overlap);
      ImportStaysReady(before, b);
    }

    lemma {:induction false} ImportStaysReady(before: Session, b: Sync.Bundle)
      requires Faithful(w.crypto) && Valid(w, before) && Sync.AllLogsValid(w.crypto, before)
      requires b.agent in before.foreign ==> |before.foreign[b.agent].ops| == |before.foreign[b.agent].chain|
      requires Model() == Sync.ImportBundle(w.crypto, v, before, b).1
      ensures Ready()
    {
      hide Faithful, Valid, Sync.LogValid, Sync.Refusal;
      Sync.ImportStep(w.crypto, v, before, b);
      ForeignKeepsValid(before, Model());
    }

    /** An unrefused bundle starts inside the known log and is as long as its chain. */
    lemma {:induction false} ImportFits(b: Sync.Bundle)
      requires Ready()
      ensures Faithful(w.crypto) && Valid(w, Model()) && Sync.AllLogsValid(w.crypto, Model())
      ensures b.agent in foreign ==> |foreign[b.agent].ops| == |foreign[b.agent].chain|
      ensures Sync.Refusal(w.crypto, v, Model(), b).None? ==>
        |b.ops| == |b.chain| && b.firstSeq <= |Sync.Known(foreign, b.agent).ops|
    {
      hide Sync.AuthRefusal, Sync.FirstBroken, Sync.FirstMismatch, WellFormed, Faithful, Valid, Sync.LogValid;
      Sync.LogsAreEven(w.crypto, Model());
    }

    lemma {:induction false} ForeignKeepsValid(before: Session, after: Session)
      requires Valid(w, before) && after == before.(foreign := after.foreign, pins := after.pins)
      ensures Valid(w, after)
    {
      hide ChainOver, Commitment;
    }

    /** `merged_view`: the known streams in increasing order of id, replayed from empty. */
    method View() returns (m: Memory)
      ensures m == Federation.MergedView(w, Model())
    {
      hide ApplyAll, Resolve, Federation.StreamOf, Federation.InOrder, LexLeq;
      m := New(w.kernel);
      var replay := Deferred(m, false);
      ghost var s, start := Model(), replay;
      var rest := foreign.Keys + {if agent == "" then "local" else agent};
      ghost var all, done := rest, [];
      ApplyNone(w.kernel, start);
      while rest != {}
        invariant rest <= Federation.StreamIds(s)
        invariant replay == ApplyAll(w.kernel, start, done)
        invariant done + Federation.InOrder(s, rest) == Federation.InOrder(s, all)
        decreases |rest|
      {
        var id := Least(rest);
        var stream := if id in foreign then foreign[id].ops else ops;
        assert stream == Federation.StreamOf(s, id) by { Federation.StreamKnown(s, id); }
        Federation.InOrderStep(s, rest);
        replay := ApplyStream(w.kernel, replay, stream);
        ApplyAllAppend(w.kernel, start, done, stream);
        assert done + (stream + Federation.InOrder(s, rest - {id})) == done + stream + Federation.InOrder(s, rest - {id});
        done := done + stream;
        rest := rest - {id};
      }
      Federation.InOrderStep(s, rest);
      assert done == Federation.InOrder(s, all);
      m := Settle(w.kernel, replay);
    }

    /** Compact if the log has outgrown `max`, then write both files. */
    method Checkpoint(max: nat, keep: nat) returns (disk: Timeline.Disk)
      requires Ready()
      modifies `ops, `chain, `anchor, `baseline, `baselineHash, `folded
      ensures Ready() && Model() == CompactIfNeeded(w, old(Model()), max, keep)
      ensures disk == Timeline.Save(Model())
    {
      if max > 0 && |ops| > max { CompactTo(keep); }
      disk := Timeline.Disk(
        Some(Reload(live)),
        Some(Timeline.Sidecar(baseline, ops, folded, chain, anchor, baselineHash, agent, foreign, pins)));
    }

    /** Adopt learned weights only when they strictly improve the measured hit rate. */
    method AdoptTunedRecallWeights(u: Tuning.Tuner) returns (adopted: bool)
      requires Ready()
      modifies `ops, `chain, `live
      ensures Ready() && (adopted, Model()) == Tuning.Adopt(w, u, old(Model()))
    {
      hide Tuning.Tuned, Tuning.Score, Tuning.Better, WellFormed, ChainOver, Sync.LogValid;
      ghost var before := Model();
      var state := Session(live, ops, baseline, folded, chain, anchor, baselineHash, agent, foreign, pins, signer);
      var current := Tuning.RetrievalReward(w, u, state, live.attrs.weights);
      var tuned := Tuning.TuneRecallWeights(w, u, state);
      var after := Tuning.RetrievalReward(w, u, state, tuned);
      adopted := Tuning.Better(after, current);
      if adopted {
        live := SetWeights(live, tuned);
        RecordOp(Retune(tuned));
        StaysReady(before, Retune(tuned));
      }
    }
  }

  /** `open`: audit a chained sidecar before trusting it, backfill a legacy one, and reset
      a tail that does not rebuild the snapshot. */
  method OpenWorkspace(world: World, build: Sync.Signer, disk: Timeline.Disk, signer: Option<string>)
    returns (session: AgentSession?, errors: seq<Fault>)
    ensures var r := Timeline.Open(world, disk, signer);
      && (r.TimelineTampered? ==> session == null && errors == r.errors)
      && (r.Opened? ==> session != null && fresh(session) && session.w == world && session.v == build
                        && session.Model() == r.session)
  {
    hide Commitment, Timeline.Stats;
    hide ChainOver, BrokenLinks, Replayed, ReplayTo;
    session, errors := null, [];
    var live := if disk.snapshot.Some? then disk.snapshot.value else New(world.kernel);
    if disk.sidecar.None? {
      var baseline := Some(Reload(live));
      session := new AgentSession.From(world, build, Session(
        live, [], baseline, 0, [], GENESIS, Commitment(world.crypto, baseline), "", map[], map[], signer));
      return;
    }
    var t := disk.sidecar.value;
    var audit := VerifyTimeline(world.crypto, t.anchor, t.folded, t.ops, t.chain, t.baseline, t.baselineHash);
    if !audit.valid { return null, audit.errors; }
    var s := Session(live, t.ops, t.baseline, t.folded, t.chain, t.anchor, t.baselineHash, t.agent, t.foreign, t.pins, signer);
    if t.chain == [] && t.anchor == "" && t.baselineHash == "" {
      var chain := ComputeChain(world.crypto, GENESIS, t.folded, t.ops);
      s := s.(anchor := GENESIS, baselineHash := Commitment(world.crypto, t.baseline), chain := chain);
    }
    session := new AgentSession.From(world, build, s);
    if s.ops != [] {
      var rebuilt := session.ReplayToStep(s.folded + |s.ops|);
      if Timeline.Stats(rebuilt) != Timeline.Stats(live) {
        session := new AgentSession.From(world, build, Timeline.Reset(world, s));
      }
    }
  }

  lemma {:induction false} NoBatch(files: seq<(Path, string)>)
    requires files == []
    ensures BatchOps(files) == []
  {
  }

  lemma {:induction false} BatchGrows(files: seq<(Path, string)>, i: nat)
    requires i < |files|
    ensures var more := BatchOps(files[..i + 1]);
      |more| == i + 1 && more[..i] == BatchOps(files[..i]) && more[i] == Op.Ingest(files[i].0, files[i].1)
  {
  }

  lemma {:induction false} ApplyNone(k: Kernel, d: Deferred)
    ensures ApplyAll(k, d, []) == d
  {
  }

  lemma {:induction false} ApplyAllAppend(k: Kernel, d: Deferred, xs: seq<Op>, ys: seq<Op>)
    ensures ApplyAll(k, d, xs + ys) == ApplyAll(k, ApplyAll(k, d, xs), ys)
  {
    hide ApplyOp;
    if ys == [] {
      assert xs + ys == xs;
    } else {
      ApplyAllAppend(k, d, xs, ys[..|ys| - 1]);
      assert (xs + ys)[..|xs + ys| - 1] == xs + ys[..|ys| - 1];
    }
  }

  /** The loop `replay_to` and `merged_view` share: `apply_op` over a stream, carrying the
      memory and its dirty flag. */
  method ApplyStream(k: Kernel, from: Deferred, stream: seq<Op>) returns (d: Deferred)
    ensures d == ApplyAll(k, from, stream)
  {
    hide ApplyOp;
    d := from;
    for i := 0 to |stream|
      invariant d == ApplyAll(k, from, stream[..i])
    {
      assert stream[..i + 1][..i] == stream[..i];
      d := ApplyOp(k, d, stream[i]);
    }
    assert stream[..|stream|] == stream;
  }

  /** The link loop of `import_bundle`. */
  method ScanBundle(c: Crypto, b: Sync.Bundle) returns (broken: Option<nat>)
    requires |b.ops| == |b.chain|
    ensures broken == Sync.FirstBroken(c, b, 0)
  {
    hide LinkHash;
    var prev := b.anchor;
    for i := 0 to |b.ops|
      invariant prev == if i == 0 then b.anchor else b.chain[i - 1]
      invariant Sync.FirstBroken(c, b, 0) == Sync.FirstBroken(c, b, i)
    {
      if LinkHash(c, prev, b.firstSeq + i, b.ops[i]) != b.chain[i] { return Some(i); }
      prev := b.chain[i];
    }
    broken := None;
  }

  /** The overlap loop of `import_bundle`. */
  method ScanOverlap(known: seq<string>, b: Sync.Bundle) returns (mismatch: Option<nat>)
    ensures mismatch == Sync.FirstMismatch(known, b, 0)
  {
    for i := 0 to |b.chain|
      invariant Sync.FirstMismatch(known, b, 0) == Sync.FirstMismatch(known, b, i)
    {
      if b.firstSeq + i >= |known| { return None; }
      if known[b.firstSeq + i] != b.chain[i] { return Some(i); }
    }
    mismatch := None;
  }
}
