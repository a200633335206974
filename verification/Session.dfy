/** The session as a value: live memory, replay baseline, operation tail, hash chain and
    foreign logs, with the operations of core/src/agent_session.rs as functions on it. The
    class in AgentSession.dfy updates the same fields in place and is proved against these. */
module Session {
  import opened Ops
  import opened Memory
  import opened Replay
  import opened Chain

  datatype ForeignLog = ForeignLog(ops: seq<Op>, chain: seq<string>)

  datatype Session = Session(
    live: Memory, ops: seq<Op>, baseline: Option<Memory>, folded: nat,
    chain: seq<string>, anchor: string, baselineHash: string,
    agent: string, foreign: map<string, ForeignLog>, pins: map<string, string>,
    signer: Option<string>)

  /** A kernel and the cryptography around it. */
  datatype World = World(kernel: Kernel, crypto: Crypto)

  ghost predicate Sound(w: World) {
    WellFormed(w.kernel) && Faithful(w.crypto)
  }

  function Fresh(w: World): Session {
    Session(New(w.kernel), [], None, 0, [], GENESIS, Commitment(w.crypto, None), "", map[], map[], None)
  }

  function Length(s: Session): nat {
    s.folded + |s.ops|
  }

  /** The memory the retained tail replays on top of. */
  function Start(w: World, s: Session): Memory {
    match s.baseline
    case None => New(w.kernel)
    case Some(m) => m
  }

  /** How many retained operations a logical `step` covers. */
  function Tail(s: Session, step: nat): nat {
    var clamped := if step < Length(s) then step else Length(s);
    if clamped < s.folded then 0 else clamped - s.folded
  }

  function ReplayTo(w: World, s: Session, step: nat): Memory {
    Replayed(w.kernel, Start(w, s), s.ops[..Tail(s, step)])
  }

  function TimelineHead(s: Session): string {
    Head(s.anchor, s.chain)
  }

  function Record(w: World, s: Session, op: Op): Session {
    s.(ops := s.ops + [op],
       chain := s.chain + [LinkHash(w.crypto, TimelineHead(s), Length(s), op)])
  }

  /** Record `op` and apply it to the live memory. */
  function Perform(w: World, s: Session, op: Op): Session {
    Record(w, s, op).(live := Eager(w.kernel, s.live, op))
  }

  function PerformAll(w: World, s: Session, ops: seq<Op>): Session {
    if ops == [] then s else Perform(w, PerformAll(w, s, ops[..|ops| - 1]), ops[|ops| - 1])
  }

  /** Fold all but the last `keep` operations into the baseline. */
  function Compact(w: World, s: Session, keep: nat): Session
    requires |s.chain| == |s.ops|
  {
    if |s.ops| <= keep then s
    else
      var fold := |s.ops| - keep;
      var floor := Reload(ReplayTo(w, s, s.folded + fold));
      s.(anchor := s.chain[fold - 1], chain := s.chain[fold..],
         baselineHash := Commitment(w.crypto, Some(floor)), baseline := Some(floor),
         ops := s.ops[fold..], folded := s.folded + fold)
  }

  function CompactIfNeeded(w: World, s: Session, max: nat, keep: nat): Session
    requires |s.chain| == |s.ops|
  {
    if max > 0 && |s.ops| > max then Compact(w, s, keep) else s
  }

  /** An independent session whose history ends at `step`. */
  function ForkAt(w: World, s: Session, step: nat): Session
    requires |s.chain| == |s.ops|
  {
    var n := Tail(s, step);
    s.(live := ReplayTo(w, s, if step < s.folded then s.folded else step), ops := s.ops[..n], chain := s.chain[..n])
  }

  /** What every session keeps: a chain its operations produce, a committed baseline, and
      resolved memories. */
  ghost predicate Valid(w: World, s: Session) {
    && s.chain == ChainOver(w.crypto, s.anchor, s.folded, s.ops)
    && s.baselineHash == Commitment(w.crypto, s.baseline)
    && s.anchor != ""
    && (s.baseline.Some? ==> s.baseline.value == Reload(s.baseline.value))
    && Settled(s.live)
  }

  /** The session records `history`, of which the first `folded` operations are folded. */
  ghost predicate Records(w: World, s: Session, history: seq<Op>) {
    && |history| == Length(s)
    && s.ops == history[s.folded..]
    && s.anchor == HistoryHead(w.crypto, history, s.folded)
  }

  // ---------------------------------------------------------------- every step keeps

  lemma {:induction false} FreshIsValid(w: World)
    ensures Valid(w, Fresh(w)) && Records(w, Fresh(w), [])
  {
  }

  lemma {:induction false} EagerKeepsSettled(k: Kernel, m: Memory, op: Op)
    requires Settled(m)
    ensures Settled(Eager(k, m, op))
  {
    hide Applied, Relinked;
    StepKeepsIndexed(k, m, op);
  }

  lemma {:induction false} RecordKeepsChain(c: Crypto, anchor: string, from: nat, ops: seq<Op>, op: Op)
    ensures var chain := ChainOver(c, anchor, from, ops);
      ChainOver(c, anchor, from, ops + [op])
      == chain + [LinkHash(c, Head(anchor, chain), from + |ops|, op)]
  {
    hide LinkHash;
    var part, whole := ChainOver(c, anchor, from, ops), ChainOver(c, anchor, from, ops + [op]);
    ChainPrefix(c, anchor, from, ops + [op], |ops|);
    assert (ops + [op])[..|ops|] == ops;
    assert whole[|ops|] == HeadAt(c, anchor, from, ops + [op], |ops| + 1);
    HeadIsLocal(c, anchor, from, ops + [op], ops, |ops|);
    assert whole == whole[..|ops|] + [whole[|ops|]];
  }

  lemma {:induction false} PerformKeeps(w: World, s: Session, op: Op, history: seq<Op>)
    requires Valid(w, s) && Records(w, s, history)
    ensures Valid(w, Perform(w, s, op)) && Records(w, Perform(w, s, op), history + [op])
  {
    hide Eager, Commitment, LinkHash, HeadAt, Settled;
    EagerKeepsSettled(w.kernel, s.live, op);
    RecordKeepsChain(w.crypto, s.anchor, s.folded, s.ops, op);
    HeadIsLocal(w.crypto, GENESIS, 0, history, history + [op], s.folded);
  }

  lemma {:induction false} StartIsSettled(w: World, s: Session)
    requires Valid(w, s)
    ensures Settled(Start(w, s))
  {
  }

  lemma {:induction false} ReplayIsSettled(k: Kernel, m: Memory, ops: seq<Op>)
    requires Settled(m)
    ensures Settled(Replayed(k, m, ops))
  {
    DirtyIsPending(k, m, ops);
  }

  /** The chain of a session is the tail of its history's chain, so its head is the
      history's head however much was folded. */
  lemma {:induction false} HeadOfHistory(w: World, s: Session, history: seq<Op>)
    requires Valid(w, s) && Records(w, s, history)
    ensures s.chain == ChainOver(w.crypto, GENESIS, 0, history)[s.folded..]
    ensures TimelineHead(s) == HistoryHead(w.crypto, history, |history|)
  {
    ChainSuffix(w.crypto, GENESIS, 0, history, s.folded);
  }

  lemma {:induction false} CutKeepsChain(w: World, s: Session, fold: nat, history: seq<Op>)
    requires Valid(w, s) && Records(w, s, history) && 0 < fold <= |s.ops|
    ensures s.chain[fold..] == ChainOver(w.crypto, s.chain[fold - 1], s.folded + fold, s.ops[fold..])
    ensures s.chain[fold - 1] == HistoryHead(w.crypto, history, s.folded + fold)
    ensures s.ops[fold..] == history[s.folded + fold..]
  {
    hide LinkHash, Commitment;
    assert s.chain[fold - 1] == HeadAt(w.crypto, s.anchor, s.folded, s.ops, fold);
    ChainSuffix(w.crypto, s.anchor, s.folded, s.ops, fold);
    HeadResumes(w.crypto, GENESIS, 0, history, s.folded, fold);
  }

  /** Folding moves the anchor, never the head. */
  lemma {:induction false} CompactKeeps(w: World, s: Session, keep: nat, history: seq<Op>)
    requires Faithful(w.crypto) && Valid(w, s) && Records(w, s, history)
    ensures var t := Compact(w, s, keep);
      && Valid(w, t) && Records(w, t, history)
      && Length(t) == Length(s) && TimelineHead(t) == TimelineHead(s) && t.live == s.live
  {
    hide ReplayTo, Commitment, ChainOver, HistoryHead, Faithful, Settled;
    if |s.ops| > keep {
      var fold := |s.ops| - keep;
      CutKeepsChain(w, s, fold, history);
      HeadIsHash(w.crypto, history, s.folded + fold);
    }
  }

  /** A checkpoint folds only a log that has outgrown a positive `max`, and then keeps exactly
      the last `keep` operations, or all of them if they are fewer. */
  lemma {:induction false} ThresholdIsKept(w: World, s: Session, max: nat, keep: nat)
    requires |s.chain| == |s.ops|
    ensures var t := CompactIfNeeded(w, s, max, keep);
      if max == 0 || |s.ops| <= max then t == s
      else |t.ops| == (if keep < |s.ops| then keep else |s.ops|) && t.ops == s.ops[|s.ops| - |t.ops|..] && Length(t) == Length(s)
  {
    hide ReplayTo, Commitment;
  }

  lemma {:induction false} ForkKeeps(w: World, s: Session, step: nat, history: seq<Op>)
    requires Valid(w, s) && Records(w, s, history)
    ensures var t := ForkAt(w, s, step);
      && Valid(w, t) && Records(w, t, history[..s.folded + Tail(s, step)])
      && t.live == ReplayTo(w, t, Length(t))
      && t == s.(live := t.live, ops := t.ops, chain := t.chain)
  {
    hide Replayed, Commitment, LinkHash;
    var n := Tail(s, step);
    ChainPrefix(w.crypto, s.anchor, s.folded, s.ops, n);
    ReplayIsSettled(w.kernel, Start(w, s), s.ops[..n]);
    HeadIsLocal(w.crypto, GENESIS, 0, history, history[..s.folded + n], s.folded);
    assert s.ops[..n][..n] == s.ops[..n];
  }

  /** **Two sessions with the same head recorded the same history**, whatever each folded,
      unless their histories exhibit a SHA-256 collision. */
  lemma {:induction false} SameHeadSameHistory(w: World, s: Session, g: seq<Op>, t: Session, h: seq<Op>)
    requires Faithful(w.crypto) && Valid(w, s) && Valid(w, t) && Records(w, s, g) && Records(w, t, h)
    requires TimelineHead(s) == TimelineHead(t)
    ensures g == h || Clash(w.crypto, g, h)
  {
    hide Valid, Records, Clash;
    HeadOfHistory(w, s, g);
    HeadOfHistory(w, t, h);
    HeadCommits(w.crypto, g, |g|, h, |h|);
    assert g[..|g|] == g && h[..|h|] == h;
  }
}
