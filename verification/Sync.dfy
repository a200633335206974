/** Multi-agent sync: chain-verified bundles, their import into grow-only foreign logs, and
    trust-on-first-use key pinning (core/src/agent_session.rs:186-333, 900-1066). */
module Sync {
  import opened Ops
  import opened Chain
  import opened Session

  datatype Bundle = Bundle(
    agent: string, firstSeq: nat, anchor: string, ops: seq<Op>, chain: seq<string>,
    pubkey: Option<string>, sig: Option<string>)

  datatype Flaw = MissingAgent | LengthMismatch(ops: nat, links: nat) | NotGenesis | BadLink(step: nat)

  datatype SyncError =
    | NoAgentId
    | SelfImport
    | CompactedHistory
    | Gap(known: nat, bundleStart: nat)
    | Tampered(flaw: Flaw)
    | Diverged(at: nat)
    | BadSignature(detail: string)
    | KeyMismatch(agent: string)
    | UnsignedFromPinned(agent: string)
    | SignedUnsupported

  /** Signature support of a build: `check` gives the refusal, if any, for a signature over
      the bundle with its signature fields blanked; `sign` is the matching signer. */
  datatype Signer = Signer(
    check: (Bundle, string, string) -> Option<SyncError>, sign: (Bundle, string) -> string)

  datatype Result<T> = Ok(value: T) | Err(error: SyncError)

  function Unsigned(b: Bundle): Bundle {
    b.(pubkey := None, sig := None)
  }

  function Signed(v: Signer, b: Bundle, key: Option<string>): Bundle {
    if key.None? then b else b.(pubkey := key, sig := Some(v.sign(b, key.value)))
  }

  // ---------------------------------------------------------------- export

  function ExportBundle(v: Signer, s: Session, since: nat): Result<Bundle>
    requires |s.chain| == |s.ops|
  {
    if s.agent == "" then Err(NoAgentId)
    else if since < s.folded then Err(CompactedHistory)
    else
      var start := if since - s.folded < |s.ops| then since - s.folded else |s.ops|;
      var anchor := if start == 0 then s.anchor else s.chain[start - 1];
      Ok(Signed(v, Bundle(s.agent, since, anchor, s.ops[start..], s.chain[start..], None, None), s.signer))
  }

  // ---------------------------------------------------------------- import

  function AuthRefusal(v: Signer, pins: map<string, string>, b: Bundle): Option<SyncError> {
    if b.pubkey.Some? && b.sig.Some? then
      var bad := v.check(Unsigned(b), b.pubkey.value, b.sig.value);
      if bad.Some? then bad
      else if b.agent in pins && pins[b.agent] != b.pubkey.value then Some(KeyMismatch(b.agent))
      else None
    else if b.pubkey.None? && b.sig.None? then
      if b.agent in pins then Some(UnsignedFromPinned(b.agent)) else None
    else Some(BadSignature("pubkey and sig must both be present or both absent"))
  }

  /** The first link at or after `i` that does not recompute from its predecessor. */
  function FirstBroken(c: Crypto, b: Bundle, i: nat): Option<nat>
    requires |b.ops| == |b.chain| && i <= |b.ops|
    decreases |b.ops| - i
  {
    if i == |b.ops| then None
    else if !LinkHolds(c, b.anchor, b.firstSeq, b.ops, b.chain, i) then Some(i)
    else FirstBroken(c, b, i + 1)
  }

  function ShapeRefusal(c: Crypto, b: Bundle): Option<SyncError> {
    if |b.ops| != |b.chain| then Some(Tampered(LengthMismatch(|b.ops|, |b.chain|)))
    else if b.firstSeq == 0 && b.anchor != GENESIS then Some(Tampered(NotGenesis))
    else
      var broken := FirstBroken(c, b, 0);
      if broken.Some? then Some(Tampered(BadLink(b.firstSeq + broken.value + 1))) else None
  }

  /** The first overlapping link at or after `i` that disagrees with the known chain. */
  function FirstMismatch(known: seq<string>, b: Bundle, i: nat): Option<nat>
    requires i <= |b.chain|
    decreases |b.chain| - i
  {
    if i == |b.chain| || b.firstSeq + i >= |known| then None
    else if known[b.firstSeq + i] != b.chain[i] then Some(i)
    else FirstMismatch(known, b, i + 1)
  }

  function ContinuityRefusal(foreign: map<string, ForeignLog>, b: Bundle): Option<SyncError>
    requires b.agent in foreign ==> |foreign[b.agent].ops| == |foreign[b.agent].chain|
  {
    var known := Known(foreign, b.agent);
    if b.firstSeq > |known.ops| then Some(Gap(|known.ops|, b.firstSeq))
    else if b.agent !in foreign then None
    else if b.firstSeq > 0 && b.anchor != known.chain[b.firstSeq - 1] then Some(Diverged(b.firstSeq))
    else
      var mismatch := FirstMismatch(known.chain, b, 0);
      if mismatch.Some? then Some(Diverged(b.firstSeq + mismatch.value + 1)) else None
  }

  const EMPTY_LOG := ForeignLog([], [])

  function Known(foreign: map<string, ForeignLog>, agent: string): ForeignLog {
    if agent in foreign then foreign[agent] else EMPTY_LOG
  }

  /** Every reason to refuse `b`, in the order they are checked. */
  function Refusal(c: Crypto, v: Signer, s: Session, b: Bundle): Option<SyncError>
    requires b.agent in s.foreign ==> |s.foreign[b.agent].ops| == |s.foreign[b.agent].chain|
  {
    if b.agent == "" then Some(Tampered(MissingAgent))
    else if b.agent == s.agent then Some(SelfImport)
    else
      var auth := AuthRefusal(v, s.pins, b);
      if auth.Some? then auth
      else
        var shape := ShapeRefusal(c, b);
        if shape.Some? then shape else ContinuityRefusal(s.foreign, b)
  }

  function Overlap(known: nat, b: Bundle): nat
    requires b.firstSeq <= known
  {
    if known - b.firstSeq < |b.ops| then known - b.firstSeq else |b.ops|
  }

  /** The known log with the genuinely new suffix of `b`. */
  function Extended(known: ForeignLog, b: Bundle): ForeignLog
    requires b.firstSeq <= |known.ops| && |b.ops| == |b.chain|
  {
    var overlap := Overlap(|known.ops|, b);
    ForeignLog(known.ops + b.ops[overlap..], known.chain + b.chain[overlap..])
  }

  function ImportBundle(c: Crypto, v: Signer, s: Session, b: Bundle): (Result<nat>, Session)
    requires b.agent in s.foreign ==> |s.foreign[b.agent].ops| == |s.foreign[b.agent].chain|
  {
    var refusal := Refusal(c, v, s, b);
    if refusal.Some? then (Err(refusal.value), s)
    else
      var known := Known(s.foreign, b.agent);
      (Ok(|b.ops| - Overlap(|known.ops|, b)),
       s.(foreign := s.foreign[b.agent := Extended(known, b)],
          pins := if b.pubkey.Some? && b.agent !in s.pins then s.pins[b.agent := b.pubkey.value] else s.pins))
  }

  // ---------------------------------------------------------------- what acceptance means

  lemma {:induction false} FirstBrokenIff(c: Crypto, b: Bundle, i: nat)
    requires |b.ops| == |b.chain| && i <= |b.ops|
    ensures var r := FirstBroken(c, b, i);
      && (r.None? <==> forall j | i <= j < |b.ops| :: LinkHolds(c, b.anchor, b.firstSeq, b.ops, b.chain, j))
      && (r.Some? ==> i <= r.value < |b.ops| && !LinkHolds(c, b.anchor, b.firstSeq, b.ops, b.chain, r.value)
                      && forall j | i <= j < r.value :: LinkHolds(c, b.anchor, b.firstSeq, b.ops, b.chain, j))
    decreases |b.ops| - i
  {
    hide LinkHolds;
    if i < |b.ops| { FirstBrokenIff(c, b, i + 1); }
  }

  lemma {:induction false} FirstMismatchIff(known: seq<string>, b: Bundle, i: nat)
    requires i <= |b.chain|
    ensures var r := FirstMismatch(known, b, i);
      && (r.None? <==> forall j | i <= j < |b.chain| && b.firstSeq + j < |known| :: known[b.firstSeq + j] == b.chain[j])
      && (r.Some? ==> i <= r.value < |b.chain| && b.firstSeq + r.value < |known|
                      && known[b.firstSeq + r.value] != b.chain[r.value]
                      && forall j | i <= j < r.value :: known[b.firstSeq + j] == b.chain[j])
    decreases |b.chain| - i
  {
    if i < |b.chain| { FirstMismatchIff(known, b, i + 1); }
  }

  /** A chain-verified log from genesis. */
  predicate LogValid(c: Crypto, log: ForeignLog) {
    log.chain == ChainOver(c, GENESIS, 0, log.ops)
  }

  /** A bundle whose links all recompute from its own anchor. */
  predicate WellChained(c: Crypto, b: Bundle) {
    b.chain == ChainOver(c, b.anchor, b.firstSeq, b.ops) && (b.firstSeq == 0 ==> b.anchor == GENESIS)
  }

  lemma {:induction false} ShapeAcceptsIff(c: Crypto, b: Bundle)
    ensures ShapeRefusal(c, b).None? <==> WellChained(c, b)
  {
    if |b.ops| == |b.chain| {
      FirstBrokenIff(c, b, 0);
      LinkwiseIffChain(c, b.anchor, b.firstSeq, b.ops, b.chain);
    }
  }

  /** The bundle continues a known log: it starts inside it, at its own anchor, and every
      link they share is the same. */
  predicate Continues(known: ForeignLog, b: Bundle)
    requires |known.ops| == |known.chain|
  {
    && b.firstSeq <= |known.ops|
    && (b.firstSeq > 0 ==> b.anchor == known.chain[b.firstSeq - 1])
    && (forall j | 0 <= j < |b.chain| && b.firstSeq + j < |known.chain| :: known.chain[b.firstSeq + j] == b.chain[j])
  }

  lemma {:induction false} ContinuityAcceptsIff(foreign: map<string, ForeignLog>, b: Bundle)
    requires b.agent in foreign ==> |foreign[b.agent].ops| == |foreign[b.agent].chain|
    ensures ContinuityRefusal(foreign, b).None? <==> Continues(Known(foreign, b.agent), b)
  {
    FirstMismatchIff(Known(foreign, b.agent).chain, b, 0);
  }

  /** **Acceptance, exactly.** */
  lemma {:induction false} ImportAcceptsIff(c: Crypto, v: Signer, s: Session, b: Bundle)
    requires b.agent in s.foreign ==> |s.foreign[b.agent].ops| == |s.foreign[b.agent].chain|
    ensures Refusal(c, v, s, b).None? <==>
      && b.agent != "" && b.agent != s.agent
      && AuthRefusal(v, s.pins, b).None?
      && WellChained(c, b) && Continues(Known(s.foreign, b.agent), b)
  {
    ShapeAcceptsIff(c, b);
    ContinuityAcceptsIff(s.foreign, b);
  }

  // ---------------------------------------------------------------- soundness

  /** The history a continuing bundle asserts: the known steps before it, then its own. */
  function Claimed(known: ForeignLog, b: Bundle): seq<Op>
    requires b.firstSeq <= |known.ops|
  {
    known.ops[..b.firstSeq] + b.ops
  }

  /** Up to its start a claimed history has the known heads; after it, the bundle's. */
  lemma {:induction false} ClaimedHeads(c: Crypto, known: ForeignLog, b: Bundle, n: nat)
    requires LogValid(c, known) && WellChained(c, b)
    requires b.firstSeq <= |known.ops| && (b.firstSeq > 0 ==> b.anchor == known.chain[b.firstSeq - 1])
    requires n <= |b.ops|
    ensures HistoryHead(c, Claimed(known, b), b.firstSeq + n) == HeadAt(c, b.anchor, b.firstSeq, b.ops, n)
  {
    hide LinkHash;
    var h := Claimed(known, b);
    HeadIsLocal(c, GENESIS, 0, h, known.ops, b.firstSeq);
    assert HistoryHead(c, h, b.firstSeq) == b.anchor;
    HeadResumes(c, GENESIS, 0, h, b.firstSeq, n);
    assert h[b.firstSeq..] == b.ops;
  }

  /** An accepted bundle leaves a genesis-anchored valid chain that only grew. */
  lemma {:induction false} ExtendedIsValid(c: Crypto, known: ForeignLog, b: Bundle)
    requires LogValid(c, known) && WellChained(c, b) && Continues(known, b)
    ensures LogValid(c, Extended(known, b))
    ensures known.ops <= Extended(known, b).ops && known.chain <= Extended(known, b).chain
    ensures |Extended(known, b).ops| ==
      if b.firstSeq + |b.ops| < |known.ops| then |known.ops| else b.firstSeq + |b.ops|
  {
    hide HeadAt, LinkHash;
    var overlap := Overlap(|known.ops|, b);
    if overlap < |b.ops| {
      var n := |known.ops|;
      ChainSuffix(c, b.anchor, b.firstSeq, b.ops, overlap);
      assert HeadAt(c, b.anchor, b.firstSeq, b.ops, overlap) == HistoryHead(c, known.ops, n) by {
        JoinAt(c, known, b);
      }
      JoinedChain(c, known.ops, b.ops[overlap..]);
      assert Extended(known, b).chain == known.chain + ChainOver(c, HistoryHead(c, known.ops, n), n, b.ops[overlap..]);
    } else {
      assert Extended(known, b) == known;
    }
  }

  /** Where the bundle runs past the known end, its predecessor is the known head. */
  lemma {:induction false} JoinAt(c: Crypto, known: ForeignLog, b: Bundle)
    requires LogValid(c, known) && WellChained(c, b) && Continues(known, b)
    requires b.firstSeq + |b.ops| > |known.ops|
    ensures HeadAt(c, b.anchor, b.firstSeq, b.ops, |known.ops| - b.firstSeq) == HistoryHead(c, known.ops, |known.ops|)
  {
    hide LinkHash;
    var n := |known.ops| - b.firstSeq;
    if n > 0 {
      assert b.chain[n - 1] == known.chain[b.firstSeq + (n - 1)];
    }
  }

  lemma {:induction false} JoinedChain(c: Crypto, xs: seq<Op>, ys: seq<Op>)
    ensures ChainOver(c, GENESIS, 0, xs + ys)
         == ChainOver(c, GENESIS, 0, xs) + ChainOver(c, HistoryHead(c, xs, |xs|), |xs|, ys)
  {
    hide HeadAt;
    var whole := ChainOver(c, GENESIS, 0, xs + ys);
    ChainPrefix(c, GENESIS, 0, xs + ys, |xs|);
    ChainSuffix(c, GENESIS, 0, xs + ys, |xs|);
    HeadIsLocal(c, GENESIS, 0, xs + ys, xs, |xs|);
    assert (xs + ys)[..|xs|] == xs && (xs + ys)[|xs|..] == ys;
    assert whole == whole[..|xs|] + whole[|xs|..];
  }

  // ---------------------------------------------------------------- equivocation

  /** Sharing one link means sharing every operation up to it. */
  lemma {:induction false} SharedLinkSharesOps(c: Crypto, known: ForeignLog, b: Bundle, j: nat)
    requires Faithful(c) && LogValid(c, known) && WellChained(c, b)
    requires b.firstSeq <= |known.ops| && (b.firstSeq > 0 ==> b.anchor == known.chain[b.firstSeq - 1])
    requires j < |b.ops| && b.firstSeq + j < |known.ops|
    requires known.chain[b.firstSeq + j] == b.chain[j]
    ensures (forall i | 0 <= i <= j :: known.ops[b.firstSeq + i] == b.ops[i])
            || Clash(c, known.ops, Claimed(known, b))
  {
    hide LinkHash, Clash;
    var h, n := Claimed(known, b), b.firstSeq + j + 1;
    ClaimedHeads(c, known, b, j + 1);
    assert known.chain[b.firstSeq + j] == HistoryHead(c, known.ops, n);
    HeadCommits(c, known.ops, n, h, n);
    if known.ops[..n] == h[..n] {
      forall i | 0 <= i <= j ensures known.ops[b.firstSeq + i] == b.ops[i] {
        assert known.ops[..n][b.firstSeq + i] == h[..n][b.firstSeq + i];
      }
    }
  }

  /** Sharing every operation up to a step means sharing its link. */
  lemma {:induction false} SharedOpsShareLink(c: Crypto, known: ForeignLog, b: Bundle, j: nat)
    requires LogValid(c, known) && WellChained(c, b)
    requires b.firstSeq <= |known.ops| && (b.firstSeq > 0 ==> b.anchor == known.chain[b.firstSeq - 1])
    requires j < |b.ops| && b.firstSeq + j < |known.ops|
    requires forall i | 0 <= i <= j :: known.ops[b.firstSeq + i] == b.ops[i]
    ensures known.chain[b.firstSeq + j] == b.chain[j]
  {
    hide LinkHash;
    var h, n := Claimed(known, b), b.firstSeq + j + 1;
    forall i | 0 <= i < n ensures known.ops[i] == h[i] {
      if i >= b.firstSeq { assert known.ops[b.firstSeq + (i - b.firstSeq)] == b.ops[i - b.firstSeq]; }
    }
    HeadIsLocal(c, GENESIS, 0, known.ops, h, n);
    ClaimedHeads(c, known, b, j + 1);
    assert known.chain[b.firstSeq + j] == HistoryHead(c, known.ops, n);
    assert b.chain[j] == HeadAt(c, b.anchor, b.firstSeq, b.ops, j + 1);
  }

  /** **Equivocation is always caught.** A well-chained bundle that shares a step with the
      known log but not its operation is refused as diverged; when the bundle attaches at
      the right anchor the report names the first step whose operation differs. The only
      way out is a SHA-256 collision between the two histories. */
  lemma {:induction false} EquivocationIsCaught(c: Crypto, foreign: map<string, ForeignLog>, b: Bundle, step: nat)
    requires Faithful(c) && b.agent in foreign && LogValid(c, foreign[b.agent]) && WellChained(c, b)
    requires b.firstSeq <= step < b.firstSeq + |b.ops| && step < |foreign[b.agent].ops|
    requires foreign[b.agent].ops[step] != b.ops[step - b.firstSeq]
    ensures var known := foreign[b.agent];
      var r := ContinuityRefusal(foreign, b);
      || Clash(c, known.ops, Claimed(known, b))
      || (r.Some? && r.value.Diverged? && r.value.at <= step + 1
          && (b.firstSeq == 0 || b.anchor == known.chain[b.firstSeq - 1] ==>
                var i := r.value.at - 1;
                && b.firstSeq <= i <= step && known.ops[i] != b.ops[i - b.firstSeq]
                && forall m | b.firstSeq <= m < i :: known.ops[m] == b.ops[m - b.firstSeq]))
  {
    hide Clash, LinkHash, HeadAt;
    var known := foreign[b.agent];
    if !Clash(c, known.ops, Claimed(known, b)) && (b.firstSeq == 0 || b.anchor == known.chain[b.firstSeq - 1]) {
      FirstMismatchIff(known.chain, b, 0);
      var mismatch := FirstMismatch(known.chain, b, 0);
      if mismatch.None? || step < b.firstSeq + mismatch.value {
        assert known.chain[b.firstSeq + (step - b.firstSeq)] == b.chain[step - b.firstSeq];
        SharedLinkSharesOps(c, known, b, step - b.firstSeq);
      } else {
        FirstDifference(c, known, b, mismatch.value);
      }
    }
  }

  /** So the import of such a bundle, however it is signed, is refused and changes nothing. */
  lemma {:induction false} EquivocationIsRefused(c: Crypto, v: Signer, s: Session, b: Bundle, step: nat)
    requires Faithful(c) && b.agent in s.foreign && LogValid(c, s.foreign[b.agent]) && WellChained(c, b)
    requires b.firstSeq <= step < b.firstSeq + |b.ops| && step < |s.foreign[b.agent].ops|
    requires s.foreign[b.agent].ops[step] != b.ops[step - b.firstSeq]
    ensures var (r, t) := ImportBundle(c, v, s, b);
      || Clash(c, s.foreign[b.agent].ops, Claimed(s.foreign[b.agent], b))
      || (r.Err? && t == s && (b.agent != "" && b.agent != s.agent && AuthRefusal(v, s.pins, b).None? ==> r.error.Diverged?))
  {
    hide Clash, LogValid, WellChained, ContinuityRefusal, ShapeRefusal, AuthRefusal, Extended;
    assert |s.foreign[b.agent].ops| == |s.foreign[b.agent].chain| by { LogIsEven(c, s.foreign[b.agent]); }
    EquivocationIsCaught(c, s.foreign, b, step);
    ShapeAcceptsIff(c, b);
  }

  lemma {:induction false} LogIsEven(c: Crypto, log: ForeignLog)
    requires LogValid(c, log)
    ensures |log.ops| == |log.chain|
  {
  }

  /** At the first link that disagrees, and not before, the operations disagree. */
  lemma {:induction false} FirstDifference(c: Crypto, known: ForeignLog, b: Bundle, j: nat)
    requires Faithful(c) && LogValid(c, known) && WellChained(c, b)
    requires b.firstSeq <= |known.ops| && (b.firstSeq > 0 ==> b.anchor == known.chain[b.firstSeq - 1])
    requires !Clash(c, known.ops, Claimed(known, b))
    requires j < |b.ops| && b.firstSeq + j < |known.ops|
    requires known.chain[b.firstSeq + j] != b.chain[j]
    requires forall i | 0 <= i < j :: known.chain[b.firstSeq + i] == b.chain[i]
    ensures known.ops[b.firstSeq + j] != b.ops[j]
    ensures forall m | b.firstSeq <= m < b.firstSeq + j :: known.ops[m] == b.ops[m - b.firstSeq]
  {
    hide Clash, LinkHash, HeadAt, ChainOver;
    if j > 0 {
      assert known.chain[b.firstSeq + (j - 1)] == b.chain[j - 1];
      SharedLinkSharesOps(c, known, b, j - 1);
    }
    forall m | b.firstSeq <= m < b.firstSeq + j ensures known.ops[m] == b.ops[m - b.firstSeq] {
      assert known.ops[b.firstSeq + (m - b.firstSeq)] == b.ops[m - b.firstSeq];
    }
    if known.ops[b.firstSeq + j] == b.ops[j] {
      SharedOpsShareLink(c, known, b, j);
    }
  }

  // ---------------------------------------------------------------- honest bundles

  /** `b` is exactly steps `b.firstSeq .. m` of the history `h`. */
  predicate Slice(c: Crypto, h: seq<Op>, b: Bundle, m: nat) {
    && b.firstSeq <= m <= |h|
    && b.ops == h[b.firstSeq..m]
    && b.chain == ChainOver(c, GENESIS, 0, h)[b.firstSeq..m]
    && b.anchor == HistoryHead(c, h, b.firstSeq)
  }

  /** The log of a receiver that knows the first `k` steps of `h`. */
  function PrefixLog(c: Crypto, h: seq<Op>, k: nat): ForeignLog
    requires k <= |h|
  {
    ForeignLog(h[..k], ChainOver(c, GENESIS, 0, h)[..k])
  }

  /** A longer history keeps every slice and prefix of a shorter one. */
  lemma {:induction false} HistoryGrows(c: Crypto, g: seq<Op>, h: seq<Op>)
    requires g <= h
    ensures ChainOver(c, GENESIS, 0, h)[..|g|] == ChainOver(c, GENESIS, 0, g)
    ensures forall k | 0 <= k <= |g| :: PrefixLog(c, g, k) == PrefixLog(c, h, k)
    ensures forall k | 0 <= k <= |g| :: HistoryHead(c, g, k) == HistoryHead(c, h, k)
  {
    hide HeadAt, ChainOver;
    ChainPrefix(c, GENESIS, 0, h, |g|);
    assert h[..|g|] == g;
    forall k | 0 <= k <= |g|
      ensures PrefixLog(c, g, k) == PrefixLog(c, h, k)
      ensures HistoryHead(c, g, k) == HistoryHead(c, h, k)
    {
      assert h[..k] == g[..k];
      assert ChainOver(c, GENESIS, 0, h)[..|g|][..k] == ChainOver(c, GENESIS, 0, h)[..k];
      HeadIsLocal(c, GENESIS, 0, g, h, k);
    }
  }

  lemma {:induction false} SliceGrows(c: Crypto, g: seq<Op>, h: seq<Op>, b: Bundle, m: nat)
    requires g <= h && Slice(c, g, b, m)
    ensures Slice(c, h, b, m)
  {
    hide HistoryHead;
    hide HeadAt, ChainOver;
    HistoryGrows(c, g, h);
    assert h[b.firstSeq..m] == g[b.firstSeq..m];
    assert ChainOver(c, GENESIS, 0, h)[b.firstSeq..m] == ChainOver(c, GENESIS, 0, h)[..|g|][b.firstSeq..m];
  }

  lemma {:induction false} SliceIsWellChained(c: Crypto, h: seq<Op>, b: Bundle, m: nat)
    requires Slice(c, h, b, m)
    ensures WellChained(c, b)
  {
    hide HeadAt, ChainOver;
    var whole := ChainOver(c, GENESIS, 0, h);
    ChainPrefix(c, GENESIS, 0, h, m);
    ChainSuffix(c, GENESIS, 0, h[..m], b.firstSeq);
    HeadIsLocal(c, GENESIS, 0, h, h[..m], b.firstSeq);
    assert h[..m][b.firstSeq..] == b.ops && whole[..m][b.firstSeq..] == b.chain;
    GenesisHead(c, h);
  }

  lemma {:induction false} GenesisHead(c: Crypto, h: seq<Op>)
    ensures HistoryHead(c, h, 0) == GENESIS
  {
  }

  /** **An honest slice lands exactly**: it continues a known prefix if and only if it starts
      inside it, and then the log is the exporter's prefix up to the further of the two
      ends, however the two overlap. */
  lemma {:induction false} SliceExtends(c: Crypto, h: seq<Op>, b: Bundle, m: nat, k: nat)
    requires Slice(c, h, b, m) && k <= |h|
    ensures Continues(PrefixLog(c, h, k), b) <==> b.firstSeq <= k
    ensures b.firstSeq <= k ==> Extended(PrefixLog(c, h, k), b) == PrefixLog(c, h, if k < m then m else k)
  {
    hide LinkHash;
    if b.firstSeq <= k {
      var whole := ChainOver(c, GENESIS, 0, h);
      var overlap := Overlap(k, b);
      if k < m {
        assert h[..k] + h[b.firstSeq..m][overlap..] == h[..m];
        assert whole[..k] + whole[b.firstSeq..m][overlap..] == whole[..m];
      } else {
        assert h[..k] + [] == h[..k] && whole[..k] + [] == whole[..k];
      }
    }
  }

  lemma {:induction false} ExportAnchor(w: World, s: Session, history: seq<Op>, start: nat)
    requires Valid(w, s) && Records(w, s, history) && start <= |s.ops|
    ensures |s.chain| == |s.ops|
    ensures (if start == 0 then s.anchor else s.chain[start - 1]) == HistoryHead(w.crypto, history, s.folded + start)
  {
    hide LinkHash, Commitment;
    HeadResumes(w.crypto, GENESIS, 0, history, s.folded, start);
    if start > 0 { assert s.chain[start - 1] == HeadAt(w.crypto, s.anchor, s.folded, s.ops, start); }
  }

  lemma {:induction false} SuffixOfSuffix<T>(xs: seq<T>, i: nat, j: nat)
    requires i + j <= |xs|
    ensures xs[i..][j..] == xs[i + j..|xs|]
  {
  }

  lemma {:induction false} ExportIsSlice(w: World, v: Signer, s: Session, history: seq<Op>, since: nat)
    requires Valid(w, s) && Records(w, s, history) && s.agent != "" && s.folded <= since <= Length(s)
    ensures ExportBundle(v, s, since).Ok?
    ensures var b := ExportBundle(v, s, since).value;
      && Slice(w.crypto, history, b, |history|)
      && b == Signed(v, b.(pubkey := None, sig := None), s.signer) && b.agent == s.agent
      && b.pubkey == s.signer
      && b.sig == (if s.signer.Some? then Some(v.sign(b.(pubkey := None, sig := None), s.signer.value)) else None)
  {
    hide HistoryHead, ChainOver, Valid;
    var start := since - s.folded;
    HeadOfHistory(w, s, history);
    ExportAnchor(w, s, history, start);
    SuffixOfSuffix(history, s.folded, start);
    SuffixOfSuffix(ChainOver(w.crypto, GENESIS, 0, history), s.folded, start);
  }

  /** Signing and signature checking of one build agree. */
  ghost predicate Matching(v: Signer) {
    forall b, key :: v.check(b, key, v.sign(b, key)).None?
  }

  /** Importing `b` adds the steps of `h` beyond `k` to the log of `agent`, and nothing else. */
  ghost predicate BringsUpToDate(c: Crypto, v: Signer, r: Session, b: Bundle, agent: string, h: seq<Op>, k: nat) {
    (b.agent in r.foreign ==> |r.foreign[b.agent].ops| == |r.foreign[b.agent].chain|) &&
    var (result, after) := ImportBundle(c, v, r, b);
    && result == Ok(|h| - k)
    && after.foreign == r.foreign[agent := PrefixLog(c, h, |h|)]
    && after.ops == r.ops && after.live == r.live
  }

  /** **Export then import** brings a receiver that already holds at least `since` steps to
      the exporter's full log, adding exactly what it lacked. */
  lemma {:induction false} RoundTrip(w: World, v: Signer, s: Session, history: seq<Op>, since: nat, r: Session, k: nat)
    requires Valid(w, s) && Records(w, s, history) && Matching(v)
    requires s.agent != "" && s.agent != r.agent && s.folded <= since <= k <= Length(s)
    requires Known(r.foreign, s.agent) == PrefixLog(w.crypto, history, k)
    requires s.agent in r.pins ==> s.signer == Some(r.pins[s.agent])
    ensures ExportBundle(v, s, since).Ok? && BringsUpToDate(w.crypto, v, r, ExportBundle(v, s, since).value, s.agent, history, k)
  {
    hide HeadAt, ChainOver, LinkHash, Valid, Records, Slice, WellChained, PrefixLog, Extended, Continues, ShapeRefusal, ContinuityRefusal;
    var c := w.crypto;
    LengthOfHistory(w, s, history);
    ExportIsSlice(w, v, s, history, since);
    var b := ExportBundle(v, s, since).value;
    SliceIsWellChained(c, history, b, |history|);
    SliceExtends(c, history, b, |history|, k);
    SliceSizes(c, history, b, |history|, k);
    ImportAcceptsIff(c, v, r, b);
  }

  lemma {:induction false} LengthOfHistory(w: World, s: Session, history: seq<Op>)
    requires Valid(w, s) && Records(w, s, history)
    ensures |history| == Length(s) && |s.chain| == |s.ops|
  {
  }

  lemma {:induction false} SliceSizes(c: Crypto, h: seq<Op>, b: Bundle, m: nat, k: nat)
    requires Slice(c, h, b, m) && k <= |h|
    ensures |b.ops| == |b.chain| == m - b.firstSeq && b.firstSeq <= m
    ensures |PrefixLog(c, h, k).ops| == |PrefixLog(c, h, k).chain| == k
  {
  }

  // ---------------------------------------------------------------- runs of imports

  ghost predicate AllLogsValid(c: Crypto, s: Session) {
    forall a | a in s.foreign :: LogValid(c, s.foreign[a])
  }

  /** One import: refused bundles change nothing; accepted ones extend one log, pin at most
      one new key, and — under a pinned id — carry that key with a checked signature. */
  lemma {:induction false} ImportStep(c: Crypto, v: Signer, s: Session, b: Bundle)
    requires AllLogsValid(c, s)
    ensures var (r, t) := ImportBundle(c, v, s, b);
      && AllLogsValid(c, t)
      && (r.Err? ==> t == s)
      && (r.Ok? ==> t == s.(foreign := t.foreign, pins := t.pins))
      && (forall a | a in s.pins :: a in t.pins && t.pins[a] == s.pins[a])
      && (forall a :: Known(s.foreign, a).ops <= Known(t.foreign, a).ops)
      && (forall a | Known(s.foreign, a) != Known(t.foreign, a) ::
            a == b.agent && r.Ok?
            && (a in s.pins ==> b.pubkey == Some(s.pins[a]) && b.sig.Some?
                                && v.check(Unsigned(b), b.pubkey.value, b.sig.value).None?))
  {
    hide HeadAt, LinkHash, ChainOver, ShapeRefusal, ContinuityRefusal, Continues, WellChained;
    var (r, t) := ImportBundle(c, v, s, b);
    LogsAreEven(c, s);
    if r.Ok? {
      var known := Known(s.foreign, b.agent);
      ImportAcceptsIff(c, v, s, b);
      assert LogValid(c, known) by { if b.agent !in s.foreign { EmptyLogIsValid(c); } }
      ExtendedIsValid(c, known, b);
    }
  }

  lemma {:induction false} EmptyLogIsValid(c: Crypto)
    ensures LogValid(c, EMPTY_LOG)
  {
  }

  lemma {:induction false} LogsAreEven(c: Crypto, s: Session)
    requires AllLogsValid(c, s)
    ensures forall a | a in s.foreign :: |s.foreign[a].ops| == |s.foreign[a].chain|
  {
  }

  /** The session after importing `bs` in order, whatever they are. */
  ghost function ImportAll(c: Crypto, v: Signer, s: Session, bs: seq<Bundle>): Session
    requires AllLogsValid(c, s)
    ensures AllLogsValid(c, ImportAll(c, v, s, bs))
  {
    if bs == [] then s
    else
      var t := ImportAll(c, v, s, bs[..|bs| - 1]);
      ImportStep(c, v, t, bs[|bs| - 1]);
      ImportBundle(c, v, t, bs[|bs| - 1]).1
  }

  /** **Any sequence of bundles, honest or hostile**: every stored log is a valid chain from
      genesis, no log ever loses or rewrites a step, and no pin ever changes. Two logs ever
      held for one agent are therefore always prefixes of one history. */
  lemma {:induction false} ForeignLogsOnlyGrow(c: Crypto, v: Signer, s: Session, bs: seq<Bundle>, i: nat)
    requires AllLogsValid(c, s) && i <= |bs|
    ensures var early, late := ImportAll(c, v, s, bs[..i]), ImportAll(c, v, s, bs);
      && AllLogsValid(c, late)
      && (forall a :: Known(early.foreign, a).ops <= Known(late.foreign, a).ops)
      && (forall a | a in early.pins :: a in late.pins && late.pins[a] == early.pins[a])
      && late.ops == s.ops && late.chain == s.chain && late.live == s.live
  {
    hide ImportBundle, Known, LogValid;
    if i == |bs| {
      assert bs[..i] == bs;
      if i > 0 {
        ForeignLogsOnlyGrow(c, v, s, bs[..i - 1], i - 1);
        assert bs[..i - 1][..i - 1] == bs[..i - 1];
        ImportStep(c, v, ImportAll(c, v, s, bs[..i - 1]), bs[i - 1]);
      }
    } else {
      var init := bs[..|bs| - 1];
      ForeignLogsOnlyGrow(c, v, s, init, i);
      assert init[..i] == bs[..i];
      ImportStep(c, v, ImportAll(c, v, s, init), bs[|bs| - 1]);
    }
  }

  /** After an agent is pinned, every step added to its log came in a bundle carrying that
      key and a signature that checked. */
  lemma {:induction false} PinnedLogsGrowOnlyByKey(c: Crypto, v: Signer, s: Session, bs: seq<Bundle>, i: nat, j: nat, a: string)
    requires AllLogsValid(c, s) && i <= j < |bs| && a in ImportAll(c, v, s, bs[..i]).pins
    requires Known(ImportAll(c, v, s, bs[..j]).foreign, a) != Known(ImportAll(c, v, s, bs[..j + 1]).foreign, a)
    ensures bs[j].agent == a && bs[j].pubkey == Some(ImportAll(c, v, s, bs[..i]).pins[a]) && bs[j].sig.Some?
    ensures v.check(Unsigned(bs[j]), bs[j].pubkey.value, bs[j].sig.value).None?
  {
    hide ImportBundle, Known, LogValid;
    ForeignLogsOnlyGrow(c, v, s, bs[..j], i);
    assert bs[..j][..i] == bs[..i];
    assert bs[..j + 1][..j] == bs[..j] && bs[..j + 1][j] == bs[j];
    ImportStep(c, v, ImportAll(c, v, s, bs[..j]), bs[j]);
  }

  // ---------------------------------------------------------------- what a refusal says

  /** **Every refusal means what it names**, step numbers included. */
  lemma {:induction false} RefusalMeans(c: Crypto, v: Signer, s: Session, b: Bundle)
    requires b.agent in s.foreign ==> |s.foreign[b.agent].ops| == |s.foreign[b.agent].chain|
    requires Refusal(c, v, s, b).Some? && (b.pubkey.None? || b.sig.None? || v.check(b.(pubkey := None, sig := None), b.pubkey.value, b.sig.value).None?)
    ensures var known := if b.agent in s.foreign then |s.foreign[b.agent].ops| else 0;
      match Refusal(c, v, s, b).value
      case Tampered(flaw) => (
        match flaw
        case MissingAgent => b.agent == ""
        case LengthMismatch(ops, links) => ops == |b.ops| && links == |b.chain| && ops != links
        case NotGenesis => b.firstSeq == 0 && b.anchor != "GENESIS"
        case BadLink(step) =>
          && |b.ops| == |b.chain| && b.firstSeq < step <= b.firstSeq + |b.ops|
          && (forall i | 0 <= i < |b.ops| :: LinkHolds(c, b.anchor, b.firstSeq, b.ops, b.chain, i) <== b.firstSeq + i + 1 < step)
          && !LinkHolds(c, b.anchor, b.firstSeq, b.ops, b.chain, step - 1 - b.firstSeq))
      case SelfImport => b.agent == s.agent
      case Gap(have, start) => have == known && start == b.firstSeq && have < start
      case Diverged(at) =>
        b.agent in s.foreign && var chain := s.foreign[b.agent].chain;
        || (at == b.firstSeq && 0 < at <= |chain| && b.anchor != chain[at - 1])
        || (b.firstSeq < at <= |chain| && at <= b.firstSeq + |b.chain| && chain[at - 1] != b.chain[at - 1 - b.firstSeq]
            && forall m | b.firstSeq <= m < at - 1 :: chain[m] == b.chain[m - b.firstSeq])
      case BadSignature(_) => b.pubkey.Some? != b.sig.Some?
      case KeyMismatch(agent) => agent == b.agent && agent in s.pins && b.pubkey.Some? && s.pins[agent] != b.pubkey.value
      case UnsignedFromPinned(agent) => agent == b.agent && agent in s.pins && b.pubkey.None?
      case _ => false
  {
    hide LinkHolds, FirstBroken, FirstMismatch;
    if |b.ops| == |b.chain| { FirstBrokenIff(c, b, 0); }
    if b.agent in s.foreign { FirstMismatchIff(s.foreign[b.agent].chain, b, 0); }
  }

  /** The number an import returns is the number of steps the log grew by. */
  lemma {:induction false} AddedIsGrowth(c: Crypto, v: Signer, s: Session, b: Bundle)
    requires AllLogsValid(c, s) && (b.agent in s.foreign ==> |s.foreign[b.agent].ops| == |s.foreign[b.agent].chain|)
    ensures var (r, t) := ImportBundle(c, v, s, b);
      r.Ok? ==> b.agent in t.foreign && |t.foreign[b.agent].ops| == |Known(s.foreign, b.agent).ops| + r.value
  {
    hide AuthRefusal, LogValid, FirstBroken, FirstMismatch;
  }

  /** An export needs an identity and an unfolded start, and nothing else; past the end it is
      empty, keeps the step asked for and is anchored at the head. */
  lemma {:induction false} ExportRefusesIff(v: Signer, s: Session, since: nat)
    requires |s.chain| == |s.ops|
    ensures ExportBundle(v, s, since) == Err(NoAgentId) <==> s.agent == ""
    ensures ExportBundle(v, s, since) == Err(CompactedHistory) <==> s.agent != "" && since < s.folded
    ensures s.agent != "" && since >= s.folded ==>
      var r := ExportBundle(v, s, since);
      r.Ok? && r.value.agent == s.agent && r.value.firstSeq == since && r.value.pubkey == s.signer
      && (r.value.sig.Some? <==> s.signer.Some?)
    ensures s.agent != "" && since >= Length(s) ==>
      var b := ExportBundle(v, s, since).value; b.ops == [] && b.chain == [] && b.anchor == TimelineHead(s)
  {
  }

  // ---------------------------------------------------------------- signatures

  /** **No unchecked signature is ever accepted**: key and signature come together, a signed
      bundle's signature checks whatever is pinned, and its key is the agent's pin from then
      on; an unsigned bundle comes from an unpinned agent and pins nothing. */
  lemma {:induction false} AcceptedIsAuthentic(c: Crypto, v: Signer, s: Session, b: Bundle)
    requires b.agent in s.foreign ==> |s.foreign[b.agent].ops| == |s.foreign[b.agent].chain|
    requires ImportBundle(c, v, s, b).0.Ok?
    ensures b.pubkey.Some? <==> b.sig.Some?
    ensures b.pubkey.Some? ==> v.check(b.(pubkey := None, sig := None), b.pubkey.value, b.sig.value).None?
    ensures b.agent in s.pins ==> b.pubkey == Some(s.pins[b.agent])
    ensures ImportBundle(c, v, s, b).1.pins == if b.pubkey.Some? then s.pins[b.agent := b.pubkey.value] else s.pins
  {
    hide ShapeRefusal, ContinuityRefusal, Extended;
  }

  /** **Every pin was earned**: over any sequence of bundles, a pin that was not there at the
      start came with an accepted bundle of that agent, carrying that key and a signature
      that checked. */
  lemma {:induction false} NewPinsWereChecked(c: Crypto, v: Signer, s: Session, bs: seq<Bundle>, a: string)
    requires AllLogsValid(c, s) && a in ImportAll(c, v, s, bs).pins && a !in s.pins
    ensures exists i | 0 <= i < |bs| :: PinnedBy(v, bs[i], a, ImportAll(c, v, s, bs).pins[a])
  {
    hide ImportBundle, LogValid;
    if bs != [] {
      var n := |bs| - 1;
      var t := ImportAll(c, v, s, bs[..n]);
      LogsAreEven(c, t);
      ImportStep(c, v, t, bs[n]);
      if a in t.pins {
        NewPinsWereChecked(c, v, s, bs[..n], a);
        var i :| 0 <= i < n && PinnedBy(v, bs[..n][i], a, t.pins[a]);
        assert PinnedBy(v, bs[i], a, ImportAll(c, v, s, bs).pins[a]);
      } else {
        AcceptedIsAuthentic(c, v, t, bs[n]);
        assert PinnedBy(v, bs[n], a, ImportAll(c, v, s, bs).pins[a]);
      }
    }
  }

  predicate PinnedBy(v: Signer, b: Bundle, a: string, key: string) {
    b.agent == a && b.pubkey == Some(key) && b.sig.Some? && v.check(b.(pubkey := None, sig := None), key, b.sig.value).None?
  }

  // ---------------------------------------------------------------- runs of honest imports

  function EndOf(b: Bundle): nat {
    b.firstSeq + |b.ops|
  }

  /** Every bundle of `a` among `bs` is a slice of `h`, however they overlap; bundles of other
      agents are arbitrary. */
  ghost predicate SlicesOf(c: Crypto, h: seq<Op>, a: string, bs: seq<Bundle>) {
    forall i | 0 <= i < |bs| && bs[i].agent == a :: Slice(c, h, bs[i], EndOf(bs[i]))
  }

  /** One honest bundle: refused only as anonymous, as one's own, by authenticity or for a
      gap; and the log ends at the further of what was known and what was accepted. */
  lemma {:induction false} HonestImport(c: Crypto, v: Signer, s: Session, h: seq<Op>, b: Bundle, k: nat)
    requires AllLogsValid(c, s) && k <= |h| && Slice(c, h, b, EndOf(b))
    requires Known(s.foreign, b.agent) == PrefixLog(c, h, k)
    ensures b.agent in s.foreign ==> |s.foreign[b.agent].ops| == |s.foreign[b.agent].chain|
    ensures var (r, t) := ImportBundle(c, v, s, b);
      && (r.Ok? <==> b.agent != "" && b.agent != s.agent && AuthRefusal(v, s.pins, b).None? && b.firstSeq <= k)
      && (r.Err? ==> r.error == Tampered(MissingAgent) || r.error == SelfImport
                     || Some(r.error) == AuthRefusal(v, s.pins, b) || r.error == Gap(k, b.firstSeq))
      && Known(t.foreign, b.agent) == PrefixLog(c, h, if r.Ok? && k < EndOf(b) then EndOf(b) else k)
  {
    hide ChainOver, HeadAt, LogValid, Slice, Extended, Continues, WellChained, AuthRefusal, FirstMismatch, FirstBroken, PrefixLog;
    LogsAreEven(c, s);
    SliceIsWellChained(c, h, b, EndOf(b));
    SliceExtends(c, h, b, EndOf(b), k);
    SliceSizes(c, h, b, EndOf(b), k);
    ShapeAcceptsIff(c, b);
    ContinuityAcceptsIff(s.foreign, b);
  }

  /** The furthest end accepted from `a`, starting from `k` known steps. */
  ghost function Furthest(c: Crypto, v: Signer, s: Session, a: string, bs: seq<Bundle>, k: nat): nat
    requires AllLogsValid(c, s)
  {
    if bs == [] then k
    else
      var init, last := bs[..|bs| - 1], bs[|bs| - 1];
      var reached, t := Furthest(c, v, s, a, init, k), ImportAll(c, v, s, init);
      LogsAreEven(c, t);
      if last.agent == a && ImportBundle(c, v, t, last).0.Ok? && reached < EndOf(last) then EndOf(last) else reached
  }

  /** **Honest imports add up.** Over any sequence of bundles in which `a`'s are slices of its
      history, overlapping arbitrarily and mixed with anything from others, the log of `a` is
      exactly its history up to the furthest accepted end. */
  lemma {:induction false} HonestImportsReachFurthest(
    c: Crypto, v: Signer, s: Session, h: seq<Op>, a: string, bs: seq<Bundle>, k: nat)
    requires AllLogsValid(c, s) && k <= |h| && SlicesOf(c, h, a, bs)
    requires Known(s.foreign, a) == PrefixLog(c, h, k)
    ensures k <= Furthest(c, v, s, a, bs, k) <= |h|
    ensures Known(ImportAll(c, v, s, bs).foreign, a) == PrefixLog(c, h, Furthest(c, v, s, a, bs, k))
  {
    hide ImportBundle, Known, LogValid, Slice, PrefixLog;
    if bs != [] {
      var init, last := bs[..|bs| - 1], bs[|bs| - 1];
      HonestImportsReachFurthest(c, v, s, h, a, init, k);
      var t, reached := ImportAll(c, v, s, init), Furthest(c, v, s, a, init, k);
      if last.agent == a {
        assert Slice(c, h, last, EndOf(last));
        EndIsInside(c, h, last);
        HonestImport(c, v, t, h, last, reached);
      } else {
        ImportStep(c, v, t, last);
      }
    }
  }

  lemma {:induction false} EndIsInside(c: Crypto, h: seq<Op>, b: Bundle)
    requires Slice(c, h, b, EndOf(b))
    ensures EndOf(b) <= |h|
  {
  }

  /** **Incremental imports equal one full import**: any accepted sequence that reaches the
      end of the history leaves the log a single bundle of the whole history leaves. */
  lemma {:induction false} IncrementalEqualsFull(
    c: Crypto, v: Signer, s: Session, h: seq<Op>, a: string, bs: seq<Bundle>, full: Bundle, k: nat)
    requires AllLogsValid(c, s) && k <= |h| && SlicesOf(c, h, a, bs)
    requires Known(s.foreign, a) == PrefixLog(c, h, k) && Furthest(c, v, s, a, bs, k) == |h|
    requires full.agent == a && full.firstSeq == 0 && Slice(c, h, full, |h|)
    requires a != "" && a != s.agent && AuthRefusal(v, s.pins, full).None?
    ensures Known(ImportAll(c, v, s, bs).foreign, a) == Known(ImportAll(c, v, s, [full]).foreign, a) == PrefixLog(c, h, |h|)
  {
    hide ImportBundle, Known, LogValid, Slice, PrefixLog, AuthRefusal;
    HonestImportsReachFurthest(c, v, s, h, a, bs, k);
    SliceSizes(c, h, full, |h|, k);
    assert EndOf(full) == |h| && [full][..0] == [];
    HonestImport(c, v, s, h, full, k);
  }
}
