/** The tamper-evident timeline chain: each link hashes its predecessor, its absolute step
    and its operation (core/src/agent_session.rs:336-417). SHA-256, JSON and Ed25519 are
    parameters; nothing assumes the hash is injective, which no 64-character hash is. Where
    a result needs two preimages not to collide, it names the colliding pair. */
module Chain {
  import opened Ops
  import Memory
  import opened Text

  datatype Crypto = Crypto(
    sha: string -> string,
    opJson: Op -> string,
    memoryJson: Memory.Memory -> string)

  /** Hex digests of fixed length, and a JSON encoding of operations that can be read back. */
  ghost predicate Faithful(c: Crypto) {
    && (forall s :: |c.sha(s)| == 64 && '|' !in c.sha(s))
    && (forall x, y | c.opJson(x) == c.opJson(y) :: x == y)
  }

  const GENESIS := "GENESIS"

  function LinkInput(c: Crypto, prev: string, step: nat, op: Op): string {
    prev + "|" + (Decimal(step) + "|" + c.opJson(op))
  }

  function LinkHash(c: Crypto, prev: string, step: nat, op: Op): string {
    c.sha(LinkInput(c, prev, step, op))
  }

  /** The hash after the first `n` of `ops`, the first of them being step `from`. */
  function HeadAt(c: Crypto, anchor: string, from: nat, ops: seq<Op>, n: nat): string
    requires n <= |ops|
  {
    if n == 0 then anchor
    else LinkHash(c, HeadAt(c, anchor, from, ops, n - 1), from + n - 1, ops[n - 1])
  }

  /** The whole chain: link `i` is the hash after operation `i`. */
  function ChainOver(c: Crypto, anchor: string, from: nat, ops: seq<Op>): (r: seq<string>)
    ensures |r| == |ops|
  {
    seq(|ops|, i requires 0 <= i < |ops| => HeadAt(c, anchor, from, ops, i + 1))
  }

  function Head(anchor: string, chain: seq<string>): string {
    if chain == [] then anchor else chain[|chain| - 1]
  }

  method ComputeChain(c: Crypto, anchor: string, from: nat, ops: seq<Op>) returns (chain: seq<string>)
    ensures chain == ChainOver(c, anchor, from, ops)
  {
    chain := [];
    var prev := anchor;
    for i := 0 to |ops|
      invariant prev == HeadAt(c, anchor, from, ops, i)
      invariant |chain| == i && forall j | 0 <= j < i :: chain[j] == HeadAt(c, anchor, from, ops, j + 1)
    {
      prev := LinkHash(c, prev, from + i, ops[i]);
      chain := chain + [prev];
    }
  }

  // ---------------------------------------------------------------- shape

  /** A head depends only on the operations before it. */
  lemma {:induction false} HeadIsLocal(c: Crypto, anchor: string, from: nat, xs: seq<Op>, ys: seq<Op>, n: nat)
    requires n <= |xs| && n <= |ys| && forall i | 0 <= i < n :: xs[i] == ys[i]
    ensures HeadAt(c, anchor, from, xs, n) == HeadAt(c, anchor, from, ys, n)
  {
    if n != 0 { HeadIsLocal(c, anchor, from, xs, ys, n - 1); }
  }

  /** A chain resumes from any of its own heads. */
  lemma {:induction false} HeadResumes(c: Crypto, anchor: string, from: nat, ops: seq<Op>, m: nat, n: nat)
    requires m + n <= |ops|
    ensures HeadAt(c, anchor, from, ops, m + n)
         == HeadAt(c, HeadAt(c, anchor, from, ops, m), from + m, ops[m..], n)
  {
    if n != 0 { HeadResumes(c, anchor, from, ops, m, n - 1); }
  }

  lemma {:induction false} ChainPrefix(c: Crypto, anchor: string, from: nat, ops: seq<Op>, n: nat)
    requires n <= |ops|
    ensures ChainOver(c, anchor, from, ops[..n]) == ChainOver(c, anchor, from, ops)[..n]
  {
    var part, whole := ChainOver(c, anchor, from, ops[..n]), ChainOver(c, anchor, from, ops);
    forall i | 0 <= i < n ensures part[i] == whole[i] {
      HeadIsLocal(c, anchor, from, ops[..n], ops, i + 1);
    }
  }

  /** Cutting after `n` links leaves the chain of the remaining operations, anchored at the
      cut. */
  lemma {:induction false} ChainSuffix(c: Crypto, anchor: string, from: nat, ops: seq<Op>, n: nat)
    requires n <= |ops|
    ensures ChainOver(c, anchor, from, ops)[n..]
         == ChainOver(c, HeadAt(c, anchor, from, ops, n), from + n, ops[n..])
  {
    var whole := ChainOver(c, anchor, from, ops);
    var rest := ChainOver(c, HeadAt(c, anchor, from, ops, n), from + n, ops[n..]);
    forall i | 0 <= i < |ops| - n ensures whole[n..][i] == rest[i] {
      HeadResumes(c, anchor, from, ops, n, i + 1);
      assert whole[n..][i] == whole[n + i] == HeadAt(c, anchor, from, ops, n + (i + 1));
    }
  }

  /** Link `i` of `chain` recomputes from its recorded predecessor. */
  predicate LinkHolds(c: Crypto, anchor: string, from: nat, ops: seq<Op>, chain: seq<string>, i: nat)
    requires i < |ops| && i < |chain|
  {
    LinkHash(c, if i == 0 then anchor else chain[i - 1], from + i, ops[i]) == chain[i]
  }

  lemma {:induction false} LinkedPrefixIsChain(
    c: Crypto, anchor: string, from: nat, ops: seq<Op>, chain: seq<string>, n: nat)
    requires n < |ops| && n < |chain|
    requires forall i | 0 <= i <= n :: LinkHolds(c, anchor, from, ops, chain, i)
    ensures chain[n] == HeadAt(c, anchor, from, ops, n + 1)
  {
    assert LinkHolds(c, anchor, from, ops, chain, n);
    if n != 0 { LinkedPrefixIsChain(c, anchor, from, ops, chain, n - 1); }
  }

  /** Checking every link against its recorded predecessor is checking the whole chain. */
  lemma {:induction false} LinkwiseIffChain(c: Crypto, anchor: string, from: nat, ops: seq<Op>, chain: seq<string>)
    requires |ops| == |chain|
    ensures (forall i | 0 <= i < |ops| :: LinkHolds(c, anchor, from, ops, chain, i))
       <==> chain == ChainOver(c, anchor, from, ops)
  {
    hide LinkHash;
    var whole := ChainOver(c, anchor, from, ops);
    if forall i | 0 <= i < |ops| :: LinkHolds(c, anchor, from, ops, chain, i) {
      forall i | 0 <= i < |ops| ensures chain[i] == whole[i] {
        LinkedPrefixIsChain(c, anchor, from, ops, chain, i);
      }
    }
    if chain == whole {
      forall i | 0 <= i < |ops| ensures LinkHolds(c, anchor, from, ops, chain, i) {
        assert chain[i] == HeadAt(c, anchor, from, ops, i + 1);
        assert i != 0 ==> chain[i - 1] == HeadAt(c, anchor, from, ops, i);
      }
    }
  }

  // ---------------------------------------------------------------- commitment

  /** The `prev|step|json` framing is unambiguous for any separator-free predecessor. */
  lemma {:induction false} FramingIsInjective(c: Crypto, p: string, m: nat, x: Op, q: string, n: nat, y: Op)
    requires Faithful(c) && '|' !in p && '|' !in q
    requires LinkInput(c, p, m, x) == LinkInput(c, q, n, y)
    ensures p == q && m == n && x == y
  {
    SplitAtBar(p, Decimal(m) + "|" + c.opJson(x), q, Decimal(n) + "|" + c.opJson(y));
    DecimalRoundTrip(m);
    DecimalRoundTrip(n);
    SplitAtBar(Decimal(m), c.opJson(x), Decimal(n), c.opJson(y));
  }

  /** The head of a genesis-rooted history after its first `n` operations. */
  function HistoryHead(c: Crypto, history: seq<Op>, n: nat): string
    requires n <= |history|
  {
    HeadAt(c, GENESIS, 0, history, n)
  }

  /** The preimage hashed at step `i`. */
  function InputAt(c: Crypto, history: seq<Op>, i: nat): string
    requires i < |history|
  {
    LinkInput(c, HistoryHead(c, history, i), i, history[i])
  }

  /** The two histories hash two different preimages to one digest. */
  ghost predicate Clash(c: Crypto, g: seq<Op>, h: seq<Op>) {
    exists i, j | 0 <= i < |g| && 0 <= j < |h| ::
      InputAt(c, g, i) != InputAt(c, h, j) && c.sha(InputAt(c, g, i)) == c.sha(InputAt(c, h, j))
  }

  lemma {:induction false} HeadIsHash(c: Crypto, h: seq<Op>, n: nat)
    requires Faithful(c) && n <= |h|
    ensures '|' !in HistoryHead(c, h, n) && HistoryHead(c, h, n) != ""
    ensures n == 0 ==> HistoryHead(c, h, n) == GENESIS
    ensures n != 0 ==> |HistoryHead(c, h, n)| == 64 && HistoryHead(c, h, n) == c.sha(InputAt(c, h, n - 1))
  {
  }

  lemma {:induction false} HeadIsDigest(c: Crypto, anchor: string, from: nat, ops: seq<Op>, n: nat)
    requires Faithful(c) && 0 < n <= |ops|
    ensures HeadAt(c, anchor, from, ops, n) != ""
  {
    assert |HeadAt(c, anchor, from, ops, n)| == 64;
  }

  /** **A head commits to everything before it**: equal heads mean the same number of the
      same operations, unless the two histories exhibit a SHA-256 collision. */
  lemma {:induction false} HeadCommits(c: Crypto, g: seq<Op>, m: nat, h: seq<Op>, n: nat)
    requires Faithful(c) && m <= |g| && n <= |h|
    requires HistoryHead(c, g, m) == HistoryHead(c, h, n)
    ensures g[..m] == h[..n] || Clash(c, g, h)
  {
    hide HeadAt, LinkInput, Faithful;
    HeadIsHash(c, g, m);
    HeadIsHash(c, h, n);
    if m != 0 && n != 0 && InputAt(c, g, m - 1) == InputAt(c, h, n - 1) {
      HeadIsHash(c, g, m - 1);
      HeadIsHash(c, h, n - 1);
      FramingIsInjective(
        c, HistoryHead(c, g, m - 1), m - 1, g[m - 1], HistoryHead(c, h, n - 1), n - 1, h[n - 1]);
      HeadCommits(c, g, m - 1, h, n - 1);
      assert g[..m] == g[..m - 1] + [g[m - 1]] && h[..n] == h[..n - 1] + [h[n - 1]];
    }
  }

  // ---------------------------------------------------------------- verification

  function Commitment(c: Crypto, baseline: Option<Memory.Memory>): string {
    match baseline
    case None => ""
    case Some(m) => c.sha(c.memoryJson(m))
  }

  datatype Fault =
    | BaselineMismatch
    | LinkCount(links: nat, ops: nat)
    | BrokenLink(step: nat)

  datatype Integrity = Integrity(valid: bool, verified: nat, errors: seq<Fault>)

  /** A sidecar written before the chain existed. */
  predicate Legacy(anchor: string, chain: seq<string>, baselineHash: string) {
    chain == [] && anchor == "" && baselineHash == ""
  }

  /** The broken ones among the first `n` links, by the step they claim. */
  function BrokenLinks(c: Crypto, anchor: string, from: nat, ops: seq<Op>, chain: seq<string>, n: nat): seq<Fault>
    requires n <= |ops| && n <= |chain|
  {
    if n == 0 then []
    else BrokenLinks(c, anchor, from, ops, chain, n - 1)
         + (if LinkHolds(c, anchor, from, ops, chain, n - 1) then [] else [BrokenLink(from + n)])
  }

  function Audit(c: Crypto, anchor: string, folded: nat, ops: seq<Op>, chain: seq<string>,
                 baseline: Option<Memory.Memory>, baselineHash: string): Integrity {
    if Legacy(anchor, chain, baselineHash) then Integrity(true, 0, [])
    else
      var n := if |ops| < |chain| then |ops| else |chain|;
      var broken := BrokenLinks(c, anchor, folded, ops, chain, n);
      var errors :=
        (if Commitment(c, baseline) != baselineHash then [BaselineMismatch] else [])
        + (if |chain| != |ops| then [LinkCount(|chain|, |ops|)] else [])
        + broken;
      AtMostNBroken(c, anchor, folded, ops, chain, n);
      Integrity(errors == [], n - |broken|, errors)
  }

  lemma {:induction false} AtMostNBroken(c: Crypto, anchor: string, from: nat, ops: seq<Op>, chain: seq<string>, n: nat)
    requires n <= |ops| && n <= |chain|
    ensures |BrokenLinks(c, anchor, from, ops, chain, n)| <= n
  {
    hide LinkHolds;
    if n > 0 { AtMostNBroken(c, anchor, from, ops, chain, n - 1); }
  }

  /** A broken link is listed exactly when it does not recompute. */
  lemma {:induction false} BrokenLinksAreNamed(
    c: Crypto, anchor: string, from: nat, ops: seq<Op>, chain: seq<string>, n: nat, i: nat)
    requires n <= |ops| && n <= |chain|
    ensures BrokenLink(i) in BrokenLinks(c, anchor, from, ops, chain, n)
       <==> from < i <= from + n && !LinkHolds(c, anchor, from, ops, chain, i - 1 - from)
  {
    if n != 0 { BrokenLinksAreNamed(c, anchor, from, ops, chain, n - 1, i); }
  }

  lemma {:induction false} NoneBrokenIff(
    c: Crypto, anchor: string, from: nat, ops: seq<Op>, chain: seq<string>, n: nat)
    requires n <= |ops| && n <= |chain|
    ensures BrokenLinks(c, anchor, from, ops, chain, n) == [] <==>
      forall i | 0 <= i < n :: LinkHolds(c, anchor, from, ops, chain, i)
  {
    if n != 0 { NoneBrokenIff(c, anchor, from, ops, chain, n - 1); }
  }

  /** A chained timeline is accepted exactly when its baseline matches its commitment and
      its chain is the one its operations produce. */
  lemma {:induction false} AuditAcceptsIff(c: Crypto, anchor: string, folded: nat, ops: seq<Op>, chain: seq<string>,
                        baseline: Option<Memory.Memory>, baselineHash: string)
    requires !Legacy(anchor, chain, baselineHash)
    ensures Audit(c, anchor, folded, ops, chain, baseline, baselineHash).valid
       <==> Commitment(c, baseline) == baselineHash && chain == ChainOver(c, anchor, folded, ops)
  {
    if |ops| == |chain| {
      NoneBrokenIff(c, anchor, folded, ops, chain, |ops|);
      LinkwiseIffChain(c, anchor, folded, ops, chain);
    }
  }

  /** The link loop of `verify_timeline_parts`. */
  method ScanLinks(c: Crypto, anchor: string, from: nat, ops: seq<Op>, chain: seq<string>, n: nat)
    returns (verified: nat, errors: seq<Fault>)
    requires n <= |ops| && n <= |chain|
    ensures errors == BrokenLinks(c, anchor, from, ops, chain, n)
    ensures verified == n - |errors|
  {
    hide LinkHash;
    errors, verified := [], 0;
    var prev := anchor;
    for i := 0 to n
      invariant prev == if i == 0 then anchor else chain[i - 1]
      invariant errors == BrokenLinks(c, anchor, from, ops, chain, i)
      invariant verified == i - |errors|
    {
      if LinkHash(c, prev, from + i, ops[i]) == chain[i] {
        verified := verified + 1;
      } else {
        errors := errors + [BrokenLink(from + i + 1)];
      }
      prev := chain[i];
    }
  }

  /** `verify_timeline_parts`. */
  method VerifyTimeline(c: Crypto, anchor: string, folded: nat, ops: seq<Op>, chain: seq<string>,
                        baseline: Option<Memory.Memory>, baselineHash: string) returns (r: Integrity)
    ensures r == Audit(c, anchor, folded, ops, chain, baseline, baselineHash)
  {
    hide BrokenLinks, Commitment;
    if chain == [] && anchor == "" && baselineHash == "" {
      return Integrity(true, 0, []);
    }
    var errors: seq<Fault> := [];
    if Commitment(c, baseline) != baselineHash { errors := errors + [BaselineMismatch]; }
    if |chain| != |ops| { errors := errors + [LinkCount(|chain|, |ops|)]; }
    var n := if |ops| < |chain| then |ops| else |chain|;
    var verified, broken := ScanLinks(c, anchor, folded, ops, chain, n);
    errors := errors + broken;
    r := Integrity(errors == [], verified, errors);
  }

  // ---------------------------------------------------------------- what a report says

  /** The preimage of a link, as it is written: predecessor, absolute step in decimal, JSON. */
  lemma {:induction false} FramingFormat(c: Crypto, prev: string, op: Op)
    ensures LinkInput(c, prev, 0, op) == prev + "|0|" + c.opJson(op)
    ensures LinkInput(c, prev, 12, op) == prev + "|12|" + c.opJson(op)
    ensures LinkHash(c, prev, 12, op) == c.sha(prev + "|12|" + c.opJson(op))
  {
    assert Decimal(0) == "0" && Decimal(1) == "1";
    assert Decimal(12) == Decimal(1) + "2" == "12";
    assert prev + "|" + ("0" + "|" + c.opJson(op)) == prev + "|0|" + c.opJson(op);
    assert prev + "|" + ("12" + "|" + c.opJson(op)) == prev + "|12|" + c.opJson(op);
  }

  /** A commitment binds the baseline: absent and present ones never share it, and two present
      ones share it only with equal snapshots or by a SHA-256 collision between the two. */
  lemma {:induction false} CommitmentBinds(c: Crypto, a: Option<Memory.Memory>, b: Option<Memory.Memory>)
    requires Faithful(c) && Commitment(c, a) == Commitment(c, b)
    ensures a.None? <==> b.None?
    ensures a.Some? && b.Some? && c.memoryJson(a.value) != c.memoryJson(b.value) ==>
      c.sha(c.memoryJson(a.value)) == c.sha(c.memoryJson(b.value))
    ensures a.None? ==> Commitment(c, a) == ""
    ensures a.Some? ==> |Commitment(c, a)| == 64
  {
    if a.Some? { assert |c.sha(c.memoryJson(a.value))| == 64; }
    if b.Some? { assert |c.sha(c.memoryJson(b.value))| == 64; }
  }

  lemma {:induction false} OnlyBrokenLinks(
    c: Crypto, anchor: string, from: nat, ops: seq<Op>, chain: seq<string>, n: nat)
    requires n <= |ops| && n <= |chain|
    ensures forall f | f in BrokenLinks(c, anchor, from, ops, chain, n) :: f.BrokenLink?
  {
    hide LinkHolds;
    if n > 0 { OnlyBrokenLinks(c, anchor, from, ops, chain, n - 1); }
  }

  /** **What an audit reports**, fault by fault: a baseline that does not match, the numbers of
      links and operations when they differ, every step whose link does not recompute, and
      nothing else; the verified count is the number of compared links without a fault. */
  lemma {:induction false} AuditReports(c: Crypto, anchor: string, folded: nat, ops: seq<Op>, chain: seq<string>,
                                        baseline: Option<Memory.Memory>, baselineHash: string, f: Fault)
    requires !(chain == [] && anchor == "" && baselineHash == "")
    ensures var r := Audit(c, anchor, folded, ops, chain, baseline, baselineHash);
      var n := if |ops| < |chain| then |ops| else |chain|;
      && (f in r.errors <==>
            match f
            case BaselineMismatch => Commitment(c, baseline) != baselineHash
            case LinkCount(links, count) => links == |chain| && count == |ops| && links != count
            case BrokenLink(step) => folded < step <= folded + n && !LinkHolds(c, anchor, folded, ops, chain, step - 1 - folded))
      && (r.valid <==> r.errors == [])
      && r.verified == n - |BrokenLinks(c, anchor, folded, ops, chain, n)|
  {
    hide LinkHolds, Commitment;
    var n := if |ops| < |chain| then |ops| else |chain|;
    OnlyBrokenLinks(c, anchor, folded, ops, chain, n);
    if f.BrokenLink? { BrokenLinksAreNamed(c, anchor, folded, ops, chain, n, f.step); }
  }
}
