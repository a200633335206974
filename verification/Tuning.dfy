/** Learning recall weights from the replayable log: counterfactual reward, coordinate
    ascent, and adoption as a recorded operation (core/src/agent_session.rs:1483-1649). */
module Tuning {
  import opened Ops
  import opened Memory
  import opened Replay
  import opened Session

  /** What the tuner reads but does not define: the paths a recall window would hold, float
      multiplication by each grid factor, and the absolute centrality candidates. */
  datatype Tuner = Tuner(
    window: (Memory, Recall, nat) -> set<Path>,
    scale: (Bits, nat) -> Bits,
    centrality: nat -> Bits)

  const DIMENSIONS := 4
  const FACTORS := 6
  const CENTRALITIES := 5

  /** The source path a node refers to. */
  function EngagedPath(id: NodeId): Path {
    if id.OtherNode? then id.name else id.path
  }

  // ---------------------------------------------------------------- reward

  /** The evaluation loop's variables: the replayed memory, the last window not yet judged,
      and the tally. */
  datatype Tally = Tally(replay: Deferred, pending: Option<set<Path>>, hits: nat, total: nat)

  function Judged(t: Tally, engaged: set<Path>, after: Memory): Tally {
    match t.pending
    case None => Tally(Deferred(after, false), None, t.hits, t.total)
    case Some(win) =>
      Tally(Deferred(after, false), None, if win * engaged != {} then t.hits + 1 else t.hits, t.total + 1)
  }

  function RewardStep(k: Kernel, u: Tuner, t: Tally, op: Op): Tally {
    match op
    case Ingest(_, _) => t.(replay := ApplyOp(k, t.replay, op))
    case Recalled(recall, budget) =>
      var next := ApplyOp(k, t.replay, op);
      t.(replay := next, pending := Some(u.window(next.memory, recall, budget)))
    case Failure(node, depth) =>
      var m := Settle(k, t.replay);
      Judged(t, {EngagedPath(node)}, Applied(k, m, op))
    case PageFault(files, depth) =>
      var m := Settle(k, t.replay);
      Judged(t, (set f | f in files), Paged(k, m, op, SignalAll(k, m, files, depth)))
    case Retune(_) => t
    case Assert(_, _, _, _) => t.(replay := ApplyOp(k, t.replay, op))
  }

  function Evaluate(k: Kernel, u: Tuner, m: Memory, weights: Weights, ops: seq<Op>): Tally {
    if ops == [] then Tally(Deferred(SetWeights(m, weights), false), None, 0, 0)
    else RewardStep(k, u, Evaluate(k, u, m, weights, ops[..|ops| - 1]), ops[|ops| - 1])
  }

  /** Hits and judged pairs; no reward when nothing was judged. */
  datatype Reward = Nothing | Rate(hits: nat, total: nat)

  function RewardOf(t: Tally): Reward {
    if t.total > 0 then Rate(t.hits, t.total) else Nothing
  }

  function Score(w: World, u: Tuner, s: Session, weights: Weights): (r: Reward)
    ensures r.Rate? ==> r.total > 0
  {
    RewardOf(Evaluate(w.kernel, u, Start(w, s), weights, s.ops))
  }

  function Hits(w: World, u: Tuner, s: Session, weights: Weights): nat {
    Evaluate(w.kernel, u, Start(w, s), weights, s.ops).hits
  }

  /** `retrieval_reward`. */
  method RetrievalReward(w: World, u: Tuner, s: Session, weights: Weights) returns (r: Reward)
    ensures r == Score(w, u, s, weights)
  {
    var t := Tally(Deferred(SetWeights(Start(w, s), weights), false), None, 0, 0);
    for i := 0 to |s.ops|
      invariant t == Evaluate(w.kernel, u, Start(w, s), weights, s.ops[..i])
    {
      assert s.ops[..i + 1][..i] == s.ops[..i];
      t := RewardStep(w.kernel, u, t, s.ops[i]);
    }
    assert s.ops[..|s.ops|] == s.ops;
    r := RewardOf(t);
  }

  /** `a > b` on optional hit rates: an absent one is least. */
  predicate Better(a: Reward, b: Reward)
    requires a.Rate? ==> a.total > 0
    requires b.Rate? ==> b.total > 0
  {
    a.Rate? && (b.Nothing? || a.hits as real / a.total as real > b.hits as real / b.total as real)
  }

  /** How many recall-to-engagement pairs a log judges: a question of its shape only. */
  function Pairs(ops: seq<Op>): (bool, nat) {
    if ops == [] then (false, 0)
    else
      var (waiting, n) := Pairs(ops[..|ops| - 1]);
      var last := ops[|ops| - 1];
      if last.Recalled? then (true, n)
      else if last.Failure? || last.PageFault? then (false, if waiting then n + 1 else n)
      else (waiting, n)
  }

  /** **What a hit is.** A recall followed by an engagement is one more judged pair, and a hit
      exactly when the recalled window holds a file engaged: the failing node's file, or one of
      the faulting files. The window is what the replayed memory recalls there. */
  lemma {:induction false} PairIsHitIff(k: Kernel, u: Tuner, m: Memory, weights: Weights, ops: seq<Op>,
                                        recall: Recall, budget: nat, node: NodeId, files: seq<Path>, depth: nat)
    ensures var t := Evaluate(k, u, m, weights, ops);
      var win := u.window(ApplyOp(k, t.replay, Recalled(recall, budget)).memory, recall, budget);
      var file := if node.OtherNode? then node.name else node.path;
      var failed := Evaluate(k, u, m, weights, ops + [Recalled(recall, budget)] + [Failure(node, depth)]);
      var faulted := Evaluate(k, u, m, weights, ops + [Recalled(recall, budget)] + [PageFault(files, depth)]);
      && failed.total == faulted.total == t.total + 1
      && failed.hits == t.hits + (if file in win then 1 else 0)
      && faulted.hits == t.hits + (if exists f :: f in files && f in win then 1 else 0)
  {
    hide ApplyOp, Applied, Paged, Settle, Evaluate;
    var t := Evaluate(k, u, m, weights, ops);
    EvaluateNext(k, u, m, weights, ops, Recalled(recall, budget));
    EvaluateNext(k, u, m, weights, ops + [Recalled(recall, budget)], Failure(node, depth));
    EvaluateNext(k, u, m, weights, ops + [Recalled(recall, budget)], PageFault(files, depth));
    var win := u.window(ApplyOp(k, t.replay, Recalled(recall, budget)).memory, recall, budget);
    MeetsIff(win, EngagedPath(node), files);
  }

  /** **The reward replays the log under the candidate weights**: without page faults and
      retunes its memory is that of the ordinary replay of the baseline with those weights. */
  lemma {:induction false} RewardReplays(k: Kernel, u: Tuner, m: Memory, weights: Weights, ops: seq<Op>)
    requires forall i | 0 <= i < |ops| :: !ops[i].PageFault? && !ops[i].Retune?
    ensures Evaluate(k, u, m, weights, ops).replay
         == ApplyAll(k, Deferred(m.(attrs := m.attrs.(weights := weights)), false), ops)
  {
    hide Applied, Relinked;
    if ops != [] { RewardReplays(k, u, m, weights, ops[..|ops| - 1]); }
  }

  /** An engagement with nothing recalled since the last one is not judged. */
  lemma {:induction false} UnpairedIsIgnored(k: Kernel, u: Tuner, m: Memory, weights: Weights, ops: seq<Op>, op: Op)
    requires (op.Failure? || op.PageFault?) && Evaluate(k, u, m, weights, ops).pending.None?
    ensures var t, n := Evaluate(k, u, m, weights, ops), Evaluate(k, u, m, weights, ops + [op]);
      n.hits == t.hits && n.total == t.total && n.pending.None?
  {
    hide Evaluate, Applied, Paged, Settle;
    EvaluateNext(k, u, m, weights, ops, op);
  }

  lemma {:induction false} MeetsIff(win: set<Path>, file: Path, files: seq<Path>)
    ensures win * {file} != {} <==> file in win
    ensures win * (set f | f in files) != {} <==> exists f :: f in files && f in win
  {
    assert file in win ==> file in win * {file};
    if f :| f in files && f in win { assert f in win * (set f | f in files); }
  }

  /** The number of judged pairs depends on neither the weights nor the memory, and hits
      never exceed it. */
  lemma {:induction false} TallyCounts(k: Kernel, u: Tuner, m: Memory, weights: Weights, ops: seq<Op>)
    ensures var t := Evaluate(k, u, m, weights, ops);
      t.total == Pairs(ops).1 && t.pending.Some? == Pairs(ops).0 && t.hits <= t.total
  {
    hide ApplyOp, Settle, Applied, Paged;
    if ops != [] { TallyCounts(k, u, m, weights, ops[..|ops| - 1]); }
  }

  /** The log with every retune deleted. */
  function WithoutRetunes(ops: seq<Op>): seq<Op> {
    if ops == [] then []
    else
      var init := WithoutRetunes(ops[..|ops| - 1]);
      if ops[|ops| - 1].Retune? then init else init + [ops[|ops| - 1]]
  }

  /** Recorded retunes, wherever they stand, change nothing the reward is computed from. */
  lemma {:induction false} RetunesAreIgnored(k: Kernel, u: Tuner, m: Memory, weights: Weights, ops: seq<Op>)
    ensures Evaluate(k, u, m, weights, WithoutRetunes(ops)) == Evaluate(k, u, m, weights, ops)
    ensures Pairs(WithoutRetunes(ops)) == Pairs(ops)
  {
    hide Evaluate, Pairs;
    if ops != [] {
      var init, last := ops[..|ops| - 1], ops[|ops| - 1];
      assert ops == init + [last];
      RetunesAreIgnored(k, u, m, weights, init);
      EvaluateNext(k, u, m, weights, init, last);
      EvaluateNext(k, u, m, weights, WithoutRetunes(init), last);
      PairsNext(init, WithoutRetunes(init), last);
    }
  }

  lemma {:induction false} EvaluateNext(k: Kernel, u: Tuner, m: Memory, weights: Weights, ops: seq<Op>, op: Op)
    ensures Evaluate(k, u, m, weights, ops + [op]) == RewardStep(k, u, Evaluate(k, u, m, weights, ops), op)
    ensures op.Retune? ==> Evaluate(k, u, m, weights, ops + [op]) == Evaluate(k, u, m, weights, ops)
  {
    hide RewardStep;
    assert (ops + [op])[..|ops|] == ops;
    if op.Retune? { RetuneStep(k, u, Evaluate(k, u, m, weights, ops), op); }
  }

  lemma {:induction false} PairsNext(a: seq<Op>, b: seq<Op>, op: Op)
    requires Pairs(a) == Pairs(b)
    ensures Pairs(a + [op]) == Pairs(b + [op]) && (op.Retune? ==> Pairs(a + [op]) == Pairs(a))
  {
    assert (a + [op])[..|a|] == a && (b + [op])[..|b|] == b;
  }

  lemma {:induction false} RetuneStep(k: Kernel, u: Tuner, t: Tally, op: Op)
    requires op.Retune?
    ensures RewardStep(k, u, t, op) == t
  {
  }

  /** So recording one more changes nothing either. */
  lemma {:induction false} RetuneIsIgnored(k: Kernel, u: Tuner, m: Memory, weights: Weights, ops: seq<Op>, retuned: Weights)
    ensures Evaluate(k, u, m, weights, ops + [Retune(retuned)]) == Evaluate(k, u, m, weights, ops)
    ensures Pairs(ops + [Retune(retuned)]) == Pairs(ops)
  {
    hide Evaluate, Pairs;
    assert (ops + [Retune(retuned)])[..|ops|] == ops;
    RetunesAreIgnored(k, u, m, weights, ops + [Retune(retuned)]);
    RetunesAreIgnored(k, u, m, weights, ops);
  }

  // ---------------------------------------------------------------- ascent

  datatype Move = Scale(dim: nat, factor: nat) | Centrality(index: nat)

  function Moved(u: Tuner, x: Weights, move: Move): Weights {
    match move
    case Scale(dim, f) =>
      if dim == 0 then x.(base := u.scale(x.base, f))
      else if dim == 1 then x.(failure := u.scale(x.failure, f))
      else if dim == 2 then x.(recency := u.scale(x.recency, f))
      else x.(access := u.scale(x.access, f))
    case Centrality(i) => x.(centrality := u.centrality(i))
  }

  /** One dimension's factors, in grid order. */
  function Factors(dim: nat): seq<Move> {
    seq(FACTORS, f requires 0 <= f => Scale(dim, f))
  }

  function Grid(dims: nat): seq<Move> {
    if dims == 0 then [] else Grid(dims - 1) + Factors(dims - 1)
  }

  function Centralities(): seq<Move> {
    seq(CENTRALITIES, i requires 0 <= i => Centrality(i))
  }

  function Pass(): seq<Move> {
    Grid(DIMENSIONS) + Centralities()
  }

  function Climb(w: World, u: Tuner, s: Session, best: Weights, move: Move): Weights {
    var candidate := Moved(u, best, move);
    if Better(Score(w, u, s, candidate), Score(w, u, s, best)) then candidate else best
  }

  function Ascend(w: World, u: Tuner, s: Session, from: Weights, moves: seq<Move>): Weights {
    if moves == [] then from
    else Climb(w, u, s, Ascend(w, u, s, from, moves[..|moves| - 1]), moves[|moves| - 1])
  }

  /** `tune_recall_weights`: from the current weights, keep strict improvements only. */
  function Tuned(w: World, u: Tuner, s: Session): Weights {
    var current := s.live.attrs.weights;
    if Score(w, u, s, current).Nothing? then current else Ascend(w, u, s, current, Pass() + Pass())
  }

  /** The candidates of one pass: four weights by six factors each, then five centralities;
      each candidate changes one weight and leaves the others. */
  lemma {:induction false} PassTries(u: Tuner, x: Weights, f: nat, i: nat)
    requires f < 6 && i < 5
    ensures |Pass()| == 29
    ensures Moved(u, x, Pass()[f]) == x.(base := u.scale(x.base, f))
    ensures Moved(u, x, Pass()[6 + f]) == x.(failure := u.scale(x.failure, f))
    ensures Moved(u, x, Pass()[12 + f]) == x.(recency := u.scale(x.recency, f))
    ensures Moved(u, x, Pass()[18 + f]) == x.(access := u.scale(x.access, f))
    ensures Moved(u, x, Pass()[24 + i]) == x.(centrality := u.centrality(i))
  {
    var none, one, two, three, four := Grid(0), Grid(1), Grid(2), Grid(3), Grid(4);
    assert none == [] && one == none + Factors(0) && two == one + Factors(1) && three == two + Factors(2) && four == three + Factors(3);
    assert |one| == 6 && |two| == 12 && |three| == 18 && |four| == 24;
  }

  /** Weights that cannot be judged are left as they are. */
  lemma {:induction false} NothingToLearn(w: World, u: Tuner, s: Session)
    requires Score(w, u, s, s.live.attrs.weights) == Nothing
    ensures Tuned(w, u, s) == s.live.attrs.weights && Pairs(s.ops).1 == 0
  {
    hide Evaluate;
    TallyCounts(w.kernel, u, Start(w, s), s.live.attrs.weights, s.ops);
  }

  /** An adoption records exactly one operation, the retune to the weights it leaves live; a
      refused one changes nothing. */
  lemma {:induction false} AdoptionIsRecorded(w: World, u: Tuner, s: Session)
    ensures var (adopted, t) := Adopt(w, u, s);
      && (!adopted ==> t == s)
      && (adopted ==> t.ops == s.ops + [Retune(t.live.attrs.weights)] && t.live.attrs.weights == Tuned(w, u, s)
                      && t.live == s.live.(attrs := s.live.attrs.(weights := t.live.attrs.weights)))
  {
    hide Score, Tuned, Better;
  }

  /** With one denominator a better rate is simply more hits. */
  lemma {:induction false} BetterMeansMoreHits(w: World, u: Tuner, s: Session, x: Weights, y: Weights)
    ensures Better(Score(w, u, s, x), Score(w, u, s, y)) <==> Hits(w, u, s, x) > Hits(w, u, s, y)
  {
    hide Evaluate, Pairs;
    TallyCounts(w.kernel, u, Start(w, s), x, s.ops);
    TallyCounts(w.kernel, u, Start(w, s), y, s.ops);
    var total := Pairs(s.ops).1;
    if total > 0 { DivideBySame(Hits(w, u, s, x) as real, Hits(w, u, s, y) as real, total as real); }
  }

  lemma {:induction false} DivideBySame(a: real, b: real, n: real)
    requires n > 0.0
    ensures a / n > b / n <==> a > b
  {
    assert a / n * n == a && b / n * n == b;
  }

  /** Hits never fall along the ascent, and only a strict gain changes the weights. */
  lemma {:induction false} AscentNeverFalls(w: World, u: Tuner, s: Session, from: Weights, moves: seq<Move>, i: nat)
    requires i <= |moves|
    ensures var early, late := Ascend(w, u, s, from, moves[..i]), Ascend(w, u, s, from, moves);
      late == early || Hits(w, u, s, late) > Hits(w, u, s, early)
  {
    hide Score, Moved, Hits;
    if i == |moves| {
      assert moves[..i] == moves;
    } else {
      var init := moves[..|moves| - 1];
      AscentNeverFalls(w, u, s, from, init, i);
      assert init[..i] == moves[..i];
      var best := Ascend(w, u, s, from, init);
      BetterMeansMoreHits(w, u, s, Moved(u, best, moves[|moves| - 1]), best);
    }
  }

  /** The tuned weights score at least as well as every candidate tried on the way, and
      differ from the current ones only if they score strictly better. */
  lemma {:induction false} TunedIsBestTried(w: World, u: Tuner, s: Session, i: nat)
    requires i < |Pass() + Pass()| && Score(w, u, s, s.live.attrs.weights).Rate?
    ensures var current, moves := s.live.attrs.weights, Pass() + Pass();
      var tuned := Tuned(w, u, s);
      && Hits(w, u, s, tuned) >= Hits(w, u, s, Moved(u, Ascend(w, u, s, current, moves[..i]), moves[i]))
      && (tuned == current || Hits(w, u, s, tuned) > Hits(w, u, s, current))
  {
    hide Score, Moved, Hits, Pass;
    var current, moves := s.live.attrs.weights, Pass() + Pass();
    AscentNeverFalls(w, u, s, current, moves, 0);
    assert moves[..0] == [];
    AscentNeverFalls(w, u, s, current, moves, i + 1);
    assert moves[..i + 1][..i] == moves[..i];
    var best := Ascend(w, u, s, current, moves[..i]);
    BetterMeansMoreHits(w, u, s, Moved(u, best, moves[i]), best);
  }

  // ---------------------------------------------------------------- adoption

  /** `adopt_tuned_recall_weights`. */
  function Adopt(w: World, u: Tuner, s: Session): (bool, Session) {
    var tuned := Tuned(w, u, s);
    if Better(Score(w, u, s, tuned), Score(w, u, s, s.live.attrs.weights))
    then (true, Perform(w, s, Retune(tuned)))
    else (false, s)
  }

  function HitsNow(w: World, u: Tuner, s: Session): nat {
    Hits(w, u, s, s.live.attrs.weights)
  }

  /** A successful adoption strictly raises the session's own hits and leaves the number of
      judged pairs alone. */
  lemma {:induction false} AdoptionGains(w: World, u: Tuner, s: Session)
    requires Adopt(w, u, s).0
    ensures var t := Adopt(w, u, s).1;
      HitsNow(w, u, t) > HitsNow(w, u, s) && Pairs(t.ops) == Pairs(s.ops)
  {
    hide Evaluate, Tuned, Pairs;
    var tuned := Tuned(w, u, s);
    BetterMeansMoreHits(w, u, s, tuned, s.live.attrs.weights);
    RetuneIsIgnored(w.kernel, u, Start(w, s), tuned, s.ops, tuned);
  }

  lemma {:induction false} HitsBounded(w: World, u: Tuner, s: Session)
    ensures HitsNow(w, u, s) <= Pairs(s.ops).1
  {
    hide Evaluate;
    TallyCounts(w.kernel, u, Start(w, s), s.live.attrs.weights, s.ops);
  }

  /** The session after `n` adoptions in a row, if each of them succeeds. */
  function AdoptTimes(w: World, u: Tuner, s: Session, n: nat): Option<Session> {
    if n == 0 then Some(s)
    else
      var before := AdoptTimes(w, u, s, n - 1);
      if before.Some? && Adopt(w, u, before.value).0 then Some(Adopt(w, u, before.value).1) else None
  }

  lemma {:induction false} AdoptionsGain(w: World, u: Tuner, s: Session, n: nat)
    requires AdoptTimes(w, u, s, n).Some?
    ensures var t := AdoptTimes(w, u, s, n).value;
      HitsNow(w, u, t) >= HitsNow(w, u, s) + n && Pairs(t.ops) == Pairs(s.ops)
  {
    hide HitsNow, Pairs, Adopt;
    if n != 0 {
      AdoptionsGain(w, u, s, n - 1);
      AdoptionGains(w, u, AdoptTimes(w, u, s, n - 1).value);
    }
  }

  /** **Tuning makes bounded progress**: with nothing else recorded in between, at most as
      many adoptions in a row succeed as the log has judged pairs. */
  lemma {:induction false} AdoptionsAreBounded(w: World, u: Tuner, s: Session, n: nat)
    requires AdoptTimes(w, u, s, n).Some?
    ensures n <= Pairs(s.ops).1
  {
    hide HitsNow, Pairs, Adopt;
    AdoptionsGain(w, u, s, n);
    HitsBounded(w, u, AdoptTimes(w, u, s, n).value);
  }

  lemma {:induction false} AscendAppend(w: World, u: Tuner, s: Session, from: Weights, xs: seq<Move>, ys: seq<Move>)
    ensures Ascend(w, u, s, from, xs + ys) == Ascend(w, u, s, Ascend(w, u, s, from, xs), ys)
  {
    hide Climb;
    if ys == [] {
      assert xs + ys == xs;
    } else {
      AscendAppend(w, u, s, from, xs, ys[..|ys| - 1]);
      assert (xs + ys)[..|xs + ys| - 1] == xs + ys[..|ys| - 1];
    }
  }

  /** One run of candidates, keeping each strict improvement. */
  method TryAll(w: World, u: Tuner, s: Session, from: Weights, fromReward: Reward, moves: seq<Move>)
    returns (best: Weights, reward: Reward)
    requires fromReward == Score(w, u, s, from)
    ensures best == Ascend(w, u, s, from, moves) && reward == Score(w, u, s, best)
  {
    hide Moved, Better;
    best, reward := from, fromReward;
    for i := 0 to |moves|
      invariant best == Ascend(w, u, s, from, moves[..i]) && reward == Score(w, u, s, best)
    {
      assert moves[..i + 1][..i] == moves[..i];
      var candidate := Moved(u, best, moves[i]);
      var tried := RetrievalReward(w, u, s, candidate);
      if Better(tried, reward) { best, reward := candidate, tried; }
    }
    assert moves[..|moves|] == moves;
  }

  /** One pass: every factor of every dimension, then the centralities. */
  method TunePass(w: World, u: Tuner, s: Session, from: Weights, fromReward: Reward)
    returns (best: Weights, reward: Reward)
    requires fromReward == Score(w, u, s, from)
    ensures best == Ascend(w, u, s, from, Pass()) && reward == Score(w, u, s, best)
  {
    hide Score, Climb, Factors, Centralities;
    best, reward := from, fromReward;
    for dim := 0 to DIMENSIONS
      invariant reward == Score(w, u, s, best) && best == Ascend(w, u, s, from, Grid(dim))
    {
      AscendAppend(w, u, s, from, Grid(dim), Factors(dim));
      best, reward := TryAll(w, u, s, best, reward, Factors(dim));
    }
    AscendAppend(w, u, s, from, Grid(DIMENSIONS), Centralities());
    best, reward := TryAll(w, u, s, best, reward, Centralities());
  }

  /** `tune_recall_weights`. */
  method TuneRecallWeights(w: World, u: Tuner, s: Session) returns (best: Weights)
    ensures best == Tuned(w, u, s)
  {
    hide Score, Ascend, Pass;
    best := s.live.attrs.weights;
    var reward := RetrievalReward(w, u, s, best);
    if reward.Nothing? { return; }
    ghost var current := best;
    AscendAppend(w, u, s, current, Pass(), Pass());
    for pass := 0 to 2
      invariant reward == Score(w, u, s, best)
      invariant pass == 0 ==> best == current
      invariant pass == 1 ==> best == Ascend(w, u, s, current, Pass())
      invariant pass == 2 ==> best == Ascend(w, u, s, Ascend(w, u, s, current, Pass()), Pass())
    {
      best, reward := TunePass(w, u, s, best, reward);
    }
  }
}
