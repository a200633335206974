/** The shared view and its convergence: any number of agents, any interleaving of local
    operations, exports and (late, repeated, reordered) deliveries
    (core/src/agent_session.rs:857-1126). */
module Federation {
  import opened Ops
  import opened Text
  import opened Memory
  import opened Replay
  import opened Chain
  import opened Session
  import opened Sync

  // ---------------------------------------------------------------- the merged view

  function OwnId(s: Session): string {
    if s.agent == "" then "local" else s.agent
  }

  /** The stream filed under `id`: a foreign log shadows an own one of the same name. */
  function StreamOf(s: Session, id: string): seq<Op> {
    if id in s.foreign then s.foreign[id].ops else if id == OwnId(s) then s.ops else []
  }

  /** The stream of a known id is a foreign log, or else the session's own. */
  lemma {:induction false} StreamKnown(s: Session, id: string)
    requires id in s.foreign || id == OwnId(s)
    ensures StreamOf(s, id) == if id in s.foreign then s.foreign[id].ops else s.ops
  {
  }

  function StreamIds(s: Session): set<string> {
    s.foreign.Keys + {OwnId(s)}
  }

  /** The streams of `ids`, concatenated in increasing order of id. */
  function InOrder(s: Session, ids: set<string>): seq<Op>
    decreases |ids|
  {
    if ids == {} then []
    else var id := Least(ids); StreamOf(s, id) + InOrder(s, ids - {id})
  }

  /** `merged_view`: replay every known stream from empty, in canonical order, with one
      trailing resolve. */
  function MergedView(w: World, s: Session): Memory {
    Replayed(w.kernel, New(w.kernel), InOrder(s, StreamIds(s)))
  }

  /** An id whose stream is empty can be added or dropped. */
  lemma {:induction false} EmptyStreamIsInvisible(s: Session, ids: set<string>, id: string)
    requires StreamOf(s, id) == [] && id !in ids
    ensures InOrder(s, ids + {id}) == InOrder(s, ids)
    decreases |ids|
  {
    hide StreamOf, LexLeq;
    var all := ids + {id};
    var first := Least(all);
    if first == id {
      assert all - {id} == ids;
    } else {
      LeastIsUnique(ids);
      assert IsLeast(ids, first);
      assert Least(ids) == first;
      EmptyStreamIsInvisible(s, ids - {first}, id);
      assert all - {first} == ids - {first} + {id};
    }
  }

  lemma {:induction false} InOrderStep(s: Session, ids: set<string>)
    ensures ids == {} ==> InOrder(s, ids) == []
    ensures ids != {} ==> InOrder(s, ids) == StreamOf(s, Least(ids)) + InOrder(s, ids - {Least(ids)})
  {
  }

  lemma {:induction false} EmptyStreamsAreInvisible(s: Session, ids: set<string>, more: set<string>)
    requires forall id | id in more :: id in ids || StreamOf(s, id) == []
    ensures InOrder(s, ids + more) == InOrder(s, ids)
    decreases |more|
  {
    if more == {} {
      assert ids + more == ids;
    } else {
      var id :| id in more;
      EmptyStreamsAreInvisible(s, ids, more - {id});
      if id in ids + (more - {id}) {
        assert ids + more == ids + (more - {id});
      } else {
        EmptyStreamIsInvisible(s, ids + (more - {id}), id);
        assert ids + more == ids + (more - {id}) + {id};
      }
    }
  }

  lemma {:induction false} SameStreamsSameOrder(p: Session, q: Session, ids: set<string>)
    requires forall id :: StreamOf(p, id) == StreamOf(q, id)
    ensures InOrder(p, ids) == InOrder(q, ids)
    decreases |ids|
  {
    if ids != {} { SameStreamsSameOrder(p, q, ids - {Least(ids)}); }
  }

  /** The view is a function of the known streams alone. */
  lemma {:induction false} SameStreamsSameView(w: World, p: Session, q: Session)
    requires forall id :: StreamOf(p, id) == StreamOf(q, id)
    ensures MergedView(w, p) == MergedView(w, q)
  {
    hide Replayed, InOrder;
    var all := StreamIds(p) + StreamIds(q);
    EmptyStreamsAreInvisible(p, StreamIds(p), StreamIds(q));
    EmptyStreamsAreInvisible(q, StreamIds(q), StreamIds(p));
    assert StreamIds(q) + StreamIds(p) == all;
    SameStreamsSameOrder(p, q, all);
  }

  /** A session whose own id is also a foreign one contributes nothing to its own view. */
  lemma {:induction false} ShadowedSessionIsMute(w: World, s: Session, ops: seq<Op>)
    requires OwnId(s) in s.foreign
    ensures MergedView(w, s.(ops := ops)) == MergedView(w, s)
  {
    hide Replayed;
    SameStreamsSameView(w, s.(ops := ops), s);
  }

  // ---------------------------------------------------------------- the network

  /** Agents by id, and every bundle ever exported. */
  datatype Net = Net(agents: map<string, Session>, wire: seq<Bundle>)

  datatype Step =
    | Local(id: string, op: Op)
    | Send(id: string, since: nat)
    | Deliver(id: string, index: nat)

  ghost function Next(w: World, v: Signer, net: Net, step: Step): Net
    requires Honest(w, net)
  {
    LogsOfNet(w, net);
    if step.id !in net.agents then net
    else
      var s := net.agents[step.id];
      match step
      case Local(id, op) => net.(agents := net.agents[id := Perform(w, s, op)])
      case Send(id, since) =>
        var r := ExportBundle(v, s, since);
        if r.Ok? then net.(wire := net.wire + [r.value]) else net
      case Deliver(id, index) =>
        if index < |net.wire| then
          net.(agents := net.agents[id := ImportBundle(w.crypto, v, s, net.wire[index]).1])
        else net
  }

  /** A bundle of the agent with history `h`: a slice of it, or nothing at all. */
  predicate HonestBundle(c: Crypto, h: seq<Op>, b: Bundle) {
    |b.ops| == |b.chain| && (b.ops == [] || Slice(c, h, b, b.firstSeq + |b.ops|))
  }

  ghost predicate UncompactedAgent(w: World, s: Session) {
    Valid(w, s) && s.folded == 0 && Records(w, s, s.ops)
  }

  ghost predicate KnowsPrefix(c: Crypto, log: ForeignLog, h: seq<Op>) {
    |log.ops| <= |h| && log == PrefixLog(c, h, |log.ops|)
  }

  /** The invariant: every agent holds, of every other, a prefix of what that agent
      recorded. */
  ghost predicate Honest(w: World, net: Net) {
    && (forall id | id in net.agents ::
          id != "" && net.agents[id].agent == id && UncompactedAgent(w, net.agents[id]))
    && (forall id, a | id in net.agents && a in net.agents[id].foreign ::
          a in net.agents && a != id && KnowsPrefix(w.crypto, net.agents[id].foreign[a], net.agents[a].ops))
    && (forall i | 0 <= i < |net.wire| ::
          net.wire[i].agent in net.agents && HonestBundle(w.crypto, net.agents[net.wire[i].agent].ops, net.wire[i]))
  }

  lemma {:induction false} LogsOfNet(w: World, net: Net)
    requires Honest(w, net)
    ensures forall id, a | id in net.agents && a in net.agents[id].foreign ::
      |net.agents[id].foreign[a].ops| == |net.agents[id].foreign[a].chain|
    ensures forall id | id in net.agents :: |net.agents[id].chain| == |net.agents[id].ops|
  {
    forall id, a | id in net.agents && a in net.agents[id].foreign
      ensures |net.agents[id].foreign[a].ops| == |net.agents[id].foreign[a].chain|
    {
      assert KnowsPrefix(w.crypto, net.agents[id].foreign[a], net.agents[a].ops);
    }
  }

  lemma {:induction false} KnowledgeSurvivesGrowth(c: Crypto, log: ForeignLog, g: seq<Op>, h: seq<Op>)
    requires KnowsPrefix(c, log, g) && g <= h
    ensures KnowsPrefix(c, log, h)
  {
    hide ChainOver, HeadAt;
    HistoryGrows(c, g, h);
  }

  lemma {:induction false} BundleSurvivesGrowth(c: Crypto, b: Bundle, g: seq<Op>, h: seq<Op>)
    requires HonestBundle(c, g, b) && g <= h
    ensures HonestBundle(c, h, b)
  {
    hide ChainOver, HeadAt, Slice;
    if b.ops != [] { SliceGrows(c, g, h, b, b.firstSeq + |b.ops|); }
  }

  lemma {:induction false} LocalStaysHonest(w: World, v: Signer, net: Net, id: string, op: Op)
    requires Honest(w, net) && id in net.agents
    ensures Honest(w, Next(w, v, net, Local(id, op)))
  {
    hide Slice, PrefixLog, HonestBundle, KnowsPrefix, Valid, Records, Eager, LinkHash;
    var s := net.agents[id];
    var t := Perform(w, s, op);
    assert UncompactedAgent(w, t) by { PerformKeeps(w, s, op, s.ops); }
    var after := Next(w, v, net, Local(id, op));
    forall x, a | x in after.agents && a in after.agents[x].foreign
      ensures a in after.agents && a != x && KnowsPrefix(w.crypto, after.agents[x].foreign[a], after.agents[a].ops)
    {
      if a == id { KnowledgeSurvivesGrowth(w.crypto, net.agents[x].foreign[a], s.ops, t.ops); }
    }
    forall i | 0 <= i < |after.wire|
      ensures HonestBundle(w.crypto, after.agents[after.wire[i].agent].ops, after.wire[i])
    {
      if after.wire[i].agent == id { BundleSurvivesGrowth(w.crypto, after.wire[i], s.ops, t.ops); }
    }
  }

  /** Whatever `since` asks for, an export is an honest bundle: past the end it is empty. */
  lemma {:induction false} ExportIsHonest(w: World, v: Signer, s: Session, since: nat)
    requires UncompactedAgent(w, s) && s.agent != ""
    ensures ExportBundle(v, s, since).Ok?
    ensures ExportBundle(v, s, since).value.agent == s.agent
    ensures HonestBundle(w.crypto, s.ops, ExportBundle(v, s, since).value)
  {
    hide Slice, HeadAt, Commitment;
    var b := ExportBundle(v, s, since).value;
    if since <= |s.ops| {
      ExportIsSlice(w, v, s, s.ops, since);
      assert |b.ops| == |s.ops| - since;
    }
  }

  lemma {:induction false} SendStaysHonest(w: World, v: Signer, net: Net, id: string, since: nat)
    requires Honest(w, net) && id in net.agents
    ensures Honest(w, Next(w, v, net, Send(id, since)))
  {
    hide Slice, PrefixLog, HonestBundle, KnowsPrefix, UncompactedAgent, ExportBundle;
    ExportIsHonest(w, v, net.agents[id], since);
  }

  /** What a delivery does to the receiver's knowledge of the sender. */
  lemma {:induction false} DeliveryKeepsPrefix(c: Crypto, v: Signer, s: Session, h: seq<Op>, b: Bundle)
    requires HonestBundle(c, h, b)
    requires b.agent in s.foreign ==> KnowsPrefix(c, s.foreign[b.agent], h)
    requires ImportBundle(c, v, s, b).0.Ok?
    ensures KnowsPrefix(c, ImportBundle(c, v, s, b).1.foreign[b.agent], h)
  {
    hide Slice, ChainOver, HeadAt, LinkHash, AuthRefusal, ShapeRefusal, ContinuityRefusal, Continues, WellChained;
    var known := Known(s.foreign, b.agent);
    assert KnowsPrefix(c, known, h) by { if b.agent !in s.foreign { assert h[..0] == []; } }
    ImportAcceptsIff(c, v, s, b);
    if b.ops == [] {
      assert Extended(known, b) == known by { NothingToAdd(known, b); }
    } else {
      SliceExtends(c, h, b, b.firstSeq + |b.ops|, |known.ops|);
      assert b.firstSeq + |b.ops| <= |h| && b.firstSeq <= |known.ops| by { StartsInside(c, h, known, b); }
    }
  }

  lemma {:induction false} NothingToAdd(known: ForeignLog, b: Bundle)
    requires b.ops == [] && b.chain == [] && b.firstSeq <= |known.ops|
    ensures Extended(known, b) == known
  {
  }

  lemma {:induction false} StartsInside(c: Crypto, h: seq<Op>, known: ForeignLog, b: Bundle)
    requires |known.ops| == |known.chain| && Continues(known, b) && Slice(c, h, b, b.firstSeq + |b.ops|)
    ensures b.firstSeq + |b.ops| <= |h| && b.firstSeq <= |known.ops|
  {
  }

  /** Replacing an agent by one with the same operations and sound knowledge of the others. */
  lemma {:induction false} ReplacedStaysHonest(w: World, net: Net, id: string, t: Session)
    requires Honest(w, net) && id in net.agents
    requires t.agent == id && t.ops == net.agents[id].ops && UncompactedAgent(w, t)
    requires forall a | a in t.foreign :: a in net.agents && a != id && KnowsPrefix(w.crypto, t.foreign[a], net.agents[a].ops)
    ensures Honest(w, net.(agents := net.agents[id := t]))
  {
    hide HonestBundle, KnowsPrefix, UncompactedAgent;
    var after := net.(agents := net.agents[id := t]);
    assert forall a | a in net.agents :: after.agents[a].ops == net.agents[a].ops;
  }

  lemma {:induction false} DeliverStaysHonest(w: World, v: Signer, net: Net, id: string, index: nat)
    requires Honest(w, net) && id in net.agents && index < |net.wire|
    ensures Honest(w, Next(w, v, net, Deliver(id, index)))
  {
    hide PrefixLog, HonestBundle, KnowsPrefix, ImportBundle, UncompactedAgent;
    LogsOfNet(w, net);
    assert HonestBundle(w.crypto, net.agents[net.wire[index].agent].ops, net.wire[index]);
    var s, b := net.agents[id], net.wire[index];
    var (r, t) := ImportBundle(w.crypto, v, s, b);
    if r.Ok? {
      DeliveryKeepsPrefix(w.crypto, v, s, net.agents[b.agent].ops, b);
    }
    ImportTouchesOnlyForeign(w, v, s, b);
    ReplacedStaysHonest(w, net, id, t);
  }

  lemma {:induction false} ImportTouchesOnlyForeign(w: World, v: Signer, s: Session, b: Bundle)
    requires b.agent in s.foreign ==> |s.foreign[b.agent].ops| == |s.foreign[b.agent].chain|
    ensures var t := ImportBundle(w.crypto, v, s, b).1;
      && t.ops == s.ops && t.agent == s.agent
      && (UncompactedAgent(w, s) ==> UncompactedAgent(w, t))
      && (ImportBundle(w.crypto, v, s, b).0.Err? ==> t == s)
      && (ImportBundle(w.crypto, v, s, b).0.Ok? ==> b.agent != s.agent)
      && (forall a | a != b.agent ::
            (a in t.foreign <==> a in s.foreign) && (a in s.foreign ==> t.foreign[a] == s.foreign[a]))
  {
    hide AuthRefusal, ShapeRefusal, ContinuityRefusal, Extended, ChainOver;
  }

  /** **Every reachable network is honest**, whatever the interleaving. */
  lemma {:induction false} StepStaysHonest(w: World, v: Signer, net: Net, step: Step)
    requires Honest(w, net)
    ensures Honest(w, Next(w, v, net, step))
  {
    hide Honest, Perform, ExportBundle, ImportBundle;
    if step.id in net.agents {
      match step
      case Local(id, op) => LocalStaysHonest(w, v, net, id, op);
      case Send(id, since) => SendStaysHonest(w, v, net, id, since);
      case Deliver(id, index) => if index < |net.wire| { DeliverStaysHonest(w, v, net, id, index); }
    }
  }

  ghost function Run(w: World, v: Signer, net: Net, steps: seq<Step>): Net
    requires Honest(w, net)
    ensures Honest(w, Run(w, v, net, steps))
  {
    if steps == [] then net
    else
      var before := Run(w, v, net, steps[..|steps| - 1]);
      StepStaysHonest(w, v, before, steps[|steps| - 1]);
      Next(w, v, before, steps[|steps| - 1])
  }

  /** Distinct fresh agents, nothing sent yet. */
  ghost predicate Initial(w: World, net: Net) {
    net.wire == [] &&
    forall id | id in net.agents :: id != "" && exists signer :: net.agents[id] == Fresh(w).(agent := id, signer := signer)
  }

  lemma {:induction false} InitialIsHonest(w: World, net: Net)
    requires Initial(w, net)
    ensures Honest(w, net)
  {
    hide ChainOver;
    FreshIsValid(w);
    forall id | id in net.agents ensures UncompactedAgent(w, net.agents[id]) && net.agents[id].foreign == map[] {
      var signer :| net.agents[id] == Fresh(w).(agent := id, signer := signer);
    }
  }

  /** **One exchange catches up**: whatever the network did before, if `p` sends from no later
      than where `q` stands and `q` takes that bundle, `q` knows all of `p`, and what it knew
      of others is unchanged — unless `q` pinned another key for `p`. */
  lemma {:induction false} ExchangeCatchesUp(w: World, v: Signer, net: Net, p: string, q: string, since: nat)
    requires Honest(w, net) && Matching(v) && p in net.agents && q in net.agents && p != q
    requires since <= |StreamOf(net.agents[q], p)|
    requires p in net.agents[q].pins ==> net.agents[p].signer == Some(net.agents[q].pins[p])
    ensures Honest(w, Next(w, v, net, Send(p, since)))
    ensures var end := Next(w, v, Next(w, v, net, Send(p, since)), Deliver(q, |net.wire|));
      && q in end.agents && end.agents.Keys == net.agents.Keys
      && StreamOf(end.agents[q], p) == net.agents[p].ops
      && (forall a | a != p :: StreamOf(end.agents[q], a) == StreamOf(net.agents[q], a))
      && (forall a | a in net.agents && a != q :: end.agents[a] == net.agents[a])
  {
    hide ImportBundle, ExportBundle, Valid, Records, HonestBundle, KnowsPrefix, PrefixLog;
    var s, r := net.agents[p], net.agents[q];
    KnownIsPrefix(w, net, p, q);
    LengthOfHistory(w, s, s.ops);
    RoundTrip(w, v, s, s.ops, since, r, |StreamOf(r, p)|);
    SendStaysHonest(w, v, net, p, since);
    var b := ExportBundle(v, s, since).value;
    ExportIsHonest(w, v, s, since);
    ImportTouchesOnlyForeign(w, v, r, b);
    PrefixLogWhole(w.crypto, s.ops);
  }

  lemma {:induction false} KnownIsPrefix(w: World, net: Net, p: string, q: string)
    requires Honest(w, net) && p in net.agents && q in net.agents && p != q
    ensures var s, r := net.agents[p], net.agents[q];
      && s.agent == p && r.agent == q && p != "" && s.folded == 0 && Valid(w, s) && Records(w, s, s.ops)
      && |StreamOf(r, p)| <= |s.ops| && Known(r.foreign, p) == PrefixLog(w.crypto, s.ops, |StreamOf(r, p)|)
  {
    hide Valid, Records, HonestBundle;
    if p !in net.agents[q].foreign { assert net.agents[p].ops[..0] == []; }
  }

  lemma {:induction false} PrefixLogWhole(c: Crypto, h: seq<Op>)
    ensures PrefixLog(c, h, |h|).ops == h
  {
  }

  // ---------------------------------------------------------------- convergence

  lemma {:induction false} StreamIsPrefix(w: World, net: Net, id: string, a: string)
    requires Honest(w, net) && id in net.agents
    ensures a in net.agents ==> StreamOf(net.agents[id], a) <= net.agents[a].ops
    ensures a !in net.agents ==> StreamOf(net.agents[id], a) == []
  {
    hide ChainOver, Valid, Records;
  }

  /** **Convergence.** In any honest network, two agents that know equally many operations
      of every agent have equal merged views. */
  lemma {:induction false} EqualCountsConverge(w: World, net: Net, p: string, q: string)
    requires Honest(w, net) && p in net.agents && q in net.agents
    requires forall a | a in net.agents ::
      |StreamOf(net.agents[p], a)| == |StreamOf(net.agents[q], a)|
    ensures MergedView(w, net.agents[p]) == MergedView(w, net.agents[q])
  {
    hide Honest, MergedView, StreamOf;
    forall a ensures StreamOf(net.agents[p], a) == StreamOf(net.agents[q], a) {
      StreamIsPrefix(w, net, p, a);
      StreamIsPrefix(w, net, q, a);
      if a in net.agents {
        var x, y, h := StreamOf(net.agents[p], a), StreamOf(net.agents[q], a), net.agents[a].ops;
        assert x == h[..|x|] && y == h[..|y|];
      }
    }
    SameStreamsSameView(w, net.agents[p], net.agents[q]);
  }

  /** From any honest start, after any run: agents that have caught up with everyone agree. */
  lemma {:induction false} CaughtUpAgentsAgree(w: World, v: Signer, net: Net, steps: seq<Step>, p: string, q: string)
    requires Honest(w, net)
    requires p in Run(w, v, net, steps).agents && q in Run(w, v, net, steps).agents
    requires var end := Run(w, v, net, steps);
      forall a, x | a in end.agents && (x == p || x == q) :: |StreamOf(end.agents[x], a)| == |end.agents[a].ops|
    ensures var end := Run(w, v, net, steps); MergedView(w, end.agents[p]) == MergedView(w, end.agents[q])
  {
    hide Honest, MergedView, StreamOf, Run;
    EqualCountsConverge(w, Run(w, v, net, steps), p, q);
  }

  /** Every agent's whole log, in increasing order of id. */
  ghost function GlobalLog(agents: map<string, Session>, ids: set<string>): seq<Op>
    requires ids <= agents.Keys
    decreases |ids|
  {
    if ids == {} then [] else var id := Least(ids); agents[id].ops + GlobalLog(agents, ids - {id})
  }

  lemma {:induction false} InOrderIsGlobal(s: Session, agents: map<string, Session>, ids: set<string>)
    requires ids <= agents.Keys && forall a | a in agents :: StreamOf(s, a) == agents[a].ops
    ensures InOrder(s, ids) == GlobalLog(agents, ids)
    decreases |ids|
  {
    if ids != {} { InOrderIsGlobal(s, agents, ids - {Least(ids)}); }
  }

  /** What they agree on: the replay, from empty and with one trailing resolve, of the
      id-sorted concatenation of everyone's log. */
  lemma {:induction false} CaughtUpViewIsGlobal(w: World, net: Net, p: string)
    requires Honest(w, net) && p in net.agents
    requires forall a | a in net.agents :: |StreamOf(net.agents[p], a)| == |net.agents[a].ops|
    ensures MergedView(w, net.agents[p]) == Replayed(w.kernel, New(w.kernel), GlobalLog(net.agents, net.agents.Keys))
  {
    hide Honest, StreamOf, InOrder, GlobalLog, Replayed;
    var s, ids, all := net.agents[p], StreamIds(net.agents[p]), net.agents.Keys;
    forall a ensures a in all ==> StreamOf(s, a) == net.agents[a].ops
             ensures a !in all || a !in ids ==> StreamOf(s, a) == [] {
      StreamIsPrefix(w, net, p, a);
      if a !in ids { UnknownIsEmpty(s, a); }
    }
    EmptyStreamsAreInvisible(s, ids, all);
    EmptyStreamsAreInvisible(s, all, ids);
    assert ids + all == all + ids;
    InOrderIsGlobal(s, net.agents, all);
  }

  lemma {:induction false} UnknownIsEmpty(s: Session, id: string)
    requires id !in StreamIds(s)
    ensures StreamOf(s, id) == []
  {
  }

  /** A session without an identity is filed under `local`; a named one under its name. */
  lemma {:induction false} OwnStream(s: Session, id: string)
    requires s.foreign == map[]
    ensures s.agent == "" ==> StreamOf(s, id) == if id == "local" then s.ops else []
    ensures s.agent != "" ==> StreamOf(s, id) == if id == s.agent then s.ops else []
  {
  }
}
