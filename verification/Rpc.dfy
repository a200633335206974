/** The stdio JSON-RPC client's pending-request table
    (adapters/deepseek-harness/mcp-stdio.js:100-193): replies, aborts, timeouts, write
    failures, exits and close may interleave in any order; ids are matched as section 5 of
    the JSON-RPC 2.0 specification asks. */
module Rpc {
  import opened Seqs

  datatype Reason = Aborted | TimedOut | WriteFailed | RemoteError | ChildFailed | Exited | Closed

  datatype Outcome = Resolved | Rejected(reason: Reason)

  datatype Settlement = Settlement(id: nat, outcome: Outcome)

  /** The client: the pending map's ids in insertion order, the armed timers and abort
      listeners, and the log of settled promises. */
  datatype Client = Client(
    pending: seq<nat>, timers: set<nat>, listeners: set<nat>, nextId: nat,
    running: bool, closed: bool, settled: seq<Settlement>)

  function Fresh(): Client {
    Client([], {}, {}, 1, false, false, [])
  }

  function Without(ids: seq<nat>, id: nat): seq<nat> {
    if ids == [] then []
    else if ids[0] == id then Without(ids[1..], id)
    else [ids[0]] + Without(ids[1..], id)
  }

  /** `cleanup`: disarm the timer and the listener, forget the id. */
  function Cleaned(c: Client, id: nat): Client {
    c.(pending := Without(c.pending, id), timers := c.timers - {id}, listeners := c.listeners - {id})
  }

  function SettleOne(c: Client, id: nat, outcome: Outcome): Client {
    Cleaned(c, id).(settled := c.settled + [Settlement(id, outcome)])
  }

  function SettleEach(c: Client, ids: seq<nat>, outcome: Outcome): Client {
    if ids == [] then c
    else SettleOne(SettleEach(c, ids[..|ids| - 1], outcome), ids[|ids| - 1], outcome)
  }

  function FailAll(c: Client, reason: Reason): Client {
    SettleEach(c, c.pending, Rejected(reason)).(pending := [])
  }

  /** A line of the child's stdout: only an object with an `id` can match a request. */
  datatype Line = Ignored | Reply(id: nat, isError: bool)

  datatype Event =
    | Start
    | StdinEnds
    | Request(signal: bool, alreadyAborted: bool, timeout: bool, writes: bool)
    | Received(line: Line)
    | AbortFires(id: nat)
    | TimerFires(id: nat)
    | ChildErrors
    | ChildExits
    | Close

  /** Timers and listeners fire only while armed. */
  predicate Enabled(c: Client, e: Event) {
    match e
    case AbortFires(id) => id in c.listeners
    case TimerFires(id) => id in c.timers
    case _ => true
  }

  function Requested(c: Client, signal: bool, alreadyAborted: bool, timeout: bool, writes: bool): Client {
    if !c.running then c
    else
      var id := c.nextId;
      var issued := c.(nextId := id + 1);
      if signal && alreadyAborted then SettleOne(issued, id, Rejected(Aborted))
      else
        var armed := issued.(
          listeners := if signal then c.listeners + {id} else c.listeners,
          timers := if timeout then c.timers + {id} else c.timers,
          pending := c.pending + [id]);
        if writes then armed else SettleOne(armed, id, Rejected(WriteFailed))
  }

  function Next(c: Client, e: Event): Client {
    match e
    case Start => c.(running := true)
    case StdinEnds => c.(running := false)
    case Request(signal, alreadyAborted, timeout, writes) => Requested(c, signal, alreadyAborted, timeout, writes)
    case Received(line) =>
      if line.Reply? && line.id in c.pending
      then SettleOne(c, line.id, if line.isError then Rejected(RemoteError) else Resolved)
      else c
    case AbortFires(id) => SettleOne(c, id, Rejected(Aborted))
    case TimerFires(id) => SettleOne(c, id, Rejected(TimedOut))
    case ChildErrors => FailAll(c, ChildFailed)
    case ChildExits => var gone := c.(running := false); if c.closed then gone else FailAll(gone, Exited)
    case Close => FailAll(c.(closed := true, running := false), Closed)
  }

  // ---------------------------------------------------------------- the invariant

  predicate IsSettled(c: Client, id: nat) {
    exists i | 0 <= i < |c.settled| :: c.settled[i].id == id
  }

  /** The pending map holds exactly the issued, unsettled ids; nothing is armed for anyone
      else; no promise settled twice. */
  ghost predicate Consistent(c: Client) {
    && c.nextId >= 1
    && Distinct(c.pending)
    && (forall id :: id in c.pending <==> 1 <= id < c.nextId && !IsSettled(c, id))
    && (forall i | 0 <= i < |c.settled| :: 1 <= c.settled[i].id < c.nextId)
    && (forall i, j | 0 <= i < j < |c.settled| :: c.settled[i].id != c.settled[j].id)
    && (forall id | id in c.timers || id in c.listeners :: id in c.pending)
  }

  lemma {:induction false} FreshIsConsistent()
    ensures Consistent(Fresh())
  {
  }

  lemma {:induction false} WithoutMembers(ids: seq<nat>, id: nat)
    ensures forall x :: x in Without(ids, id) <==> x in ids && x != id
  {
    if ids != [] {
      WithoutMembers(ids[1..], id);
      assert forall x :: x in ids <==> x == ids[0] || x in ids[1..];
    }
  }

  lemma {:induction false} WithoutStaysDistinct(ids: seq<nat>, id: nat)
    requires Distinct(ids)
    ensures Distinct(Without(ids, id))
  {
    if ids != [] {
      WithoutStaysDistinct(ids[1..], id);
      WithoutMembers(ids[1..], id);
      var rest := Without(ids[1..], id);
      forall i | 0 <= i < |rest| ensures rest[i] != ids[0] { assert rest[i] in ids[1..]; }
    }
  }

  lemma {:induction false} EmptyOrInhabited(ids: seq<nat>)
    ensures ids == [] || exists x :: x in ids
  {
    if ids != [] { assert ids[0] in ids; }
  }

  lemma {:induction false} SettledAfter(c: Client, id: nat, outcome: Outcome, x: nat)
    ensures IsSettled(SettleOne(c, id, outcome), x) <==> IsSettled(c, x) || x == id
  {
    var after := SettleOne(c, id, outcome);
    if IsSettled(c, x) {
      var i :| 0 <= i < |c.settled| && c.settled[i].id == x;
      assert after.settled[i].id == x;
    }
    assert after.settled[|c.settled|].id == id;
  }

  /** Settling a pending request, once. */
  lemma {:induction false} SettleKeepsConsistent(c: Client, id: nat, outcome: Outcome)
    requires Consistent(c) && id in c.pending
    ensures Consistent(SettleOne(c, id, outcome))
  {
    hide IsSettled;
    WithoutMembers(c.pending, id);
    WithoutStaysDistinct(c.pending, id);
    var after := SettleOne(c, id, outcome);
    forall x ensures IsSettled(after, x) <==> IsSettled(c, x) || x == id { SettledAfter(c, id, outcome, x); }
    forall i, j | 0 <= i < j < |after.settled| ensures after.settled[i].id != after.settled[j].id {
      if j == |c.settled| { assert IsSettled(c, c.settled[i].id) by { SettledAt(c, i); } }
    }
  }

  lemma {:induction false} SettledAt(c: Client, i: nat)
    requires i < |c.settled|
    ensures IsSettled(c, c.settled[i].id)
  {
  }

  lemma {:induction false} SettleEachKeepsConsistent(c: Client, ids: seq<nat>, outcome: Outcome)
    requires Consistent(c) && Distinct(ids) && forall id | id in ids :: id in c.pending
    ensures var after := SettleEach(c, ids, outcome);
      && Consistent(after) && after.nextId == c.nextId
      && (forall x :: x in after.pending <==> x in c.pending && x !in ids)
  {
    hide Consistent;
    if ids != [] {
      var init, last := ids[..|ids| - 1], ids[|ids| - 1];
      SettleEachKeepsConsistent(c, init, outcome);
      assert forall x :: x in ids <==> x in init || x == last;
      var before := SettleEach(c, init, outcome);
      WithoutMembers(before.pending, last);
      assert last in before.pending;
      SettleKeepsConsistent(before, last, outcome);
    }
  }

  /** Failing everything settles exactly what was pending. */
  lemma {:induction false} FailAllKeepsConsistent(c: Client, reason: Reason)
    requires Consistent(c)
    ensures Consistent(FailAll(c, reason)) && FailAll(c, reason).pending == []
    ensures forall id | id in c.pending :: IsSettled(FailAll(c, reason), id)
  {
    hide IsSettled;
    SettleEachKeepsConsistent(c, c.pending, Rejected(reason));
    var after := SettleEach(c, c.pending, Rejected(reason));
    EmptyOrInhabited(after.pending);
    assert FailAll(c, reason) == after;
    forall id | id in c.pending ensures IsSettled(after, id) {
      assert id !in after.pending;
    }
  }

  /** Issuing the next id keeps the table consistent: no settlement can name it yet. */
  lemma {:induction false} IssueKeepsConsistent(c: Client)
    requires Consistent(c)
    ensures c.nextId !in c.pending
    ensures Consistent(c.(nextId := c.nextId + 1, pending := c.pending + [c.nextId]))
  {
    var id := c.nextId;
    var waiting := c.(nextId := id + 1, pending := c.pending + [id]);
    assert forall x :: IsSettled(waiting, x) <==> IsSettled(c, x);
    assert !IsSettled(c, id);
    hide IsSettled;
    assert forall x :: x in waiting.pending <==> x in c.pending || x == id;
    forall i | 0 <= i < |c.pending| ensures c.pending[i] < id { assert c.pending[i] in c.pending; }
  }

  lemma {:induction false} ArmingKeepsConsistent(c: Client, timers: set<nat>, listeners: set<nat>)
    requires Consistent(c) && forall id | id in timers || id in listeners :: id in c.pending
    ensures Consistent(c.(timers := timers, listeners := listeners))
  {
    var armed := c.(timers := timers, listeners := listeners);
    assert forall x :: IsSettled(armed, x) <==> IsSettled(c, x);
    hide IsSettled;
  }

  lemma {:induction false} AbortedRequest(c: Client)
    requires Consistent(c) && c.running
    ensures Consistent(SettleOne(c.(nextId := c.nextId + 1), c.nextId, Rejected(Aborted)))
  {
    IssueKeepsConsistent(c);
    hide Consistent;
    var id := c.nextId;
    var waiting := c.(nextId := id + 1, pending := c.pending + [id]);
    SettleKeepsConsistent(waiting, id, Rejected(Aborted));
    AppendedIsDropped(c.pending, id);
    AbsentIsUntouched(c.pending, id);
  }

  lemma {:induction false} ArmedRequest(c: Client, timers: set<nat>, listeners: set<nat>)
    requires Consistent(c) && timers <= c.timers + {c.nextId} && listeners <= c.listeners + {c.nextId}
    ensures var armed := c.(nextId := c.nextId + 1, pending := c.pending + [c.nextId], timers := timers, listeners := listeners);
      Consistent(armed) && Consistent(SettleOne(armed, c.nextId, Rejected(WriteFailed)))
  {
    hide IsSettled, SettleOne, Distinct;
    IssueKeepsConsistent(c);
    var waiting := c.(nextId := c.nextId + 1, pending := c.pending + [c.nextId]);
    ArmingKeepsConsistent(waiting, timers, listeners);
    SettleKeepsConsistent(waiting.(timers := timers, listeners := listeners), c.nextId, Rejected(WriteFailed));
  }

  lemma {:induction false} RequestKeepsConsistent(c: Client, signal: bool, alreadyAborted: bool, timeout: bool, writes: bool)
    requires Consistent(c)
    ensures Consistent(Requested(c, signal, alreadyAborted, timeout, writes))
  {
    hide Consistent, SettleOne;
    if c.running {
      AbortedRequest(c);
      ArmedRequest(c, if timeout then c.timers + {c.nextId} else c.timers, if signal then c.listeners + {c.nextId} else c.listeners);
    }
  }

  lemma {:induction false} AbsentIsUntouched(ids: seq<nat>, id: nat)
    requires id !in ids
    ensures Without(ids, id) == ids
  {
    if ids != [] { AbsentIsUntouched(ids[1..], id); }
  }

  lemma {:induction false} AppendedIsDropped(ids: seq<nat>, id: nat)
    requires id !in ids
    ensures Without(ids + [id], id) == ids
  {
    if ids != [] {
      AppendedIsDropped(ids[1..], id);
      assert (ids + [id])[1..] == ids[1..] + [id];
    }
  }

  /** **Every event keeps the table consistent.** */
  lemma {:induction false} EventKeepsConsistent(c: Client, e: Event)
    requires Consistent(c) && Enabled(c, e)
    ensures Consistent(Next(c, e))
  {
    hide SettleOne, FailAll, Requested;
    match e
    case Start => FlagsDoNotMatter(c, true, c.closed);
    case StdinEnds => FlagsDoNotMatter(c, false, c.closed);
    case Request(signal, alreadyAborted, timeout, writes) =>
      RequestKeepsConsistent(c, signal, alreadyAborted, timeout, writes);
    case Received(line) =>
      if line.Reply? && line.id in c.pending {
        SettleKeepsConsistent(c, line.id, if line.isError then Rejected(RemoteError) else Resolved);
      }
    case AbortFires(id) => SettleKeepsConsistent(c, id, Rejected(Aborted));
    case TimerFires(id) => SettleKeepsConsistent(c, id, Rejected(TimedOut));
    case ChildErrors => FailAllKeepsConsistent(c, ChildFailed);
    case ChildExits =>
      FlagsDoNotMatter(c, false, c.closed);
      FailAllKeepsConsistent(c.(running := false), Exited);
    case Close =>
      FlagsDoNotMatter(c, false, true);
      FailAllKeepsConsistent(c.(closed := true, running := false), Closed);
  }

  lemma {:induction false} FlagsDoNotMatter(c: Client, running: bool, closed: bool)
    requires Consistent(c)
    ensures Consistent(c.(running := running, closed := closed))
  {
    var d := c.(running := running, closed := closed);
    assert forall x :: IsSettled(d, x) <==> IsSettled(c, x);
  }

  /** Settled stays settled, with its first outcome; a reply to anything not pending — late,
      repeated or unknown — changes nothing. */
  lemma {:induction false} SettlementsAreFinal(c: Client, e: Event)
    requires Consistent(c) && Enabled(c, e)
    ensures c.settled <= Next(c, e).settled
    ensures e.Received? && e.line.Reply? && e.line.id !in c.pending ==> Next(c, e) == c
  {
    match e
    case ChildErrors => SettleEachAppends(c, c.pending, Rejected(ChildFailed));
    case ChildExits => SettleEachAppends(c.(running := false), c.pending, Rejected(Exited));
    case Close => SettleEachAppends(c.(closed := true, running := false), c.pending, Rejected(Closed));
    case _ =>
  }

  lemma {:induction false} SettleEachAppends(c: Client, ids: seq<nat>, outcome: Outcome)
    ensures c.settled <= SettleEach(c, ids, outcome).settled
  {
    if ids != [] { SettleEachAppends(c, ids[..|ids| - 1], outcome); }
  }

  lemma {:induction false} CloseSettlesAll(c: Client)
    requires Consistent(c)
    ensures forall id | 1 <= id < Next(c, Close).nextId :: IsSettled(Next(c, Close), id)
  {
    hide IsSettled;
    FlagsDoNotMatter(c, false, true);
    FailAllKeepsConsistent(c.(closed := true, running := false), Closed);
    var after := Next(c, Close);
    forall id | 1 <= id < after.nextId ensures IsSettled(after, id) { assert id !in after.pending; }
  }

  /** **Over any interleaving**: each request settles at most once, and after close every
      request ever issued has settled. */
  lemma {:induction false} EveryRunSettlesOnce(states: seq<Client>, events: seq<Event>)
    requires |states| == |events| + 1 && states[0] == Fresh()
    requires forall i | 0 <= i < |events| :: Enabled(states[i], events[i]) && states[i + 1] == Next(states[i], events[i])
    ensures Consistent(states[|events|])
    ensures events != [] && events[|events| - 1].Close? ==>
      forall id | 1 <= id < states[|events|].nextId :: IsSettled(states[|events|], id)
  {
    hide Consistent, IsSettled, Next, Enabled;
    if events == [] {
      FreshIsConsistent();
    } else {
      var n := |events| - 1;
      EveryRunSettlesOnce(states[..n + 1], events[..n]);
      EventKeepsConsistent(states[n], events[n]);
      if events[n].Close? { CloseSettlesAll(states[n]); }
    }
  }

  /** A reply reaches the request it names and no other: that one settles, resolved or
      rejected as the reply says, and every other request keeps waiting, timer and listener
      included. */
  lemma {:induction false} ReplyReachesItsRequest(c: Client, id: nat, isError: bool, x: nat)
    requires Consistent(c) && id in c.pending
    ensures var t := Next(c, Received(Reply(id, isError)));
      && t.settled == c.settled + [Settlement(id, if isError then Rejected(RemoteError) else Resolved)]
      && (x in t.pending <==> x in c.pending && x != id)
      && (x in t.timers <==> x in c.timers && x != id)
      && (x in t.listeners <==> x in c.listeners && x != id)
      && t.nextId == c.nextId
  {
    WithoutMembers(c.pending, id);
  }

  /** A request that is sent waits under a new id, with its timer and its abort listener armed
      exactly if asked for; one already aborted, or whose write fails, is rejected at once and
      leaves nothing armed; without a running child nothing is issued. */
  lemma {:induction false} RequestArms(c: Client, signal: bool, alreadyAborted: bool, timeout: bool, writes: bool)
    requires Consistent(c)
    ensures var t, id := Next(c, Request(signal, alreadyAborted, timeout, writes)), c.nextId;
      if !c.running then t == c
      else if signal && alreadyAborted then
        t.nextId == id + 1 && t.settled == c.settled + [Settlement(id, Rejected(Aborted))] && id !in t.pending && id !in t.timers && id !in t.listeners
      else if !writes then
        t.nextId == id + 1 && t.settled == c.settled + [Settlement(id, Rejected(WriteFailed))] && id !in t.pending && id !in t.timers && id !in t.listeners
      else
        t.nextId == id + 1 && t.settled == c.settled && id in t.pending
        && (id in t.timers <==> timeout) && (id in t.listeners <==> signal)
  {
    IssueKeepsConsistent(c);
    hide IsSettled;
    assert c.nextId !in c.timers && c.nextId !in c.listeners;
    WithoutMembers(c.pending, c.nextId);
    WithoutMembers(c.pending + [c.nextId], c.nextId);
  }

  /** A timer and an abort settle their own request, each for its own reason. */
  lemma {:induction false} FiringSettles(c: Client, id: nat)
    requires Consistent(c)
    ensures id in c.timers ==> Next(c, TimerFires(id)).settled == c.settled + [Settlement(id, Rejected(TimedOut))]
    ensures id in c.listeners ==> Next(c, AbortFires(id)).settled == c.settled + [Settlement(id, Rejected(Aborted))]
    ensures id !in Next(c, TimerFires(id)).pending && id !in Next(c, AbortFires(id)).pending
  {
    WithoutMembers(c.pending, id);
  }

  /** Whatever happens, an issued request that still waits afterwards waited before, and keeps
      its timer and its listener. */
  lemma {:induction false} StepKeepsArmed(c: Client, e: Event, x: nat)
    requires Consistent(c) && Enabled(c, e) && x < c.nextId
    ensures var t := Next(c, e);
      && c.nextId <= t.nextId
      && (x in t.pending ==> x in c.pending && (x in t.timers <==> x in c.timers) && (x in t.listeners <==> x in c.listeners))
  {
    match e
    case Request(_, _, _, _) =>
      WithoutMembers(c.pending, c.nextId);
      WithoutMembers(c.pending + [c.nextId], c.nextId);
    case Received(line) => if line.Reply? { WithoutMembers(c.pending, line.id); }
    case AbortFires(id) => WithoutMembers(c.pending, id);
    case TimerFires(id) => WithoutMembers(c.pending, id);
    case ChildErrors => FailAllKeepsFlags(c, ChildFailed);
    case ChildExits => FailAllKeepsFlags(c.(running := false), Exited);
    case Close => FailAllKeepsFlags(c.(closed := true, running := false), Closed);
    case _ =>
  }

  /** **No timer is lost**: over any interleaving, as long as a sent request waits, its timer
      and its abort listener are armed exactly if they were asked for. */
  lemma {:induction false} ArmedWhilePending(states: seq<Client>, events: seq<Event>, i: nat)
    requires |states| == |events| + 1 && states[0] == Fresh()
    requires forall j | 0 <= j < |events| :: Enabled(states[j], events[j]) && states[j + 1] == Next(states[j], events[j])
    requires i < |events| && states[i].running && events[i].Request? && events[i].writes
    requires !(events[i].signal && events[i].alreadyAborted)
    ensures var last, id := states[|events|], states[i].nextId;
      && id < last.nextId
      && (id in last.pending ==> (id in last.timers <==> events[i].timeout) && (id in last.listeners <==> events[i].signal))
  {
    hide Consistent, Next, Enabled;
    var n := |events| - 1;
    EveryRunSettlesOnce(states[..n + 1], events[..n]);
    if i == n {
      var r := events[n];
      RequestArms(states[n], r.signal, r.alreadyAborted, r.timeout, r.writes);
    } else {
      ArmedWhilePending(states[..n + 1], events[..n], i);
      StepKeepsArmed(states[n], events[n], states[i].nextId);
    }
  }

  lemma {:induction false} SettleEachInOrder(c: Client, ids: seq<nat>, outcome: Outcome)
    ensures var t := SettleEach(c, ids, outcome);
      && |t.settled| == |c.settled| + |ids| && c.settled <= t.settled
      && forall i | 0 <= i < |ids| :: t.settled[|c.settled| + i] == Settlement(ids[i], outcome)
  {
    if ids != [] {
      SettleEachInOrder(c, ids[..|ids| - 1], outcome);
    }
  }

  /** Failing the client rejects exactly the waiting requests, with one reason, in the order
      they were sent. */
  lemma {:induction false} FailAllRejectsInOrder(c: Client, reason: Reason)
    ensures var t := FailAll(c, reason);
      && |t.settled| == |c.settled| + |c.pending| && c.settled <= t.settled
      && forall i | 0 <= i < |c.pending| :: t.settled[|c.settled| + i] == Settlement(c.pending[i], Rejected(reason))
  {
    SettleEachInOrder(c, c.pending, Rejected(reason));
  }

  /** How each end rejects the waiting requests: a child error leaves the client running, an
      exit takes the child away, close does both and stays closed. */
  lemma {:induction false} EndsReject(c: Client)
    ensures Next(c, StdinEnds) == c.(running := false)
    ensures var t := Next(c, ChildErrors);
      t.running == c.running && t.closed == c.closed && |t.settled| == |c.settled| + |c.pending|
      && forall i | 0 <= i < |c.pending| :: t.settled[|c.settled| + i] == Settlement(c.pending[i], Rejected(ChildFailed))
    ensures var t := Next(c, ChildExits);
      !t.running && t.closed == c.closed
      && (c.closed ==> t == c.(running := false))
      && (!c.closed ==>
            |t.settled| == |c.settled| + |c.pending|
            && forall i | 0 <= i < |c.pending| :: t.settled[|c.settled| + i] == Settlement(c.pending[i], Rejected(Exited)))
    ensures var t := Next(c, Close);
      !t.running && t.closed && |t.settled| == |c.settled| + |c.pending|
      && forall i | 0 <= i < |c.pending| :: t.settled[|c.settled| + i] == Settlement(c.pending[i], Rejected(Closed))
  {
    hide FailAll;
    FailAllRejectsInOrder(c, ChildFailed);
    FailAllRejectsInOrder(c.(running := false), Exited);
    FailAllRejectsInOrder(c.(closed := true, running := false), Closed);
    FailAllKeepsFlags(c, ChildFailed);
    FailAllKeepsFlags(c.(running := false), Exited);
    FailAllKeepsFlags(c.(closed := true, running := false), Closed);
  }

  lemma {:induction false} FailAllKeepsFlags(c: Client, reason: Reason)
    ensures var t := FailAll(c, reason); t.running == c.running && t.closed == c.closed && t.nextId == c.nextId
  {
    SettleEachKeepsFlags(c, c.pending, Rejected(reason));
  }

  lemma {:induction false} SettleEachKeepsFlags(c: Client, ids: seq<nat>, outcome: Outcome)
    ensures var t := SettleEach(c, ids, outcome); t.running == c.running && t.closed == c.closed && t.nextId == c.nextId
  {
    if ids != [] { SettleEachKeepsFlags(c, ids[..|ids| - 1], outcome); }
  }

  /** **An exit settles everything exactly when the client was not closed before**: `closed`
      is never cleared, yet a later call starts a new child, whose exit then rejects nobody. */
  lemma {:induction false} ExitSettlesIff(c: Client)
    requires Consistent(c)
    ensures (forall id | 1 <= id < c.nextId :: IsSettled(Next(c, ChildExits), id)) <==> (!c.closed || c.pending == [])
  {
    hide IsSettled;
    var gone := c.(running := false);
    FlagsDoNotMatter(c, false, c.closed);
    if !c.closed {
      FailAllKeepsConsistent(gone, Exited);
      assert FailAll(gone, Exited).nextId == c.nextId by { SettleEachKeepsConsistent(gone, c.pending, Rejected(Exited)); }
    } else if c.pending == [] {
      forall id | 1 <= id < c.nextId ensures IsSettled(gone, id) { assert id !in gone.pending; }
    } else {
      var id := c.pending[0];
      assert id in gone.pending && !IsSettled(gone, id);
      assert Next(c, ChildExits) == gone;
      assert 1 <= id < c.nextId && !IsSettled(Next(c, ChildExits), id);
    }
  }

  /** The run that shows it: closed, used again without a timeout, and the second child dies. */
  lemma {:induction false} ClosedClientStrandsRequest()
    ensures var events := [Start, Close, Start, Request(false, false, false, true), ChildExits];
      exists states: seq<Client> :: |states| == 6 && states[0] == Fresh() && states[5].pending == [1] && states[5].timers == {}
        && forall i | 0 <= i < |events| :: Enabled(states[i], events[i]) && states[i + 1] == Next(states[i], events[i])
  {
    var events := [Start, Close, Start, Request(false, false, false, true), ChildExits];
    var s0 := Fresh();
    var s1 := Next(s0, events[0]);
    var s2 := Next(s1, events[1]);
    assert SettleEach(s1.(closed := true, running := false), [], Rejected(Closed)) == s1.(closed := true, running := false);
    var s3 := Next(s2, events[2]);
    var s4 := Next(s3, events[3]);
    var s5 := Next(s4, events[4]);
    assert s4.pending == [1];
    var states := [s0, s1, s2, s3, s4, s5];
    forall i | 0 <= i < |events| ensures Enabled(states[i], events[i]) && states[i + 1] == Next(states[i], events[i]) {
      assert i == 0 || i == 1 || i == 2 || i == 3 || i == 4;
    }
  }

  // ---------------------------------------------------------------- the object

  class StdioMcpClient {
    var pending: seq<nat>
    var timers: set<nat>
    var listeners: set<nat>
    var nextId: nat
    var running: bool
    var closed: bool
    ghost var settled: seq<Settlement>

    ghost function Model(): Client
      reads this
    {
      Client(pending, timers, listeners, nextId, running, closed, settled)
    }

    constructor ()
      ensures Model() == Fresh()
    {
      pending, timers, listeners, nextId, running, closed, settled := [], {}, {}, 1, false, false, [];
    }

    method Cleanup(id: nat)
      modifies `pending, `timers, `listeners
      ensures Model() == Cleaned(old(Model()), id)
    {
      timers := timers - {id};
      listeners := listeners - {id};
      pending := Without(pending, id);
    }

    method Settle(id: nat, outcome: Outcome)
      modifies `pending, `timers, `listeners, `settled
      ensures Model() == SettleOne(old(Model()), id, outcome)
    {
      Cleanup(id);
      settled := settled + [Settlement(id, outcome)];
    }

    method StartChild()
      modifies this
      ensures Model() == Next(old(Model()), Start)
    {
      running := true;
    }

    /** `request`: an id is consumed as soon as the child is writable, even when the signal
        is already aborted or the write throws. */
    method SendRequest(signal: bool, alreadyAborted: bool, timeout: bool, writes: bool)
      modifies this
      ensures Model() == Next(old(Model()), Request(signal, alreadyAborted, timeout, writes))
    {
      if !running { return; }
      var id := nextId;
      nextId := nextId + 1;
      if signal && alreadyAborted {
        Settle(id, Rejected(Aborted));
        return;
      }
      if signal { listeners := listeners + {id}; }
      if timeout { timers := timers + {id}; }
      pending := pending + [id];
      if !writes { Settle(id, Rejected(WriteFailed)); }
    }

    /** The abort listener and the timer of a request, which `cleanup` disarms. */
    method OnAbort(id: nat)
      modifies this
      ensures Model() == Next(old(Model()), AbortFires(id))
    {
      Settle(id, Rejected(Aborted));
    }

    method OnTimeout(id: nat)
      modifies this
      ensures Model() == Next(old(Model()), TimerFires(id))
    {
      Settle(id, Rejected(TimedOut));
    }

    /** `#onLine`. */
    method OnLine(line: Line)
      modifies this
      ensures Model() == Next(old(Model()), Received(line))
    {
      if line.Ignored? { return; }
      if line.id !in pending { return; }
      Settle(line.id, if line.isError then Rejected(RemoteError) else Resolved);
    }

    /** `#failAll`: reject a snapshot of the waiters, then clear the map. */
    method RejectAll(reason: Reason)
      modifies `pending, `timers, `listeners, `settled
      ensures Model() == FailAll(old(Model()), reason)
    {
      hide SettleOne;
      ghost var before := Model();
      var waiting := pending;
      for i := 0 to |waiting|
        invariant Model() == SettleEach(before, waiting[..i], Rejected(reason))
      {
        assert waiting[..i + 1][..i] == waiting[..i];
        Settle(waiting[i], Rejected(reason));
      }
      assert waiting[..|waiting|] == waiting;
      pending := [];
    }

    method CloseClient()
      modifies this
      ensures Model() == Next(old(Model()), Close)
    {
      closed := true;
      running := false;
      RejectAll(Closed);
    }

    method OnExit()
      modifies this
      ensures Model() == Next(old(Model()), ChildExits)
    {
      running := false;
      if !closed { RejectAll(Exited); }
    }
  }
}
