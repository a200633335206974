/** The durable capture outbox and its drain loop (adapters/deepseek-harness/outbox.js:19-72,
    adapters/deepseek-harness/bridge.js:441-492): at-least-once delivery over runs with
    failures and crashes, and progress past corrupt entries. */
module Outbox {
  import opened Text
  import opened Seqs

  const MAX_ENTRY_BYTES: nat := 8 * 1024 * 1024
  const MAX_DRAIN_BATCH: nat := 200

  /** A capture as stored: the tool call and the identity whose `requestId` makes a retry
      recognisable. */
  datatype Item = Item(tool: string, arguments: string, requestId: string)

  /** A file in the outbox directory: its size, and the capture it parses to, if it does. */
  datatype File = File(bytes: nat, item: Item, parses: bool)

  predicate Healthy(f: File) {
    f.bytes <= MAX_ENTRY_BYTES && f.parses
  }

  type Directory = map<string, File>

  /** The deliverable keys, oldest first. */
  function HealthyKeys(dir: Directory): set<string> {
    set key | key in dir && Healthy(dir[key])
  }

  function Pending(dir: Directory): seq<string> {
    Sorted(HealthyKeys(dir))
  }

  // ---------------------------------------------------------------- listing

  /** The first `limit` healthy names of a sorted listing; corrupt ones are skipped and do
      not count against the limit. */
  function HealthyOf(dir: Directory, names: seq<string>): seq<string> {
    if names == [] then []
    else
      var init := HealthyOf(dir, names[..|names| - 1]);
      var last := names[|names| - 1];
      if last in dir && Healthy(dir[last]) then init + [last] else init
  }

  /** The corrupt names, which stay on disk. */
  function CorruptOf(dir: Directory, names: seq<string>): seq<string> {
    if names == [] then []
    else
      var init := CorruptOf(dir, names[..|names| - 1]);
      var last := names[|names| - 1];
      if last in dir && !Healthy(dir[last]) then init + [last] else init
  }

  /** The corrupt files met: all of them, or, when the limit was reached, those sorted before
      the last entry listed. */
  ghost predicate Reports(dir: Directory, limit: nat, entries: seq<string>, corrupt: seq<string>) {
    forall key :: key in corrupt <==>
      key in dir && !(dir[key].parses && dir[key].bytes <= 8 * 1024 * 1024)
      && (|entries| < limit || (entries != [] && LexLeq(key, entries[|entries| - 1])))
  }

  /** `list`: entries up to `limit`, and the corrupt keys met on the way, which stay. */
  method List(dir: Directory, limit: nat) returns (entries: seq<string>, corrupt: seq<string>)
    ensures entries == Take(Pending(dir), limit)
    ensures Reports(dir, limit, entries, corrupt)
  {
    hide Sorted, Healthy, Pending, Reports, HealthyOf, CorruptOf;
    var names := Sorted(dir.Keys);
    NothingListed(dir);
    entries, corrupt := [], [];
    var i := 0;
    while i < |names| && |entries| < limit
      invariant 0 <= i <= |names| && |entries| <= limit
      invariant entries == HealthyOf(dir, names[..i]) && corrupt == CorruptOf(dir, names[..i])
      invariant i > 0 && |entries| == limit ==> entries != [] && entries[|entries| - 1] == names[i - 1]
    {
      ListNext(dir, names, i);
      var file := dir[names[i]];
      if !Healthy(file) {
        corrupt := corrupt + [names[i]];
      } else {
        entries := entries + [names[i]];
      }
      i := i + 1;
    }
    HealthyNamesArePending(dir, names);
    HealthyPrefix(dir, names, i);
    CorruptReported(dir, names, i, limit);
  }

  lemma {:induction false} NothingListed(dir: Directory)
    ensures HealthyOf(dir, []) == [] && CorruptOf(dir, []) == []
  {
  }

  lemma {:induction false} ListNext(dir: Directory, names: seq<string>, i: nat)
    requires i < |names| && names[i] in dir
    ensures HealthyOf(dir, names[..i + 1]) == HealthyOf(dir, names[..i]) + if Healthy(dir[names[i]]) then [names[i]] else []
    ensures CorruptOf(dir, names[..i + 1]) == CorruptOf(dir, names[..i]) + if Healthy(dir[names[i]]) then [] else [names[i]]
  {
    assert names[..i + 1][..i] == names[..i];
  }

  lemma {:induction false} CorruptMembers(dir: Directory, names: seq<string>, key: string)
    ensures key in CorruptOf(dir, names) <==> key in names && key in dir && !(dir[key].parses && dir[key].bytes <= 8 * 1024 * 1024)
  {
    if names != [] {
      CorruptMembers(dir, names[..|names| - 1], key);
      assert names == names[..|names| - 1] + [names[|names| - 1]];
    }
  }

  lemma {:induction false} CorruptReported(dir: Directory, names: seq<string>, i: nat, limit: nat)
    requires i <= |names| && Increasing(names) && forall x :: x in names <==> x in dir
    requires var entries := HealthyOf(dir, names[..i]);
      && (i == |names| || |entries| >= limit)
      && (|entries| >= limit && i > 0 ==> entries != [] && entries[|entries| - 1] == names[i - 1])
    ensures Reports(dir, limit, HealthyOf(dir, names[..i]), CorruptOf(dir, names[..i]))
  {
    forall key ensures key in CorruptOf(dir, names[..i])
      <==> key in names[..i] && key in dir && !(dir[key].parses && dir[key].bytes <= 8 * 1024 * 1024)
    {
      CorruptMembers(dir, names[..i], key);
    }
    NothingListed(dir);
    NamesUpTo(names, i);
    hide Increasing, LexLeq, HealthyOf, CorruptOf;
    assert names[..|names|] == names;
    assert i == 0 ==> names[..i] == [];
  }

  lemma {:induction false} NamesUpTo(names: seq<string>, i: nat)
    requires Increasing(names) && i <= |names|
    ensures i > 0 ==> forall key :: key in names[..i] <==> key in names && LexLeq(key, names[i - 1])
  {
    hide LexLeq;
    if i > 0 {
      LexTotal(names[i - 1], names[i - 1]);
      forall key ensures key in names[..i] <==> key in names && LexLeq(key, names[i - 1]) {
        if key in names {
          var at :| 0 <= at < |names| && names[at] == key;
          if at < i {
            assert names[..i][at] == key;
          } else if LexLeq(key, names[i - 1]) {
            LexAntisymmetric(names[i - 1], key);
            assert false;
          }
        }
      }
    }
  }

  lemma {:induction false} HealthyPrefix(dir: Directory, names: seq<string>, i: nat)
    requires i <= |names|
    ensures HealthyOf(dir, names[..i]) <= HealthyOf(dir, names)
    ensures i == |names| ==> HealthyOf(dir, names[..i]) == HealthyOf(dir, names)
  {
    if i == |names| {
      assert names[..i] == names;
    } else {
      HealthyPrefix(dir, names[..|names| - 1], i);
      assert names[..|names| - 1][..i] == names[..i];
    }
  }

  predicate Increasing(xs: seq<string>) {
    forall i, j | 0 <= i < j < |xs| :: xs[i] != xs[j] && LexLeq(xs[i], xs[j])
  }

  lemma {:induction false} HealthyOfIsIncreasing(dir: Directory, names: seq<string>)
    requires Increasing(names)
    ensures Increasing(HealthyOf(dir, names))
    ensures forall x :: x in HealthyOf(dir, names) <==> x in names && x in dir && Healthy(dir[x])
  {
    hide LexLeq;
    if names != [] {
      var init := names[..|names| - 1];
      HealthyOfIsIncreasing(dir, init);
      assert names == init + [names[|names| - 1]];
      var last, kept := names[|names| - 1], HealthyOf(dir, init);
      forall k | 0 <= k < |kept| ensures kept[k] != last && LexLeq(kept[k], last) {
        assert kept[k] in init;
        var at :| 0 <= at < |init| && init[at] == kept[k];
        assert names[at] == kept[k];
      }
    }
  }

  /** A set has one increasing enumeration. */
  lemma {:induction false} IncreasingIsUnique(xs: seq<string>, ys: seq<string>)
    requires Increasing(xs) && Increasing(ys) && forall x :: x in xs <==> x in ys
    ensures xs == ys
  {
    hide LexLeq;
    if xs == [] || ys == [] {
      assert |xs| == 0 <==> |ys| == 0 by { NoneOrSome(xs, ys); }
    } else {
      assert xs[0] in ys;
      var i :| 0 <= i < |ys| && ys[i] == xs[0];
      assert ys[0] in xs;
      var j :| 0 <= j < |xs| && xs[j] == ys[0];
      if i != 0 && j != 0 { LexAntisymmetric(xs[0], ys[0]); }
      assert xs[0] == ys[0];
      forall x ensures x in xs[1..] <==> x in ys[1..] { SplitHead(xs, ys, x); }
      IncreasingIsUnique(xs[1..], ys[1..]);
      assert xs == [xs[0]] + xs[1..] && ys == [ys[0]] + ys[1..];
    }
  }

  lemma {:induction false} NoneOrSome(xs: seq<string>, ys: seq<string>)
    requires forall x :: x in xs <==> x in ys
    ensures |xs| == 0 <==> |ys| == 0
  {
    if |xs| > 0 { assert xs[0] in ys; }
    if |ys| > 0 { assert ys[0] in xs; }
  }

  lemma {:induction false} SplitHead(xs: seq<string>, ys: seq<string>, x: string)
    requires xs != [] && ys != [] && Increasing(xs) && Increasing(ys) && xs[0] == ys[0]
    requires forall z :: z in xs <==> z in ys
    ensures x in xs[1..] <==> x in ys[1..]
  {
    hide LexLeq;
    assert forall zs: seq<string> | zs != [] :: x in zs <==> x == zs[0] || x in zs[1..];
  }

  lemma {:induction false} HealthyNamesArePending(dir: Directory, names: seq<string>)
    requires names == Sorted(dir.Keys)
    ensures HealthyOf(dir, names) == Pending(dir)
  {
    HealthyOfIsIncreasing(dir, names);
    IncreasingIsUnique(HealthyOf(dir, names), Pending(dir));
  }

  // ---------------------------------------------------------------- draining

  /** How one delivery attempt ends. A removal can fail after a successful delivery. */
  datatype Attempt = Removed | DeliveredOnly | Failed

  lemma {:induction false} PendingAfterRemoval(dir: Directory)
    requires Pending(dir) != []
    ensures Pending(dir - {Pending(dir)[0]}) == Pending(dir)[1..]
    ensures HealthyKeys(dir - {Pending(dir)[0]}) == HealthyKeys(dir) - {Pending(dir)[0]}
  {
    var keys, first := HealthyKeys(dir), Pending(dir)[0];
    assert HealthyKeys(dir - {first}) == keys - {first};
    FirstIsLeast(keys);
  }

  lemma {:induction false} FirstIsLeast(keys: set<string>)
    requires keys != {}
    ensures Sorted(keys)[0] == Least(keys) && Sorted(keys)[1..] == Sorted(keys - {Least(keys)})
  {
  }

  /** What a drain does to the directory and what it delivers, attempt by attempt. */
  function Drained(dir: Directory, outcomes: nat -> Attempt, i: nat): (Directory, seq<Item>)
    decreases |HealthyKeys(dir)|
  {
    var pending := Pending(dir);
    if pending == [] || outcomes(i) == Failed then (dir, [])
    else
      var key := pending[0];
      if outcomes(i) == DeliveredOnly then (dir, [dir[key].item])
      else
        PendingAfterRemoval(dir);
        var (rest, more) := Drained(dir - {key}, outcomes, i + 1);
        (rest, [dir[key].item] + more)
  }

  lemma {:induction false} DropFirst(entries: seq<string>, i: nat, pending: seq<string>)
    requires i < |entries| && entries[i..] <= pending
    ensures pending != [] && entries[i + 1..] <= pending[1..]
  {
    var rest := entries[i..];
    assert rest[1..] == entries[i + 1..] && pending[..|rest|] == rest;
    assert pending[1..][..|rest| - 1] == pending[..|rest|][1..];
  }

  lemma {:induction false} PendingIsStored(dir: Directory, key: string)
    requires key in Pending(dir)
    ensures key in dir && Healthy(dir[key])
  {
  }

  lemma {:induction false} FewerHealthy(dir: Directory, key: string)
    requires key in Pending(dir)
    ensures |HealthyKeys(dir - {key})| < |HealthyKeys(dir)|
  {
    assert HealthyKeys(dir - {key}) == HealthyKeys(dir) - {key};
  }

  // ---------------------------------------------------------------- guarantees

  /** Whatever happens, an entry leaves the outbox only after its own capture was delivered;
      entries that stay are untouched, and corrupt ones always stay. */
  lemma {:induction false} DrainConserves(dir: Directory, outcomes: nat -> Attempt, i: nat, key: string)
    requires key in dir
    ensures var (after, sent) := Drained(dir, outcomes, i);
      && (key in after ==> after[key] == dir[key])
      && (key in after || (Healthy(dir[key]) && dir[key].item in sent))
    decreases |HealthyKeys(dir)|
  {
    hide Sorted;
    var pending := Pending(dir);
    if pending != [] && outcomes(i) == Removed {
      PendingIsStored(dir, pending[0]);
      PendingAfterRemoval(dir);
      if key != pending[0] { DrainConserves(dir - {pending[0]}, outcomes, i + 1, key); }
      else { StaysRemoved(dir - {key}, outcomes, i + 1, key); }
    }
  }

  lemma {:induction false} StaysRemoved(dir: Directory, outcomes: nat -> Attempt, i: nat, key: string)
    requires key !in dir
    ensures key !in Drained(dir, outcomes, i).0
    decreases |HealthyKeys(dir)|
  {
    hide Sorted;
    if Pending(dir) != [] && outcomes(i) == Removed {
      PendingAfterRemoval(dir);
      StaysRemoved(dir - {Pending(dir)[0]}, outcomes, i + 1, key);
    }
  }

  /** Captures go out oldest first, each under its stored item and request id. */
  lemma {:induction false} DrainDeliversInOrder(dir: Directory, outcomes: nat -> Attempt, i: nat, j: nat)
    requires j < |Drained(dir, outcomes, i).1|
    ensures j < |Pending(dir)| && Pending(dir)[j] in dir
    ensures Drained(dir, outcomes, i).1[j] == dir[Pending(dir)[j]].item
    decreases |HealthyKeys(dir)|
  {
    hide Sorted;
    var pending := Pending(dir);
    PendingIsStored(dir, pending[0]);
    if outcomes(i) == Removed {
      PendingAfterRemoval(dir);
      if j > 0 {
        DrainDeliversInOrder(dir - {pending[0]}, outcomes, i + 1, j - 1);
        assert pending[1..][j - 1] == pending[j];
      }
    }
  }

  /** With a working server a drain empties the outbox of everything healthy, however many
      corrupt entries lie between. */
  lemma {:induction false} WorkingDrainEmpties(dir: Directory, outcomes: nat -> Attempt, i: nat)
    requires forall n: nat :: outcomes(n) == Removed
    ensures Pending(Drained(dir, outcomes, i).0) == []
    decreases |HealthyKeys(dir)|
  {
    hide Sorted;
    if Pending(dir) != [] {
      PendingAfterRemoval(dir);
      WorkingDrainEmpties(dir - {Pending(dir)[0]}, outcomes, i + 1);
    }
  }

  /** A failed delivery changes nothing and sends nothing; a failed removal leaves the entry in
      place although it was sent, so it will be sent again; and only a removal goes on to the
      next entry. */
  lemma {:induction false} DrainStops(dir: Directory, outcomes: nat -> Attempt, i: nat)
    requires Pending(dir) != []
    ensures Pending(dir)[0] in dir
    ensures var (after, sent), key := Drained(dir, outcomes, i), Pending(dir)[0];
      && (outcomes(i) == Failed ==> after == dir && sent == [])
      && (outcomes(i) == DeliveredOnly ==> after == dir && sent == [dir[key].item])
      && (outcomes(i) == Removed ==> key !in after && sent != [] && sent[0] == dir[key].item)
  {
    hide Sorted;
    PendingIsStored(dir, Pending(dir)[0]);
    PendingAfterRemoval(dir);
    StaysRemoved(dir - {Pending(dir)[0]}, outcomes, i + 1, Pending(dir)[0]);
  }

  /** The pending keys are the files that parse and are no larger than 8 MiB, each once. */
  lemma {:induction false} PendingAre(dir: Directory, key: string)
    ensures key in Pending(dir) <==> key in dir && dir[key].parses && dir[key].bytes <= 8 * 1024 * 1024
  {
  }

  /** **What a working server gets**: exactly the captures in files that parse and are no
      larger than 8 MiB, whose files then are gone; any other file stays as it is. */
  lemma {:induction false} WorkingDrainDelivers(dir: Directory, outcomes: nat -> Attempt, i: nat, key: string)
    requires (forall n: nat :: outcomes(n) == Removed) && key in dir
    ensures var (after, sent) := Drained(dir, outcomes, i);
      if dir[key].parses && dir[key].bytes <= 8 * 1024 * 1024 then key !in after && dir[key].item in sent
      else key in after && after[key] == dir[key]
  {
    hide Healthy, Pending, Drained;
    DrainConserves(dir, outcomes, i, key);
    WorkingDrainEmpties(dir, outcomes, i);
    PendingAre(dir, key);
    PendingAre(Drained(dir, outcomes, i).0, key);
    assert key !in Pending(dir) ==> !Healthy(dir[key]) by { HealthyIsPending(dir, key); }
  }

  lemma {:induction false} HealthyIsPending(dir: Directory, key: string)
    requires key in dir
    ensures key in Pending(dir) <==> Healthy(dir[key])
  {
  }

  /** Whatever happens, only such files are ever sent. */
  lemma {:induction false} SentFilesParse(dir: Directory, outcomes: nat -> Attempt, i: nat, j: nat)
    requires j < |Drained(dir, outcomes, i).1|
    ensures exists key :: key in dir && dir[key].parses && dir[key].bytes <= 8 * 1024 * 1024
                          && dir[key].item == Drained(dir, outcomes, i).1[j]
  {
    hide Pending, Drained;
    DrainDeliversInOrder(dir, outcomes, i, j);
    PendingAre(dir, Pending(dir)[j]);
  }

  // ---------------------------------------------------------------- interleaved runs

  /** An entry as listed: the drain delivers this copy. */
  datatype Entry = Entry(key: string, item: Item)

  /** Where the drain loop stands: not running, about to list, or working through a listed
      batch, `sent` telling whether its first entry was delivered and is to be removed. */
  datatype Phase = Idle | Listing | Batch(entries: seq<Entry>, sent: bool)

  /** The world over restarts: the directory, the drains scheduled behind the running one, the
      loop, the captures ever stored, and the deliveries. */
  datatype History = History(
    dir: Directory, scheduled: nat, phase: Phase, stored: map<string, Item>, delivered: seq<Item>)

  datatype Event =
    | Stored(key: string, item: Item, bytes: nat)
    | Garbage(key: string, file: File)
    | Crashed
    | Begins
    | Lists
    | Delivers
    | Removes
    | Fails

  /** Puts land at any moment, also while a delivery is awaited. Capture keys are one per
      turn, so a key is stored once and nobody else writes it. */
  predicate Allowed(h: History, e: Event) {
    match e
    case Stored(key, _, _) => key !in h.stored && key !in h.dir
    case Garbage(key, _) => key !in h.stored && key !in h.dir
    case Crashed => true
    case Begins => h.phase.Idle? && h.scheduled > 0
    case Lists => h.phase.Listing?
    case Delivers => h.phase.Batch? && h.phase.entries != [] && !h.phase.sent
    case Removes => h.phase.Batch? && h.phase.entries != [] && h.phase.sent
    case Fails => !h.phase.Idle?
  }

  function Snapshot(dir: Directory, keys: seq<string>): seq<Entry>
    requires forall key | key in keys :: key in dir
  {
    seq(|keys|, i requires 0 <= i < |keys| => Entry(keys[i], dir[keys[i]].item))
  }

  lemma {:induction false} BatchIsStored(dir: Directory, limit: nat)
    ensures forall key | key in Take(Pending(dir), limit) :: key in dir && Healthy(dir[key])
  {
    hide Sorted;
    forall key | key in Take(Pending(dir), limit) ensures key in dir && Healthy(dir[key]) { PendingIsStored(dir, key); }
  }

  function Listed(dir: Directory): Phase {
    BatchIsStored(dir, MAX_DRAIN_BATCH);
    var entries := Snapshot(dir, Take(Pending(dir), MAX_DRAIN_BATCH));
    if entries == [] then Idle else Batch(entries, false)
  }

  /** A listing takes the first 200 pending entries, or all of them, with the items on disk. */
  lemma {:induction false} BatchLimit(dir: Directory, i: nat)
    requires i < |Pending(dir)| && i < 200
    ensures Listed(dir).Batch? && !Listed(dir).sent
    ensures |Listed(dir).entries| == if |Pending(dir)| < 200 then |Pending(dir)| else 200
    ensures var key := Pending(dir)[i];
      key in dir && Listed(dir).entries[i] == Entry(key, dir[key].item)
  {
    hide Pending;
    BatchIsStored(dir, MAX_DRAIN_BATCH);
    PendingIsStored(dir, Pending(dir)[i]);
  }

  function Apply(h: History, e: Event): History
    requires Allowed(h, e)
  {
    match e
    case Stored(key, item, bytes) =>
      h.(dir := h.dir[key := File(bytes, item, true)], stored := h.stored[key := item], scheduled := h.scheduled + 1)
    case Garbage(key, file) => h.(dir := h.dir[key := file])
    case Crashed => h.(phase := Idle, scheduled := 1)
    case Begins => h.(phase := Listing, scheduled := h.scheduled - 1)
    case Lists => h.(phase := Listed(h.dir))
    case Delivers => h.(phase := Batch(h.phase.entries, true), delivered := h.delivered + [h.phase.entries[0].item])
    case Removes =>
      var rest := h.phase.entries[1..];
      h.(dir := h.dir - {h.phase.entries[0].key}, phase := if rest == [] then Listing else Batch(rest, false))
    case Fails => h.(phase := Idle)
  }

  /** Pending under its stored identity, or delivered under it at least once. */
  predicate Accounted(h: History, key: string)
    requires key in h.stored
  {
    (key in h.dir && h.dir[key].item == h.stored[key]) || h.stored[key] in h.delivered
  }

  /** The entries of the current batch: each still on disk as listed, each once, the first
      one delivered if it is to be removed. */
  predicate BatchHolds(h: History) {
    h.phase.Batch? ==>
      var entries := h.phase.entries;
      && (forall i | 0 <= i < |entries| ::
            entries[i].key in h.dir && Healthy(h.dir[entries[i].key]) && h.dir[entries[i].key].item == entries[i].item)
      && (forall i, j | 0 <= i < j < |entries| :: entries[i].key != entries[j].key)
      && (h.phase.sent && entries != [] ==> entries[0].item in h.delivered)
  }

  predicate Sane(h: History) {
    && BatchHolds(h)
    && (forall key | key in h.stored && key in h.dir :: h.dir[key].item == h.stored[key])
    && (forall key | key in h.stored :: Accounted(h, key))
  }

  lemma {:induction false} ListedHolds(h: History)
    ensures BatchHolds(h.(phase := Listed(h.dir)))
  {
    hide Sorted;
    BatchIsStored(h.dir, MAX_DRAIN_BATCH);
    var keys := Take(Pending(h.dir), MAX_DRAIN_BATCH);
    forall i | 0 <= i < |keys| ensures keys[i] in keys {}
    PendingIsDistinct(h.dir);
  }

  lemma {:induction false} PendingIsDistinct(dir: Directory)
    ensures Distinct(Pending(dir))
  {
  }

  /** Every event keeps the account, whatever lands between the drain's own steps. */
  lemma {:induction false} EventKeepsAccounts(h: History, e: Event)
    requires Sane(h) && Allowed(h, e)
    ensures Sane(Apply(h, e))
  {
    hide Healthy, Pending;
    match e
    case Lists => ListedHolds(h);
    case Removes =>
      var entries, t := h.phase.entries, Apply(h, e);
      var key := entries[0].key;
      assert forall x | x in t.dir :: x in h.dir && x != key && t.dir[x] == h.dir[x];
      forall x | x in t.stored ensures Accounted(t, x) {
        assert Accounted(h, x);
      }
    case _ =>
      var t := Apply(h, e);
      forall x | x in t.stored ensures Accounted(t, x) {
        if x in h.stored { assert Accounted(h, x); }
      }
  }

  ghost predicate IsRun(states: seq<History>, events: seq<Event>) {
    && |states| == |events| + 1
    && forall i | 0 <= i < |events| :: Allowed(states[i], events[i]) && states[i + 1] == Apply(states[i], events[i])
  }

  /** **At-least-once**: over every run of puts, listings, deliveries, removals, failures,
      crashes and stray files, interleaved in any order, each stored capture is pending or
      was delivered under its stored identity. */
  lemma {:induction false} NothingIsLost(states: seq<History>, events: seq<Event>)
    requires IsRun(states, events) && states[0].stored == map[] && !states[0].phase.Batch?
    ensures Sane(states[|events|])
  {
    hide Sane, Allowed, Apply;
    if events == [] {
      NothingStoredYet(states[0]);
    } else {
      var n := |events| - 1;
      NothingIsLost(states[..n + 1], events[..n]);
      EventKeepsAccounts(states[n], events[n]);
    }
  }

  lemma {:induction false} NothingStoredYet(h: History)
    requires h.stored == map[] && !h.phase.Batch?
    ensures Sane(h)
  {
  }

  // ---------------------------------------------------------------- delivery

  /** A capture stored by `put`: on disk as written, or delivered. */
  predicate Holds(h: History, key: string, item: Item, bytes: nat) {
    && key in h.stored && h.stored[key] == item
    && (key in h.dir ==> h.dir[key] == File(bytes, item, true))
    && (key !in h.dir ==> item in h.delivered)
  }

  lemma {:induction false} EventKeepsHolding(h: History, e: Event, key: string, item: Item, bytes: nat)
    requires Sane(h) && Allowed(h, e) && (Holds(h, key, item, bytes) || e == Stored(key, item, bytes))
    ensures Holds(Apply(h, e), key, item, bytes)
  {
    hide Healthy, Pending;
  }

  /** A loop at rest with nothing scheduled has left no stored capture of at most 8 MiB. */
  predicate Settled(h: History) {
    h.phase.Idle? && h.scheduled == 0 ==>
      forall key | key in h.stored && key in h.dir && h.dir[key].parses :: h.dir[key].bytes > 8 * 1024 * 1024
  }

  lemma {:induction false} EventStaysSettled(h: History, e: Event)
    requires Sane(h) && Settled(h) && Allowed(h, e) && !e.Fails?
    ensures Settled(Apply(h, e))
  {
    hide Healthy, Pending, Snapshot;
    if e.Lists? {
      ListsAll(h.dir);
      forall key | key in h.stored && key in h.dir && h.dir[key].parses && Listed(h.dir).Idle?
        ensures h.dir[key].bytes > 8 * 1024 * 1024
      {
        PendingAre(h.dir, key);
      }
    }
  }

  /** **Every capture of at most 8 MiB is delivered**: over any interleaving in which no call
      fails — puts during a drain, crashes and stray files included — once the loop is at
      rest with nothing scheduled, the file of every such capture is gone and its item was
      sent. */
  lemma {:induction false} RestingRunDelivers(states: seq<History>, events: seq<Event>, i: nat)
    requires IsRun(states, events) && states[0].stored == map[] && !states[0].phase.Batch?
    requires forall j | 0 <= j < |events| :: !events[j].Fails?
    requires i < |events| && events[i].Stored? && events[i].bytes <= 8 * 1024 * 1024
    requires var last := states[|events|]; last.phase.Idle? && last.scheduled == 0
    ensures var last := states[|events|]; events[i].key !in last.dir && events[i].item in last.delivered
  {
    hide Sane, Allowed, Apply, IsRun;
    StaysSettled(states, events);
    StaysHeld(states, events, i, |events|);
  }

  lemma {:induction false} StaysSettled(states: seq<History>, events: seq<Event>)
    requires IsRun(states, events) && states[0].stored == map[] && !states[0].phase.Batch?
    requires forall j | 0 <= j < |events| :: !events[j].Fails?
    ensures |states| == |events| + 1 && Settled(states[|events|])
  {
    hide Sane, Allowed, Apply;
    if events == [] {
    } else {
      var n := |events| - 1;
      StaysSettled(states[..n + 1], events[..n]);
      NothingIsLost(states[..n + 1], events[..n]);
      EventStaysSettled(states[n], events[n]);
    }
  }

  lemma {:induction false} StaysHeld(states: seq<History>, events: seq<Event>, i: nat, n: nat)
    requires IsRun(states, events) && states[0].stored == map[] && !states[0].phase.Batch?
    requires i < n <= |events| && events[i].Stored?
    ensures |states| == |events| + 1 && Holds(states[n], events[i].key, events[i].item, events[i].bytes)
  {
    hide Sane, Allowed, Apply, Holds;
    if i < n - 1 { StaysHeld(states, events, i, n - 1); }
    NothingIsLost(states[..n], events[..n - 1]);
    EventKeepsHolding(states[n - 1], events[n - 1], events[i].key, events[i].item, events[i].bytes);
  }

  /** **Corrupt files are neither sent nor touched**: in every step of every run, a file that
      does not parse or is larger than 8 MiB stays as it is, and what is sent comes from a
      file that parses and is not. */
  lemma {:induction false} CorruptFilesStay(h: History, e: Event, key: string)
    requires Sane(h) && Allowed(h, e)
    ensures var t := Apply(h, e);
      && (key in h.dir && !(h.dir[key].parses && h.dir[key].bytes <= 8 * 1024 * 1024) ==> key in t.dir && t.dir[key] == h.dir[key])
      && (t.delivered == h.delivered || exists x :: x in h.dir && h.dir[x].parses && h.dir[x].bytes <= 8 * 1024 * 1024
                                                    && t.delivered == h.delivered + [h.dir[x].item])
  {
    hide Pending;
    if e.Delivers? || e.Removes? {
      var x := h.phase.entries[0].key;
      assert x in h.dir && Healthy(h.dir[x]);
    }
  }

  // ---------------------------------------------------------------- quiet runs

  /** The drain's own steps: no put, no stray file, no crash. */
  predicate Quiet(e: Event) {
    e.Begins? || e.Lists? || e.Delivers? || e.Removes? || e.Fails?
  }

  function Rank(p: Phase): nat {
    match p
    case Idle => 0
    case Listing => 3
    case Batch(_, sent) => if sent then 1 else 2
  }

  /** What is left to do, at most. */
  function Work(h: History): nat {
    4 * (h.scheduled + |HealthyKeys(h.dir)|) + Rank(h.phase)
  }

  lemma {:induction false} QuietStepWorks(h: History, e: Event)
    requires Sane(h) && Allowed(h, e) && Quiet(e)
    ensures Work(Apply(h, e)) < Work(h)
  {
    hide Healthy, Pending, Snapshot;
    if e.Removes? {
      var key := h.phase.entries[0].key;
      assert key in HealthyKeys(h.dir);
      assert HealthyKeys(h.dir - {key}) == HealthyKeys(h.dir) - {key};
    }
  }

  /** **Draining terminates**: without new puts the loop takes no more steps than there is
      work, whatever fails on the way. */
  lemma {:induction false} QuietRunsEnd(states: seq<History>, events: seq<Event>)
    requires IsRun(states, events) && Sane(states[0]) && forall i | 0 <= i < |events| :: Quiet(events[i])
    ensures Sane(states[|events|]) && |events| + Work(states[|events|]) <= Work(states[0])
  {
    hide Sane, Allowed, Apply, Work, Quiet;
    if events != [] {
      var n := |events| - 1;
      QuietRunsEnd(states[..n + 1], events[..n]);
      EventKeepsAccounts(states[n], events[n]);
      QuietStepWorks(states[n], events[n]);
    }
  }

  /** A loop with nothing scheduled behind it has ended for want of healthy entries. */
  predicate EndedEmpty(h: History) {
    h.phase.Idle? && h.scheduled == 0 ==> Pending(h.dir) == []
  }

  /** **Nothing healthy stays behind a corrupt entry**: a started drain that meets no failure
      and comes to rest leaves no healthy entry, however many corrupt ones lie between. */
  lemma {:induction false} UndisturbedRunEmpties(states: seq<History>, events: seq<Event>)
    requires IsRun(states, events) && EndedEmpty(states[0])
    requires forall i | 0 <= i < |events| :: Quiet(events[i]) && !events[i].Fails?
    ensures EndedEmpty(states[|events|])
  {
    hide Pending;
    if events != [] {
      var n := |events| - 1;
      UndisturbedRunEmpties(states[..n + 1], events[..n]);
      if events[n].Lists? { ListsAll(states[n].dir); }
    }
  }

  lemma {:induction false} ListsAll(dir: Directory)
    ensures Listed(dir).Idle? <==> Pending(dir) == []
  {
    hide Pending;
  }

  // ---------------------------------------------------------------- the object

  /** The bridge: its outbox, its drain loop, and ghost records of what was stored and sent. */
  class Bridge {
    var dir: Directory
    var scheduled: nat
    var phase: Phase
    ghost var stored: map<string, Item>
    ghost var delivered: seq<Item>

    ghost function Model(): History
      reads this
    {
      History(dir, scheduled, phase, stored, delivered)
    }

    /** Opening the outbox schedules a first drain for what an earlier process left. */
    constructor (files: Directory)
      ensures Model() == History(files, 1, Idle, map[], [])
    {
      dir, scheduled, phase, stored, delivered := files, 1, Idle, map[], [];
    }

    /** `#capture`: write a temporary file, sync, rename it into place, schedule a drain. A
        crash before the rename stores nothing. */
    method Capture(key: string, item: Item, bytes: nat, renamed: bool)
      modifies this
      ensures !renamed ==> Model() == old(Model())
      ensures renamed ==> dir == old(dir)[key := File(bytes, item, true)] && scheduled == old(scheduled) + 1 && phase == old(phase)
      ensures renamed && Allowed(old(Model()), Stored(key, item, bytes)) ==> Model() == Apply(old(Model()), Stored(key, item, bytes))
    {
      if renamed {
        dir := dir[key := File(bytes, item, true)];
        stored := stored[key := item];
        scheduled := scheduled + 1;
      }
    }

    /** The next step of the drain loop, `ok` telling whether the awaited call succeeds.
        Captures may come between any two of them. */
    method Step(ok: bool) returns (e: Event)
      requires Sane(Model()) && (phase.Idle? ==> scheduled > 0)
      modifies this
      ensures Allowed(old(Model()), e) && Quiet(e) && (!ok ==> old(phase).Batch? ==> e.Fails?)
      ensures Model() == Apply(old(Model()), e) && Sane(Model())
    {
      hide Sane, Pending, Healthy;
      ghost var before := Model();
      if phase.Idle? {
        e := Begins;
        scheduled, phase := scheduled - 1, Listing;
      } else if phase.Listing? {
        e := Lists;
        BatchIsStored(dir, MAX_DRAIN_BATCH);
        var keys, corrupt := List(dir, MAX_DRAIN_BATCH);
        var entries := Snapshot(dir, keys);
        phase := if entries == [] then Idle else Batch(entries, false);
      } else if !ok || phase.entries == [] {
        e := Fails;
        phase := Idle;
      } else if !phase.sent {
        e := Delivers;
        delivered := delivered + [phase.entries[0].item];
        phase := Batch(phase.entries, true);
      } else {
        e := Removes;
        var rest := phase.entries[1..];
        dir := dir - {phase.entries[0].key};
        phase := if rest == [] then Listing else Batch(rest, false);
      }
      EventKeepsAccounts(before, e);
    }

    /** The whole batch loop when nothing else happens meanwhile: list, deliver each entry,
        remove it; stop at the first attempt that does not end in a removal. Terminates
        because every full batch shrinks the outbox. */
    method Drain(outcomes: nat -> Attempt)
      modifies `dir, `delivered
      ensures (dir, delivered) == (Drained(old(dir), outcomes, 0).0, old(delivered) + Drained(old(dir), outcomes, 0).1)
    {
      hide Sorted, HealthyKeys, Pending;
      ghost var whole := Drained(dir, outcomes, 0);
      var n: nat := 0;
      while true
        invariant whole.0 == Drained(dir, outcomes, n).0
        invariant old(delivered) + whole.1 == delivered + Drained(dir, outcomes, n).1
        decreases |HealthyKeys(dir)|
      {
        var entries, corrupt := List(dir, MAX_DRAIN_BATCH);
        if entries == [] {
          assert Pending(dir) == [] && delivered + [] == delivered;
          return;
        }
        ghost var before := dir;
        for i := 0 to |entries|
          invariant entries[i..] <= Pending(dir)
          invariant |HealthyKeys(dir)| <= |HealthyKeys(before)|
          invariant i > 0 ==> |HealthyKeys(dir)| < |HealthyKeys(before)|
          invariant whole.0 == Drained(dir, outcomes, n).0
          invariant old(delivered) + whole.1 == delivered + Drained(dir, outcomes, n).1
        {
          var key := entries[i];
          assert Pending(dir)[0] == entries[i..][0] == key;
          PendingIsStored(dir, key);
          PendingAfterRemoval(dir);
          if outcomes(n) == Failed {
            assert delivered + [] == delivered;
            return;
          }
          delivered := delivered + [dir[key].item];
          if outcomes(n) == DeliveredOnly { return; }
          DropFirst(entries, i, Pending(dir));
          FewerHealthy(dir, key);
          dir := dir - {key};
          n := n + 1;
        }
      }
    }
  }

}
