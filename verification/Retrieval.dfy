/** Graph-walk selection of the fair retrieval benchmark
    (core/examples/fair_context_retrieval.rs:257-324): breadth-first order from a seed over
    undirected edges, and strict budgeting of an ordered list. */
module Retrieval {
  import opened Text

  type Graph = seq<(string, string)>

  function Across(e: (string, string), id: string): string {
    if e.0 == id then e.1 else e.0
  }

  function NeighborSet(g: Graph, id: string): set<string> {
    set e | e in g && (e.0 == id || e.1 == id) :: Across(e, id)
  }

  /** `neighbors`: collected into an ordered set, so returned in increasing order. */
  method Neighbors(g: Graph, id: string) returns (r: seq<string>)
    ensures r == Sorted(NeighborSet(g, id))
    ensures forall y :: y in r <==> (id, y) in g || (y, id) in g
  {
    var found: set<string> := {};
    for i := 0 to |g|
      invariant found == NeighborSet(g[..i], id)
    {
      assert g[..i + 1] == g[..i] + [g[i]];
      if g[i].0 == id { found := found + {g[i].1}; } else if g[i].1 == id { found := found + {g[i].0}; }
    }
    assert g[..|g|] == g;
    forall y ensures y in found <==> (id, y) in g || (y, id) in g { NeighborsAreJoined(g, id, y); }
    r := Sorted(found);
  }

  // ---------------------------------------------------------------- paths

  /** An edge joins its ends both ways. */
  predicate Joined(g: Graph, x: string, y: string) {
    (x, y) in g || (y, x) in g
  }

  lemma {:induction false} NeighborsAreJoined(g: Graph, x: string, y: string)
    ensures y in NeighborSet(g, x) <==> Joined(g, x, y)
  {
    if (x, y) in g { assert Across((x, y), x) == y; }
    if (y, x) in g { assert Across((y, x), x) == y; }
  }

  /** A walk over the edges from `x` to `y`. */
  predicate Leads(g: Graph, path: seq<string>, x: string, y: string) {
    && path != [] && path[0] == x && path[|path| - 1] == y
    && forall i | 0 <= i < |path| - 1 :: Joined(g, path[i], path[i + 1])
  }

  /** What the search promises, told by paths alone: exactly the nodes some path leads to, each
      once, and none before a node a shorter path leads to. */
  ghost predicate NearestFirst(g: Graph, seed: string, out: seq<string>) {
    && (forall i, j | 0 <= i < j < |out| :: out[i] != out[j])
    && (forall x :: x in out <==> exists path :: Leads(g, path, seed, x))
    && (forall i, j, path | 0 <= i < j < |out| && Leads(g, path, seed, out[j]) ::
          exists shorter :: Leads(g, shorter, seed, out[i]) && |shorter| <= |path|)
  }

  lemma {:induction false} BallHasPath(g: Graph, seed: string, n: nat, x: string) returns (path: seq<string>)
    requires x in Ball(g, seed, n)
    ensures Leads(g, path, seed, x) && |path| <= n + 1
  {
    hide NeighborSet;
    if n == 0 {
      path := [seed];
    } else if x in Ball(g, seed, n - 1) {
      path := BallHasPath(g, seed, n - 1, x);
    } else {
      var y := BallLast(g, seed, n, x);
      NeighborsAreJoined(g, y, x);
      path := BallHasPath(g, seed, n - 1, y);
      path := path + [x];
    }
  }

  lemma {:induction false} PathInBall(g: Graph, seed: string, path: seq<string>, x: string)
    requires Leads(g, path, seed, x)
    ensures x in Ball(g, seed, |path| - 1)
  {
    hide NeighborSet;
    if |path| > 1 {
      var n := |path| - 2;
      PathInBall(g, seed, path[..n + 1], path[n]);
      NeighborsAreJoined(g, path[n], path[n + 1]);
      BallStep(g, seed, n, path[n], x);
    }
  }

  lemma {:induction false} OrderByPaths(g: Graph, seed: string, out: seq<string>)
    requires IsBfsOrder(g, seed, out)
    ensures NearestFirst(g, seed, out)
  {
    hide Ball, Joined;
    forall x ensures x in out <==> exists path :: Leads(g, path, seed, x) {
      if x in out {
        var n: nat :| x in Ball(g, seed, n);
        var path := BallHasPath(g, seed, n, x);
      }
      if path :| Leads(g, path, seed, x) { PathInBall(g, seed, path, x); }
    }
    forall i, j, path | 0 <= i < j < |out| && Leads(g, path, seed, out[j])
      ensures exists shorter :: Leads(g, shorter, seed, out[i]) && |shorter| <= |path|
    {
      PathInBall(g, seed, path, out[j]);
      assert NoFarther(g, seed, out[i], out[j]);
      var shorter := BallHasPath(g, seed, |path| - 1, out[i]);
    }
  }

  // ---------------------------------------------------------------- distance

  /** The nodes at most `n` hops from the seed. */
  ghost function Ball(g: Graph, seed: string, n: nat): set<string> {
    if n == 0 then {seed}
    else
      var inner := Ball(g, seed, n - 1);
      inner + (set x, y | x in inner && y in NeighborSet(g, x) :: y)
  }

  ghost predicate Reachable(g: Graph, seed: string, x: string) {
    exists n: nat :: x in Ball(g, seed, n)
  }

  /** `a` is no farther than `b`. */
  ghost predicate NoFarther(g: Graph, seed: string, a: string, b: string) {
    forall n: nat :: b in Ball(g, seed, n) ==> a in Ball(g, seed, n)
  }

  lemma {:induction false} BallHasSeed(g: Graph, seed: string, n: nat)
    ensures seed in Ball(g, seed, n)
  {
    if n > 0 { BallHasSeed(g, seed, n - 1); }
  }

  lemma {:induction false} BallZero(g: Graph, seed: string)
    ensures Ball(g, seed, 0) == {seed}
  {
  }

  lemma {:induction false} BallGrows(g: Graph, seed: string, n: nat)
    requires n > 0
    ensures Ball(g, seed, n - 1) <= Ball(g, seed, n)
  {
  }

  lemma {:induction false} BallStep(g: Graph, seed: string, n: nat, x: string, y: string)
    requires x in Ball(g, seed, n) && y in NeighborSet(g, x)
    ensures y in Ball(g, seed, n + 1)
  {
  }

  lemma {:induction false} BallLast(g: Graph, seed: string, n: nat, y: string) returns (x: string)
    requires n > 0 && y in Ball(g, seed, n) && y !in Ball(g, seed, n - 1)
    ensures x in Ball(g, seed, n - 1) && y in NeighborSet(g, x)
  {
    x :| x in Ball(g, seed, n - 1) && y in NeighborSet(g, x);
  }

  // ---------------------------------------------------------------- the frontier

  /** The first occurrences of unseen ids in the queue. Duplicates are pushed freely; this is
      the queue a duplicate-free search would hold. */
  ghost function Frontier(queue: seq<string>, seen: set<string>): seq<string> {
    if queue == [] then []
    else if queue[0] in seen then Frontier(queue[1..], seen)
    else [queue[0]] + Frontier(queue[1..], seen + {queue[0]})
  }

  lemma {:induction false} FrontierMembers(queue: seq<string>, seen: set<string>)
    ensures forall x :: x in Frontier(queue, seen) <==> x in queue && x !in seen
  {
    if queue != [] {
      FrontierMembers(queue[1..], seen);
      FrontierMembers(queue[1..], seen + {queue[0]});
      assert forall x :: x in queue <==> x == queue[0] || x in queue[1..];
    }
  }

  /** Pushing one id appends it to the frontier unless it is already known. */
  lemma {:induction false} FrontierPush(queue: seq<string>, seen: set<string>, v: string)
    ensures Frontier(queue + [v], seen) ==
      Frontier(queue, seen) + (if v in seen || v in queue then [] else [v])
  {
    if queue == [] {
      assert (queue + [v])[1..] == [];
    } else {
      assert (queue + [v])[1..] == queue[1..] + [v];
      FrontierPush(queue[1..], seen, v);
      FrontierPush(queue[1..], seen + {queue[0]}, v);
      assert v in queue <==> v == queue[0] || v in queue[1..];
    }
  }

  // ---------------------------------------------------------------- the invariant

  /** Queue order is distance order, one hop deep; everything nearer than the front is out;
      likewise everything nearer than any output node; every neighbour of an output node is
      known. */
  ghost predicate Searching(g: Graph, seed: string, out: seq<string>, front: seq<string>) {
    && (forall i, j | 0 <= i < j < |out| :: out[i] != out[j] && NoFarther(g, seed, out[i], out[j]))
    && (forall x | x in out || x in front :: Reachable(g, seed, x))
    && (forall x, y | x in out && y in NeighborSet(g, x) :: y in out || y in front)
    && (seed in out || seed in front)
    && (forall i, j | 0 <= i < j < |front| :: NoFarther(g, seed, front[i], front[j]))
    && (forall x, n: nat | x in front && front[0] in Ball(g, seed, n) :: x in Ball(g, seed, n + 1))
    && (forall x, n: nat | x in Ball(g, seed, n) && front != [] && front[0] !in Ball(g, seed, n) :: x in out)
    && (forall o, x, n: nat | o in out && o !in Ball(g, seed, n) && x in Ball(g, seed, n) :: x in out)
  }

  lemma {:induction false} StartsSearching(g: Graph, seed: string)
    ensures Searching(g, seed, [], [seed])
  {
    forall n: nat ensures seed in Ball(g, seed, n) { BallHasSeed(g, seed, n); }
    assert seed in Ball(g, seed, 0);
  }

  /** A newly met neighbour of the front is exactly one hop beyond it: any ball holding the
      neighbour holds the front one step earlier. */
  lemma {:induction false} NewNeighborIsBeyond(g: Graph, seed: string, out: seq<string>, front: seq<string>, v: string, n: nat)
    requires Searching(g, seed, out, front) && front != []
    requires v in NeighborSet(g, front[0]) && v !in out && v !in front
    requires v in Ball(g, seed, n)
    ensures n > 0 && front[0] in Ball(g, seed, n - 1)
  {
    if n > 0 && v !in Ball(g, seed, n - 1) {
      var x := BallLast(g, seed, n, v);
      assert x !in out;
    }
  }

  /** Output the front and append its new neighbours. */
  lemma {:induction false} AdvanceKeepsSearching(g: Graph, seed: string, out: seq<string>, front: seq<string>, found: seq<string>)
    requires Searching(g, seed, out, front) && front != [] && front[0] !in out && front[0] !in front[1..]
    requires forall v | v in found :: v in NeighborSet(g, front[0]) && v !in out && v !in front
    requires forall y | y in NeighborSet(g, front[0]) :: y in out || y in front || y in found
    ensures Searching(g, seed, out + [front[0]], front[1..] + found)
  {
    var x, rest := front[0], front[1..];
    var out', front' := out + [x], front[1..] + found;
    assert front == [x] + rest;
    forall i, j | 0 <= i < j < |out'| ensures out'[i] != out'[j] && NoFarther(g, seed, out'[i], out'[j]) {
      if j == |out| { FrontIsLast(g, seed, out, front, out[i]); }
    }
    forall v | v in found ensures Reachable(g, seed, v) { NeighborIsReachable(g, seed, x, v); }
    forall i, j | 0 <= i < j < |front'| ensures NoFarther(g, seed, front'[i], front'[j]) {
      if j >= |rest| { FreshIsLast(g, seed, out, front, found, front'[i], front'[j]); }
      else { assert front'[i] == front[i + 1] && front'[j] == front[j + 1]; }
    }
    forall y, n: nat | y in front' && front'[0] in Ball(g, seed, n) ensures y in Ball(g, seed, n + 1) {
      NextIsNear(g, seed, out, front, found, y, n);
    }
    forall y, n: nat | y in Ball(g, seed, n) && front' != [] && front'[0] !in Ball(g, seed, n) ensures y in out' {
      NearerIsOut(g, seed, out, front, found, y, n);
    }
  }

  lemma {:induction false} NeighborIsReachable(g: Graph, seed: string, x: string, v: string)
    requires Reachable(g, seed, x) && v in NeighborSet(g, x)
    ensures Reachable(g, seed, v)
  {
    var n: nat :| x in Ball(g, seed, n);
    BallStep(g, seed, n, x, v);
  }

  /** Nothing output before the front is farther than it: had it been, the front would have
      been out already. */
  lemma {:induction false} FrontIsLast(g: Graph, seed: string, out: seq<string>, front: seq<string>, o: string)
    requires Searching(g, seed, out, front) && front != [] && front[0] !in out && o in out
    ensures NoFarther(g, seed, o, front[0])
  {
    hide Ball, NeighborSet;
  }

  lemma {:induction false} FreshIsLast(g: Graph, seed: string, out: seq<string>, front: seq<string>, found: seq<string>, a: string, b: string)
    requires Searching(g, seed, out, front) && front != []
    requires forall v | v in found :: v in NeighborSet(g, front[0]) && v !in out && v !in front
    requires b in found && (a in front || a in found)
    ensures NoFarther(g, seed, a, b)
  {
    hide Ball, NeighborSet;
    forall n: nat | b in Ball(g, seed, n) ensures a in Ball(g, seed, n) {
      NewNeighborIsBeyond(g, seed, out, front, b, n);
      if a in found { BallStep(g, seed, n - 1, front[0], a); } else { assert a in Ball(g, seed, n - 1 + 1); }
    }
  }

  lemma {:induction false} NextIsNear(g: Graph, seed: string, out: seq<string>, front: seq<string>, found: seq<string>, y: string, n: nat)
    requires Searching(g, seed, out, front) && front != []
    requires forall v | v in found :: v in NeighborSet(g, front[0]) && v !in out && v !in front
    requires var next := front[1..] + found; y in next && next[0] in Ball(g, seed, n)
    ensures y in Ball(g, seed, n + 1)
  {
    var next := front[1..] + found;
    assert front[0] in Ball(g, seed, n) by {
      if |front| > 1 { assert NoFarther(g, seed, front[0], front[1]); }
      else { NewNeighborIsBeyond(g, seed, out, front, next[0], n); }
    }
    if y in found { BallStep(g, seed, n, front[0], y); } else { assert y in front; }
  }

  lemma {:induction false} NearerIsOut(
    g: Graph, seed: string, out: seq<string>, front: seq<string>, found: seq<string>, y: string, n: nat)
    requires Searching(g, seed, out, front) && front != []
    requires forall v | v in found :: v in NeighborSet(g, front[0]) && v !in out && v !in front
    requires forall v | v in NeighborSet(g, front[0]) :: v in out || v in front || v in found
    requires var next := front[1..] + found;
      next != [] && next[0] !in Ball(g, seed, n) && y in Ball(g, seed, n)
    ensures y in out + [front[0]]
    decreases n
  {
    hide NeighborSet, Ball;
    var next := front[1..] + found;
    if n > 0 { BallGrows(g, seed, n); }
    if n == 0 {
      BallZero(g, seed);
    } else if y in Ball(g, seed, n - 1) {
      NearerIsOut(g, seed, out, front, found, y, n - 1);
    } else {
      var x := BallLast(g, seed, n, y);
      NearerIsOut(g, seed, out, front, found, x, n - 1);
    }
    if y !in out && y != front[0] {
      assert y in next;
      FirstIsNearest(g, seed, out, front, found, y);
      assert false;
    }
  }

  lemma {:induction false} FirstIsNearest(g: Graph, seed: string, out: seq<string>, front: seq<string>, found: seq<string>, y: string)
    requires Searching(g, seed, out, front) && front != []
    requires forall v | v in found :: v in NeighborSet(g, front[0]) && v !in out && v !in front
    requires y in front[1..] + found
    ensures NoFarther(g, seed, (front[1..] + found)[0], y)
  {
    var next := front[1..] + found;
    if y in found {
      FreshIsLast(g, seed, out, front, found, next[0], y);
    } else {
      var j :| 0 < j < |front| && front[j] == y;
      assert next[0] == front[1];
    }
  }

  // ---------------------------------------------------------------- the search

  lemma {:induction false} ClosedHoldsBall(g: Graph, seed: string, out: seq<string>, n: nat)
    requires seed in out && forall x, y | x in out && y in NeighborSet(g, x) :: y in out
    ensures forall x | x in Ball(g, seed, n) :: x in out
  {
    if n > 0 { ClosedHoldsBall(g, seed, out, n - 1); }
  }

  /** The result of a finished search: every reachable node once, nearest first. */
  ghost predicate IsBfsOrder(g: Graph, seed: string, out: seq<string>) {
    && (forall i, j | 0 <= i < j < |out| :: out[i] != out[j] && NoFarther(g, seed, out[i], out[j]))
    && (forall x :: x in out <==> Reachable(g, seed, x))
  }

  lemma {:induction false} FinishedSearch(g: Graph, seed: string, out: seq<string>)
    requires Searching(g, seed, out, [])
    ensures IsBfsOrder(g, seed, out)
  {
    forall x | Reachable(g, seed, x) ensures x in out {
      var n: nat :| x in Ball(g, seed, n);
      ClosedHoldsBall(g, seed, out, n);
    }
  }

  ghost function Nodes(g: Graph, seed: string): set<string> {
    {seed} + (set e | e in g :: e.0) + (set e | e in g :: e.1)
  }

  /** `bfs_order`: ids may be queued many times; only the first pop of each counts. */
  method BfsOrder(g: Graph, seed: string) returns (out: seq<string>)
    ensures NearestFirst(g, seed, out)
  {
    hide Searching, NeighborSet, IsBfsOrder, NearestFirst;
    var queue, seen := [seed], {};
    out := [];
    assert Frontier(queue, seen) == [seed];
    StartsSearching(g, seed);
    while queue != []
      invariant Searching(g, seed, out, Frontier(queue, seen))
      invariant forall x :: x in out <==> x in seen
      invariant seen <= Nodes(g, seed) && forall x | x in queue :: x in Nodes(g, seed)
      decreases Nodes(g, seed) - seen, |queue|
    {
      var id := queue[0];
      queue := queue[1..];
      if id !in seen {
        ghost var front := Frontier([id] + queue, seen);
        assert ([id] + queue)[1..] == queue;
        ghost var before := seen;
        seen := seen + {id};
        assert front == [id] + Frontier(queue, seen);
        FrontierMembers(queue, seen);
        var next := Neighbors(g, id);
        ghost var found: seq<string>;
        queue, found := PushUnseen(queue, seen, next);
        NeighborsAreNodes(g, seed, id);
        FrontAdvances(g, seed, out, front, found, seen, queue);
        out := out + [id];
      }
    }
    FinishedSearch(g, seed, out);
    OrderByPaths(g, seed, out);
  }

  lemma {:induction false} NeighborsAreNodes(g: Graph, seed: string, id: string)
    ensures NeighborSet(g, id) <= Nodes(g, seed)
  {
  }

  /** The queue after the pop and pushes is the frontier the invariant wants. */
  lemma {:induction false} FrontAdvances(g: Graph, seed: string, out: seq<string>, front: seq<string>, found: seq<string>,
                      seen: set<string>, queue: seq<string>)
    requires Searching(g, seed, out, front) && front != [] && front[0] !in out
    requires forall x :: x in seen <==> x in out || x == front[0]
    requires front[0] !in front[1..] && Frontier(queue, seen) == front[1..] + found
    requires forall v | v in found :: v in Sorted(NeighborSet(g, front[0])) && v !in seen && v !in front[1..]
    requires forall v | v in Sorted(NeighborSet(g, front[0])) && v !in seen :: v in front[1..] || v in found
    ensures Searching(g, seed, out + [front[0]], Frontier(queue, seen))
  {
    hide Searching, NeighborSet, Frontier;
    assert forall v :: v in front <==> v == front[0] || v in front[1..];
    AdvanceKeepsSearching(g, seed, out, front, found);
  }

  /** Push every unseen neighbour, in order; `found` are those the queue did not hold. */
  method PushUnseen(start: seq<string>, seen: set<string>, next: seq<string>)
    returns (queue: seq<string>, ghost found: seq<string>)
    ensures Frontier(queue, seen) == Frontier(start, seen) + found
    ensures forall x :: x in queue ==> x in start || x in next
    ensures forall v | v in found :: v in next && v !in seen && v !in Frontier(start, seen)
    ensures forall v | v in next && v !in seen :: v in Frontier(start, seen) || v in found
  {
    hide Frontier;
    queue, found := start, [];
    FrontierMembers(start, seen);
    for i := 0 to |next|
      invariant Frontier(queue, seen) == Frontier(start, seen) + found
      invariant forall x :: x in queue ==> x in start || x in next
      invariant forall v | v in found :: v in next && v !in seen && v !in Frontier(start, seen)
      invariant forall j | 0 <= j < i && next[j] !in seen :: next[j] in Frontier(start, seen) || next[j] in found
    {
      var v := next[i];
      if v !in seen {
        FrontierPush(queue, seen, v);
        FrontierMembers(queue, seen);
        if v !in queue { found := found + [v]; }
        queue := queue + [v];
      }
    }
  }

  // ---------------------------------------------------------------- strict budget

  /** What `strict_budget` does from `used` tokens on. */
  function Budgeted(cost: map<string, nat>, ordered: seq<string>, budget: nat, used: nat): seq<string> {
    if ordered == [] then []
    else
      var id := ordered[0];
      if id in cost && used + cost[id] <= budget
      then [id] + Budgeted(cost, ordered[1..], budget, used + cost[id])
      else Budgeted(cost, ordered[1..], budget, used)
  }

  function Spent(cost: map<string, nat>, ids: seq<string>): nat {
    if ids == [] then 0 else (if ids[0] in cost then cost[ids[0]] else 0) + Spent(cost, ids[1..])
  }

  /** The document at `k` is known and fits on top of what was kept before it. */
  predicate FitsAt(cost: map<string, nat>, ordered: seq<string>, budget: nat, used: nat, k: nat)
    requires k < |ordered|
  {
    ordered[k] in cost
    && used + Spent(cost, Budgeted(cost, ordered[..k], budget, used)) + cost[ordered[k]] <= budget
  }

  /** The selection, met in order, takes exactly the known documents that fit when met: an
      in-order subsequence in which everything skipped was unknown or too large. */
  lemma {:induction false} BudgetTakesWhatFits(cost: map<string, nat>, ordered: seq<string>, budget: nat, used: nat, k: nat)
    requires k < |ordered|
    ensures Budgeted(cost, ordered[..k + 1], budget, used) ==
      Budgeted(cost, ordered[..k], budget, used)
      + (if FitsAt(cost, ordered, budget, used, k) then [ordered[k]] else [])
  {
    if k == 0 {
      assert ordered[..1] == [ordered[0]] && ordered[..0] == [] && [ordered[0]][1..] == [];
    } else {
      var id, rest := ordered[0], ordered[1..];
      var spent := if id in cost && used + cost[id] <= budget then used + cost[id] else used;
      BudgetTakesWhatFits(cost, rest, budget, spent, k - 1);
      assert ordered[..k + 1][1..] == rest[..k] && ordered[..k][1..] == rest[..k - 1];
      assert rest[k - 1] == ordered[k];
    }
  }

  lemma {:induction false} BudgetIsKept(cost: map<string, nat>, ordered: seq<string>, budget: nat, used: nat)
    requires used <= budget
    ensures used + Spent(cost, Budgeted(cost, ordered, budget, used)) <= budget
  {
    if ordered != [] {
      var id := ordered[0];
      BudgetIsKept(cost, ordered[1..], budget, if id in cost && used + cost[id] <= budget then used + cost[id] else used);
    }
  }

  /** `strict_budget`. */
  method StrictBudget(cost: map<string, nat>, ordered: seq<string>, budget: nat) returns (selected: seq<string>)
    ensures selected == Budgeted(cost, ordered, budget, 0)
  {
    selected := [];
    var used: nat := 0;
    for i := 0 to |ordered|
      invariant selected + Budgeted(cost, ordered[i..], budget, used) == Budgeted(cost, ordered, budget, 0)
    {
      assert ordered[i..][1..] == ordered[i + 1..];
      var id := ordered[i];
      if id in cost && used + cost[id] <= budget {
        used := used + cost[id];
        selected := selected + [id];
      }
    }
  }
}
