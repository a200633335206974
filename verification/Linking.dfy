/** Whole-graph resolution as a rewrite of the edge vector (core/src/memory.rs:2965-3007):
    what pruning keeps, and exactly when two indices resolve one vector alike. */
module Linking {
  import opened Ops
  import opened Memory

  // ---------------------------------------------------------------- filtering in order

  /** The links whose edge is not in `drop`, in order. */
  ghost function Kept(edges: Edges, drop: iset<Edge>): Edges {
    if edges == [] then []
    else
      var rest := Kept(edges[..|edges| - 1], drop);
      var last := edges[|edges| - 1];
      if last.edge in drop then rest else rest + [last]
  }

  ghost function OwnedBy(index: Index): iset<Edge> {
    iset e | Owned(e, index)
  }

  ghost function UnownedBy(index: Index): iset<Edge> {
    iset e | !Owned(e, index)
  }

  ghost function Touching(path: Path): iset<Edge> {
    iset e: Edge | BelongsTo(e.source, path) || BelongsTo(e.target, path)
  }

  lemma {:induction false} RetainedIsKept(edges: Edges, index: Index)
    ensures Retained(edges, index) == Kept(edges, OwnedBy(index))
  {
    if edges != [] { RetainedIsKept(edges[..|edges| - 1], index); }
  }

  lemma {:induction false} EvictedIsKept(edges: Edges, path: Path)
    ensures EvictedEdges(edges, path) == Kept(edges, Touching(path))
  {
    if edges != [] { EvictedIsKept(edges[..|edges| - 1], path); }
  }

  lemma {:induction false} KeptAppend(a: Edges, b: Edges, drop: iset<Edge>)
    ensures Kept(a + b, drop) == Kept(a, drop) + Kept(b, drop)
  {
    if b == [] {
      assert a + b == a;
    } else {
      KeptAppend(a, b[..|b| - 1], drop);
      assert (a + b)[..|a + b| - 1] == a + b[..|b| - 1];
    }
  }

  lemma {:induction false} KeptTwice(edges: Edges, x: iset<Edge>, y: iset<Edge>)
    ensures Kept(Kept(edges, x), y) == Kept(edges, x + y)
  {
    if edges != [] {
      var init, last := edges[..|edges| - 1], edges[|edges| - 1];
      KeptTwice(init, x, y);
      KeptAppend(Kept(init, x), [last], y);
      assert [last][..0] == [];
    }
  }

  lemma {:induction false} KeptMembers(edges: Edges, drop: iset<Edge>)
    ensures forall l :: l in Kept(edges, drop) <==> l in edges && l.edge !in drop
  {
    if edges != [] {
      var init, last := edges[..|edges| - 1], edges[|edges| - 1];
      KeptMembers(init, drop);
      assert edges == init + [last];
    }
  }

  lemma {:induction false} KeptNone(edges: Edges, drop: iset<Edge>)
    ensures Kept(edges, drop) == [] <==> forall l | l in edges :: l.edge in drop
  {
    KeptMembers(edges, drop);
    var kept := Kept(edges, drop);
    if kept != [] { assert kept[0] in kept; }
    if l :| l in edges && l.edge !in drop { assert l in kept; }
  }

  lemma {:induction false} KeptAll(edges: Edges, drop: iset<Edge>)
    requires forall l | l in edges :: l.edge !in drop
    ensures Kept(edges, drop) == edges
  {
    if edges != [] { KeptAll(edges[..|edges| - 1], drop); }
  }

  lemma {:induction false} HasMember(edges: Edges, e: Edge)
    ensures Has(edges, e) <==> exists l :: l in edges && l.edge == e
  {
    if Has(edges, e) {
      var i :| 0 <= i < |edges| && edges[i].edge == e;
      assert edges[i] in edges;
    }
  }

  /** Pruning never hides an edge resolution does not own. */
  lemma {:induction false} HasRetained(edges: Edges, index: Index, e: Edge)
    requires !Owned(e, index)
    ensures Has(Retained(edges, index), e) <==> Has(edges, e)
  {
    RetainedIsKept(edges, index);
    KeptMembers(edges, OwnedBy(index));
    HasMember(edges, e);
    HasMember(Retained(edges, index), e);
  }

  lemma {:induction false} RetainedAppend(a: Edges, b: Edges, index: Index)
    ensures Retained(a + b, index) == Retained(a, index) + Retained(b, index)
  {
    RetainedIsKept(a, index);
    RetainedIsKept(b, index);
    RetainedIsKept(a + b, index);
    KeptAppend(a, b, OwnedBy(index));
  }

  lemma {:induction false} RetainedOne(l: Link, index: Index)
    ensures Retained([l], index) == if Owned(l.edge, index) then [] else [l]
  {
    assert [l][..0] == [];
  }

  lemma {:induction false} LinksAreOwned(k: Kernel, nodes: set<NodeId>, index: Index)
    requires WellFormed(k)
    ensures forall l | l in Links(k, nodes, index) :: Owned(l.edge, index)
    ensures Retained(Links(k, nodes, index), index) == []
  {
    var links := Links(k, nodes, index);
    forall l | l in links ensures Owned(l.edge, index) {
      assert l in k.imports(nodes) || l in k.references(nodes, index);
    }
    RetainedIsKept(links, index);
    KeptNone(links, OwnedBy(index));
  }

  /** Pruning a resolved vector gives back what pruning left before. */
  lemma {:induction false} RetainedRelinked(k: Kernel, nodes: set<NodeId>, edges: Edges, index: Index)
    requires WellFormed(k)
    ensures Retained(Relinked(k, nodes, edges, index), index) == Retained(edges, index)
  {
    LinksAreOwned(k, nodes, index);
    var r := Retained(edges, index);
    RetainedAppend(r, Links(k, nodes, index), index);
    RetainedIsKept(edges, index);
    RetainedIsKept(r, index);
    KeptTwice(edges, OwnedBy(index), OwnedBy(index));
    assert OwnedBy(index) + OwnedBy(index) == OwnedBy(index);
  }

  /** Adding unowned links to vectors that prune alike leaves vectors that prune alike. */
  lemma {:induction false} AddAllAlike(a: Edges, b: Edges, more: Edges, index: Index)
    requires Retained(a, index) == Retained(b, index)
    requires forall l | l in more :: !Owned(l.edge, index)
    ensures Retained(AddAll(a, more), index) == Retained(AddAll(b, more), index)
  {
    if more != [] {
      var init, last := more[..|more| - 1], more[|more| - 1];
      AddAllAlike(a, b, init, index);
      AddAlike(AddAll(a, init), AddAll(b, init), last, index);
    }
  }

  lemma {:induction false} AddAlike(a: Edges, b: Edges, l: Link, index: Index)
    requires Retained(a, index) == Retained(b, index) && !Owned(l.edge, index)
    ensures Retained(Add(a, l), index) == Retained(Add(b, l), index)
  {
    HasRetained(a, index, l.edge);
    HasRetained(b, index, l.edge);
    RetainedAppend(a, [l], index);
    RetainedAppend(b, [l], index);
  }

  // ---------------------------------------------------------------- two indices

  /** The links that `ix` would prune and `th` keeps. */
  ghost function Stranded(edges: Edges, ix: Index, th: Index): Edges {
    Kept(Retained(edges, th), UnownedBy(ix))
  }

  /** Losing what `ix` knows and `th` does not goes unnoticed: the links `th` can no longer
      prune stand last among those it keeps, `ix` would link them again before everything
      `th` still links, and no import link would come between. Usually: nothing is stranded
      and the two indices link the same references. */
  ghost predicate Covers(k: Kernel, nodes: set<NodeId>, edges: Edges, ix: Index, th: Index) {
    var stranded := Stranded(edges, ix, th);
    && Retained(edges, th) == Retained(edges, ix) + stranded
    && k.references(nodes, ix) == stranded + k.references(nodes, th)
    && (stranded == [] || k.imports(nodes) == [])
  }

  /** One of the two indices can stand in for the other. */
  ghost predicate LinksAlike(k: Kernel, nodes: set<NodeId>, edges: Edges, ix: Index, th: Index) {
    Covers(k, nodes, edges, ix, th) || Covers(k, nodes, edges, th, ix)
  }

  /** If one prune keeps no more than the other and both resolve alike, the extra links are
      exactly the stranded ones. */
  lemma {:induction false} ShorterPruneCovers(k: Kernel, nodes: set<NodeId>, edges: Edges, ix: Index, th: Index)
    requires WellFormed(k) && |Retained(edges, ix)| <= |Retained(edges, th)|
    requires Relinked(k, nodes, edges, ix) == Relinked(k, nodes, edges, th)
    ensures Covers(k, nodes, edges, ix, th)
  {
    hide WellFormed, Retained, Stranded;
    var r, s := Retained(edges, ix), Retained(edges, th);
    var imports, mine, theirs := k.imports(nodes), k.references(nodes, ix), k.references(nodes, th);
    var extra := s[|r|..];
    SplitEqual(r, s, imports, mine, theirs);
    ExtraIsStranded(edges, ix, th, extra);
    if extra != [] {
      assert extra[0] in s;
      ImportIsNotKept(k, nodes, edges, th, extra[0]);
    }
    TailsAgree(extra, imports, mine, theirs);
  }

  lemma {:induction false} SplitEqual(r: Edges, s: Edges, i: Edges, mine: Edges, theirs: Edges)
    requires |r| <= |s| && r + (i + mine) == s + (i + theirs)
    ensures s == r + s[|r|..] && i + mine == s[|r|..] + (i + theirs)
  {
    var whole := r + (i + mine);
    assert r == whole[..|r|] == s[..|r|];
    assert i + mine == whole[|r|..];
    assert s[|r|..] + (i + theirs) == (s + (i + theirs))[|r|..];
  }

  lemma {:induction false} TailsAgree(extra: Edges, i: Edges, mine: Edges, theirs: Edges)
    requires i + mine == extra + (i + theirs) && (extra != [] ==> extra[0] !in i)
    ensures mine == extra + theirs && (extra == [] || i == [])
  {
    if extra == [] {
      assert extra + (i + theirs) == i + theirs && extra + theirs == theirs;
      assert mine == (i + mine)[|i|..] && theirs == (i + theirs)[|i|..];
    } else {
      SameFirst(i, mine, extra, i + theirs);
      assert i + theirs == theirs && i + mine == mine;
    }
  }

  lemma {:induction false} SameFirst(a: Edges, x: Edges, b: Edges, y: Edges)
    requires a + x == b + y
    ensures a == [] || b == [] || b[0] in a
  {
    if a != [] && b != [] {
      assert (a + x)[0] == a[0] && (b + y)[0] == b[0];
    }
  }

  /** No import link survives a prune. */
  lemma {:induction false} ImportIsNotKept(k: Kernel, nodes: set<NodeId>, edges: Edges, index: Index, l: Link)
    requires WellFormed(k) && l in Retained(edges, index)
    ensures l !in k.imports(nodes)
  {
    RetainedIsKept(edges, index);
    KeptMembers(edges, OwnedBy(index));
  }

  lemma {:induction false} ExtraIsStranded(edges: Edges, ix: Index, th: Index, extra: Edges)
    requires Retained(edges, th) == Retained(edges, ix) + extra
    ensures Stranded(edges, ix, th) == extra
  {
    var r, s := Retained(edges, ix), Retained(edges, th);
    var mine, theirs := OwnedBy(ix), OwnedBy(th);
    RetainedIsKept(edges, ix);
    RetainedIsKept(edges, th);
    KeptTwice(edges, theirs, mine);
    KeptTwice(edges, mine, theirs);
    assert theirs + mine == mine + theirs;
    KeptMembers(edges, mine);
    KeptMembers(edges, theirs);
    forall l | l in r ensures l.edge !in theirs && l.edge !in mine && l.edge in UnownedBy(ix) {
      assert l in s;
    }
    KeptAll(r, theirs);
    KeptAll(r, mine);
    KeptAppend(r, extra, mine);
    assert Kept(extra, mine) == [];
    KeptNone(extra, mine);
    KeptNone(r, UnownedBy(ix));
    KeptAll(extra, UnownedBy(ix));
    KeptAppend(r, extra, UnownedBy(ix));
  }

  /** **Two indices resolve one vector alike exactly when one can stand in for the other.** */
  lemma {:induction false} RelinkedAlikeIff(k: Kernel, nodes: set<NodeId>, edges: Edges, ix: Index, th: Index)
    requires WellFormed(k)
    ensures Relinked(k, nodes, edges, ix) == Relinked(k, nodes, edges, th) <==> LinksAlike(k, nodes, edges, ix, th)
  {
    if Relinked(k, nodes, edges, ix) == Relinked(k, nodes, edges, th) {
      if |Retained(edges, ix)| <= |Retained(edges, th)| {
        ShorterPruneCovers(k, nodes, edges, ix, th);
      } else {
        ShorterPruneCovers(k, nodes, edges, th, ix);
      }
    }
    if Covers(k, nodes, edges, ix, th) { CoversRelinks(k, nodes, edges, ix, th); }
    if Covers(k, nodes, edges, th, ix) { CoversRelinks(k, nodes, edges, th, ix); }
  }

  lemma {:induction false} CoversRelinks(k: Kernel, nodes: set<NodeId>, edges: Edges, ix: Index, th: Index)
    requires Covers(k, nodes, edges, ix, th)
    ensures Relinked(k, nodes, edges, ix) == Relinked(k, nodes, edges, th)
  {
    hide Retained, Stranded;
    var stranded, r, theirs := Stranded(edges, ix, th), Retained(edges, ix), k.references(nodes, th);
    assert r + (stranded + theirs) == (r + stranded) + theirs;
  }

  /** The common case: nothing stranded, same references. */
  lemma {:induction false} NothingStranded(k: Kernel, nodes: set<NodeId>, edges: Edges, ix: Index, th: Index)
    requires forall l | l in edges :: Owned(l.edge, ix) == Owned(l.edge, th)
    requires k.references(nodes, ix) == k.references(nodes, th)
    ensures LinksAlike(k, nodes, edges, ix, th)
  {
    SamePrune(edges, ix, th);
    RetainedIsKept(edges, th);
    KeptMembers(edges, OwnedBy(th));
    KeptNone(Retained(edges, th), UnownedBy(ix));
  }

  lemma {:induction false} SamePrune(edges: Edges, ix: Index, th: Index)
    requires forall l | l in edges :: Owned(l.edge, ix) == Owned(l.edge, th)
    ensures Retained(edges, ix) == Retained(edges, th)
  {
    if edges != [] { SamePrune(edges[..|edges| - 1], ix, th); }
  }

  // ---------------------------------------------------------------- nothing twice

  lemma {:induction false} AddAllKeepsDuplicateFree(edges: Edges, more: Edges)
    requires DuplicateFree(edges)
    ensures DuplicateFree(AddAll(edges, more))
  {
    if more != [] { AddAllKeepsDuplicateFree(edges, more[..|more| - 1]); }
  }

  lemma {:induction false} KeptStaysDuplicateFree(edges: Edges, drop: iset<Edge>)
    requires DuplicateFree(edges)
    ensures DuplicateFree(Kept(edges, drop))
  {
    if edges != [] {
      var init, last := edges[..|edges| - 1], edges[|edges| - 1];
      KeptStaysDuplicateFree(init, drop);
      KeptMembers(init, drop);
      var kept := Kept(init, drop);
      forall i | 0 <= i < |kept| ensures kept[i].edge != last.edge {
        assert kept[i] in init;
        var j :| 0 <= j < |init| && init[j] == kept[i];
        assert edges[j] == kept[i];
      }
    }
  }

  lemma {:induction false} JoinedIsDuplicateFree(a: Edges, b: Edges)
    requires DuplicateFree(a) && DuplicateFree(b)
    requires forall x, y | x in a && y in b :: x.edge != y.edge
    ensures DuplicateFree(a + b)
  {
    forall i, j | 0 <= i < j < |a + b| ensures (a + b)[i].edge != (a + b)[j].edge {
      if i < |a| <= j { assert a[i] in a && b[j - |a|] in b; }
    }
  }

  /** A resolve inserts nothing that is already there. */
  lemma {:induction false} RelinkedIsDuplicateFree(k: Kernel, nodes: set<NodeId>, edges: Edges, index: Index)
    requires WellFormed(k) && DuplicateFree(edges)
    ensures DuplicateFree(Relinked(k, nodes, edges, index))
  {
    var kept, imports, refs := Retained(edges, index), k.imports(nodes), k.references(nodes, index);
    LinksAreOwned(k, nodes, index);
    RetainedIsKept(edges, index);
    KeptStaysDuplicateFree(edges, OwnedBy(index));
    KeptMembers(edges, OwnedBy(index));
    JoinedIsDuplicateFree(imports, refs);
    JoinedIsDuplicateFree(kept, imports + refs);
  }
}
