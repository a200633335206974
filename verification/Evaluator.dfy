/** Normalized discounted cumulative gain of a ranking (scripts/evaluate-rag-campaign.py:
    139-141, 168-176), over reals and for any positive non-increasing discount. */
module Evaluator {
  import opened Seqs

  type Labels = map<string, nat>

  function Pow2(n: nat): nat {
    if n == 0 then 1 else 2 * Pow2(n - 1)
  }

  lemma {:induction false} Pow2Monotone(a: nat, b: nat)
    requires a <= b
    ensures 1 <= Pow2(a) <= Pow2(b)
  {
    if a < b { Pow2Monotone(a, b - 1); } else if b > 0 { Pow2Monotone(a - 1, b - 1); }
  }

  function Gain(grade: nat): real {
    (Pow2(grade) - 1) as real
  }

  /** `2^grade - 1`: nothing for grade 0, and each grade doubles the one before and adds one. */
  lemma {:induction false} GainValues(grade: nat)
    ensures Gain(0) == 0.0 && Gain(1) == 1.0 && Gain(2) == 3.0 && Gain(3) == 7.0
    ensures Gain(grade + 1) == 2.0 * Gain(grade) + 1.0
  {
    assert Pow2(0) == 1 && Pow2(1) == 2 && Pow2(2) == 4 && Pow2(3) == 8;
  }

  lemma {:induction false} GainMonotone(a: nat, b: nat)
    requires a <= b
    ensures 0.0 <= Gain(a) <= Gain(b)
  {
    Pow2Monotone(a, b);
    Pow2Monotone(0, a);
  }

  /** An unlabelled document has grade 0, hence gain 0. */
  function GradeOf(labels: Labels, doc: string): nat {
    if doc in labels then labels[doc] else 0
  }

  ghost predicate Discount(d: nat -> real) {
    (forall i :: d(i) > 0.0) && (forall i, j | 0 <= i <= j :: d(j) <= d(i))
  }

  /** The discounted gain of `docs`, the first of them at rank `from`. */
  function Dcg(d: nat -> real, labels: Labels, docs: seq<string>, from: nat): real {
    if docs == [] then 0.0
    else Gain(GradeOf(labels, docs[0])) * d(from) + Dcg(d, labels, docs[1..], from + 1)
  }

  /** What `x` adds at rank `i`: its gain times the discount of `i`, nothing if unlabelled. */
  function Share(d: nat -> real, labels: Labels, x: string, i: nat): real {
    if x in labels then Gain(labels[x]) * d(i) else 0.0
  }

  lemma {:induction false} DcgStep(d: nat -> real, labels: Labels, docs: seq<string>, from: nat)
    requires docs != []
    ensures Dcg(d, labels, docs, from) == Share(d, labels, docs[0], from) + Dcg(d, labels, docs[1..], from + 1)
  {
    GainValues(0);
    hide Gain;
    if docs[0] !in labels { assert Gain(GradeOf(labels, docs[0])) * d(from) == 0.0; }
  }

  /** The gain of a list is the sum of its documents' shares, ranks counted from 0. */
  lemma {:induction false} DcgAppend(d: nat -> real, labels: Labels, docs: seq<string>, from: nat, x: string)
    ensures Dcg(d, labels, [], from) == 0.0
    ensures Dcg(d, labels, docs + [x], from) == Dcg(d, labels, docs, from) + Share(d, labels, x, from + |docs|)
  {
    assert Dcg(d, labels, [], from) == 0.0 && Dcg(d, labels, [], from + 1) == 0.0;
    DcgStep(d, labels, docs + [x], from);
    if docs == [] {
      assert docs + [x] == [x] && [x][1..] == [];
    } else {
      DcgStep(d, labels, docs, from);
      DcgAppend(d, labels, docs[1..], from + 1, x);
      assert (docs + [x])[1..] == docs[1..] + [x];
    }
    hide Dcg, Share;
  }

  method ComputeDcg(d: nat -> real, labels: Labels, docs: seq<string>) returns (sum: real)
    ensures sum == Dcg(d, labels, docs, 0)
  {
    hide Gain, GradeOf;
    sum := 0.0;
    for i := 0 to |docs|
      invariant sum + Dcg(d, labels, docs[i..], i) == Dcg(d, labels, docs, 0)
    {
      assert docs[i..][1..] == docs[i + 1..];
      sum := sum + Gain(GradeOf(labels, docs[i])) * d(i);
    }
  }

  /** Every labelled document once, best grade first: the order `sorted(..., reverse=True)`
      takes the grades in. */
  ghost predicate BestFirst(labels: Labels, order: seq<string>) {
    && Distinct(order)
    && (forall x :: x in order <==> x in labels)
    && (forall i, j | 0 <= i <= j < |order| :: labels[order[j]] <= labels[order[i]])
  }

  lemma {:induction false} BestOf(labels: Labels, docs: set<string>) returns (best: string)
    requires docs != {} && docs <= labels.Keys
    ensures best in docs && forall x | x in docs :: labels[x] <= labels[best]
  {
    var first :| first in docs;
    best := first;
    var rest := docs - {first};
    assert forall x | x in docs :: x == first || x in rest;
    if rest != {} {
      var other := BestOf(labels, rest);
      if labels[first] < labels[other] { best := other; }
    }
  }

  /** Such an order always exists. */
  lemma {:induction false} BestFirstExists(labels: Labels) returns (order: seq<string>)
    ensures BestFirst(labels, order)
    decreases |labels|
  {
    if labels == map[] {
      order := [];
    } else {
      var best := BestOf(labels, labels.Keys);
      var rest := labels - {best};
      var tail := BestFirstExists(rest);
      order := [best] + tail;
      PrependBest(labels, best, tail);
    }
  }

  lemma {:induction false} PrependBest(labels: Labels, best: string, tail: seq<string>)
    requires best in labels && (forall x | x in labels :: labels[x] <= labels[best])
    requires BestFirst(labels - {best}, tail)
    ensures BestFirst(labels, [best] + tail)
  {
    var order, rest := [best] + tail, labels - {best};
    assert forall x :: x in order <==> x == best || x in tail;
    forall i | 0 <= i < |tail| ensures tail[i] in rest && rest[tail[i]] == labels[tail[i]] {
      assert tail[i] in tail;
    }
    forall i, j | 0 <= i < j < |order| ensures order[i] != order[j] && labels[order[j]] <= labels[order[i]] {
      assert order[j] == tail[j - 1] && tail[j - 1] in rest;
      if i > 0 { assert order[i] == tail[i - 1]; }
    }
  }

  // ---------------------------------------------------------------- rearrangement

  lemma {:induction false} DcgNonNegative(d: nat -> real, labels: Labels, docs: seq<string>, from: nat)
    requires Discount(d)
    ensures Dcg(d, labels, docs, from) >= 0.0
  {
    if docs != [] {
      DcgNonNegative(d, labels, docs[1..], from + 1);
      GainMonotone(0, GradeOf(labels, docs[0]));
      assert Gain(GradeOf(labels, docs[0])) * d(from) >= 0.0;
    }
  }

  /** Replacing one document changes the sum by that rank's difference. */
  lemma {:induction false} DcgUpdate(d: nat -> real, labels: Labels, docs: seq<string>, from: nat, q: nat, x: string)
    requires q < |docs|
    ensures Dcg(d, labels, docs[q := x], from) - Dcg(d, labels, docs, from)
         == Gain(GradeOf(labels, x)) * d(from + q) - Gain(GradeOf(labels, docs[q])) * d(from + q)
  {
    hide Gain, GradeOf;
    var updated := docs[q := x];
    if q == 0 {
      assert updated[1..] == docs[1..];
    } else {
      DcgUpdate(d, labels, docs[1..], from + 1, q - 1, x);
      assert updated[1..] == docs[1..][q - 1 := x];
      assert updated[0] == docs[0] && docs[1..][q - 1] == docs[q];
      assert from + 1 + (q - 1) == from + q;
    }
  }

  /** Labels of documents that are not ranked do not matter. */
  lemma {:induction false} DcgIgnores(d: nat -> real, labels: Labels, docs: seq<string>, from: nat, m: string)
    requires m !in docs
    ensures Dcg(d, labels - {m}, docs, from) == Dcg(d, labels, docs, from)
  {
    hide Gain;
    if docs != [] {
      DcgIgnores(d, labels, docs[1..], from + 1, m);
      assert GradeOf(labels - {m}, docs[0]) == GradeOf(labels, docs[0]);
    }
  }

  /** The exchange step: moving the larger gain to the earlier rank never loses. */
  lemma {:induction false} ExchangeGains(a: real, b: real, early: real, late: real)
    requires a <= b && late <= early
    ensures a * early + b * late <= b * early + a * late
  {
    ProductIsNonNegative(b - a, early - late);
    assert (b - a) * (early - late) == (b * early + a * late) - (a * early + b * late);
  }

  lemma {:induction false} ProductIsNonNegative(x: real, y: real)
    requires x >= 0.0 && y >= 0.0
    ensures x * y >= 0.0
  {
  }

  /** Promote the document at `p` to the front, putting the old front in its place. */
  function Promoted(docs: seq<string>, p: nat): seq<string>
    requires p < |docs|
  {
    if p == 0 then docs[1..] else docs[1..][p - 1 := docs[0]]
  }

  lemma {:induction false} PromotionNeverLoses(d: nat -> real, labels: Labels, docs: seq<string>, from: nat, p: nat)
    requires Discount(d) && p < |docs| && GradeOf(labels, docs[0]) <= GradeOf(labels, docs[p])
    ensures Dcg(d, labels, docs, from)
         <= Gain(GradeOf(labels, docs[p])) * d(from) + Dcg(d, labels, Promoted(docs, p), from + 1)
  {
    hide Gain, GradeOf;
    if p > 0 {
      var a, b := Gain(GradeOf(labels, docs[0])), Gain(GradeOf(labels, docs[p]));
      GainMonotone(GradeOf(labels, docs[0]), GradeOf(labels, docs[p]));
      DcgUpdate(d, labels, docs[1..], from + 1, p - 1, docs[0]);
      ExchangeGains(a, b, d(from), d(from + p));
    }
  }

  lemma {:induction false} PromotedDropsOne(docs: seq<string>, p: nat)
    requires p < |docs| && Distinct(docs)
    ensures Distinct(Promoted(docs, p)) && docs[p] !in Promoted(docs, p)
  {
  }

  lemma {:induction false} TailIsBestFirst(labels: Labels, order: seq<string>)
    requires BestFirst(labels, order) && order != []
    ensures BestFirst(labels - {order[0]}, order[1..])
  {
    var rest := labels - {order[0]};
    forall x ensures x in order[1..] <==> x in rest {
      if x in rest {
        assert x in order;
        var i :| 0 <= i < |order| && order[i] == x;
        assert order[1..][i - 1] == x;
      }
    }
  }

  /** One exchange, then the rest by induction: the head of the best order comes first. */
  lemma {:induction false} DcgAtMostBest(
    d: nat -> real, labels: Labels, order: seq<string>, docs: seq<string>, from: nat)
    requires Discount(d) && BestFirst(labels, order) && Distinct(docs)
    ensures Dcg(d, labels, docs, from) <= Dcg(d, labels, Take(order, |docs|), from)
    decreases |docs|
  {
    hide Gain, BestFirst, Distinct, Discount;
    if docs == [] {
    } else if order == [] {
      UnlabelledGainsNothing(d, labels, order, docs, from);
    } else {
      var m, rest := order[0], labels - {order[0]};
      TailIsBestFirst(labels, order);
      var next := Displace(d, labels, order, docs, from);
      DcgAtMostBest(d, rest, order[1..], next, from + 1);
      DcgIgnores(d, labels, next, from + 1, m);
      BestOrderPeels(d, labels, order, |docs|, from);
    }
  }

  /** The best order gains its head first, then the best order of the rest. */
  lemma {:induction false} BestOrderPeels(d: nat -> real, labels: Labels, order: seq<string>, k: nat, from: nat)
    requires BestFirst(labels, order) && order != [] && k > 0
    ensures Dcg(d, labels, Take(order, k), from)
         == Gain(GradeOf(labels, order[0])) * d(from)
            + Dcg(d, labels - {order[0]}, Take(order[1..], k - 1), from + 1)
  {
    hide Gain, BestFirst;
    var head := Take(order, k);
    assert head[0] == order[0] && head[1..] == Take(order[1..], k - 1);
    HeadIsNotInTail(labels, order, k);
    DcgIgnores(d, labels, head[1..], from + 1, order[0]);
  }

  lemma {:induction false} UnlabelledGainsNothing(
    d: nat -> real, labels: Labels, order: seq<string>, docs: seq<string>, from: nat)
    requires BestFirst(labels, order) && order == []
    ensures Dcg(d, labels, docs, from) == 0.0
  {
    if docs != [] {
      UnlabelledGainsNothing(d, labels, order, docs[1..], from + 1);
      assert docs[0] !in labels;
    }
  }

  lemma {:induction false} HeadIsBest(labels: Labels, order: seq<string>, x: string)
    requires BestFirst(labels, order) && order != []
    ensures order[0] in labels && GradeOf(labels, x) <= GradeOf(labels, order[0])
  {
    if x in labels { assert x in order; }
  }

  lemma {:induction false} HeadIsNotInTail(labels: Labels, order: seq<string>, k: nat)
    requires BestFirst(labels, order) && order != [] && k > 0
    ensures order[0] !in Take(order, k)[1..]
  {
  }

  /** Put the best document first: promote it if it is ranked, else let it replace the
      front. What remains has one document fewer and not the best one. */
  lemma {:induction false} Displace(d: nat -> real, labels: Labels, order: seq<string>, docs: seq<string>, from: nat)
    returns (next: seq<string>)
    requires Discount(d) && BestFirst(labels, order) && order != [] && Distinct(docs) && docs != []
    ensures |next| == |docs| - 1 && Distinct(next) && order[0] !in next
    ensures Dcg(d, labels, docs, from) <= Gain(GradeOf(labels, order[0])) * d(from) + Dcg(d, labels, next, from + 1)
  {
    hide Gain, BestFirst;
    var m := order[0];
    HeadIsBest(labels, order, docs[0]);
    if m in docs {
      var p :| 0 <= p < |docs| && docs[p] == m;
      next := Promoted(docs, p);
      PromotedDropsOne(docs, p);
      PromotionNeverLoses(d, labels, docs, from, p);
    } else {
      next := docs[1..];
      GainMonotone(GradeOf(labels, docs[0]), GradeOf(labels, m));
      assert Gain(GradeOf(labels, docs[0])) * d(from) <= Gain(GradeOf(labels, m)) * d(from);
    }
  }

  // ---------------------------------------------------------------- nDCG

  lemma {:induction false} LongerNeverLoses(d: nat -> real, labels: Labels, docs: seq<string>, from: nat, k: nat)
    requires Discount(d) && k <= |docs|
    ensures Dcg(d, labels, docs[..k], from) <= Dcg(d, labels, docs, from)
  {
    hide Gain, GradeOf;
    if k == 0 {
      DcgNonNegative(d, labels, docs, from);
    } else {
      LongerNeverLoses(d, labels, docs[1..], from + 1, k - 1);
      assert docs[..k][1..] == docs[1..][..k - 1];
    }
  }

  function DcgOf(d: nat -> real, labels: Labels, ranking: seq<string>, k: nat): real {
    Dcg(d, labels, Take(ranking, k), 0)
  }

  function Ideal(d: nat -> real, labels: Labels, order: seq<string>, k: nat): real {
    Dcg(d, labels, Take(order, k), 0)
  }

  /** **The discounted gain never exceeds the ideal gain**, for every duplicate-free
      ranking, every label map and every cut-off. */
  lemma {:induction false} DcgAtMostIdeal(d: nat -> real, labels: Labels, order: seq<string>, ranking: seq<string>, k: nat)
    requires Discount(d) && BestFirst(labels, order) && Distinct(ranking)
    ensures 0.0 <= DcgOf(d, labels, ranking, k) <= Ideal(d, labels, order, k)
  {
    hide Dcg, BestFirst, Discount;
    var top := Take(ranking, k);
    DcgNonNegative(d, labels, top, 0);
    DcgAtMostBest(d, labels, order, top, 0);
    var best := Take(order, k);
    if |top| < |best| {
      LongerNeverLoses(d, labels, best, 0, |top|);
      assert best[..|top|] == Take(order, |top|);
    } else {
      assert Take(order, |top|) == best;
    }
  }

  function Ndcg(d: nat -> real, labels: Labels, order: seq<string>, ranking: seq<string>, k: nat): real
    requires Ideal(d, labels, order, k) != 0.0
  {
    DcgOf(d, labels, ranking, k) / Ideal(d, labels, order, k)
  }

  /** nDCG lies in [0, 1], reaches 1 on a best-first ranking, and does not depend on how
      equal grades were ordered. */
  lemma {:induction false} NdcgIsNormalized(
    d: nat -> real, labels: Labels, order: seq<string>, other: seq<string>, ranking: seq<string>, k: nat)
    requires Discount(d) && BestFirst(labels, order) && BestFirst(labels, other) && Distinct(ranking)
    requires Ideal(d, labels, order, k) != 0.0
    ensures Ideal(d, labels, other, k) == Ideal(d, labels, order, k)
    ensures 0.0 <= Ndcg(d, labels, order, ranking, k) <= 1.0
    ensures Ndcg(d, labels, order, other, k) == 1.0
  {
    hide Dcg, Discount;
    DcgAtMostIdeal(d, labels, order, other, k);
    DcgAtMostIdeal(d, labels, other, order, k);
    DcgAtMostIdeal(d, labels, order, ranking, k);
    QuotientInUnit(DcgOf(d, labels, ranking, k), Ideal(d, labels, order, k));
    assert DcgOf(d, labels, other, k) == Ideal(d, labels, order, k);
  }

  lemma {:induction false} QuotientInUnit(a: real, b: real)
    requires 0.0 <= a <= b && b != 0.0
    ensures 0.0 <= a / b <= 1.0 && b / b == 1.0
  {
    assert a / b * b == a && b / b * b == b;
  }
}
