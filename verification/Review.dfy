/** The review pipeline: blind export (scripts/rag-e2e-adjudicate.py:81-109), the pinned judge
    (scripts/rag_e2e_mistral_judge.py:46-85, 103-120) and the import that binds its reviews
    back to the results (scripts/rag-e2e-adjudicate.py:112-135). The shuffle, the result hash
    and the model's replies are arbitrary. */
module Review {
  import opened Ops
  import opened Text
  import opened Seqs
  import opened Generator

  // ---------------------------------------------------------------- the judge

  /** A model reply after the search for its first `{...}`. */
  datatype Verdict = NoObject | NotJson | Object(answerCorrect: Json, total: Json, supported: Json, note: string)

  datatype Failure = NoJsonObject | JsonDecodeError | AnswerCorrectNotBool | ClaimCountsNotInt | TotalBelowOne | SupportedOutOfRange

  /** A review line as import reads it: every field may have any JSON type. */
  datatype Review = Review(reviewId: Json, answerCorrect: Json, total: Json, supported: Json, judgeAbstain: bool, note: string)

  datatype PacketRow = PacketRow(reviewId: string, abstained: bool, answer: string)

  function ParseFailureReason(v: Verdict, abstained: bool): Option<Failure> {
    match v
    case NoObject => Some(NoJsonObject)
    case NotJson => Some(JsonDecodeError)
    case Object(ac, tc, sc, _) =>
      if !ac.Bool? then Some(AnswerCorrectNotBool)
      else if abstained then None
      else if !tc.Int? || !sc.Int? then Some(ClaimCountsNotInt)
      else if tc.i < 1 then Some(TotalBelowOne)
      else if !(0 <= sc.i <= tc.i) then Some(SupportedOutOfRange)
      else None
  }

  const MAX_NOTE := 500

  function ParseReview(v: Verdict, row: PacketRow): Option<Review> {
    if ParseFailureReason(v, row.abstained).Some? then None
    else
      var note := if |v.note| > MAX_NOTE then v.note[..MAX_NOTE] else v.note;
      Some(Review(Str(row.reviewId), v.answerCorrect,
                  if row.abstained then Int(0) else v.total, if row.abstained then Int(0) else v.supported, false, note))
  }

  function FailureName(f: Failure): string {
    match f
    case NoJsonObject => "no_json_object"
    case JsonDecodeError => "json_decode_error"
    case AnswerCorrectNotBool => "answer_correct_not_bool"
    case ClaimCountsNotInt => "claim_counts_not_int"
    case TotalBelowOne => "non_abstained_total_claims_lt_1"
    case SupportedOutOfRange => "supported_gt_total"
  }

  function JudgeAbstain(row: PacketRow, why: Failure): Review {
    Review(Str(row.reviewId), Bool(false), Int(if row.abstained then 0 else 1), Int(0), true, "JUDGE_ABSTAIN: " + FailureName(why))
  }

  function ReviewOf(row: PacketRow, v: Verdict): Review {
    var parsed := ParseReview(v, row);
    if parsed.Some? then parsed.value else JudgeAbstain(row, ParseFailureReason(v, row.abstained).value)
  }

  predicate ClaimsFit(r: Review, abstained: bool) {
    && r.answerCorrect.Bool? && r.total.Int? && r.supported.Int?
    && 0 <= r.supported.i <= r.total.i
    && (r.total.i == 0 <==> abstained)
  }

  /** Whatever the model replied, the review is well typed, its counts are in range and agree
      with abstention, and an unusable reply counts as incorrect and unsupported. */
  lemma {:induction false} EveryReplyIsUsable(row: PacketRow, v: Verdict)
    ensures var r := ReviewOf(row, v);
      && r.reviewId == Str(row.reviewId) && ClaimsFit(r, row.abstained)
      && (r.judgeAbstain <==> ParseFailureReason(v, row.abstained).Some?)
      && (r.judgeAbstain ==> r.answerCorrect == Bool(false) && r.supported == Int(0) && r.total == Int(if row.abstained then 0 else 1))
      && (r.answerCorrect == Bool(true) ==> v.Object? && v.answerCorrect == Bool(true))
  {
  }

  /** A usable reply is taken at its word: the verdict always, the counts unless the answer
      abstained, when both are zero. And it is usable exactly when it is an object with a
      boolean verdict and, for an answer given, integer counts with at least one claim and no
      more supported than there are. */
  lemma {:induction false} UsableReplyIsTaken(row: PacketRow, v: Verdict)
    ensures ParseReview(v, row).Some? <==>
      v.Object? && v.answerCorrect.Bool? &&
      (row.abstained || (v.total.Int? && v.supported.Int? && 1 <= v.total.i && 0 <= v.supported.i <= v.total.i))
    ensures ParseReview(v, row).Some? ==>
      var r := ReviewOf(row, v);
      && r.answerCorrect == v.answerCorrect && !r.judgeAbstain
      && (if row.abstained then r.total == Int(0) && r.supported == Int(0) else r.total == v.total && r.supported == v.supported)
      && r.note <= v.note && |r.note| == if |v.note| < 500 then |v.note| else 500
  {
  }

  /** What each reason says of the reply, the first that applies; and the note of the
      abstention tells the reasons apart. */
  lemma {:induction false} FailureMeans(row: PacketRow, v: Verdict, why: Failure, other: Failure)
    requires ParseFailureReason(v, row.abstained) == Some(why)
    ensures match why
      case NoJsonObject => v.NoObject?
      case JsonDecodeError => v.NotJson?
      case AnswerCorrectNotBool => v.Object? && !v.answerCorrect.Bool?
      case ClaimCountsNotInt => v.Object? && v.answerCorrect.Bool? && !row.abstained && !(v.total.Int? && v.supported.Int?)
      case TotalBelowOne => v.Object? && v.answerCorrect.Bool? && !row.abstained && v.total.Int? && v.supported.Int? && v.total.i < 1
      case SupportedOutOfRange =>
        v.Object? && v.answerCorrect.Bool? && !row.abstained && v.total.Int? && v.supported.Int? && v.total.i >= 1
        && (v.supported.i < 0 || v.supported.i > v.total.i)
    ensures ReviewOf(row, v).note == "JUDGE_ABSTAIN: " + FailureName(other) ==> other == why
  {
    var prefix := "JUDGE_ABSTAIN: ";
    if prefix + FailureName(why) == prefix + FailureName(other) {
      assert FailureName(why) == (prefix + FailureName(why))[|prefix|..] == FailureName(other);
      NamesDiffer(why, other);
    }
  }

  lemma {:induction false} NamesDiffer(f: Failure, g: Failure)
    requires FailureName(f) == FailureName(g)
    ensures f == g
  {
  }

  /** The ids whose reply could not be used, in packet order. */
  function FailedIds(packet: seq<PacketRow>, replies: seq<Verdict>): seq<string>
    requires |replies| == |packet|
  {
    if packet == [] then []
    else
      var n := |packet| - 1;
      var failed := ParseFailureReason(replies[n], packet[n].abstained).Some?;
      FailedIds(packet[..n], replies[..n]) + if failed then [packet[n].reviewId] else []
  }

  /** They are the ids of exactly the rows reviewed as a judge's abstention. */
  lemma {:induction false} FailedIdsAre(packet: seq<PacketRow>, replies: seq<Verdict>, id: string)
    requires |replies| == |packet|
    ensures id in FailedIds(packet, replies) <==>
      exists i | 0 <= i < |packet| :: packet[i].reviewId == id && ReviewOf(packet[i], replies[i]).judgeAbstain
  {
    hide ReviewOf, ParseFailureReason;
    if packet != [] {
      var n := |packet| - 1;
      FailedIdsAre(packet[..n], replies[..n], id);
      EveryReplyIsUsable(packet[n], replies[n]);
      if i :| 0 <= i < |packet| && packet[i].reviewId == id && ReviewOf(packet[i], replies[i]).judgeAbstain {
        if i < n { assert packet[..n][i].reviewId == id && ReviewOf(packet[..n][i], replies[..n][i]).judgeAbstain; }
      }
      if i :| 0 <= i < n && packet[..n][i].reviewId == id && ReviewOf(packet[..n][i], replies[..n][i]).judgeAbstain {
        assert packet[i].reviewId == id && ReviewOf(packet[i], replies[i]).judgeAbstain;
      }
    }
  }

  /** The judge's loop: one review per packet row, in packet order, none dropped. */
  method JudgeAll(packet: seq<PacketRow>, replies: seq<Verdict>)
    returns (reviews: seq<Review>, fails: nat, abstains: seq<string>)
    requires |replies| == |packet|
    ensures |reviews| == |packet| && forall i | 0 <= i < |packet| :: reviews[i] == ReviewOf(packet[i], replies[i])
    ensures abstains == FailedIds(packet, replies) && fails == |abstains|
  {
    hide ParseFailureReason, JudgeAbstain;
    reviews, fails, abstains := [], 0, [];
    for i := 0 to |packet|
      invariant |reviews| == i && forall j | 0 <= j < i :: reviews[j] == ReviewOf(packet[j], replies[j])
      invariant abstains == FailedIds(packet[..i], replies[..i]) && fails == |abstains|
    {
      assert packet[..i + 1][..i] == packet[..i] && replies[..i + 1][..i] == replies[..i];
      var parsed := ParseReview(replies[i], packet[i]);
      var review;
      if parsed.None? {
        fails := fails + 1;
        review := JudgeAbstain(packet[i], ParseFailureReason(replies[i], packet[i].abstained).value);
        abstains := abstains + [packet[i].reviewId];
      } else {
        review := parsed.value;
      }
      assert review == ReviewOf(packet[i], replies[i]);
      reviews := reviews + [review];
    }
    assert packet[..|packet|] == packet && replies[..|packet|] == replies;
  }

  // ---------------------------------------------------------------- export

  type Arms = map<string, map<string, Row>>

  type ResultHash = (string, Row) -> string

  datatype KeyRow = KeyRow(reviewId: string, arm: string, query: string, resultHash: string)

  type Item = (string, string)

  function Pad(s: string): string
    decreases 6 - |s|
  {
    if |s| >= 6 then s else Pad("0" + s)
  }

  /** `f"r{n:06d}"`. */
  function ReviewId(n: nat): string {
    "r" + Pad(Decimal(n))
  }

  lemma {:induction false} LeadingZero(s: string)
    ensures Value("0" + s) == Value(s)
  {
    if s == [] {
      assert "0"[..0] == "";
    } else {
      LeadingZero(s[..|s| - 1]);
      assert ("0" + s)[..|s|] == "0" + s[..|s| - 1];
    }
  }

  lemma {:induction false} PadKeepsValue(s: string)
    ensures Value(Pad(s)) == Value(s)
    decreases 6 - |s|
  {
    if |s| < 6 {
      LeadingZero(s);
      PadKeepsValue("0" + s);
    }
  }

  /** The ids as they are written: at least six digits, zero-padded. */
  lemma {:induction false} ReviewIdFormat(n: nat)
    ensures ReviewId(7) == "r000007"
    ensures |Decimal(n)| >= 6 ==> ReviewId(n) == "r" + Decimal(n)
    ensures |ReviewId(n)| == if |Decimal(n)| < 6 then 7 else |Decimal(n)| + 1
  {
    assert Decimal(7) == "7";
    PadsOne("7");
    PadsOne("07");
    PadsOne("007");
    PadsOne("0007");
    PadsOne("00007");
    assert "0" + "7" == "07" && "0" + "07" == "007" && "0" + "007" == "0007" && "0" + "0007" == "00007" && "0" + "00007" == "000007";
    assert Pad("000007") == "000007";
    PadSize(Decimal(n));
  }

  lemma {:induction false} PadsOne(s: string)
    requires |s| < 6
    ensures Pad(s) == Pad("0" + s)
  {
  }

  lemma {:induction false} PadSize(s: string)
    ensures |Pad(s)| == if |s| < 6 then 6 else |s|
    decreases 6 - |s|
  {
    if |s| < 6 { PadSize("0" + s); }
  }

  /** Review ids never repeat, however many rows (more than six digits included). */
  lemma {:induction false} ReviewIdIsInjective(m: nat, n: nat)
    requires ReviewId(m) == ReviewId(n)
    ensures m == n
  {
    assert Pad(Decimal(m)) == ReviewId(m)[1..] == ReviewId(n)[1..] == Pad(Decimal(n));
    PadKeepsValue(Decimal(m));
    PadKeepsValue(Decimal(n));
    DecimalRoundTrip(m);
    DecimalRoundTrip(n);
  }

  /** What an export is for: ids in packet order, every (arm, query) result under exactly one
      of them, its hash captured, and the packet row showing that result's abstention. */
  ghost predicate Exported(hash: ResultHash, arms: Arms, packet: seq<PacketRow>, key: seq<KeyRow>) {
    && |packet| == |key|
    && (forall n | 0 <= n < |key| :: KeyRowFor(hash, arms, n, packet[n], key[n]))
    && (forall i, j | 0 <= i < j < |key| :: (key[i].arm, key[i].query) != (key[j].arm, key[j].query))
    && (forall arm, q | arm in arms && q in arms[arm] :: exists n | 0 <= n < |key| :: key[n].arm == arm && key[n].query == q)
  }

  predicate KeyRowFor(hash: ResultHash, arms: Arms, n: nat, p: PacketRow, k: KeyRow) {
    && p.reviewId == k.reviewId == ReviewId(n)
    && k.arm in arms && k.query in arms[k.arm]
    && var row := arms[k.arm][k.query];
    k.resultHash == hash(k.arm, row) && p.abstained == row.answer.abstained && p.answer == row.answer.text
  }

  ghost predicate IsShuffle(shuffle: seq<Item> -> seq<Item>) {
    forall s :: multiset(shuffle(s)) == multiset(s)
  }

  predicate Covers(arms: Arms, arm: string, queries: set<string>)
    requires arm in arms
  {
    arms[arm].Keys == queries
  }

  /** The inner loop: one arm's items, in query order. */
  method ArmItems(arm: string, qs: seq<string>) returns (items: seq<Item>)
    requires Distinct(qs)
    ensures Distinct(items) && |items| == |qs|
    ensures forall x: Item :: x in items <==> x.0 == arm && x.1 in qs
  {
    items := [];
    for j := 0 to |qs|
      invariant |items| == j && forall i | 0 <= i < j :: items[i] == (arm, qs[i])
    {
      items := items + [(arm, qs[j])];
    }
    forall x: Item ensures x in items <==> x.0 == arm && x.1 in qs {
      if x.0 == arm && x.1 in qs {
        var i :| 0 <= i < |qs| && qs[i] == x.1;
        assert items[i] == x;
      }
    }
  }

  /** The nested loop over sorted arms and sorted queries; nothing when an arm does not cover
      exactly the query set. */
  method ListItems(arms: Arms, queries: set<string>) returns (r: Option<seq<Item>>)
    ensures r.Some? <==> forall arm | arm in arms :: Covers(arms, arm, queries)
    ensures r.Some? ==> Distinct(r.value) && forall x: Item :: x in r.value <==> x.0 in arms && x.1 in queries
  {
    hide Covers, Distinct, Sorted;
    var order := Sorted(arms.Keys);
    var qs := Sorted(queries);
    var items: seq<Item> := [];
    SortedIsDistinct(queries, items);
    ghost var done: set<string> := {};
    for i := 0 to |order|
      invariant forall arm :: arm in done <==> arm in order[..i]
      invariant forall arm | arm in done :: arm in arms && Covers(arms, arm, queries)
      invariant Distinct(items)
      invariant forall x: Item :: x in items <==> x.0 in done && x.1 in queries
    {
      assert order[i] in order;
      if !Covers(arms, order[i], queries) { return None; }
      var more := ArmItems(order[i], qs);
      assert order[i] !in done;
      JoinedIsDistinct(items, more);
      items := items + more;
      done := done + {order[i]};
      assert order[..i + 1] == order[..i] + [order[i]];
    }
    assert order[..|order|] == order;
    r := Some(items);
  }

  lemma {:induction false} SortedIsDistinct(queries: set<string>, items: seq<Item>)
    ensures Distinct(Sorted(queries)) && (items == [] ==> Distinct(items))
  {
    hide Sorted;
  }

  lemma {:induction false} JoinedIsDistinct(a: seq<Item>, b: seq<Item>)
    requires Distinct(a) && Distinct(b) && forall x | x in a :: x !in b
    ensures Distinct(a + b)
  {
    forall i, j | 0 <= i < j < |a + b| ensures (a + b)[i] != (a + b)[j] {
      if i < |a| <= j { assert a[i] in a && b[j - |a|] in b; }
    }
  }

  /** A shuffle neither loses, repeats nor invents an item. */
  lemma {:induction false} ShuffleKeepsItems(shuffle: seq<Item> -> seq<Item>, items: seq<Item>)
    requires IsShuffle(shuffle) && Distinct(items)
    ensures Distinct(shuffle(items)) && forall x :: x in shuffle(items) <==> x in items
  {
    var s := shuffle(items);
    assert multiset(s) == multiset(items);
    forall x ensures x in s <==> x in items {
      assert x in s <==> x in multiset(s);
    }
    forall i, j | 0 <= i < j < |s| ensures s[i] != s[j] {
      if s[i] == s[j] {
        TwiceCounted(s, i, j);
        OnceCounted(items, s[i]);
      }
    }
  }

  lemma {:induction false} TwiceCounted(s: seq<Item>, i: nat, j: nat)
    requires i < j < |s| && s[i] == s[j]
    ensures multiset(s)[s[i]] >= 2
  {
    assert s == s[..j] + [s[j]] + s[j + 1..];
    assert s[i] in s[..j];
    assert multiset(s) == multiset(s[..j]) + multiset{s[j]} + multiset(s[j + 1..]);
  }

  lemma {:induction false} OnceCounted(s: seq<Item>, x: Item)
    requires Distinct(s)
    ensures multiset(s)[x] <= 1
  {
    if s != [] {
      var init, last := s[..|s| - 1], s[|s| - 1];
      OnceCounted(init, x);
      assert s == init + [last];
      assert multiset(s) == multiset(init) + multiset{last};
      assert x == last ==> x !in init;
    }
  }

  /** `export`: refused exactly when an arm does not cover the query set. */
  method Export(hash: ResultHash, arms: Arms, queries: set<string>, shuffle: seq<Item> -> seq<Item>)
    returns (r: Option<(seq<PacketRow>, seq<KeyRow>)>)
    requires IsShuffle(shuffle)
    ensures r.Some? <==> forall arm | arm in arms :: Covers(arms, arm, queries)
    ensures r.Some? ==> Exported(hash, arms, r.value.0, r.value.1)
  {
    var listed := ListItems(arms, queries);
    if listed.None? { return None; }
    ShuffleKeepsItems(shuffle, listed.value);
    var items := shuffle(listed.value);
    var packet: seq<PacketRow>, key: seq<KeyRow> := [], [];
    assert forall n | 0 <= n < |items| :: items[n] in items;
    for n := 0 to |items|
      invariant |packet| == |key| == n
      invariant forall m | 0 <= m < n :: (key[m].arm, key[m].query) == items[m] && KeyRowFor(hash, arms, m, packet[m], key[m])
    {
      var (arm, q) := items[n];
      assert items[n] in listed.value && Covers(arms, arm, queries);
      var row := arms[arm][q];
      packet := packet + [PacketRow(ReviewId(n), row.answer.abstained, row.answer.text)];
      key := key + [KeyRow(ReviewId(n), arm, q, hash(arm, row))];
    }
    forall arm, q | arm in arms && q in arms[arm] ensures exists n | 0 <= n < |key| :: key[n].arm == arm && key[n].query == q {
      assert Covers(arms, arm, queries);
      assert (arm, q) in listed.value;
      assert (arm, q) in items;
      var n :| 0 <= n < |items| && items[n] == (arm, q);
      assert (key[n].arm, key[n].query) == items[n];
    }
    forall i, j | 0 <= i < j < |key| ensures (key[i].arm, key[i].query) != (key[j].arm, key[j].query) {
      assert items[i] != items[j];
    }
    r := Some((packet, key));
  }

  // ---------------------------------------------------------------- import

  datatype Judgment = Judgment(arm: string, query: string, resultHash: string, answerCorrect: bool,
                               total: int, supported: int, adjudicator: string, rubricHash: string, blinded: bool)

  datatype Problem =
    | DuplicateKey
    | UnknownReview(at: nat)
    | DuplicateReview(at: nat)
    | ResultMissing(at: nat)
    | StaleReview(at: nat)
    | NotBool(at: nat)
    | InvalidClaims(at: nat)
    | AbstentionMismatch(at: nat)
    | MissingReviews

  datatype Imported = Ok(judgments: seq<Judgment>) | Err(problem: Problem)

  /** `kmap`: the last key row under each id. */
  function KeyMap(key: seq<KeyRow>): map<string, KeyRow> {
    if key == [] then map[] else KeyMap(key[..|key| - 1])[key[|key| - 1].reviewId := key[|key| - 1]]
  }

  function Current(arms: Arms, k: KeyRow): Option<Row> {
    if k.arm in arms && k.query in arms[k.arm] then Some(arms[k.arm][k.query]) else None
  }

  /** The checks one review meets, in their order. */
  function ReviewProblem(hash: ResultHash, kmap: map<string, KeyRow>, arms: Arms, seen: set<string>, r: Review, at: nat): Option<Problem> {
    if !r.reviewId.Str? || r.reviewId.s !in kmap then Some(UnknownReview(at))
    else if r.reviewId.s in seen then Some(DuplicateReview(at))
    else
      var k := kmap[r.reviewId.s];
      var current := Current(arms, k);
      if current.None? then Some(ResultMissing(at))
      else if hash(k.arm, current.value) != k.resultHash then Some(StaleReview(at))
      else if !r.answerCorrect.Bool? then Some(NotBool(at))
      else if !(r.total.Int? && r.supported.Int? && 0 <= r.supported.i <= r.total.i) then Some(InvalidClaims(at))
      else if (r.total.i == 0) != current.value.answer.abstained then Some(AbstentionMismatch(at))
      else None
  }

  function SeenIn(reviews: seq<Review>): set<string> {
    set r | r in reviews && r.reviewId.Str? :: r.reviewId.s
  }

  /** The first problem among the reviews, each judged against those before it. */
  function FirstProblem(hash: ResultHash, kmap: map<string, KeyRow>, arms: Arms, reviews: seq<Review>): Option<Problem> {
    if reviews == [] then None
    else
      var n := |reviews| - 1;
      var earlier := FirstProblem(hash, kmap, arms, reviews[..n]);
      if earlier.Some? then earlier else ReviewProblem(hash, kmap, arms, SeenIn(reviews[..n]), reviews[n], n)
  }

  function JudgmentOf(kmap: map<string, KeyRow>, r: Review, adjudicator: string, rubricHash: string): Option<Judgment> {
    if r.reviewId.Str? && r.reviewId.s in kmap && r.answerCorrect.Bool? && r.total.Int? && r.supported.Int? then
      var k := kmap[r.reviewId.s];
      Some(Judgment(k.arm, k.query, k.resultHash, r.answerCorrect.b, r.total.i, r.supported.i, adjudicator, rubricHash, true))
    else None
  }

  predicate Before(a: Judgment, b: Judgment) {
    if a.arm == b.arm then LexLeq(a.query, b.query) else LexLeq(a.arm, b.arm)
  }

  ghost predicate InOrder(s: seq<Judgment>) {
    forall i, j | 0 <= i < j < |s| :: Before(s[i], s[j])
  }

  /** Judgments are ordered by arm, and within an arm by query. */
  lemma {:induction false} BeforeMeans(a: Judgment, b: Judgment)
    ensures a.arm != b.arm ==> (Before(a, b) <==> LexLeq(a.arm, b.arm))
    ensures a.arm == b.arm ==> (Before(a, b) <==> LexLeq(a.query, b.query))
  {
  }

  lemma {:induction false} BeforeTransitive(a: Judgment, b: Judgment, c: Judgment)
    requires Before(a, b) && Before(b, c)
    ensures Before(a, c)
  {
    if a.arm == b.arm == c.arm { LexTransitive(a.query, b.query, c.query); }
    else {
      LexTotal(a.arm, a.arm); LexTotal(b.arm, b.arm);
      LexTransitive(a.arm, b.arm, c.arm);
      if a.arm == c.arm { LexAntisymmetric(a.arm, b.arm); }
    }
  }

  lemma {:induction false} BeforeTotal(a: Judgment, b: Judgment)
    ensures Before(a, b) || Before(b, a)
  {
    LexTotal(a.arm, b.arm);
    LexTotal(a.query, b.query);
  }

  /** Place `j` after everything that comes before it. */
  function Inserted(s: seq<Judgment>, j: Judgment): seq<Judgment> {
    if s == [] || Before(s[|s| - 1], j) then s + [j] else Inserted(s[..|s| - 1], j) + [s[|s| - 1]]
  }

  function SortedJudgments(s: seq<Judgment>): seq<Judgment> {
    if s == [] then [] else Inserted(SortedJudgments(s[..|s| - 1]), s[|s| - 1])
  }

  lemma {:induction false} InsertedKeeps(s: seq<Judgment>, j: Judgment)
    requires InOrder(s)
    ensures InOrder(Inserted(s, j)) && multiset(Inserted(s, j)) == multiset(s) + multiset{j}
  {
    if s != [] {
      var init, last := s[..|s| - 1], s[|s| - 1];
      assert s == init + [last];
      if Before(last, j) {
        forall i | 0 <= i < |s| ensures Before(s[i], j) {
          if i < |s| - 1 { BeforeTransitive(s[i], last, j); }
        }
      } else {
        BeforeTotal(last, j);
        InsertedKeeps(init, j);
        var r := Inserted(init, j);
        forall i | 0 <= i < |r| ensures Before(r[i], last) {
          assert r[i] in multiset(r);
          assert r[i] == j || r[i] in init;
        }
      }
    }
  }

  lemma {:induction false} SortIsPermutation(s: seq<Judgment>)
    ensures InOrder(SortedJudgments(s)) && multiset(SortedJudgments(s)) == multiset(s)
  {
    hide Before, Inserted;
    if s != [] {
      var n := |s| - 1;
      SortIsPermutation(s[..n]);
      InsertedKeeps(SortedJudgments(s[..n]), s[n]);
      assert s == s[..n] + [s[n]];
    }
  }

  /** The judgments of accepted reviews, in review order. */
  function Bindings(kmap: map<string, KeyRow>, reviews: seq<Review>, adjudicator: string, rubricHash: string): seq<Judgment> {
    if reviews == [] then []
    else
      var n := |reviews| - 1;
      var j := JudgmentOf(kmap, reviews[n], adjudicator, rubricHash);
      Bindings(kmap, reviews[..n], adjudicator, rubricHash) + if j.Some? then [j.value] else []
  }

  function ImportResult(hash: ResultHash, key: seq<KeyRow>, reviews: seq<Review>, arms: Arms, adjudicator: string, rubricHash: string): Imported {
    var kmap := KeyMap(key);
    if |kmap| != |key| then Err(DuplicateKey)
    else
      var problem := FirstProblem(hash, kmap, arms, reviews);
      if problem.Some? then Err(problem.value)
      else if SeenIn(reviews) != kmap.Keys then Err(MissingReviews)
      else Ok(SortedJudgments(Bindings(kmap, reviews, adjudicator, rubricHash)))
  }

  lemma {:induction false} ProblemPersists(hash: ResultHash, kmap: map<string, KeyRow>, arms: Arms, reviews: seq<Review>, n: nat)
    requires n <= |reviews| && FirstProblem(hash, kmap, arms, reviews[..n]).Some?
    ensures FirstProblem(hash, kmap, arms, reviews) == FirstProblem(hash, kmap, arms, reviews[..n])
  {
    hide ReviewProblem, SeenIn;
    if n < |reviews| {
      assert reviews[..|reviews| - 1][..n] == reviews[..n];
      ProblemPersists(hash, kmap, arms, reviews[..|reviews| - 1], n);
    } else {
      assert reviews[..n] == reviews;
    }
  }

  /** What one review needs to be bound to a result that is still the exported one. */
  predicate Bindable(hash: ResultHash, kmap: map<string, KeyRow>, arms: Arms, r: Review) {
    r.reviewId.Str? && r.reviewId.s in kmap &&
    var k := kmap[r.reviewId.s];
    k.arm in arms && k.query in arms[k.arm] &&
    var row := arms[k.arm][k.query];
    && hash(k.arm, row) == k.resultHash
    && r.answerCorrect.Bool? && r.total.Int? && r.supported.Int?
    && 0 <= r.supported.i <= r.total.i
    && (r.total.i == 0 <==> row.answer.abstained)
  }

  lemma {:induction false} NoProblemIff(hash: ResultHash, kmap: map<string, KeyRow>, arms: Arms, reviews: seq<Review>)
    ensures FirstProblem(hash, kmap, arms, reviews).None? <==>
      && (forall i | 0 <= i < |reviews| :: Bindable(hash, kmap, arms, reviews[i]))
      && (forall i, j | 0 <= i < j < |reviews| :: reviews[i].reviewId != reviews[j].reviewId)
  {
    if reviews != [] {
      var n := |reviews| - 1;
      var init, last := reviews[..n], reviews[n];
      NoProblemIff(hash, kmap, arms, init);
      assert reviews == init + [last];
      OneProblemIff(hash, kmap, arms, SeenIn(init), last, n);
      if last.reviewId.Str? { SeenIff(init, last.reviewId.s); }
      hide FirstProblem, Bindable, SeenIn;
      if forall i | 0 <= i < n :: Bindable(hash, kmap, arms, init[i]) {
        forall i | 0 <= i < n ensures init[i].reviewId.Str? { BindableHasId(hash, kmap, arms, init[i]); }
      }
      if Bindable(hash, kmap, arms, last) { BindableHasId(hash, kmap, arms, last); }
      FirstProblemSplits(hash, kmap, arms, reviews, n);
    }
  }

  lemma {:induction false} FirstProblemSplits(hash: ResultHash, kmap: map<string, KeyRow>, arms: Arms, reviews: seq<Review>, n: nat)
    requires |reviews| == n + 1
    ensures FirstProblem(hash, kmap, arms, reviews).None? <==>
      FirstProblem(hash, kmap, arms, reviews[..n]).None?
      && ReviewProblem(hash, kmap, arms, SeenIn(reviews[..n]), reviews[n], n).None?
  {
    hide ReviewProblem, SeenIn;
  }

  lemma {:induction false} BindableHasId(hash: ResultHash, kmap: map<string, KeyRow>, arms: Arms, r: Review)
    requires Bindable(hash, kmap, arms, r)
    ensures r.reviewId.Str?
  {
  }

  lemma {:induction false} OneProblemIff(hash: ResultHash, kmap: map<string, KeyRow>, arms: Arms, seen: set<string>, r: Review, at: nat)
    ensures ReviewProblem(hash, kmap, arms, seen, r, at).None? <==>
      Bindable(hash, kmap, arms, r) && r.reviewId.s !in seen
  {
  }

  lemma {:induction false} SeenIff(reviews: seq<Review>, id: string)
    ensures id in SeenIn(reviews) <==> exists i | 0 <= i < |reviews| :: reviews[i].reviewId == Str(id)
  {
    if i :| 0 <= i < |reviews| && reviews[i].reviewId == Str(id) { assert reviews[i] in reviews; }
  }

  /** **Import, exactly**, for reviews of any origin: accepted if and only if the key repeats no
      id, every review is bindable, no two share an id, and every key row got one. */
  lemma {:induction false} ImportAcceptsIff(hash: ResultHash, key: seq<KeyRow>, reviews: seq<Review>, arms: Arms, adjudicator: string, rubricHash: string)
    ensures ImportResult(hash, key, reviews, arms, adjudicator, rubricHash).Ok? <==>
      && |KeyMap(key)| == |key|
      && (forall i | 0 <= i < |reviews| :: Bindable(hash, KeyMap(key), arms, reviews[i]))
      && (forall i, j | 0 <= i < j < |reviews| :: reviews[i].reviewId != reviews[j].reviewId)
      && (forall id :: id in KeyMap(key) <==> exists i | 0 <= i < |reviews| :: reviews[i].reviewId == Str(id))
  {
    hide FirstProblem, Bindable, KeyMap, SeenIn, SortedJudgments, Bindings;
    NoProblemIff(hash, KeyMap(key), arms, reviews);
    forall id ensures id in SeenIn(reviews) <==> exists i | 0 <= i < |reviews| :: reviews[i].reviewId == Str(id) { SeenIff(reviews, id); }
    assert SeenIn(reviews) == KeyMap(key).Keys <==> forall id :: id in KeyMap(key) <==> id in SeenIn(reviews);
  }

  /** What each refusal of an import means for the review it points at. */
  lemma {:induction false} ProblemMeans(hash: ResultHash, kmap: map<string, KeyRow>, arms: Arms, seen: set<string>, r: Review, at: nat)
    requires ReviewProblem(hash, kmap, arms, seen, r, at).Some?
    ensures match ReviewProblem(hash, kmap, arms, seen, r, at).value
      case UnknownReview(i) => i == at && !(r.reviewId.Str? && r.reviewId.s in kmap)
      case DuplicateReview(i) => i == at && r.reviewId.Str? && r.reviewId.s in seen
      case ResultMissing(i) => i == at && r.reviewId.Str? && r.reviewId.s in kmap && Current(arms, kmap[r.reviewId.s]).None?
      case StaleReview(i) =>
        i == at && r.reviewId.Str? && r.reviewId.s in kmap &&
        var k := kmap[r.reviewId.s]; Current(arms, k).Some? && hash(k.arm, Current(arms, k).value) != k.resultHash
      case NotBool(i) => i == at && !r.answerCorrect.Bool?
      case InvalidClaims(i) => i == at && !(r.total.Int? && r.supported.Int? && 0 <= r.supported.i <= r.total.i)
      case AbstentionMismatch(i) =>
        i == at && r.total.Int? && r.reviewId.Str? && r.reviewId.s in kmap && Current(arms, kmap[r.reviewId.s]).Some?
        && (r.total.i == 0) != Current(arms, kmap[r.reviewId.s]).value.answer.abstained
      case _ => false
  {
  }

  lemma {:induction false} SeenGrows(reviews: seq<Review>, n: nat)
    requires n < |reviews| && reviews[n].reviewId.Str?
    ensures SeenIn(reviews[..n + 1]) == SeenIn(reviews[..n]) + {reviews[n].reviewId.s}
  {
    assert reviews[..n + 1] == reviews[..n] + [reviews[n]];
    assert reviews[n] in reviews[..n + 1];
  }

  /** `import_reviews`. */
  method ImportReviews(hash: ResultHash, key: seq<KeyRow>, reviews: seq<Review>, arms: Arms, adjudicator: string, rubricHash: string)
    returns (r: Imported)
    ensures r == ImportResult(hash, key, reviews, arms, adjudicator, rubricHash)
  {
    var kmap := KeyMap(key);
    if |kmap| != |key| { return Err(DuplicateKey); }
    var seen: set<string>, out: seq<Judgment> := {}, [];
    for n := 0 to |reviews|
      invariant FirstProblem(hash, kmap, arms, reviews[..n]).None?
      invariant seen == SeenIn(reviews[..n])
      invariant out == Bindings(kmap, reviews[..n], adjudicator, rubricHash)
    {
      var review := reviews[n];
      assert reviews[..n + 1][..n] == reviews[..n] && reviews[..n + 1][n] == review;
      var problem := ReviewProblem(hash, kmap, arms, seen, review, n);
      if problem.Some? {
        ProblemPersists(hash, kmap, arms, reviews, n + 1);
        return Err(problem.value);
      }
      SeenGrows(reviews, n);
      seen := seen + {review.reviewId.s};
      var k := kmap[review.reviewId.s];
      out := out + [Judgment(k.arm, k.query, k.resultHash, review.answerCorrect.b, review.total.i, review.supported.i,
                             adjudicator, rubricHash, true)];
    }
    assert reviews[..|reviews|] == reviews;
    if seen != kmap.Keys { return Err(MissingReviews); }
    r := Ok(SortedJudgments(out));
  }

  // ---------------------------------------------------------------- the pipeline

  /** The judged reviews of a whole packet. */
  ghost predicate Judged(packet: seq<PacketRow>, replies: seq<Verdict>, reviews: seq<Review>) {
    |replies| == |reviews| == |packet| && forall i | 0 <= i < |packet| :: reviews[i] == ReviewOf(packet[i], replies[i])
  }

  lemma {:induction false} ReviewIdsDiffer(n: nat)
    ensures forall m: nat | m < n :: ReviewId(m) != ReviewId(n)
  {
    forall m: nat | m < n ensures ReviewId(m) != ReviewId(n) {
      if ReviewId(m) == ReviewId(n) { ReviewIdIsInjective(m, n); }
    }
  }

  /** `id` is the id of one of the first `n` rows. */
  ghost predicate IsIdBelow(id: string, n: nat) {
    exists m: nat :: m < n && id == ReviewId(m)
  }

  ghost predicate Numbered(key: seq<KeyRow>) {
    forall n | 0 <= n < |key| :: key[n].reviewId == ReviewId(n)
  }

  lemma {:induction false} KeyMapOfNumbered(key: seq<KeyRow>)
    requires Numbered(key)
    ensures |KeyMap(key)| == |key|
    ensures forall n | 0 <= n < |key| :: ReviewId(n) in KeyMap(key) && KeyMap(key)[ReviewId(n)] == key[n]
    ensures forall id :: id in KeyMap(key) <==> IsIdBelow(id, |key|)
  {
    hide ReviewId;
    if key != [] {
      var n := |key| - 1;
      var last := key[n];
      KeyMapOfNumbered(key[..n]);
      ReviewIdsDiffer(n);
      var init := KeyMap(key[..n]);
      assert last.reviewId == ReviewId(n) && last.reviewId !in init;
      var all := init[last.reviewId := last];
      assert KeyMap(key) == all;
      hide KeyMap;
      forall m | 0 <= m < |key| ensures ReviewId(m) in all && all[ReviewId(m)] == key[m] {
        if m < n { assert key[..n][m] == key[m]; }
      }
      forall id ensures id in all <==> IsIdBelow(id, |key|) {
        if id in all && id != last.reviewId { assert IsIdBelow(id, n); }
      }
    }
  }

  /** A result the import still finds as it was when exported. */
  predicate Unchanged(hash: ResultHash, arms: Arms, p: PacketRow, k: KeyRow) {
    var current := Current(arms, k);
    current.Some? && hash(k.arm, current.value) == k.resultHash && current.value.answer.abstained == p.abstained
  }

  ghost predicate AllUnchanged(hash: ResultHash, arms: Arms, packet: seq<PacketRow>, key: seq<KeyRow>)
    requires |packet| == |key|
  {
    forall n | 0 <= n < |key| :: Unchanged(hash, arms, packet[n], key[n])
  }

  lemma {:induction false} SeenIsIds(packet: seq<PacketRow>, replies: seq<Verdict>, reviews: seq<Review>, n: nat)
    requires Judged(packet, replies, reviews) && n <= |packet|
    requires forall i | 0 <= i < |packet| :: packet[i].reviewId == ReviewId(i)
    ensures forall id :: id in SeenIn(reviews[..n]) <==> IsIdBelow(id, n)
  {
    hide ReviewId, ReviewOf;
    forall i | 0 <= i < n ensures reviews[i] in reviews[..n] && reviews[i].reviewId == Str(ReviewId(i)) {
      EveryReplyIsUsable(packet[i], replies[i]);
      assert reviews[..n][i] == reviews[i];
    }
    var seen := SeenIn(reviews[..n]);
    forall id ensures id in seen <==> IsIdBelow(id, n) {
      if IsIdBelow(id, n) {
        var m: nat :| m < n && id == ReviewId(m);
        assert reviews[m] in reviews[..n];
      }
      if id in seen {
        var r :| r in reviews[..n] && r.reviewId.Str? && r.reviewId.s == id;
        var m :| 0 <= m < n && reviews[m] == r;
      }
    }
  }

  /** A judged review meets the import's checks exactly when its result is unchanged. */
  lemma {:induction false} JudgedReviewPassesIff(hash: ResultHash, arms: Arms, packet: seq<PacketRow>, key: seq<KeyRow>,
                              replies: seq<Verdict>, reviews: seq<Review>, n: nat)
    requires |packet| == |key| && Judged(packet, replies, reviews) && n < |key|
    requires Numbered(key) && forall i | 0 <= i < |key| :: packet[i].reviewId == ReviewId(i)
    ensures ReviewProblem(hash, KeyMap(key), arms, SeenIn(reviews[..n]), reviews[n], n).None?
      <==> Unchanged(hash, arms, packet[n], key[n])
  {
    hide ReviewId, ReviewOf, KeyMap, SeenIn;
    KeyMapOfNumbered(key);
    SeenIsIds(packet, replies, reviews, n);
    EveryReplyIsUsable(packet[n], replies[n]);
    ReviewIdsDiffer(n);
    assert KeyMap(key)[ReviewId(n)] == key[n];
    assert ReviewId(n) !in SeenIn(reviews[..n]);
  }

  lemma {:induction false} JudgedPrefixPassesIff(hash: ResultHash, arms: Arms, packet: seq<PacketRow>, key: seq<KeyRow>,
                                                 replies: seq<Verdict>, reviews: seq<Review>, n: nat)
    requires |packet| == |key| && Judged(packet, replies, reviews) && n <= |key|
    requires Numbered(key) && forall i | 0 <= i < |key| :: packet[i].reviewId == ReviewId(i)
    ensures FirstProblem(hash, KeyMap(key), arms, reviews[..n]).None?
      <==> forall i | 0 <= i < n :: Unchanged(hash, arms, packet[i], key[i])
  {
    hide Unchanged, ReviewProblem, KeyMap, SeenIn, ReviewOf, ReviewId;
    if n > 0 {
      JudgedPrefixPassesIff(hash, arms, packet, key, replies, reviews, n - 1);
      JudgedReviewPassesIff(hash, arms, packet, key, replies, reviews, n - 1);
      assert reviews[..n][..n - 1] == reviews[..n - 1] && reviews[..n][n - 1] == reviews[n - 1];
    }
  }

  /** **The import of a judged packet is refused exactly when some result changed**, whatever
      the model replied to each row: no reply, and no failure to parse one, can break it. */
  lemma {:induction false} JudgedImportAcceptsIff(hash: ResultHash, arms: Arms, later: Arms, packet: seq<PacketRow>, key: seq<KeyRow>,
                               replies: seq<Verdict>, reviews: seq<Review>, adjudicator: string, rubricHash: string)
    requires Exported(hash, arms, packet, key) && Judged(packet, replies, reviews)
    ensures ImportResult(hash, key, reviews, later, adjudicator, rubricHash).Ok?
      <==> AllUnchanged(hash, later, packet, key)
  {
    hide ReviewId, ReviewOf, KeyMap, SeenIn, FirstProblem, Unchanged, SortedJudgments, Bindings;
    assert forall n | 0 <= n < |key| :: KeyRowFor(hash, arms, n, packet[n], key[n]);
    assert Numbered(key);
    KeyMapOfNumbered(key);
    assert reviews[..|reviews|] == reviews;
    JudgedPrefixPassesIff(hash, later, packet, key, replies, reviews, |key|);
    SeenIsIds(packet, replies, reviews, |key|);
    assert SeenIn(reviews) == KeyMap(key).Keys;
  }

  /** Judgment `n` binds review `n` to key row `n`. */
  lemma {:induction false} BindingsAt(packet: seq<PacketRow>, key: seq<KeyRow>, replies: seq<Verdict>, reviews: seq<Review>,
                                      adjudicator: string, rubricHash: string, n: nat)
    requires |packet| == |key| && Judged(packet, replies, reviews) && n <= |key|
    requires Numbered(key) && forall i | 0 <= i < |key| :: packet[i].reviewId == ReviewId(i)
    ensures var out := Bindings(KeyMap(key), reviews[..n], adjudicator, rubricHash);
      |out| == n && forall i | 0 <= i < n :: Binds(out[i], packet[i], key[i], reviews[i], adjudicator, rubricHash)
  {
    hide ReviewId, ReviewOf, KeyMap, JudgmentOf, Binds;
    if n > 0 {
      BindingsAt(packet, key, replies, reviews, adjudicator, rubricHash, n - 1);
      KeyMapOfNumbered(key);
      assert reviews[..n][..n - 1] == reviews[..n - 1] && reviews[..n][n - 1] == reviews[n - 1];
      BindsRow(KeyMap(key), packet[n - 1], key[n - 1], replies[n - 1], adjudicator, rubricHash);
    }
  }

  lemma {:induction false} BindsRow(kmap: map<string, KeyRow>, p: PacketRow, k: KeyRow, v: Verdict, adjudicator: string, rubricHash: string)
    requires p.reviewId in kmap && kmap[p.reviewId] == k
    ensures var j := JudgmentOf(kmap, ReviewOf(p, v), adjudicator, rubricHash);
      j.Some? && Binds(j.value, p, k, ReviewOf(p, v), adjudicator, rubricHash)
  {
    hide ReviewOf;
    EveryReplyIsUsable(p, v);
  }

  predicate Binds(j: Judgment, p: PacketRow, k: KeyRow, r: Review, adjudicator: string, rubricHash: string) {
    && j.arm == k.arm && j.query == k.query && j.resultHash == k.resultHash
    && r.answerCorrect == Bool(j.answerCorrect) && r.total == Int(j.total) && r.supported == Int(j.supported)
    && 0 <= j.supported <= j.total && (j.total == 0 <==> p.abstained)
    && j.adjudicator == adjudicator && j.rubricHash == rubricHash && j.blinded
  }

  /** A judgment that speaks for one result. */
  predicate JudgmentFor(hash: ResultHash, arms: Arms, j: Judgment) {
    j.arm in arms && j.query in arms[j.arm] &&
    var row := arms[j.arm][j.query];
    j.resultHash == hash(j.arm, row) && 0 <= j.supported <= j.total && (j.total == 0 <==> row.answer.abstained)
  }

  /** A judgment carries the review of the packet row its (arm, query) was exported under. */
  ghost predicate Carries(j: Judgment, packet: seq<PacketRow>, key: seq<KeyRow>, reviews: seq<Review>, adjudicator: string, rubricHash: string)
    requires |packet| == |key| == |reviews|
  {
    exists n | 0 <= n < |key| :: Binds(j, packet[n], key[n], reviews[n], adjudicator, rubricHash)
  }

  lemma {:induction false} EachCarriesItsReview(packet: seq<PacketRow>, key: seq<KeyRow>, replies: seq<Verdict>, reviews: seq<Review>,
                                                adjudicator: string, rubricHash: string, sorted: seq<Judgment>)
    requires |packet| == |key| && Judged(packet, replies, reviews)
    requires Numbered(key) && forall i | 0 <= i < |key| :: packet[i].reviewId == ReviewId(i)
    requires multiset(sorted) == multiset(Bindings(KeyMap(key), reviews, adjudicator, rubricHash))
    ensures forall i | 0 <= i < |sorted| :: Carries(sorted[i], packet, key, reviews, adjudicator, rubricHash)
  {
    hide ReviewId, ReviewOf, KeyMap, Bindings, Binds;
    assert reviews[..|key|] == reviews;
    BindingsAt(packet, key, replies, reviews, adjudicator, rubricHash, |key|);
    var out := Bindings(KeyMap(key), reviews, adjudicator, rubricHash);
    SameMembers(sorted, out);
    forall i | 0 <= i < |sorted| ensures Carries(sorted[i], packet, key, reviews, adjudicator, rubricHash) {
      assert sorted[i] in out;
      var n :| 0 <= n < |out| && out[n] == sorted[i];
      assert Binds(sorted[i], packet[n], key[n], reviews[n], adjudicator, rubricHash);
    }
  }

  /** Exactly one judgment per (arm, query), each speaking for its result. */
  ghost predicate OnePerResult(hash: ResultHash, arms: Arms, js: seq<Judgment>) {
    && (forall i | 0 <= i < |js| :: JudgmentFor(hash, arms, js[i]))
    && PairsDiffer(js)
    && (forall arm, q | arm in arms && q in arms[arm] :: exists i | 0 <= i < |js| :: js[i].arm == arm && js[i].query == q)
  }

  lemma {:induction false} BindingsAreOnePerResult(hash: ResultHash, arms: Arms, packet: seq<PacketRow>, key: seq<KeyRow>,
                                                   replies: seq<Verdict>, reviews: seq<Review>, adjudicator: string, rubricHash: string)
    requires Exported(hash, arms, packet, key) && Judged(packet, replies, reviews)
    ensures var out := Bindings(KeyMap(key), reviews, adjudicator, rubricHash); |out| == |key| && OnePerResult(hash, arms, out)
  {
    hide ReviewId, ReviewOf, KeyMap, Bindings;
    assert forall n | 0 <= n < |key| :: KeyRowFor(hash, arms, n, packet[n], key[n]);
    assert Numbered(key);
    assert reviews[..|key|] == reviews;
    BindingsAt(packet, key, replies, reviews, adjudicator, rubricHash, |key|);
    var out := Bindings(KeyMap(key), reviews, adjudicator, rubricHash);
    forall i | 0 <= i < |out| ensures JudgmentFor(hash, arms, out[i]) && out[i].arm == key[i].arm && out[i].query == key[i].query {
      assert KeyRowFor(hash, arms, i, packet[i], key[i]);
    }
    hide JudgmentFor, KeyRowFor, Binds;
    forall arm, q | arm in arms && q in arms[arm] ensures exists i | 0 <= i < |out| :: out[i].arm == arm && out[i].query == q {
      var n :| 0 <= n < |key| && key[n].arm == arm && key[n].query == q;
      assert out[n].arm == arm && out[n].query == q;
    }
  }

  lemma {:induction false} ReorderedIsOnePerResult(hash: ResultHash, arms: Arms, a: seq<Judgment>, b: seq<Judgment>)
    requires multiset(a) == multiset(b) && OnePerResult(hash, arms, b)
    ensures |a| == |b| && OnePerResult(hash, arms, a)
  {
    hide JudgmentFor, PairsDiffer;
    SameMembers(a, b);
    PairsStayDistinct(a, b);
    forall i | 0 <= i < |a| ensures JudgmentFor(hash, arms, a[i]) {
      assert a[i] in b;
    }
    forall arm, q | arm in arms && q in arms[arm] ensures exists i | 0 <= i < |a| :: a[i].arm == arm && a[i].query == q {
      var n :| 0 <= n < |b| && b[n].arm == arm && b[n].query == q;
      assert b[n] in a;
    }
  }

  /** **The pipeline is total**: with unchanged results, any replies give an accepted import
      holding, in (arm, query) order, exactly one judgment per (arm, query), bound to that
      result's hash, carrying that row's review, with zero claims exactly when its answer
      abstained. */
  lemma {:induction false} PipelineIsTotal(hash: ResultHash, arms: Arms, packet: seq<PacketRow>, key: seq<KeyRow>,
                                           replies: seq<Verdict>, reviews: seq<Review>, adjudicator: string, rubricHash: string)
    requires Exported(hash, arms, packet, key) && Judged(packet, replies, reviews)
    ensures var r := ImportResult(hash, key, reviews, arms, adjudicator, rubricHash);
      && r.Ok? && |r.judgments| == |key| && InOrder(r.judgments) && OnePerResult(hash, arms, r.judgments)
      && forall i | 0 <= i < |r.judgments| :: Carries(r.judgments[i], packet, key, reviews, adjudicator, rubricHash)
  {
    hide OnePerResult, Carries, ReviewOf, ReviewId, InOrder, KeyMap, FirstProblem, SeenIn, SortedJudgments, Bindings;
    JudgedImportAcceptsIff(hash, arms, arms, packet, key, replies, reviews, adjudicator, rubricHash);
    assert forall n | 0 <= n < |key| :: KeyRowFor(hash, arms, n, packet[n], key[n]);
    BindingsAreOnePerResult(hash, arms, packet, key, replies, reviews, adjudicator, rubricHash);
    var out := Bindings(KeyMap(key), reviews, adjudicator, rubricHash);
    SortIsPermutation(out);
    ReorderedIsOnePerResult(hash, arms, SortedJudgments(out), out);
    EachCarriesItsReview(packet, key, replies, reviews, adjudicator, rubricHash, SortedJudgments(out));
  }

  lemma {:induction false} SameMembers(a: seq<Judgment>, b: seq<Judgment>)
    requires multiset(a) == multiset(b)
    ensures |a| == |b| && (forall x :: x in a <==> x in b)
  {
    assert |multiset(a)| == |a| && |multiset(b)| == |b|;
    forall x ensures x in a <==> x in b { assert x in a <==> x in multiset(a); }
  }

  ghost predicate PairsDiffer(s: seq<Judgment>) {
    forall i, j | 0 <= i < j < |s| :: (s[i].arm, s[i].query) != (s[j].arm, s[j].query)
  }

  /** Taking an element out of a list leaves different pairs, none of them its own. */
  lemma {:induction false} TakenOut(b: seq<Judgment>, m: nat) returns (rest: seq<Judgment>)
    requires m < |b| && PairsDiffer(b)
    ensures PairsDiffer(rest) && multiset(b) == multiset(rest) + multiset{b[m]}
    ensures forall x | x in rest :: (x.arm, x.query) != (b[m].arm, b[m].query)
  {
    rest := b[..m] + b[m + 1..];
    assert b == b[..m] + [b[m]] + b[m + 1..];
    assert forall l | 0 <= l < |rest| :: rest[l] == b[if l < m then l else l + 1];
  }

  lemma {:induction false} SameRest(a: seq<Judgment>, rest: seq<Judgment>, n: nat)
    requires |a| == n + 1 && multiset(a) == multiset(rest) + multiset{a[n]}
    ensures multiset(a[..n]) == multiset(rest)
  {
    assert a == a[..n] + [a[n]];
    assert multiset(a) == multiset(a[..n]) + multiset{a[n]};
    assert multiset(a[..n]) == multiset(a) - multiset{a[n]} == multiset(rest);
  }

  /** Distinct (arm, query) pairs survive reordering. */
  lemma {:induction false} PairsStayDistinct(a: seq<Judgment>, b: seq<Judgment>)
    requires multiset(a) == multiset(b) && PairsDiffer(b)
    ensures PairsDiffer(a)
  {
    if a != [] {
      var n := |a| - 1;
      SameMembers(a, b);
      assert a[n] in a;
      var m :| 0 <= m < |b| && b[m] == a[n];
      var rest := TakenOut(b, m);
      SameRest(a, rest, n);
      PairsStayDistinct(a[..n], rest);
      SameMembers(a[..n], rest);
      forall i | 0 <= i < n ensures (a[i].arm, a[i].query) != (a[n].arm, a[n].query) {
        assert a[i] == a[..n][i] && a[i] in a[..n];
      }
    }
  }

  /** **End to end**: every judgment of a judged packet passes, for its generated row, all the
      checks the evaluator makes of that row and its claim count. */
  lemma {:induction false} EvaluatorAcceptsJudgedRows(codec: Codec, docs: Corpus, protocolHash: string,
                                   count: Tokenizer, r: Retrieval, reply: Option<Reply>, k: int, budget: int, elapsed: real,
                                   hash: ResultHash, arms: Arms, j: Judgment)
    requires JudgmentFor(hash, arms, j)
    requires arms[j.arm][j.query] == RunOne(codec, docs, count, r, reply, k, budget, elapsed)
    requires IntegerOk(budget) && codec.encode("") == []
    requires forall id | id in r.ranking && Cost(docs, count, id).Some? :: Cost(docs, count, id).value >= 0
    ensures Accepts(codec, docs, protocolHash, j.total, arms[j.arm][j.query])
      <==> RetrievalFits(docs, protocolHash, r, elapsed) && AnswerFits(codec, arms[j.arm][j.query])
  {
    hide Accepts, RunOne, RetrievalFits, AnswerFits, Cost;
    GeneratedRowAcceptedIff(codec, docs, count, r, reply, k, budget, elapsed, protocolHash, j.total);
  }
}
