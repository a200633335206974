/** The answer generator (scripts/rag-e2e-generate.py:42-95) against the evaluator that later
    checks and scores its rows (scripts/evaluate-rag-campaign.py:103-105, 121-165, 177-178).
    The model backend, the tokenizer, UTF-8 and SHA-256 are parameters. */
module Generator {
  import opened Ops
  import opened Seqs

  datatype Doc = Doc(tenant: string, principals: set<string>, active: bool, text: string, contentHash: string)

  datatype Query = Query(tenant: string, principal: string)

  type Corpus = map<string, Doc>

  datatype Codec = Codec(encode: string -> seq<bv8>, sha: seq<bv8> -> string, space: char -> bool)

  /** A field of a parsed JSON object, by the types the scripts test for. */
  datatype Json = Missing | Bool(b: bool) | Int(i: int) | Str(s: string) | Other

  datatype RawCitation = RawCitation(docId: Json, start: Json, end: Json)

  datatype Citation = Citation(docId: string, start: int, end: int, sourceHash: string, quoteHash: string)

  // ---------------------------------------------------------------- context

  /** Python's `ranking[:k]`, a negative `k` counting from the end. */
  function Top(ranking: seq<string>, k: int): seq<string> {
    if k >= |ranking| then ranking
    else if k >= 0 then ranking[..k]
    else if |ranking| + k >= 0 then ranking[..|ranking| + k]
    else []
  }

  /** A cut-off of at least 0 takes that many, a negative one drops that many from the end. */
  lemma {:induction false} TopSize(ranking: seq<string>, k: int)
    ensures Top(ranking, k) <= ranking
    ensures k >= 0 ==> |Top(ranking, k)| == if k < |ranking| then k else |ranking|
    ensures k < 0 ==> |Top(ranking, k)| == if |ranking| + k > 0 then |ranking| + k else 0
  {
  }

  type Tokenizer = string -> Option<int>

  /** The token cost of one source block; absent when the document is unknown or the
      tokenizer raises. */
  function Cost(docs: Corpus, count: Tokenizer, id: string): Option<int> {
    if id in docs then count("[" + id + "] " + docs[id].text) else None
  }

  /** A source costs what its whole block costs, id included. */
  lemma {:induction false} BlockCost(docs: Corpus, count: Tokenizer, id: string)
    ensures id in docs ==> Cost(docs, count, id) == count("[" + id + "] " + docs[id].text)
    ensures id !in docs ==> Cost(docs, count, id) == None
  {
  }

  datatype Context = Context(chosen: seq<string>, used: int)

  function Selected(docs: Corpus, count: Tokenizer, top: seq<string>, budget: int, got: Context): Option<Context>
    decreases |top|
  {
    if top == [] then Some(got)
    else
      var cost := Cost(docs, count, top[0]);
      if cost.None? then None
      else if got.used + cost.value > budget then Some(got)
      else Selected(docs, count, top[1..], budget, Context(got.chosen + [top[0]], got.used + cost.value))
  }

  /** `build_context`. */
  method BuildContext(docs: Corpus, count: Tokenizer, ranking: seq<string>, k: int, budget: int)
    returns (r: Option<Context>)
    ensures r == Selected(docs, count, Top(ranking, k), budget, Context([], 0))
  {
    var top := Top(ranking, k);
    var chosen: seq<string>, used := [], 0;
    var i := 0;
    while i < |top|
      invariant 0 <= i <= |top|
      invariant Selected(docs, count, top[i..], budget, Context(chosen, used))
             == Selected(docs, count, top, budget, Context([], 0))
    {
      var cost := Cost(docs, count, top[i]);
      if cost.None? { return None; }
      if used + cost.value > budget { return Some(Context(chosen, used)); }
      assert top[i..][1..] == top[i + 1..];
      chosen, used, i := chosen + [top[i]], used + cost.value, i + 1;
    }
    r := Some(Context(chosen, used));
  }

  /** The exact token total of a list of sources, when every one of them has a cost. */
  function Total(docs: Corpus, count: Tokenizer, ids: seq<string>): Option<int> {
    if ids == [] then Some(0)
    else
      var rest := Total(docs, count, ids[..|ids| - 1]);
      var last := Cost(docs, count, ids[|ids| - 1]);
      if rest.None? || last.None? then None else Some(rest.value + last.value)
  }

  predicate Fits(docs: Corpus, count: Tokenizer, ids: seq<string>, budget: int) {
    var total := Total(docs, count, ids);
    total.Some? && total.value <= budget
  }

  /** Every prefix up to `stop` fits; the selection ends there because the list does or
      because the next source does not fit, or it fails because the next one has no cost. */
  predicate StopsAt(docs: Corpus, count: Tokenizer, top: seq<string>, budget: int, r: Option<Context>, stop: nat) {
    && stop <= |top|
    && (forall m | 1 <= m <= stop :: Fits(docs, count, top[..m], budget))
    && (if r.Some? then
          && r.value.chosen == top[..stop] && Total(docs, count, top[..stop]) == Some(r.value.used)
          && (stop < |top| ==> Total(docs, count, top[..stop + 1]).Some? && !Fits(docs, count, top[..stop + 1], budget))
        else stop < |top| && Cost(docs, count, top[stop]).None?)
  }

  lemma {:induction false} SelectedIsPrefix(docs: Corpus, count: Tokenizer, top: seq<string>, budget: int, n: nat)
    returns (stop: nat)
    requires n <= |top| && Total(docs, count, top[..n]).Some?
    requires forall m | 1 <= m <= n :: Fits(docs, count, top[..m], budget)
    ensures StopsAt(docs, count, top, budget,
      Selected(docs, count, top[n..], budget, Context(top[..n], Total(docs, count, top[..n]).value)), stop)
    decreases |top| - n
  {
    hide Cost, Selected, Total;
    stop := n;
    if n == |top| {
      SelectsNothing(docs, count, top[n..], budget, Context(top[..n], Total(docs, count, top[..n]).value));
    } else {
      SelectStep(docs, count, top, budget, n);
      var cost := Cost(docs, count, top[n]);
      if cost.Some? && Total(docs, count, top[..n]).value + cost.value <= budget {
        stop := SelectedIsPrefix(docs, count, top, budget, n + 1);
      }
    }
  }

  lemma {:induction false} SelectsNothing(docs: Corpus, count: Tokenizer, top: seq<string>, budget: int, got: Context)
    requires top == []
    ensures Selected(docs, count, top, budget, got) == Some(got)
  {
  }

  /** One source further: it has no cost, does not fit, or is taken. */
  lemma {:induction false} SelectStep(docs: Corpus, count: Tokenizer, top: seq<string>, budget: int, n: nat)
    requires n < |top| && Total(docs, count, top[..n]).Some?
    ensures var got := Context(top[..n], Total(docs, count, top[..n]).value);
      var r, cost := Selected(docs, count, top[n..], budget, got), Cost(docs, count, top[n]);
      match cost
      case None => r == None
      case Some(price) =>
        && Total(docs, count, top[..n + 1]) == Some(got.used + price)
        && r == (if got.used + price > budget then Some(got)
                 else Selected(docs, count, top[n + 1..], budget, Context(top[..n + 1], got.used + price)))
  {
    hide Cost;
    assert top[n..][0] == top[n] && top[n..][1..] == top[n + 1..];
    assert top[..n + 1][..n] == top[..n] && top[..n + 1] == top[..n] + [top[n]];
  }

  /** **The longest fitting prefix**: with a tokenizer that never counts below zero and never
      raises, over known sources, a prefix of the top-k fits exactly when it is no longer than
      the chosen one. */
  lemma {:induction false} ContextIsLongestFittingPrefix(docs: Corpus, count: Tokenizer, top: seq<string>, budget: nat)
    requires forall id | id in top :: Cost(docs, count, id).Some? && Cost(docs, count, id).value >= 0
    ensures var r := Selected(docs, count, top, budget, Context([], 0));
      r.Some? && r.value.chosen <= top && Total(docs, count, r.value.chosen) == Some(r.value.used)
      && forall m | 0 <= m <= |top| :: Fits(docs, count, top[..m], budget) <==> m <= |r.value.chosen|
  {
    assert top[0..] == top && top[..0] == [];
    var stop := SelectedIsPrefix(docs, count, top, budget, 0);
    var c := Selected(docs, count, top, budget, Context([], 0)).value;
    forall m | 0 <= m <= |top| ensures Fits(docs, count, top[..m], budget) <==> m <= |c.chosen| {
      if m > |c.chosen| { TotalGrows(docs, count, top, |c.chosen| + 1, m); }
    }
  }

  lemma {:induction false} TotalGrows(docs: Corpus, count: Tokenizer, top: seq<string>, m: nat, n: nat)
    requires m <= n <= |top|
    requires forall id | id in top :: Cost(docs, count, id).Some? && Cost(docs, count, id).value >= 0
    requires Total(docs, count, top[..m]).Some?
    ensures Total(docs, count, top[..n]).Some? && Total(docs, count, top[..m]).value <= Total(docs, count, top[..n]).value
  {
    if m < n {
      TotalGrows(docs, count, top, m, n - 1);
      assert top[..n][..n - 1] == top[..n - 1] && top[..n][n - 1] == top[n - 1];
      assert top[n - 1] in top;
    }
  }

  // ---------------------------------------------------------------- citations

  function Quote(codec: Codec, doc: Doc, start: int, end: int): seq<bv8>
    requires 0 <= start < end <= |codec.encode(doc.text)|
  {
    codec.encode(doc.text)[start..end]
  }

  /** A raw citation `bind_citations` accepts. */
  predicate InRange(codec: Codec, docs: Corpus, context: seq<string>, c: RawCitation) {
    && c.docId.Str? && c.start.Int? && c.end.Int?
    && c.docId.s in context && c.docId.s in docs
    && 0 <= c.start.i < c.end.i <= |codec.encode(docs[c.docId.s].text)|
  }

  function BindOne(codec: Codec, docs: Corpus, context: seq<string>, c: RawCitation): Citation
    requires InRange(codec, docs, context, c)
  {
    var doc := docs[c.docId.s];
    Citation(c.docId.s, c.start.i, c.end.i, doc.contentHash, codec.sha(Quote(codec, doc, c.start.i, c.end.i)))
  }

  function Bound(codec: Codec, docs: Corpus, context: seq<string>, raw: seq<RawCitation>): Option<seq<Citation>> {
    if raw == [] then Some([])
    else
      var init := Bound(codec, docs, context, raw[..|raw| - 1]);
      var last := raw[|raw| - 1];
      if init.None? || !InRange(codec, docs, context, last) then None
      else Some(init.value + [BindOne(codec, docs, context, last)])
  }

  /** `bind_citations`: one bad citation discards them all. */
  method BindCitations(codec: Codec, docs: Corpus, context: seq<string>, raw: seq<RawCitation>)
    returns (r: Option<seq<Citation>>)
    ensures r == Bound(codec, docs, context, raw)
  {
    var out: seq<Citation> := [];
    for i := 0 to |raw|
      invariant Bound(codec, docs, context, raw[..i]) == Some(out)
    {
      assert raw[..i + 1][..i] == raw[..i];
      var c := raw[i];
      if !(c.docId.Str? && c.docId.s in context && c.start.Int? && c.end.Int?) {
        BoundFails(codec, docs, context, raw, i);
        return None;
      }
      if c.docId.s !in docs {
        BoundFails(codec, docs, context, raw, i);
        return None;
      }
      var body := codec.encode(docs[c.docId.s].text);
      if !(0 <= c.start.i < c.end.i <= |body|) {
        BoundFails(codec, docs, context, raw, i);
        return None;
      }
      out := out + [Citation(c.docId.s, c.start.i, c.end.i, docs[c.docId.s].contentHash, codec.sha(body[c.start.i..c.end.i]))];
    }
    assert raw[..|raw|] == raw;
    r := Some(out);
  }

  lemma {:induction false} BoundFails(codec: Codec, docs: Corpus, context: seq<string>, raw: seq<RawCitation>, i: nat)
    requires i < |raw| && !InRange(codec, docs, context, raw[i])
    ensures Bound(codec, docs, context, raw).None?
  {
    if i < |raw| - 1 { BoundFails(codec, docs, context, raw[..|raw| - 1], i); }
  }

  // ---------------------------------------------------------------- what the evaluator counts

  /** `citation_valid`. */
  predicate CitationValid(codec: Codec, docs: Corpus, c: Citation) {
    c.docId in docs &&
    var doc := docs[c.docId];
    c.sourceHash == doc.contentHash
    && 0 <= c.start < c.end <= |codec.encode(doc.text)|
    && codec.sha(Quote(codec, doc, c.start, c.end)) == c.quoteHash
  }

  /** `eligible`. */
  predicate Eligible(doc: Doc, query: Query) {
    doc.tenant == query.tenant && query.principal in doc.principals && doc.active
  }

  /** A citation of a document of another tenant, of one the principal has no right to, or of
      one that is not active is never counted valid; nor is one outside the context. */
  lemma {:induction false} ForeignCitationIsNotCounted(codec: Codec, docs: Corpus, query: Query, context: seq<string>, c: Citation)
    requires c.docId in docs
    requires var doc := docs[c.docId];
      doc.tenant != query.tenant || query.principal !in doc.principals || !doc.active || c.docId !in context
    ensures !CountsAsValid(codec, docs, query, context, c)
  {
  }

  predicate CountsAsValid(codec: Codec, docs: Corpus, query: Query, context: seq<string>, c: Citation) {
    CitationValid(codec, docs, c) && c.docId in context && c.docId in docs && Eligible(docs[c.docId], query)
  }

  function Ones(b: bool): nat {
    if b then 1 else 0
  }

  function ValidCitations(codec: Codec, docs: Corpus, query: Query, context: seq<string>, cs: seq<Citation>): nat {
    if cs == [] then 0
    else ValidCitations(codec, docs, query, context, cs[..|cs| - 1]) +
         Ones(CountsAsValid(codec, docs, query, context, cs[|cs| - 1]))
  }

  function CitationViolations(codec: Codec, docs: Corpus, query: Query, context: seq<string>, cs: seq<Citation>): int {
    |cs| - ValidCitations(codec, docs, query, context, cs)
  }

  predicate MayCite(docs: Corpus, query: Query, c: Citation) {
    c.docId in docs && Eligible(docs[c.docId], query)
  }

  function IneligibleCitations(docs: Corpus, query: Query, cs: seq<Citation>): nat {
    if cs == [] then 0
    else IneligibleCitations(docs, query, cs[..|cs| - 1]) + Ones(!MayCite(docs, query, cs[|cs| - 1]))
  }

  predicate Cites(raw: RawCitation, c: Citation) {
    raw.docId == Str(c.docId) && raw.start == Int(c.start) && raw.end == Int(c.end)
  }

  lemma {:induction false} BindingIsExact(codec: Codec, docs: Corpus, context: seq<string>, raw: seq<RawCitation>)
    ensures var r := Bound(codec, docs, context, raw);
      && (r.Some? <==> forall i | 0 <= i < |raw| :: InRange(codec, docs, context, raw[i]))
      && (r.Some? ==> |r.value| == |raw| && forall i | 0 <= i < |raw| ::
            Cites(raw[i], r.value[i]) && r.value[i].docId in context && CitationValid(codec, docs, r.value[i]))
  {
    if raw != [] {
      var n := |raw| - 1;
      BindingIsExact(codec, docs, context, raw[..n]);
      if InRange(codec, docs, context, raw[n]) { BindOneIsValid(codec, docs, context, raw[n]); }
      hide InRange, CitationValid;
      assert raw == raw[..n] + [raw[n]];
    }
  }

  lemma {:induction false} BindOneIsValid(codec: Codec, docs: Corpus, context: seq<string>, c: RawCitation)
    requires InRange(codec, docs, context, c)
    ensures var b := BindOne(codec, docs, context, c);
      && Cites(c, b) && b.docId in context && CitationValid(codec, docs, b)
      && b.sourceHash == docs[b.docId].contentHash
      && b.quoteHash == codec.sha(codec.encode(docs[b.docId].text)[c.start.i..c.end.i])
  {
  }

  /** A citation counts exactly when its document is known, in the context, of the query's
      tenant, open to its principal and active; its source hash is that document's; and its
      quote hash is that of the very bytes it points at. */
  lemma {:induction false} CountsIff(codec: Codec, docs: Corpus, query: Query, context: seq<string>, c: Citation)
    ensures CountsAsValid(codec, docs, query, context, c) <==>
      c.docId in docs && c.docId in context &&
      var doc := docs[c.docId];
      && doc.tenant == query.tenant && query.principal in doc.principals && doc.active
      && c.sourceHash == doc.contentHash
      && 0 <= c.start < c.end <= |codec.encode(doc.text)|
      && c.quoteHash == codec.sha(codec.encode(doc.text)[c.start..c.end])
  {
  }

  lemma {:induction false} ViolationsAreIneligible(codec: Codec, docs: Corpus, query: Query, context: seq<string>, cs: seq<Citation>)
    requires forall i | 0 <= i < |cs| :: CitationValid(codec, docs, cs[i]) && cs[i].docId in context
    ensures CitationViolations(codec, docs, query, context, cs) == IneligibleCitations(docs, query, cs)
  {
    hide Eligible;
    if cs != [] { ViolationsAreIneligible(codec, docs, query, context, cs[..|cs| - 1]); }
  }

  /** **Generator and evaluator agree on citations**: binding succeeds exactly when every raw
      citation is in range, keeps their number and order, and the evaluator's violations are
      exactly the citations whose document the query may not use. */
  lemma {:induction false} BoundCitationsAreCounted(codec: Codec, docs: Corpus, query: Query, context: seq<string>, raw: seq<RawCitation>)
    ensures var r := Bound(codec, docs, context, raw);
      && (r.Some? <==> forall i | 0 <= i < |raw| :: InRange(codec, docs, context, raw[i]))
      && (r.Some? ==>
        && |r.value| == |raw|
        && (forall i | 0 <= i < |raw| :: Cites(raw[i], r.value[i]) && CitationValid(codec, docs, r.value[i]))
        && CitationViolations(codec, docs, query, context, r.value) == IneligibleCitations(docs, query, r.value))
  {
    hide InRange, CitationValid, CitationViolations;
    BindingIsExact(codec, docs, context, raw);
    var r := Bound(codec, docs, context, raw);
    if r.Some? { ViolationsAreIneligible(codec, docs, query, context, r.value); }
  }

  lemma {:induction false} IneligibleNoneIff(docs: Corpus, query: Query, cs: seq<Citation>)
    ensures IneligibleCitations(docs, query, cs) == 0 <==> forall i | 0 <= i < |cs| :: MayCite(docs, query, cs[i])
  {
    hide MayCite;
    if cs != [] {
      var init := cs[..|cs| - 1];
      IneligibleNoneIff(docs, query, init);
      assert cs == init + [cs[|cs| - 1]];
    }
  }

  // ---------------------------------------------------------------- rows

  function StripLeft(space: char -> bool, s: string): string {
    if s != [] && space(s[0]) then StripLeft(space, s[1..]) else s
  }

  function StripRight(space: char -> bool, s: string): string {
    if s != [] && space(s[|s| - 1]) then StripRight(space, s[..|s| - 1]) else s
  }

  function Strip(space: char -> bool, s: string): string {
    StripRight(space, StripLeft(space, s))
  }

  predicate AllSpace(space: char -> bool, s: string) {
    forall i | 0 <= i < |s| :: space(s[i])
  }

  lemma {:induction false} StripLeftDrops(space: char -> bool, s: string) returns (head: string)
    ensures s == head + StripLeft(space, s) && AllSpace(space, head)
  {
    head := [];
    if s != [] && space(s[0]) {
      var rest := StripLeftDrops(space, s[1..]);
      head := [s[0]] + rest;
    }
  }

  lemma {:induction false} StripRightDrops(space: char -> bool, s: string) returns (tail: string)
    ensures s == StripRight(space, s) + tail && AllSpace(space, tail)
  {
    tail := [];
    if s != [] && space(s[|s| - 1]) {
      var rest := StripRightDrops(space, s[..|s| - 1]);
      tail := rest + [s[|s| - 1]];
    }
  }

  /** Stripping drops white space at both ends, all of it, and nothing else. */
  lemma {:induction false} StripMeans(space: char -> bool, s: string) returns (head: string, tail: string)
    ensures s == head + Strip(space, s) + tail && AllSpace(space, head) && AllSpace(space, tail)
    ensures var t := Strip(space, s); t != "" ==> !space(t[0]) && !space(t[|t| - 1])
  {
    head := StripLeftDrops(space, s);
    tail := StripRightDrops(space, StripLeft(space, s));
    StripLeftStarts(space, s);
    StripRightEnds(space, StripLeft(space, s));
    assert Strip(space, s) != "" ==> Strip(space, s)[0] == StripLeft(space, s)[0];
  }

  lemma {:induction false} StripRightEnds(space: char -> bool, s: string)
    ensures var t := StripRight(space, s); t <= s && (t != [] ==> !space(t[|t| - 1]))
  {
    if s != [] && space(s[|s| - 1]) { StripRightEnds(space, s[..|s| - 1]); }
  }

  lemma {:induction false} StripLeftStarts(space: char -> bool, s: string)
    ensures var t := StripLeft(space, s); t != [] ==> !space(t[0])
  {
    if s != [] && space(s[0]) { StripLeftStarts(space, s[1..]); }
  }

  lemma {:induction false} StripIsIdempotent(space: char -> bool, s: string)
    ensures Strip(space, Strip(space, s)) == Strip(space, s)
  {
    StripLeftStarts(space, s);
    StripRightEnds(space, StripLeft(space, s));
  }

  datatype Retrieval = Retrieval(protocolHash: string, ranking: seq<string>, latency: real, embeddingTokens: int)

  /** What the backend returns; an absent field is a missing key or a failed conversion. */
  datatype Reply = Reply(answerTokens: Option<int>, abstained: Json, text: Option<string>, citations: Option<seq<RawCitation>>)

  datatype Answer = Answer(text: string, abstained: bool, citations: seq<Citation>)

  datatype Row = Row(ok: bool, protocolHash: string, ranking: seq<string>, context: seq<string>, answer: Answer,
                     latency: real, contextTokens: int, answerTokens: int, embeddingTokens: int)

  const SILENCE := Answer("", true, [])

  /** The answer of a reply, or nothing when any step of its handling raises. */
  function AnswerOf(codec: Codec, docs: Corpus, context: seq<string>, reply: Reply): Option<Answer> {
    if reply.answerTokens.None? || !reply.abstained.Bool? then None
    else if reply.abstained.b then Some(SILENCE)
    else if reply.text.None? || reply.citations.None? then None
    else
      var text := Strip(codec.space, reply.text.value);
      var citations := Bound(codec, docs, context, reply.citations.value);
      if citations.None? || text == "" then None else Some(Answer(text, false, citations.value))
  }

  /** `run_one`: every failure becomes an explicit abstaining error row, with the context and
      the token counts reached before it. */
  function RunOne(codec: Codec, docs: Corpus, count: Tokenizer, r: Retrieval, reply: Option<Reply>,
                  k: int, budget: int, elapsed: real): Row
  {
    var selected := Selected(docs, count, Top(r.ranking, k), budget, Context([], 0));
    var context := if selected.Some? then selected.value else Context([], 0);
    var answer := if selected.None? || reply.None? then None else AnswerOf(codec, docs, context.chosen, reply.value);
    var tokens := if selected.None? || reply.None? || reply.value.answerTokens.None? then 0 else reply.value.answerTokens.value;
    Row(answer.Some?, r.protocolHash, r.ranking, context.chosen, if answer.Some? then answer.value else SILENCE,
        r.latency + elapsed, context.used, tokens, r.embeddingTokens)
  }

  const MAX_INTEGER := 1_000_000_000_000
  const MAX_RANKING := 1000
  const MAX_TEXT := 1024 * 1024
  const MAX_CITATIONS := 1024

  predicate IntegerOk(n: int) {
    0 <= n <= MAX_INTEGER
  }

  /** The checks `evaluate_row` makes before scoring, `claims` being the judged total. */
  predicate Accepts(codec: Codec, docs: Corpus, protocolHash: string, claims: int, row: Row) {
    && row.protocolHash == protocolHash
    && |row.ranking| <= MAX_RANKING
    && (forall x | x in row.ranking :: x in docs)
    && Distinct(row.ranking)
    && (forall x | x in row.context :: x in row.ranking)
    && Distinct(row.context)
    && |codec.encode(row.answer.text)| <= MAX_TEXT
    && |row.answer.citations| <= MAX_CITATIONS
    && (row.answer.abstained ==> row.answer.text == "" && row.answer.citations == [])
    && (row.answer.abstained || Strip(codec.space, row.answer.text) != "")
    && (row.ok || row.answer.abstained)
    && IntegerOk(row.contextTokens) && IntegerOk(row.answerTokens) && IntegerOk(row.embeddingTokens)
    && row.latency >= 0.0
    && (row.answer.abstained ==> claims == 0)
    && (row.answer.abstained || claims > 0)
  }

  /** The ceilings in numbers. */
  lemma {:induction false} CeilingsInNumbers(codec: Codec, docs: Corpus, protocolHash: string, claims: int, row: Row)
    requires Accepts(codec, docs, protocolHash, claims, row)
    ensures |row.ranking| <= 1000 && |codec.encode(row.answer.text)| <= 1_048_576 && |row.answer.citations| <= 1024
    ensures 0 <= row.contextTokens <= 1_000_000_000_000 && 0 <= row.answerTokens <= 1_000_000_000_000
    ensures 0 <= row.embeddingTokens <= 1_000_000_000_000 && row.latency >= 0.0
    ensures (claims == 0) == row.answer.abstained && claims >= 0
  {
  }

  /** An accepted row ranks known documents, each once, took its context from them, each once,
      and answers: a failed row is silent, an abstention says and cites nothing, and any other
      answer is more than white space. */
  lemma {:induction false} AcceptedRowIsSound(codec: Codec, docs: Corpus, protocolHash: string, claims: int, row: Row)
    requires Accepts(codec, docs, protocolHash, claims, row)
    ensures row.protocolHash == protocolHash
    ensures forall i | 0 <= i < |row.ranking| :: row.ranking[i] in docs
    ensures forall i | 0 <= i < |row.context| :: row.context[i] in row.ranking
    ensures forall i, j | 0 <= i < j < |row.ranking| :: row.ranking[i] != row.ranking[j]
    ensures forall i, j | 0 <= i < j < |row.context| :: row.context[i] != row.context[j]
    ensures !row.ok ==> row.answer.abstained
    ensures if row.answer.abstained then row.answer.text == "" && row.answer.citations == []
            else !AllSpace(codec.space, row.answer.text)
  {
    if !row.answer.abstained && AllSpace(codec.space, row.answer.text) { BlankStripsAway(codec.space, row.answer.text); }
  }

  lemma {:induction false} BlankStripsAway(space: char -> bool, s: string)
    requires AllSpace(space, s)
    ensures Strip(space, s) == ""
  {
    if s != [] { BlankStripsAway(space, s[1..]); }
  }

  /** What a row carries over, and when it is an answer: the retrieval row's own fields; the
      selected context and its tokens; the backend's token count once it was readable; and the
      stripped text with the bound citations exactly when every step succeeded. */
  lemma {:induction false} RowCarries(codec: Codec, docs: Corpus, count: Tokenizer, r: Retrieval, reply: Option<Reply>,
                                      k: int, budget: int, elapsed: real)
    ensures var row := RunOne(codec, docs, count, r, reply, k, budget, elapsed);
      var selected := Selected(docs, count, Top(r.ranking, k), budget, Context([], 0));
      && row.protocolHash == r.protocolHash && row.ranking == r.ranking && row.embeddingTokens == r.embeddingTokens
      && row.latency == r.latency + elapsed
      && row.context == (if selected.Some? then selected.value.chosen else [])
      && row.contextTokens == (if selected.Some? then selected.value.used else 0)
      && row.answerTokens == (if selected.Some? && reply.Some? && reply.value.answerTokens.Some? then reply.value.answerTokens.value else 0)
      && (!row.answer.abstained <==>
            && selected.Some? && reply.Some? && reply.value.answerTokens.Some? && reply.value.abstained == Bool(false)
            && reply.value.text.Some? && reply.value.citations.Some?
            && Bound(codec, docs, row.context, reply.value.citations.value).Some?
            && Strip(codec.space, reply.value.text.value) != "")
      && (!row.answer.abstained ==>
            && row.ok && row.answer.text == Strip(codec.space, reply.value.text.value)
            && Some(row.answer.citations) == Bound(codec, docs, row.context, reply.value.citations.value))
      && (row.answer.abstained ==> row.answer == Answer("", true, []))
      && (row.ok && row.answer.abstained <==>
            selected.Some? && reply.Some? && reply.value.answerTokens.Some? && reply.value.abstained == Bool(true))
  {
    hide Selected, Bound, Strip;
  }

  /** What a caller must know about the retrieval row. */
  predicate RetrievalFits(docs: Corpus, protocolHash: string, r: Retrieval, elapsed: real) {
    && r.protocolHash == protocolHash
    && |r.ranking| <= MAX_RANKING && Distinct(r.ranking) && (forall x | x in r.ranking :: x in docs)
    && IntegerOk(r.embeddingTokens) && r.latency + elapsed >= 0.0
  }

  /** The two ceilings the generator does not itself enforce on a backend's reply. */
  predicate AnswerFits(codec: Codec, row: Row) {
    && IntegerOk(row.answerTokens)
    && (row.answer.abstained || (|codec.encode(row.answer.text)| <= MAX_TEXT && |row.answer.citations| <= MAX_CITATIONS))
  }

  /** The shape of every row: answered, or silent. */
  lemma {:induction false} RowShape(codec: Codec, docs: Corpus, count: Tokenizer, r: Retrieval, reply: Option<Reply>,
                 k: int, budget: int, elapsed: real)
    ensures var row := RunOne(codec, docs, count, r, reply, k, budget, elapsed);
      && (row.answer.abstained ==> row.answer == SILENCE)
      && (!row.answer.abstained ==> row.ok && Strip(codec.space, row.answer.text) != "")
      && row.context <= Top(r.ranking, k) <= r.ranking
      && (budget >= 0 ==> row.contextTokens <= budget)
  {
    var top := Top(r.ranking, k);
    assert top[0..] == top && top[..0] == [];
    var stop := SelectedIsPrefix(docs, count, top, budget, 0);
    var selected := Selected(docs, count, top, budget, Context([], 0));
    if selected.Some? && selected.value.chosen != [] {
      var n := |selected.value.chosen|;
      assert Fits(docs, count, top[..n], budget);
    }
    if reply.Some? && reply.value.text.Some? { StripIsIdempotent(codec.space, reply.value.text.value); }
  }

  lemma {:induction false} UsedIsNatural(docs: Corpus, count: Tokenizer, top: seq<string>, budget: int)
    requires forall id | id in top && Cost(docs, count, id).Some? :: Cost(docs, count, id).value >= 0
    ensures var r := Selected(docs, count, top, budget, Context([], 0)); r.Some? ==> r.value.used >= 0
  {
    assert top[0..] == top && top[..0] == [];
    var stop := SelectedIsPrefix(docs, count, top, budget, 0);
    var r := Selected(docs, count, top, budget, Context([], 0));
    if r.Some? { TotalIsNatural(docs, count, top, |r.value.chosen|); }
  }

  lemma {:induction false} TotalIsNatural(docs: Corpus, count: Tokenizer, top: seq<string>, n: nat)
    requires forall id | id in top && Cost(docs, count, id).Some? :: Cost(docs, count, id).value >= 0
    requires n <= |top|
    ensures Total(docs, count, top[..n]).Some? ==> Total(docs, count, top[..n]).value >= 0
  {
    if n > 0 {
      TotalIsNatural(docs, count, top, n - 1);
      assert top[..n][..n - 1] == top[..n - 1] && top[..n][n - 1] == top[n - 1];
      assert top[n - 1] in top;
    }
  }

  /** **The evaluator accepts a generated row exactly when** the retrieval row is well formed,
      the backend's own numbers are within the ceilings and the judgment has claims exactly
      for an answered row — whatever the backend did, and whatever failed. */
  lemma {:induction false} GeneratedRowAcceptedIff(codec: Codec, docs: Corpus, count: Tokenizer, r: Retrieval, reply: Option<Reply>,
                                k: int, budget: int, elapsed: real, protocolHash: string, claims: int)
    requires IntegerOk(budget) && codec.encode("") == []
    requires forall id | id in r.ranking && Cost(docs, count, id).Some? :: Cost(docs, count, id).value >= 0
    ensures var row := RunOne(codec, docs, count, r, reply, k, budget, elapsed);
      Accepts(codec, docs, protocolHash, claims, row) <==>
        && RetrievalFits(docs, protocolHash, r, elapsed) && AnswerFits(codec, row)
        && (if row.answer.abstained then claims == 0 else claims > 0)
  {
    var row := RunOne(codec, docs, count, r, reply, k, budget, elapsed);
    RowShape(codec, docs, count, r, reply, k, budget, elapsed);
    UsedIsNatural(docs, count, Top(r.ranking, k), budget);
    assert row.contextTokens >= 0;
    hide RunOne, Strip;
    assert forall i | 0 <= i < |row.context| :: row.context[i] == r.ranking[i];
  }

  /** **A generated row has no citation violation exactly when** it cites only documents the
      query may use, and never exceeds the context budget. */
  lemma {:induction false} GeneratedRowViolations(codec: Codec, docs: Corpus, count: Tokenizer, r: Retrieval, reply: Option<Reply>,
                               k: int, budget: nat, elapsed: real, query: Query)
    ensures var row := RunOne(codec, docs, count, r, reply, k, budget, elapsed);
      && (CitationViolations(codec, docs, query, row.context, row.answer.citations) == 0 <==>
          forall i | 0 <= i < |row.answer.citations| ::
            MayCite(docs, query, row.answer.citations[i]))
      && row.contextTokens <= budget
  {
    var row := RunOne(codec, docs, count, r, reply, k, budget, elapsed);
    RowShape(codec, docs, count, r, reply, k, budget, elapsed);
    IneligibleNoneIff(docs, query, row.answer.citations);
    if !row.answer.abstained {
      BoundCitationsAreCounted(codec, docs, query, row.context, reply.value.citations.value);
    }
  }
}
