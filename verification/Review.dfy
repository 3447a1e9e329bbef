/** The review ledger and the task tool's recording of reviews (src/review.rs, src/agent/task.rs). */
module Review {
  import opened Options
  import opened Text
  import opened Billing

  datatype Finding = Finding(
    category: string,
    severity: Option<string>,
    confidence: Option<real>,
    file: Option<string>,
    line: Option<int>,
    note: string)

  datatype Verdict = Correct | Incorrect

  datatype Output = Output(verdict: Verdict, confidence: Option<real>, explanation: string, findings: seq<Finding>)

  // The findings block.

  const MARK := "```findings"
  const FENCE := "```"

  /** `str::rsplit_once`: around the last occurrence. */
  function SplitLast(s: string, pat: string): Option<(string, string)>
    requires pat != []
  {
    if s == [] then None
    else match SplitLast(s[1..], pat)
      case Some(parts) => Some(([s[0]] + parts.0, parts.1))
      case None => if pat <= s then Some(([], s[|pat|..])) else None
  }

  /** `str::split_once`: around the first occurrence. */
  function SplitFirst(s: string, pat: string): Option<(string, string)>
    requires pat != []
  {
    if s == [] then None
    else if pat <= s then Some(([], s[|pat|..]))
    else match SplitFirst(s[1..], pat)
      case Some(parts) => Some(([s[0]] + parts.0, parts.1))
      case None => None
  }

  lemma {:induction false} LastSplitIsLast(s: string, pat: string)
    requires pat != []
    ensures SplitLast(s, pat).None? <==> !Has(s, pat)
    ensures var r := SplitLast(s, pat);
            r.Some? ==> s == r.value.0 + pat + r.value.1 && !Has((pat + r.value.1)[1..], pat)
  {
    if s != [] {
      LastSplitIsLast(s[1..], pat);
      var r := SplitLast(s[1..], pat);
      if r.Some? {
        OneFurther(s, r.value.0, pat, r.value.1);
      } else if pat <= s {
        assert s == [] + pat + s[|pat|..] && pat + s[|pat|..] == s;
      }
    }
  }

  /** No occurrence of `pat` starts in the first `n` places. */
  predicate NoneBefore(s: string, pat: string, n: nat)
    requires n <= |s|
  {
    forall k | 0 <= k < n :: !(pat <= s[k..])
  }

  lemma OnePlaceOn(s: string, pat: string, n: nat)
    requires s != [] && n < |s|
    ensures NoneBefore(s, pat, n + 1) <==> !(pat <= s) && NoneBefore(s[1..], pat, n)
  {
    assert s[0..] == s;
    assert forall k | 0 <= k < n :: s[1..][k..] == s[k + 1..];
    if NoneBefore(s[1..], pat, n) {
      forall k | 0 < k < n + 1 ensures !(pat <= s[k..]) { assert !(pat <= s[1..][k - 1..]); }
    }
    if NoneBefore(s, pat, n + 1) {
      forall k | 0 <= k < n ensures !(pat <= s[1..][k..]) { assert !(pat <= s[k + 1..]); }
    }
  }

  lemma OneFurther(s: string, before: string, pat: string, after: string)
    requires s != [] && s[1..] == before + pat + after
    ensures s == ([s[0]] + before) + pat + after
  {
    assert s == [s[0]] + s[1..];
  }

  lemma {:induction false} FirstSplitIsFirst(s: string, pat: string)
    requires pat != []
    ensures SplitFirst(s, pat).None? <==> !Has(s, pat)
    ensures var r := SplitFirst(s, pat);
            r.Some? ==> s == r.value.0 + pat + r.value.1 && NoneBefore(s, pat, |r.value.0|)
  {
    if s != [] && pat <= s {
      assert s == [] + pat + s[|pat|..];
    } else if s != [] {
      FirstSplitIsFirst(s[1..], pat);
      var r := SplitFirst(s[1..], pat);
      hide NoneBefore;
      if r.Some? {
        OneFurther(s, r.value.0, pat, r.value.1);
        OnePlaceOn(s, pat, |r.value.0|);
      }
    }
  }

  /** The text handed to the JSON parser. */
  function BlockOf(text: string): Option<string> {
    match SplitLast(text, MARK)
    case None => None
    case Some(parts) =>
      match SplitFirst(parts.1, FENCE)
      case None => None
      case Some(block) => Some(block.0)
  }

  /** Where a block stands: after the last mark, up to the first fence that follows it. */
  ghost predicate IsBlock(text: string, before: string, body: string, after: string) {
    && text == before + MARK + (body + FENCE + after)
    && !Has((MARK + (body + FENCE + after))[1..], MARK)
    && NoneBefore(body + FENCE + after, FENCE, |body|)
  }

  /** A block is found exactly where one stands, and it is the last one. */
  lemma BlockIsTheLast(text: string)
    ensures BlockOf(text).Some? ==> exists before, after :: IsBlock(text, before, BlockOf(text).value, after)
  {
    LastSplitIsLast(text, MARK);
    var outer := SplitLast(text, MARK);
    if outer.Some? {
      FirstSplitIsFirst(outer.value.1, FENCE);
      var inner := SplitFirst(outer.value.1, FENCE);
      if inner.Some? { assert IsBlock(text, outer.value.0, inner.value.0, inner.value.1); }
    }
  }

  lemma {:induction false} LastSplitFinds(before: string, pat: string, rest: string)
    requires pat != [] && !Has((pat + rest)[1..], pat)
    ensures SplitLast(before + pat + rest, pat) == Some((before, rest))
  {
    var s := before + pat + rest;
    if before == [] {
      assert s == pat + rest && s[|pat|..] == rest;
      LastSplitIsLast(s[1..], pat);
    } else {
      assert s[1..] == before[1..] + pat + rest;
      assert [before[0]] + before[1..] == before;
      LastSplitFinds(before[1..], pat, rest);
    }
  }

  lemma {:induction false} FirstSplitFinds(body: string, pat: string, rest: string)
    requires pat != [] && NoneBefore(body + pat + rest, pat, |body|)
    ensures SplitFirst(body + pat + rest, pat) == Some((body, rest))
  {
    var s := body + pat + rest;
    if body == [] {
      assert s == pat + rest && s[|pat|..] == rest;
    } else {
      assert s[1..] == body[1..] + pat + rest && s[0..] == s;
      assert [body[0]] + body[1..] == body;
      OnePlaceOn(s, pat, |body| - 1);
      FirstSplitFinds(body[1..], pat, rest);
    }
  }

  lemma BlockIsFound(text: string, before: string, body: string, after: string)
    requires IsBlock(text, before, body, after)
    ensures BlockOf(text) == Some(body)
  {
    LastSplitFinds(before, MARK, body + FENCE + after);
    FirstSplitFinds(body, FENCE, after);
  }

  /** `decode` trims and parses the block as JSON. */
  function ParseFindings(decode: string -> Option<Output>, text: string): Option<Output> {
    match BlockOf(text)
    case None => None
    case Some(block) => decode(block)
  }

  /** The text holds a findings block that reads as `o`. */
  ghost predicate Readable(decode: string -> Option<Output>, text: string, o: Output) {
    exists before, body, after :: IsBlock(text, before, body, after) && decode(body) == Some(o)
  }

  /** What is parsed is what stands in the block, and a text without a readable block yields nothing. */
  lemma ParsedIffReadable(decode: string -> Option<Output>, text: string, o: Output)
    ensures ParseFindings(decode, text) == Some(o) <==> Readable(decode, text, o)
  {
    BlockIsTheLast(text);
    forall before, body, after | IsBlock(text, before, body, after) ensures BlockOf(text) == Some(body) {
      BlockIsFound(text, before, body, after);
    }
  }

  // The ledger.

  datatype Gate = Gate(repo: string, gate: string, gitRef: string, tree: Option<string>)

  datatype ReviewRow = ReviewRow(gate: Gate, verdict: Verdict, confidence: Option<real>)

  datatype FindingRow = FindingRow(
    id: nat,
    repo: string,
    gate: string,
    gitRef: string,
    source: string,
    finding: Finding,
    disposition: Option<(string, Option<string>)>)

  datatype Books = Books(reviews: seq<ReviewRow>, findings: seq<FindingRow>) {
    predicate Valid() {
      forall i, j | 0 <= i < j < |findings| :: findings[i].id < findings[j].id
    }

    /** The row id SQLite gives next. */
    function NextId(): nat {
      if findings == [] then 1 else findings[|findings| - 1].id + 1
    }

    predicate Reviewed(repo: string, gate: string, tree: string) {
      exists i | 0 <= i < |reviews| ::
        reviews[i].gate.repo == repo && reviews[i].gate.gate == gate && reviews[i].gate.tree == Some(tree)
    }
  }

  function NewRows(first: nat, g: Gate, fs: seq<Finding>): seq<FindingRow> {
    seq(|fs|, i requires 0 <= i < |fs| => FindingRow(first + i, g.repo, g.gate, g.gitRef, "self", fs[i], None))
  }

  function IdsOf(rows: seq<FindingRow>): seq<nat> {
    seq(|rows|, i requires 0 <= i < |rows| => rows[i].id)
  }

  /** The books with one whole review more. */
  function WithReview(b: Books, g: Gate, o: Output): Books {
    Books(b.reviews + [ReviewRow(g, o.verdict, o.confidence)], b.findings + NewRows(b.NextId(), g, o.findings))
  }

  lemma WithReviewIsValid(b: Books, g: Gate, o: Output)
    requires b.Valid()
    ensures WithReview(b, g, o).Valid()
    ensures forall r, t | r in b.findings && t in NewRows(b.NextId(), g, o.findings) :: r.id != t.id
  {
  }

  lemma NoRowsYet(b: Books, g: Gate)
    ensures NewRows(b.NextId(), g, []) == [] && IdsOf([]) == []
  {
  }

  /** The row of one finding more gets the id after the table's last. */
  lemma OneMoreRow(b: Books, g: Gate, fs: seq<Finding>, f: Finding)
    ensures var rows := NewRows(b.NextId(), g, fs);
            var table := b.findings + rows;
            var id := if table == [] then 1 else table[|table| - 1].id + 1;
            var row := FindingRow(id, g.repo, g.gate, g.gitRef, "self", f, None);
            NewRows(b.NextId(), g, fs + [f]) == rows + [row] && IdsOf(rows + [row]) == IdsOf(rows) + [id]
  {
    var table := b.findings + NewRows(b.NextId(), g, fs);
    assert (if table == [] then 1 else table[|table| - 1].id + 1) == b.NextId() + |fs|;
  }

  class Ledger {
    var books: Books

    constructor ()
      ensures books == Books([], [])
    {
      books := Books([], []);
    }

    /** One gate invocation in one transaction. `fails` is the statement that fails, if one does:
        the review's insert, then each finding's, then the commit. */
    method RecordReview(g: Gate, o: Output, fails: Option<nat>) returns (ids: Option<seq<nat>>)
      requires books.Valid()
      modifies this
      ensures books.Valid()
      ensures ids.None? <==> fails.Some? && fails.value <= |o.findings| + 1
      ensures ids.None? ==> books == old(books)
      ensures ids.Some? ==> books == WithReview(old(books), g, o)
                            && ids.value == IdsOf(books.findings[|old(books).findings|..])
    {
      WithReviewIsValid(books, g, o);
      hide NewRows, IdsOf;
      if fails == Some(0) { return None; }
      var row := ReviewRow(g, o.verdict, o.confidence);
      var rows;
      rows, ids := InsertFindings(g, o.findings, fails);
      if ids.None? || fails == Some(|o.findings| + 1) { return None; }
      assert (books.findings + rows)[|books.findings|..] == rows;
      books := Books(books.reviews + [row], books.findings + rows);
    }

    /** The transaction's finding rows, with the ids SQLite gives them. */
    method InsertFindings(g: Gate, fs: seq<Finding>, fails: Option<nat>) returns (rows: seq<FindingRow>, ids: Option<seq<nat>>)
      ensures ids.None? <==> fails.Some? && 0 < fails.value <= |fs|
      ensures ids.Some? ==> rows == NewRows(books.NextId(), g, fs) && ids.value == IdsOf(rows)
    {
      hide NewRows, IdsOf;
      var inserted := [];
      rows := [];
      NoRowsYet(books, g);
      for k := 0 to |fs|
        invariant rows == NewRows(books.NextId(), g, fs[..k]) && inserted == IdsOf(rows)
        invariant !(fails.Some? && 0 < fails.value <= k)
      {
        if fails == Some(k + 1) { return rows, None; }
        OneMoreRow(books, g, fs[..k], fs[k]);
        assert fs[..k + 1] == fs[..k] + [fs[k]];
        var table := books.findings + rows;
        var id := if table == [] then 1 else table[|table| - 1].id + 1;
        rows := rows + [FindingRow(id, g.repo, g.gate, g.gitRef, "self", fs[k], None)];
        inserted := inserted + [id];
      }
      assert fs[..|fs|] == fs;
      ids := Some(inserted);
    }

    method HasReviewedTree(repo: string, gate: string, tree: string) returns (found: bool)
      ensures found <==> books.Reviewed(repo, gate, tree)
    {
      found := false;
      for i := 0 to |books.reviews|
        invariant found <==> exists k | 0 <= k < i ::
                               books.reviews[k].gate.repo == repo && books.reviews[k].gate.gate == gate
                               && books.reviews[k].gate.tree == Some(tree)
      {
        var g := books.reviews[i].gate;
        found := found || (g.repo == repo && g.gate == gate && g.tree == Some(tree));
      }
    }

    /** Record the decision on one finding; `false` when no row has the id. */
    method SetDisposition(id: nat, disposition: string, note: Option<string>) returns (updated: bool)
      requires books.Valid()
      modifies this
      ensures books.Valid() && books.reviews == old(books).reviews && |books.findings| == |old(books).findings|
      ensures updated <==> id in IdsOf(old(books).findings)
      ensures forall i | 0 <= i < |books.findings| ::
                books.findings[i] == if old(books).findings[i].id == id
                                     then old(books).findings[i].(disposition := Some((disposition, note)))
                                     else old(books).findings[i]
    {
      var rows := books.findings;
      updated := false;
      for i := 0 to |rows|
        invariant |rows| == |books.findings|
        invariant updated <==> exists k | 0 <= k < i :: IdsOf(books.findings)[k] == id
        invariant forall k | 0 <= k < |rows| ::
                    rows[k] == if k < i && books.findings[k].id == id
                               then books.findings[k].(disposition := Some((disposition, note)))
                               else books.findings[k]
      {
        if rows[i].id == id {
          rows := rows[i := rows[i].(disposition := Some((disposition, note)))];
          updated := true;
        }
        assert IdsOf(books.findings)[i] == books.findings[i].id;
      }
      books := books.(findings := rows);
    }
  }

  // The task tool.

  datatype Kind = Explore | Worker | Reviewer

  /** A sub-agent turn: its text, or an error, and what it drew and took. */
  datatype Turn = Turn(text: Option<string>, draws: seq<CallUsage>, duration: nat)

  /** One call, with what the world would answer: the sub-agent, its corrective turn, the ledger. */
  datatype Call = Call(
    kind: Kind,
    meta: Option<Gate>,
    lookupWorks: bool,
    first: Turn,
    second: Turn,
    writeFails: Option<nat>)

  datatype Trailer = NoTrailer | FindingIds(ids: seq<nat>) | Unparseable | NotRecorded

  datatype Reply = AlreadyReviewed(gate: string, tree: string) | Answer(text: string, trailer: Trailer) | Failed

  datatype UsageRow = UsageRow(usage: Usage, duration: nat)

  /** A call that carries the full key of a memoised review. */
  predicate Keyed(c: Call) {
    c.kind.Reviewer? && c.meta.Some? && c.meta.value.tree.Some?
  }

  predicate Skips(on: bool, b: Books, c: Call) {
    on && Keyed(c) && c.lookupWorks && b.Reviewed(c.meta.value.repo, c.meta.value.gate, c.meta.value.tree.value)
  }

  /** Whether the reviewer's answer needs the corrective turn. */
  predicate Corrects(decode: string -> Option<Output>, on: bool, c: Call) {
    on && c.kind.Reviewer? && c.first.text.Some? && ParseFindings(decode, c.first.text.value).None?
  }

  /** The findings a call that runs has to record, of whichever turn delivered them. */
  function Found(decode: string -> Option<Output>, on: bool, c: Call): Option<Output> {
    if !on || !c.kind.Reviewer? || c.first.text.None? then None
    else if Corrects(decode, on, c) then
      if c.second.text.None? then None else ParseFindings(decode, c.second.text.value)
    else ParseFindings(decode, c.first.text.value)
  }

  predicate WriteLands(c: Call, o: Output) {
    c.writeFails.None? || c.writeFails.value > |o.findings| + 1
  }

  /** Unlabelled reviews are recorded too, without a tree. */
  function GateOf(c: Call): Gate {
    c.meta.GetOr(Gate("", "", "", None))
  }

  predicate Records(decode: string -> Option<Output>, on: bool, b: Books, c: Call) {
    !Skips(on, b, c) && Found(decode, on, c).Some? && WriteLands(c, Found(decode, on, c).value)
  }

  function BooksAfter(decode: string -> Option<Output>, on: bool, b: Books, c: Call): Books {
    if Records(decode, on, b, c) then WithReview(b, GateOf(c), Found(decode, on, c).value) else b
  }

  /** Everything a call that runs pays for. */
  function Spent(decode: string -> Option<Output>, on: bool, c: Call): UsageRow {
    if Corrects(decode, on, c)
    then UsageRow(Totals(c.first.draws + c.second.draws), c.first.duration + c.second.duration)
    else UsageRow(Totals(c.first.draws), c.first.duration)
  }

  class TaskTool {
    const decode: string -> Option<Output>
    const ledger: Option<Ledger>
    var usage: seq<UsageRow>

    constructor (decode: string -> Option<Output>, ledger: Option<Ledger>)
      ensures this.decode == decode && this.ledger == ledger && usage == []
    {
      this.decode, this.ledger, usage := decode, ledger, [];
    }

    /** Parse a response and record it. */
    method RecordParse(books: Ledger, c: Call, text: string) returns (trailer: Trailer)
      requires books.books.Valid()
      modifies books
      ensures books.books.Valid()
      ensures var parsed := ParseFindings(decode, text);
              && books.books == (if parsed.Some? && WriteLands(c, parsed.value)
                                 then WithReview(old(books.books), GateOf(c), parsed.value) else old(books.books))
              && (parsed.None? <==> trailer.Unparseable?)
              && (parsed.Some? && !WriteLands(c, parsed.value) <==> trailer.NotRecorded?)
      ensures trailer.FindingIds? ==> trailer.ids != []
      // Ids are shown exactly when rows were added, and they are those rows' ids.
      ensures (if trailer.FindingIds? then trailer.ids else []) == IdsOf(books.books.findings[|old(books.books).findings|..])
    {
      var parsed := ParseFindings(decode, text);
      assert books.books.findings[|books.books.findings|..] == [];
      if parsed.None? { return Unparseable; }
      var ids := books.RecordReview(GateOf(c), parsed.value, c.writeFails);
      if ids.None? { return NotRecorded; }
      trailer := if ids.value == [] then NoTrailer else FindingIds(ids.value);
    }

    /** Record the reviewer's answer, asking once more when it has no readable block. */
    method RecordWithRetry(books: Ledger, c: Call, meter: TurnUsage) returns (trailer: Trailer, duration: nat)
      requires books.books.Valid() && c.kind.Reviewer? && c.first.text.Some?
      requires meter.Valid() && meter.draws == c.first.draws
      modifies books, meter
      ensures books.books.Valid() && meter.Valid()
      ensures var found := Found(decode, true, c);
              && books.books == (if found.Some? && WriteLands(c, found.value)
                                 then WithReview(old(books.books), GateOf(c), found.value) else old(books.books))
              && (found.None? <==> trailer.Unparseable?)
              && (found.Some? && !WriteLands(c, found.value) <==> trailer.NotRecorded?)
      ensures trailer.FindingIds? ==> trailer.ids != []
      ensures (if trailer.FindingIds? then trailer.ids else []) == IdsOf(books.books.findings[|old(books.books).findings|..])
      ensures UsageRow(meter.State(), c.first.duration + duration) == Spent(decode, true, c)
    {
      duration := 0;
      hide ParseFindings, WithReview, WriteLands, Totals;
      trailer := RecordParse(books, c, c.first.text.value);
      if trailer.Unparseable? {
        var retry := new TurnUsage();
        retry.AddFailed(c.second.draws);
        if c.second.text.Some? { trailer := RecordParse(books, c, c.second.text.value); }
        meter.AddTurn(retry);
        assert [] + c.second.draws == c.second.draws;
        duration := c.second.duration;
      }
    }

    /** One call of the tool; `turns` counts the sub-agent turns it ran. */
    method Execute(c: Call) returns (reply: Reply, turns: nat)
      requires ledger.Some? ==> ledger.value.books.Valid()
      modifies this, if ledger.Some? then {ledger.value} else {}
      ensures ledger.Some? ==>
                && ledger.value.books.Valid()
                && ledger.value.books == BooksAfter(decode, true, old(ledger.value.books), c)
      // A recorded review costs nothing: no turn and no usage row.
      ensures var skips := ledger.Some? && Skips(true, old(ledger.value.books), c);
              && turns == (if skips then 0 else if Corrects(decode, ledger.Some?, c) then 2 else 1)
              && (reply.AlreadyReviewed? <==> skips)
              && (skips ==> reply == AlreadyReviewed(c.meta.value.gate, c.meta.value.tree.value))
              && usage == (if skips then old(usage) else old(usage) + [Spent(decode, ledger.Some?, c)])
      ensures reply.Failed? <==> turns != 0 && c.first.text.None?
      ensures reply.Answer? ==> c.first.text == Some(reply.text)
      // The trailer is the truth about the ledger.
      ensures reply.Answer? && ledger.Some? ==>
                var was, now := old(ledger.value.books), ledger.value.books;
                && (if reply.trailer.FindingIds? then reply.trailer.ids else []) == IdsOf(now.findings[|was.findings|..])
                && (reply.trailer.Unparseable? || reply.trailer.NotRecorded? ==> now == was)
      ensures reply.Answer? && (ledger.None? || !c.kind.Reviewer?) ==> reply.trailer.NoTrailer?
    {
      hide ParseFindings, WithReview, WriteLands, Totals;
      if ledger.Some? && Keyed(c) && c.lookupWorks {
        var g := c.meta.value;
        var found := ledger.value.HasReviewedTree(g.repo, g.gate, g.tree.value);
        if found { return AlreadyReviewed(g.gate, g.tree.value), 0; }
      }
      var meter := new TurnUsage();
      var duration := c.first.duration;
      meter.AddFailed(c.first.draws);
      assert [] + c.first.draws == c.first.draws;
      turns := 1;
      if c.first.text.None? {
        reply := Failed;
      } else {
        var trailer := NoTrailer;
        if c.kind.Reviewer? && ledger.Some? {
          var extra;
          trailer, extra := RecordWithRetry(ledger.value, c, meter);
          if Corrects(decode, true, c) { turns := 2; }
          duration := duration + extra;
        }
        reply := Answer(c.first.text.value, trailer);
      }
      usage := usage + [UsageRow(meter.State(), duration)];
    }
  }

  // Runs of calls on one ledger.

  function BooksAt(decode: string -> Option<Output>, b: Books, calls: seq<Call>, i: nat): Books
    requires i <= |calls|
  {
    if i == 0 then b else BooksAfter(decode, true, BooksAt(decode, b, calls, i - 1), calls[i - 1])
  }

  /** The call says it reviews that tree for that gate. */
  predicate Names(c: Call, repo: string, gate: string, tree: string) {
    c.meta.Some? && c.meta.value.repo == repo && c.meta.value.gate == gate && c.meta.value.tree == Some(tree)
  }

  /** The ledger is asked first, and knows the tree. */
  predicate Memoised(b: Books, c: Call) {
    c.kind.Reviewer? && c.lookupWorks
    && exists i | 0 <= i < |b.reviews| ::
         && b.reviews[i].gate.tree.Some?
         && Names(c, b.reviews[i].gate.repo, b.reviews[i].gate.gate, b.reviews[i].gate.tree.value)
  }

  /** The reviewer's answer reads as `o`, or it does not read at all and the corrected one does. */
  ghost predicate Delivers(decode: string -> Option<Output>, c: Call, o: Output) {
    && c.kind.Reviewer? && c.first.text.Some?
    && (|| Readable(decode, c.first.text.value, o)
        || (&& (forall p :: !Readable(decode, c.first.text.value, p))
            && c.second.text.Some? && Readable(decode, c.second.text.value, o)))
  }

  /** The call runs, delivers findings, and no statement of the write fails. */
  ghost predicate Lands(decode: string -> Option<Output>, b: Books, c: Call, o: Output) {
    !Memoised(b, c) && Delivers(decode, c, o) && (c.writeFails.None? || c.writeFails.value >= |o.findings| + 2)
  }

  /** The ledger `t` holds one whole review more than `b`: its row, and one row per finding in order, under
      the call's own labels, with ids not used before. */
  predicate OneMoreReview(b: Books, t: Books, c: Call, o: Output) {
    var n := |b.reviews|;
    && |t.reviews| == n + 1 && t.reviews[..n] == b.reviews
    && t.reviews[n].verdict == o.verdict && t.reviews[n].confidence == o.confidence
    && (if c.meta.Some? then t.reviews[n].gate == c.meta.value else t.reviews[n].gate == Gate("", "", "", None))
    && AddsFindings(b.findings, t.findings, t.reviews[n].gate, o.findings)
  }

  predicate AddsFindings(was: seq<FindingRow>, now: seq<FindingRow>, g: Gate, fs: seq<Finding>) {
    var first := if was == [] then 1 else was[|was| - 1].id + 1;
    && was <= now && |now| == |was| + |fs|
    && forall k | 0 <= k < |fs| ::
         now[|was|..][k] == FindingRow(first + k, g.repo, g.gate, g.gitRef, "self", fs[k], None)
  }

  lemma MemoisedIffSkips(b: Books, c: Call)
    ensures Memoised(b, c) <==> Skips(true, b, c)
  {
  }

  lemma FoundIffDelivers(decode: string -> Option<Output>, c: Call, o: Output)
    ensures Found(decode, true, c) == Some(o) <==> Delivers(decode, c, o)
  {
    hide Readable, ParseFindings;
    if c.first.text.Some? {
      forall p ensures ParseFindings(decode, c.first.text.value) == Some(p) <==> Readable(decode, c.first.text.value, p) {
        ParsedIffReadable(decode, c.first.text.value, p);
      }
      var first := ParseFindings(decode, c.first.text.value);
      if first.Some? { assert Readable(decode, c.first.text.value, first.value); }
    }
    if c.second.text.Some? { ParsedIffReadable(decode, c.second.text.value, o); }
  }

  /** A call adds its whole review to the ledger exactly when it runs, delivers findings and the write
      lands, and leaves the ledger alone otherwise. */
  lemma RecordedIffLands(decode: string -> Option<Output>, b: Books, c: Call)
    ensures var t := BooksAfter(decode, true, b, c);
            && (forall o | Lands(decode, b, c, o) :: OneMoreReview(b, t, c, o))
            && ((forall o :: !Lands(decode, b, c, o)) ==> t == b)
  {
    hide Found, Skips, Delivers, Memoised;
    MemoisedIffSkips(b, c);
    forall o ensures Found(decode, true, c) == Some(o) <==> Delivers(decode, c, o) { FoundIffDelivers(decode, c, o); }
    var t := BooksAfter(decode, true, b, c);
    forall o | Lands(decode, b, c, o) ensures OneMoreReview(b, t, c, o) { WholeReview(b, c, o); }
    if Records(decode, true, b, c) { assert Lands(decode, b, c, Found(decode, true, c).value); }
  }

  lemma WholeReview(b: Books, c: Call, o: Output)
    ensures OneMoreReview(b, WithReview(b, GateOf(c), o), c, o)
  {
    WholeFindings(b, GateOf(c), o.findings);
    hide AddsFindings, NewRows;
  }

  lemma WholeFindings(b: Books, g: Gate, fs: seq<Finding>)
    ensures AddsFindings(b.findings, b.findings + NewRows(b.NextId(), g, fs), g, fs)
  {
    assert (b.findings + NewRows(b.NextId(), g, fs))[|b.findings|..] == NewRows(b.NextId(), g, fs);
  }

  /** A corrective turn runs exactly when there is a ledger, the reviewer answered and the answer does not read, and one row
      bills both turns. */
  lemma BillCoversBothTurns(decode: string -> Option<Output>, on: bool, c: Call)
    ensures var corrected := on && c.kind.Reviewer? && c.first.text.Some? && (forall o :: !Readable(decode, c.first.text.value, o));
            && (Corrects(decode, on, c) <==> corrected)
            && Spent(decode, on, c).usage == Totals(if corrected then c.first.draws + c.second.draws else c.first.draws)
            && Spent(decode, on, c).duration == c.first.duration + if corrected then c.second.duration else 0
  {
    hide Readable, ParseFindings, Totals;
    if c.first.text.Some? {
      forall p ensures ParseFindings(decode, c.first.text.value) == Some(p) <==> Readable(decode, c.first.text.value, p) {
        ParsedIffReadable(decode, c.first.text.value, p);
      }
    }
  }

  /** Call `c` put a review of that very tree into the ledger. */
  ghost predicate RecordsTree(decode: string -> Option<Output>, b: Books, c: Call, repo: string, gate: string, tree: string) {
    Names(c, repo, gate, tree) && exists o :: Lands(decode, b, c, o)
  }

  /** One of the first `i` calls did. */
  ghost predicate RecordedBefore(
    decode: string -> Option<Output>, b: Books, calls: seq<Call>, i: nat, repo: string, gate: string, tree: string)
    requires i <= |calls|
  {
    exists j | 0 <= j < i :: RecordsTree(decode, BooksAt(decode, b, calls, j), calls[j], repo, gate, tree)
  }

  lemma OneMoreCall(
    decode: string -> Option<Output>, b: Books, calls: seq<Call>, i: nat, repo: string, gate: string, tree: string)
    requires 0 < i <= |calls|
    ensures RecordedBefore(decode, b, calls, i, repo, gate, tree) <==>
            || RecordedBefore(decode, b, calls, i - 1, repo, gate, tree)
            || RecordsTree(decode, BooksAt(decode, b, calls, i - 1), calls[i - 1], repo, gate, tree)
  {
    hide RecordsTree, BooksAt;
  }

  lemma {:induction false} ReviewedIffRecorded(
    decode: string -> Option<Output>, b: Books, calls: seq<Call>, i: nat, repo: string, gate: string, tree: string)
    requires i <= |calls|
    ensures BooksAt(decode, b, calls, i).Reviewed(repo, gate, tree) <==>
            b.Reviewed(repo, gate, tree) || RecordedBefore(decode, b, calls, i, repo, gate, tree)
  {
    hide RecordsTree, BooksAfter, Books.Reviewed;
    if i == 0 {
      assert !RecordedBefore(decode, b, calls, 0, repo, gate, tree);
    } else {
      hide RecordedBefore;
      ReviewedIffRecorded(decode, b, calls, i - 1, repo, gate, tree);
      OneMoreCall(decode, b, calls, i, repo, gate, tree);
      ReviewedAfter(decode, BooksAt(decode, b, calls, i - 1), calls[i - 1], repo, gate, tree);
    }
  }

  lemma ReviewedAfter(decode: string -> Option<Output>, b: Books, c: Call, repo: string, gate: string, tree: string)
    ensures BooksAfter(decode, true, b, c).Reviewed(repo, gate, tree) <==>
            b.Reviewed(repo, gate, tree) || RecordsTree(decode, b, c, repo, gate, tree)
  {
    var t := BooksAfter(decode, true, b, c);
    RecordedIffLands(decode, b, c);
    hide BooksAfter, Lands;
    if o :| Lands(decode, b, c, o) {
      assert t.reviews[|b.reviews|].gate == if c.meta.Some? then c.meta.value else Gate("", "", "", None);
      assert forall k | 0 <= k < |b.reviews| :: t.reviews[k] == b.reviews[k];
    }
  }

  /** Over any run, a reviewer call is skipped exactly when an earlier call recorded its repository,
      gate and tree, or the ledger held them from the start. */
  lemma SkippedIffRecordedBefore(decode: string -> Option<Output>, b: Books, calls: seq<Call>, i: nat)
    requires i < |calls| && Keyed(calls[i]) && calls[i].lookupWorks
    ensures var g := calls[i].meta.value;
            Memoised(BooksAt(decode, b, calls, i), calls[i]) <==>
              b.Reviewed(g.repo, g.gate, g.tree.value) || RecordedBefore(decode, b, calls, i, g.repo, g.gate, g.tree.value)
  {
    var g := calls[i].meta.value;
    ReviewedIffRecorded(decode, b, calls, i, g.repo, g.gate, g.tree.value);
  }

  /** No two reviews of one tree for one gate of one repository. */
  predicate OncePerTree(b: Books) {
    forall i, j | 0 <= i < j < |b.reviews| && b.reviews[i].gate.tree.Some? ::
      !(&& b.reviews[i].gate.repo == b.reviews[j].gate.repo && b.reviews[i].gate.gate == b.reviews[j].gate.gate
        && b.reviews[i].gate.tree == b.reviews[j].gate.tree)
  }

  /** While lookups work, each tree is recorded at most once per gate. */
  lemma {:induction false} TreesAreRecordedOnce(decode: string -> Option<Output>, b: Books, calls: seq<Call>, i: nat)
    requires i <= |calls| && b.Valid() && OncePerTree(b) && forall k | 0 <= k < |calls| :: calls[k].lookupWorks
    ensures OncePerTree(BooksAt(decode, b, calls, i)) && BooksAt(decode, b, calls, i).Valid()
    ensures b.reviews <= BooksAt(decode, b, calls, i).reviews && b.findings <= BooksAt(decode, b, calls, i).findings
  {
    if i > 0 {
      TreesAreRecordedOnce(decode, b, calls, i - 1);
      OneCallKeepsOnce(decode, BooksAt(decode, b, calls, i - 1), calls[i - 1]);
    }
  }

  lemma OneCallKeepsOnce(decode: string -> Option<Output>, b: Books, c: Call)
    requires b.Valid() && OncePerTree(b) && c.lookupWorks
    ensures var t := BooksAfter(decode, true, b, c);
            t.Valid() && OncePerTree(t) && b.reviews <= t.reviews && b.findings <= t.findings
  {
    if Records(decode, true, b, c) {
      var o := Found(decode, true, c).value;
      var t := WithReview(b, GateOf(c), o);
      WithReviewIsValid(b, GateOf(c), o);
      forall i, j | 0 <= i < j < |t.reviews| && t.reviews[i].gate.tree.Some?
        ensures !(&& t.reviews[i].gate.repo == t.reviews[j].gate.repo && t.reviews[i].gate.gate == t.reviews[j].gate.gate
                  && t.reviews[i].gate.tree == t.reviews[j].gate.tree)
      {
        assert t.reviews[i] == b.reviews[i];
        if j < |b.reviews| {
          assert t.reviews[j] == b.reviews[j];
        } else {
          assert t.reviews[j].gate == GateOf(c);
          assert GateOf(c).tree.Some? ==> !b.Reviewed(GateOf(c).repo, GateOf(c).gate, GateOf(c).tree.value);
        }
      }
    }
  }
}
