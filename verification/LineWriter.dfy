/** The bounded line writer behind the error tee (src/errlog.rs). */
module LineWriter {
  import opened Options
  import opened Text

  type Bytes = seq<bv8>

  const NL: bv8 := 10
  const LINE_MAX_BYTES: nat := 8192
  /** Lines are byte slices; a length is a 64-bit word. */
  const WORD: nat := 0x1_0000_0000_0000_0000

  datatype LineFormat = Json | PlainText

  /** The two foreign encoders: lossy UTF-8 decoding, as the encoded characters it
      yields, and the printed JSON stub for a head and an original length. */
  datatype Codec = Codec(decode: Bytes -> seq<Bytes>, stub: (Bytes, nat) -> Bytes) {
    /** A character takes one to four bytes. */
    ghost predicate Utf8() {
      forall line: Bytes, k | 0 <= k < |decode(line)| :: 1 <= |decode(line)[k]| <= 4
    }
  }

  function Ascii(s: string): (b: Bytes)
    ensures |b| == |s|
    ensures forall i | 0 <= i < |s| && s[i] as int < 128 :: b[i] as int == s[i] as int
  {
    seq(|s|, i requires 0 <= i < |s| => (s[i] as int % 256) as bv8)
  }

  /** The longest run of leading characters that fits in `room` bytes. */
  function Head(chars: seq<Bytes>, room: nat): (h: Bytes)
    ensures |h| <= room
  {
    if chars == [] || |chars[0]| > room then [] else chars[0] + Head(chars[1..], room - |chars[0]|)
  }

  /** `None` means the line passes unchanged. */
  function BoundLine(c: Codec, line: Bytes, format: LineFormat): Option<Bytes> {
    if |line| <= LINE_MAX_BYTES then None
    else
      var head := Head(c.decode(line), LINE_MAX_BYTES / 2);
      match format
      case Json => Some(c.stub(head, |line|))
      case PlainText => Some(head + Ascii("...[line truncated, " + Decimal(|line|) + " bytes total]"))
  }

  function Bounded(c: Codec, line: Bytes, format: LineFormat): Bytes {
    BoundLine(c, line, format).GetOr(line)
  }

  /** In text form every line fits the cap, whatever the line holds. */
  lemma TextFitsCap(c: Codec, line: Bytes)
    requires |line| < WORD
    ensures |Bounded(c, line, PlainText)| <= LINE_MAX_BYTES
  {
    TwentyDigits(|line|);
  }

  lemma TwentyDigits(n: nat)
    requires n < WORD
    ensures |Decimal(n)| <= 20
  {
    assert Pow10(5) == 100000 by { assert Pow10(3) == 1000; }
    PowSum(5, 5);
    PowSum(10, 10);
    DecimalLength(n, 20);
  }

  lemma {:induction false} PowSum(a: nat, b: nat)
    ensures Pow10(a + b) == Pow10(a) * Pow10(b)
  {
    if a > 0 { PowSum(a - 1, b); }
  }

  /** The head is never longer than it must be: one more character would not fit. */
  lemma {:induction false} HeadIsMaximal(chars: seq<Bytes>, room: nat) returns (k: nat)
    ensures k <= |chars| && Head(chars, room) == Flatten(chars[..k])
    ensures k < |chars| ==> |Flatten(chars[..k + 1])| > room
  {
    if chars == [] || |chars[0]| > room {
      k := 0;
      if chars != [] { assert chars[..1] == [chars[0]]; assert Flatten(chars[..1]) == chars[0] + Flatten([]); }
    } else {
      var n := HeadIsMaximal(chars[1..], room - |chars[0]|);
      k := n + 1;
      assert chars[..k][1..] == chars[1..][..n];
      if k < |chars| { assert chars[..k + 1][1..] == chars[1..][..n + 1]; }
    }
  }

  lemma {:induction false} FlattenGrows(chars: seq<Bytes>, j: nat, k: nat)
    requires j <= k <= |chars|
    ensures |Flatten(chars[..j])| <= |Flatten(chars[..k])|
  {
    if j > 0 {
      FlattenGrows(chars[1..], j - 1, k - 1);
      assert chars[..j][1..] == chars[1..][..j - 1] && chars[..k][1..] == chars[1..][..k - 1];
    }
  }

  /** A line within the cap passes as it is, in either format. */
  lemma ShortLinesPass(c: Codec, line: Bytes, format: LineFormat)
    requires |line| <= 8192
    ensures Bounded(c, line, format) == line
  {
  }

  /** A longer line becomes its first `k` characters, as many as fit in half the cap, followed in text form
      by a marker that gives its length, in JSON form as the stub of that head and that length. */
  lemma LongLinesKeepTheirHead(c: Codec, line: Bytes) returns (k: nat, length: string)
    requires |line| > 8192
    ensures var chars := c.decode(line);
            && k <= |chars|
            && (forall j: nat | j <= |chars| :: |Flatten(chars[..j])| <= 4096 <==> j <= k)
            && Bounded(c, line, Json) == c.stub(Flatten(chars[..k]), |line|)
            && Bounded(c, line, PlainText) == Flatten(chars[..k]) + Ascii("...[line truncated, " + length + " bytes total]")
    ensures Digits(length) && NumberOf(length) == |line| && length[0] != '0'
  {
    var chars := c.decode(line);
    k := HeadIsMaximal(chars, 4096);
    length := Decimal(|line|);
    DecimalReadsBack(|line|);
    forall j: nat | j <= |chars| ensures |Flatten(chars[..j])| <= 4096 <==> j <= k {
      if j <= k { FlattenGrows(chars, j, k); } else { FlattenGrows(chars, k + 1, j); }
    }
  }

  /** Characters take at most four bytes, so a head that had to stop wastes at most three. */
  lemma HeadWastesLittle(c: Codec, line: Bytes, room: nat)
    requires c.Utf8() && |Flatten(c.decode(line))| > room
    ensures |Head(c.decode(line), room)| + 3 >= room
  {
    var chars := c.decode(line);
    var k := HeadIsMaximal(chars, room);
    assert chars[..|chars|] == chars;
    assert k < |chars|;
    FlattenOne(chars[..k], chars[k]);
    assert chars[..k + 1] == chars[..k] + [chars[k]];
  }

  lemma {:induction false} FlattenOne(chunks: seq<Bytes>, last: Bytes)
    ensures Flatten(chunks + [last]) == Flatten(chunks) + last
  {
    if chunks == [] {
      assert chunks + [last] == [last] && [last][1..] == [] && last + [] == [] + last;
    } else {
      assert (chunks + [last])[1..] == chunks[1..] + [last];
      FlattenOne(chunks[1..], last);
      Associate(chunks[0], Flatten(chunks[1..]), last);
    }
  }

  function Flatten(chunks: seq<Bytes>): Bytes {
    if chunks == [] then [] else chunks[0] + Flatten(chunks[1..])
  }

  // Lines of a stream.

  /** Where the first newline is, or the length when there is none. */
  function FirstLine(s: Bytes): (n: nat)
    ensures n <= |s| && NL !in s[..n] && (n < |s| ==> s[n] == NL)
    ensures NL !in s ==> n == |s|
  {
    if s == [] || s[0] == NL then 0
    else
      var n := FirstLine(s[1..]);
      assert s[..n + 1] == [s[0]] + s[1..][..n];
      n + 1
  }

  /** The complete lines of `s`, newlines excluded. */
  function Lines(s: Bytes): (r: seq<Bytes>)
    decreases |s|
  {
    var n := FirstLine(s);
    if n == |s| then [] else [s[..n]] + Lines(s[n + 1..])
  }

  /** What follows the last newline. */
  function Tail(s: Bytes): (r: Bytes)
    ensures NL !in r && |r| <= |s|
    decreases |s|
  {
    var n := FirstLine(s);
    if n == |s| then s else Tail(s[n + 1..])
  }

  /** Every line of a whole stream, an unterminated last one included. */
  function AllLines(s: Bytes): seq<Bytes> {
    Lines(s) + (if Tail(s) == [] then [] else [Tail(s)])
  }

  /** The reference: bound each line of the whole stream on its own. */
  function BoundEach(c: Codec, lines: seq<Bytes>, format: LineFormat): (r: seq<Bytes>)
    ensures |r| == |lines|
  {
    seq(|lines|, i requires 0 <= i < |lines| => Bounded(c, lines[i], format))
  }

  /** The bytes a sink holds after these lines. */
  function Sink(lines: seq<Bytes>): Bytes {
    if lines == [] then [] else Sink(lines[..|lines| - 1]) + lines[|lines| - 1] + [NL]
  }

  lemma {:induction false} SinkOfConcat(a: seq<Bytes>, b: seq<Bytes>)
    ensures Sink(a + b) == Sink(a) + Sink(b)
  {
    if b == [] {
      assert a + b == a;
    } else {
      SinkOfConcat(a, b[..|b| - 1]);
      assert (a + b)[..|a + b| - 1] == a + b[..|b| - 1];
      Associate(Sink(a), Sink(b[..|b| - 1]), b[|b| - 1]);
      Associate(Sink(a), Sink(b[..|b| - 1]) + b[|b| - 1], [NL]);
    }
  }

  lemma SinkOfOne(line: Bytes)
    ensures Sink([line]) == line + [NL]
  {
    var all := [line];
    assert all[..|all| - 1] == [] && [] + line == line;
  }

  /** The complete lines, each with its newline, and what follows the last are the stream. */
  lemma {:induction false} LinesRebuildTheStream(s: Bytes)
    ensures Sink(Lines(s)) + Tail(s) == s
    decreases |s|
  {
    var n := FirstLine(s);
    if n == |s| {
      NoLinesNoBytes();
      HeldIsTail(s);
      assert [] + s == s;
    } else {
      var rest := s[n + 1..];
      LinesRebuildTheStream(rest);
      FirstOfLines(s);
      AtNewline(s, n);
      hide Sink, Lines, Tail, FirstLine;
      SinkOfConcat([s[..n]], Lines(rest));
      SinkOfOne(s[..n]);
      Associate(s[..n] + [NL], Sink(Lines(rest)), Tail(rest));
    }
  }

  lemma AtNewline(s: Bytes, n: nat)
    requires n < |s| && s[n] == NL
    ensures s == s[..n] + [NL] + s[n + 1..]
  {
  }

  lemma NoLinesNoBytes()
    ensures Sink([]) == []
  {
  }

  /** A stream whose last line is ended. */
  function Ended(s: Bytes): Bytes {
    if s == [] || s[|s| - 1] == NL then s else s + [NL]
  }

  /** All lines of a stream, each with a newline, are the stream, ended by a newline if it was not. */
  lemma AllLinesRebuildTheStream(s: Bytes)
    ensures Sink(AllLines(s)) == Ended(s)
  {
    LinesRebuildTheStream(s);
    var lines, tail := Lines(s), Tail(s);
    hide Sink, Lines, Tail, FirstLine;
    LastIsNewline(lines);
    if tail == [] {
      assert lines + [] == lines;
      EndsLike(Sink(lines), [], s);
    } else {
      SinkOfConcat(lines, [tail]);
      SinkOfOne(tail);
      Associate(Sink(lines), tail, [NL]);
      EndsLike(Sink(lines), tail, s);
    }
  }

  lemma EndsLike(a: Bytes, b: Bytes, s: Bytes)
    requires a + b == s
    ensures b == [] ==> s == a
    ensures b != [] ==> s[|s| - 1] == b[|b| - 1]
  {
  }

  lemma LastIsNewline(lines: seq<Bytes>)
    ensures Sink(lines) != [] ==> Sink(lines)[|Sink(lines)| - 1] == NL
  {
  }

  lemma {:induction false} ShortLinesStay(c: Codec, lines: seq<Bytes>, format: LineFormat)
    requires forall l | l in lines :: |l| <= 8192
    ensures BoundEach(c, lines, format) == lines
  {
    forall i | 0 <= i < |lines| ensures BoundEach(c, lines, format)[i] == lines[i] { ShortLinesPass(c, lines[i], format); }
  }

  lemma ShortLinesReachTheSink(c: Codec, s: Bytes, format: LineFormat)
    requires forall l | l in AllLines(s) :: |l| <= 8192
    ensures Sink(BoundEach(c, AllLines(s), format)) == Ended(s)
  {
    ShortLinesStay(c, AllLines(s), format);
    AllLinesRebuildTheStream(s);
  }

  lemma Associate<T>(a: seq<T>, b: seq<T>, c: seq<T>)
    ensures a + (b + c) == (a + b) + c
  {
  }

  lemma FirstOfLines(s: Bytes)
    requires FirstLine(s) < |s|
    ensures var n := FirstLine(s); Lines(s) == [s[..n]] + Lines(s[n + 1..]) && Tail(s) == Tail(s[n + 1..])
  {
  }

  lemma {:induction false} LinesOfConcat(a: Bytes, b: Bytes)
    ensures Lines(a + b) == Lines(a) + Lines(Tail(a) + b)
    ensures Tail(a + b) == Tail(Tail(a) + b)
    decreases |a|
  {
    hide Lines, Tail;
    var n := FirstLine(a);
    if n == |a| {
      assert a[..n] == a;
      HeldIsTail(a);
      assert [] + Lines(a + b) == Lines(a + b);
    } else {
      FirstLineOfConcat(a, b);
      var rest := a[n + 1..];
      assert (a + b)[..n] == a[..n] && (a + b)[n + 1..] == rest + b;
      LinesOfConcat(rest, b);
      FirstOfLines(a);
      FirstOfLines(a + b);
      Associate([a[..n]], Lines(rest), Lines(Tail(rest) + b));
    }
  }

  lemma {:induction false} FirstLineOfConcat(a: Bytes, b: Bytes)
    ensures FirstLine(a) < |a| ==> FirstLine(a + b) == FirstLine(a)
    ensures FirstLine(a) == |a| ==> FirstLine(a + b) == |a| + FirstLine(b)
  {
    if a == [] {
      assert a + b == b;
    } else {
      assert (a + b)[1..] == a[1..] + b;
      FirstLineOfConcat(a[1..], b);
    }
  }

  // The writer as a function of its chunks: what it has emitted and still holds.

  datatype Writer = Writer(emitted: seq<Bytes>, held: Bytes)

  function Feed(w: Writer, data: Bytes): (r: Writer)
    ensures NL !in r.held && |r.held| <= 2 * LINE_MAX_BYTES
  {
    var all := w.held + data;
    var drained := Writer(w.emitted + Lines(all), Tail(all));
    if |drained.held| > 2 * LINE_MAX_BYTES then Writer(drained.emitted + [drained.held], []) else drained
  }

  function FeedAll(w: Writer, chunks: seq<Bytes>): Writer
    decreases |chunks|
  {
    if chunks == [] then w else FeedAll(Feed(w, chunks[0]), chunks[1..])
  }

  function Drop(w: Writer): seq<Bytes> {
    w.emitted + (if w.held == [] then [] else [w.held])
  }

  /** Whether the stream cut after `k` chunks, with bytes still to come, leaves an
      unfinished line over twice the cap. */
  predicate OversizeCut(held: Bytes, chunks: seq<Bytes>, k: nat)
    requires k <= |chunks|
  {
    Flatten(chunks[k..]) != [] && |Tail(held + Flatten(chunks[..k]))| > 2 * LINE_MAX_BYTES
  }

  predicate NoOversizeCut(held: Bytes, chunks: seq<Bytes>) {
    forall k | 0 <= k <= |chunks| :: !OversizeCut(held, chunks, k)
  }

  lemma CutShift(held: Bytes, chunks: seq<Bytes>, k: nat)
    requires chunks != [] && k < |chunks|
    ensures OversizeCut(held, chunks, k + 1) <==> OversizeCut(Tail(held + chunks[0]), chunks[1..], k)
  {
    assert chunks[..k + 1][1..] == chunks[1..][..k];
    var rest := Flatten(chunks[1..][..k]);
    assert held + Flatten(chunks[..k + 1]) == (held + chunks[0]) + rest;
    LinesOfConcat(held + chunks[0], rest);
    assert chunks[k + 1..] == chunks[1..][k..];
  }

  lemma HeldIsTail(p: Bytes)
    requires NL !in p
    ensures Lines(p) == [] && Tail(p) == p
  {
    assert FirstLine(p) == |p|;
  }

  lemma LineCount(p: Bytes, rest: Bytes)
    requires NL !in p && p != []
    ensures |AllLines(p + rest)| == (if rest == [] then 1 else |AllLines(rest)|)
  {
    assert FirstLine(p) == |p|;
    FirstLineOfConcat(p, rest);
    var n := FirstLine(rest);
    if n < |rest| {
      assert (p + rest)[|p| + n + 1..] == rest[n + 1..];
    }
  }

  lemma CutsAfterFirst(held: Bytes, chunks: seq<Bytes>)
    requires chunks != [] && NL !in held && |held| <= 2 * LINE_MAX_BYTES
    ensures NoOversizeCut(held, chunks) <==> NoOversizeCut(Tail(held + chunks[0]), chunks[1..])
  {
    HeldIsTail(held);
    assert held + Flatten(chunks[..0]) == held;
    forall k | 0 <= k < |chunks|
      ensures OversizeCut(held, chunks, k + 1) <==> OversizeCut(Tail(held + chunks[0]), chunks[1..], k)
    {
      CutShift(held, chunks, k);
    }
    if NoOversizeCut(held, chunks) {
      forall k | 0 <= k <= |chunks[1..]| ensures !OversizeCut(Tail(held + chunks[0]), chunks[1..], k) {
        assert !OversizeCut(held, chunks, k + 1);
      }
    } else {
      var k :| 0 <= k <= |chunks| && OversizeCut(held, chunks, k);
      assert k > 0 && OversizeCut(Tail(held + chunks[0]), chunks[1..], k - 1);
    }
  }

  lemma NoBytesLeft(held: Bytes, chunks: seq<Bytes>)
    requires Flatten(chunks) == []
    ensures NoOversizeCut(held, chunks)
  {
    forall k | 0 <= k <= |chunks| ensures !OversizeCut(held, chunks, k) { SuffixEmpty(chunks, k); }
  }

  lemma {:induction false} SuffixEmpty(chunks: seq<Bytes>, k: nat)
    requires Flatten(chunks) == [] && k <= |chunks|
    ensures Flatten(chunks[k..]) == []
  {
    if k > 0 {
      SuffixEmpty(chunks[1..], k - 1);
      assert chunks[k..] == chunks[1..][k - 1..];
    } else {
      assert chunks[k..] == chunks;
    }
  }

  lemma AllLinesOfConcat(a: Bytes, b: Bytes)
    ensures AllLines(a + b) == Lines(a) + AllLines(Tail(a) + b)
  {
    LinesOfConcat(a, b);
    var end := if Tail(a + b) == [] then [] else [Tail(a + b)];
    Associate(Lines(a), Lines(Tail(a) + b), end);
  }

  /** A chunk that forces nothing out leaves the lines to come as they were. */
  lemma CalmFeed(w: Writer, data: Bytes, rest: Bytes)
    requires |Tail(w.held + data)| <= 2 * LINE_MAX_BYTES
    ensures var next := Feed(w, data);
            next.held == Tail(w.held + data)
            && next.emitted + AllLines(next.held + rest) == w.emitted + AllLines(w.held + (data + rest))
  {
    var all := w.held + data;
    Associate(w.held, data, rest);
    AllLinesOfConcat(all, rest);
    Associate(w.emitted, Lines(all), AllLines(Tail(all) + rest));
  }

  /** A forced line is the stream's last one, or one line too many. */
  lemma ForcedFeed(w: Writer, data: Bytes, rest: Bytes)
    requires |Tail(w.held + data)| > 2 * LINE_MAX_BYTES
    ensures var next := Feed(w, data);
            var lines := w.emitted + AllLines(w.held + (data + rest));
            next.held == [] && (if rest == [] then next.emitted == lines
                                else |next.emitted| + |AllLines(rest)| > |lines|)
  {
    var all := w.held + data;
    Associate(w.held, data, rest);
    AllLinesOfConcat(all, rest);
    LineCount(Tail(all), rest);
    if rest == [] {
      HeldIsTail(Tail(all));
      assert Tail(all) + rest == Tail(all);
      Associate(w.emitted, Lines(all), [Tail(all)]);
    }
  }

  /** However the stream is cut, the writer emits at least the lines of it; it emits
      exactly them when no cut leaves an oversize unfinished line, and more otherwise. */
  lemma {:induction false} FeedAgainstLines(w: Writer, chunks: seq<Bytes>)
    requires NL !in w.held && |w.held| <= 2 * LINE_MAX_BYTES
    ensures var out, lines := Drop(FeedAll(w, chunks)), w.emitted + AllLines(w.held + Flatten(chunks));
            if NoOversizeCut(w.held, chunks) then out == lines else |out| > |lines|
    decreases |chunks|
  {
    if chunks == [] {
      HeldIsTail(w.held);
      assert w.held + Flatten(chunks) == w.held;
      NoBytesLeft(w.held, chunks);
    } else {
      var next, rest := Feed(w, chunks[0]), Flatten(chunks[1..]);
      var tail := Tail(w.held + chunks[0]);
      CutsAfterFirst(w.held, chunks);
      FeedAgainstLines(next, chunks[1..]);
      if |tail| <= 2 * LINE_MAX_BYTES {
        CalmFeed(w, chunks[0], rest);
      } else {
        ForcedFeed(w, chunks[0], rest);
        ForcedCut(tail, chunks[1..]);
        assert [] + rest == rest;
      }
    }
  }

  lemma ForcedCut(tail: Bytes, chunks: seq<Bytes>)
    requires NL !in tail && |tail| > 2 * LINE_MAX_BYTES
    ensures if Flatten(chunks) == [] then NoOversizeCut(tail, chunks) && NoOversizeCut([], chunks) && AllLines([]) == []
            else !NoOversizeCut(tail, chunks)
  {
    if Flatten(chunks) == [] {
      NoBytesLeft(tail, chunks);
      NoBytesLeft([], chunks);
    } else {
      HeldIsTail(tail);
      assert chunks[..0] == [] && chunks[0..] == chunks && tail + [] == tail;
      assert OversizeCut(tail, chunks, 0);
    }
  }

  /** The exact condition under which a chunking is invisible in the output. */
  lemma ChunkingInvisibleIff(chunks: seq<Bytes>)
    ensures Drop(FeedAll(Writer([], []), chunks)) == AllLines(Flatten(chunks)) <==> NoOversizeCut([], chunks)
  {
    assert [] + Flatten(chunks) == Flatten(chunks);
    FeedAgainstLines(Writer([], []), chunks);
  }

  /** Lines of at most twice the cap make every chunking equal the line-by-line reference. */
  lemma AnyChunkingOfModestLines(chunks: seq<Bytes>)
    requires forall l | l in AllLines(Flatten(chunks)) :: |l| <= 2 * LINE_MAX_BYTES
    ensures Drop(FeedAll(Writer([], []), chunks)) == AllLines(Flatten(chunks))
  {
    assert [] + Flatten(chunks) == Flatten(chunks);
    forall k | 0 <= k <= |chunks| ensures !OversizeCut([], chunks, k) {
      FlattenSplit(chunks, k);
      var before, after := Flatten(chunks[..k]), Flatten(chunks[k..]);
      assert [] + before == before;
      if after != [] && Tail(before) != [] {
        TailGrowsIntoALine(before, after);
      }
    }
    ChunkingInvisibleIff(chunks);
  }

  lemma {:induction false} FlattenSplit(chunks: seq<Bytes>, k: nat)
    requires k <= |chunks|
    ensures Flatten(chunks) == Flatten(chunks[..k]) + Flatten(chunks[k..])
  {
    if k > 0 {
      FlattenSplit(chunks[1..], k - 1);
      assert chunks[..k][1..] == chunks[1..][..k - 1] && chunks[k..] == chunks[1..][k - 1..];
    } else {
      assert chunks[k..] == chunks;
    }
  }

  lemma TailGrowsIntoALine(before: Bytes, after: Bytes)
    requires Tail(before) != []
    ensures exists l | l in AllLines(before + after) :: |l| >= |Tail(before)|
  {
    var p := Tail(before);
    LinesOfConcat(before, after);
    HeldIsTail(p);
    FirstLineOfConcat(p, after);
    var n := FirstLine(p + after);
    var l := (p + after)[..n];
    assert l in AllLines(before + after) && |l| >= |p| by {
      if n == |p + after| {
        assert l == p + after == Tail(p + after);
      } else {
        assert Lines(p + after)[0] == l;
      }
    }
  }

  // The object itself, over a sink that may fail.

  /** A line handed to the sink, what the sink got of it, and whether that was all. */
  datatype Fate = Fate(line: Bytes, left: Bytes, whole: bool)

  function Lined(fates: seq<Fate>): (r: seq<Bytes>)
    ensures |r| == |fates|
  {
    seq(|fates|, i requires 0 <= i < |fates| => fates[i].line)
  }

  function Left(fates: seq<Fate>): Bytes {
    if fates == [] then [] else Left(fates[..|fates| - 1]) + fates[|fates| - 1].left
  }

  /** The sink gets the bounded line and a newline, or a part of that from its start. */
  predicate Honest(c: Codec, format: LineFormat, f: Fate) {
    var full := Bounded(c, f.line, format) + [NL];
    if f.whole then f.left == full else f.left < full
  }

  predicate AllHonest(c: Codec, format: LineFormat, fates: seq<Fate>) {
    forall i | 0 <= i < |fates| :: Honest(c, format, fates[i])
  }

  predicate AllWhole(fates: seq<Fate>) {
    forall i | 0 <= i < |fates| :: fates[i].whole
  }

  /** While nothing fails, the sink holds the bounded lines and nothing else. */
  lemma {:induction false} WholeLinesFillTheSink(c: Codec, format: LineFormat, fates: seq<Fate>)
    requires AllWhole(fates) && AllHonest(c, format, fates)
    ensures Left(fates) == Sink(BoundEach(c, Lined(fates), format))
  {
    if fates != [] {
      var rest := fates[..|fates| - 1];
      WholeLinesFillTheSink(c, format, rest);
      var all := BoundEach(c, Lined(fates), format);
      assert all[..|all| - 1] == BoundEach(c, Lined(rest), format);
      assert Left(rest) + (all[|all| - 1] + [NL]) == Left(rest) + all[|all| - 1] + [NL];
    }
  }

  /** What two writes leave behind is a start of the line and its newline. */
  lemma PartsAreHonest(c: Codec, format: LineFormat, line: Bytes, got: Bytes, newline: Bytes)
    ensures var bounded := Bounded(c, line, format);
            && (got < bounded ==> Honest(c, format, Fate(line, got, false)))
            && (got == bounded && newline < [NL] ==> Honest(c, format, Fate(line, got + newline, false)))
            && (got == bounded && newline == [NL] ==> Honest(c, format, Fate(line, got + newline, true)))
  {
    var full := Bounded(c, line, format) + [NL];
    if got < Bounded(c, line, format) { assert got == full[..|got|]; }
    if newline < [NL] { assert newline == [] && got + newline == got; }
  }

  lemma OneMoreFate(fates: seq<Fate>, f: Fate)
    ensures Left(fates + [f]) == Left(fates) + f.left && Lined(fates + [f]) == Lined(fates) + [f.line]
  {
    assert (fates + [f])[..|fates + [f]| - 1] == fates;
  }

  lemma OneMoreHonest(c: Codec, format: LineFormat, fates: seq<Fate>, f: Fate)
    requires AllHonest(c, format, fates) && Honest(c, format, f)
    ensures AllHonest(c, format, fates + [f])
  {
  }

  class BoundedLineWriter {
    const codec: Codec
    const format: LineFormat
    /** How many of its bytes the sink takes of the n-th write before it fails. */
    const takes: (nat, Bytes) -> nat
    var attempts: nat
    var inner: Bytes
    var buf: Bytes
    ghost var fates: seq<Fate>

    ghost predicate Valid()
      reads this
    {
      inner == Left(fates) && AllHonest(codec, format, fates)
    }

    ghost function State(): Writer
      reads this
    {
      Writer(Lined(fates), buf)
    }

    constructor (codec: Codec, format: LineFormat, takes: (nat, Bytes) -> nat)
      ensures Valid() && fates == [] && State() == Writer([], [])
      ensures this.codec == codec && this.format == format && this.takes == takes
    {
      this.codec, this.format, this.takes, attempts, inner, buf, fates := codec, format, takes, 0, [], [], [];
    }

    /** `write_all` on the sink: what it got, and whether that was all. */
    method Put(data: Bytes) returns (ok: bool, ghost got: Bytes)
      modifies this`inner, this`attempts
      ensures inner == old(inner) + got && (if ok then got == data else got < data)
      ensures takes(old(attempts), data) >= |data| ==> ok
    {
      var n := takes(attempts, data);
      ok := n >= |data|;
      n := if ok then |data| else n;
      got := data[..n];
      inner := inner + data[..n];
      attempts := attempts + 1;
    }

    /** Send one line on, bounded; it is gone from the writer whether or not the sink took it. */
    method Emit(line: Bytes) returns (ok: bool)
      requires Valid()
      modifies this`inner, this`attempts, this`fates
      ensures Valid() && |fates| == |old(fates)| + 1 && old(fates) <= fates
      ensures fates[|old(fates)|].line == line && fates[|old(fates)|].whole == ok
      ensures Lined(fates) == Lined(old(fates)) + [line]
      ensures GoodSink(takes) ==> ok
    {
      var bounded := match BoundLine(codec, line, format) case Some(b) => b case None => line;
      assert bounded == Bounded(codec, line, format);
      hide Bounded, BoundLine, Left, Honest, AllHonest, Lined;
      ghost var left, newline;
      ok, left := Put(bounded);
      if ok {
        ok, newline := Put([NL]);
        Associate(old(inner), left, newline);
        PartsAreHonest(codec, format, line, left, newline);
        left := left + newline;
      } else {
        PartsAreHonest(codec, format, line, left, []);
      }
      OneMoreFate(fates, Fate(line, left, ok));
      OneMoreHonest(codec, format, fates, Fate(line, left, ok));
      fates := fates + [Fate(line, left, ok)];
    }

    /** Emit the complete lines, up to the first the sink refuses: no line is skipped or repeated. */
    method DrainCompleteLines() returns (ok: bool)
      requires Valid()
      modifies this
      ensures Valid() && old(fates) <= fates
      ensures Lined(fates) + Lines(buf) == Lined(old(fates)) + Lines(old(buf)) && Tail(buf) == Tail(old(buf))
      ensures ok ==> buf == Tail(old(buf)) && Lined(fates) == Lined(old(fates)) + Lines(old(buf))
      ensures OnlyLastMayFail(old(fates), fates, ok)
      ensures GoodSink(takes) ==> ok
    {
      hide Left, OnlyLastMayFail, AllHonest, Lines, Tail, Lined;
      ghost var start := fates;
      NothingFailed(start);
      ok := true;
      while ok && FirstLine(buf) < |buf|
        invariant Valid() && old(fates) <= fates
        invariant Lined(fates) + Lines(buf) == Lined(old(fates)) + Lines(old(buf))
        invariant Tail(buf) == Tail(old(buf))
        invariant OnlyLastMayFail(start, fates, ok)
        invariant GoodSink(takes) ==> ok
        decreases |buf|
      {
        var pos := FirstLine(buf);
        var line := buf[..pos + 1];
        assert line[..|line| - 1] == buf[..pos];
        FirstOfLines(buf);
        Associate(Lined(fates), [line[..|line| - 1]], Lines(buf[pos + 1..]));
        buf := buf[pos + 1..];
        ghost var before := fates;
        ok := Emit(line[..|line| - 1]);
        OneMoreMayFail(start, before, fates, ok);
      }
      if ok {
        assert buf[..FirstLine(buf)] == buf;
        HeldIsTail(buf);
        assert Lined(fates) + [] == Lined(fates);
      }
    }

    /** Send the whole buffer on as one line. */
    method Flush() returns (ok: bool)
      requires Valid()
      modifies this
      ensures Valid() && buf == [] && old(fates) <= fates && Lined(fates) == Lined(old(fates)) + [old(buf)]
      ensures OnlyLastMayFail(old(fates), fates, ok)
      ensures GoodSink(takes) ==> ok
    {
      hide Left;
      var line := buf;
      buf := [];
      ghost var before := fates;
      ok := Emit(line);
      NothingFailed(before);
      OneMoreMayFail(before, before, fates, ok);
    }

    /** Buffer a chunk, emit what is complete, force out what grew too long. An error leaves the lines
        not reached in the buffer. */
    method Write(data: Bytes) returns (written: Option<nat>)
      requires Valid()
      modifies this
      ensures Valid() && old(fates) <= fates
      ensures written.Some? ==> written.value == |data| && State() == Feed(old(State()), data)
      ensures written.None? ==>
                || State() == Feed(old(State()), data)
                || (&& Lined(fates) + Lines(buf) == Lined(old(fates)) + Lines(old(buf) + data)
                    && Tail(buf) == Tail(old(buf) + data))
      ensures OnlyLastMayFail(old(fates), fates, written.Some?)
      ensures GoodSink(takes) ==> written.Some?
    {
      hide Lines, Tail, Left;
      ghost var start := fates;
      buf := buf + data;
      var ok := DrainCompleteLines();
      if !ok { return None; }
      ghost var drained := fates;
      if |buf| > 2 * LINE_MAX_BYTES { ok := Flush(); }
      FailuresAddUp(start, drained, fates, ok);
      written := if ok then Some(|data|) else None;
    }

    /** Dropping the writer emits whatever it still holds; an error goes unnoticed. */
    method Close()
      requires Valid()
      modifies this
      ensures Valid() && old(fates) <= fates && buf == [] && Lined(fates) == Drop(old(State()))
      ensures GoodSink(takes) && AllWhole(old(fates)) ==> AllWhole(fates)
    {
      ghost var before := fates;
      if buf != [] {
        var ok := Flush();
        if GoodSink(takes) && AllWhole(before) { StillWhole(before, fates); }
      }
    }
  }

  lemma NothingFailed(fates: seq<Fate>)
    ensures OnlyLastMayFail(fates, fates, true)
  {
  }

  lemma OneMoreMayFail(start: seq<Fate>, before: seq<Fate>, now: seq<Fate>, ok: bool)
    requires start <= before <= now && |now| == |before| + 1 && now[|before|].whole == ok
    requires OnlyLastMayFail(start, before, true)
    ensures OnlyLastMayFail(start, now, ok)
  {
    assert forall i | 0 <= i < |before| :: now[i] == before[i];
  }

  lemma FailuresAddUp(start: seq<Fate>, drained: seq<Fate>, now: seq<Fate>, ok: bool)
    requires start <= drained <= now && OnlyLastMayFail(start, drained, true) && OnlyLastMayFail(drained, now, ok)
    ensures OnlyLastMayFail(start, now, ok)
  {
    assert forall i | |start| <= i < |drained| :: now[i] == drained[i];
  }

  /** The sink never fails. */
  ghost predicate GoodSink(takes: (nat, Bytes) -> nat) {
    forall n: nat, data: Bytes :: takes(n, data) >= |data|
  }

  /** Of the lines sent since, all arrived, but for the last one when there was an error. */
  predicate OnlyLastMayFail(before: seq<Fate>, now: seq<Fate>, ok: bool) {
    && (forall i | |before| <= i < |now| - 1 :: now[i].whole)
    && (if ok then |before| < |now| ==> now[|now| - 1].whole else |before| < |now| && !now[|now| - 1].whole)
  }

  lemma StillWhole(before: seq<Fate>, now: seq<Fate>)
    requires AllWhole(before) && before <= now && OnlyLastMayFail(before, now, true)
    ensures AllWhole(now)
  {
    forall i | 0 <= i < |now| ensures now[i].whole {
      if i < |before| { assert now[i] == before[i]; }
    }
  }

  /** A writer's whole life over a stream cut into `chunks`, its errors ignored: the sink holds a part of
      each line sent to it; over a sink that does not fail it holds the bounded lines, and when no line
      is longer than twice the cap those are the lines of the stream, however it was cut. */
  method TeeStream(codec: Codec, format: LineFormat, takes: (nat, Bytes) -> nat, chunks: seq<Bytes>)
    returns (out: Bytes, ghost fates: seq<Fate>)
    ensures out == Left(fates) && AllHonest(codec, format, fates)
    ensures GoodSink(takes) ==> out == Sink(BoundEach(codec, Drop(FeedAll(Writer([], []), chunks)), format))
    ensures GoodSink(takes) && (forall l | l in AllLines(Flatten(chunks)) :: |l| <= 2 * LINE_MAX_BYTES) ==>
              out == Sink(BoundEach(codec, AllLines(Flatten(chunks)), format))
    // Lines within the cap pass as they are: the sink holds the stream, ended by a newline.
    ensures GoodSink(takes) && (forall l | l in AllLines(Flatten(chunks)) :: |l| <= 8192) ==>
              out == Ended(Flatten(chunks))
  {
    var w := new BoundedLineWriter(codec, format, takes);
    var i := 0;
    while i < |chunks|
      invariant i <= |chunks| && w.Valid() && w.codec == codec && w.format == format && w.takes == takes
      invariant GoodSink(takes) ==>
                  FeedAll(w.State(), chunks[i..]) == FeedAll(Writer([], []), chunks) && AllWhole(w.fates)
    {
      assert chunks[i..][1..] == chunks[i + 1..];
      ghost var before := w.fates;
      var _ := w.Write(chunks[i]);
      if GoodSink(takes) { StillWhole(before, w.fates); }
      i := i + 1;
    }
    w.Close();
    out, fates := w.inner, w.fates;
    if GoodSink(takes) { WholeLinesFillTheSink(codec, format, fates); }
    if forall l | l in AllLines(Flatten(chunks)) :: |l| <= 2 * LINE_MAX_BYTES { AnyChunkingOfModestLines(chunks); }
    if forall l | l in AllLines(Flatten(chunks)) :: |l| <= 8192 {
      ShortLinesReachTheSink(codec, Flatten(chunks), format);
    }
  }
}
