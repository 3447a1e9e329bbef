/** One-shot corrective hints (src/agent/hints.rs), against the history of a turn's tool calls. */
module HintRules {
  import opened Options
  import opened Text
  import opened JsonArgs
  import opened Transcript

  /** The text shapes the hints look for. The rules below hold for any; SHAPES is the program's. */
  datatype Shapes = Shapes(isTest: string -> bool, isNoMatch: string -> bool, isAssertion: string -> bool)

  const TEST_COMMANDS: seq<string> := [
    "cargo test", "go test", "just check", "just rust-check", "just test",
    "npm test", "pnpm test", "pytest", "vitest"]

  const SHAPES := Shapes(
    command => exists t | t in TEST_COMMANDS :: Has(command, t),
    text => Has(text, "no match found for old_string"),
    text => (Has(text, "assertion") && Has(text, "failed")) || Has(text, "panicked at"))

  /** One completed call: its output, or its error text. */
  datatype Observation = Observation(tool: string, args: Args, ok: bool, text: string)

  type History = seq<Observation>

  function ArgStr(args: Args, key: string): Option<string> {
    if args.Parsed? && args.value.Obj? then
      match Lookup(args.value.entries, key)
      case Some(Str(s)) => Some(s)
      case _ => None
    else None
  }

  /** The test command a call ran, if it ran one. */
  function TestCommand(sh: Shapes, o: Observation): Option<string> {
    if o.tool != "exec" then None
    else
      match ArgStr(o.args, "command")
      case Some(c) => if sh.isTest(c) then Some(c) else None
      case None => None
  }

  predicate Edits(o: Observation) {
    o.tool in {"file_edit", "file_write"} && o.ok
  }

  /** The file a failed edit could not find its text in. */
  function MissedFile(sh: Shapes, o: Observation): Option<string> {
    if o.tool == "file_edit" && !o.ok && sh.isNoMatch(o.text) then Some(ArgStr(o.args, "path").GetOr("")) else None
  }

  // Questions about the history.

  function LastTest(sh: Shapes, h: History): Option<string> {
    if h == [] then None
    else if TestCommand(sh, h[|h| - 1]).Some? then TestCommand(sh, h[|h| - 1])
    else LastTest(sh, h[..|h| - 1])
  }

  /** Whether a file changed after the last test run; true before any run. */
  predicate EditedSinceTest(sh: Shapes, h: History) {
    h == [] || Edits(h[|h| - 1])
    || (TestCommand(sh, h[|h| - 1]).None? && EditedSinceTest(sh, h[..|h| - 1]))
  }

  function Misses(sh: Shapes, h: History, path: string): nat {
    if h == [] then 0
    else Misses(sh, h[..|h| - 1], path) + (if MissedFile(sh, h[|h| - 1]) == Some(path) then 1 else 0)
  }

  /** The hint a call deserves after `h`, if any. The first shape that matches decides. */
  function Deserved(sh: Shapes, h: History, o: Observation): Option<HintKind> {
    if MissedFile(sh, o).Some? && Misses(sh, h, MissedFile(sh, o).value) >= 1 then Some(StaleEditHint)
    else if TestCommand(sh, o).Some? && LastTest(sh, h) == TestCommand(sh, o) && !EditedSinceTest(sh, h) then Some(RerunHint)
    else if sh.isAssertion(o.text) then Some(AssertHint)
    else None
  }

  /** The kinds that have had their one chance. */
  function Spent(sh: Shapes, h: History): set<HintKind> {
    if h == [] then {}
    else
      Spent(sh, h[..|h| - 1]) + (match Deserved(sh, h[..|h| - 1], h[|h| - 1]) case Some(k) => {k} case None => {})
  }

  /** The hint actually given: each kind at most once per turn. */
  function Given(sh: Shapes, h: History, o: Observation): Option<HintKind> {
    match Deserved(sh, h, o)
    case Some(k) => if k in Spent(sh, h) then None else Some(k)
    case None => None
  }

  lemma SpentGrows(sh: Shapes, h: History, o: Observation)
    ensures Spent(sh, h + [o]) == Spent(sh, h) + (match Given(sh, h, o) case Some(k) => {k} case None => {})
    ensures Given(sh, h, o).Some? ==> Given(sh, h, o).value !in Spent(sh, h)
  {
    assert (h + [o])[..|h|] == h;
  }

  lemma HistoryGrows(sh: Shapes, h: History, o: Observation)
    ensures LastTest(sh, h + [o]) == if TestCommand(sh, o).Some? then TestCommand(sh, o) else LastTest(sh, h)
    ensures EditedSinceTest(sh, h + [o]) <==> Edits(o) || (TestCommand(sh, o).None? && EditedSinceTest(sh, h))
    ensures forall p :: Misses(sh, h + [o], p) == Misses(sh, h, p) + (if MissedFile(sh, o) == Some(p) then 1 else 0)
  {
    assert (h + [o])[..|h|] == h;
  }

  class HintTracker {
    const sh: Shapes
    var fired: set<HintKind>
    var lastTest: Option<string>
    var editedSinceTest: bool
    var noMatch: map<string, nat>
    ghost var history: History

    ghost predicate Valid()
      reads this
    {
      && fired == Spent(sh, history)
      && lastTest == LastTest(sh, history)
      && editedSinceTest == EditedSinceTest(sh, history)
      && forall p :: (if p in noMatch then noMatch[p] else 0) == Misses(sh, history, p)
    }

    constructor (sh: Shapes)
      ensures Valid() && history == [] && this.sh == sh
    {
      this.sh := sh;
      fired, lastTest, editedSinceTest, noMatch, history := {}, None, true, map[], [];
    }

    method Fire(kind: HintKind) returns (hint: Option<HintKind>)
      modifies this`fired
      ensures hint == if kind in old(fired) then None else Some(kind)
      ensures fired == old(fired) + {kind}
    {
      hint := if kind in fired then None else Some(kind);
      fired := fired + {kind};
    }

    function MissesOf(path: string): nat
      reads this
    {
      if path in noMatch then noMatch[path] else 0
    }

    /** A file edit or write: whether the file was missed for the second time. */
    method NoteEdit(o: Observation) returns (stale: bool)
      requires o.tool in {"file_edit", "file_write"}
      modifies this`editedSinceTest, this`noMatch
      ensures editedSinceTest <==> old(editedSinceTest) || Edits(o)
      ensures forall p :: MissesOf(p) == old(MissesOf(p)) + if MissedFile(sh, o) == Some(p) then 1 else 0
      ensures stale <==> MissedFile(sh, o).Some? && old(MissesOf(MissedFile(sh, o).value)) >= 1
    {
      hide ArgStr;
      stale := false;
      if o.ok {
        editedSinceTest := true;
      } else if o.tool == "file_edit" && sh.isNoMatch(o.text) {
        var path := ArgStr(o.args, "path").GetOr("");
        var count: nat := (if path in noMatch then noMatch[path] else 0) + 1;
        noMatch := noMatch[path := count];
        stale := count >= 2;
      }
    }

    /** A shell command: whether it is the last test again, with no edit since. */
    method NoteCommand(o: Observation) returns (rerun: bool)
      requires o.tool == "exec"
      modifies this`lastTest, this`editedSinceTest
      ensures rerun <==> TestCommand(sh, o).Some? && old(lastTest) == TestCommand(sh, o) && !old(editedSinceTest)
      ensures lastTest == if TestCommand(sh, o).Some? then TestCommand(sh, o) else old(lastTest)
      ensures editedSinceTest <==> old(editedSinceTest) && TestCommand(sh, o).None?
    {
      hide ArgStr;
      rerun := false;
      var command := ArgStr(o.args, "command");
      if command.Some? && sh.isTest(command.value) {
        rerun := lastTest == command && !editedSinceTest;
        lastTest := command;
        editedSinceTest := false;
      }
    }

    method Observe(o: Observation) returns (hint: Option<HintKind>)
      requires Valid()
      modifies this
      ensures Valid() && history == old(history) + [o]
      ensures hint == Given(sh, old(history), o)
    {
      HistoryGrows(sh, history, o);
      SpentGrows(sh, history, o);
      ToolsDiffer(sh, o);
      hide LastTest, EditedSinceTest, Misses, Spent, TestCommand, MissedFile, Edits;
      assert forall p :: MissesOf(p) == Misses(sh, history, p);
      history := history + [o];
      if o.tool in {"file_edit", "file_write"} {
        var stale := NoteEdit(o);
        if stale {
          hint := Fire(StaleEditHint);
          return;
        }
      } else if o.tool == "exec" {
        var rerun := NoteCommand(o);
        if rerun {
          hint := Fire(RerunHint);
          return;
        }
      }
      if sh.isAssertion(o.text) {
        hint := Fire(AssertHint);
      } else {
        hint := None;
      }
    }
  }

  lemma ToolsDiffer(sh: Shapes, o: Observation)
    ensures o.tool != "exec" ==> TestCommand(sh, o).None?
    ensures o.tool !in {"file_edit", "file_write"} ==> MissedFile(sh, o).None? && !Edits(o)
    ensures o.tool == "exec" ==> o.tool !in {"file_edit", "file_write"}
  {
  }

  /** A test command is recognised wherever it stands in a command line, and nothing else is. */
  lemma TestCommandAnywhere(command: string)
    ensures SHAPES.isTest(command) <==>
            exists test, before: string, after: string :: test in TEST_COMMANDS && command == before + test + after
  {
    forall test: string ensures Has(command, test) <==> exists a: string, b: string :: command == a + test + b {
      HasIffSplits(command, test);
    }
  }

  /** An assertion is recognised by its two words, in any order and whatever stands around them. */
  lemma AssertionAnywhere(a: string, b: string, c: string)
    ensures SHAPES.isAssertion(a + "assertion" + b + "failed" + c)
    ensures SHAPES.isAssertion(a + "failed" + b + "assertion" + c)
  {
    WordsAnywhere(a, "assertion", b, "failed", c);
    WordsAnywhere(a, "failed", b, "assertion", c);
  }

  /** An assertion's text has both words or the panic's, a missed edit's the tool's own words. */
  lemma WordsDecide(text: string)
    ensures SHAPES.isAssertion(text) <==>
            || ((exists a: string, b: string :: text == a + "assertion" + b) && exists a: string, b: string :: text == a + "failed" + b)
            || exists a: string, b: string :: text == a + "panicked at" + b
    ensures SHAPES.isNoMatch(text) <==> exists a: string, b: string :: text == a + "no match found for old_string" + b
  {
    HasIffSplits(text, "assertion");
    HasIffSplits(text, "failed");
    HasIffSplits(text, "panicked at");
    HasIffSplits(text, "no match found for old_string");
  }

  lemma WordsAnywhere(a: string, x: string, b: string, y: string, c: string)
    requires x != [] && y != []
    ensures Has(a + x + b + y + c, x) && Has(a + x + b + y + c, y)
  {
    var line := a + x + b + y + c;
    assert line == a + (x + b + y + c) && x <= x + b + y + c;
    HasSplit(a, x + b + y + c, x);
    assert line == (a + x + b) + (y + c) && y <= y + c;
    HasSplit(a + x + b, y + c, y);
  }

  // What the hints say of the calls themselves.

  /** The arguments are an object whose entry `key` is the string `s`. */
  predicate HasArg(args: Args, key: string, s: string) {
    args.Parsed? && args.value.Obj? && Entry(key, Str(s)) in args.value.entries
  }

  /** A failed edit of `path` whose text was not there; without a path argument the path is empty. */
  predicate MissesIn(sh: Shapes, o: Observation, path: string) {
    && o.tool == "file_edit" && !o.ok && sh.isNoMatch(o.text)
    && (HasArg(o.args, "path", path) || (path == "" && NoPath(o.args)))
  }

  predicate NoPath(args: Args) {
    args.Raw? || !args.value.Obj? || forall e | e in args.value.entries && e.key == "path" :: !e.value.Str?
  }

  predicate RunsTest(sh: Shapes, o: Observation, command: string) {
    o.tool == "exec" && HasArg(o.args, "command", command) && sh.isTest(command)
  }

  predicate ChangesFile(o: Observation) {
    (o.tool == "file_edit" || o.tool == "file_write") && o.ok
  }

  lemma {:induction false} LookupIsTheEntry(es: seq<Entry>, key: string, v: Json)
    requires DistinctKeys(es)
    ensures Lookup(es, key) == Some(v) <==> Entry(key, v) in es
    ensures Lookup(es, key).None? <==> forall e | e in es :: e.key != key
  {
    if es != [] {
      assert es == [es[0]] + es[1..];
      LookupIsTheEntry(es[1..], key, v);
      if es[0].key == key {
        forall e | e in es[1..] ensures e.key != key {
          var j :| 0 <= j < |es[1..]| && es[1..][j] == e;
          assert es[j + 1] == e;
        }
      }
    }
  }

  lemma ArgStrIsTheArg(args: Args, key: string, s: string)
    requires args.WellFormed()
    ensures ArgStr(args, key) == Some(s) <==> HasArg(args, key, s)
    ensures ArgStr(args, "path").None? <==> NoPath(args)
  {
    if args.Parsed? && args.value.Obj? {
      LookupIsTheEntry(args.value.entries, key, Str(s));
      var found := Lookup(args.value.entries, "path");
      LookupIsTheEntry(args.value.entries, "path", found.GetOr(Null));
      if NoPath(args) && found.Some? { assert Entry("path", found.value) in args.value.entries; }
      if found.Some? && !found.value.Str? {
        forall e | e in args.value.entries && e.key == "path" ensures !e.value.Str? {
          LookupIsTheEntry(args.value.entries, "path", e.value);
        }
      }
    }
  }

  lemma ShapesOfCalls(sh: Shapes, o: Observation, s: string)
    requires o.args.WellFormed()
    ensures MissedFile(sh, o) == Some(s) <==> MissesIn(sh, o, s)
    ensures TestCommand(sh, o) == Some(s) <==> RunsTest(sh, o, s)
    ensures Edits(o) <==> ChangesFile(o)
  {
    ArgStrIsTheArg(o.args, "path", s);
    ArgStrIsTheArg(o.args, "command", s);
    if ArgStr(o.args, "path").Some? {
      ArgStrIsTheArg(o.args, "path", ArgStr(o.args, "path").value);
    }
  }

  ghost predicate AllWellFormed(h: History) {
    forall i | 0 <= i < |h| :: h[i].args.WellFormed()
  }

  /** The file was missed before. */
  predicate MissedBefore(sh: Shapes, h: History, o: Observation) {
    exists i | 0 <= i < |h| :: MissedFile(sh, o).Some? && MissedFile(sh, h[i]) == MissedFile(sh, o)
  }

  /** The call runs the last test run again, and no file was changed in between. */
  predicate RunsLastTestAgain(sh: Shapes, h: History, o: Observation) {
    && TestCommand(sh, o).Some?
    && exists i | 0 <= i < |h| ::
         && TestCommand(sh, h[i]) == TestCommand(sh, o)
         && forall k | i < k < |h| :: TestCommand(sh, h[k]).None? && !Edits(h[k])
  }

  lemma {:induction false} MissesCount(sh: Shapes, h: History, path: string)
    ensures Misses(sh, h, path) >= 1 <==> exists i | 0 <= i < |h| :: MissedFile(sh, h[i]) == Some(path)
  {
    hide MissedFile;
    if h != [] {
      MissesCount(sh, h[..|h| - 1], path);
      assert forall i | 0 <= i < |h| - 1 :: h[..|h| - 1][i] == h[i];
    }
  }

  /** The last test run is `command`, with no change since: it stands in the history, followed by neither. */
  predicate LastRunIs(sh: Shapes, h: History, command: string) {
    exists i | 0 <= i < |h| ::
      && TestCommand(sh, h[i]) == Some(command)
      && forall k | i < k < |h| :: TestCommand(sh, h[k]).None? && !Edits(h[k])
  }

  lemma {:induction false} LastTestIsLast(sh: Shapes, h: History, command: string)
    ensures LastTest(sh, h) == Some(command) && !EditedSinceTest(sh, h) <==> LastRunIs(sh, h, command)
  {
    hide TestCommand, Edits;
    if h != [] {
      var rest, last := h[..|h| - 1], h[|h| - 1];
      LastTestIsLast(sh, rest, command);
      ToolsOfTests(sh, last);
      if LastRunIs(sh, rest, command) && TestCommand(sh, last).None? && !Edits(last) {
        var i :| 0 <= i < |rest| && TestCommand(sh, rest[i]) == Some(command)
                 && forall k | i < k < |rest| :: TestCommand(sh, rest[k]).None? && !Edits(rest[k]);
        assert h[i] == rest[i];
      }
      if LastRunIs(sh, h, command) && TestCommand(sh, last).None? {
        var i :| 0 <= i < |h| && TestCommand(sh, h[i]) == Some(command)
                 && forall k | i < k < |h| :: TestCommand(sh, h[k]).None? && !Edits(h[k]);
        assert rest[i] == h[i];
      }
    }
  }

  lemma ToolsOfTests(sh: Shapes, o: Observation)
    ensures TestCommand(sh, o).Some? ==> !Edits(o)
  {
  }

  /** The call earns that kind of hint: a missed file comes first, then a test run again, then an assertion. */
  predicate Earns(sh: Shapes, h: History, o: Observation, kind: HintKind) {
    match kind
    case StaleEditHint => MissedBefore(sh, h, o)
    case RerunHint => !MissedBefore(sh, h, o) && RunsLastTestAgain(sh, h, o)
    case AssertHint => !MissedBefore(sh, h, o) && !RunsLastTestAgain(sh, h, o) && sh.isAssertion(o.text)
  }

  lemma DeservedIsEarned(sh: Shapes, h: History, o: Observation, kind: HintKind)
    ensures Deserved(sh, h, o) == Some(kind) <==> Earns(sh, h, o, kind)
  {
    if MissedFile(sh, o).Some? { MissesCount(sh, h, MissedFile(sh, o).value); }
    if TestCommand(sh, o).Some? { LastTestIsLast(sh, h, TestCommand(sh, o).value); }
  }

  lemma {:induction false} SpentWasEarned(sh: Shapes, h: History, kind: HintKind)
    ensures kind in Spent(sh, h) <==> exists i | 0 <= i < |h| :: Earns(sh, h[..i], h[i], kind)
  {
    hide Earns;
    if h != [] {
      var rest, n := h[..|h| - 1], |h| - 1;
      SpentWasEarned(sh, rest, kind);
      DeservedIsEarned(sh, rest, h[n], kind);
      hide Deserved;
      assert forall i | 0 <= i < n :: rest[i] == h[i] && rest[..i] == h[..i];
    }
  }

  /** A hint of a kind is given exactly at the turn's first call that earns it. */
  lemma GivenAtTheFirst(sh: Shapes, h: History, o: Observation, kind: HintKind)
    ensures Given(sh, h, o) == Some(kind) <==>
            Earns(sh, h, o, kind) && forall i | 0 <= i < |h| :: !Earns(sh, h[..i], h[i], kind)
  {
    DeservedIsEarned(sh, h, o, kind);
    SpentWasEarned(sh, h, kind);
  }
}
