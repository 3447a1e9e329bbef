/** Whole turns against their script (src/agent/mod.rs, turn_loop, final_answer, state_report): what was said,
    what the provider was shown, which rounds ran, and why the turn ended. */
module TurnEnds {
  import opened Options
  import opened JsonArgs
  import opened Transcript
  import opened HintRules
  import opened Turn
  import opened TurnLaws
  import opened TurnBounds
  import opened TurnScript
  import opened TurnFollows

  // The books, one iteration on.

  lemma PolicyBooks(env: Env, st: State, results: seq<ToolResult>)
    ensures var r := Policy(env, st, results);
            && r.st.rounds == st.rounds && r.st.executed == st.executed && r.st.failures == st.failures
            && r.st.history == st.history && r.st.nudged == st.nudged
            && r.st.blocked == st.blocked + if Rules(results) == {} then [] else [Rules(results)]
  {
  }

  lemma ConcludeBooks(env: Env, st: State, hints: seq<HintKind>, halt: Option<Outcome>, results: seq<ToolResult>)
    ensures var r := Conclude(env, st, hints, halt, results);
            && r.st.rounds == st.rounds && r.st.executed == st.executed && r.st.failures == st.failures
            && r.st.history == st.history && r.st.nudged == st.nudged
            && (r.Going? ==> r.st.blocked == st.blocked + if Rules(results) == {} then [] else [Rules(results)])
  {
    hide Policy;
    PolicyBooks(env, Hinted(env, st, hints).st, results);
  }

  lemma ExecuteBooks(env: Env, i: nat, st: State)
    requires Ran(env, i) && st.rounds == Prints(env, i + 1) && st.executed == Runs(env, i + 1)
    requires st.failures == Signatures(env, i) && st.history == SeenBefore(env, i) && st.blocked == WallRules(env, i)
    ensures var r := Execute(env, st, i, CallsOf(env, i));
            && r.st.rounds == Prints(env, i + 1) && r.st.executed == Runs(env, i + 1) && r.st.nudged == st.nudged
            && (r.Going? ==> r.st.failures == Signatures(env, i + 1) && r.st.history == SeenBefore(env, i + 1)
                             && r.st.blocked == WallRules(env, i + 1))
  {
    var calls, n := CallsOf(env, i), |CallsOf(env, i)|;
    var results := ResultsOf(env, i);
    RecordedFrame(env, st, calls, results, n);
    HistoryIs(env, i, n);
    RulesAre(env, i);
    hide Recorded, RoundHints, RoundHalt, Conclude, Prints, Runs, FailuresAfter, HistoryAfter, RulesOf, Rules;
    ConcludeBooks(env, Recorded(env, st, calls, results, n), RoundHints(env.shapes, st.history, calls, results, n),
                  RoundHalt(st.failures, calls, results, n), results);
  }

  lemma ToolRoundBooks(env: Env, i: nat, st: State)
    requires ParsedCalls(env) && IsRound(env, i) && Booked(env, i, st)
    ensures var r := ToolRound(env, st, i, CallsOf(env, i));
            && r.st.rounds == Prints(env, i + 1) && r.st.executed == Runs(env, i + 1)
            && (r.Going? ==> Booked(env, i + 1, r.st))
  {
    var calls := CallsOf(env, i);
    var rounds := st.rounds + [FingerprintOf(calls)];
    var next := st.(rounds := rounds, executed := st.executed + [!Repeated(rounds, REPEAT_LIMIT)]);
    assert rounds == Prints(env, i + 1);
    RepeatedIsAgain(env, i, 3);
    assert next.executed == Runs(env, i + 1);
    hide Prints, Runs, Again, Repeated, FingerprintOf, Execute, Refuse, Signatures, SeenBefore, WallRules;
    if Refused(env, i) {
      RefuseFrame(env, next, calls, |calls|);
      RefusedBooks(env, i);
    } else {
      ExecuteBooks(env, i, next);
    }
  }

  /** A refused round leaves failures, observations and walls as they were. */
  lemma RefusedBooks(env: Env, i: nat)
    requires Refused(env, i)
    ensures Signatures(env, i + 1) == Signatures(env, i) && SeenBefore(env, i + 1) == SeenBefore(env, i)
    ensures WallRules(env, i + 1) == WallRules(env, i)
  {
  }

  lemma CallsBooks(env: Env, i: nat, st: State, text: string)
    requires ParsedCalls(env) && IsRound(env, i) && Booked(env, i, st)
    ensures var r := CallsRound(env, st, i, text, CallsOf(env, i));
            && RoundsKnown(env, i, r)
            && (r.Going? ==> Booked(env, i + 1, r.st))
  {
    var said := Insist(env, st, ToolCalls(text, CallsOf(env, i)));
    InsistFrame(env, st, ToolCalls(text, CallsOf(env, i)));
    hide ToolRound, Prints, Runs, Signatures, SeenBefore, WallRules;
    if said.Going? { ToolRoundBooks(env, i, said.st); }
  }

  /** Iteration `i` left the rounds as they were or added its own; it may leave its own out only if it was
      broken off. */
  ghost predicate RoundsKnown(env: Env, i: nat, r: Step) {
    || (r.st.rounds == Prints(env, i + 1) && r.st.executed == Runs(env, i + 1))
    || (r.st.rounds == Prints(env, i) && r.st.executed == Runs(env, i)
        && r.Done? && (r.outcome.Cancelled? || r.outcome.EngineError?))
  }

  /** An iteration without a tool round adds nothing to the books but, perhaps, a text. */
  lemma QuietBooks(env: Env, i: nat, st: State, t: State)
    requires !IsRound(env, i) && Booked(env, i, st)
    requires t.rounds == st.rounds && t.executed == st.executed && t.failures == st.failures
    requires t.history == st.history && t.blocked == st.blocked && t.nudged == (st.nudged || IsText(env, i))
    ensures Booked(env, i + 1, t)
  {
    assert !Ran(env, i);
  }

  lemma NoRoundYet(env: Env, i: nat)
    requires !IsRound(env, i)
    ensures Prints(env, i + 1) == Prints(env, i) && Runs(env, i + 1) == Runs(env, i)
  {
  }

  lemma TextBooks(env: Env, cfg: Config, i: nat, st: State, text: string)
    requires env.chat(i).ChatAnswered? && env.chat(i).response == TextReply(text) && Booked(env, i, st)
    ensures var r := TextRound(env, cfg, st, i, text);
            RoundsKnown(env, i, r) && (r.Going? ==> Booked(env, i + 1, r.st))
  {
    var m, ask := Assistant(Plain(text)), System(Fixed(ConfirmReply));
    var said := Insist(env, st, m);
    InsistFrame(env, st, m);
    InsistFrame(env, said.st.(nudged := true), ask);
    NoRoundYet(env, i);
    hide Insist, Prints, Runs, Booked;
    var r := TextRound(env, cfg, st, i, text);
    if r.Going? { QuietBooks(env, i, st, r.st); }
    assert r.st.rounds == st.rounds && r.st.executed == st.executed;
    BookedRounds(env, i, st);
  }

  lemma BookedRounds(env: Env, i: nat, st: State)
    requires Booked(env, i, st)
    ensures st.rounds == Prints(env, i) && st.executed == Runs(env, i)
  {
  }

  lemma ReactBooks(env: Env, cfg: Config, i: nat, st: State)
    requires ParsedCalls(env) && Booked(env, i, st)
    ensures var r := React(env, cfg, st, i, env.chat(i));
            RoundsKnown(env, i, r) && (r.Going? ==> Booked(env, i + 1, r.st))
  {
    hide TextRound, CallsRound, Booked, Prints, Runs;
    match env.chat(i) {
      case ChatAnswered(_, _, TextReply(text)) => TextBooks(env, cfg, i, st, text);
      case ChatAnswered(_, _, CallsReply(text, calls)) => CallsBooks(env, i, st, text);
      case _ =>
        NoRoundYet(env, i);
        BookedRounds(env, i, st);
    }
  }

  lemma IterateBooks(env: Env, cfg: Config, i: nat, st: State)
    requires ParsedCalls(env) && Booked(env, i, st)
    ensures var r := Iterate(env, cfg, st, i);
            RoundsKnown(env, i, r) && (r.Going? ==> Booked(env, i + 1, r.st))
  {
    var start := st.(iterations := i + 1);
    var ready := Prepare(env, cfg, start, i);
    BookedRounds(env, i, st);
    assert SameBooked(st, start);
    BookedMoves(env, i, st, start);
    PrepareBooks(env, cfg, start, i);
    PrepareEnds(env, cfg, start, i);
    BookedMoves(env, i, start, ready.st);
    var asked := Asked(ready.st, env.chat(i));
    AskedBooks(ready.st, env.chat(i));
    BookedMoves(env, i, ready.st, asked);
    hide Prepare, React, Booked, Prints, Runs;
    if !env.cancelled(i) && ready.Going? && !env.assembleFails(i) { ReactBooks(env, cfg, i, asked); }
  }

  lemma PrepareBooks(env: Env, cfg: Config, st: State, i: nat)
    ensures SameBooked(st, Prepare(env, cfg, st, i).st)
  {
    hide Closed;
  }

  // What the provider is shown.

  /** The transcript iteration `i` finds: what was kept, and what the engine took since. */
  ghost function Live(env: Env, cfg: Config, history: seq<Message>, user: string, i: nat): seq<Message>
    decreases i, 0
  {
    if i == 0 then history + Taken(env, Script(env, cfg, user, 0), 0)
    else Kept(env, cfg, history, user, i - 1) + Taken(env, Block(env, cfg, i - 1), |Script(env, cfg, user, i - 1)|)
  }

  /** The same once a compaction had its way. */
  ghost function Kept(env: Env, cfg: Config, history: seq<Message>, user: string, i: nat): seq<Message>
    decreases i, 1
  {
    if env.compaction(i).Compacted? then env.compaction(i).messages else Live(env, cfg, history, user, i)
  }

  /** What the provider is shown in iteration `i`: the reminder, when it is due, comes last. */
  ghost function Shown(env: Env, cfg: Config, history: seq<Message>, user: string, i: nat): seq<Message> {
    Kept(env, cfg, history, user, i) + Taken(env, Reminder(cfg, i), |Script(env, cfg, user, i)|)
  }

  ghost predicate Showed(env: Env, cfg: Config, history: seq<Message>, user: string, asks: seq<Ask>) {
    forall k | 0 <= k < |asks| :: asks[k].messages == Shown(env, cfg, history, user, k)
  }

  /** Iteration `i` shows the provider its transcript once, unless it is broken off before. */
  lemma IterateAsks(env: Env, cfg: Config, i: nat, st: State)
    requires st.pushes == |st.offered|
    ensures var r, open := Iterate(env, cfg, st, i), Compact(st, env.compaction(i)).messages;
            || (r.st.asks == st.asks && r.Done? && (r.outcome.Cancelled? || r.outcome.EngineError?))
            || (&& |r.st.asks| == |st.asks| + 1 && r.st.asks[..|st.asks|] == st.asks
                && r.st.asks[|st.asks|].messages == open + Taken(env, Reminder(cfg, i), |st.offered|))
  {
    var start := st.(iterations := i + 1);
    var ready := Prepare(env, cfg, start, i);
    PrepareFrame(env, cfg, st, i);
    PrepareEnds(env, cfg, start, i);
    if !env.compaction(i).CompactionFailed? {
      PrepareFollows(env, cfg, start, i);
      if ready.Going? { GoingTold(env, Compact(start, env.compaction(i)), ready, Reminder(cfg, i)); }
    }
    var asked := Asked(ready.st, env.chat(i));
    ReactFrame(env, cfg, asked, i, env.chat(i));
    hide Prepare, React, Follows;
    assert Iterate(env, cfg, st, i) ==
           if env.cancelled(i) then Done(Cancelled, st)
           else if ready.Done? then ready
           else if env.assembleFails(i) then Done(EngineError, ready.st)
           else React(env, cfg, asked, i, env.chat(i));
  }

  // Runs of iterations.

  /** Nothing ended the turn before iteration `i`. */
  ghost predicate GoesOn(env: Env, cfg: Config, i: nat) {
    forall k | 0 <= k < i :: Verdict(env, cfg, k).None? && Smooth(env, k)
  }

  /** What was said and taken before iteration `i`. */
  ghost predicate Speaks(env: Env, cfg: Config, history: seq<Message>, user: string, i: nat, s: State) {
    && s.pushes == |s.offered| && s.offered == Script(env, cfg, user, i) && AllTaken(env, s.offered)
    && s.messages == Live(env, cfg, history, user, i) && s.added == Taken(env, s.offered, 0)
  }

  /** The state between iterations, told by the script alone. */
  ghost predicate OnScript(env: Env, cfg: Config, history: seq<Message>, user: string, i: nat, s: State) {
    && Booked(env, i, s) && GoesOn(env, cfg, i) && Speaks(env, cfg, history, user, i, s)
    && |s.asks| == i && Showed(env, cfg, history, user, s.asks)
  }

  /** The turn ended in iteration `n` with outcome `o`: with its whole block said and as the script has it, or
      part way through it because of a cancellation or the engine. */
  ghost predicate EndedIn(env: Env, cfg: Config, history: seq<Message>, user: string, n: nat, o: Outcome, s: State) {
    && GoesOn(env, cfg, n) && EndsSaying(env, cfg, history, user, n, o, s)
    && n <= |s.asks| <= n + 1 && Showed(env, cfg, history, user, s.asks)
    && RoundsKnown(env, n, Done(o, s))
  }

  ghost predicate EndsSaying(env: Env, cfg: Config, history: seq<Message>, user: string, n: nat, o: Outcome, s: State) {
    && SaysPart(env, Script(env, cfg, user, n), Block(env, cfg, n),
                if env.cancelled(n) || env.compaction(n).CompactionFailed? then Live(env, cfg, history, user, n)
                else Kept(env, cfg, history, user, n), s)
    && EndsFor(env, cfg, user, n, o, s)
  }

  /** After `before`, a part of `block` was said, and the transcript is `kept` and what the engine took of it. */
  predicate SaysPart(env: Env, before: seq<Message>, block: seq<Message>, kept: seq<Message>, s: State) {
    && before <= s.offered <= before + block
    && s.messages == kept + Taken(env, s.offered[|before|..], |before|)
    && s.added == Taken(env, s.offered, 0)
  }

  /** What iteration `n` ended for: a cancellation, the engine, or the script, to its last word. */
  ghost predicate EndsFor(env: Env, cfg: Config, user: string, n: nat, o: Outcome, s: State) {
    if o.Cancelled? then CancelledIn(env, n)
    else if o.EngineError? then EngineFailed(env, n, s.offered)
    else Verdict(env, cfg, n) == Some(o) && Smooth(env, n) && s.offered == Script(env, cfg, user, n + 1) && AllTaken(env, s.offered)
  }

  lemma IterateGoesOn(env: Env, cfg: Config, history: seq<Message>, user: string, i: nat, st: State)
    requires ParsedCalls(env) && OnScript(env, cfg, history, user, i, st) && Iterate(env, cfg, st, i).Going?
    ensures OnScript(env, cfg, history, user, i + 1, Iterate(env, cfg, st, i).st)
  {
    var r := Iterate(env, cfg, st, i);
    IterateBooks(env, cfg, i, st);
    IterateSpeaks(env, cfg, history, user, i, st);
    AsksGoOn(env, cfg, history, user, i, st);
    hide Iterate, Booked, Speaks, Showed, GoesOn, ParsedCalls;
    OneMoreGoesOn(env, cfg, i);
  }

  lemma OneMoreGoesOn(env: Env, cfg: Config, i: nat)
    ensures GoesOn(env, cfg, i) && Verdict(env, cfg, i).None? && Smooth(env, i) ==> GoesOn(env, cfg, i + 1)
  {
    hide Verdict, Smooth;
  }

  lemma OneMoreShowed(env: Env, cfg: Config, history: seq<Message>, user: string, asks: seq<Ask>, more: seq<Ask>)
    requires Showed(env, cfg, history, user, asks) && |more| == |asks| + 1 && more[..|asks|] == asks
    requires more[|asks|].messages == Shown(env, cfg, history, user, |asks|)
    ensures Showed(env, cfg, history, user, more)
  {
    hide Shown;
    forall k | 0 <= k < |more| ensures more[k].messages == Shown(env, cfg, history, user, k) {
      if k < |asks| { assert more[k] == asks[k]; }
    }
  }

  lemma IterateSpeaks(env: Env, cfg: Config, history: seq<Message>, user: string, i: nat, st: State)
    requires ParsedCalls(env) && Booked(env, i, st) && Speaks(env, cfg, history, user, i, st)
    requires Iterate(env, cfg, st, i).Going?
    ensures Speaks(env, cfg, history, user, i + 1, Iterate(env, cfg, st, i).st)
    ensures Verdict(env, cfg, i).None? && Smooth(env, i)
  {
    var r, open := Iterate(env, cfg, st, i), Compact(st, env.compaction(i));
    GoingIsSmooth(env, cfg, i, st);
    IterateFollows(env, cfg, i, st);
    CompactKeeps(env, cfg, history, user, i, st);
    hide Iterate, Booked, Block, Verdict, Compact, Kept;
    assert Told(env, open, r.st, Block(env, cfg, i)) && NewTaken(env, open, r.st);
    hide Follows;
    MoreTaken(env, st, r.st, Block(env, cfg, i));
  }

  lemma AsksGoOn(env: Env, cfg: Config, history: seq<Message>, user: string, i: nat, st: State)
    requires Speaks(env, cfg, history, user, i, st) && |st.asks| == i && Showed(env, cfg, history, user, st.asks)
    ensures var r := Iterate(env, cfg, st, i);
            && i <= |r.st.asks| <= i + 1 && Showed(env, cfg, history, user, r.st.asks)
            && (|r.st.asks| == i ==> r.Done? && (r.outcome.Cancelled? || r.outcome.EngineError?))
  {
    var r := Iterate(env, cfg, st, i);
    IterateAsks(env, cfg, i, st);
    CompactKeeps(env, cfg, history, user, i, st);
    hide Iterate, Compact, Kept, Live, Showed, Script;
    if |r.st.asks| == i + 1 { OneMoreShowed(env, cfg, history, user, st.asks, r.st.asks); }
  }

  lemma GoingIsSmooth(env: Env, cfg: Config, i: nat, st: State)
    requires Iterate(env, cfg, st, i).Going?
    ensures !env.cancelled(i) && !env.compaction(i).CompactionFailed?
  {
  }

  lemma CompactKeeps(env: Env, cfg: Config, history: seq<Message>, user: string, i: nat, st: State)
    requires st.messages == Live(env, cfg, history, user, i)
    ensures var open := Compact(st, env.compaction(i));
            && open.messages == Kept(env, cfg, history, user, i)
            && open.pushes == st.pushes && open.offered == st.offered && open.added == st.added && open.asks == st.asks
  {
    hide Live, Closed;
  }

  lemma MoreTaken(env: Env, s: State, t: State, said: seq<Message>)
    requires AllTaken(env, s.offered) && t.offered == s.offered + said
    requires forall k | |s.offered| <= k < |t.offered| && Insisted(t.offered[k]) :: env.pushOk(k)
    requires s.added == Taken(env, s.offered, 0) && t.added == s.added + Taken(env, said, |s.offered|)
    ensures AllTaken(env, t.offered) && t.added == Taken(env, t.offered, 0)
  {
    TakenOfConcat(env, s.offered, said, 0);
    StillAllTaken(env, s.offered, t.offered, |s.offered|);
  }

  lemma IterateEnds(env: Env, cfg: Config, history: seq<Message>, user: string, i: nat, st: State)
    requires ParsedCalls(env) && OnScript(env, cfg, history, user, i, st) && Iterate(env, cfg, st, i).Done?
    ensures var r := Iterate(env, cfg, st, i); EndedIn(env, cfg, history, user, i, r.outcome, r.st)
  {
    IterateBooks(env, cfg, i, st);
    AsksGoOn(env, cfg, history, user, i, st);
    if env.cancelled(i) || env.compaction(i).CompactionFailed? {
      EndsAtOnce(env, cfg, history, user, i, st);
    } else {
      EndsInItsBlock(env, cfg, history, user, i, st);
    }
    hide Iterate, Booked, Speaks, Showed, GoesOn, ParsedCalls, EndsSaying, RoundsKnown;
  }

  lemma EndsAtOnce(env: Env, cfg: Config, history: seq<Message>, user: string, i: nat, st: State)
    requires Speaks(env, cfg, history, user, i, st) && (env.cancelled(i) || env.compaction(i).CompactionFailed?)
    ensures var r := Iterate(env, cfg, st, i); r.Done? && EndsSaying(env, cfg, history, user, i, r.outcome, r.st)
  {
    var r := Iterate(env, cfg, st, i);
    assert r.Done? && r.st.offered == st.offered && r.st.messages == st.messages && r.st.added == st.added;
    assert r.outcome == if env.cancelled(i) then Cancelled else EngineError;
    hide Iterate, Block, Live, Kept, Script, SaysPart, AllTaken, Told;
    assert r.st.pushes == st.pushes by { SamePushes(env, cfg, st, i); }
    ToldNothing(env, st, r.st);
    PartSaid(env, st, st, r.st, [], Block(env, cfg, i));
  }

  lemma SamePushes(env: Env, cfg: Config, st: State, i: nat)
    requires env.cancelled(i) || env.compaction(i).CompactionFailed?
    ensures Iterate(env, cfg, st, i).st.pushes == st.pushes
  {
  }

  /** From a start that offered what `st` did, a part of `block` was told. */
  lemma PartSaid(env: Env, st: State, open: State, t: State, said: seq<Message>, block: seq<Message>)
    requires Told(env, open, t, said) && said <= block
    requires open.offered == st.offered && open.added == st.added && st.added == Taken(env, st.offered, 0)
    ensures SaysPart(env, st.offered, block, open.messages, t)
  {
    TakenOfConcat(env, st.offered, said, 0);
    Prefixes(st.offered, said, block);
    hide Taken;
  }

  lemma EndsInItsBlock(env: Env, cfg: Config, history: seq<Message>, user: string, i: nat, st: State)
    requires ParsedCalls(env) && Booked(env, i, st) && Speaks(env, cfg, history, user, i, st)
    requires !env.cancelled(i) && !env.compaction(i).CompactionFailed? && Iterate(env, cfg, st, i).Done?
    ensures var r := Iterate(env, cfg, st, i); EndsSaying(env, cfg, history, user, i, r.outcome, r.st)
  {
    var r, open := Iterate(env, cfg, st, i), Compact(st, env.compaction(i));
    IterateFollows(env, cfg, i, st);
    CompactKeeps(env, cfg, history, user, i, st);
    EndOf(env, open, r, Block(env, cfg, i), Verdict(env, cfg, i), CutIn(env, i), env.assembleFails(i));
    hide Iterate, Booked, Block, Verdict, Compact, Kept, Live, Follows, ParsedCalls, New, Script, SaysPart, EndsFor;
    PartSaid(env, st, open, r.st, New(open, r.st), Block(env, cfg, i));
    EndsForCause(env, cfg, user, i, st, open, r);
  }

  lemma EndsForCause(env: Env, cfg: Config, user: string, i: nat, st: State, open: State, r: Step)
    requires r.Done? && Follows(env, open, r, Block(env, cfg, i), Verdict(env, cfg, i), CutIn(env, i), env.assembleFails(i))
    requires !env.cancelled(i) && !env.compaction(i).CompactionFailed?
    requires st.offered == Script(env, cfg, user, i) && AllTaken(env, st.offered) && open.offered == st.offered
    ensures EndsFor(env, cfg, user, i, r.outcome, r.st)
  {
    EndOf(env, open, r, Block(env, cfg, i), Verdict(env, cfg, i), CutIn(env, i), env.assembleFails(i));
    assert Script(env, cfg, user, i + 1) == Script(env, cfg, user, i) + Block(env, cfg, i);
    hide Block, Verdict, Follows, New, Script, Taken, Ran;
    if !r.outcome.Cancelled? && !r.outcome.EngineError? {
      AllTakenSoFar(env, open, r);
      assert r.st.offered == st.offered + Block(env, cfg, i);
      StillAllTaken(env, st.offered, r.st.offered, |st.offered|);
    }
  }

  lemma StillAllTaken(env: Env, a: seq<Message>, b: seq<Message>, n: nat)
    requires AllTaken(env, a) && a <= b && n == |a|
    requires forall k | n <= k < |b| && Insisted(b[k]) :: env.pushOk(k)
    ensures AllTaken(env, b)
  {
    forall k | 0 <= k < |b| && Insisted(b[k]) ensures env.pushOk(k) {
      if k < n { assert b[k] == a[k]; }
    }
  }

  /** What following the script says of a step that ends the turn. */
  lemma EndOf(env: Env, st: State, r: Step, rest: seq<Message>, verdict: Option<Outcome>, cancel: bool, broke: bool)
    requires r.Done? && Follows(env, st, r, rest, verdict, cancel, broke)
    ensures Told(env, st, r.st, New(st, r.st)) && New(st, r.st) <= rest
    ensures r.outcome.Cancelled? ==> cancel
    ensures r.outcome.EngineError? ==> broke || LastPushFailed(env, r.st.offered)
    ensures !r.outcome.Cancelled? && !r.outcome.EngineError? ==>
              New(st, r.st) == rest && verdict == Some(r.outcome) && NewTaken(env, st, r.st) && !cancel && !broke
  {
  }

  lemma AllTakenSoFar(env: Env, st: State, r: Step)
    requires NewTaken(env, st, r.st)
    ensures forall k | |st.offered| <= k < |r.st.offered| && Insisted(r.st.offered[k]) :: env.pushOk(k)
  {
  }

  lemma Prefixes(a: seq<Message>, said: seq<Message>, block: seq<Message>)
    requires said <= block
    ensures a <= a + said <= a + block && (a + said)[|a|..] == said
  {
  }

  /** The turn ended before its first iteration. */
  predicate NotBegun(env: Env, history: seq<Message>, user: string, o: Outcome, s: State) {
    && s.rounds == [] && s.executed == [] && s.asks == [] && s.messages == history
    && if env.cancelledAtStart then o == Cancelled && s.offered == []
       else !env.pushOk(0) && o == EngineError && s.offered == [User(Plain(user))]
  }

  lemma BeginOnScript(env: Env, cfg: Config, history: seq<Message>, user: string)
    ensures var r := Begin(env, Initial(history), user);
            if r.Going? then OnScript(env, cfg, history, user, 0, r.st) && !env.cancelledAtStart && env.pushOk(0)
            else NotBegun(env, history, user, r.outcome, r.st)
  {
    hide Closed, OnScript;
    if !env.cancelledAtStart && env.pushOk(0) { BegunOnScript(env, cfg, history, user); }
  }

  lemma BegunOnScript(env: Env, cfg: Config, history: seq<Message>, user: string)
    requires env.pushOk(0)
    ensures OnScript(env, cfg, history, user, 0, Push(env, Initial(history), User(Plain(user))))
  {
    var start, m := Initial(history), User(Plain(user));
    PushTold(env, start, m);
    FirstWords(env, cfg, user);
    NothingBooked(env);
    hide Script, Taken, Prints, Runs, SeenBefore, Signatures, WallRules, Closed;
    assert Booked(env, 0, start);
    assert [] + [m] == [m];
  }

  lemma FirstWords(env: Env, cfg: Config, user: string)
    ensures Script(env, cfg, user, 0) == [User(Plain(user))] && [] + Taken(env, Script(env, cfg, user, 0), 0) == Taken(env, Script(env, cfg, user, 0), 0)
  {
  }

  lemma NothingBooked(env: Env)
    ensures Prints(env, 0) == [] && Runs(env, 0) == [] && Signatures(env, 0) == [] && SeenBefore(env, 0) == [] && WallRules(env, 0) == []
  {
  }

  /** After `i` iterations the turn is on its script, or it ended in iteration `n`, or it never began. */
  lemma {:induction false} AfterFollows(env: Env, cfg: Config, history: seq<Message>, user: string, i: nat) returns (n: nat)
    requires ParsedCalls(env)
    ensures var r := After(env, cfg, Initial(history), user, i);
            match r
            case Going(s) => OnScript(env, cfg, history, user, i, s) && !env.cancelledAtStart && env.pushOk(0)
            case Done(o, s) =>
              || NotBegun(env, history, user, o, s)
              || (n < i && EndedIn(env, cfg, history, user, n, o, s) && !env.cancelledAtStart && env.pushOk(0))
  {
    hide Iterate, Begin, OnScript, EndedIn, NotBegun, ParsedCalls;
    n := 0;
    if i == 0 {
      BeginOnScript(env, cfg, history, user);
    } else {
      n := AfterFollows(env, cfg, history, user, i - 1);
      var s := After(env, cfg, Initial(history), user, i - 1);
      if s.Going? {
        n := i - 1;
        var r := Iterate(env, cfg, s.st, i - 1);
        if r.Going? { IterateGoesOn(env, cfg, history, user, i - 1, s.st); } else { IterateEnds(env, cfg, history, user, i - 1, s.st); }
      }
    }
  }
}
