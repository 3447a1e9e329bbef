/** What every turn keeps, whatever the provider, the tools, the engine and the user do. */
module TurnLaws {
  import opened Options
  import opened JsonArgs
  import opened Transcript
  import opened Billing
  import opened HintRules
  import opened Turn

  // What recording and refusing leave alone.

  predicate SameBooks(s: State, t: State) {
    && t.asks == s.asks && t.draws == s.draws && t.rounds == s.rounds && t.executed == s.executed
    && t.blocked == s.blocked && t.iterations == s.iterations
    && t.nudged == s.nudged && t.checkpointed == s.checkpointed && t.squeezed == s.squeezed
  }

  /** Recording one result delivers one message for its call and touches nothing else but the
      observation and failure histories. */
  lemma RecordOneEffect(env: Env, s: State, call: ToolCall, result: ToolResult) returns (said: Content)
    ensures var t := RecordOne(env, s, call, result);
            && SameBooks(s, t)
            && t.messages == Push(env, s, Tool(call.id, said)).messages
            && t.added == Push(env, s, Tool(call.id, said)).added
            && t.gap == (s.gap || !env.pushOk(s.pushes))
  {
    said := Said(Noted(s, call, result), call, result);
  }

  lemma {:induction false} RecordedFrame(env: Env, st: State, calls: seq<ToolCall>, results: seq<ToolResult>, k: nat)
    requires k <= |calls| == |results|
    ensures var t := Recorded(env, st, calls, results, k);
            && SameBooks(st, t)
            && t.failures == FailuresAfter(st.failures, calls, results, k)
            && t.history == HistoryAfter(st.history, calls, results, k)
  {
    if k > 0 {
      RecordedFrame(env, st, calls, results, k - 1);
      RecordOneFrame(env, Recorded(env, st, calls, results, k - 1), calls[k - 1], results[k - 1]);
      hide RecordOne, SignatureOf, Observed;
    }
  }

  lemma RecordOneFrame(env: Env, s: State, call: ToolCall, result: ToolResult)
    ensures var t := RecordOne(env, s, call, result);
            && SameBooks(s, t)
            && t.failures == (if Strikes(result) then s.failures + [SignatureOf(call, result.error)] else s.failures)
            && t.history == s.history + [Observed(call, result)]
  {
    hide SignatureOf, Observed, Said;
  }

  lemma {:induction false} RefuseFrame(env: Env, st: State, calls: seq<ToolCall>, k: nat)
    requires k <= |calls|
    ensures var r := Refuse(env, st, calls, k);
            && SameBooks(st, r.st) && r.st.history == st.history && r.st.failures == st.failures
            && r.st.gap == st.gap && (r.Done? ==> r.outcome == EngineError)
  {
    if k > 0 { RefuseFrame(env, st, calls, k - 1); }
  }

  // Closure: what the provider is shown.

  /** Between rounds: the transcript is closed exactly while no result has gone missing. */
  predicate Tidy(st: State) {
    st.gap <==> Standing(st.messages) != Awaiting([])
  }

  ghost predicate AsksTidy(st: State) {
    forall a | a in st.asks :: Closed(a.messages) <==> !a.gap
  }

  lemma PushStanding(env: Env, st: State, m: Message)
    ensures Standing(Push(env, st, m).messages) ==
            if env.pushOk(st.pushes) then Next(Standing(st.messages), m) else Standing(st.messages)
  {
    ScanOne(st.messages, m);
  }

  /** Within a round, after `k` of its calls were dealt with. */
  predicate MidRound(st: State, calls: seq<ToolCall>, k: nat)
    requires k <= |calls|
  {
    if st.gap then Standing(st.messages).Broken? || |Standing(st.messages).ids| > |calls| - k
    else Standing(st.messages) == Awaiting(Ids(calls)[k..])
  }

  lemma {:induction false} RecordedStanding(env: Env, st: State, calls: seq<ToolCall>, results: seq<ToolResult>, k: nat)
    requires k <= |calls| == |results| && MidRound(st, calls, 0)
    ensures MidRound(Recorded(env, st, calls, results, k), calls, k)
  {
    if k > 0 {
      RecordedStanding(env, st, calls, results, k - 1);
      var s, call := Recorded(env, st, calls, results, k - 1), calls[k - 1];
      var said := RecordOneEffect(env, s, call, results[k - 1]);
      PushStanding(env, s, Tool(call.id, said));
      assert Ids(calls)[k - 1..][1..] == Ids(calls)[k..];
    }
  }

  lemma {:induction false} RefuseStanding(env: Env, st: State, calls: seq<ToolCall>, k: nat)
    requires k <= |calls| && MidRound(st, calls, 0) && (st.gap ==> Standing(st.messages).Broken?)
    ensures var r := Refuse(env, st, calls, k);
            && r.st.gap == st.gap
            && (st.gap ==> Standing(r.st.messages).Broken?)
            && (if r.Going? then MidRound(r.st, calls, k) else st.gap || Standing(r.st.messages).Awaiting?)
  {
    if k > 0 {
      RefuseStanding(env, st, calls, k - 1);
      var r := Refuse(env, st, calls, k - 1);
      if r.Going? {
        PushStanding(env, r.st, Tool(calls[k - 1].id, RepeatRefusal));
        assert Ids(calls)[k - 1..][1..] == Ids(calls)[k..];
      }
    }
  }

  /** A message that asks for nothing keeps a tidy transcript tidy. */
  lemma InsistTidy(env: Env, st: State, m: Message)
    requires Tidy(st) && !m.Tool? && !m.ToolCalls?
    ensures Tidy(Insist(env, st, m).st) && Insist(env, st, m).st.asks == st.asks && Insist(env, st, m).st.gap == st.gap
  {
    PushStanding(env, st, m);
  }

  /** How a step may leave the transcript. */
  ghost predicate Sound(step: Step) {
    && AsksTidy(step.st)
    && match step
       case Going(s) => Tidy(s)
       case Done(o, s) =>
         if o.Cancelled? || o.EngineError? then
           (s.gap ==> Standing(s.messages) != Awaiting([])) && (!s.gap ==> Standing(s.messages).Awaiting?)
         else Tidy(s)
  }

  lemma PolicySound(env: Env, st: State, results: seq<ToolResult>)
    requires Tidy(st) && AsksTidy(st)
    ensures Sound(Policy(env, st, results))
  {
    InsistTidy(env, st.(blocked := st.blocked + [Rules(results)]), System(Fixed(PolicyStop)));
  }

  lemma ConcludeSound(env: Env, st: State, hints: seq<HintKind>, halt: Option<Outcome>, results: seq<ToolResult>)
    requires Tidy(st) && AsksTidy(st) && (halt.Some? ==> halt.value.ToolHalt?)
    ensures Sound(Conclude(env, st, hints, halt, results))
  {
    InsistTidy(env, st, System(Hints(hints)));
    PolicySound(env, Hinted(env, st, hints).st, results);
  }

  lemma ExecuteSound(env: Env, st: State, i: nat, calls: seq<ToolCall>)
    requires MidRound(st, calls, 0) && AsksTidy(st)
    ensures Sound(Execute(env, st, i, calls))
  {
    var n := |calls|;
    var results := Results(env, i, n);
    RecordedStanding(env, st, calls, results, n);
    RecordedFrame(env, st, calls, results, n);
    HaltIsToolHalt(st.failures, calls, results, n);
    ConcludeSound(env, Recorded(env, st, calls, results, n), RoundHints(env.shapes, st.history, calls, results, n),
                  RoundHalt(st.failures, calls, results, n), results);
  }

  lemma {:induction false} HaltIsToolHalt(before: seq<Signature>, calls: seq<ToolCall>, results: seq<ToolResult>, k: nat)
    requires k <= |calls| == |results|
    ensures var h := RoundHalt(before, calls, results, k); h.Some? ==> h.value.ToolHalt?
  {
    if k > 0 { HaltIsToolHalt(before, calls, results, k - 1); }
  }

  lemma ToolRoundSound(env: Env, st: State, i: nat, calls: seq<ToolCall>)
    requires MidRound(st, calls, 0) && AsksTidy(st) && (st.gap ==> Standing(st.messages).Broken?)
    ensures Sound(ToolRound(env, st, i, calls))
  {
    var rounds := st.rounds + [FingerprintOf(calls)];
    var next := st.(rounds := rounds, executed := st.executed + [!Repeated(rounds, REPEAT_LIMIT)]);
    RefuseStanding(env, next, calls, |calls|);
    RefuseFrame(env, next, calls, |calls|);
    ExecuteSound(env, next, i, calls);
  }

  lemma TextRoundSound(env: Env, cfg: Config, st: State, i: nat, text: string)
    requires Tidy(st) && AsksTidy(st)
    ensures Sound(TextRound(env, cfg, st, i, text))
  {
    InsistTidy(env, st, Assistant(Plain(text)));
    var s := Insist(env, st, Assistant(Plain(text))).st;
    InsistTidy(env, s.(nudged := true), System(Fixed(ConfirmReply)));
  }

  lemma CallsRoundSound(env: Env, st: State, i: nat, text: string, calls: seq<ToolCall>)
    requires Tidy(st) && AsksTidy(st)
    ensures Sound(CallsRound(env, st, i, text, calls))
  {
    PushStanding(env, st, ToolCalls(text, calls));
    var r := Insist(env, st, ToolCalls(text, calls));
    assert Ids(calls)[0..] == Ids(calls);
    if r.Going? { ToolRoundSound(env, r.st, i, calls); }
  }

  lemma AskTidy(st: State, chat: Chat)
    requires Tidy(st) && AsksTidy(st)
    ensures AsksTidy(Asked(st, chat)) && Tidy(Asked(st, chat))
  {
    ClosedIsStanding(st.messages);
  }

  lemma PrepareSound(env: Env, cfg: Config, st: State, i: nat)
    requires Tidy(st) && AsksTidy(st)
    ensures Sound(Prepare(env, cfg, st, i))
  {
    var s := Compact(st, env.compaction(i));
    if env.compaction(i).Compacted? { ClosedIsStanding(s.messages); }
    InsistTidy(env, s.(checkpointed := true), System(Fixed(Midpoint)));
  }

  lemma ExchangeSound(env: Env, cfg: Config, st: State, i: nat)
    requires Tidy(st) && AsksTidy(st)
    ensures Sound(Exchange(env, cfg, st, i))
  {
    var asked := Asked(st, env.chat(i));
    AskTidy(st, env.chat(i));
    match env.chat(i) {
      case ChatAnswered(_, _, TextReply(text)) => TextRoundSound(env, cfg, asked, i, text);
      case ChatAnswered(_, _, CallsReply(text, calls)) => CallsRoundSound(env, asked, i, text, calls);
      case _ =>
    }
  }

  lemma IterateSound(env: Env, cfg: Config, st: State, i: nat)
    requires Tidy(st) && AsksTidy(st)
    ensures Sound(Iterate(env, cfg, st, i))
  {
    var ready := Prepare(env, cfg, st.(iterations := i + 1), i);
    PrepareSound(env, cfg, st.(iterations := i + 1), i);
    if ready.Going? { ExchangeSound(env, cfg, ready.st, i); }
  }

  lemma {:induction false} AfterSound(env: Env, cfg: Config, history: seq<Message>, user: string, i: nat)
    ensures Sound(After(env, cfg, Initial(history), user, i))
  {
    hide Iterate;
    if i == 0 {
      ClosedIsStanding(history);
      InsistTidy(env, Initial(history), User(Plain(user)));
    } else {
      AfterSound(env, cfg, history, user, i - 1);
      var s := After(env, cfg, Initial(history), user, i - 1);
      if s.Going? { IterateSound(env, cfg, s.st, i - 1); }
    }
  }

  lemma LastWordSound(env: Env, asked: State, chat: Chat)
    requires Tidy(asked) && AsksTidy(asked)
    ensures var q := LastWord(env, asked, chat); Tidy(q.st) && AsksTidy(q.st)
  {
    if chat.ChatAnswered? { InsistTidy(env, asked, Assistant(Plain(chat.response.text))); }
  }

  lemma SqueezeSound(env: Env, cfg: Config, st: State, directive: Directive)
    requires Tidy(st) && AsksTidy(st)
    ensures var q := Squeeze(env, cfg, st, directive); Tidy(q.st) && AsksTidy(q.st)
  {
    InsistTidy(env, st.(squeezed := true), System(Fixed(directive)));
    var told := Insist(env, st.(squeezed := true), System(Fixed(directive)));
    AskTidy(told.st, env.chat(cfg.maxIterations));
    LastWordSound(env, Asked(told.st, env.chat(cfg.maxIterations)), env.chat(cfg.maxIterations));
  }

  /** Every transcript the provider is shown is closed, squeeze included, exactly as long as there is no
      gap: the session came closed, no compaction opened it, and the engine has dropped no tool result.
      Every exit leaves it closed on the same condition, except that a cancelled or engine-failed turn
      may leave its last calls open. */
  lemma ProviderSeesClosedTranscripts(env: Env, cfg: Config, history: seq<Message>, user: string)
    ensures var r := WholeTurn(env, cfg, history, user);
            && (forall a | a in r.st.asks :: Closed(a.messages) <==> !a.gap)
            && (if r.outcome.Cancelled? || r.outcome.EngineError?
                then !r.st.gap ==> Standing(r.st.messages).Awaiting?
                else Closed(r.st.messages) <==> !r.st.gap)
  {
    AfterSound(env, cfg, history, user, cfg.maxIterations);
    var s := After(env, cfg, Initial(history), user, cfg.maxIterations);
    if s.Going? {
      SqueezeSound(env, cfg, s.st, FinalAnswer);
      SqueezeSound(env, cfg, s.st, StateReport);
    }
    ClosedIsStanding(WholeTurn(env, cfg, history, user).st.messages);
  }

  // Where gaps come from and where they go.

  /** An engine whose compaction leaves closed transcripts closed and open ones open, and that drops no
      result of a closed one. */
  ghost predicate Keeps(env: Env, gap: bool) {
    && (gap || forall n: nat :: env.pushOk(n))
    && forall i: nat :: env.compaction(i).Compacted? ==> (Closed(env.compaction(i).messages) <==> !gap)
  }

  predicate AllThrough(st: State, gap: bool) {
    st.gap == gap && forall a | a in st.asks :: a.gap == gap
  }

  lemma {:induction false} RecordedThrough(env: Env, gap: bool, st: State, calls: seq<ToolCall>, results: seq<ToolResult>, k: nat)
    requires k <= |calls| == |results| && Keeps(env, gap) && AllThrough(st, gap)
    ensures AllThrough(Recorded(env, st, calls, results, k), gap)
  {
    if k > 0 {
      RecordedThrough(env, gap, st, calls, results, k - 1);
      var _ := RecordOneEffect(env, Recorded(env, st, calls, results, k - 1), calls[k - 1], results[k - 1]);
    }
  }

  lemma ConcludeThrough(env: Env, gap: bool, st: State, hints: seq<HintKind>, halt: Option<Outcome>, results: seq<ToolResult>)
    requires AllThrough(st, gap)
    ensures AllThrough(Conclude(env, st, hints, halt, results).st, gap)
  {
    hide Policy, Insist;
    HintedThrough(env, gap, st, hints);
    PolicyThrough(env, gap, Hinted(env, st, hints).st, results);
    hide AllThrough, Hinted;
  }

  lemma HintedThrough(env: Env, gap: bool, st: State, hints: seq<HintKind>)
    requires AllThrough(st, gap)
    ensures AllThrough(Hinted(env, st, hints).st, gap)
  {
  }

  lemma PolicyThrough(env: Env, gap: bool, st: State, results: seq<ToolResult>)
    requires AllThrough(st, gap)
    ensures AllThrough(Policy(env, st, results).st, gap)
  {
    hide Halts, Rules, Reasons;
  }

  lemma ExecuteThrough(env: Env, gap: bool, st: State, i: nat, calls: seq<ToolCall>)
    requires Keeps(env, gap) && AllThrough(st, gap)
    ensures AllThrough(Execute(env, st, i, calls).st, gap)
  {
    hide Conclude, Recorded, RoundHints, RoundHalt;
    var n := |calls|;
    var results := Results(env, i, n);
    RecordedThrough(env, gap, st, calls, results, n);
    ConcludeThrough(env, gap, Recorded(env, st, calls, results, n), RoundHints(env.shapes, st.history, calls, results, n),
                    RoundHalt(st.failures, calls, results, n), results);
  }

  lemma ToolRoundThrough(env: Env, gap: bool, st: State, i: nat, calls: seq<ToolCall>)
    requires Keeps(env, gap) && AllThrough(st, gap)
    ensures AllThrough(ToolRound(env, st, i, calls).st, gap)
  {
    var rounds := st.rounds + [FingerprintOf(calls)];
    var next := st.(rounds := rounds, executed := st.executed + [!Repeated(rounds, REPEAT_LIMIT)]);
    hide FingerprintOf, Repeated, Refuse, Execute;
    RefuseFrame(env, next, calls, |calls|);
    ExecuteThrough(env, gap, next, i, calls);
  }

  lemma ReactThrough(env: Env, gap: bool, cfg: Config, st: State, i: nat, chat: Chat)
    requires Keeps(env, gap) && AllThrough(st, gap)
    ensures AllThrough(React(env, cfg, st, i, chat).st, gap)
  {
    hide ToolRound, Keeps;
    if chat.ChatAnswered? && chat.response.CallsReply? {
      var said := Insist(env, st, ToolCalls(chat.response.text, chat.response.calls));
      if said.Going? { ToolRoundThrough(env, gap, said.st, i, chat.response.calls); }
    }
  }

  lemma IterateThrough(env: Env, gap: bool, cfg: Config, st: State, i: nat)
    requires Keeps(env, gap) && AllThrough(st, gap)
    ensures AllThrough(Iterate(env, cfg, st, i).st, gap)
  {
    hide React;
    var ready := Prepare(env, cfg, st.(iterations := i + 1), i);
    PrepareThrough(env, gap, cfg, st.(iterations := i + 1), i);
    hide Prepare, Keeps;
    ReactThrough(env, gap, cfg, Asked(ready.st, env.chat(i)), i, env.chat(i));
  }

  lemma PrepareThrough(env: Env, gap: bool, cfg: Config, st: State, i: nat)
    requires Keeps(env, gap) && AllThrough(st, gap)
    ensures AllThrough(Prepare(env, cfg, st, i).st, gap)
  {
    hide Closed;
  }

  lemma {:induction false} AfterThrough(env: Env, gap: bool, cfg: Config, history: seq<Message>, user: string, i: nat)
    requires Keeps(env, gap) && (Closed(history) <==> !gap)
    ensures AllThrough(After(env, cfg, Initial(history), user, i).st, gap)
  {
    hide Iterate, Keeps, Closed;
    if i > 0 {
      AfterThrough(env, gap, cfg, history, user, i - 1);
      var s := After(env, cfg, Initial(history), user, i - 1);
      if s.Going? { IterateThrough(env, gap, cfg, s.st, i - 1); }
    }
  }

  lemma CapThrough(env: Env, gap: bool, cfg: Config, st: State)
    requires AllThrough(st, gap)
    ensures AllThrough(Cap(env, cfg, st).st, gap)
  {
    SqueezeThrough(env, gap, cfg, st, FinalAnswer);
    SqueezeThrough(env, gap, cfg, st, StateReport);
    hide Squeeze, AllThrough;
  }

  lemma SqueezeThrough(env: Env, gap: bool, cfg: Config, st: State, directive: Directive)
    requires AllThrough(st, gap)
    ensures AllThrough(Squeeze(env, cfg, st, directive).st, gap)
  {
  }

  /** With an engine that drops nothing and compacts to closed transcripts, a closed session stays closed:
      the provider sees nothing else. */
  lemma GoodEnginesKeepItClosed(env: Env, cfg: Config, history: seq<Message>, user: string)
    requires Keeps(env, false) && Closed(history)
    ensures var r := WholeTurn(env, cfg, history, user);
            && (forall a | a in r.st.asks :: Closed(a.messages))
            && (r.outcome.Cancelled? || Closed(r.st.messages) || r.outcome.EngineError?)
            && Standing(r.st.messages).Awaiting?
  {
    ProviderSeesClosedTranscripts(env, cfg, history, user);
    TurnThrough(env, false, cfg, history, user);
    ClosedIsStanding(WholeTurn(env, cfg, history, user).st.messages);
  }

  /** An open session, as a turn cancelled during tool execution leaves it, is shown to the provider open
      in every call of the next turn, unless a compaction closes it. */
  lemma OpenSessionsStayOpen(env: Env, cfg: Config, history: seq<Message>, user: string)
    requires Keeps(env, true) && !Closed(history)
    ensures forall a | a in WholeTurn(env, cfg, history, user).st.asks :: !Closed(a.messages)
  {
    ProviderSeesClosedTranscripts(env, cfg, history, user);
    TurnThrough(env, true, cfg, history, user);
  }

  lemma TurnThrough(env: Env, gap: bool, cfg: Config, history: seq<Message>, user: string)
    requires Keeps(env, gap) && (Closed(history) <==> !gap)
    ensures AllThrough(WholeTurn(env, cfg, history, user).st, gap)
  {
    hide Iterate, Cap, Begin;
    AfterThrough(env, gap, cfg, history, user, cfg.maxIterations);
    var s := After(env, cfg, Initial(history), user, cfg.maxIterations);
    if s.Going? { CapThrough(env, gap, cfg, s.st); }
  }

  /** The flat engine: a push never fails, and compaction leaves one summary. */
  ghost predicate FlatEngine(env: Env) {
    && (forall n: nat :: env.pushOk(n))
    && forall i: nat :: env.compaction(i).Compacted? ==>
                          exists summary: string :: env.compaction(i).messages == [System(Plain(summary))]
  }

  lemma OneSummaryIsClosed(summary: string)
    ensures Closed([System(Plain(summary))])
  {
    var t := [System(Plain(summary))];
    assert t[1..] == [];
  }

  /** On the flat engine a closed session is only ever shown closed, and only a cancelled or failed turn
      leaves it open. */
  lemma FlatEngineKeepsItClosed(env: Env, cfg: Config, history: seq<Message>, user: string)
    requires FlatEngine(env) && Closed(history)
    ensures var r := WholeTurn(env, cfg, history, user);
            && (forall a | a in r.st.asks :: Closed(a.messages))
            && (r.outcome.Cancelled? || r.outcome.EngineError? || Closed(r.st.messages))
  {
    hide WholeTurn;
    forall i: nat | env.compaction(i).Compacted? ensures Closed(env.compaction(i).messages) {
      var summary: string :| env.compaction(i).messages == [System(Plain(summary))];
      OneSummaryIsClosed(summary);
    }
    GoodEnginesKeepItClosed(env, cfg, history, user);
  }
}
