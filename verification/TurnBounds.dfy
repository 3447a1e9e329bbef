/** Limits of a turn: provider calls and their bill, repetition, failures, refusals, directives. */
module TurnBounds {
  import opened Options
  import opened JsonArgs
  import opened Transcript
  import opened Billing
  import opened HintRules
  import opened Turn
  import opened TurnLaws

  // The effect of one reaction to the provider on the turn's books.

  predicate SameMeter(s: State, t: State) {
    && t.asks == s.asks && t.draws == s.draws && t.iterations == s.iterations
    && t.checkpointed == s.checkpointed && t.squeezed == s.squeezed
  }

  /** No tool round took place. */
  predicate NoRound(s: State, t: State) {
    && t.rounds == s.rounds && t.executed == s.executed
    && t.failures == s.failures && t.blocked == s.blocked && t.history == s.history
  }

  /** One tool round took place, and ran unless it was the third equal one in a row. */
  predicate OneRound(s: State, t: State) {
    && |t.rounds| == |s.rounds| + 1 && t.rounds[..|s.rounds|] == s.rounds
    && t.executed == s.executed + [!Repeated(t.rounds, REPEAT_LIMIT)]
  }

  predicate Ends(r: Step, o: Outcome) {
    r.Done? && r.outcome == o
  }

  predicate ReactEffect(cfg: Config, st: State, i: nat, r: Step) {
    && SameMeter(st, r.st)
    && (r.st.nudged == st.nudged || (cfg.reply == Confirm && r.st.nudged))
    && (r.Done? ==> !r.outcome.MaxIterationsReached?)
    && (r.Done? && r.outcome.Text? && cfg.reply == Confirm ==> st.nudged || i + 1 >= cfg.maxIterations)
    && (|| (NoRound(st, r.st) && !Ends(r, NoProgress))
        || (OneRound(st, r.st)
            && (Ends(r, NoProgress) ==> Repeated(r.st.rounds, REPEAT_LIMIT + 1))
            && (Repeated(r.st.rounds, REPEAT_LIMIT + 1) ==> Ends(r, NoProgress) || Ends(r, EngineError))))
  }

  lemma ConcludeFrame(env: Env, st: State, hints: seq<HintKind>, halt: Option<Outcome>, results: seq<ToolResult>)
    requires halt.Some? ==> halt.value.ToolHalt?
    ensures var r := Conclude(env, st, hints, halt, results);
            && SameMeter(st, r.st) && r.st.nudged == st.nudged
            && r.st.rounds == st.rounds && r.st.executed == st.executed
            && (r.Done? ==> r.outcome.EngineError? || r.outcome.ToolHalt? || r.outcome.PolicyHalt?)
  {
    var hinted := Hinted(env, st, hints);
    InsistFrame(env, st, System(Hints(hints)));
    PolicyFrame(env, hinted.st, results);
  }

  lemma PolicyFrame(env: Env, st: State, results: seq<ToolResult>)
    ensures var r := Policy(env, st, results);
            && SameMeter(st, r.st) && r.st.nudged == st.nudged
            && r.st.rounds == st.rounds && r.st.executed == st.executed
            && (r.Done? ==> r.outcome.EngineError? || r.outcome.PolicyHalt?)
  {
    InsistFrame(env, st.(blocked := st.blocked + [Rules(results)]), System(Fixed(PolicyStop)));
  }

  lemma ExecuteFrame(env: Env, st: State, i: nat, calls: seq<ToolCall>)
    ensures var r := Execute(env, st, i, calls);
            && SameMeter(st, r.st) && r.st.nudged == st.nudged
            && r.st.rounds == st.rounds && r.st.executed == st.executed
            && (r.Done? ==> r.outcome.Cancelled? || r.outcome.EngineError? || r.outcome.ToolHalt? || r.outcome.PolicyHalt?)
  {
    var n := |calls|;
    var results := Results(env, i, n);
    RecordedFrame(env, st, calls, results, n);
    HaltIsToolHalt(st.failures, calls, results, n);
    ConcludeFrame(env, Recorded(env, st, calls, results, n), RoundHints(env.shapes, st.history, calls, results, n),
                  RoundHalt(st.failures, calls, results, n), results);
  }

  lemma ToolRoundFrame(env: Env, cfg: Config, st: State, i: nat, calls: seq<ToolCall>)
    ensures ReactEffect(cfg, st, i, ToolRound(env, st, i, calls)) && OneRound(st, ToolRound(env, st, i, calls).st)
  {
    var rounds := st.rounds + [FingerprintOf(calls)];
    var next := st.(rounds := rounds, executed := st.executed + [!Repeated(rounds, REPEAT_LIMIT)]);
    if Repeated(rounds, REPEAT_LIMIT) {
      RefuseFrame(env, next, calls, |calls|);
    } else {
      ExecuteFrame(env, next, i, calls);
    }
  }

  lemma CallsFrame(env: Env, cfg: Config, st: State, i: nat, text: string, calls: seq<ToolCall>)
    ensures ReactEffect(cfg, st, i, CallsRound(env, st, i, text, calls))
  {
    var said := Insist(env, st, ToolCalls(text, calls));
    InsistFrame(env, st, ToolCalls(text, calls));
    if said.Going? { ToolRoundFrame(env, cfg, said.st, i, calls); }
  }

  lemma TextFrame(env: Env, cfg: Config, st: State, i: nat, text: string)
    ensures ReactEffect(cfg, st, i, TextRound(env, cfg, st, i, text))
  {
    var said := Insist(env, st, Assistant(Plain(text)));
    InsistFrame(env, st, Assistant(Plain(text)));
    InsistFrame(env, said.st.(nudged := true), System(Fixed(ConfirmReply)));
  }

  lemma InsistFrame(env: Env, st: State, m: Message)
    ensures var r := Insist(env, st, m);
            && SameMeter(st, r.st) && NoRound(st, r.st) && r.st.nudged == st.nudged
            && (r.Done? ==> r.outcome == EngineError)
  {
  }

  lemma ReactFrame(env: Env, cfg: Config, st: State, i: nat, chat: Chat)
    ensures ReactEffect(cfg, st, i, React(env, cfg, st, i, chat))
  {
    match chat {
      case ChatAnswered(_, _, CallsReply(text, calls)) => CallsFrame(env, cfg, st, i, text, calls);
      case ChatAnswered(_, _, TextReply(text)) => TextFrame(env, cfg, st, i, text);
      case _ =>
    }
  }

  /** What may have changed before the provider is asked in iteration `i`. */
  predicate ReadyFor(cfg: Config, st: State, i: nat, s: State) {
    && s.asks == st.asks && s.draws == st.draws && s.squeezed == st.squeezed && s.nudged == st.nudged
    && NoRound(st, s) && s.iterations == i + 1
    && s.checkpointed == (st.checkpointed || (i == cfg.maxIterations / 2 && i > 0))
  }

  /** An iteration that ended before the provider was asked. */
  predicate CutShort(st: State, r: Step) {
    && r.Done? && (r.outcome.Cancelled? || r.outcome.EngineError?)
    && r.st.asks == st.asks && r.st.draws == st.draws && r.st.squeezed == st.squeezed && r.st.nudged == st.nudged
    && NoRound(st, r.st)
  }

  /** What one iteration does to the books, as far as the limits below need it. */
  ghost predicate IterateEffect(env: Env, cfg: Config, st: State, i: nat, r: Step) {
    || CutShort(st, r)
    || exists s: State :: ReadyFor(cfg, st, i, s) && ReactEffect(cfg, Asked(s, env.chat(i)), i, r)
  }

  lemma PrepareFrame(env: Env, cfg: Config, st: State, i: nat)
    ensures var ready := Prepare(env, cfg, st.(iterations := i + 1), i);
            if ready.Done? then CutShort(st, ready)
            else ReadyFor(cfg, st, i, ready.st) && CutShort(st, Done(EngineError, ready.st))
  {
    var s := Compact(st.(iterations := i + 1), env.compaction(i));
    InsistFrame(env, s.(checkpointed := true), System(Fixed(Midpoint)));
    InsistSame(env, s.(checkpointed := true), System(Fixed(Midpoint)));
  }

  lemma InsistSame(env: Env, st: State, m: Message)
    ensures Insist(env, st, m).st == Push(env, st, m)
  {
  }

  lemma IterateFrame(env: Env, cfg: Config, st: State, i: nat)
    ensures IterateEffect(env, cfg, st, i, Iterate(env, cfg, st, i))
  {
    var ready := Prepare(env, cfg, st.(iterations := i + 1), i);
    PrepareFrame(env, cfg, st, i);
    if !env.cancelled(i) && ready.Going? && !env.assembleFails(i) {
      ReactFrame(env, cfg, Asked(ready.st, env.chat(i)), i, env.chat(i));
      assert ReadyFor(cfg, st, i, ready.st);
      assert Iterate(env, cfg, st, i) == React(env, cfg, Asked(ready.st, env.chat(i)), i, env.chat(i));
    } else {
      assert CutShort(st, Iterate(env, cfg, st, i));
    }
  }

  // Provider calls and the meter.

  /** Every draw the provider returned in its first `n` calls: those of each failed attempt, and the one
      that answered. */
  function AllDraws(env: Env, n: nat): seq<CallUsage> {
    if n == 0 then []
    else
      var chat := env.chat(n - 1);
      AllDraws(env, n - 1)
      + (if chat.ChatCancelled? then [] else chat.failed)
      + if chat.ChatAnswered? then [chat.usage] else []
  }

  lemma OneMoreCall(env: Env, n: nat)
    ensures AllDraws(env, n + 1) == AllDraws(env, n) + DrawsOf(env.chat(n))
  {
  }

  /** Between iterations: one provider call each, flags set exactly when due. */
  predicate OnMeter(env: Env, cfg: Config, st: State, i: nat) {
    && |st.asks| == i
    && (i > 0 ==> st.iterations == i)
    && st.draws == AllDraws(env, i)
    && !st.squeezed
    && (st.checkpointed <==> 0 < cfg.maxIterations / 2 < i)
    && (st.nudged ==> cfg.reply == Confirm)
  }

  /** After a turn that ended within `i` iterations. */
  predicate Metered(env: Env, cfg: Config, o: Outcome, st: State, i: nat) {
    && |st.asks| <= i
    && st.draws == AllDraws(env, |st.asks|)
    && !st.squeezed && !o.MaxIterationsReached?
    && (!o.Cancelled? && !o.EngineError? ==> (st.checkpointed <==> 0 < cfg.maxIterations / 2 < st.iterations))
    && (o.Text? && cfg.reply == Confirm ==> st.nudged || st.iterations == cfg.maxIterations)
    && (st.nudged ==> cfg.reply == Confirm)
  }

  ghost predicate MeterLaw(env: Env, cfg: Config, r: Step, i: nat) {
    match r case Going(s) => OnMeter(env, cfg, s, i) case Done(o, s) => Metered(env, cfg, o, s, i)
  }

  lemma IterateMetered(env: Env, cfg: Config, st: State, i: nat, r: Step)
    requires OnMeter(env, cfg, st, i) && i < cfg.maxIterations && IterateEffect(env, cfg, st, i, r)
    ensures MeterLaw(env, cfg, r, i + 1)
  {
    OneMoreCall(env, i);
    hide AllDraws, DrawsOf;
  }

  lemma {:induction false} AfterMetered(env: Env, cfg: Config, history: seq<Message>, user: string, i: nat)
    requires i <= cfg.maxIterations
    ensures MeterLaw(env, cfg, After(env, cfg, Initial(history), user, i), i)
  {
    hide Iterate;
    if i > 0 {
      AfterMetered(env, cfg, history, user, i - 1);
      var s := After(env, cfg, Initial(history), user, i - 1);
      if s.Going? {
        IterateFrame(env, cfg, s.st, i - 1);
        IterateMetered(env, cfg, s.st, i - 1, Iterate(env, cfg, s.st, i - 1));
      }
    }
  }

  /** What the squeeze does to the books. */
  predicate SqueezeEffect(env: Env, cfg: Config, st: State, q: Squeezed) {
    && NoRound(st, q.st) && q.st.squeezed && q.st.nudged == st.nudged
    && q.st.iterations == st.iterations && q.st.checkpointed == st.checkpointed
    && (q.error.Cancelled? || q.error.EngineError? || q.error.ProviderError?)
    && (|| (q.st.asks == st.asks && q.st.draws == st.draws)
        || (|q.st.asks| == |st.asks| + 1 && q.st.draws == st.draws + DrawsOf(env.chat(cfg.maxIterations))))
  }

  lemma LastWordFrame(env: Env, asked: State, chat: Chat)
    ensures var q := LastWord(env, asked, chat);
            && SameMeter(asked, q.st) && NoRound(asked, q.st) && q.st.nudged == asked.nudged
            && (q.error.Cancelled? || q.error.EngineError? || q.error.ProviderError?)
  {
    if chat.ChatAnswered? { InsistFrame(env, asked, Assistant(Plain(chat.response.text))); }
  }

  lemma SqueezeFrame(env: Env, cfg: Config, st: State, directive: Directive)
    ensures SqueezeEffect(env, cfg, st, Squeeze(env, cfg, st, directive))
  {
    var told := Insist(env, st.(squeezed := true), System(Fixed(directive)));
    InsistFrame(env, st.(squeezed := true), System(Fixed(directive)));
    LastWordFrame(env, Asked(told.st, env.chat(cfg.maxIterations)), env.chat(cfg.maxIterations));
  }

  /** How a capped turn ends, given what the squeeze did. */
  lemma CapFrame(env: Env, cfg: Config, st: State) returns (q: Squeezed)
    ensures SqueezeEffect(env, cfg, st, q)
    ensures var r := Cap(env, cfg, st);
            && r.Done? && r.st == q.st && !r.outcome.NoProgress?
            && (r.outcome.MaxIterationsReached? ==> cfg.budget == Fail)
            && (cfg.budget == Fail ==> r.outcome.MaxIterationsReached? || r.outcome.Cancelled?)
  {
    var directive := if cfg.budget == Fail then StateReport else FinalAnswer;
    q := Squeeze(env, cfg, st, directive);
    SqueezeFrame(env, cfg, st, directive);
  }

  lemma CapMetered(env: Env, cfg: Config, st: State, q: Squeezed)
    requires OnMeter(env, cfg, st, cfg.maxIterations) && SqueezeEffect(env, cfg, st, q)
    ensures cfg.maxIterations <= |q.st.asks| <= cfg.maxIterations + 1
    ensures q.st.draws == AllDraws(env, |q.st.asks|)
  {
    OneMoreCall(env, cfg.maxIterations);
    hide AllDraws, DrawsOf;
  }

  /** On every exit the bill is exactly the draws of the calls made; there are at most
      `maxIterations` + 1 calls, the extra one being the squeeze; and a turn that reached its cap
      under `Fail` never passes for a success. */
  lemma MeterCoversEveryDraw(env: Env, cfg: Config, history: seq<Message>, user: string)
    ensures var r := WholeTurn(env, cfg, history, user);
            && r.st.draws == AllDraws(env, |r.st.asks|)
            && |r.st.asks| <= cfg.maxIterations + 1
            && (|r.st.asks| == cfg.maxIterations + 1 ==> r.st.squeezed)
            && (r.st.squeezed ==> |r.st.asks| >= cfg.maxIterations)
            && (r.outcome.MaxIterationsReached? ==> r.st.squeezed && cfg.budget == Fail)
            && (r.st.squeezed && cfg.budget == Fail ==> r.outcome.MaxIterationsReached? || r.outcome.Cancelled?)
  {
    AfterMetered(env, cfg, history, user, cfg.maxIterations);
    var s := After(env, cfg, Initial(history), user, cfg.maxIterations);
    if s.Going? {
      var q := CapFrame(env, cfg, s.st);
      CapMetered(env, cfg, s.st, q);
    }
  }

  /** When the turn's two flags are set: the confirmation is due once under `Confirm` while the budget
      leaves a round for it, the checkpoint exactly at half. */
  lemma FlagsAreDue(env: Env, cfg: Config, history: seq<Message>, user: string)
    ensures var r := WholeTurn(env, cfg, history, user);
            && (r.outcome.Text? && cfg.reply == Confirm && !r.st.squeezed ==>
                  r.st.nudged || r.st.iterations == cfg.maxIterations)
            && (r.st.nudged ==> cfg.reply == Confirm)
            && (!r.outcome.Cancelled? && !r.outcome.EngineError? && cfg.maxIterations > 0 ==>
                  (r.st.checkpointed <==> 0 < cfg.maxIterations / 2 < r.st.iterations))
  {
    AfterMetered(env, cfg, history, user, cfg.maxIterations);
    var s := After(env, cfg, Initial(history), user, cfg.maxIterations);
    if s.Going? {
      var q := CapFrame(env, cfg, s.st);
      CapMetered(env, cfg, s.st, q);
    }
  }

  // Repetition.

  /** Which rounds ran is decided by the three latest fingerprints alone. */
  predicate RoundsDecided(st: State) {
    && |st.executed| == |st.rounds|
    && forall k | 0 <= k < |st.rounds| :: st.executed[k] <==> !Repeated(st.rounds[..k + 1], REPEAT_LIMIT)
  }

  /** No four equal rounds in a row, up to the last `spare` rounds. */
  predicate NoFour(rounds: seq<Fingerprint>, spare: nat) {
    forall k | 0 <= k && k + spare <= |rounds| :: !Repeated(rounds[..k], REPEAT_LIMIT + 1)
  }

  predicate RoundLaw(r: Step) {
    && RoundsDecided(r.st)
    && NoFour(r.st.rounds, 1)
    && (Ends(r, NoProgress) ==> Repeated(r.st.rounds, REPEAT_LIMIT + 1))
    && (!Ends(r, NoProgress) && !Ends(r, EngineError) ==> NoFour(r.st.rounds, 0))
  }

  lemma RoundStep(st: State, t: State, r: Step)
    requires RoundsDecided(st) && NoFour(st.rounds, 0) && r.st == t
    requires OneRound(st, t)
    requires Ends(r, NoProgress) ==> Repeated(t.rounds, REPEAT_LIMIT + 1)
    requires Repeated(t.rounds, REPEAT_LIMIT + 1) ==> Ends(r, NoProgress) || Ends(r, EngineError)
    ensures RoundLaw(r)
  {
    var n := |st.rounds|;
    forall k | 0 <= k <= n ensures t.rounds[..k] == st.rounds[..k] {
      assert t.rounds[..k] == t.rounds[..n][..k];
    }
    assert t.rounds[..n + 1] == t.rounds;
  }

  lemma IterateRounds(env: Env, cfg: Config, st: State, i: nat, r: Step)
    requires RoundLaw(Going(st)) && IterateEffect(env, cfg, st, i, r)
    ensures RoundLaw(r)
  {
    if NoRound(st, r.st) && !Ends(r, NoProgress) {
    } else {
      assert OneRound(st, r.st);
      RoundStep(st, r.st, r);
    }
  }

  lemma {:induction false} AfterRounds(env: Env, cfg: Config, history: seq<Message>, user: string, i: nat)
    ensures RoundLaw(After(env, cfg, Initial(history), user, i))
  {
    hide Iterate;
    if i > 0 {
      AfterRounds(env, cfg, history, user, i - 1);
      var s := After(env, cfg, Initial(history), user, i - 1);
      if s.Going? {
        IterateFrame(env, cfg, s.st, i - 1);
        IterateRounds(env, cfg, s.st, i - 1, Iterate(env, cfg, s.st, i - 1));
      }
    }
  }

  /** By their fingerprints: a round is refused exactly when it is the third equal one in a row, and the turn
      ends in `NoProgress` exactly at the first fourth. */
  lemma RoundsAreDecided(env: Env, cfg: Config, history: seq<Message>, user: string)
    ensures var r := WholeTurn(env, cfg, history, user);
            && RoundsDecided(r.st)
            && NoFour(r.st.rounds, 1)
            && (r.outcome.NoProgress? ==> Repeated(r.st.rounds, REPEAT_LIMIT + 1))
            && (Repeated(r.st.rounds, REPEAT_LIMIT + 1) ==> r.outcome.NoProgress? || r.outcome.EngineError?)
  {
    hide Iterate;
    hide Cap;
    AfterRounds(env, cfg, history, user, cfg.maxIterations);
    var s := After(env, cfg, Initial(history), user, cfg.maxIterations);
    if s.Going? { var _ := CapFrame(env, cfg, s.st); }
    var r := WholeTurn(env, cfg, history, user);
    assert r.st.rounds[..|r.st.rounds|] == r.st.rounds;
  }
}
