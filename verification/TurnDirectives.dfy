/** What a turn's transcript says of its confirmation round, its checkpoint and its published text. */
module TurnDirectives {
  import opened Options
  import opened JsonArgs
  import opened Transcript
  import opened HintRules
  import opened Turn
  import opened TurnLaws
  import opened TurnBounds
  import opened TurnLimits

  /** How often a directive stands in a transcript. */
  function Times(t: seq<Message>, d: Directive): nat {
    if t == [] then 0 else Times(t[..|t| - 1], d) + if t[|t| - 1] == System(Fixed(d)) then 1 else 0
  }

  /** Message `k` asks for confirmation of the text just before it. */
  predicate Holds(t: seq<Message>, k: nat) {
    0 < k < |t| && t[k] == System(Fixed(ConfirmReply)) && t[k - 1].Assistant? && t[k - 1].content.Plain?
  }

  predicate OnlyHolds(t: seq<Message>) {
    forall k | 0 <= k < |t| && t[k] == System(Fixed(ConfirmReply)) :: Holds(t, k)
  }

  /** The text stands last. */
  predicate Publishes(t: seq<Message>, text: string) {
    t != [] && t[|t| - 1] == Assistant(Plain(text))
  }

  /** The transcript shows exactly the directives the flags record. */
  predicate Directed(st: State) {
    && Times(st.added, ConfirmReply) == Flag(st.nudged)
    && Times(st.added, Midpoint) == Flag(st.checkpointed)
    && OnlyHolds(st.added)
  }

  /** After a push that must work, a flag may have outrun its directive. */
  predicate NearlyDirected(st: State) {
    && Times(st.added, ConfirmReply) <= Flag(st.nudged)
    && Times(st.added, Midpoint) <= Flag(st.checkpointed)
    && OnlyHolds(st.added)
  }

  predicate Law(r: Step) {
    match r
    case Going(s) => Directed(s)
    case Done(o, s) => NearlyDirected(s) && (!o.EngineError? ==> Directed(s)) && (o.Text? ==> Publishes(s.added, o.text))
  }

  predicate Neutral(m: Message) {
    m != System(Fixed(ConfirmReply)) && m != System(Fixed(Midpoint))
  }

  lemma OneMore(t: seq<Message>, m: Message, d: Directive)
    ensures Times(t + [m], d) == Times(t, d) + if m == System(Fixed(d)) then 1 else 0
  {
    assert (t + [m])[..|t + [m]| - 1] == t;
  }

  lemma NeutralHolds(t: seq<Message>, m: Message)
    requires OnlyHolds(t) && (m == System(Fixed(ConfirmReply)) ==> t != [] && t[|t| - 1].Assistant? && t[|t| - 1].content.Plain?)
    ensures OnlyHolds(t + [m])
  {
    var u := t + [m];
    forall k | 0 <= k < |u| && u[k] == System(Fixed(ConfirmReply)) ensures Holds(u, k) {
      if k < |t| { assert Holds(t, k); }
    }
  }

  /** Any other message changes nothing of this. */
  lemma PushDirected(env: Env, st: State, m: Message)
    requires Directed(st) && Neutral(m)
    ensures Directed(Push(env, st, m))
  {
    OneMore(st.added, m, ConfirmReply);
    OneMore(st.added, m, Midpoint);
    NeutralHolds(st.added, m);
  }

  lemma InsistDirected(env: Env, st: State, m: Message)
    requires Directed(st) && Neutral(m)
    ensures Law(Insist(env, st, m)) && Directed(Insist(env, st, m).st)
  {
    PushDirected(env, st, m);
  }

  lemma {:induction false} RecordedDirected(env: Env, st: State, calls: seq<ToolCall>, results: seq<ToolResult>, k: nat)
    requires k <= |calls| == |results| && Directed(st)
    ensures Directed(Recorded(env, st, calls, results, k))
  {
    if k > 0 {
      RecordedDirected(env, st, calls, results, k - 1);
      var s := Recorded(env, st, calls, results, k - 1);
      var said := RecordOneEffect(env, s, calls[k - 1], results[k - 1]);
      hide RecordOne, Times, OnlyHolds;
      PushDirected(env, s, Tool(calls[k - 1].id, said));
    }
  }

  lemma {:induction false} RefuseDirected(env: Env, st: State, calls: seq<ToolCall>, k: nat)
    requires k <= |calls| && Directed(st)
    ensures Law(Refuse(env, st, calls, k)) && Directed(Refuse(env, st, calls, k).st)
  {
    if k > 0 {
      RefuseDirected(env, st, calls, k - 1);
      RefuseFrame(env, st, calls, k - 1);
      var r := Refuse(env, st, calls, k - 1);
      if r.Going? { InsistDirected(env, r.st, Tool(calls[k - 1].id, RepeatRefusal)); }
    }
  }

  lemma PolicyDirected(env: Env, st: State, results: seq<ToolResult>)
    requires Directed(st)
    ensures Law(Policy(env, st, results))
  {
    hide Directed, NearlyDirected;
    DirectedIsOfTheTranscript(st, st.(blocked := st.blocked + [Rules(results)]));
    NearlySo(st.(blocked := st.blocked + [Rules(results)]));
    InsistDirected(env, st.(blocked := st.blocked + [Rules(results)]), System(Fixed(PolicyStop)));
  }

  lemma DirectedIsOfTheTranscript(s: State, t: State)
    requires t.added == s.added && t.nudged == s.nudged && t.checkpointed == s.checkpointed
    ensures Directed(s) <==> Directed(t)
  {
  }

  lemma NearlySo(st: State)
    ensures Directed(st) ==> NearlyDirected(st)
  {
  }

  lemma ConcludeDirected(env: Env, st: State, hints: seq<HintKind>, halt: Option<Outcome>, results: seq<ToolResult>)
    requires Directed(st) && (halt.Some? ==> halt.value.ToolHalt?)
    ensures Law(Conclude(env, st, hints, halt, results))
  {
    hide Directed, NearlyDirected, Policy;
    InsistDirected(env, st, System(Hints(hints)));
    var hinted := Hinted(env, st, hints);
    NearlySo(hinted.st);
    PolicyDirected(env, hinted.st, results);
  }

  lemma ExecuteDirected(env: Env, st: State, i: nat, calls: seq<ToolCall>)
    requires Directed(st)
    ensures Law(Execute(env, st, i, calls))
  {
    hide Directed, NearlyDirected, Conclude, Recorded, RoundHints, RoundHalt;
    var n := |calls|;
    var results := Results(env, i, n);
    NearlySo(st);
    RecordedDirected(env, st, calls, results, n);
    HaltIsToolHalt(st.failures, calls, results, n);
    ConcludeDirected(env, Recorded(env, st, calls, results, n), RoundHints(env.shapes, st.history, calls, results, n),
                     RoundHalt(st.failures, calls, results, n), results);
  }

  lemma ToolRoundDirected(env: Env, st: State, i: nat, calls: seq<ToolCall>)
    requires Directed(st)
    ensures Law(ToolRound(env, st, i, calls))
  {
    hide Directed, NearlyDirected, Execute, Refuse, FingerprintOf, Repeated;
    var rounds := st.rounds + [FingerprintOf(calls)];
    var next := st.(rounds := rounds, executed := st.executed + [!Repeated(rounds, REPEAT_LIMIT)]);
    DirectedIsOfTheTranscript(st, next);
    RefuseDirected(env, next, calls, |calls|);
    NearlySo(Refuse(env, next, calls, |calls|).st);
    ExecuteDirected(env, next, i, calls);
  }

  lemma CallsDirected(env: Env, st: State, i: nat, text: string, calls: seq<ToolCall>)
    requires Directed(st)
    ensures Law(CallsRound(env, st, i, text, calls))
  {
    hide Directed, NearlyDirected, ToolRound;
    var said := Insist(env, st, ToolCalls(text, calls));
    InsistDirected(env, st, ToolCalls(text, calls));
    if said.Going? { ToolRoundDirected(env, said.st, i, calls); }
  }

  /** The request to confirm the text that stands last. */
  lemma ConfirmDirected(env: Env, st: State, text: string)
    requires Directed(st) && !st.nudged && Publishes(st.added, text)
    ensures Law(Insist(env, st.(nudged := true), System(Fixed(ConfirmReply))))
  {
    var t := st.added;
    OneMore(t, System(Fixed(ConfirmReply)), ConfirmReply);
    OneMore(t, System(Fixed(ConfirmReply)), Midpoint);
    NeutralHolds(t, System(Fixed(ConfirmReply)));
    hide Times, OnlyHolds;
  }

  /** A held text is followed by the request to confirm it; a published one stands last. */
  lemma TextDirected(env: Env, cfg: Config, st: State, i: nat, text: string)
    requires Directed(st)
    ensures Law(TextRound(env, cfg, st, i, text))
  {
    hide Directed, NearlyDirected;
    var said := Insist(env, st, Assistant(Plain(text)));
    InsistDirected(env, st, Assistant(Plain(text)));
    NearlySo(said.st);
    if said.Going? && !st.nudged { ConfirmDirected(env, said.st, text); }
  }

  lemma ReactDirected(env: Env, cfg: Config, st: State, i: nat, chat: Chat)
    requires Directed(st)
    ensures Law(React(env, cfg, st, i, chat))
  {
    NearlySo(st);
    hide Directed, NearlyDirected, CallsRound, TextRound;
    match chat {
      case ChatAnswered(_, _, CallsReply(text, calls)) => CallsDirected(env, st, i, text, calls);
      case ChatAnswered(_, _, TextReply(text)) => TextDirected(env, cfg, st, i, text);
      case _ =>
    }
  }

  lemma PrepareDirected(env: Env, cfg: Config, st: State, i: nat)
    requires Directed(st) && (i == cfg.maxIterations / 2 && i > 0 ==> !st.checkpointed)
    ensures Law(Prepare(env, cfg, st, i)) && (Prepare(env, cfg, st, i).Done? ==> Prepare(env, cfg, st, i).outcome.EngineError?)
  {
    OneMore(st.added, System(Fixed(Midpoint)), ConfirmReply);
    OneMore(st.added, System(Fixed(Midpoint)), Midpoint);
    NeutralHolds(st.added, System(Fixed(Midpoint)));
    hide Times, OnlyHolds, Closed;
  }

  lemma IterateDirected(env: Env, cfg: Config, st: State, i: nat)
    requires Directed(st) && OnMeter(env, cfg, st, i)
    ensures Law(Iterate(env, cfg, st, i))
  {
    hide Directed, NearlyDirected, React, Prepare;
    var start := st.(iterations := i + 1);
    var ready := Prepare(env, cfg, start, i);
    DirectedIsOfTheTranscript(st, start);
    NearlySo(st);
    PrepareDirected(env, cfg, start, i);
    if ready.Going? {
      var asked := Asked(ready.st, env.chat(i));
      NearlySo(ready.st);
      DirectedIsOfTheTranscript(ready.st, asked);
      ReactDirected(env, cfg, asked, i, env.chat(i));
    }
  }

  lemma {:induction false} AfterDirected(env: Env, cfg: Config, history: seq<Message>, user: string, i: nat)
    requires i <= cfg.maxIterations
    ensures Law(After(env, cfg, Initial(history), user, i))
  {
    hide Iterate, Closed;
    if i == 0 {
      InsistDirected(env, Initial(history), User(Plain(user)));
    } else {
      AfterDirected(env, cfg, history, user, i - 1);
      var s := After(env, cfg, Initial(history), user, i - 1);
      if s.Going? {
        AfterMetered(env, cfg, history, user, i - 1);
        IterateDirected(env, cfg, s.st, i - 1);
      }
    }
  }

  /** The squeeze adds a directive of its own and at most its text, which stands last when it is the reply. */
  lemma SqueezeDirected(env: Env, cfg: Config, st: State, directive: Directive)
    requires Directed(st) && directive != ConfirmReply && directive != Midpoint
    ensures var q := Squeeze(env, cfg, st, directive);
            Directed(q.st) && (q.reply.Some? ==> Publishes(q.st.added, q.reply.value))
  {
    var told := Insist(env, st.(squeezed := true), System(Fixed(directive)));
    DirectedIsOfTheTranscript(st, st.(squeezed := true));
    InsistDirected(env, st.(squeezed := true), System(Fixed(directive)));
    var asked := Asked(told.st, env.chat(cfg.maxIterations));
    DirectedIsOfTheTranscript(told.st, asked);
    if env.chat(cfg.maxIterations).ChatAnswered? {
      InsistDirected(env, asked, Assistant(Plain(env.chat(cfg.maxIterations).response.text)));
    }
    hide Times, OnlyHolds;
  }

  lemma CapDirected(env: Env, cfg: Config, st: State)
    requires Directed(st)
    ensures var r := Cap(env, cfg, st); Directed(r.st) && (r.outcome.Text? ==> Publishes(r.st.added, r.outcome.text))
  {
    hide Directed, Squeeze;
    SqueezeDirected(env, cfg, st, FinalAnswer);
    SqueezeDirected(env, cfg, st, StateReport);
    SqueezeErrors(env, cfg, st);
  }

  lemma SqueezeErrors(env: Env, cfg: Config, st: State)
    ensures !Squeeze(env, cfg, st, FinalAnswer).error.Text? && !Squeeze(env, cfg, st, StateReport).error.Text?
  {
  }

  lemma HeldOnce(t: seq<Message>)
    requires OnlyHolds(t) && Times(t, ConfirmReply) > 0
    ensures exists k: nat :: Holds(t, k)
  {
    var k := Find(t, ConfirmReply);
    assert Holds(t, k);
  }

  lemma {:induction false} Find(t: seq<Message>, d: Directive) returns (k: nat)
    requires Times(t, d) > 0
    ensures k < |t| && t[k] == System(Fixed(d))
  {
    if t[|t| - 1] == System(Fixed(d)) {
      k := |t| - 1;
    } else {
      k := Find(t[..|t| - 1], d);
    }
  }

  /** Under `Confirm` a text published before the budget left no round to confirm it in was preceded by
      one held text, directly followed by the one request to confirm; no other turn holds anything. The
      checkpoint is told once in turns that go past half their budget, and in no others; whatever a
      failing engine or a cancellation cuts short, neither is told twice. */
  lemma PublishedTextWasConfirmed(env: Env, cfg: Config, history: seq<Message>, user: string)
    ensures var r := WholeTurn(env, cfg, history, user);
            var t, n := r.st.added, cfg.maxIterations;
            && (r.outcome.Text? ==> Publishes(t, r.outcome.text))
            && (r.outcome.Text? && cfg.reply == Confirm && !r.st.squeezed && r.st.iterations < n ==>
                  Times(t, ConfirmReply) == 1 && exists k: nat :: Holds(t, k))
            && (cfg.reply == Accept ==> Times(t, ConfirmReply) == 0)
            && OnlyHolds(t) && Times(t, ConfirmReply) <= 1 && Times(t, Midpoint) <= 1
            && (!r.outcome.Cancelled? && !r.outcome.EngineError? && n > 0 ==>
                  Times(t, Midpoint) == if 0 < n / 2 < r.st.iterations then 1 else 0)
  {
    hide Iterate, Cap, Begin, Closed, Times, OnlyHolds, Publishes;
    FlagsAreDue(env, cfg, history, user);
    AfterDirected(env, cfg, history, user, cfg.maxIterations);
    var s := After(env, cfg, Initial(history), user, cfg.maxIterations);
    var r := WholeTurn(env, cfg, history, user);
    if s.Going? {
      CapDirected(env, cfg, s.st);
      var _ := CapFrame(env, cfg, s.st);
    }
    assert NearlyDirected(r.st) && (!r.outcome.EngineError? ==> Directed(r.st));
    if Times(r.st.added, ConfirmReply) > 0 { HeldOnce(r.st.added); }
  }
}
