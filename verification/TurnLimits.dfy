/** Failures, refusals and directives of a turn: when it halts, and how much it may be told. */
module TurnLimits {
  import opened Options
  import opened JsonArgs
  import opened Transcript
  import opened HintRules
  import opened Turn
  import opened TurnLaws
  import opened TurnBounds

  // Identical failures.

  ghost predicate BelowHalt(failures: seq<Signature>) {
    forall s: Signature :: Count(failures, s) < STRIKE_HALT
  }

  /** A halt names a failure with its exact count. */
  predicate HaltIsCount(halt: Option<Outcome>, failures: seq<Signature>) {
    halt.Some? ==>
      && halt.value.ToolHalt?
      && halt.value.count == Count(failures, Signature(halt.value.tool, CanonicalArgs(halt.value.args), halt.value.class_))
      && halt.value.count >= STRIKE_HALT
  }

  lemma CountOneMore(failures: seq<Signature>, s: Signature)
    ensures forall t: Signature :: Count(failures + [s], t) == Count(failures, t) + (if t == s then 1 else 0)
  {
  }

  ghost predicate HaltWhenReached(halt: Option<Outcome>, failures: seq<Signature>) {
    HaltIsCount(halt, failures) && (halt.None? <==> BelowHalt(failures))
  }

  /** After recording, a failure has reached the limit exactly when a halt is set. */
  lemma {:induction false} RoundStrikes(before: seq<Signature>, calls: seq<ToolCall>, results: seq<ToolResult>, k: nat)
    requires k <= |calls| == |results| && BelowHalt(before)
    ensures HaltWhenReached(RoundHalt(before, calls, results, k), FailuresAfter(before, calls, results, k))
  {
    if k > 0 {
      RoundStrikes(before, calls, results, k - 1);
      if Strikes(results[k - 1]) {
        CountOneMore(FailuresAfter(before, calls, results, k - 1), SignatureOf(calls[k - 1], results[k - 1].error));
      }
    }
  }

  // Refused operations.

  ghost predicate Disjoint(blocked: seq<set<string>>) {
    forall i, j | 0 <= i < j < |blocked| :: blocked[i] * blocked[j] == {}
  }

  /** The turn may go on: few refusals, and no rule met twice. */
  ghost predicate Tolerated(blocked: seq<set<string>>) {
    |blocked| < POLICY_ROUND_LIMIT && Disjoint(blocked)
  }

  lemma AddRules(blocked: seq<set<string>>, rules: set<string>)
    requires Tolerated(blocked)
    ensures Tolerated(blocked + [rules]) <==> !Halts(blocked, rules)
  {
    var all := blocked + [rules];
    forall i | 0 <= i < |blocked| ensures all[i] == blocked[i] {}
    if !Halts(blocked, rules) {
      assert Disjoint(all);
    } else if |blocked| + 1 < POLICY_ROUND_LIMIT {
      var i :| 0 <= i < |blocked| && blocked[i] * rules != {};
      assert all[i] * all[|blocked|] != {};
    }
  }

  // How much the turn is told.

  function Flag(b: bool): nat { if b then 1 else 0 }

  function Stops(blocked: seq<set<string>>): nat {
    if |blocked| < POLICY_ROUND_LIMIT then |blocked| else POLICY_ROUND_LIMIT - 1
  }

  /** What the System messages of a turn are spent on: hints, refusals, one of each directive. */
  function Allowance(sh: Shapes, st: State): nat {
    |Spent(sh, st.history)| + Stops(st.blocked) + Flag(st.nudged) + Flag(st.checkpointed) + Flag(st.squeezed)
  }

  predicate Paid(sh: Shapes, st: State) {
    SystemCount(st.added) <= Allowance(sh, st)
  }

  lemma PushCount(env: Env, st: State, m: Message)
    ensures SystemCount(Push(env, st, m).added) <= SystemCount(st.added) + Flag(m.System?)
  {
    assert (st.added + [m])[..|st.added|] == st.added;
  }

  lemma {:induction false} HintsSpend(sh: Shapes, before: History, calls: seq<ToolCall>, results: seq<ToolResult>, k: nat)
    requires k <= |calls| == |results|
    ensures |Spent(sh, HistoryAfter(before, calls, results, k))| == |Spent(sh, before)| + |RoundHints(sh, before, calls, results, k)|
  {
    hide Given, Spent, Observed;
    if k > 0 {
      HintsSpend(sh, before, calls, results, k - 1);
      SpentSize(sh, HistoryAfter(before, calls, results, k - 1), Observed(calls[k - 1], results[k - 1]));
    }
  }

  lemma {:induction false} RecordedCount(env: Env, st: State, calls: seq<ToolCall>, results: seq<ToolResult>, k: nat)
    requires k <= |calls| == |results|
    ensures SystemCount(Recorded(env, st, calls, results, k).added) <= SystemCount(st.added)
  {
    if k > 0 {
      RecordedCount(env, st, calls, results, k - 1);
      var s := Recorded(env, st, calls, results, k - 1);
      var said := RecordOneEffect(env, s, calls[k - 1], results[k - 1]);
      hide RecordOne, SystemCount;
      PushCount(env, s, Tool(calls[k - 1].id, said));
    }
  }

  lemma SpentSize(sh: Shapes, h: History, o: Observation)
    ensures |Spent(sh, h + [o])| == |Spent(sh, h)| + Flag(Given(sh, h, o).Some?)
  {
    SpentGrows(sh, h, o);
    if Given(sh, h, o).None? { assert Spent(sh, h) + {} == Spent(sh, h); }
  }

  lemma {:induction false} RefuseCount(env: Env, st: State, calls: seq<ToolCall>, k: nat)
    requires k <= |calls|
    ensures SystemCount(Refuse(env, st, calls, k).st.added) <= SystemCount(st.added)
  {
    if k > 0 {
      RefuseCount(env, st, calls, k - 1);
      var r := Refuse(env, st, calls, k - 1);
      hide SystemCount;
      if r.Going? { PushCount(env, r.st, Tool(calls[k - 1].id, RepeatRefusal)); }
    }
  }

  // The three together.

  /** A turn that goes on is within every limit; one that ended was, up to the limit that ended it. */
  ghost predicate Limited(sh: Shapes, r: Step) {
    && Paid(sh, r.st)
    && match r
       case Going(s) => BelowHalt(s.failures) && Tolerated(s.blocked)
       case Done(o, s) =>
         && HaltIsCount(if o.ToolHalt? then Some(o) else None, s.failures)
         && (!o.ToolHalt? && !o.EngineError? ==> BelowHalt(s.failures))
         && (o.PolicyHalt? <==> !Tolerated(s.blocked))
  }

  lemma MoreStops(sh: Shapes, st: State, next: State, rules: set<string>)
    requires next == st.(blocked := st.blocked + [rules])
    ensures Allowance(sh, st) <= Allowance(sh, next)
    ensures |next.blocked| < POLICY_ROUND_LIMIT ==> Allowance(sh, next) == Allowance(sh, st) + 1
  {
    hide Spent;
  }

  lemma PolicyLimited(env: Env, st: State, results: seq<ToolResult>)
    requires BelowHalt(st.failures) && Tolerated(st.blocked) && Paid(env.shapes, st)
    ensures Limited(env.shapes, Policy(env, st, results))
  {
    var rules := Rules(results);
    if rules != {} {
      var next := st.(blocked := st.blocked + [rules]);
      AddRules(st.blocked, rules);
      MoreStops(env.shapes, st, next, rules);
      hide Allowance, Halts, SystemCount, BelowHalt, Rules, Reasons, Insist, Disjoint;
      if !Halts(st.blocked, rules) { InsistLimited(env, next, System(Fixed(PolicyStop))); }
    }
  }

  lemma ConcludeLimited(env: Env, st: State, hints: seq<HintKind>, halt: Option<Outcome>, results: seq<ToolResult>)
    requires SystemCount(st.added) + |hints| <= Allowance(env.shapes, st) && Tolerated(st.blocked)
    requires HaltWhenReached(halt, st.failures)
    ensures Limited(env.shapes, Conclude(env, st, hints, halt, results))
  {
    PushCount(env, st, System(Hints(hints)));
    var hinted := Hinted(env, st, hints);
    assert Paid(env.shapes, hinted.st) && hinted.st.failures == st.failures && hinted.st.blocked == st.blocked;
    if halt.None? { PolicyLimited(env, hinted.st, results); }
  }

  lemma ExecuteLimited(env: Env, st: State, i: nat, calls: seq<ToolCall>)
    requires Limited(env.shapes, Going(st))
    ensures Limited(env.shapes, Execute(env, st, i, calls))
  {
    var n := |calls|;
    var results := Results(env, i, n);
    RecordedFrame(env, st, calls, results, n);
    RecordedCount(env, st, calls, results, n);
    RoundStrikes(st.failures, calls, results, n);
    HintsSpend(env.shapes, st.history, calls, results, n);
    ConcludeLimited(env, Recorded(env, st, calls, results, n), RoundHints(env.shapes, st.history, calls, results, n),
                    RoundHalt(st.failures, calls, results, n), results);
  }

  lemma ToolRoundLimited(env: Env, st: State, i: nat, calls: seq<ToolCall>)
    requires Limited(env.shapes, Going(st))
    ensures Limited(env.shapes, ToolRound(env, st, i, calls))
  {
    hide FingerprintOf, Refuse, Execute, Spent, SystemCount;
    var rounds := st.rounds + [FingerprintOf(calls)];
    var next := st.(rounds := rounds, executed := st.executed + [!Repeated(rounds, REPEAT_LIMIT)]);
    if Repeated(rounds, REPEAT_LIMIT) {
      RefuseFrame(env, next, calls, |calls|);
      RefuseCount(env, next, calls, |calls|);
    } else {
      ExecuteLimited(env, next, i, calls);
    }
  }

  /** A message within the allowance leaves every limit as it was. */
  lemma InsistLimited(env: Env, st: State, m: Message)
    requires BelowHalt(st.failures) && Tolerated(st.blocked)
    requires SystemCount(st.added) + Flag(m.System?) <= Allowance(env.shapes, st)
    ensures Limited(env.shapes, Insist(env, st, m))
  {
    PushCount(env, st, m);
  }

  lemma ReactLimited(env: Env, cfg: Config, st: State, i: nat, chat: Chat)
    requires Limited(env.shapes, Going(st))
    ensures Limited(env.shapes, React(env, cfg, st, i, chat))
  {
    match chat {
      case ChatAnswered(_, _, CallsReply(text, calls)) =>
        var said := Insist(env, st, ToolCalls(text, calls));
        InsistLimited(env, st, ToolCalls(text, calls));
        if said.Going? { ToolRoundLimited(env, said.st, i, calls); }
      case ChatAnswered(_, _, TextReply(text)) =>
        TextLimited(env, cfg, st, i, text);
      case _ =>
    }
  }

  lemma TextLimited(env: Env, cfg: Config, st: State, i: nat, text: string)
    requires Limited(env.shapes, Going(st))
    ensures Limited(env.shapes, TextRound(env, cfg, st, i, text))
  {
    hide Insist, Spent, SystemCount, BelowHalt, Tolerated;
    var said := Insist(env, st, Assistant(Plain(text)));
    InsistLimited(env, st, Assistant(Plain(text)));
    InsistFrame(env, st, Assistant(Plain(text)));
    if said.Going? && !st.nudged { InsistLimited(env, said.st.(nudged := true), System(Fixed(ConfirmReply))); }
  }

  lemma PrepareLimited(env: Env, cfg: Config, st: State, i: nat)
    requires Limited(env.shapes, Going(st)) && (i == cfg.maxIterations / 2 && i > 0 ==> !st.checkpointed)
    ensures Limited(env.shapes, Prepare(env, cfg, st, i))
  {
    var s := Compact(st, env.compaction(i));
    if i == cfg.maxIterations / 2 && i > 0 { InsistLimited(env, s.(checkpointed := true), System(Fixed(Midpoint))); }
  }

  lemma ExchangeLimited(env: Env, cfg: Config, st: State, i: nat)
    requires Limited(env.shapes, Going(st))
    ensures Limited(env.shapes, Exchange(env, cfg, st, i))
  {
    hide React, Spent, SystemCount, BelowHalt, Tolerated;
    ReactLimited(env, cfg, Asked(st, env.chat(i)), i, env.chat(i));
  }

  lemma IterateLimited(env: Env, cfg: Config, st: State, i: nat)
    requires Limited(env.shapes, Going(st)) && OnMeter(env, cfg, st, i)
    ensures Limited(env.shapes, Iterate(env, cfg, st, i))
  {
    hide Exchange, Prepare, Spent, SystemCount, BelowHalt, Tolerated;
    var ready := Prepare(env, cfg, st.(iterations := i + 1), i);
    PrepareLimited(env, cfg, st.(iterations := i + 1), i);
    if ready.Going? { ExchangeLimited(env, cfg, ready.st, i); }
  }

  lemma BeginLimited(env: Env, history: seq<Message>, user: string)
    ensures Limited(env.shapes, Begin(env, Initial(history), user))
  {
    hide Closed;
    PushCount(env, Initial(history), User(Plain(user)));
  }

  lemma {:induction false} AfterLimited(env: Env, cfg: Config, history: seq<Message>, user: string, i: nat)
    requires i <= cfg.maxIterations
    ensures Limited(env.shapes, After(env, cfg, Initial(history), user, i))
  {
    hide Iterate, Begin, BelowHalt, Tolerated, Paid;
    if i == 0 {
      BeginLimited(env, history, user);
    } else {
      AfterLimited(env, cfg, history, user, i - 1);
      AfterMetered(env, cfg, history, user, i - 1);
      var s := After(env, cfg, Initial(history), user, i - 1);
      if s.Going? { IterateLimited(env, cfg, s.st, i - 1); }
    }
  }

  lemma SqueezePaid(env: Env, cfg: Config, st: State, directive: Directive)
    requires Paid(env.shapes, st) && !st.squeezed
    ensures Paid(env.shapes, Squeeze(env, cfg, st, directive).st)
  {
    var told := Insist(env, st.(squeezed := true), System(Fixed(directive)));
    PushCount(env, st.(squeezed := true), System(Fixed(directive)));
    InsistFrame(env, st.(squeezed := true), System(Fixed(directive)));
    LastWordPaid(env, Asked(told.st, env.chat(cfg.maxIterations)), env.chat(cfg.maxIterations));
  }

  lemma LastWordPaid(env: Env, asked: State, chat: Chat)
    requires Paid(env.shapes, asked)
    ensures Paid(env.shapes, LastWord(env, asked, chat).st)
  {
    if chat.ChatAnswered? { PushCount(env, asked, Assistant(Plain(chat.response.text))); }
  }

  lemma ThreeKinds(s: set<HintKind>)
    ensures |s| <= 3
  {
    var all := {AssertHint, RerunHint, StaleEditHint};
    assert s <= all by { forall k | k in s ensures k in all { match k { case AssertHint => case RerunHint => case StaleEditHint => } } }
    SubsetSize(s, all);
  }

  lemma {:induction false} SubsetSize<T>(a: set<T>, b: set<T>)
    requires a <= b
    ensures |a| <= |b|
  {
    if a != {} {
      var x :| x in a;
      SubsetSize(a - {x}, b - {x});
    }
  }

  /** However long the budget, a turn is told at most nine things by the loop itself. */
  lemma AtMostNineSystemMessages(env: Env, cfg: Config, history: seq<Message>, user: string)
    ensures SystemCount(WholeTurn(env, cfg, history, user).st.added) <= 9
  {
    AfterLimited(env, cfg, history, user, cfg.maxIterations);
    AfterMetered(env, cfg, history, user, cfg.maxIterations);
    var s := After(env, cfg, Initial(history), user, cfg.maxIterations);
    if s.Going? {
      SqueezePaid(env, cfg, s.st, StateReport);
      SqueezePaid(env, cfg, s.st, FinalAnswer);
    }
    ThreeKinds(Spent(env.shapes, WholeTurn(env, cfg, history, user).st.history));
  }

  /** Whenever the loop goes on, no failure signature has reached five, and the refused rounds so
      far are at most three and met pairwise different rules. */
  lemma GoingOnIsWithinLimits(env: Env, cfg: Config, history: seq<Message>, user: string, i: nat)
    requires i <= cfg.maxIterations
    ensures var r := After(env, cfg, Initial(history), user, i);
            r.Going? ==>
              && (forall s: Signature :: Count(r.st.failures, s) < STRIKE_HALT)
              && |r.st.blocked| <= 3
              && (forall a, b | 0 <= a < b < |r.st.blocked| :: r.st.blocked[a] * r.st.blocked[b] == {})
  {
    AfterLimited(env, cfg, history, user, i);
  }

  /** A tool halt reports a failure that happened that often, at least five times; a policy halt
      comes exactly when a rule was met in two rounds or four rounds were refused; and a failure
      that reached five can end the turn in no other way, short of a broken engine. */
  lemma HaltsAreEarned(env: Env, cfg: Config, history: seq<Message>, user: string)
    ensures var r := WholeTurn(env, cfg, history, user);
            && (r.outcome.ToolHalt? ==> HaltIsCount(Some(r.outcome), r.st.failures))
            && (!r.outcome.ToolHalt? && !r.outcome.EngineError? ==> BelowHalt(r.st.failures))
            && (r.outcome.PolicyHalt? <==> |r.st.blocked| >= POLICY_ROUND_LIMIT || !Disjoint(r.st.blocked))
  {
    AfterLimited(env, cfg, history, user, cfg.maxIterations);
    var s := After(env, cfg, Initial(history), user, cfg.maxIterations);
    if s.Going? { var _ := CapFrame(env, cfg, s.st); }
  }
}
