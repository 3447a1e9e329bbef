/** What a cancelled turn leaves behind (src/agent/mod.rs): where an open transcript is open, and
    exactly when a cancellation opens it. */
module TurnCancels {
  import opened Options
  import opened JsonArgs
  import opened Transcript
  import opened Billing
  import opened HintRules
  import opened Turn
  import opened TurnLaws
  import opened TurnBounds

  // Where an open transcript is open.

  /** Message `j` is the last to make calls, and the results after it answer only some of them, in order. */
  predicate OpenAt(t: seq<Message>, j: nat) {
    && j < |t| && t[j].ToolCalls? && |t| - j - 1 < |t[j].calls|
    && (forall k | j < k < |t| :: t[k].Tool? && t[k].callId == t[j].calls[k - j - 1].id)
    && Closed(t[..j])
  }

  lemma {:induction false} PendingAfterAnswers(ids: seq<string>, t: seq<Message>)
    requires |t| < |ids| && forall k | 0 <= k < |t| :: t[k].Tool? && t[k].callId == ids[k]
    ensures Scan(Awaiting(ids), t) == Awaiting(ids[|t|..])
    decreases |t|
  {
    if t != [] {
      assert forall k | 0 <= k < |t| - 1 :: t[1..][k] == t[k + 1] && ids[1..][k] == ids[k + 1];
      PendingAfterAnswers(ids[1..], t[1..]);
      assert ids[1..][|t| - 1..] == ids[|t|..];
    }
  }

  lemma PendingParts(before: seq<Message>, m: Message, after: seq<Message>)
    requires Standing(before) == Awaiting([]) && m.ToolCalls? && |after| < |m.calls|
    requires forall k | 0 <= k < |after| :: after[k].Tool? && after[k].callId == m.calls[k].id
    ensures Standing(before + [m] + after) == Awaiting(Ids(m.calls)[|after|..])
  {
    ScanOne(before, m);
    ScanSplit(Awaiting([]), before + [m], after);
    PendingAfterAnswers(Ids(m.calls), after);
  }

  lemma OpenAtIsPending(t: seq<Message>, j: nat)
    requires OpenAt(t, j)
    ensures Standing(t) == Awaiting(Ids(t[j].calls)[|t| - j - 1..]) && Standing(t) != Awaiting([])
  {
    var before, after := t[..j], t[j + 1..];
    ClosedIsStanding(before);
    hide Closed, Scan, Standing;
    forall k | 0 <= k < |after| ensures after[k].Tool? && after[k].callId == t[j].calls[k].id {
      assert after[k] == t[j + 1 + k];
    }
    PendingParts(before, t[j], after);
    assert before + [t[j]] + after == t;
  }

  lemma OneMoreAnswer(t: seq<Message>, j: nat, last: Message)
    requires OpenAt(t, j) && |t| - j < |t[j].calls| && last.Tool? && last.callId == t[j].calls[|t| - j - 1].id
    ensures OpenAt(t + [last], j)
  {
    hide Closed;
    var u := t + [last];
    assert u[..j] == t[..j] && u[j] == t[j];
    assert forall k | j < k < |t| :: u[k] == t[k];
    assert u[|t|] == last;
  }

  lemma {:induction false} PendingIsOpenAt(t: seq<Message>)
    requires Standing(t).Awaiting? && Standing(t).ids != []
    ensures exists j: nat :: OpenAt(t, j)
  {
    var rest, last := t[..|t| - 1], t[|t| - 1];
    assert rest + [last] == t;
    ScanOne(rest, last);
    if last.Tool? {
      PendingIsOpenAt(rest);
      var j: nat :| OpenAt(rest, j);
      OpenAtIsPending(rest, j);
      hide Standing, OpenAt;
      var owed := Ids(rest[j].calls)[|rest| - j - 1..];
      assert Next(Awaiting(owed), last) == Awaiting(owed[1..]) && owed[1..] != [] && owed[0] == last.callId;
      OneMoreAnswer(rest, j, last);
    } else {
      ClosedIsStanding(rest);
      assert OpenAt(t, |t| - 1);
    }
  }

  /** A transcript that can still be completed is closed, or open at its last calls and nowhere else. */
  lemma OpenOnlyAtTheLastCalls(t: seq<Message>)
    ensures Standing(t).Awaiting? <==> Closed(t) || exists j: nat :: OpenAt(t, j)
    ensures !(Closed(t) && exists j: nat :: OpenAt(t, j))
  {
    ClosedIsStanding(t);
    if j: nat :| OpenAt(t, j) {
      OpenAtIsPending(t, j);
    }
    if Standing(t).Awaiting? && !Closed(t) { PendingIsOpenAt(t); }
  }

  // When a cancellation opens it.

  /** The calls of the answer the turn's last iteration got. */
  function LastCalls(env: Env, st: State): seq<ToolCall> {
    if st.iterations == 0 then []
    else
      match env.chat(st.iterations - 1)
      case ChatAnswered(_, _, CallsReply(_, calls)) => calls
      case _ => []
  }

  /** The turn was cut off while the calls of its last round ran. */
  predicate CutInTools(env: Env, st: State) {
    && LastCalls(env, st) != [] && env.toolsCancelled(st.iterations - 1)
    && st.executed != [] && st.executed[|st.executed| - 1]
  }

  predicate EndsInCalls(t: seq<Message>) {
    t != [] && OpenAt(t, |t| - 1)
  }

  ghost predicate CancelLaw(env: Env, r: Step) {
    match r
    case Going(s) => !CutInTools(env, s)
    case Done(o, s) =>
      o.Cancelled? && !s.gap ==>
        (Closed(s.messages) <==> !CutInTools(env, s)) && (EndsInCalls(s.messages) <==> CutInTools(env, s))
  }

  lemma TidyEnds(t: seq<Message>)
    requires Standing(t) == Awaiting([])
    ensures Closed(t) && !EndsInCalls(t)
  {
    ClosedIsStanding(t);
    OpenOnlyAtTheLastCalls(t);
  }

  lemma CallsEnd(t: seq<Message>, text: string, calls: seq<ToolCall>)
    requires Standing(t) == Awaiting([])
    ensures Closed(t + [ToolCalls(text, calls)]) <==> calls == []
    ensures EndsInCalls(t + [ToolCalls(text, calls)]) <==> calls != []
  {
    var u := t + [ToolCalls(text, calls)];
    ScanOne(t, ToolCalls(text, calls));
    ClosedIsStanding(t);
    ClosedIsStanding(u);
    assert u[..|u| - 1] == t && u[|u| - 1] == ToolCalls(text, calls);
  }

  /** An execution is cut off only before it records anything. */
  lemma ExecuteCancels(env: Env, st: State, i: nat, calls: seq<ToolCall>)
    ensures var r := Execute(env, st, i, calls);
            && r.st.executed == st.executed && r.st.iterations == st.iterations
            && (r.Done? && r.outcome.Cancelled? <==> env.toolsCancelled(i))
            && (env.toolsCancelled(i) ==> r.st == st)
  {
    var n := |calls|;
    var results := Results(env, i, n);
    RecordedFrame(env, st, calls, results, n);
    HaltIsToolHalt(st.failures, calls, results, n);
    hide Recorded, RoundHints, RoundHalt, Conclude;
    ConcludeFrame(env, Recorded(env, st, calls, results, n), RoundHints(env.shapes, st.history, calls, results, n),
                  RoundHalt(st.failures, calls, results, n), results);
  }

  lemma ToolRoundCancels(env: Env, st: State, i: nat, calls: seq<ToolCall>)
    ensures var r := ToolRound(env, st, i, calls);
            && r.st.executed == st.executed + [!Repeated(st.rounds + [FingerprintOf(calls)], REPEAT_LIMIT)]
            && r.st.iterations == st.iterations
            && (r.Done? && r.outcome.Cancelled? <==> r.st.executed[|st.executed|] && env.toolsCancelled(i))
            && (r.Done? && r.outcome.Cancelled? ==> r.st.messages == st.messages && r.st.gap == st.gap)
  {
    hide Execute, Refuse, FingerprintOf, Repeated;
    var rounds := st.rounds + [FingerprintOf(calls)];
    var next := st.(rounds := rounds, executed := st.executed + [!Repeated(rounds, REPEAT_LIMIT)]);
    RefuseFrame(env, next, calls, |calls|);
    ExecuteCancels(env, next, i, calls);
  }

  /** A round of calls, from a transcript that was tidy before it. */
  lemma CallsCancel(env: Env, st: State, i: nat, text: string, calls: seq<ToolCall>)
    requires Tidy(st) && st.iterations == i + 1
    requires env.chat(i).ChatAnswered? && env.chat(i).response == CallsReply(text, calls)
    ensures CancelLaw(env, CallsRound(env, st, i, text, calls))
  {
    hide ToolRound, Closed;
    var said := Insist(env, st, ToolCalls(text, calls));
    if said.Going? {
      ToolRoundCancels(env, said.st, i, calls);
      if !st.gap { CallsEnd(st.messages, text, calls); }
      hide OpenAt;
      assert LastCalls(env, ToolRound(env, said.st, i, calls).st) == calls;
    }
  }

  lemma ReactCancels(env: Env, cfg: Config, st: State, i: nat)
    requires Tidy(st) && st.iterations == i + 1
    ensures CancelLaw(env, React(env, cfg, st, i, env.chat(i)))
  {
    hide CallsRound, Closed, OpenAt;
    if !st.gap { TidyEnds(st.messages); }
    match env.chat(i) {
      case ChatAnswered(_, _, CallsReply(text, calls)) => CallsCancel(env, st, i, text, calls);
      case _ =>
    }
  }

  lemma IterateCancels(env: Env, cfg: Config, st: State, i: nat)
    requires Tidy(st) && AsksTidy(st) && !CutInTools(env, st)
    ensures CancelLaw(env, Iterate(env, cfg, st, i))
  {
    hide React, OpenAt, Closed, Tidy, CutInTools;
    var ready := Prepare(env, cfg, st.(iterations := i + 1), i);
    TidyIgnoresIterations(st, i + 1);
    PrepareSound(env, cfg, st.(iterations := i + 1), i);
    PrepareGoesOn(env, cfg, st.(iterations := i + 1), i);
    if env.cancelled(i) {
      CancelledBetween(env, st);
    } else if ready.Going? && !env.assembleFails(i) {
      var asked := Asked(ready.st, env.chat(i));
      AskTidy(ready.st, env.chat(i));
      ReactCancels(env, cfg, asked, i);
    }
  }

  lemma TidyIgnoresIterations(st: State, n: nat)
    ensures Tidy(st) <==> Tidy(st.(iterations := n))
    ensures AsksTidy(st) <==> AsksTidy(st.(iterations := n))
  {
  }

  lemma PrepareGoesOn(env: Env, cfg: Config, st: State, i: nat)
    ensures var r := Prepare(env, cfg, st, i);
            r.st.iterations == st.iterations && (r.Done? ==> r.outcome.EngineError?)
  {
    hide Closed;
  }

  lemma CancelledBetween(env: Env, st: State)
    requires Tidy(st) && !CutInTools(env, st)
    ensures CancelLaw(env, Done(Cancelled, st))
  {
    if !st.gap { TidyEnds(st.messages); }
  }

  lemma {:induction false} AfterCancels(env: Env, cfg: Config, history: seq<Message>, user: string, i: nat)
    ensures CancelLaw(env, After(env, cfg, Initial(history), user, i))
  {
    hide Iterate, OpenAt, Closed;
    if i == 0 {
      ClosedIsStanding(history);
      if Closed(history) { TidyEnds(history); }
    } else {
      AfterCancels(env, cfg, history, user, i - 1);
      AfterSound(env, cfg, history, user, i - 1);
      var s := After(env, cfg, Initial(history), user, i - 1);
      if s.Going? { IterateCancels(env, cfg, s.st, i - 1); }
    }
  }

  /** A cancelled squeeze leaves everything answered. */
  lemma CapCancels(env: Env, cfg: Config, st: State)
    requires Tidy(st) && AsksTidy(st) && !CutInTools(env, st)
    ensures CancelLaw(env, Cap(env, cfg, st))
  {
    var r := Cap(env, cfg, st);
    CapIsTidy(env, cfg, st);
    hide Cap, Tidy, CutInTools;
    CancelledBetween(env, r.st);
  }

  lemma CapIsTidy(env: Env, cfg: Config, st: State)
    requires Tidy(st) && AsksTidy(st)
    ensures var r := Cap(env, cfg, st); r.Done? && Tidy(r.st) && (CutInTools(env, r.st) <==> CutInTools(env, st))
  {
    SqueezeSound(env, cfg, st, FinalAnswer);
    SqueezeSound(env, cfg, st, StateReport);
    SqueezeCutsNothing(env, cfg, st, FinalAnswer);
    SqueezeCutsNothing(env, cfg, st, StateReport);
    hide Squeeze, Tidy, AsksTidy;
  }

  lemma SqueezeCutsNothing(env: Env, cfg: Config, st: State, directive: Directive)
    ensures var q := Squeeze(env, cfg, st, directive);
            q.st.iterations == st.iterations && q.st.executed == st.executed
  {
  }

  /** A cancelled turn whose session had no gap leaves calls unanswered exactly when it was cut off while
      the calls of its last round ran; then it leaves all of them, and they stand last. */
  lemma CancellationOpensIff(env: Env, cfg: Config, history: seq<Message>, user: string)
    ensures var r := WholeTurn(env, cfg, history, user);
            r.outcome.Cancelled? && !r.st.gap ==>
              && (Closed(r.st.messages) <==> !CutInTools(env, r.st))
              && (EndsInCalls(r.st.messages) <==> CutInTools(env, r.st))
  {
    hide Iterate, Cap, OpenAt, Closed;
    AfterCancels(env, cfg, history, user, cfg.maxIterations);
    AfterSound(env, cfg, history, user, cfg.maxIterations);
    var s := After(env, cfg, Initial(history), user, cfg.maxIterations);
    if s.Going? { CapCancels(env, cfg, s.st); }
  }

  /** And the turn after it shows the provider the open transcript in every call, unless a compaction
      closes it. */
  lemma NextTurnSeesItOpen(env: Env, cfg: Config, history: seq<Message>, user: string,
                           nextEnv: Env, nextCfg: Config, nextUser: string)
    requires var r := WholeTurn(env, cfg, history, user); r.outcome.Cancelled? && !r.st.gap && CutInTools(env, r.st)
    requires Keeps(nextEnv, true)
    ensures var left := WholeTurn(env, cfg, history, user).st.messages;
            forall a | a in WholeTurn(nextEnv, nextCfg, left, nextUser).st.asks :: !Closed(a.messages)
  {
    hide WholeTurn, Closed, OpenAt, Keeps, CutInTools;
    CancellationOpensIff(env, cfg, history, user);
    OpenSessionsStayOpen(nextEnv, nextCfg, WholeTurn(env, cfg, history, user).st.messages, nextUser);
  }

  /** One call, cancelled while it runs. */
  function CutEnv(call: ToolCall): Env {
    Env(false, n => false, n => Idle, n => false,
        n => ChatAnswered([], CallUsage(None, None, 0, None, None), CallsReply("", [call])),
        n => true, (n, k) => Ok("", ""), n => true, SHAPES)
  }

  /** A new session whose first call is cut off ends open. */
  lemma CutTurnEndsOpen(call: ToolCall, cfg: Config, user: string)
    requires cfg.maxIterations > 0
    ensures var r := WholeTurn(CutEnv(call), cfg, [], user);
            r.outcome.Cancelled? && !r.st.gap && CutInTools(CutEnv(call), r.st) && !Closed(r.st.messages)
  {
    hide Iterate, CutInTools, Begin, OpenAt, Closed;
    CutBegins(call, cfg, user);
    FirstEnds(CutEnv(call), cfg, user, cfg.maxIterations);
    CancellationOpensIff(CutEnv(call), cfg, [], user);
  }

  lemma CutBegins(call: ToolCall, cfg: Config, user: string)
    ensures var begun := Begin(CutEnv(call), Initial([]), user);
            && begun.Going?
            && var r := Iterate(CutEnv(call), cfg, begun.st, 0);
               r == Done(Cancelled, r.st) && !r.st.gap && CutInTools(CutEnv(call), r.st)
  {
    hide Iterate, CutInTools;
    var begun := Begin(CutEnv(call), Initial([]), user);
    assert !begun.st.gap && begun.st.rounds == [];
    CutAtOnce(CutEnv(call), "", [call], cfg, begun.st);
  }

  /** The first iteration, when its calls are cut off. */
  predicate CutsFirst(env: Env, text: string, calls: seq<ToolCall>) {
    && !env.cancelled(0) && env.compaction(0).Idle? && !env.assembleFails(0) && env.toolsCancelled(0) && calls != []
    && env.chat(0).ChatAnswered? && env.chat(0).response == CallsReply(text, calls)
  }

  lemma CutAtOnce(env: Env, text: string, calls: seq<ToolCall>, cfg: Config, st: State)
    requires CutsFirst(env, text, calls) && !st.gap && st.rounds == [] && env.pushOk(st.pushes)
    ensures var r := Iterate(env, cfg, st, 0); r == Done(Cancelled, r.st) && !r.st.gap && CutInTools(env, r.st)
  {
    hide ToolRound, FingerprintOf, Repeated;
    var asked := Asked(st.(iterations := 1), env.chat(0));
    var said := Push(env, asked, ToolCalls(text, calls));
    assert CallsRound(env, asked, 0, text, calls) == ToolRound(env, said, 0, calls);
    CutRound(env, said, calls);
    assert LastCalls(env, ToolRound(env, said, 0, calls).st) == calls;
  }

  lemma CutRound(env: Env, st: State, calls: seq<ToolCall>)
    requires env.toolsCancelled(0) && st.rounds == []
    ensures var r := ToolRound(env, st, 0, calls);
            && r == Done(Cancelled, r.st) && r.st.gap == st.gap && r.st.iterations == st.iterations
            && r.st.executed == st.executed + [true]
  {
    hide FingerprintOf, ToolRound;
    ToolRoundCancels(env, st, 0, calls);
    assert |st.rounds + [FingerprintOf(calls)]| == 1;
  }

  lemma {:induction false} FirstEnds(env: Env, cfg: Config, user: string, i: nat)
    requires i > 0 && Begin(env, Initial([]), user).Going?
    requires Iterate(env, cfg, Begin(env, Initial([]), user).st, 0).Done?
    ensures After(env, cfg, Initial([]), user, i) == Iterate(env, cfg, Begin(env, Initial([]), user).st, 0)
  {
    hide Iterate, Begin;
    if i > 1 { FirstEnds(env, cfg, user, i - 1); }
  }
}
