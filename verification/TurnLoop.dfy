/** The turn loop as the program runs it (src/agent/mod.rs): counters, maps and a growing
    transcript, proved to do what `Turn` says on the turn's history. */
module TurnLoop {
  import opened Options
  import opened JsonArgs
  import opened Transcript
  import opened Billing
  import opened HintRules
  import opened Turn
  import TurnLaws

  /** The length of the run of equal fingerprints the rounds end in. */
  function RunLength(rounds: seq<Fingerprint>): nat {
    var n := |rounds|;
    if n == 0 then 0
    else if n > 1 && rounds[n - 1] == rounds[n - 2] then RunLength(rounds[..n - 1]) + 1
    else 1
  }

  lemma {:induction false} RunLengthDecides(rounds: seq<Fingerprint>, k: nat)
    requires k > 0
    ensures Repeated(rounds, k) <==> RunLength(rounds) >= k
  {
    var n := |rounds|;
    if n > 1 && k > 1 {
      RunLengthDecides(rounds[..n - 1], k - 1);
    }
  }

  /** How many of the latest rounds were refused one after another. */
  function RefusedInARow(rounds: seq<Fingerprint>): nat {
    if RunLength(rounds) >= REPEAT_LIMIT then RunLength(rounds) - REPEAT_LIMIT + 1 else 0
  }

  lemma OneMoreRound(rounds: seq<Fingerprint>, f: Fingerprint)
    ensures var all := rounds + [f];
            && RefusedInARow(all) == (if Repeated(all, REPEAT_LIMIT) then RefusedInARow(rounds) + 1 else 0)
            && (RefusedInARow(all) >= REPEAT_STRIKE_LIMIT <==> Repeated(all, REPEAT_LIMIT + REPEAT_STRIKE_LIMIT - 1))
  {
    var all := rounds + [f];
    assert all[..|all| - 1] == rounds;
    RunLengthDecides(all, REPEAT_LIMIT);
    RunLengthDecides(all, REPEAT_LIMIT + REPEAT_STRIKE_LIMIT - 1);
  }

  class RepeatDetector {
    var prev: Option<Fingerprint>
    var count: nat
    ghost var rounds: seq<Fingerprint>

    ghost predicate Valid()
      reads this
    {
      && count == RunLength(rounds)
      && prev == if rounds == [] then None else Some(rounds[|rounds| - 1])
    }

    constructor ()
      ensures Valid() && rounds == []
    {
      prev, count, rounds := None, 0, [];
    }

    /** Whether this is the third equal round in a row, or a later one. */
    method Record(calls: seq<ToolCall>) returns (limit: bool)
      requires Valid()
      modifies this
      ensures Valid() && rounds == old(rounds) + [FingerprintOf(calls)]
      ensures limit <==> Repeated(rounds, REPEAT_LIMIT)
    {
      var fingerprint := FingerprintOf(calls);
      if prev == Some(fingerprint) {
        count := count + 1;
      } else {
        count, prev := 1, Some(fingerprint);
      }
      rounds := rounds + [fingerprint];
      assert rounds[..|rounds| - 1] == old(rounds);
      RunLengthDecides(rounds, REPEAT_LIMIT);
      limit := count >= REPEAT_LIMIT;
    }
  }

  class ToolStrikeTracker {
    var strikes: map<Signature, nat>
    ghost var failures: seq<Signature>

    ghost predicate Valid()
      reads this
    {
      forall s :: (if s in strikes then strikes[s] else 0) == Count(failures, s)
    }

    constructor ()
      ensures Valid() && failures == []
    {
      strikes, failures := map[], [];
    }

    /** How often this exact failure has now happened; refusals are not counted here. */
    method Record(call: ToolCall, e: ToolError) returns (count: Option<nat>)
      requires Valid()
      modifies this
      ensures Valid()
      ensures failures == if e.Blocked? then old(failures) else old(failures) + [SignatureOf(call, e)]
      ensures count == if e.Blocked? then None else Some(Count(failures, SignatureOf(call, e)))
    {
      if e.Blocked? { return None; }
      var key := SignatureOf(call, e);
      var n: nat := (if key in strikes then strikes[key] else 0) + 1;
      strikes := strikes[key := n];
      failures := failures + [key];
      count := Some(n);
    }
  }

  function AsStep(outcome: Option<Outcome>, st: State): Step {
    if outcome.Some? then Done(outcome.value, st) else Going(st)
  }

  /** Every rule met so far. */
  function Met(blocked: seq<set<string>>): set<string> {
    set i, g | 0 <= i < |blocked| && g in blocked[i] :: g
  }

  /** A round's state, halt and hints, one result further. */
  lemma OneMoreResult(env: Env, st: State, calls: seq<ToolCall>, results: seq<ToolResult>, k: nat)
    requires k < |calls| == |results|
    ensures var s := Recorded(env, st, calls, results, k);
            var t := RecordOne(env, s, calls[k], results[k]);
            var halt := HaltFor(t.failures, calls[k], results[k]);
            var hint := Given(env.shapes, s.history, Observed(calls[k], results[k]));
            && Recorded(env, st, calls, results, k + 1) == t
            && RoundHalt(st.failures, calls, results, k + 1)
               == (if halt.Some? then halt else RoundHalt(st.failures, calls, results, k))
            && RoundHints(env.shapes, st.history, calls, results, k + 1)
               == RoundHints(env.shapes, st.history, calls, results, k) + (if hint.Some? then [hint.value] else [])
  {
    hide Given, RecordOne, HaltFor, Observed, SignatureOf;
    TurnLaws.RecordedFrame(env, st, calls, results, k);
    TurnLaws.RecordedFrame(env, st, calls, results, k + 1);
  }

  class Loop {
    const env: Env
    const cfg: Config
    const usage: TurnUsage
    const repeats: RepeatDetector
    const hints: HintTracker
    const strikes: ToolStrikeTracker
    var messages: seq<Message>
    var pushes: nat
    var iterations: nat
    var nudged: bool
    var checkpointed: bool
    var squeezed: bool
    var policyStrikes: map<string, nat>
    var blockedRounds: nat
    var repeatStrikes: nat
    ghost var st: State

    /** The counters and maps say what the history `st` says. */
    ghost predicate Valid()
      reads this, usage, repeats, hints, strikes
    {
      && messages == st.messages && pushes == st.pushes
      && iterations == st.iterations && nudged == st.nudged && checkpointed == st.checkpointed && squeezed == st.squeezed
      && usage.Valid() && usage.draws == st.draws
      && repeats.Valid() && repeats.rounds == st.rounds
      && hints.Valid() && hints.sh == env.shapes && hints.history == st.history
      && strikes.Valid() && strikes.failures == st.failures
      && PolicyBooks()
      && repeatStrikes == RefusedInARow(st.rounds)
    }

    ghost predicate PolicyBooks()
      reads this
    {
      && blockedRounds == |st.blocked|
      && policyStrikes.Keys == Met(st.blocked)
      && forall g | g in policyStrikes :: policyStrikes[g] >= 1
    }

    constructor (env: Env, cfg: Config, history: seq<Message>)
      ensures Valid() && fresh(usage) && fresh(repeats) && fresh(hints) && fresh(strikes)
      ensures st == Initial(history) && this.env == env && this.cfg == cfg
    {
      this.env, this.cfg := env, cfg;
      usage := new TurnUsage();
      repeats := new RepeatDetector();
      hints := new HintTracker(env.shapes);
      strikes := new ToolStrikeTracker();
      messages, pushes, iterations, nudged, checkpointed, squeezed := history, 0, 0, false, false, false;
      policyStrikes, blockedRounds, repeatStrikes := map[], 0, 0;
      st := Initial(history);
    }

    method PushMessage(m: Message) returns (ok: bool)
      requires Valid()
      modifies this`messages, this`pushes, this`st
      ensures Valid() && st == Push(env, old(st), m) && ok == env.pushOk(old(st).pushes)
    {
      ok := env.pushOk(pushes);
      if ok { messages := messages + [m]; }
      pushes := pushes + 1;
      st := Push(env, st, m);
    }

    /** A tool result: whether it arrived is only remembered. */
    method DeliverMessage(m: Message)
      requires Valid()
      modifies this`messages, this`pushes, this`st
      ensures Valid() && st == Deliver(env, old(st), m)
    {
      hide TurnUsage.Valid, RepeatDetector.Valid, HintTracker.Valid, ToolStrikeTracker.Valid;
      var arrived := PushMessage(m);
      st := st.(gap := st.gap || !arrived);
    }

    /** A push that must work. */
    method Say(m: Message) returns (end: Option<Outcome>)
      requires Valid()
      modifies this`messages, this`pushes, this`st
      ensures Valid() && AsStep(end, st) == Insist(env, old(st), m)
    {
      var ok := PushMessage(m);
      end := if ok then None else Some(EngineError);
    }

    /** Answer every call of a repeated round with a refusal. */
    method RefuseRound(calls: seq<ToolCall>) returns (end: Option<Outcome>)
      requires Valid()
      modifies this`messages, this`pushes, this`st
      ensures Valid() && AsStep(end, st) == Refuse(env, old(st), calls, |calls|)
    {
      end := None;
      for k := 0 to |calls|
        invariant Valid() && end == None && Going(st) == Refuse(env, old(st), calls, k)
      {
        end := Say(Tool(calls[k].id, RepeatRefusal));
        if end.Some? {
          RefusalStops(env, old(st), calls, k + 1, |calls|);
          return;
        }
      }
    }

    /** Show a result to the hint tracker and, if it failed, to the strike tracker. */
    method Note(call: ToolCall, result: ToolResult) returns (hint: Option<HintKind>, count: Option<nat>)
      requires Valid()
      modifies this`st, hints, strikes
      ensures Valid() && st == Noted(old(st), call, result)
      ensures hint == Given(env.shapes, old(st).history, Observed(call, result))
      ensures count == if Strikes(result) then Some(Count(st.failures, SignatureOf(call, result.error))) else None
    {
      hide TurnUsage.Valid, RepeatDetector.Valid, HintTracker.Valid, ToolStrikeTracker.Valid;
      hide Given;
      hide SignatureOf;
      hint := hints.Observe(Observed(call, result));
      count := None;
      if result.Err? { count := strikes.Record(call, result.error); }
      st := Noted(st, call, result);
    }

    /** Record one result: hint, strike, message. */
    method RecordResult(call: ToolCall, result: ToolResult) returns (hint: Option<HintKind>, halt: Option<Outcome>)
      requires Valid()
      modifies this`messages, this`pushes, this`st, hints, strikes
      ensures Valid() && st == RecordOne(env, old(st), call, result)
      ensures hint == Given(env.shapes, old(st).history, Observed(call, result))
      ensures halt == HaltFor(st.failures, call, result)
    {
      hide Deliver;
      hide Noted;
      hide Given;
      hide SignatureOf;
      var count;
      hint, count := Note(call, result);
      var content := match result
                     case Ok(_, wrapped) => Plain(wrapped)
                     case Err(e) => FailureText(e, count.GetOr(0));
      halt := if count.Some? && count.value >= STRIKE_HALT
              then Some(ToolHalt(call.name, call.args, ErrorClass(result.error), count.value)) else None;
      DeliverMessage(Tool(call.id, content));
    }

    /** Record a round's results in call order. */
    method RecordToolResults(calls: seq<ToolCall>, results: seq<ToolResult>)
      returns (halt: Option<Outcome>, roundHints: seq<HintKind>)
      requires Valid() && |results| == |calls|
      modifies this`messages, this`pushes, this`st, hints, strikes
      ensures Valid() && st == Recorded(env, old(st), calls, results, |calls|)
      ensures halt == RoundHalt(old(st).failures, calls, results, |calls|)
      ensures roundHints == RoundHints(env.shapes, old(st).history, calls, results, |calls|)
    {
      hide Given, RecordOne, HaltFor, Observed;
      halt, roundHints := None, [];
      for k := 0 to |calls|
        invariant Valid() && st == Recorded(env, old(st), calls, results, k)
        invariant halt == RoundHalt(old(st).failures, calls, results, k)
        invariant roundHints == RoundHints(env.shapes, old(st).history, calls, results, k)
      {
        OneMoreResult(env, old(st), calls, results, k);
        hide Recorded, RoundHalt, RoundHints;
        var hint, stop := RecordResult(calls[k], results[k]);
        if hint.Some? { roundHints := roundHints + [hint.value]; }
        if stop.Some? { halt := stop; }
      }
    }

    /** One strike per rule of the round; whether any of them had been met before. */
    method CountRules(rules: set<string>) returns (again: bool)
      requires forall g | g in policyStrikes :: policyStrikes[g] >= 1
      modifies this`policyStrikes
      ensures policyStrikes.Keys == old(policyStrikes).Keys + rules
      ensures forall g | g in policyStrikes :: policyStrikes[g] >= 1
      ensures again <==> rules * old(policyStrikes).Keys != {}
    {
      again := false;
      var round := rules;
      while round != {}
        invariant round <= rules
        invariant policyStrikes.Keys == old(policyStrikes).Keys + (rules - round)
        invariant forall g | g in policyStrikes :: policyStrikes[g] >= 1
        invariant again <==> (rules - round) * old(policyStrikes).Keys != {}
        decreases round
      {
        var guidance :| guidance in round;
        var n := (if guidance in policyStrikes then policyStrikes[guidance] else 0) + 1;
        assert guidance in policyStrikes <==> guidance in old(policyStrikes);
        policyStrikes := policyStrikes[guidance := n];
        again := again || n >= POLICY_STRIKE_LIMIT;
        assert rules - (round - {guidance}) == (rules - round) + {guidance};
        assert (rules - (round - {guidance})) * old(policyStrikes).Keys
               == (rules - round) * old(policyStrikes).Keys + (if guidance in old(policyStrikes) then {guidance} else {});
        round := round - {guidance};
      }
      assert rules - {} == rules;
    }

    /** Count the round's refusals by rule and decide whether to go on. */
    method PolicyGate(results: seq<ToolResult>) returns (end: Option<Outcome>)
      requires Valid()
      modifies this`messages, this`pushes, this`st, this`policyStrikes, this`blockedRounds
      ensures Valid() && AsStep(end, st) == Policy(env, old(st), results)
    {
      hide TurnUsage.Valid, RepeatDetector.Valid, HintTracker.Valid, ToolStrikeTracker.Valid;
      hide Insist;
      hide Halts;
      hide Met;
      var rules := Rules(results);
      if rules == {} { return None; }
      blockedRounds := blockedRounds + 1;
      var again := CountRules(rules);
      var halt := blockedRounds >= POLICY_ROUND_LIMIT || again;
      MetDecides(st.blocked, rules);
      st := st.(blocked := st.blocked + [rules]);
      if halt {
        end := Some(PolicyHalt(Reasons(results)));
      } else {
        end := Say(System(Fixed(PolicyStop)));
      }
    }

    /** Run a round's calls and deal with what came back. */
    method Execute(i: nat, calls: seq<ToolCall>) returns (end: Option<Outcome>)
      requires Valid()
      modifies this, hints, strikes
      ensures Valid() && AsStep(end, st) == Turn.Execute(env, old(st), i, calls)
    {
      hide TurnUsage.Valid, RepeatDetector.Valid, HintTracker.Valid, ToolStrikeTracker.Valid;
      hide Insist;
      if env.toolsCancelled(i) { return Some(Cancelled); }
      var results := Results(env, i, |calls|);
      var halt, roundHints := RecordToolResults(calls, results);
      end := None;
      if roundHints != [] { end := Say(System(Hints(roundHints))); }
      if end.None? {
        if halt.Some? { end := halt; } else { end := PolicyGate(results); }
      }
    }

    /** A round of tool calls: refused when it is the third equal one, run otherwise. */
    method ToolRound(i: nat, calls: seq<ToolCall>) returns (end: Option<Outcome>)
      requires Valid()
      modifies this, repeats, hints, strikes
      ensures Valid() && AsStep(end, st) == Turn.ToolRound(env, old(st), i, calls)
    {
      hide TurnUsage.Valid, HintTracker.Valid, ToolStrikeTracker.Valid, RepeatDetector.Valid;
      hide Turn.Execute, RefusedInARow, Repeated, FingerprintOf, Refuse;
      var refused := repeats.Record(calls);
      ghost var rounds := st.rounds + [FingerprintOf(calls)];
      OneMoreRound(st.rounds, FingerprintOf(calls));
      repeatStrikes := if refused then repeatStrikes + 1 else 0;
      st := st.(rounds := rounds, executed := st.executed + [!refused]);
      if refused {
        TurnLaws.RefuseFrame(env, st, calls, |calls|);
        end := RefuseRound(calls);
        if end.None? && repeatStrikes >= REPEAT_STRIKE_LIMIT { end := Some(NoProgress); }
      } else {
        end := Execute(i, calls);
      }
    }

    /** A text ends the turn, unless it must be confirmed and can be. */
    method TextRound(i: nat, text: string) returns (end: Option<Outcome>)
      requires Valid()
      modifies this
      ensures Valid() && AsStep(end, st) == Turn.TextRound(env, cfg, old(st), i, text)
    {
      hide TurnUsage.Valid, RepeatDetector.Valid, HintTracker.Valid, ToolStrikeTracker.Valid;
      hide Insist;
      end := Say(Assistant(Plain(text)));
      if end.Some? { return; }
      if cfg.reply == Confirm && !nudged && i + 1 < cfg.maxIterations {
        nudged := true;
        st := st.(nudged := true);
        end := Say(System(Fixed(ConfirmReply)));
      } else {
        end := Some(Outcome.Text(text));
      }
    }

    /** Bill an answer, whatever it is. */
    method Bill(chat: Chat)
      requires Valid()
      modifies this`st, usage
      ensures Valid() && st == Asked(old(st), chat)
    {
      match chat {
        case ChatCancelled =>
        case ChatFailed(failed) => usage.AddFailed(failed);
        case ChatAnswered(failed, call, _) =>
          usage.AddFailed(failed);
          usage.AddCall(call);
          assert old(st).draws + failed + [call] == old(st).draws + (failed + [call]);
      }
      st := Asked(st, chat);
      assert old(st).draws + [] == old(st).draws;
    }

    /** Compaction and the midpoint directive. */
    method Prepare(i: nat) returns (end: Option<Outcome>)
      requires Valid()
      modifies this
      ensures Valid() && AsStep(end, st) == Turn.Prepare(env, cfg, old(st), i)
    {
      hide TurnUsage.Valid, RepeatDetector.Valid, HintTracker.Valid, ToolStrikeTracker.Valid;
      hide Insist;
      match env.compaction(i) {
        case CompactionFailed => return Some(EngineError);
        case Compacted(kept) => messages := kept;
        case Idle =>
      }
      st := Compact(st, env.compaction(i));
      end := None;
      if i == cfg.maxIterations / 2 && i > 0 {
        checkpointed := true;
        st := st.(checkpointed := true);
        end := Say(System(Fixed(Midpoint)));
      }
    }

    /** One iteration of the loop. */
    method Iterate(i: nat) returns (end: Option<Outcome>)
      requires Valid()
      modifies this, usage, repeats, hints, strikes
      ensures Valid() && AsStep(end, st) == Turn.Iterate(env, cfg, old(st), i)
    {
      hide TurnUsage.Valid, RepeatDetector.Valid, HintTracker.Valid, ToolStrikeTracker.Valid;
      hide Insist;
      if env.cancelled(i) { return Some(Cancelled); }
      iterations := i + 1;
      st := st.(iterations := i + 1);
      end := Prepare(i);
      if end.Some? { return; }
      if env.assembleFails(i) { return Some(EngineError); }
      var chat := env.chat(i);
      Bill(chat);
      match chat {
        case ChatCancelled => end := Some(Cancelled);
        case ChatFailed(_) => end := Some(ProviderError);
        case ChatAnswered(_, _, TextReply(text)) => end := TextRound(i, text);
        case ChatAnswered(_, _, CallsReply(text, calls)) =>
          end := Say(ToolCalls(text, calls));
          if end.None? { end := ToolRound(i, calls); }
      }
    }

    /** One completion without tools after the cap. */
    method Squeeze(directive: Directive) returns (reply: Option<string>, error: Outcome)
      requires Valid()
      modifies this, usage
      ensures Valid() && Squeezed(reply, error, st) == Turn.Squeeze(env, cfg, old(st), directive)
    {
      hide TurnUsage.Valid, RepeatDetector.Valid, HintTracker.Valid, ToolStrikeTracker.Valid;
      hide Insist;
      var i := cfg.maxIterations;
      squeezed := true;
      st := st.(squeezed := true);
      reply, error := None, EngineError;
      var end := Say(System(Fixed(directive)));
      if end.Some? || env.assembleFails(i) { return; }
      var chat := env.chat(i);
      Bill(chat);
      match chat {
        case ChatCancelled => error := Cancelled;
        case ChatFailed(_) => error := ProviderError;
        case ChatAnswered(_, _, response) =>
          end := Say(Assistant(Plain(response.text)));
          if end.None? { reply := Some(response.text); }
      }
    }

    method Cap() returns (outcome: Outcome)
      requires Valid()
      modifies this, usage
      ensures Valid() && Done(outcome, st) == Turn.Cap(env, cfg, old(st))
    {
      match cfg.budget {
        case AnswerAnyway =>
          var reply, error := Squeeze(FinalAnswer);
          outcome := if reply.Some? then Outcome.Text(reply.value) else error;
        case Fail =>
          var reply, error := Squeeze(StateReport);
          outcome := if reply.None? && error == Cancelled then Cancelled else MaxIterationsReached(reply);
      }
    }

    /** What the turn is billed. */
    method Meter() returns (bill: Usage)
      requires Valid()
      ensures bill == Totals(st.draws)
    {
      bill := usage.State();
    }
  }

  /** Run a turn on a session: its outcome, the transcript it leaves, and what it is billed. */
  method RunTurn(env: Env, cfg: Config, history: seq<Message>, user: string)
    returns (outcome: Outcome, messages: seq<Message>, bill: Usage)
    ensures var r := WholeTurn(env, cfg, history, user);
            outcome == r.outcome && messages == r.st.messages && bill == Totals(r.st.draws)
  {
    hide Turn.Cap, Insist, Turn.Iterate, Totals;
    hide TurnUsage.Valid, RepeatDetector.Valid, HintTracker.Valid, ToolStrikeTracker.Valid;
    var loop := new Loop(env, cfg, history);
    var end: Option<Outcome>;
    if env.cancelledAtStart {
      end := Some(Cancelled);
    } else {
      end := loop.Say(User(Plain(user)));
    }
    var i := 0;
    while i < cfg.maxIterations && end.None?
      invariant i <= cfg.maxIterations && loop.Valid() && loop.env == env && loop.cfg == cfg
      invariant fresh(loop) && fresh(loop.usage) && fresh(loop.repeats) && fresh(loop.hints) && fresh(loop.strikes)
      invariant AsStep(end, loop.st) == After(env, cfg, Initial(history), user, i)
      decreases cfg.maxIterations - i, end.None?
    {
      end := loop.Iterate(i);
      i := i + 1;
    }
    if end.Some? {
      DoneStays(env, cfg, Initial(history), user, i, cfg.maxIterations);
      outcome := end.value;
    } else {
      outcome := loop.Cap();
    }
    messages := loop.messages;
    bill := loop.Meter();
  }

  lemma {:induction false} DoneStays(env: Env, cfg: Config, start: State, user: string, i: nat, j: nat)
    requires i <= j && After(env, cfg, start, user, i).Done?
    ensures After(env, cfg, start, user, j) == After(env, cfg, start, user, i)
  {
    hide Turn.Iterate;
    if i < j { DoneStays(env, cfg, start, user, i, j - 1); }
  }

  lemma {:induction false} RefusalStops(env: Env, st: State, calls: seq<ToolCall>, j: nat, k: nat)
    requires j <= k <= |calls| && Refuse(env, st, calls, j).Done?
    ensures Refuse(env, st, calls, k) == Refuse(env, st, calls, j)
  {
    if j < k { RefusalStops(env, st, calls, j, k - 1); }
  }

  lemma MetDecides(blocked: seq<set<string>>, rules: set<string>)
    ensures Met(blocked + [rules]) == Met(blocked) + rules
    ensures Halts(blocked, rules) <==> |blocked| + 1 >= POLICY_ROUND_LIMIT || rules * Met(blocked) != {}
  {
    var all := blocked + [rules];
    assert all[|blocked|] == rules && forall i | 0 <= i < |blocked| :: all[i] == blocked[i];
    forall g | g in Met(blocked) + rules ensures g in Met(all) {
      if g in rules { assert g in all[|blocked|]; }
      else { var i :| 0 <= i < |blocked| && g in blocked[i]; assert g in all[i]; }
    }
    if rules * Met(blocked) != {} {
      var g :| g in rules * Met(blocked);
      var i :| 0 <= i < |blocked| && g in blocked[i];
      assert g in blocked[i] * rules;
    }
    if i :| 0 <= i < |blocked| && blocked[i] * rules != {} {
      var g :| g in blocked[i] * rules;
      assert g in rules * Met(blocked);
    }
  }
}
