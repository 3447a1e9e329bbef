/** Whole turns, told by what the surroundings answered (src/agent/mod.rs, turn_loop, final_answer, state_report). */
module TurnWhole {
  import opened Options
  import opened JsonArgs
  import opened Transcript
  import opened HintRules
  import opened Turn
  import opened TurnLaws
  import opened TurnBounds
  import opened TurnScript
  import opened TurnFollows
  import opened TurnEnds

  // The cap.

  function LastDirective(cfg: Config): Message {
    System(Fixed(if cfg.budget == Fail then StateReport else FinalAnswer))
  }

  /** The provider answers the squeeze after `said` messages. */
  predicate Squeezes(env: Env, cfg: Config, said: nat) {
    env.pushOk(said) && !env.assembleFails(cfg.maxIterations) && env.chat(cfg.maxIterations).ChatAnswered?
  }

  /** What a turn that reached its cap ends with: its last word if there is one, and a reached cap is never
      passed for a success under `Fail`. */
  function CapOutcome(env: Env, cfg: Config, said: nat): Outcome {
    var chat := env.chat(cfg.maxIterations);
    var reached := env.pushOk(said) && !env.assembleFails(cfg.maxIterations);
    match cfg.budget
    case AnswerAnyway =>
      if !reached then EngineError
      else if chat.ChatCancelled? then Cancelled
      else if chat.ChatFailed? then ProviderError
      else if env.pushOk(said + 1) then Text(chat.response.text)
      else EngineError
    case Fail =>
      if reached && chat.ChatCancelled? then Cancelled
      else if reached && chat.ChatAnswered? && env.pushOk(said + 1) then MaxIterationsReached(Some(chat.response.text))
      else MaxIterationsReached(None)
  }

  function CapSays(env: Env, cfg: Config, said: nat): seq<Message> {
    [LastDirective(cfg)] + if Squeezes(env, cfg, said) then [Assistant(Plain(env.chat(cfg.maxIterations).response.text))] else []
  }

  /** The turn used up its iterations and was asked for a last word without tools. */
  ghost predicate CappedTurn(env: Env, cfg: Config, history: seq<Message>, user: string, o: Outcome, s: State) {
    var n, said := cfg.maxIterations, Script(env, cfg, user, cfg.maxIterations);
    && GoesOn(env, cfg, n)
    && o == CapOutcome(env, cfg, |said|)
    && s.offered == said + CapSays(env, cfg, |said|)
    && s.messages == Live(env, cfg, history, user, n) + Taken(env, CapSays(env, cfg, |said|), |said|)
    && s.rounds == Prints(env, n) && s.executed == Runs(env, n)
    && CapAsks(env, cfg, history, user, s.asks)
  }

  /** One transcript each iteration, and the squeeze's with its directive. */
  ghost predicate CapAsks(env: Env, cfg: Config, history: seq<Message>, user: string, asks: seq<Ask>) {
    var n, said := cfg.maxIterations, Script(env, cfg, user, cfg.maxIterations);
    && |asks| == n + (if env.pushOk(|said|) && !env.assembleFails(n) then 1 else 0)
    && Showed(env, cfg, history, user, asks[..n])
    && (|asks| > n ==> asks[n].messages == Live(env, cfg, history, user, n) + [LastDirective(cfg)])
  }

  lemma LastWordFollows(env: Env, asked: State, chat: Chat)
    requires asked.pushes == |asked.offered|
    ensures var q := LastWord(env, asked, chat);
            Told(env, asked, q.st, if chat.ChatAnswered? then [Assistant(Plain(chat.response.text))] else [])
    ensures var q := LastWord(env, asked, chat);
            && (q.reply.Some? <==> chat.ChatAnswered? && env.pushOk(asked.pushes))
            && (q.reply.Some? ==> q.reply.value == chat.response.text)
            && q.error == (match chat case ChatCancelled => Cancelled case ChatFailed(_) => ProviderError case _ => EngineError)
            && q.st.asks == asked.asks && q.st.rounds == asked.rounds && q.st.executed == asked.executed
  {
    if chat.ChatAnswered? { PushTold(env, asked, Assistant(Plain(chat.response.text))); } else { ToldNothing(env, asked, asked); }
  }

  lemma SqueezeFollows(env: Env, cfg: Config, st: State)
    requires st.pushes == |st.offered|
    ensures var q := Squeeze(env, cfg, st, LastDirective(cfg).content.directive);
            && Told(env, st, q.st, CapSays(env, cfg, |st.offered|))
            && q.st.rounds == st.rounds && q.st.executed == st.executed
            && q.st.asks == (if env.pushOk(|st.offered|) && !env.assembleFails(cfg.maxIterations)
                             then st.asks + [Ask(st.messages + [LastDirective(cfg)], st.gap)] else st.asks)
    ensures var q := Squeeze(env, cfg, st, LastDirective(cfg).content.directive);
            && (q.reply.Some? <==> Squeezes(env, cfg, |st.offered|) && env.pushOk(|st.offered| + 1))
            && (q.reply.Some? ==> q.reply.value == env.chat(cfg.maxIterations).response.text)
            && (q.error == if Squeezes(env, cfg, |st.offered|) || !env.pushOk(|st.offered|) || env.assembleFails(cfg.maxIterations) then EngineError
                           else if env.chat(cfg.maxIterations).ChatCancelled? then Cancelled else ProviderError)
  {
    var n, d := cfg.maxIterations, LastDirective(cfg);
    var start := st.(squeezed := true);
    var told := Insist(env, start, d);
    PushTold(env, start, d);
    InsistFrame(env, start, d);
    assert Told(env, st, told.st, [d]);
    if told.Going? && !env.assembleFails(n) {
      var asked := Asked(told.st, env.chat(n));
      LastWordFollows(env, asked, env.chat(n));
      var q := LastWord(env, asked, env.chat(n));
      var last := if env.chat(n).ChatAnswered? then [Assistant(Plain(env.chat(n).response.text))] else [];
      assert [d][..0] == [] && Taken(env, [d], |st.offered|) == [] + [d] == [d];
      hide LastWord, Insist;
      ToldThen(env, st, told.st, q.st, [d], last);
    } else {
      assert [d] + [] == [d];
    }
  }

  lemma CapEnds(env: Env, cfg: Config, st: State)
    requires st.pushes == |st.offered|
    ensures var r := Cap(env, cfg, st);
            && r.Done? && r.st == Squeeze(env, cfg, st, LastDirective(cfg).content.directive).st
            && r.outcome == CapOutcome(env, cfg, |st.offered|)
  {
    SqueezeFollows(env, cfg, st);
    hide Squeeze, Told, CapSays;
  }

  lemma CapFollows(env: Env, cfg: Config, history: seq<Message>, user: string, s: State)
    requires OnScript(env, cfg, history, user, cfg.maxIterations, s)
    ensures var r := Cap(env, cfg, s); r.Done? && CappedTurn(env, cfg, history, user, r.outcome, r.st)
  {
    var r := Cap(env, cfg, s);
    SqueezeFollows(env, cfg, s);
    CapEnds(env, cfg, s);
    BookedRounds(env, cfg.maxIterations, s);
    hide Squeeze, Cap, Booked, Script, Prints, Runs, Live, GoesOn, Showed, CapSays, CapOutcome, CapAsks, AllTaken;
    assert CapAsks(env, cfg, history, user, r.st.asks) by {
      AsksAtCap(env, cfg, history, user, s, r.st.asks);
    }
    hide Taken;
  }

  lemma AsksAtCap(env: Env, cfg: Config, history: seq<Message>, user: string, s: State, asks: seq<Ask>)
    requires Showed(env, cfg, history, user, s.asks) && |s.asks| == cfg.maxIterations
    requires s.offered == Script(env, cfg, user, cfg.maxIterations) && s.messages == Live(env, cfg, history, user, cfg.maxIterations)
    requires asks == (if env.pushOk(|s.offered|) && !env.assembleFails(cfg.maxIterations)
                      then s.asks + [Ask(s.messages + [LastDirective(cfg)], s.gap)] else s.asks)
    ensures CapAsks(env, cfg, history, user, asks)
  {
    hide Showed, Script, Live, LastDirective;
    assert asks[..cfg.maxIterations] == s.asks;
  }

  // The whole turn.

  /** The turn ended in iteration `n`, or reached its cap at `n`, or never began. */
  ghost predicate EndsAt(env: Env, cfg: Config, history: seq<Message>, user: string, n: nat, o: Outcome, s: State) {
    if env.cancelledAtStart || !env.pushOk(0) then n == 0 && NotBegun(env, history, user, o, s)
    else if n < cfg.maxIterations then EndedIn(env, cfg, history, user, n, o, s)
    else n == cfg.maxIterations && CappedTurn(env, cfg, history, user, o, s)
  }

  /** Whatever the surroundings answer, a turn does what its script says: it never begins, ends in one of its
      iterations as the script has it (or is broken off there by a cancellation or the engine), or uses up
      its budget and ends with its last word. */
  lemma TurnFollowsItsScript(env: Env, cfg: Config, history: seq<Message>, user: string) returns (n: nat)
    requires ParsedCalls(env)
    ensures var r := WholeTurn(env, cfg, history, user); EndsAt(env, cfg, history, user, n, r.outcome, r.st)
  {
    hide OnScript, EndedIn, CappedTurn, Cap, ParsedCalls, NotBegun;
    n := AfterFollows(env, cfg, history, user, cfg.maxIterations);
    var s := After(env, cfg, Initial(history), user, cfg.maxIterations);
    if s.Going? {
      n := cfg.maxIterations;
      CapFollows(env, cfg, history, user, s.st);
    } else if NotBegun(env, history, user, s.outcome, s.st) {
      StartFails(env, history, user, s.outcome, s.st);
      n := 0;
    }
  }

  lemma StartFails(env: Env, history: seq<Message>, user: string, o: Outcome, s: State)
    requires NotBegun(env, history, user, o, s)
    ensures env.cancelledAtStart || !env.pushOk(0)
  {
  }

  // Repetition.

  /** The rounds up to and including the `k`-th are those before the iteration after it. */
  lemma {:induction false} RoundsUpTo(env: Env, n: nat, k: nat)
    requires k < |Rounds(env, n)|
    ensures IsRound(env, Rounds(env, n)[k]) && Rounds(env, n)[k] < n
    ensures Rounds(env, Rounds(env, n)[k] + 1) == Rounds(env, n)[..k + 1]
  {
    hide IsRound;
    if k < |Rounds(env, n - 1)| {
      RoundsUpTo(env, n - 1, k);
      assert Rounds(env, n)[..k + 1] == Rounds(env, n - 1)[..k + 1];
    } else {
      assert Rounds(env, n)[..k + 1] == Rounds(env, n);
    }
  }

  /** And so are their fingerprints. */
  lemma PrintsUpTo(env: Env, n: nat, k: nat)
    requires k < |Rounds(env, n)|
    ensures |Prints(env, n)| == |Rounds(env, n)| && Prints(env, n)[..k + 1] == Prints(env, Rounds(env, n)[k] + 1)
  {
    RoundsUpTo(env, n, k);
    var i := Rounds(env, n)[k];
    PrintsOfRounds(env, n);
    PrintsOfRounds(env, i + 1);
    hide Rounds, Prints, FingerprintOf, CallsOf, IsRound;
    assert forall j | 0 <= j <= k :: Rounds(env, i + 1)[j] == Rounds(env, n)[j];
  }

  /** The rounds `k - n + 1` to `k` make the same calls. */
  ghost predicate SameInARow(env: Env, at: seq<nat>, k: nat, n: nat) {
    k < |at| && n <= k + 1 && forall j | k + 1 - n < j <= k :: SameCalls(CallsOf(env, at[j - 1]), CallsOf(env, at[j]))
  }

  lemma RepeatedIsInARow(env: Env, m: nat, k: nat, n: nat)
    requires ParsedCalls(env) && k < |Rounds(env, m)| && n > 0
    ensures |Prints(env, m)| == |Rounds(env, m)|
    ensures Repeated(Prints(env, m)[..k + 1], n) <==> SameInARow(env, Rounds(env, m), k, n)
  {
    RoundsUpTo(env, m, k);
    PrintsUpTo(env, m, k);
    RepeatedIsAgain(env, Rounds(env, m)[k], n);
    var at := Rounds(env, m);
    hide Rounds, SameCalls, CallsOf, Prints, Repeated, IsRound;
    assert forall j | 0 <= j <= k :: at[..k + 1][j] == at[j];
  }

  /** The tool rounds of a turn are the iterations the provider answered with calls. A round is refused exactly
      when it makes the same calls as the two before it, up to key order in the arguments, and the turn ends
      in `NoProgress` exactly at the first that makes the same calls as the three before it; so no calls
      run in three rounds in a row. */
  lemma RepetitionIsBounded(env: Env, cfg: Config, history: seq<Message>, user: string) returns (n: nat, m: nat)
    requires ParsedCalls(env)
    ensures var r := WholeTurn(env, cfg, history, user);
            && EndsAt(env, cfg, history, user, n, r.outcome, r.st) && RoundsTo(env, cfg, n, m, r.outcome)
            && |r.st.executed| == |Rounds(env, m)|
    ensures var r, at := WholeTurn(env, cfg, history, user), Rounds(env, m);
            && (forall k | 0 <= k < |r.st.executed| :: r.st.executed[k] <==> !SameInARow(env, at, k, 3))
            && (forall k | 0 <= k < |at| - 1 :: !SameInARow(env, at, k, 4))
            && (r.outcome.NoProgress? ==> at != [] && SameInARow(env, at, |at| - 1, 4))
            && (at != [] && SameInARow(env, at, |at| - 1, 4) ==> r.outcome.NoProgress? || r.outcome.EngineError?)
  {
    var r := WholeTurn(env, cfg, history, user);
    n := TurnFollowsItsScript(env, cfg, history, user);
    RoundsAreDecided(env, cfg, history, user);
    hide WholeTurn, EndsAt;
    m := KnownRounds(env, cfg, history, user, n, r.outcome, r.st);
    var at := Rounds(env, m);
    PrintsOfRounds(env, m);
    hide Rounds, SameInARow, Repeated, Prints, RoundsTo, ParsedCalls;
    forall k | 0 <= k < |at|
      ensures Repeated(r.st.rounds[..k + 1], 3) <==> SameInARow(env, at, k, 3)
      ensures Repeated(r.st.rounds[..k + 1], 4) <==> SameInARow(env, at, k, 4)
    {
      RepeatedIsInARow(env, m, k, 3);
      RepeatedIsInARow(env, m, k, 4);
    }
    assert r.st.rounds[..|at|] == r.st.rounds;
    if at == [] { NoneRepeated(r.st.rounds); }
  }

  lemma NoneRepeated(rounds: seq<Fingerprint>)
    requires rounds == []
    ensures !Repeated(rounds, REPEAT_LIMIT + 1)
  {
  }

  /** The books hold the rounds of the first `m` iterations: all there were, unless the last was broken off. */
  predicate RoundsTo(env: Env, cfg: Config, n: nat, m: nat, o: Outcome) {
    n <= m <= n + 1 && m <= cfg.maxIterations && (n < cfg.maxIterations && m == n ==> o.Cancelled? || o.EngineError?)
  }

  lemma KnownRounds(env: Env, cfg: Config, history: seq<Message>, user: string, n: nat, o: Outcome, s: State) returns (m: nat)
    requires EndsAt(env, cfg, history, user, n, o, s)
    ensures RoundsTo(env, cfg, n, m, o) && s.executed == Runs(env, m) && s.rounds == Prints(env, m)
  {
    hide Live, Kept, Showed, SaysPart, EndsFor, CapAsks, CapSays, CapOutcome, GoesOn;
    m := if n < cfg.maxIterations && s.rounds == Prints(env, n + 1) && s.executed == Runs(env, n + 1)
            && !(env.cancelledAtStart || !env.pushOk(0)) then n + 1 else n;
  }
}
