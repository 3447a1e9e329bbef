/** The turn follows its script (src/agent/mod.rs, turn_loop): from the histories it keeps to what its
    surroundings answered. */
module TurnFollows {
  import opened Options
  import opened JsonArgs
  import opened Transcript
  import opened HintRules
  import opened Turn
  import opened TurnLaws
  import opened TurnBounds
  import opened TurnScript

  // Telling.

  /** What the engine takes of `ms`, offered from place `from` on. */
  function Taken(env: Env, ms: seq<Message>, from: nat): seq<Message> {
    if ms == [] then []
    else Taken(env, ms[..|ms| - 1], from) + if env.pushOk(from + |ms| - 1) then [ms[|ms| - 1]] else []
  }

  lemma {:induction false} TakenOfConcat(env: Env, a: seq<Message>, b: seq<Message>, from: nat)
    ensures Taken(env, a + b, from) == Taken(env, a, from) + Taken(env, b, from + |a|)
  {
    if b == [] {
      assert a + b == a;
    } else {
      assert (a + b)[..|a + b| - 1] == a + b[..|b| - 1];
      TakenOfConcat(env, a, b[..|b| - 1], from);
    }
  }

  /** Between `s` and `t` exactly `said` was offered, and what the engine took of it stands in the transcript. */
  predicate Told(env: Env, s: State, t: State, said: seq<Message>) {
    && s.pushes == |s.offered| && t.pushes == |t.offered|
    && t.offered == s.offered + said
    && t.messages == s.messages + Taken(env, said, |s.offered|)
    && t.added == s.added + Taken(env, said, |s.offered|)
  }

  lemma ToldThen(env: Env, s: State, m: State, t: State, a: seq<Message>, b: seq<Message>)
    requires Told(env, s, m, a) && Told(env, m, t, b)
    ensures Told(env, s, t, a + b)
  {
    TakenOfConcat(env, a, b, |s.offered|);
    Concat(s.offered, a, b);
    Concat(s.messages, Taken(env, a, |s.offered|), Taken(env, b, |m.offered|));
    Concat(s.added, Taken(env, a, |s.offered|), Taken(env, b, |m.offered|));
  }

  lemma Concat<T>(a: seq<T>, b: seq<T>, c: seq<T>)
    ensures (a + b) + c == a + (b + c)
  {
  }

  lemma PushTold(env: Env, st: State, m: Message)
    requires st.pushes == |st.offered|
    ensures Told(env, st, Push(env, st, m), [m])
  {
    assert [m][..0] == [] && Taken(env, [m], |st.offered|) == [] + (if env.pushOk(|st.offered|) then [m] else []);
  }

  lemma ToldNothing(env: Env, s: State, t: State)
    requires s.pushes == |s.offered| && t.pushes == s.pushes
    requires t.offered == s.offered && t.messages == s.messages && t.added == s.added
    ensures Told(env, s, t, [])
  {
    assert s.offered + [] == s.offered && s.messages + [] == s.messages && s.added + [] == s.added;
  }

  /** What `t` offered since `s`. */
  function New(s: State, t: State): seq<Message> {
    if |s.offered| <= |t.offered| then t.offered[|s.offered|..] else []
  }

  /** A step from `st` that says `rest` and ends as `verdict` says, unless it is cancelled or the engine fails
      half way. */
  ghost predicate Follows(env: Env, st: State, r: Step, rest: seq<Message>, verdict: Option<Outcome>, cancel: bool, broke: bool) {
    && Told(env, st, r.st, New(st, r.st))
    && match r
       case Going(t) => New(st, t) == rest && verdict.None? && NewTaken(env, st, t) && !cancel && !broke
       case Done(o, t) =>
         if o.Cancelled? then cancel && New(st, t) <= rest
         else if o.EngineError? then New(st, t) <= rest && (broke || LastPushFailed(env, t.offered))
         else New(st, t) == rest && verdict == Some(o) && NewTaken(env, st, t) && !cancel && !broke
  }

  ghost predicate NewTaken(env: Env, s: State, t: State) {
    forall k | |s.offered| <= k < |t.offered| && Insisted(t.offered[k]) :: env.pushOk(k)
  }

  lemma NewIs(env: Env, s: State, t: State, said: seq<Message>)
    requires Told(env, s, t, said)
    ensures New(s, t) == said
  {
  }

  /** First `a` is told, then a step follows `rest`. */
  lemma FollowsThen(env: Env, s: State, m: State, r: Step, a: seq<Message>, rest: seq<Message>,
                    verdict: Option<Outcome>, cancel: bool, broke: bool)
    requires Told(env, s, m, a) && NewTaken(env, s, m) && Follows(env, m, r, rest, verdict, cancel, broke)
    ensures Follows(env, s, r, a + rest, verdict, cancel, broke)
  {
    ToldThen(env, s, m, r.st, a, New(m, r.st));
    NewIs(env, s, r.st, a + New(m, r.st));
    forall k | |s.offered| <= k < |r.st.offered| && Insisted(r.st.offered[k]) && (|m.offered| <= k ==> env.pushOk(k))
      ensures env.pushOk(k)
    {
      if k < |m.offered| { assert r.st.offered[k] == m.offered[k]; }
    }
    if New(m, r.st) <= rest { assert a + New(m, r.st) <= a + rest; }
  }

  /** One message the loop insists on. */
  lemma InsistFollows(env: Env, st: State, m: Message)
    requires st.pushes == |st.offered| && Insisted(m)
    ensures Follows(env, st, Insist(env, st, m), [m], None, false, false)
  {
    PushTold(env, st, m);
    NewIs(env, st, Push(env, st, m), [m]);
    assert [m] <= [m];
  }

  lemma StaysFollows(env: Env, st: State, t: State)
    requires st.pushes == |st.offered| && t.pushes == st.pushes
    requires t.offered == st.offered && t.messages == st.messages && t.added == st.added
    ensures Follows(env, st, Going(t), [], None, false, false)
  {
    ToldNothing(env, st, t);
    NewIs(env, st, t, []);
  }

  lemma EndsFollows(env: Env, st: State, t: State, o: Outcome)
    requires st.pushes == |st.offered| && t.pushes == st.pushes && !o.Cancelled? && !o.EngineError?
    requires t.offered == st.offered && t.messages == st.messages && t.added == st.added
    ensures Follows(env, st, Done(o, t), [], Some(o), false, false)
  {
    ToldNothing(env, st, t);
    NewIs(env, st, t, []);
  }

  // The books as the script knows them.

  /** The fingerprints of the first `n` iterations' rounds. */
  function Prints(env: Env, n: nat): seq<Fingerprint> {
    if n == 0 then [] else Prints(env, n - 1) + (if IsRound(env, n - 1) then [FingerprintOf(CallsOf(env, n - 1))] else [])
  }

  ghost function Runs(env: Env, n: nat): seq<bool> {
    if n == 0 then [] else Runs(env, n - 1) + (if IsRound(env, n - 1) then [Ran(env, n - 1)] else [])
  }

  function ResultsOf(env: Env, i: nat): (r: seq<ToolResult>)
    ensures |r| == |CallsOf(env, i)|
  {
    Results(env, i, |CallsOf(env, i)|)
  }

  ghost function Signatures(env: Env, i: nat): seq<Signature> {
    if i == 0 then []
    else if Ran(env, i - 1) then FailuresAfter(Signatures(env, i - 1), CallsOf(env, i - 1), ResultsOf(env, i - 1), |CallsOf(env, i - 1)|)
    else Signatures(env, i - 1)
  }

  ghost function WallRules(env: Env, i: nat): seq<set<string>> {
    if i == 0 then [] else WallRules(env, i - 1) + if Ran(env, i - 1) && RulesOf(env, i - 1) != {} then [RulesOf(env, i - 1)] else []
  }

  ghost predicate Booked(env: Env, i: nat, st: State) {
    && st.rounds == Prints(env, i) && st.executed == Runs(env, i)
    && st.failures == Signatures(env, i) && st.history == SeenBefore(env, i) && st.blocked == WallRules(env, i)
    && (st.nudged <==> exists k | 0 <= k < i :: IsText(env, k))
  }

  // Rounds.

  lemma {:induction false} PrintsOfRounds(env: Env, n: nat)
    ensures |Prints(env, n)| == |Rounds(env, n)|
    ensures forall j | 0 <= j < |Rounds(env, n)| ::
              Rounds(env, n)[j] < n && IsRound(env, Rounds(env, n)[j])
              && Prints(env, n)[j] == FingerprintOf(CallsOf(env, Rounds(env, n)[j]))
  {
    hide FingerprintOf, CallsOf, IsRound;
    if n > 0 { PrintsOfRounds(env, n - 1); }
  }

  /** The loop's test of repetition is the script's. */
  lemma RepeatedIsAgain(env: Env, i: nat, n: nat)
    requires ParsedCalls(env) && IsRound(env, i) && n > 0
    ensures Repeated(Prints(env, i + 1), n) <==> Again(env, i, n)
  {
    PrintsOfRounds(env, i + 1);
    var at, f := Rounds(env, i + 1), Prints(env, i + 1);
    hide Rounds, Prints, FingerprintOf, CallsOf;
    forall j, k | 0 <= j < |at| && 0 <= k < |at|
      ensures f[j] == f[k] <==> SameCalls(CallsOf(env, at[j]), CallsOf(env, at[k]))
    {
      FingerprintsDecide(CallsOf(env, at[j]), CallsOf(env, at[k]));
    }
    hide SameCalls;
    ChainIsAll(f, n);
    assert forall j | 0 < j < |at| :: f[j - 1] == f[j] <==> SameCalls(CallsOf(env, at[j - 1]), CallsOf(env, at[j]));
  }

  /** Equal neighbours all along are equal to the last. */
  lemma ChainIsAll(f: seq<Fingerprint>, n: nat)
    requires n > 0
    ensures Repeated(f, n) <==> n <= |f| && forall j | |f| - n < j < |f| :: f[j - 1] == f[j]
  {
    if n <= |f| && forall j | |f| - n < j < |f| :: f[j - 1] == f[j] {
      ChainDown(f, |f| - n);
    }
  }

  lemma {:induction false} ChainDown(f: seq<Fingerprint>, low: nat)
    requires low < |f| && forall j | low < j < |f| :: f[j - 1] == f[j]
    ensures forall i | low <= i < |f| :: f[i] == f[|f| - 1]
    decreases |f| - low
  {
    if low + 1 < |f| {
      ChainDown(f, low + 1);
      assert f[low + 1 - 1] == f[low + 1];
    }
  }

  // Results.

  lemma {:induction false} CountIs(env: Env, i: nat, k: nat, call: ToolCall, e: ToolError)
    requires ParsedCalls(env) && call.args.WellFormed() && k <= |CallsOf(env, i)|
    ensures Count(FailuresAfter(Signatures(env, i), CallsOf(env, i), ResultsOf(env, i), k), SignatureOf(call, e))
            == Count(Signatures(env, i), SignatureOf(call, e)) + FailuresIn(env, i, k, call, e)
  {
    if k > 0 {
      CountIs(env, i, k - 1, call, e);
      if FailedAt(env, i, k - 1) {
        SignaturesDecide(CallsOf(env, i)[k - 1], env.tool(i, k - 1).error, call, e);
        hide SignatureOf, SameFailure, Signatures;
        OneMoreSignature(FailuresAfter(Signatures(env, i), CallsOf(env, i), ResultsOf(env, i), k - 1),
                         SignatureOf(CallsOf(env, i)[k - 1], env.tool(i, k - 1).error));
      }
    }
  }

  lemma OneMoreSignature(failures: seq<Signature>, s: Signature)
    ensures forall t: Signature :: Count(failures + [s], t) == Count(failures, t) + (if t == s then 1 else 0)
  {
  }

  lemma {:induction false} CountBefore(env: Env, i: nat, call: ToolCall, e: ToolError)
    requires ParsedCalls(env) && call.args.WellFormed()
    ensures Count(Signatures(env, i), SignatureOf(call, e)) == FailuresBefore(env, i, call, e)
  {
    hide SignatureOf, Ran;
    if i > 0 {
      CountBefore(env, i - 1, call, e);
      CountIs(env, i - 1, |CallsOf(env, i - 1)|, call, e);
    }
  }

  /** After `k + 1` results the failure of call `k` has happened as often as the script says. */
  lemma StrikeIsCount(env: Env, i: nat, k: nat)
    requires ParsedCalls(env) && k < |CallsOf(env, i)| && FailedAt(env, i, k)
    ensures Count(FailuresAfter(Signatures(env, i), CallsOf(env, i), ResultsOf(env, i), k + 1),
                  SignatureOf(CallsOf(env, i)[k], env.tool(i, k).error)) == Strike(env, i, k)
  {
    var call, e := CallsOf(env, i)[k], env.tool(i, k).error;
    hide SignatureOf, FailuresIn, FailuresBefore, FailuresAfter;
    CountIs(env, i, k + 1, call, e);
    CountBefore(env, i, call, e);
  }

  lemma {:induction false} HistoryIs(env: Env, i: nat, k: nat)
    requires k <= |CallsOf(env, i)|
    ensures HistoryAfter(SeenBefore(env, i), CallsOf(env, i), ResultsOf(env, i), k) == SeenBefore(env, i) + SeenIn(env, i, k)
  {
    hide SeenBefore;
    if k == 0 {
      assert SeenBefore(env, i) + SeenIn(env, i, 0) == SeenBefore(env, i);
    } else {
      HistoryIs(env, i, k - 1);
      assert Observed(CallsOf(env, i)[k - 1], ResultsOf(env, i)[k - 1]) == Seen(env, i, k - 1);
      assert SeenIn(env, i, k) == SeenIn(env, i, k - 1) + [Seen(env, i, k - 1)];
      Concat(SeenBefore(env, i), SeenIn(env, i, k - 1), [Seen(env, i, k - 1)]);
    }
  }

  lemma {:induction false} HintsAre(env: Env, i: nat, k: nat)
    requires k <= |CallsOf(env, i)|
    ensures RoundHints(env.shapes, SeenBefore(env, i), CallsOf(env, i), ResultsOf(env, i), k) == HintsOf(env, i, k)
  {
    hide SeenBefore, Given, SeenIn, HistoryAfter;
    if k > 0 {
      HintsAre(env, i, k - 1);
      HistoryIs(env, i, k - 1);
      assert Observed(CallsOf(env, i)[k - 1], ResultsOf(env, i)[k - 1]) == Seen(env, i, k - 1);
    }
  }

  lemma {:induction false} HaltIs(env: Env, i: nat, k: nat)
    requires ParsedCalls(env) && k <= |CallsOf(env, i)|
    ensures RoundHalt(Signatures(env, i), CallsOf(env, i), ResultsOf(env, i), k) == FifthFailure(env, i, k)
  {
    hide Signatures, SignatureOf, Strike, FailuresAfter;
    if k > 0 {
      HaltIs(env, i, k - 1);
      if FailedAt(env, i, k - 1) { StrikeIsCount(env, i, k - 1); }
    }
  }

  lemma RulesAre(env: Env, i: nat)
    ensures Rules(ResultsOf(env, i)) == RulesOf(env, i)
    ensures Reasons(ResultsOf(env, i)) == ReasonsOf(env, i, |CallsOf(env, i)|)
  {
    var results := ResultsOf(env, i);
    forall g | g in Rules(results) ensures g in RulesOf(env, i) {
      var r :| r in results && r.Err? && r.error.Blocked? && r.error.guidance == g;
      var j :| 0 <= j < |results| && results[j] == r;
      assert BlockedAt(env, i, j);
    }
    forall g | g in RulesOf(env, i) ensures g in Rules(results) {
      var j :| 0 <= j < |CallsOf(env, i)| && BlockedAt(env, i, j) && env.tool(i, j).error.guidance == g;
      assert results[j] in results;
    }
    ReasonsAre(env, i, |results|);
    assert results[..|results|] == results;
  }

  lemma {:induction false} ReasonsAre(env: Env, i: nat, k: nat)
    requires k <= |CallsOf(env, i)|
    ensures Reasons(ResultsOf(env, i)[..k]) == ReasonsOf(env, i, k)
  {
    if k > 0 {
      var results := ResultsOf(env, i);
      ReasonsAre(env, i, k - 1);
      assert results[..k][..k - 1] == results[..k - 1];
    }
  }

  // What a round says.

  lemma DeliverTold(env: Env, st: State, m: Message)
    requires st.pushes == |st.offered|
    ensures Told(env, st, Deliver(env, st, m), [m])
  {
    PushTold(env, st, m);
  }

  lemma OneMoreTold(env: Env, i: nat, s: State, k: nat)
    requires ParsedCalls(env) && Ran(env, i) && k < |CallsOf(env, i)| && s.pushes == |s.offered|
    requires s.failures == FailuresAfter(Signatures(env, i), CallsOf(env, i), ResultsOf(env, i), k)
    ensures Told(env, s, RecordOne(env, s, CallsOf(env, i)[k], ResultsOf(env, i)[k]), [Tool(CallsOf(env, i)[k].id, TextOf(env, i, k))])
  {
    var call, result := CallsOf(env, i)[k], ResultsOf(env, i)[k];
    var noted := Noted(s, call, result);
    assert noted.failures == FailuresAfter(Signatures(env, i), CallsOf(env, i), ResultsOf(env, i), k + 1);
    if FailedAt(env, i, k) { StrikeIsCount(env, i, k); }
    hide SignatureOf, Strike, FailuresAfter, Signatures;
    assert Said(noted, call, result) == TextOf(env, i, k);
    DeliverTold(env, noted, Tool(call.id, TextOf(env, i, k)));
  }

  lemma {:induction false} RecordedTold(env: Env, i: nat, st: State, k: nat)
    requires ParsedCalls(env) && Ran(env, i) && k <= |CallsOf(env, i)| && st.pushes == |st.offered|
    requires st.failures == Signatures(env, i)
    ensures Told(env, st, Recorded(env, st, CallsOf(env, i), ResultsOf(env, i), k), AnswersOf(env, i, k))
  {
    hide TextOf, RecordOne, Signatures, FailuresAfter, Told;
    if k == 0 {
      ToldNothing(env, st, st);
      assert AnswersOf(env, i, 0) == [];
    } else {
      var s := Recorded(env, st, CallsOf(env, i), ResultsOf(env, i), k - 1);
      RecordedTold(env, i, st, k - 1);
      RecordedFrame(env, st, CallsOf(env, i), ResultsOf(env, i), k - 1);
      ToldCounts(env, st, s, AnswersOf(env, i, k - 1));
      OneMoreTold(env, i, s, k - 1);
      ToldThen(env, st, s, RecordOne(env, s, CallsOf(env, i)[k - 1], ResultsOf(env, i)[k - 1]),
               AnswersOf(env, i, k - 1), [Tool(CallsOf(env, i)[k - 1].id, TextOf(env, i, k - 1))]);
      assert AnswersOf(env, i, k) == AnswersOf(env, i, k - 1) + [Tool(CallsOf(env, i)[k - 1].id, TextOf(env, i, k - 1))];
    }
  }

  lemma ToldCounts(env: Env, s: State, t: State, said: seq<Message>)
    requires Told(env, s, t, said)
    ensures t.pushes == |t.offered|
  {
  }

  /** Tool results are not insisted on. */
  lemma ResultsNeedNotArrive(env: Env, i: nat, s: State, t: State, k: nat)
    requires Ran(env, i) && k <= |CallsOf(env, i)| && Told(env, s, t, AnswersOf(env, i, k))
    ensures NewTaken(env, s, t)
  {
    forall p | |s.offered| <= p < |t.offered| ensures !Insisted(t.offered[p]) {
      assert t.offered[p] == AnswersOf(env, i, k)[p - |s.offered|];
    }
  }

  // What ends a round.

  /** How a round that ran ends the turn, if it does. */
  ghost function RanVerdict(env: Env, i: nat): Option<Outcome> {
    var n := |CallsOf(env, i)|;
    if FifthFailure(env, i, n).Some? then FifthFailure(env, i, n)
    else if WallEnds(env, i) then Some(PolicyHalt(ReasonsOf(env, i, n)))
    else None
  }

  ghost function PolicyRemark(env: Env, i: nat): seq<Message> {
    if RulesOf(env, i) != {} && !WallEnds(env, i) then [System(Fixed(PolicyStop))] else []
  }

  lemma {:induction false} WallRulesOfWalls(env: Env, i: nat)
    ensures |WallRules(env, i)| == |Walls(env, i)|
    ensures forall k | 0 <= k < |Walls(env, i)| :: WallRules(env, i)[k] == RulesOf(env, Walls(env, i)[k])
  {
    hide RulesOf, Ran;
    if i > 0 { WallRulesOfWalls(env, i - 1); }
  }

  lemma PolicyFollows(env: Env, i: nat, st: State)
    requires st.pushes == |st.offered| && st.blocked == WallRules(env, i)
    ensures Follows(env, st, Policy(env, st, ResultsOf(env, i)), PolicyRemark(env, i),
                    if WallEnds(env, i) then Some(PolicyHalt(ReasonsOf(env, i, |CallsOf(env, i)|))) else None, false, false)
  {
    RulesAre(env, i);
    WallRulesOfWalls(env, i);
    var rules := RulesOf(env, i);
    var next := st.(blocked := st.blocked + [rules]);
    hide Walls, WallRules, Rules, RulesOf, Reasons, ReasonsOf, Follows, Insist;
    assert rules != {} ==> (Halts(st.blocked, rules) <==> WallEnds(env, i));
    if rules == {} {
      StaysFollows(env, st, st);
    } else if Halts(st.blocked, rules) {
      EndsFollows(env, st, next, PolicyHalt(Reasons(ResultsOf(env, i))));
    } else {
      InsistFollows(env, next, System(Fixed(PolicyStop)));
      SameStart(env, next, st, Insist(env, next, System(Fixed(PolicyStop))), [System(Fixed(PolicyStop))], None, false, false);
    }
  }

  /** What a step follows depends on its start's transcript only. */
  lemma SameStart(env: Env, s: State, t: State, r: Step, rest: seq<Message>, verdict: Option<Outcome>, cancel: bool, broke: bool)
    requires Follows(env, s, r, rest, verdict, cancel, broke)
    requires t.pushes == s.pushes && t.offered == s.offered && t.messages == s.messages && t.added == s.added
    ensures Follows(env, t, r, rest, verdict, cancel, broke)
  {
  }

  lemma FifthIsToolHalt(env: Env, i: nat, k: nat)
    requires k <= |CallsOf(env, i)|
    ensures FifthFailure(env, i, k).Some? ==> FifthFailure(env, i, k).value.ToolHalt?
  {
    hide Strike;
  }

  ghost function HintRemark(env: Env, i: nat): seq<Message> {
    var hints := HintsOf(env, i, |CallsOf(env, i)|);
    if hints == [] then [] else [System(Hints(hints))]
  }

  lemma HintedFollows(env: Env, i: nat, st: State)
    requires st.pushes == |st.offered|
    ensures Follows(env, st, Hinted(env, st, HintsOf(env, i, |CallsOf(env, i)|)), HintRemark(env, i), None, false, false)
    ensures Hinted(env, st, HintsOf(env, i, |CallsOf(env, i)|)).st.blocked == st.blocked
  {
    var hints := HintsOf(env, i, |CallsOf(env, i)|);
    if hints == [] { StaysFollows(env, st, st); } else { InsistFollows(env, st, System(Hints(hints))); }
  }

  lemma ConcludeFollows(env: Env, i: nat, st: State)
    requires Ran(env, i) && st.pushes == |st.offered| && st.blocked == WallRules(env, i)
    ensures var n := |CallsOf(env, i)|;
            Follows(env, st, Conclude(env, st, HintsOf(env, i, n), FifthFailure(env, i, n), ResultsOf(env, i)),
                    Remarks(env, i), RanVerdict(env, i), false, false)
  {
    var n := |CallsOf(env, i)|;
    var halt := FifthFailure(env, i, n);
    FifthIsToolHalt(env, i, n);
    HintedFollows(env, i, st);
    var hinted := Hinted(env, st, HintsOf(env, i, n));
    assert Remarks(env, i) == HintRemark(env, i) + (if halt.None? then PolicyRemark(env, i) else []);
    hide Hinted, HintRemark, PolicyRemark, FifthFailure, Policy, WallRules, HintsOf, WallEnds, RulesOf, Remarks;
    if hinted.Going? {
      GoingTold(env, st, hinted, HintRemark(env, i));
      if halt.Some? {
        EndsFollows(env, hinted.st, hinted.st, halt.value);
        FollowsThen(env, st, hinted.st, Done(halt.value, hinted.st), HintRemark(env, i), [], halt, false, false);
      } else {
        PolicyFollows(env, i, hinted.st);
        FollowsThen(env, st, hinted.st, Policy(env, hinted.st, ResultsOf(env, i)), HintRemark(env, i), PolicyRemark(env, i),
                    RanVerdict(env, i), false, false);
      }
    } else {
      BrokenOff(env, st, hinted, HintRemark(env, i), if halt.None? then PolicyRemark(env, i) else [], None, RanVerdict(env, i), false, false);
    }
  }

  lemma GoingTold(env: Env, st: State, r: Step, said: seq<Message>)
    requires r.Going? && Follows(env, st, r, said, None, false, false)
    ensures Told(env, st, r.st, said) && NewTaken(env, st, r.st)
  {
  }

  /** A step broken off by the engine or a cancellation was on its way to say more. */
  lemma BrokenOff(env: Env, st: State, r: Step, said: seq<Message>, rest: seq<Message>,
                  verdict: Option<Outcome>, later: Option<Outcome>, cancel: bool, broke: bool)
    requires r.Done? && (r.outcome.Cancelled? || r.outcome.EngineError? || verdict.None?)
    requires Follows(env, st, r, said, verdict, cancel, broke)
    ensures Follows(env, st, r, said + rest, later, cancel, broke)
  {
    assert said <= said + rest;
  }

  lemma ExecuteFollows(env: Env, i: nat, st: State)
    requires ParsedCalls(env) && Ran(env, i) && st.pushes == |st.offered|
    requires st.failures == Signatures(env, i) && st.history == SeenBefore(env, i) && st.blocked == WallRules(env, i)
    ensures Follows(env, st, Execute(env, st, i, CallsOf(env, i)), AnswersOf(env, i, |CallsOf(env, i)|) + Remarks(env, i),
                    RanVerdict(env, i), env.toolsCancelled(i), false)
  {
    var calls, n := CallsOf(env, i), |CallsOf(env, i)|;
    var results := ResultsOf(env, i);
    hide Recorded, RoundHints, RoundHalt, Conclude, Remarks, RanVerdict, FifthFailure, HintsOf, Signatures, SeenBefore, WallRules;
    if env.toolsCancelled(i) {
      ToldNothing(env, st, st);
      NewIs(env, st, st, []);
    } else {
      var recorded := Recorded(env, st, calls, results, n);
      RecordedTold(env, i, st, n);
      RecordedFrame(env, st, calls, results, n);
      ResultsNeedNotArrive(env, i, st, recorded, n);
      HintsAre(env, i, n);
      HaltIs(env, i, n);
      ToldCounts(env, st, recorded, AnswersOf(env, i, n));
      ConcludeFollows(env, i, recorded);
      FollowsThen(env, st, recorded, Conclude(env, recorded, HintsOf(env, i, n), FifthFailure(env, i, n), results),
                  AnswersOf(env, i, n), Remarks(env, i), RanVerdict(env, i), false, false);
    }
  }

  // Refused rounds.

  lemma {:induction false} RefuseFollows(env: Env, i: nat, st: State, k: nat)
    requires Refused(env, i) && k <= |CallsOf(env, i)| && st.pushes == |st.offered|
    ensures Follows(env, st, Refuse(env, st, CallsOf(env, i), k), AnswersOf(env, i, k), None, false, false)
  {
    hide Follows, Insist, Again;
    if k == 0 {
      StaysFollows(env, st, st);
      assert AnswersOf(env, i, 0) == [];
    } else {
      var r := Refuse(env, st, CallsOf(env, i), k - 1);
      var m := Tool(CallsOf(env, i)[k - 1].id, RepeatRefusal);
      RefuseFollows(env, i, st, k - 1);
      RefuseFrame(env, st, CallsOf(env, i), k - 1);
      assert AnswersOf(env, i, k) == AnswersOf(env, i, k - 1) + [m];
      if r.Going? {
        GoingTold(env, st, r, AnswersOf(env, i, k - 1));
        ToldCounts(env, st, r.st, AnswersOf(env, i, k - 1));
        InsistFollows(env, r.st, m);
        FollowsThen(env, st, r.st, Insist(env, r.st, m), AnswersOf(env, i, k - 1), [m], None, false, false);
      } else {
        BrokenOff(env, st, r, AnswersOf(env, i, k - 1), [m], None, None, false, false);
      }
    }
  }

  /** A step that would go on ends the turn instead. */
  lemma EndInstead(env: Env, st: State, r: Step, rest: seq<Message>, o: Outcome)
    requires r.Going? && Follows(env, st, r, rest, None, false, false) && !o.Cancelled? && !o.EngineError?
    ensures Follows(env, st, Done(o, r.st), rest, Some(o), false, false)
  {
  }

  lemma ToolRoundFollows(env: Env, i: nat, st: State)
    requires ParsedCalls(env) && IsRound(env, i) && st.pushes == |st.offered| && st.rounds == Prints(env, i)
    requires st.failures == Signatures(env, i) && st.history == SeenBefore(env, i) && st.blocked == WallRules(env, i)
    ensures Follows(env, st, ToolRound(env, st, i, CallsOf(env, i)), AnswersOf(env, i, |CallsOf(env, i)|) + Remarks(env, i),
                    if Refused(env, i) then (if Again(env, i, 4) then Some(NoProgress) else None) else RanVerdict(env, i),
                    Ran(env, i) && env.toolsCancelled(i), false)
  {
    var calls, n := CallsOf(env, i), |CallsOf(env, i)|;
    var rounds := st.rounds + [FingerprintOf(calls)];
    var next := st.(rounds := rounds, executed := st.executed + [!Repeated(rounds, REPEAT_LIMIT)]);
    assert rounds == Prints(env, i + 1);
    RepeatedIsAgain(env, i, 3);
    RepeatedIsAgain(env, i, 4);
    hide Follows, Execute, Refuse, Prints, FingerprintOf, Repeated, Again, RanVerdict, Signatures, SeenBefore, WallRules, AnswersOf;
    if Refused(env, i) {
      RefuseFollows(env, i, next, n);
      var r := Refuse(env, next, calls, n);
      RefuseFrame(env, next, calls, n);
      assert AnswersOf(env, i, n) + Remarks(env, i) == AnswersOf(env, i, n);
      hide Remarks;
      SameStart(env, next, st, r, AnswersOf(env, i, n), None, false, false);
      if r.Going? && Again(env, i, 4) {
        EndInstead(env, st, r, AnswersOf(env, i, n), NoProgress);
      } else if r.Done? {
        BrokenOff(env, st, r, AnswersOf(env, i, n), [], None, if Again(env, i, 4) then Some(NoProgress) else None, false, false);
        assert AnswersOf(env, i, n) + [] == AnswersOf(env, i, n);
      }
    } else {
      ExecuteFollows(env, i, next);
      SameStart(env, next, st, Execute(env, next, i, calls), AnswersOf(env, i, n) + Remarks(env, i), RanVerdict(env, i),
                env.toolsCancelled(i), false);
    }
  }

  // One iteration.

  /** The block of iteration `i` after its reminder. */
  ghost function ReplyOf(env: Env, cfg: Config, i: nat): seq<Message> {
    match env.chat(i)
    case ChatAnswered(_, _, TextReply(text)) =>
      [Assistant(Plain(text))] + (if Held(env, cfg, i) then [System(Fixed(ConfirmReply))] else [])
    case ChatAnswered(_, _, CallsReply(text, calls)) =>
      [ToolCalls(text, calls)] + AnswersOf(env, i, |CallsOf(env, i)|) + Remarks(env, i)
    case _ => []
  }

  lemma BlockIsReply(env: Env, cfg: Config, i: nat)
    ensures Block(env, cfg, i) == Reminder(cfg, i) + ReplyOf(env, cfg, i)
  {
    hide AnswersOf, Remarks, Held;
  }

  lemma TextFollows(env: Env, cfg: Config, i: nat, st: State, text: string)
    requires st.pushes == |st.offered| && (st.nudged <==> exists k | 0 <= k < i :: IsText(env, k))
    requires env.chat(i).ChatAnswered? && env.chat(i).response == TextReply(text)
    ensures Follows(env, st, TextRound(env, cfg, st, i, text),
                    [Assistant(Plain(text))] + (if Held(env, cfg, i) then [System(Fixed(ConfirmReply))] else []),
                    if Held(env, cfg, i) then None else Some(Text(text)), false, false)
  {
    var m, ask := Assistant(Plain(text)), System(Fixed(ConfirmReply));
    var said := Insist(env, st, m);
    InsistFollows(env, st, m);
    InsistFrame(env, st, m);
    assert Held(env, cfg, i) <==> cfg.reply == Confirm && !st.nudged && i + 1 < cfg.maxIterations;
    hide Follows, Insist, Held;
    if said.Done? {
      BrokenOff(env, st, said, [m], if Held(env, cfg, i) then [ask] else [], None, if Held(env, cfg, i) then None else Some(Text(text)), false, false);
    } else {
      GoingTold(env, st, said, [m]);
      ToldCounts(env, st, said.st, [m]);
      if Held(env, cfg, i) {
        var nudged := said.st.(nudged := true);
        InsistFollows(env, nudged, ask);
        SameStart(env, nudged, said.st, Insist(env, nudged, ask), [ask], None, false, false);
        FollowsThen(env, st, said.st, Insist(env, nudged, ask), [m], [ask], None, false, false);
      } else {
        EndInstead(env, st, said, [m], Text(text));
        assert [m] + [] == [m];
      }
    }
  }

  lemma CallsFollow(env: Env, i: nat, st: State, text: string)
    requires ParsedCalls(env) && IsRound(env, i) && st.pushes == |st.offered| && st.rounds == Prints(env, i)
    requires st.failures == Signatures(env, i) && st.history == SeenBefore(env, i) && st.blocked == WallRules(env, i)
    ensures Follows(env, st, CallsRound(env, st, i, text, CallsOf(env, i)),
                    [ToolCalls(text, CallsOf(env, i))] + AnswersOf(env, i, |CallsOf(env, i)|) + Remarks(env, i),
                    if Refused(env, i) then (if Again(env, i, 4) then Some(NoProgress) else None) else RanVerdict(env, i),
                    Ran(env, i) && env.toolsCancelled(i), false)
  {
    var m := ToolCalls(text, CallsOf(env, i));
    var rest := AnswersOf(env, i, |CallsOf(env, i)|) + Remarks(env, i);
    var verdict := if Refused(env, i) then (if Again(env, i, 4) then Some(NoProgress) else None) else RanVerdict(env, i);
    var said := Insist(env, st, m);
    InsistFollows(env, st, m);
    InsistFrame(env, st, m);
    hide Follows, Insist, ToolRound, RanVerdict, Again, Remarks, AnswersOf, Signatures, SeenBefore, WallRules, Prints;
    Concat([m], AnswersOf(env, i, |CallsOf(env, i)|), Remarks(env, i));
    if said.Done? {
      BrokenOff(env, st, said, [m], rest, None, verdict, false, false);
      LateCancel(env, st, said, [m] + rest, verdict, Ran(env, i) && env.toolsCancelled(i), false);
    } else {
      GoingTold(env, st, said, [m]);
      ToldCounts(env, st, said.st, [m]);
      ToolRoundFollows(env, i, said.st);
      FollowsThen(env, st, said.st, ToolRound(env, said.st, i, CallsOf(env, i)), [m], rest, verdict,
                  Ran(env, i) && env.toolsCancelled(i), false);
    }
  }

  /** An engine that fails leaves later causes out of account. */
  lemma LateCancel(env: Env, st: State, r: Step, rest: seq<Message>, verdict: Option<Outcome>, cancel: bool, broke: bool)
    requires r.Done? && r.outcome.EngineError? && Follows(env, st, r, rest, verdict, false, false)
    ensures Follows(env, st, r, rest, verdict, cancel, broke)
  {
  }

  /** The provider's answer, or a cancellation while it is awaited, cuts the iteration short. */
  ghost predicate CutIn(env: Env, i: nat) {
    env.chat(i).ChatCancelled? || (Ran(env, i) && env.toolsCancelled(i))
  }

  lemma ReactFollows(env: Env, cfg: Config, i: nat, st: State)
    requires ParsedCalls(env) && st.pushes == |st.offered| && Booked(env, i, st)
    ensures Follows(env, st, React(env, cfg, st, i, env.chat(i)), ReplyOf(env, cfg, i), Verdict(env, cfg, i), CutIn(env, i), false)
  {
    hide TextRound, CallsRound, AnswersOf, Remarks, Held, Refused, Again, FifthFailure, WallEnds, ReasonsOf;
    hide Prints, Runs, Signatures, SeenBefore, WallRules;
    match env.chat(i) {
      case ChatCancelled =>
        ToldNothing(env, st, st);
        NewIs(env, st, st, []);
      case ChatFailed(_) => EndsFollows(env, st, st, ProviderError);
      case ChatAnswered(_, _, TextReply(text)) => TextFollows(env, cfg, i, st, text);
      case ChatAnswered(_, _, CallsReply(text, calls)) => CallsFollow(env, i, st, text);
    }
  }

  lemma PrepareFollows(env: Env, cfg: Config, st: State, i: nat)
    requires st.pushes == |st.offered| && !env.compaction(i).CompactionFailed?
    ensures Follows(env, Compact(st, env.compaction(i)), Prepare(env, cfg, st, i), Reminder(cfg, i), None, false, false)
    ensures var t := Prepare(env, cfg, st, i).st; SameBooked(st, t)
  {
    var from := Compact(st, env.compaction(i));
    if i > 0 && i == cfg.maxIterations / 2 {
      InsistFollows(env, from.(checkpointed := true), System(Fixed(Midpoint)));
      SameStart(env, from.(checkpointed := true), from, Prepare(env, cfg, st, i), [System(Fixed(Midpoint))], None, false, false);
    } else {
      StaysFollows(env, from, from);
    }
  }

  /** The books the script reads are the same. */
  predicate SameBooked(s: State, t: State) {
    && t.rounds == s.rounds && t.executed == s.executed && t.failures == s.failures
    && t.history == s.history && t.blocked == s.blocked && t.nudged == s.nudged
  }

  lemma IterateFollows(env: Env, cfg: Config, i: nat, st: State)
    requires ParsedCalls(env) && st.pushes == |st.offered| && Booked(env, i, st)
    requires !env.cancelled(i) && !env.compaction(i).CompactionFailed?
    ensures Follows(env, Compact(st, env.compaction(i)), Iterate(env, cfg, st, i), Block(env, cfg, i), Verdict(env, cfg, i),
                    CutIn(env, i), env.assembleFails(i))
  {
    var start := st.(iterations := i + 1);
    var from, ready := Compact(start, env.compaction(i)), Prepare(env, cfg, start, i);
    var rest, verdict := ReplyOf(env, cfg, i), Verdict(env, cfg, i);
    BlockIsReply(env, cfg, i);
    PrepareFollows(env, cfg, start, i);
    assert SameBooked(st, start);
    BookedMoves(env, i, st, start);
    BookedMoves(env, i, start, ready.st);
    PrepareEnds(env, cfg, start, i);
    hide Follows, Prepare, React, Booked, ReplyOf, Verdict, Block, Reminder, CutIn, SameBooked;
    if ready.Done? {
      BrokenOff(env, from, ready, Reminder(cfg, i), rest, None, verdict, false, false);
      LateCancel(env, from, ready, Reminder(cfg, i) + rest, verdict, CutIn(env, i), env.assembleFails(i));
    } else {
      GoingTold(env, from, ready, Reminder(cfg, i));
      ToldCounts(env, from, ready.st, Reminder(cfg, i));
      if env.assembleFails(i) {
        CutBefore(env, ready.st, rest, verdict, CutIn(env, i));
        FollowsThen(env, from, ready.st, Done(EngineError, ready.st), Reminder(cfg, i), rest, verdict, CutIn(env, i), true);
      } else {
        var asked := Asked(ready.st, env.chat(i));
        AskedBooks(ready.st, env.chat(i));
        BookedMoves(env, i, ready.st, asked);
        ReactFollows(env, cfg, i, asked);
        SameStart(env, asked, ready.st, React(env, cfg, asked, i, env.chat(i)), rest, verdict, CutIn(env, i), false);
        FollowsThen(env, from, ready.st, React(env, cfg, asked, i, env.chat(i)), Reminder(cfg, i), rest, verdict, CutIn(env, i), false);
      }
    }
    SameStart(env, from, Compact(st, env.compaction(i)), Iterate(env, cfg, st, i), Block(env, cfg, i), verdict, CutIn(env, i), env.assembleFails(i));
  }

  lemma BookedMoves(env: Env, i: nat, s: State, t: State)
    ensures SameBooked(s, t) && Booked(env, i, s) ==> Booked(env, i, t)
  {
    hide Prints, Runs, Signatures, SeenBefore, WallRules;
  }

  lemma AskedBooks(st: State, chat: Chat)
    ensures SameBooked(st, Asked(st, chat)) && Asked(st, chat).pushes == st.pushes && Asked(st, chat).offered == st.offered
    ensures Asked(st, chat).messages == st.messages && Asked(st, chat).added == st.added
  {
  }

  lemma PrepareEnds(env: Env, cfg: Config, st: State, i: nat)
    ensures Prepare(env, cfg, st, i).Done? ==> Prepare(env, cfg, st, i).outcome.EngineError?
  {
  }

  lemma CutBefore(env: Env, st: State, rest: seq<Message>, verdict: Option<Outcome>, cancel: bool)
    requires st.pushes == |st.offered|
    ensures Follows(env, st, Done(EngineError, st), rest, verdict, cancel, true)
  {
    ToldNothing(env, st, st);
    NewIs(env, st, st, []);
  }
}
