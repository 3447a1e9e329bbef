/** A whole turn written out from what its surroundings answer, iteration by iteration, with no state
    carried along (src/agent/mod.rs, turn_loop): what it says, what it refuses, and how it ends. */
module TurnScript {
  import opened Options
  import opened JsonArgs
  import opened Transcript
  import opened HintRules
  import opened Turn

  // Calls.

  /** Arguments that agree as values, unparseable text counting as the string that spells it. */
  ghost predicate SameArgs(a: Args, b: Args) {
    match (a, b)
    case (Parsed(u), Parsed(v)) => SameValue(u, v)
    case (Raw(s), Raw(t)) => s == t
    case (Raw(s), Parsed(v)) => v == Str(s)
    case (Parsed(u), Raw(t)) => u == Str(t)
  }

  /** The same tools in the same order, with arguments that agree. */
  ghost predicate SameCalls(a: seq<ToolCall>, b: seq<ToolCall>) {
    |a| == |b| && forall k | 0 <= k < |a| :: a[k].name == b[k].name && SameArgs(a[k].args, b[k].args)
  }

  /** Arguments that print alike once their keys are sorted. */
  ghost predicate SameText(a: Args, b: Args) {
    match (a, b)
    case (Parsed(u), Parsed(v)) => Same(u, v)
    case (Raw(s), Raw(t)) => s == t
    case (_, _) => false
  }

  /** The same call failing in the same way. */
  ghost predicate SameFailure(a: ToolCall, e: ToolError, b: ToolCall, f: ToolError) {
    a.name == b.name && SameText(a.args, b.args) && ErrorClass(e) == ErrorClass(f)
  }

  ghost predicate WellFormedCalls(calls: seq<ToolCall>) {
    forall k | 0 <= k < |calls| :: calls[k].args.WellFormed()
  }

  /** What the provider sends is parsed: no object names a key twice. */
  ghost predicate ParsedCalls(env: Env) {
    forall i: nat :: WellFormedCalls(CallsOf(env, i))
  }

  // Rounds.

  predicate IsRound(env: Env, i: nat) {
    env.chat(i).ChatAnswered? && env.chat(i).response.CallsReply?
  }

  predicate IsText(env: Env, i: nat) {
    env.chat(i).ChatAnswered? && env.chat(i).response.TextReply?
  }

  function CallsOf(env: Env, i: nat): seq<ToolCall> {
    if IsRound(env, i) then env.chat(i).response.calls else []
  }

  /** The first `n` iterations' tool rounds. */
  function Rounds(env: Env, n: nat): seq<nat> {
    if n == 0 then [] else Rounds(env, n - 1) + (if IsRound(env, n - 1) then [n - 1] else [])
  }

  /** The last `n` tool rounds up to iteration `i`, itself one, make the same calls. */
  ghost predicate Again(env: Env, i: nat, n: nat) {
    var at := Rounds(env, i + 1);
    && IsRound(env, i) && n <= |at|
    && forall j | |at| - n < j < |at| :: SameCalls(CallsOf(env, at[j - 1]), CallsOf(env, at[j]))
  }

  /** A round is refused when it is the third in a row with the same calls. */
  ghost predicate Refused(env: Env, i: nat) {
    Again(env, i, 3)
  }

  ghost predicate Ran(env: Env, i: nat) {
    IsRound(env, i) && !Refused(env, i)
  }

  // Failures and what the model is told of each result.

  predicate FailedAt(env: Env, i: nat, j: nat) {
    env.tool(i, j).Err? && !env.tool(i, j).error.Blocked?
  }

  /** How often `call` failed with `e` among the first `j` results of round `i`. */
  ghost function FailuresIn(env: Env, i: nat, j: nat, call: ToolCall, e: ToolError): nat
    requires j <= |CallsOf(env, i)|
  {
    if j == 0 then 0
    else FailuresIn(env, i, j - 1, call, e)
         + if FailedAt(env, i, j - 1) && SameFailure(CallsOf(env, i)[j - 1], env.tool(i, j - 1).error, call, e) then 1 else 0
  }

  /** And in the rounds that ran before iteration `i`. */
  ghost function FailuresBefore(env: Env, i: nat, call: ToolCall, e: ToolError): nat {
    if i == 0 then 0
    else FailuresBefore(env, i - 1, call, e)
         + if Ran(env, i - 1) then FailuresIn(env, i - 1, |CallsOf(env, i - 1)|, call, e) else 0
  }

  /** How often the failure of call `j` of round `i` has then happened in the turn. */
  ghost function Strike(env: Env, i: nat, j: nat): nat
    requires j < |CallsOf(env, i)| && FailedAt(env, i, j)
  {
    var call, e := CallsOf(env, i)[j], env.tool(i, j).error;
    FailuresBefore(env, i, call, e) + FailuresIn(env, i, j + 1, call, e)
  }

  /** From the third time on the text says how often. */
  ghost function Times(env: Env, i: nat, j: nat): Option<nat>
    requires j < |CallsOf(env, i)| && FailedAt(env, i, j)
  {
    if Strike(env, i, j) >= 3 then Some(Strike(env, i, j)) else None
  }

  ghost function TextOf(env: Env, i: nat, j: nat): Content
    requires j < |CallsOf(env, i)|
  {
    match env.tool(i, j)
    case Ok(_, wrapped) => Plain(wrapped)
    case Err(Blocked(_, _, text)) => Failure(text, None)
    case Err(Timeout(command, secs, _)) => TimedOut(command, secs, Times(env, i, j))
    case Err(Failed(_, text)) => Failure(text, Times(env, i, j))
  }

  /** The answer to each call of a round: refusals, or what the tools said, in call order. */
  ghost function AnswersOf(env: Env, i: nat, k: nat): seq<Message>
    requires k <= |CallsOf(env, i)|
  {
    seq(k, j requires 0 <= j < k => Tool(CallsOf(env, i)[j].id, if Refused(env, i) then RepeatRefusal else TextOf(env, i, j)))
  }

  // Hints.

  function Seen(env: Env, i: nat, j: nat): Observation
    requires j < |CallsOf(env, i)|
  {
    var call := CallsOf(env, i)[j];
    match env.tool(i, j)
    case Ok(output, _) => Observation(call.name, call.args, true, output)
    case Err(e) => Observation(call.name, call.args, false, e.text)
  }

  function SeenIn(env: Env, i: nat, k: nat): History
    requires k <= |CallsOf(env, i)|
  {
    seq(k, j requires 0 <= j < k => Seen(env, i, j))
  }

  ghost function SeenBefore(env: Env, i: nat): History {
    if i == 0 then []
    else SeenBefore(env, i - 1) + if Ran(env, i - 1) then SeenIn(env, i - 1, |CallsOf(env, i - 1)|) else []
  }

  /** The hints the first `k` results of round `i` earn. */
  ghost function HintsOf(env: Env, i: nat, k: nat): seq<HintKind>
    requires k <= |CallsOf(env, i)|
  {
    if k == 0 then []
    else
      var hint := Given(env.shapes, SeenBefore(env, i) + SeenIn(env, i, k - 1), Seen(env, i, k - 1));
      HintsOf(env, i, k - 1) + if hint.Some? then [hint.value] else []
  }

  // Walls: rounds that met a policy.

  predicate BlockedAt(env: Env, i: nat, j: nat) {
    env.tool(i, j).Err? && env.tool(i, j).error.Blocked?
  }

  /** The rules round `i` met. */
  function RulesOf(env: Env, i: nat): set<string> {
    set j | 0 <= j < |CallsOf(env, i)| && BlockedAt(env, i, j) :: env.tool(i, j).error.guidance
  }

  ghost function Walls(env: Env, i: nat): seq<nat> {
    if i == 0 then [] else Walls(env, i - 1) + if Ran(env, i - 1) && RulesOf(env, i - 1) != {} then [i - 1] else []
  }

  /** The fourth wall, or one that meets a rule for the second time. */
  ghost predicate WallEnds(env: Env, i: nat) {
    && RulesOf(env, i) != {}
    && (|Walls(env, i)| >= 3 || exists k | 0 <= k < |Walls(env, i)| :: RulesOf(env, Walls(env, i)[k]) * RulesOf(env, i) != {})
  }

  function ReasonsOf(env: Env, i: nat, k: nat): seq<string>
    requires k <= |CallsOf(env, i)|
  {
    if k == 0 then []
    else ReasonsOf(env, i, k - 1)
         + if BlockedAt(env, i, k - 1)
           then [env.tool(i, k - 1).error.operation + " (" + env.tool(i, k - 1).error.guidance + ")"] else []
  }

  /** The last of the first `k` results of round `i` that failed for the fifth time or more. */
  ghost function FifthFailure(env: Env, i: nat, k: nat): Option<Outcome>
    requires k <= |CallsOf(env, i)|
  {
    if k == 0 then None
    else if FailedAt(env, i, k - 1) && Strike(env, i, k - 1) >= 5 then
      Some(ToolHalt(CallsOf(env, i)[k - 1].name, CallsOf(env, i)[k - 1].args,
                    ErrorClass(env.tool(i, k - 1).error), Strike(env, i, k - 1)))
    else FifthFailure(env, i, k - 1)
  }

  // The script.

  /** A text is held for confirmation when it is the turn's first and a round is left to confirm it in. */
  predicate Held(env: Env, cfg: Config, i: nat) {
    IsText(env, i) && cfg.reply == Confirm && i + 1 < cfg.maxIterations && forall k | 0 <= k < i :: !IsText(env, k)
  }

  function Reminder(cfg: Config, i: nat): seq<Message> {
    if i > 0 && i == cfg.maxIterations / 2 then [System(Fixed(Midpoint))] else []
  }

  /** What is said of a round that ran, once its results are in. */
  ghost function Remarks(env: Env, i: nat): seq<Message> {
    var n := |CallsOf(env, i)|;
    if Refused(env, i) then []
    else (if HintsOf(env, i, n) == [] then [] else [System(Hints(HintsOf(env, i, n)))])
         + if RulesOf(env, i) != {} && FifthFailure(env, i, n).None? && !WallEnds(env, i) then [System(Fixed(PolicyStop))] else []
  }

  ghost function Block(env: Env, cfg: Config, i: nat): seq<Message> {
    Reminder(cfg, i)
    + match env.chat(i)
      case ChatAnswered(_, _, TextReply(text)) =>
        [Assistant(Plain(text))] + (if Held(env, cfg, i) then [System(Fixed(ConfirmReply))] else [])
      case ChatAnswered(_, _, CallsReply(text, calls)) =>
        [ToolCalls(text, calls)] + AnswersOf(env, i, |CallsOf(env, i)|) + Remarks(env, i)
      case _ => []
  }

  /** Everything a turn says in its first `n` iterations. */
  ghost function Script(env: Env, cfg: Config, user: string, n: nat): seq<Message> {
    if n == 0 then [User(Plain(user))] else Script(env, cfg, user, n - 1) + Block(env, cfg, n - 1)
  }

  /** How iteration `i` ends the turn, if it does, while the engine works and nobody cancels. */
  ghost function Verdict(env: Env, cfg: Config, i: nat): Option<Outcome> {
    var n := |CallsOf(env, i)|;
    match env.chat(i)
    case ChatCancelled => None
    case ChatFailed(_) => Some(ProviderError)
    case ChatAnswered(_, _, TextReply(text)) => if Held(env, cfg, i) then None else Some(Text(text))
    case ChatAnswered(_, _, CallsReply(_, _)) =>
      if Refused(env, i) then (if Again(env, i, 4) then Some(NoProgress) else None)
      else if FifthFailure(env, i, n).Some? then FifthFailure(env, i, n)
      else if WallEnds(env, i) then Some(PolicyHalt(ReasonsOf(env, i, n)))
      else None
  }

  // Why a turn may end otherwise.

  /** A cancellation reached iteration `i`. */
  ghost predicate CancelledIn(env: Env, i: nat) {
    env.cancelled(i) || env.chat(i).ChatCancelled? || (Ran(env, i) && env.toolsCancelled(i))
  }

  /** The engine failed in iteration `i`: compacting, assembling, or taking the last message offered. */
  predicate EngineFailed(env: Env, i: nat, offered: seq<Message>) {
    env.compaction(i).CompactionFailed? || env.assembleFails(i) || LastPushFailed(env, offered)
  }

  predicate LastPushFailed(env: Env, offered: seq<Message>) {
    offered != [] && !env.pushOk(|offered| - 1) && Insisted(offered[|offered| - 1])
  }

  /** A message the loop does not go on without: any but a tool's result. */
  predicate Insisted(m: Message) {
    m.Tool? ==> m.content == RepeatRefusal
  }

  /** Every message the loop cannot go on without was taken. */
  ghost predicate AllTaken(env: Env, offered: seq<Message>) {
    forall k | 0 <= k < |offered| && Insisted(offered[k]) :: env.pushOk(k)
  }

  /** Nothing stood in the way of iteration `i`. */
  ghost predicate Smooth(env: Env, i: nat) {
    !CancelledIn(env, i) && !env.compaction(i).CompactionFailed? && !env.assembleFails(i)
  }

  // The two keys of a call.

  /** Two rounds have the same fingerprint exactly when they make the same calls. */
  lemma FingerprintsDecide(a: seq<ToolCall>, b: seq<ToolCall>)
    requires WellFormedCalls(a) && WellFormedCalls(b)
    ensures FingerprintOf(a) == FingerprintOf(b) <==> SameCalls(a, b)
  {
    hide Compared, SameArgs;
    var f, g := FingerprintOf(a), FingerprintOf(b);
    if |a| == |b| {
      forall k | 0 <= k < |a| ensures f[k] == g[k] <==> a[k].name == b[k].name && SameArgs(a[k].args, b[k].args) {
        ArgsDecide(a[k].args, b[k].args);
      }
    }
  }

  lemma ArgsDecide(a: Args, b: Args)
    requires a.WellFormed() && b.WellFormed()
    ensures Compared(AsValue(a)) == Compared(AsValue(b)) <==> SameArgs(a, b)
  {
    hide Compared;
    ComparedDecidesValue(AsValue(a), AsValue(b));
  }

  /** Two failures have the same signature exactly when the same call failed in the same way. */
  lemma SignaturesDecide(a: ToolCall, e: ToolError, b: ToolCall, f: ToolError)
    requires a.args.WellFormed() && b.args.WellFormed()
    ensures SignatureOf(a, e) == SignatureOf(b, f) <==> SameFailure(a, e, b, f)
  {
    hide Canon;
    if a.args.Parsed? && b.args.Parsed? { CanonDecidesSame(a.args.value, b.args.value); }
  }
}
