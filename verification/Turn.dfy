/** One turn (src/agent/mod.rs, turn_loop) as a function of everything its surroundings may answer.
    Decisions are stated on the turn's history: the rounds, failures and refusals so far. */
module Turn {
  import opened Options
  import opened JsonArgs
  import opened Transcript
  import opened Billing
  import opened HintRules

  const REPEAT_LIMIT := 3
  const REPEAT_STRIKE_LIMIT := 2
  const POLICY_STRIKE_LIMIT := 2
  const POLICY_ROUND_LIMIT := 4
  const STRIKE_NOTICE := 3
  const STRIKE_HALT := 5

  // The surroundings.

  datatype ToolError =
    | Blocked(operation: string, guidance: string, text: string)
    | Timeout(command: string, secs: nat, text: string)
    | Failed(class_: string, text: string)

  function ErrorClass(e: ToolError): string {
    match e case Blocked(_, _, _) => "blocked" case Timeout(_, _, _) => "timeout" case Failed(c, _) => c
  }

  /** A tool's answer; `wrapped` is a good output after the safety layer. */
  datatype ToolResult = Ok(output: string, wrapped: string) | Err(error: ToolError)

  datatype Response = TextReply(text: string) | CallsReply(text: string, calls: seq<ToolCall>)

  datatype Chat =
    | ChatCancelled
    | ChatFailed(failed: seq<CallUsage>)
    | ChatAnswered(failed: seq<CallUsage>, usage: CallUsage, response: Response)

  /** An engine may put any transcript in place of the one it compacts. */
  datatype Compaction = Idle | Compacted(messages: seq<Message>) | CompactionFailed

  /** Everything outside the loop, by iteration; `pushOk` by push. The provider, the tools, the
      engine and the cancelling user are free to answer anything. */
  datatype Env = Env(
    cancelledAtStart: bool,
    cancelled: nat -> bool,
    compaction: nat -> Compaction,
    assembleFails: nat -> bool,
    chat: nat -> Chat,
    toolsCancelled: nat -> bool,
    tool: (nat, nat) -> ToolResult,
    pushOk: nat -> bool,
    shapes: Shapes)

  datatype BudgetPolicy = Fail | AnswerAnyway
  datatype ReplyPolicy = Accept | Confirm
  datatype Config = Config(maxIterations: nat, budget: BudgetPolicy, reply: ReplyPolicy)

  datatype Outcome =
    | Text(text: string)
    | PolicyHalt(reasons: seq<string>)
    | ToolHalt(tool: string, args: Args, class_: string, count: nat)
    | Cancelled
    | NoProgress
    | MaxIterationsReached(report: Option<string>)
    | ProviderError
    | EngineError

  // What the turn remembers.

  /** A transcript as the provider was shown it. */
  datatype Ask = Ask(messages: seq<Message>, gap: bool)

  /** A round's calls, compared as values. */
  type Fingerprint = seq<(string, Json)>

  datatype Signature = Signature(tool: string, args: StrikeKey, class_: string)

  /** `offered` is every message handed to the engine, `added` what it took, `messages` the session. */
  datatype State = State(
    messages: seq<Message>,
    pushes: nat,
    offered: seq<Message>,
    added: seq<Message>,
    gap: bool,
    asks: seq<Ask>,
    draws: seq<CallUsage>,
    rounds: seq<Fingerprint>,
    executed: seq<bool>,
    failures: seq<Signature>,
    blocked: seq<set<string>>,
    history: History,
    iterations: nat,
    nudged: bool,
    checkpointed: bool,
    squeezed: bool)

  datatype Step = Going(st: State) | Done(outcome: Outcome, st: State)

  function Initial(messages: seq<Message>): State {
    State(messages, 0, [], [], !Closed(messages), [], [], [], [], [], [], [], 0, false, false, false)
  }

  // Pushing messages.

  function Push(env: Env, st: State, m: Message): State {
    var tried := st.(offered := st.offered + [m], pushes := st.pushes + 1);
    if env.pushOk(st.pushes) then tried.(messages := st.messages + [m], added := st.added + [m]) else tried
  }

  /** A push whose failure ends the turn. */
  function Insist(env: Env, st: State, m: Message): Step {
    var next := Push(env, st, m);
    if env.pushOk(st.pushes) then Going(next) else Done(EngineError, next)
  }

  /** A tool result, whose failure to arrive is ignored. */
  function Deliver(env: Env, st: State, m: Message): State {
    Push(env, st, m).(gap := st.gap || !env.pushOk(st.pushes))
  }

  /** The refusals of the first `k` calls of a repeated round. */
  function Refuse(env: Env, st: State, calls: seq<ToolCall>, k: nat): Step
    requires k <= |calls|
  {
    if k == 0 then Going(st)
    else
      match Refuse(env, st, calls, k - 1)
      case Going(s) => Insist(env, s, Tool(calls[k - 1].id, RepeatRefusal))
      case done => done
  }

  // Repetition.

  function FingerprintOf(calls: seq<ToolCall>): Fingerprint {
    seq(|calls|, i requires 0 <= i < |calls| => (calls[i].name, Compared(AsValue(calls[i].args))))
  }

  /** Whether the last `n` rounds carry equal fingerprints. */
  predicate Repeated(rounds: seq<Fingerprint>, n: nat) {
    n <= |rounds| && forall i | |rounds| - n <= i < |rounds| :: rounds[i] == rounds[|rounds| - 1]
  }

  // Failures.

  function SignatureOf(call: ToolCall, e: ToolError): Signature {
    Signature(call.name, CanonicalArgs(call.args), ErrorClass(e))
  }

  function Count(failures: seq<Signature>, s: Signature): nat {
    multiset(failures)[s]
  }

  function Notice(count: nat): Option<nat> {
    if count >= STRIKE_NOTICE then Some(count) else None
  }

  /** The text of a failed call that has now failed `count` times. */
  function FailureText(e: ToolError, count: nat): Content {
    match e
    case Blocked(_, _, text) => Failure(text, None)
    case Timeout(command, secs, _) => TimedOut(command, secs, Notice(count))
    case Failed(_, text) => Failure(text, Notice(count))
  }

  function Observed(call: ToolCall, r: ToolResult): Observation {
    match r
    case Ok(output, _) => Observation(call.name, call.args, true, output)
    case Err(e) => Observation(call.name, call.args, false, e.text)
  }

  /** A result enters the histories: every call is observed, every failure but a refusal counts. */
  function Noted(st: State, call: ToolCall, result: ToolResult): State {
    st.(history := st.history + [Observed(call, result)],
        failures := if Strikes(result) then st.failures + [SignatureOf(call, result.error)] else st.failures)
  }

  predicate Strikes(result: ToolResult) {
    result.Err? && !result.error.Blocked?
  }

  /** The text a result leaves in the transcript, once noted. */
  function Said(noted: State, call: ToolCall, result: ToolResult): Content {
    match result
    case Ok(_, wrapped) => Plain(wrapped)
    case Err(e) => FailureText(e, Count(noted.failures, SignatureOf(call, e)))
  }

  /** The halt a failure calls for, given all failures up to and including it. */
  function HaltFor(failures: seq<Signature>, call: ToolCall, result: ToolResult): Option<Outcome> {
    if !Strikes(result) then None
    else
      var n := Count(failures, SignatureOf(call, result.error));
      if n >= STRIKE_HALT then Some(ToolHalt(call.name, call.args, ErrorClass(result.error), n)) else None
  }

  function RecordOne(env: Env, st: State, call: ToolCall, result: ToolResult): State {
    var noted := Noted(st, call, result);
    Deliver(env, noted, Tool(call.id, Said(noted, call, result)))
  }

  /** The first `k` results of a round, recorded in call order. */
  function Recorded(env: Env, st: State, calls: seq<ToolCall>, results: seq<ToolResult>, k: nat): State
    requires k <= |calls| == |results|
  {
    if k == 0 then st else RecordOne(env, Recorded(env, st, calls, results, k - 1), calls[k - 1], results[k - 1])
  }

  /** The round's failures that count, after its first `k` results. */
  function FailuresAfter(before: seq<Signature>, calls: seq<ToolCall>, results: seq<ToolResult>, k: nat): seq<Signature>
    requires k <= |calls| == |results|
  {
    if k == 0 then before
    else
      var prior := FailuresAfter(before, calls, results, k - 1);
      if Strikes(results[k - 1]) then prior + [SignatureOf(calls[k - 1], results[k - 1].error)] else prior
  }

  function HistoryAfter(before: History, calls: seq<ToolCall>, results: seq<ToolResult>, k: nat): History
    requires k <= |calls| == |results|
  {
    if k == 0 then before else HistoryAfter(before, calls, results, k - 1) + [Observed(calls[k - 1], results[k - 1])]
  }

  /** The hints the first `k` results earn. */
  function RoundHints(sh: Shapes, before: History, calls: seq<ToolCall>, results: seq<ToolResult>, k: nat): seq<HintKind>
    requires k <= |calls| == |results|
  {
    if k == 0 then []
    else
      var hint := Given(sh, HistoryAfter(before, calls, results, k - 1), Observed(calls[k - 1], results[k - 1]));
      RoundHints(sh, before, calls, results, k - 1) + (if hint.Some? then [hint.value] else [])
  }

  /** The halt the first `k` results call for: the last failure to reach the limit. */
  function RoundHalt(before: seq<Signature>, calls: seq<ToolCall>, results: seq<ToolResult>, k: nat): Option<Outcome>
    requires k <= |calls| == |results|
  {
    if k == 0 then None
    else
      var halt := HaltFor(FailuresAfter(before, calls, results, k), calls[k - 1], results[k - 1]);
      if halt.Some? then halt else RoundHalt(before, calls, results, k - 1)
  }

  // Policy.

  function Reasons(results: seq<ToolResult>): seq<string> {
    if results == [] then []
    else
      var last := results[|results| - 1];
      Reasons(results[..|results| - 1])
      + (if last.Err? && last.error.Blocked? then [last.error.operation + " (" + last.error.guidance + ")"] else [])
  }

  /** The rules a round ran into. */
  function Rules(results: seq<ToolResult>): set<string> {
    set r | r in results && r.Err? && r.error.Blocked? :: r.error.guidance
  }

  /** A rule met in an earlier round, or too many walls. */
  predicate Halts(earlier: seq<set<string>>, rules: set<string>) {
    |earlier| + 1 >= POLICY_ROUND_LIMIT || exists i | 0 <= i < |earlier| :: earlier[i] * rules != {}
  }

  function Policy(env: Env, st: State, results: seq<ToolResult>): Step {
    var rules := Rules(results);
    if rules == {} then Going(st)
    else
      var next := st.(blocked := st.blocked + [rules]);
      if Halts(st.blocked, rules) then Done(PolicyHalt(Reasons(results)), next)
      else Insist(env, next, System(Fixed(PolicyStop)))
  }

  // One iteration.

  function Results(env: Env, i: nat, n: nat): (r: seq<ToolResult>)
    ensures |r| == n
  {
    seq(n, k requires 0 <= k < n => env.tool(i, k))
  }

  function Hinted(env: Env, st: State, hints: seq<HintKind>): Step {
    if hints == [] then Going(st) else Insist(env, st, System(Hints(hints)))
  }

  /** After the results are recorded: hints, then the strike halt, then the policy gate. */
  function Conclude(env: Env, st: State, hints: seq<HintKind>, halt: Option<Outcome>, results: seq<ToolResult>): Step {
    var hinted := Hinted(env, st, hints);
    if hinted.Done? then hinted
    else if halt.Some? then Done(halt.value, hinted.st)
    else Policy(env, hinted.st, results)
  }

  function Execute(env: Env, st: State, i: nat, calls: seq<ToolCall>): Step {
    if env.toolsCancelled(i) then Done(Cancelled, st)
    else
      var n := |calls|;
      var results := Results(env, i, n);
      Conclude(env, Recorded(env, st, calls, results, n), RoundHints(env.shapes, st.history, calls, results, n),
               RoundHalt(st.failures, calls, results, n), results)
  }

  /** A refused round ends the turn when the one before it was refused too. */
  function AfterRefusal(step: Step): Step {
    if step.Going? && Repeated(step.st.rounds, REPEAT_LIMIT + REPEAT_STRIKE_LIMIT - 1) then Done(NoProgress, step.st)
    else step
  }

  function ToolRound(env: Env, st: State, i: nat, calls: seq<ToolCall>): Step {
    var rounds := st.rounds + [FingerprintOf(calls)];
    var refused := Repeated(rounds, REPEAT_LIMIT);
    var next := st.(rounds := rounds, executed := st.executed + [!refused]);
    if refused then AfterRefusal(Refuse(env, next, calls, |calls|)) else Execute(env, next, i, calls)
  }

  function TextRound(env: Env, cfg: Config, st: State, i: nat, text: string): Step {
    var said := Insist(env, st, Assistant(Plain(text)));
    if said.Done? then said
    else if cfg.reply == Confirm && !st.nudged && i + 1 < cfg.maxIterations then
      Insist(env, said.st.(nudged := true), System(Fixed(ConfirmReply)))
    else Done(Text(text), said.st)
  }

  function CallsRound(env: Env, st: State, i: nat, text: string, calls: seq<ToolCall>): Step {
    var said := Insist(env, st, ToolCalls(text, calls));
    if said.Done? then said else ToolRound(env, said.st, i, calls)
  }

  /** The provider is shown the transcript as it stands; what it drew is kept whatever it answers. */
  function Asked(st: State, chat: Chat): State {
    st.(asks := st.asks + [Ask(st.messages, st.gap)], draws := st.draws + DrawsOf(chat))
  }

  function DrawsOf(chat: Chat): seq<CallUsage> {
    match chat
    case ChatCancelled => []
    case ChatFailed(failed) => failed
    case ChatAnswered(failed, usage, _) => failed + [usage]
  }

  /** Compaction and the midpoint directive, before the provider is asked. */
  function Compact(st: State, c: Compaction): State {
    if c.Compacted? then st.(messages := c.messages, gap := !Closed(c.messages)) else st
  }

  function Prepare(env: Env, cfg: Config, st: State, i: nat): Step {
    var s := Compact(st, env.compaction(i));
    if env.compaction(i).CompactionFailed? then Done(EngineError, st)
    else if i == cfg.maxIterations / 2 && i > 0 then Insist(env, s.(checkpointed := true), System(Fixed(Midpoint)))
    else Going(s)
  }

  function React(env: Env, cfg: Config, asked: State, i: nat, chat: Chat): Step {
    match chat
    case ChatCancelled => Done(Cancelled, asked)
    case ChatFailed(_) => Done(ProviderError, asked)
    case ChatAnswered(_, _, TextReply(text)) => TextRound(env, cfg, asked, i, text)
    case ChatAnswered(_, _, CallsReply(text, calls)) => CallsRound(env, asked, i, text, calls)
  }

  function Exchange(env: Env, cfg: Config, st: State, i: nat): Step {
    if env.assembleFails(i) then Done(EngineError, st) else React(env, cfg, Asked(st, env.chat(i)), i, env.chat(i))
  }

  function Iterate(env: Env, cfg: Config, st: State, i: nat): Step {
    if env.cancelled(i) then Done(Cancelled, st)
    else
      var ready := Prepare(env, cfg, st.(iterations := i + 1), i);
      if ready.Done? then ready else Exchange(env, cfg, ready.st, i)
  }

  function Begin(env: Env, st: State, user: string): Step {
    if env.cancelledAtStart then Done(Cancelled, st) else Insist(env, st, User(Plain(user)))
  }

  /** The turn after its first `i` iterations. */
  function After(env: Env, cfg: Config, start: State, user: string, i: nat): Step {
    if i == 0 then Begin(env, start, user)
    else
      match After(env, cfg, start, user, i - 1)
      case Going(s) => Iterate(env, cfg, s, i - 1)
      case done => done
  }

  // The cap.

  /** One completion without tools: its text, or the error that stopped it. */
  datatype Squeezed = Squeezed(reply: Option<string>, error: Outcome, st: State)

  function LastWord(env: Env, asked: State, chat: Chat): Squeezed {
    match chat
    case ChatCancelled => Squeezed(None, Cancelled, asked)
    case ChatFailed(_) => Squeezed(None, ProviderError, asked)
    case ChatAnswered(_, _, response) =>
      var said := Insist(env, asked, Assistant(Plain(response.text)));
      Squeezed(if said.Going? then Some(response.text) else None, EngineError, said.st)
  }

  function Squeeze(env: Env, cfg: Config, st: State, directive: Directive): Squeezed {
    var i := cfg.maxIterations;
    var told := Insist(env, st.(squeezed := true), System(Fixed(directive)));
    if told.Done? || env.assembleFails(i) then Squeezed(None, EngineError, told.st)
    else LastWord(env, Asked(told.st, env.chat(i)), env.chat(i))
  }

  function Cap(env: Env, cfg: Config, st: State): Step {
    match cfg.budget
    case AnswerAnyway =>
      var q := Squeeze(env, cfg, st, FinalAnswer);
      Done(if q.reply.Some? then Text(q.reply.value) else q.error, q.st)
    case Fail =>
      var q := Squeeze(env, cfg, st, StateReport);
      Done(if q.reply.None? && q.error == Cancelled then Cancelled else MaxIterationsReached(q.reply), q.st)
  }

  /** The whole turn on a session holding `history`. */
  function WholeTurn(env: Env, cfg: Config, history: seq<Message>, user: string): (r: Step)
    ensures r.Done?
  {
    match After(env, cfg, Initial(history), user, cfg.maxIterations)
    case Going(s) => Cap(env, cfg, s)
    case done => done
  }
}
