# kitaebot: verified models

Kitaebot is an autonomous coding agent: channels (Linear, GitHub, Telegram, a socket, a duty
scheduler) send messages to one actor, the actor runs a turn against a model provider and tools, and
ledgers, cursors and checkouts keep the state between turns. This project models the state machines
at its core and proves what they keep over whole runs. `dafny verify dfyconfig.toml` checks all of it.

| files | subject |
|---|---|
| `Turn`, `TurnLaws`, `TurnBounds`, `TurnLimits`, `TurnDirectives`, `TurnCancels`, `TurnScript`, `TurnFollows`, `TurnEnds`, `TurnWhole`, `TurnLoop`, `Transcript`, `Billing`, `Hints`, `Json` | one turn of the agent loop and its guards |
| `Checkout` | preserve-then-reset of an execution checkout, over a small git |
| `Mailbox`, `Escalation`, `Sessions`, `Names` | the actor: mailbox and drain, retry tier, session routing, name storage |
| `Poller`, `Calendar`, `Iso8601` | the Linear poller's cursor and the calendar it orders by |
| `LineWriter` | the bounded line writer of the error log |
| `Review`, `UsageReport` | the review ledger and the usage report |
| `Text` | options, string order, search, replacement, decimals |

**The turn.** `Turn.WholeTurn` is the turn loop as a function of everything its surroundings may
answer: provider, tools, engine, compaction and cancellation are arbitrary (`Env`). It decides by the
turn's history: the fingerprints of its tool rounds, its failures, its refused rounds, its
observations. `TurnLoop` is the loop as it is written, with its counters, maps, detector objects and
growing transcript, and `TurnLoop.RunTurn` refines the function. `TurnScript` writes the same turn out a
second time from the surroundings' answers alone, iteration by iteration and with no state: what each round
says, which rounds are refused, how often a failure has happened, what a cap ends with.
`TurnWhole.TurnFollowsItsScript` says that every turn is its script, so each rule of the loop is stated twice
and proved to agree. The theorems are about the function and hold for every environment and every
iteration budget. Fixed wordings are constructors of
`Content`; what varies in a message is kept.

**The checkout.** A repository is a commit graph, local branches, HEAD, the index, the working tree
and the remote's default branch. Each git command that changes something is one step, and any of them
may fail or be killed, leaving what the commands before it did and any part of its own work
(`Interrupted`). The commands run for their answer (`rev-parse`, `status`, `symbolic-ref`, `merge-base`)
may exit with any code or give no answer (`Answer`); only an exit code of zero is believed. `Preserved` is
stated for every point at which the preparation can stop; the two answers that cost work are listed below.

**The actor.** `Mailbox` is a step relation over senders (those waiting for room in a full mailbox
included, and those who give up), handle clones and drops, the drain flag, the actor's phases and a crash; theorems quantify over every legal interleaving. `Mailbox.Actor` has the
same steps as methods, plus the actor's own loop and the daemon's shutdown sequence.

**The poller.** A run is a list of successful fetches with the clock read after each. `DecideEvents`
is the pair of nested loops; delivery is counted over runs, including runs in which the process dies
in the middle of a poll, before its cursor is saved.

## Where the code departs from what one would expect

Each of these is an exact statement below, not an assumption.

- The provider is shown a closed transcript exactly as long as the session came closed, no compaction
  opened it and the engine took every tool result: the loop ignores a failed push of a result
  (`src/agent/mod.rs:1187-1194`). The flat engine's push never fails (`src/context/flat/mod.rs:157-181`);
  the layered engine's can (`src/context/lcm/engine.rs:410-418`).
- A cancelled turn with no dropped result leaves its calls open if and only if it was cut off while the
  calls of its last round ran (`TurnCancels.CancellationOpensIff`, with the turn `CutTurnEndsOpen`), and
  the next turn on what it left shows the provider the open transcript in every call, unless a compaction
  closes it (`TurnCancels.NextTurnSeesItOpen`). With the flat engine that is the next turn of the session.
  The layered engine appends the missing results when a session is opened or switched to
  (`src/context/lcm/engine.rs:162`, `:611`, `:769-810`), so there it is the next turn only while the
  session stays selected.
- The strike key and the repeat fingerprint of two calls disagree for unparseable arguments against the
  JSON string that spells them and for arguments that are equal as values and differ in the sign of a
  zero, which prints (`0.0` and `-0.0`), and only there (`JsonArgs.KeysAgreeUnlessConfusable`).
- A comment is delivered exactly once if and only if the first fetch that holds it belongs to the poll
  whose clock window holds its creation time. The clock is read after the fetch, so a comment made in
  between, or in the second of the previous reading after that fetch, is never delivered, and one
  stamped ahead of the daemon's clock is delivered again: both have exact conditions
  (`Poller.DeliveredOnceIff`, `Poller.DeliveredOnceIffInSeconds`) and a run of two polls each,
  for every choice of the times that allows it (`Poller.LateCommentIsLost`, `Poller.EarlyCommentIsRepeated`).
- String order of rendered times is time order exactly up to the end of year 9999
  (`Iso8601.OrderHoldsExactlyToYear9999`).
- Showing a stored session name gives back exactly the names without NUL, `..`, `--` and `-/`.
- A chunking of the log stream is invisible exactly when no cut leaves an unfinished line over twice
  the cap.
- A task's span covers a turn's duration exactly when the turn's end fits in 64 bits of milliseconds.
- The exit code of `git status` is not looked at (`src/channel/execution_checkout.rs:123`,
  `src/tools/git/checkout.rs:123-131`; a signal counts as -1, `src/tools/cli_runner.rs:236`). A status that
  fails and prints nothing reads as a clean checkout, nothing is parked, and the reset goes on. Then the
  predecessor's work survives every fetch if and only if there was none or a branch held it already
  (`Checkout.UnparkedSurvivesIff`; `Checkout.SilentStatusLosesAFile` is a checkout that loses a file). In
  all other cases nothing is lost (`Checkout.Worktree.PrepareAt`).
- A `rev-parse` that cannot be started, runs out of time or is killed counts as a broken repository: the
  directory is removed and cloned anew (`src/tools/git/checkout.rs:57-76`). That keeps a predecessor's work
  for certain if and only if it had no local branch, no leftovers and a HEAD that the default branch
  contains (`Checkout.RemovalSurvivesIff`).
- Parking keeps what the files hold: content that was staged and then changed again is replaced by
  `add -A` (`Checkout.StagedContentSurvivesIff` has the exact condition).
- After an error of its sink the log writer may hold complete lines and more than twice the cap; no line
  is skipped or repeated, and at most the one refused is torn (`LineWriter.BoundedLineWriter.Write`).
- `git clean -e` keeps a cache name at any depth, while the status and reset pathspecs mean the root
  only; a cache file that was staged while nothing else was dirty is removed by the reset
  (`Checkout.FreshBase` says which cache files stay).
- `specs/01-agent-loop.md:30` says that compaction runs before the user message is added; the code
  checks at the head of every iteration, after it (`src/agent/mod.rs:555`). The model follows the code.

## Model

| member | source | states |
|---|---|---|
| TurnLaws.ProviderSeesClosedTranscripts | src/agent/mod.rs:506-770 | every provider call of a turn, squeeze included, sees a transcript in which each call is answered once, in order, before anything else, exactly as long as the session came so, no compaction opened it and no tool result was dropped; every exit leaves it so on the same condition, cancelled and engine-failed turns leaving at most the last calls open |
| TurnLaws.GoodEnginesKeepItClosed | src/agent/mod.rs:659-661 | so with an engine that drops nothing and compacts to closed transcripts, a closed session is only ever shown closed |
| TurnLaws.OpenSessionsStayOpen | src/agent/mod.rs:506-526 | a session that comes open is shown open in every call of the turn unless a compaction closes it |
| TurnLaws.FlatEngineKeepsItClosed | src/context/flat/mod.rs:157-181 | with an engine whose pushes never fail and whose compaction leaves one summary, a closed session is only ever shown closed, and only a cancelled or engine-failed turn can leave it open |
| TurnCancels.CancellationOpensIff | src/agent/mod.rs:689-694 | a cancelled turn whose session had no gap ends closed exactly when it was not cut off while the calls of its last round ran; when it was, those calls stand last and none is answered |
| TurnCancels.OpenOnlyAtTheLastCalls | src/agent/mod.rs:659-661 | a transcript that more messages can still complete is closed or open at its last calls, never both and nowhere else: the results after those calls answer only some of them, in order |
| TurnCancels.NextTurnSeesItOpen | src/agent/mod.rs:689-694 | the turn after such a cut shows the provider an open transcript in every call unless a compaction closes it |
| TurnCancels.CutTurnEndsOpen | src/agent/mod.rs:689-694 | a turn on a new session that is cancelled while its first call runs ends open |
| TurnBounds.MeterCoversEveryDraw | src/agent/mod.rs:577-607 | on every exit the bill is exactly the draws of the calls made, failed draws included; at most `max_iterations` + 1 calls, the extra one only by the squeeze; under `Fail` a capped turn is never a success |
| TurnDirectives.PublishedTextWasConfirmed | src/agent/mod.rs:566-634 | under `Confirm` a text published with rounds to spare was preceded by exactly one request to confirm, directly after a held text; under `Accept` there is none; the checkpoint directive stands once in turns that pass half their budget and in no others; a published text stands last |
| TurnDirectives.TextDirected | src/agent/mod.rs:610-634 | a held text is followed by the request to confirm it, a published one stands last |
| TurnWhole.RepetitionIsBounded | src/agent/mod.rs:643-677 | the tool rounds of a turn are the iterations the provider answered with calls; a round is refused exactly when it makes the same calls as the two before it (names, and arguments as values), and the turn ends in `NoProgress` exactly at the first that makes the same calls as the three before it, so no calls run in three rounds in a row |
| TurnWhole.TurnFollowsItsScript | src/agent/mod.rs:506-770 | every turn is its script: it never begins, or ends in one iteration with all of it said and as the answers decide (texts held or published, rounds answered in order, failures counted over the whole turn, walls, the third and fourth repetition), or is broken off there by a cancellation or an engine failure that happened, or uses up its budget; the session and every transcript shown are what the engine took of that |
| TurnScript.FingerprintsDecide | src/agent/mod.rs:939-957 | two rounds have equal fingerprints exactly when they have as many calls, the same names in order and arguments equal as values at each place |
| TurnScript.SignaturesDecide | src/agent/mod.rs:981-1068 | two failures have equal signatures exactly when tool, printed arguments up to key order, and error class agree |
| TurnFollows.RepeatedIsAgain | src/agent/mod.rs:939-957 | the detector's test on the books is the comparison of the latest rounds' calls |
| TurnFollows.StrikeIsCount | src/agent/mod.rs:1060-1068 | the strike of a failure is how often that call has failed that way in the rounds that ran |
| TurnFollows.RecordedTold | src/agent/mod.rs:1114-1197 | each call of a round that ran is answered in order by its own result, failures with the count they have reached from the third on |
| TurnFollows.PolicyFollows | src/agent/mod.rs:697-758 | the gate stops the turn exactly at the fourth wall or at one that meets a rule for the second time, naming the refused operations in order |
| TurnFollows.IterateFollows | src/agent/mod.rs:542-761 | one iteration says exactly its block of the script, and goes on, ends or is broken off as the answers decide |
| TurnEnds.AfterFollows | src/agent/mod.rs:542-761 | between iterations the session, the books and the transcripts shown are those of the script |
| TurnWhole.CapEnds | src/agent/mod.rs:763-920 | what a capped turn ends with: its last word when engine and provider give one, and otherwise the cap or the reason |
| TurnLimits.GoingOnIsWithinLimits | src/agent/mod.rs:707-758 | whenever the loop goes on, no failure signature has reached five, at most three rounds were refused, and they met pairwise different rules |
| TurnLimits.HaltsAreEarned | src/agent/mod.rs:725-752 | a tool halt names a failure with its exact count, at least five, and such a failure ends the turn in no other way but a broken engine; a policy halt comes exactly when a rule was met in two rounds or four rounds were refused |
| TurnLimits.AtMostNineSystemMessages | src/agent/mod.rs:566-573 | a turn adds at most nine System messages whatever its budget |
| TurnLimits.RoundStrikes | src/agent/mod.rs:1060-1068 | after recording a round, some failure has reached the limit exactly when a halt is set, and the halt carries that failure's count |
| TurnLimits.AddRules | src/agent/mod.rs:736-752 | one more refused round keeps few and disjoint refusals exactly when the gate does not halt |
| TurnLoop.RunTurn | src/agent/mod.rs:506-770 | the loop with its counters and objects ends with the outcome, the transcript and the bill that the history-based turn has |
| TurnLoop.Loop.Iterate | src/agent/mod.rs:542-761 | one iteration of the loop is one iteration of the turn, in every branch |
| TurnLoop.Loop.ToolRound | src/agent/mod.rs:635-759 | the strike counter and the detector refuse, run and abandon rounds as the last three and four fingerprints say |
| TurnLoop.Loop.Execute | src/agent/mod.rs:689-758 | results recorded, then hints, then the tool halt, then the policy gate |
| TurnLoop.Loop.PolicyGate | src/agent/mod.rs:736-758 | the strike map and round counter halt exactly when an earlier refused round shares a rule or it is the fourth |
| TurnLoop.Loop.CountRules | src/agent/mod.rs:740-746 | each rule of a round counts once, and a second strike is seen exactly when a rule was met before |
| TurnLoop.Loop.RecordToolResults | src/agent/mod.rs:1114-1197 | every result is recorded in call order, with the round's hints, and the halt is the last failure to reach the limit |
| TurnLoop.Loop.RecordResult | src/agent/mod.rs:1124-1195 | one result: its hint, its strike, its text with the count it has reached, its delivery |
| TurnLoop.Loop.RefuseRound | src/agent/mod.rs:662-669 | every call of a refused round gets its refusal, in order |
| TurnLoop.Loop.TextRound | src/agent/mod.rs:610-634 | a text ends the turn unless it is held for confirmation |
| TurnLoop.Loop.Bill | src/agent/mod.rs:588-607 | whatever the provider answers, its draws are in the meter |
| TurnLoop.Loop.Prepare | src/agent/mod.rs:555-573 | compaction and the midpoint directive before the provider is asked |
| TurnLoop.Loop.Squeeze | src/agent/mod.rs:867-920 | one completion without tools, billed and kept in the session |
| TurnLoop.Loop.Cap | src/agent/mod.rs:763-769 | what a capped turn ends with under either budget policy |
| TurnLoop.RepeatDetector.Record | src/agent/mod.rs:939-957 | the running count says whether the last three rounds are equal |
| TurnLoop.OneMoreRound | src/agent/mod.rs:643-677 | counting refused rounds in a row tells whether the last four rounds are equal |
| TurnLoop.RunLengthDecides | src/agent/mod.rs:949-956 | counting the run of equal rounds decides whether the last k are equal |
| TurnLoop.ToolStrikeTracker.Record | src/agent/mod.rs:1060-1068 | the strike of a failure is its number of occurrences in the turn; a blocked call has none |
| TurnLoop.MetDecides | src/agent/mod.rs:742-746 | one map of rules met so far is enough to tell whether an earlier round shares a rule |
| Transcript.ClosedIsStanding | src/agent/mod.rs:659-661 | reading a transcript message by message decides the pairing of calls and results |
| HintRules.HintTracker.Observe | src/agent/hints.rs:75-118 | the tracker's four fields give, for each call, the hint the turn's whole history deserves, each kind once |
| HintRules.HintTracker.NoteEdit | src/agent/hints.rs:82-96 | a file missed for the second time is noticed, file by file |
| HintRules.HintTracker.NoteCommand | src/agent/hints.rs:97-109 | the last test command run again with no edit since is noticed |
| HintRules.TestCommandAnywhere | src/agent/hints.rs:26-37 | a command runs a test exactly when one of the listed commands stands somewhere in it |
| HintRules.AssertionAnywhere | src/agent/hints.rs:122-124 | an assertion is recognised by its two words in either order, whatever surrounds them |
| HintRules.SpentGrows | src/agent/hints.rs:69-71 | a given hint was never given before and is spent from then on |
| HintRules.GivenAtTheFirst | src/agent/hints.rs:69-118 | a hint is given exactly at the turn's first call that earns it: a file missed before, else the last test run again with no edit or test between, else an assertion |
| HintRules.ShapesOfCalls | src/agent/hints.rs:75-111 | which calls miss a file, run a test or change a file, told by tool, arguments and result |
| HintRules.WordsDecide | src/agent/hints.rs:122-124 | an assertion's text has both words or the panic's, a missed edit's the tool's own |
| Billing.TotalsOfConcat | src/agent/mod.rs:321-337 | the sum of two totals is the total of both lists of draws, with absent kept apart from zero and the last provider seen |
| Billing.OneDraw | src/agent/mod.rs:301-318 | the totals of one draw are its figures |
| Billing.TurnUsage.AddCall | src/agent/mod.rs:301-318 | after a call the accumulator holds the totals of one draw more |
| Billing.TurnUsage.AddFailed | src/agent/mod.rs:339-343 | failed draws count like the others |
| Billing.TurnUsage.AddTurn | src/agent/mod.rs:321-337 | adding a turn's usage gives the totals of both turns' draws, in order |
| JsonArgs.CanonDecidesSame | src/agent/mod.rs:989-1005 | two values have the same canonical form if and only if they agree up to key order at every depth |
| JsonArgs.CanonIdempotent | src/agent/mod.rs:989-1005 | a canonical form is its own |
| JsonArgs.CanonKeepsLookups | src/agent/mod.rs:992-998 | every key finds the canonical form of what it found |
| JsonArgs.ComparedDecidesValue | src/agent/mod.rs:939-949 | what the repeat detector compares is equal exactly for values equal up to key order and the sign of zeros |
| JsonArgs.KeysAgreeUnlessConfusable | src/agent/mod.rs:939-986 | strike key and repeat fingerprint identify the same calls, except exactly for unparseable text against the string value that spells it and for equal values that print differently by the sign of a zero |
| JsonArgs.SignFreeIsNotConfused | src/agent/mod.rs:939-986 | values without a signed zero are never told apart by one key only |
| JsonArgs.ZerosAreConfused | src/agent/mod.rs:939-986 | the two float zeros are |
| Checkout.Worktree.PrepareAt | src/channel/execution_checkout.rs:79-106 | it succeeds exactly when everything it needs does: probes that answer, a free name when something is to be parked, commands that work; of a checkout that answers `rev-parse`, wherever a command fails or is cut off, nothing in the working tree is lost, no local branch moves and a local branch or the old default branch reaches the old HEAD, unless a status failed silently over work no branch held; on success HEAD is detached at the remote's default branch, the tree outside the caches is that commit's, and cache files stay exactly where the index did not track them; any other checkout is removed and becomes a fresh clone, reset likewise, or nothing |
| Checkout.Worktree.PrepareExisting | src/channel/execution_checkout.rs:84-101 | the same for a checkout that is there, with the branch reported, holding the leftovers as one commit on the old HEAD or the stranded HEAD itself, exactly when something was reported or HEAD was taken for stranded, and no other branch added |
| Checkout.Worktree.PrepareClone | src/tools/git/checkout.rs:63-89 | a checkout taken for broken is gone or a fresh clone; with a removal, a clone and commands that work, and only then, it succeeds, the clone at the remote's default branch and clean |
| Checkout.Worktree.FetchAndReset | src/channel/execution_checkout.rs:88-101 | fetch, detach and clean give a fresh base exactly when all three work, and keep what was parked wherever they stop |
| Checkout.UnparkedSurvivesIff | src/channel/execution_checkout.rs:120-141 | when nothing is parked, the reset preserves the predecessor's work over every fetch exactly when there was none or a branch held it already |
| Checkout.SilentStatusLosesAFile | src/channel/execution_checkout.rs:120-141 | an attached checkout with one new file loses it to the reset when its status fails and prints nothing |
| Checkout.RemovalSurvivesIff | src/tools/git/checkout.rs:47-90 | removing the checkout and cloning anew preserves the predecessor's work, whatever the remote's default branch is, exactly when it had no branch, no leftovers and a HEAD in the old default branch |
| Checkout.Worktree.ParkLeftovers | src/channel/execution_checkout.rs:116-176 | it succeeds exactly when the probes answer and the parking, if any is due, works: when the status reports something the commit on the new branch holds exactly the predecessor's files and HEAD's caches; a HEAD not shown to be attached or contained gets a name; otherwise nothing changes; a command cut off anywhere loses nothing |
| Checkout.Worktree.Park | src/channel/execution_checkout.rs:143-175 | naming and committing succeed exactly when the name is free and the commands work, and then the branch holds what was to be parked |
| Checkout.CleanIffNothingToStage | src/channel/execution_checkout.rs:120-124 | the status is clean exactly when nothing but caches is staged and staging everything would stage nothing more |
| Checkout.StagedContentSurvivesIff | src/channel/execution_checkout.rs:146-148 | staged content is in the parked commit exactly when its file was not changed again since |
| Checkout.CutParkingIsSafe | src/channel/execution_checkout.rs:145-173 | whatever part of a parking command was done, nothing is lost |
| Checkout.Worktree.CommitLeftovers | src/channel/execution_checkout.rs:145-173 | the parked commit holds exactly the predecessor's files and HEAD's own version of the caches |
| Checkout.ParkingIsSafe | src/channel/execution_checkout.rs:143-173 | every command between naming the branch and the commit preserves the predecessor's work, done or cut off |
| Checkout.ResetIsSafe | src/channel/execution_checkout.rs:88-101 | fetch, forced detach and clean lose nothing once the leftovers are parked, done or cut off |
| Checkout.LeftoversAreReported | src/channel/execution_checkout.rs:120-123 | whatever differs from HEAD and is not ignored is reported, so a clean status means nothing can be lost |
| Checkout.CleanHasNoLeftovers | src/channel/execution_checkout.rs:120-141 | skipping the parking when the status is truly clean is safe |
| Checkout.StagedTree | src/channel/execution_checkout.rs:145-149 | `add -A` then `reset` of the caches stages all leftovers and no cache change |
| Checkout.CommitParks | src/channel/execution_checkout.rs:150-172 | the commit makes the leftovers reachable from a local branch and keeps the old HEAD reachable |
| Checkout.SafetyLasts | src/channel/execution_checkout.rs:89-101 | what a branch reaches stays reached when history grows |
| Checkout.ResetGivesFreshBase | src/channel/execution_checkout.rs:90-101 | the forced detach and the clean leave a fresh base |
| Mailbox.RunKeepsSound | src/agent/actor.rs:110-157 | in every interleaving, the sends not given up are, each once and in the order they were called, replied to, in the turn, queued, bounced or waiting; turns reply in the order they began, nobody is refused before the drain, and once the actor is gone every send is resolved |
| Mailbox.StepKeepsSound | src/agent/actor.rs:110-157 | each step of a sender, the daemon or the actor keeps that |
| Mailbox.RepliesAreFinal | src/agent/handle.rs:143-157 | a send that was replied to or bounced is never resolved again or otherwise |
| Mailbox.NoTurnAfterDrain | src/agent/actor.rs:116-118 | once the drain began no turn starts, whatever is queued or still sent |
| Mailbox.InFlightReplies | src/agent/handle.rs:101-106 | the turn in flight is the next to reply, drain or not, unless the actor crashes |
| Mailbox.CompactionIsQuiet | src/agent/actor.rs:130-150 | compaction begins after each reply that leaves the mailbox empty and at no other time: the last thing out is the reply of the last turn begun and nothing is in flight |
| Mailbox.StopsWithin | src/agent/handle.rs:30-33 | after the last handle drops the actor takes at most four steps an envelope and is stuck only when it has stopped |
| Mailbox.HandlesAreCounted | src/agent/handle.rs:30-33 | the handles are those there were, those cloned since, less those dropped, and an actor that did not crash stops only when none is left |
| Mailbox.DrainIsBegun | src/agent/handle.rs:104-106 | the drain is on exactly when someone began it |
| Mailbox.CallsAreTheSends | src/agent/handle.rs:134-157 | the calls accounted for are the sends of the run, each caller that gives up taking one away |
| Mailbox.WorkGoesOn | src/agent/actor.rs:110-157 | while a send waits, something is queued or a turn is unfinished, the actor or its channel can take a step |
| Mailbox.CanBeStopped | src/agent/handle.rs:30-33 | from every state a run without a crash leads to the actor's stop |
| Mailbox.DrainAnswersTheQueue | src/agent/handle.rs:101-106 | a drain left alone answers exactly the turn in flight with its outcome, each queued input with a refusal and each queued greeting, in order |
| Mailbox.Actor.RunToExit | src/agent/actor.rs:110-157 | the loop over a closed mailbox serves every envelope in order and stops |
| Mailbox.Actor.ShutDownDaemon | src/daemon.rs:129-139 | begin the drain, drop the last handle, wait: the turn in flight completes, the queue is refused, every accepted send is resolved |
| Mailbox.Actor.Take | src/agent/actor.rs:111-130 | taking an envelope is the receive step, in its three cases |
| Mailbox.Actor.EndTurn | src/agent/actor.rs:130-153 | the reply goes out first; compaction follows exactly when the mailbox is empty |
| Mailbox.Actor.SendMessage | src/agent/handle.rs:134-157 | a send waits for room, or is told that the agent shut down |
| Mailbox.Actor.Enqueue | src/agent/handle.rs:66 | the longest waiting send enters the mailbox when there is room |
| Mailbox.Actor.StartDrain | src/agent/handle.rs:104-106 | the drain flag is the only thing that changes |
| Escalation.RowsAreOddCaps | src/agent/escalation.rs:38-90 | a task has a row exactly when its capped turns in a row are odd in number, a row found at the start counting as one |
| Escalation.RowsStep | src/agent/escalation.rs:55-90 | a remembered turn arms its task's retry when it is capped and none was armed and clears it otherwise; any other turn moves nothing |
| Escalation.OnlyOwnTurnsMatter | src/agent/actor.rs:213-229 | planner turns, unrecorded turns and other tasks leave a task's retry alone |
| Escalation.RetriesDoNotRepeat | src/agent/escalation.rs:66-90 | no task is served by the retry provider in two remembered turns in a row |
| Escalation.Table.RootTurn | src/agent/actor.rs:213-271 | the retry provider serves exactly the turns after an odd number of caps, the planner its own, and a human is asked for exactly at an even cap |
| Escalation.Table.Tier | src/agent/escalation.rs:37-53 | the tier read from the table is the parity of the caps in a row |
| Escalation.Table.Record | src/agent/escalation.rs:55-90 | insert at a first cap, delete after anything else, and which transition is reported |
| Names.DisplayRoundTripIff | src/context/names.rs:9-16 | showing a stored name gives the name back exactly when it has no NUL, no `..`, no `--` and no `-/` |
| Names.SanitizedIsStored | src/context/names.rs:9-11 | a stored name has no slash, no NUL and no double dot, whatever was asked for |
| Names.SanitizeFixesExactlyStored | src/context/names.rs:9-11 | storing is idempotent, and changes exactly the names not in storage form |
| Names.ShownNameFindsItsSession | src/context/names.rs:14-16 | a stored name shown and typed back is the same session |
| Names.NothingElseIsLost | src/context/names.rs:9-11 | storing loses nothing but dots and NULs: the other characters stay in order, slashes as two dashes |
| Names.DotRunLeavesItsParity | src/context/names.rs:9-11 | of a run of dots one is left when their number is odd and none when it is even |
| Sessions.SelectionFollowsProjects | src/agent/actor.rs:353-382 | over any run whose restores succeed the active session is the one the last successful `/project` chose |
| Sessions.TranscriptsDoNotLeak | src/agent/actor.rs:353-382 | a session's transcript changes only by requests aimed at it, whatever spelling a hint uses |
| Sessions.MessagesArrive | src/agent/actor.rs:353-382 | a message whose session can be entered leaves its turn in the session its hint spells, or the selected one, and nothing elsewhere |
| Sessions.ProjectsSelect | src/commands.rs:372-393 | `/project` selects the session the name spells when there is one and it can be entered, and changes nothing otherwise |
| Sessions.ListingFinds | src/commands.rs:372-380 | a name is found in the listing exactly when its stored form exists |
| Sessions.Engine.SwitchProject | src/commands.rs:372-393 | `/project` navigates to existing sessions and never creates one |
| Sessions.Engine.SwitchSession | src/context/flat/mod.rs:312-328 | a switch selects the stored form or, failing, changes nothing; no transcript changes |
| Sessions.Engine.HandleMessage | src/agent/actor.rs:353-382 | a turn extends only the transcript of its target and restores the selection, unless the restore itself fails |
| Sessions.Engine.Handle | src/agent/actor.rs:286-308 | every request is a step of the run relation |
| Poller.DeliveredOnceIff | src/channel/linear.rs:344-347 | a trusted comment first fetched by a poll is never delivered if and only if the poll before read no earlier time than its creation (and no announcement carries it), more than once if and only if it is delivered and this poll, not the last, read an earlier time, and exactly once otherwise |
| Poller.LateCommentIsLost | src/channel/linear.rs:126-141 | for all times start < t <= n0 <= n1 up to year 9999, rendered as the daemon renders them: a comment made at t, first fetched by the poll that reads n1, never reaches the agent |
| Poller.EarlyCommentIsRepeated | src/channel/linear.rs:344-347 | for all times start <= n0 < t and n0 <= n1 up to year 9999, rendered likewise: a comment stamped t and fetched by the poll that reads n0 reaches the agent twice or more |
| Poller.DeliveredOnceIffInSeconds | src/channel/linear.rs:126-141 | the same in seconds, for cursors in whole seconds and stamps in milliseconds |
| Poller.StampOrder | src/channel/linear.rs:345 | a stamp with milliseconds compares with the cursor as its own second does |
| Poller.SnapshotsDeliverOnce | src/channel/linear.rs:300-397 | when fetches are snapshots as of the clock reading, every trusted comment newer than the cursor is delivered exactly once, as soon as the clock has reached it |
| Poller.DeathLosesNothing | src/daemon.rs:92-94 | whatever polls die before their save, a comment newer than the cursor is delivered by the time a poll that reached it is saved |
| Poller.AnnouncedOnce | src/channel/linear.rs:317-339 | an issue that stays fetched is announced exactly once |
| Poller.PlansStayAnnounced | src/channel/linear.rs:383-395 | plan ids are kept only for announced issues |
| Poller.PlanRidesAlong | src/channel/linear.rs:363-393 | while its issue stays fetched a plan is kept, and every relayed comment carries it |
| Poller.PostedPlanIsSaved | src/channel/linear.rs:135-154 | a new issue gets one announcement, a plan exactly when so labelled, and the id its posted reply got is the plan that is saved, wherever it stands among the dispatches |
| Poller.PostedPlanRidesAlong | src/channel/linear.rs:363-393 | every comment relayed for that issue while it stays fetched carries that plan |
| Poller.PlanTextIsTheComment | src/channel/linear.rs:363-375 | a plan goes with its text when the fetch holds the comment it was posted as, by its id alone when it does not |
| Poller.SavedState | src/channel/linear.rs:383-397 | a poll saves the clock reading, as announced exactly the fetched issues with one repository label, and plans of those only; one that dies saves nothing and sent the part it came to |
| Poller.RunsCompose | src/channel/linear.rs:124-154 | a run is its polls one after the other, each from what the one before saved |
| Poller.TotalIsOfAllSent | src/channel/linear.rs:124-154 | what a run delivers of a comment is counted over everything it sent |
| Poller.EventsAreRouted | src/channel/linear.rs:311-381 | every dispatch is for a fetched issue, on the session of its one repository label: new issues are announced, as a plan exactly when so labelled, the others relay comments that are newer than the cursor, trusted and not the bot's |
| Poller.OnlyTrustedPeopleAreHeard | src/channel/linear.rs:344-362 | every remark is by someone other than the bot whose address is trusted, up to the case of its letters |
| Poller.LabelsIgnoreCase | src/channel/linear.rs:311-335 | the plan label is recognised whatever the case of its letters |
| Poller.EventsInOrder | src/channel/linear.rs:300-397 | dispatches come in the order of the fetch |
| Poller.RemarksInOrder | src/channel/linear.rs:340-381 | a known issue's remarks are its comments that drive the agent, each once and in order |
| Poller.RepoLabelIsTheOnlyOne | src/channel/linear.rs:401-411 | an issue has a repository exactly when one label alone has exactly one slash, and it is that label |
| Poller.PollCounts | src/channel/linear.rs:311-381 | one poll shows a comment as often as its own issue holds it if the issue is new or the comment drives, and not at all otherwise |
| Poller.DecideEvents | src/channel/linear.rs:300-397 | the nested loops give the poll's dispatches and its next state |
| Poller.Loop.Tick | src/channel/linear.rs:124-154 | a tick sends the poll's dispatches and saves its state with the plan ids of posted replies |
| Poller.PostComment | src/channel/linear.rs:67-91 | only network failures are retried, after 1, 2 and 4 seconds, at most three times, and the last answer counts |
| Calendar.CivilIsTheDate | src/time.rs:37-50 | every day number gets a valid Gregorian date that counts back to it; no unsigned subtraction wraps |
| Calendar.DateIsTheCivil | src/time.rs:37-50 | no valid date is missed or shared |
| Calendar.TomorrowIsNextDay | src/time.rs:37-50 | the next day number is the calendar's next day, and day 0 is 1970-01-01 |
| Calendar.DatesFollowDays | src/time.rs:37-50 | dates and day numbers have the same order |
| Iso8601.OrderWithinFourDigitYears | src/time.rs:23-31 | up to the end of year 9999 the order of rendered times is time order and rendering is injective |
| Iso8601.FormatReadsBack | src/time.rs:23-31 | a rendered time reads back as its instant, whatever the year: valid date, clock and separators; up to year 9999 it has the form of `date-time` in section 5.6 of RFC 3339 |
| Iso8601.OrderHoldsExactlyToYear9999 | src/time.rs:23-31 | and no larger range has that order |
| LineWriter.ChunkingInvisibleIff | src/errlog.rs:112-136 | the lines emitted are those of the whole stream exactly when no cut leaves an unfinished line over twice the cap |
| LineWriter.AnyChunkingOfModestLines | src/errlog.rs:112-136 | so for lines of at most twice the cap every chunking gives the same output |
| LineWriter.FeedAgainstLines | src/errlog.rs:113-121 | however the stream is cut at least its lines are emitted, and more exactly when a cut forces one out |
| LineWriter.TextFitsCap | src/errlog.rs:48-73 | in text form every bounded line fits the cap |
| LineWriter.ShortLinesPass | src/errlog.rs:48-51 | a line within the cap passes as it is |
| LineWriter.LongLinesKeepTheirHead | src/errlog.rs:48-73 | a longer line becomes its first characters, as many as fit in half the cap, and a marker with its length; in JSON form, the stub of that head and length |
| LineWriter.HeadIsMaximal | src/errlog.rs:54-61 | the head is a prefix of whole characters, and one character more would not fit |
| LineWriter.HeadWastesLittle | src/errlog.rs:54-61 | a head that had to stop leaves at most three bytes of its room unused |
| LineWriter.Feed | src/errlog.rs:113-121 | after each write the buffer holds no newline and at most twice the cap |
| LineWriter.BoundedLineWriter.Write | src/errlog.rs:113-121 | a write feeds its chunk; when the sink fails, the lines not reached stay in the buffer in order and only the last line sent is torn |
| LineWriter.BoundedLineWriter.Flush | src/errlog.rs:116-119 | an unfinished line that grew too long is sent on whole |
| LineWriter.BoundedLineWriter.DrainCompleteLines | src/errlog.rs:102-109 | the complete lines are emitted in order up to the first the sink refuses, none skipped or repeated, and the unfinished one stays |
| LineWriter.BoundedLineWriter.Emit | src/errlog.rs:94-100 | the sink gets the bounded line and a newline or, when it fails, a start of that; the line is gone from the writer either way |
| LineWriter.BoundedLineWriter.Close | src/errlog.rs:128-136 | dropping the writer emits what is left and ignores an error |
| LineWriter.TeeStream | src/errlog.rs:85-136 | over a whole stream the sink holds a start of each line sent to it, in order; if it never fails it holds the bounded lines; for lines of at most twice the cap those are the lines of the stream, however it was cut, and for lines within the cap it holds the stream itself, its last line ended |
| LineWriter.AllLinesRebuildTheStream | src/errlog.rs:102-136 | the lines of a stream, each with its newline, are the stream |
| LineWriter.WholeLinesFillTheSink | src/errlog.rs:94-100 | while nothing fails the sink holds the bounded lines and nothing else |
| Review.SkippedIffRecordedBefore | src/agent/task.rs:321-340 | over any run a reviewer call that carries a full key is skipped exactly when an earlier call that recorded carried the same repository, gate and tree, or the ledger held them from the start |
| Review.RecordedIffLands | src/agent/task.rs:502-586 | a call adds its whole review to the ledger, its row and its findings in order under the call's own labels, exactly when it runs, delivers findings and the write lands; otherwise the ledger stays |
| Review.FoundIffDelivers | src/agent/task.rs:502-556 | what is recorded is the answer's findings block, or the corrected answer's when the first cannot be read |
| Review.BillCoversBothTurns | src/agent/task.rs:395-432 | a corrective turn runs exactly when the answer cannot be read, and one row bills both turns |
| Review.TreesAreRecordedOnce | src/review.rs:169-232 | while lookups work each tree is recorded at most once per gate, and rows only accumulate |
| Review.TaskTool.Execute | src/agent/task.rs:312-436 | a skip runs no turn and adds no usage row, every other call runs one turn and at most one corrective turn and adds one row summing both; the ids shown are exactly the rows added, and a failure trailer means an unchanged ledger |
| Review.TaskTool.RecordWithRetry | src/agent/task.rs:502-556 | an unreadable answer is asked for once more, and whichever answer is readable is recorded once |
| Review.TaskTool.RecordParse | src/agent/task.rs:472-586 | what one answer puts into the ledger and which trailer says so |
| Review.Ledger.RecordReview | src/review.rs:165-210 | a review lands whole with the ids of its findings or, whichever statement fails, not at all |
| Review.Ledger.HasReviewedTree | src/review.rs:212-232 | the memo lookup finds exactly the recorded key |
| Review.Ledger.SetDisposition | src/review.rs:276-291 | only the row with the id changes, and a missing id is reported |
| Review.BlockIsTheLast | src/review.rs:74-78 | a findings block that is found stands after the last mark, up to the first fence |
| Review.BlockIsFound | src/review.rs:74-78 | and a block that stands there is found |
| Review.ParsedIffReadable | src/review.rs:74-78 | what is parsed is what stands in the last findings block, and nothing is parsed where none can be read |
| UsageReport.GroupBy | src/usage.rs:360-373 | the find-or-push loop builds the groups in one pass |
| UsageReport.GroupsPartition | src/usage.rs:358-373 | groups are named by the distinct keys in first-seen order, and each aggregate is the fold of exactly its key's rows |
| UsageReport.KeysInFirstSeenOrder | src/usage.rs:358-359 | no key twice, none missing, none invented, in the order of first occurrence |
| UsageReport.GroupsAddUpToTheHeader | src/usage.rs:550-558 | turns, tokens, cost and cache figures of the groups add up to the header's, and the header has a cost exactly when some group has |
| UsageReport.HeaderIsOfTheRows | src/usage.rs:327-337 | the header's turns, tokens, cost and cache figures are the rows', and it has a cost exactly when some row has |
| UsageReport.GroupIsMeteredIff | src/usage.rs:327-337 | a group has a cost exactly when one of its own rows has |
| UsageReport.GroupsConserve | src/usage.rs:358-373 | any additive figure is conserved by any grouping |
| UsageReport.TasksConserve | src/usage.rs:419-431 | the tasks' turns, costs and active times add up to the rows' |
| UsageReport.GroupByTask | src/usage.rs:419-439 | the task groups come out with none lost or changed, the untracked one last, the others newest activity first |
| UsageReport.TasksAreTheGroups | src/usage.rs:419-431 | there is a group for each task a row names, one for the rows that name none, and no other |
| UsageReport.TaskOrderIsUnique | src/usage.rs:431-437 | untracked last and newest activity first leaves one order only |
| UsageReport.LastSeenIsOwn | src/usage.rs:391-405 | a group's recency index is the last of its own rows, so no two groups are equally recent |
| UsageReport.EndpointsAreExtremes | src/usage.rs:397-404 | a task's end points are the earliest start and the latest end of its timed rows, and exist exactly when it has one |
| UsageReport.SpanIsTheExtent | src/usage.rs:407-410 | a task's span runs from the earliest start to the latest end of its timed rows, and exists exactly when it has one |
| UsageReport.TimesSaturate | src/usage.rs:397-404 | start and end are milliseconds as far as 64 bits hold them |
| UsageReport.SpanCoversIff | src/usage.rs:397-410 | in every ledger a task's span covers a timed row's duration exactly when that row's end fits in 64 bits |

## Left out

- Provider, tools, Linear and GitHub clients, git fetches, the clock and the JSON and UTF-8 codecs are
  parameters: every theorem holds for whatever they answer. Printing a JSON value is taken to be
  injective and never to yield unparseable text.
- The context engine is a list of messages per session and an active name; an urgent compaction may put
  any transcript in its place. How an engine chooses it, how the layered engine assembles what it shows,
  saving to disk, the cutting of oversized tool output and the observed token counts are not part of
  this model.
- Activity events, tracing, the notifier, the journal and the `prompt_tokens` and `tool_calls` counters of
  a turn, which decide nothing.
- Message wordings, reply texts and the truncation of a state report to 3000 bytes: what a message
  embeds is kept, its prose is not.
- The turn's theorems over its script take calls as a JSON parser yields them: no object names a key twice.
- Integer widths where nothing near them happens: turn counters, token sums, row counts and `active_ms`
  are unbounded. Saturation of times is modelled, costs are reals.
- Checkout.Worktree.PrepareAt: does not model an unborn HEAD, nested repositories, file and directory
  conflicts, rename detection, warming the devShell and a directory that was no checkout before; `origin/HEAD`
  is taken to exist, a repeated branch name fails as the command would, and what a removal or a clone that
  stops halfway leaves on disk is not described.
- Sessions.SelectionFollowsProjects: needs restores to succeed, because a failed restore leaves the target
  session selected.
- Escalation.Table.RootTurn: covers turns that ran; a failed lookup of the table refuses the message
  before any turn.
- Review.SkippedIffRecordedBefore: is about calls one after another; two reviewers started together can
  both miss the memo.
- LineWriter.TextFitsCap: is for text lines; escaping can take a JSON stub over the cap.
- `Agg` and `TaskAgg` live by value inside their vector and are modelled as values; the sort by cost of
  the model table, the cache savings line and column formatting are left out.
- GitHub pollers, the duty scheduler, slash-command parsing, memory distillation, sandboxing, redaction
  and configuration checks would add easy members only.
