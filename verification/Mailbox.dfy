/** The actor's mailbox and the drain protocol, as steps of senders, the daemon and the actor in
    any interleaving (src/agent/actor.rs, src/agent/handle.rs, src/daemon.rs). */
module Mailbox {

  datatype Envelope = Input(id: nat) | Greeting(id: nat)

  datatype Reply = Done(outcome: string) | Greeted | Draining | ShutDown

  /** A send and what its caller was told. */
  datatype Resolved = Resolved(envelope: Envelope, reply: Reply)

  /** Where the actor's loop stands: waiting, in a turn, past the reply, compacting, or gone. */
  datatype Phase = Idle | Running(envelope: Envelope) | Replied | Compacting | Stopped

  const CAPACITY: nat := 32

  /** `waiting` are the sends the full mailbox has no room for yet. `called` lists the sends whose
      callers have not given up; `accepted`, `log` and `started` record those queued, the replies out
      and the turns begun so far; `bounced` are the sends that found the actor gone. */
  datatype State = State(
    handles: nat,
    drain: bool,
    waiting: seq<Envelope>,
    mailbox: seq<Envelope>,
    phase: Phase,
    called: seq<Envelope>,
    accepted: seq<Envelope>,
    log: seq<Resolved>,
    started: seq<Envelope>,
    bounced: seq<Resolved>)

  datatype Label =
    | Send(envelope: Envelope)
    | Admit
    | GiveUp(k: nat)
    | CloneHandle
    | DropHandle
    | BeginDrain
    | Receive
    | Finish(outcome: string)
    | Check
    | Compacted
    | Exit
    | Crash

  predicate Enabled(s: State, l: Label) {
    match l
    case Send(_) => s.handles > 0
    case Admit => s.waiting != [] && |s.mailbox| < CAPACITY && !s.phase.Stopped?
    case GiveUp(k) => k < |s.waiting|
    case CloneHandle => s.handles > 0
    // A waiting send borrows its handle.
    case DropHandle => s.handles > 1 || (s.handles == 1 && s.waiting == [])
    case BeginDrain => s.handles > 0
    case Receive => s.phase.Idle? && s.mailbox != []
    case Finish(_) => s.phase.Running?
    case Check => s.phase.Replied?
    case Compacted => s.phase.Compacting?
    case Exit => s.phase.Idle? && s.mailbox == [] && s.handles == 0
    case Crash => !s.phase.Stopped?
  }

  /** What the actor does with the envelope it receives. */
  function Taken(s: State, e: Envelope): State {
    match e
    case Greeting(_) => s.(log := s.log + [Resolved(e, Greeted)])
    case Input(_) =>
      if s.drain then s.(log := s.log + [Resolved(e, Draining)])
      else s.(phase := Running(e), started := s.started + [e])
  }

  /** Reply slots dropped unanswered: their callers see the shutdown error. */
  function Abandoned(es: seq<Envelope>): seq<Resolved> {
    seq(|es|, i requires 0 <= i < |es| => Resolved(es[i], ShutDown))
  }

  function InFlight(s: State): seq<Envelope> {
    if s.phase.Running? then [s.phase.envelope] else []
  }

  /** A send waits for room, or finds the actor gone. */
  function Called(s: State, e: Envelope): State {
    var t := s.(called := s.called + [e]);
    if s.phase.Stopped? then t.(bounced := s.bounced + [Resolved(e, ShutDown)])
    else t.(waiting := s.waiting + [e])
  }

  /** The caller of the `k`-th waiting send goes away, and its send with it. */
  function GivenUp(s: State, k: nat): State
    requires k < |s.waiting|
  {
    var rest := s.waiting[..k] + s.waiting[k + 1..];
    s.(waiting := rest, called := s.accepted + Envelopes(s.bounced) + rest)
  }

  function Next(s: State, l: Label): State
    requires Enabled(s, l)
  {
    match l
    case Send(e) => Called(s, e)
    case Admit => s.(waiting := s.waiting[1..], mailbox := s.mailbox + [s.waiting[0]], accepted := s.accepted + [s.waiting[0]])
    case GiveUp(k) => GivenUp(s, k)
    case CloneHandle => s.(handles := s.handles + 1)
    case DropHandle => s.(handles := s.handles - 1)
    case BeginDrain => s.(drain := true)
    case Receive => Taken(s.(mailbox := s.mailbox[1..]), s.mailbox[0])
    case Finish(outcome) => s.(phase := Replied, log := s.log + [Resolved(s.phase.envelope, Done(outcome))])
    case Check => s.(phase := if s.mailbox == [] then Compacting else Idle)
    case Compacted => s.(phase := Idle)
    case Exit => s.(phase := Stopped)
    case Crash =>
      s.(phase := Stopped, mailbox := [], log := s.log + Abandoned(InFlight(s) + s.mailbox),
         waiting := [], bounced := s.bounced + Abandoned(s.waiting))
  }

  predicate Legal(s: State, ls: seq<Label>)
    decreases |ls|
  {
    ls == [] || (Enabled(s, ls[0]) && Legal(Next(s, ls[0]), ls[1..]))
  }

  function After(s: State, ls: seq<Label>): State
    requires Legal(s, ls)
    decreases |ls|
  {
    if ls == [] then s else After(Next(s, ls[0]), ls[1..])
  }

  function Spawned(handles: nat): State {
    State(handles, false, [], [], Idle, [], [], [], [], [])
  }

  // What every interleaving keeps.

  function Envelopes(log: seq<Resolved>): seq<Envelope> {
    seq(|log|, i requires 0 <= i < |log| => log[i].envelope)
  }

  /** The envelopes whose turns replied, in reply order. */
  function Turned(log: seq<Resolved>): seq<Envelope> {
    if log == [] then []
    else Turned(log[..|log| - 1]) + if log[|log| - 1].reply.Done? then [log[|log| - 1].envelope] else []
  }

  /** A reply only an envelope of that kind can get. */
  predicate Fits(r: Resolved) {
    match r.reply
    case Done(_) => r.envelope.Input?
    case Draining => r.envelope.Input?
    case Greeted => r.envelope.Greeting?
    case ShutDown => true
  }

  /** A reply that fits what has happened. */
  predicate Earned(s: State, r: Resolved) {
    (r.reply.Draining? ==> s.drain) && (r.reply.ShutDown? ==> s.phase.Stopped?)
  }

  /** The last thing out is the reply of the last turn begun. */
  predicate JustReplied(s: State) {
    && s.log != [] && s.started != []
    && s.log[|s.log| - 1].reply.Done? && s.log[|s.log| - 1].envelope == s.started[|s.started| - 1]
  }

  predicate Sound(s: State) {
    // Replied, in the turn, queued: the accepted sends, each once, in the order they were queued.
    && Envelopes(s.log) + InFlight(s) + s.mailbox == s.accepted
    // Accepted, bounced, waiting: the sends not given up, each once, in the order they were called.
    && s.accepted + Envelopes(s.bounced) + s.waiting == s.called
    && (if s.phase.Stopped? then s.waiting == [] && s.mailbox == [] else s.bounced == [])
    && (s.handles == 0 ==> s.waiting == [])
    && |s.mailbox| <= CAPACITY
    && (forall i | 0 <= i < |s.log| :: Fits(s.log[i]))
    // Nobody is refused before the drain, and nobody's reply slot is dropped but by a crash.
    && (forall i | 0 <= i < |s.log| :: Earned(s, s.log[i]))
    && (forall i | 0 <= i < |s.bounced| :: s.bounced[i].reply.ShutDown?)
    && (s.phase.Running? ==> s.phase.envelope.Input?)
    // Every turn begun replied, but for the one in flight and the one a crash took.
    && (!s.phase.Stopped? ==> Turned(s.log) + InFlight(s) == s.started)
    && Turned(s.log) <= s.started && |s.started| <= |Turned(s.log)| + 1
    // Compaction comes after the reply of the turn just run.
    && (s.phase.Replied? || s.phase.Compacting? ==> JustReplied(s))
  }

  lemma EnvelopesOfConcat(a: seq<Resolved>, b: seq<Resolved>)
    ensures Envelopes(a + b) == Envelopes(a) + Envelopes(b)
  {
  }

  lemma TurnedOfOne(a: seq<Resolved>, r: Resolved)
    ensures Turned(a + [r]) == Turned(a) + if r.reply.Done? then [r.envelope] else []
  {
    assert (a + [r])[..|a + [r]| - 1] == a;
  }

  lemma {:induction false} AbandonedTurns(a: seq<Resolved>, es: seq<Envelope>)
    ensures Turned(a + Abandoned(es)) == Turned(a)
  {
    if es == [] {
      assert a + Abandoned(es) == a;
    } else {
      var last := Resolved(es[|es| - 1], ShutDown);
      AbandonedTurns(a, es[..|es| - 1]);
      assert a + Abandoned(es) == (a + Abandoned(es[..|es| - 1])) + [last];
      TurnedOfOne(a + Abandoned(es[..|es| - 1]), last);
    }
  }

  lemma StepKeepsSound(s: State, l: Label)
    requires Sound(s) && Enabled(s, l)
    ensures Sound(Next(s, l))
  {
    hide Turned;
    match l
    case Receive => ReceiveKeepsSound(s);
    case Finish(outcome) => AnswerKeepsSound(s, Resolved(s.phase.envelope, Done(outcome)), Next(s, l));
    case Crash => CrashKeepsSound(s);
    case Send(e) => SendKeepsSound(s, e);
    case Admit => AdmitKeepsSound(s);
    case _ =>
  }

  lemma SendKeepsSound(s: State, e: Envelope)
    requires Sound(s) && Enabled(s, Send(e))
    ensures Sound(Next(s, Send(e)))
  {
    hide Turned;
    var queue := s.accepted + Envelopes(s.bounced);
    if s.phase.Stopped? {
      EnvelopesOfConcat(s.bounced, [Resolved(e, ShutDown)]);
      assert queue + [] + [e] == queue + [e] + [];
      assert s.accepted + (Envelopes(s.bounced) + [e]) == queue + [e];
    } else {
      Associate(queue, s.waiting, [e]);
    }
  }

  lemma AdmitKeepsSound(s: State)
    requires Sound(s) && Enabled(s, Admit)
    ensures Sound(Next(s, Admit))
  {
    hide Turned;
    var e := s.waiting[0];
    assert s.waiting == [e] + s.waiting[1..];
    assert Envelopes(s.log) + InFlight(s) + (s.mailbox + [e]) == (Envelopes(s.log) + InFlight(s) + s.mailbox) + [e];
    assert s.accepted + [] + s.waiting == (s.accepted + [e]) + [] + s.waiting[1..];
  }

  lemma ReceiveKeepsSound(s: State)
    requires Sound(s) && Enabled(s, Receive)
    ensures Sound(Next(s, Receive))
  {
    hide Turned;
    var e, t := s.mailbox[0], Next(s, Receive);
    assert s.mailbox == [e] + t.mailbox;
    if e.Greeting? || s.drain {
      AnswerKeepsSound(s, Resolved(e, if e.Greeting? then Greeted else Draining), t);
    } else {
      assert Envelopes(s.log) + [e] + t.mailbox == Envelopes(s.log) + InFlight(s) + s.mailbox;
      assert Turned(s.log) + [] == Turned(s.log) == s.started;
    }
  }

  lemma CrashKeepsSound(s: State)
    requires Sound(s) && Enabled(s, Crash)
    ensures Sound(Next(s, Crash))
  {
    AbandonedTurns(s.log, InFlight(s) + s.mailbox);
    AbandonedAccounts(s.log, InFlight(s) + s.mailbox);
    AbandonedAccounts(s.bounced, s.waiting);
    hide Turned, Envelopes, Fits;
    Associate(Envelopes(s.log), InFlight(s), s.mailbox);
    Associate(s.accepted, Envelopes(s.bounced), s.waiting);
    var t := Next(s, Crash);
    forall i | 0 <= i < |t.log| ensures Fits(t.log[i]) { assert i < |s.log| ==> t.log[i] == s.log[i]; AnyFits(t.log[i]); }
  }

  lemma AnyFits(r: Resolved)
    ensures r.reply.ShutDown? ==> Fits(r)
  {
  }

  lemma AbandonedAccounts(log: seq<Resolved>, es: seq<Envelope>)
    ensures Envelopes(log + Abandoned(es)) == Envelopes(log) + es
    ensures Envelopes(log + Abandoned(es)) + [] + [] == Envelopes(log) + es
    ensures forall a: seq<Envelope> :: a + Envelopes(log + Abandoned(es)) + [] == a + (Envelopes(log) + es)
  {
    EnvelopesOfConcat(log, Abandoned(es));
    assert Envelopes(Abandoned(es)) == es;
  }

  /** The reply that takes the first unanswered envelope off the queue or out of the turn. */
  lemma AnswerKeepsSound(s: State, r: Resolved, t: State)
    requires Sound(s) && Fits(r) && Earned(s, r) && (s.phase.Idle? || s.phase.Running?) && InFlight(s) + s.mailbox == [r.envelope] + t.mailbox
    requires r.reply.Done? <==> s.phase.Running?
    requires t == s.(log := s.log + [r], mailbox := t.mailbox, phase := if r.reply.Done? then Replied else s.phase)
    ensures Sound(t)
  {
    AnswerAccounts(s.log, InFlight(s), s.mailbox, r, t.mailbox);
    hide Turned, Envelopes, Fits;
    assert |InFlight(s) + s.mailbox| == 1 + |t.mailbox|;
    assert (InFlight(s) + s.mailbox)[0] == r.envelope;
    AnswerTurns(s.log, InFlight(s), s.started, r);
    forall i | 0 <= i < |t.log| ensures Fits(t.log[i]) { assert i < |s.log| ==> t.log[i] == s.log[i]; }
  }

  lemma AnswerAccounts(log: seq<Resolved>, flight: seq<Envelope>, mailbox: seq<Envelope>, r: Resolved, rest: seq<Envelope>)
    requires flight + mailbox == [r.envelope] + rest
    ensures Envelopes(log + [r]) + [] + rest == Envelopes(log) + flight + mailbox
  {
    EnvelopesOfConcat(log, [r]);
    assert Envelopes([r]) == [r.envelope];
    Associate(Envelopes(log), flight, mailbox);
    Associate(Envelopes(log), [r.envelope], rest);
    assert Envelopes(log + [r]) + [] == Envelopes(log + [r]);
  }

  lemma AnswerTurns(log: seq<Resolved>, flight: seq<Envelope>, started: seq<Envelope>, r: Resolved)
    requires Turned(log) + flight == started && flight == if r.reply.Done? then [r.envelope] else []
    ensures Turned(log + [r]) == started && Turned(log + [r]) + [] == started
    ensures r.reply.Done? ==> started != [] && started[|started| - 1] == r.envelope
  {
    TurnedOfOne(log, r);
  }

  /** In every interleaving each send resolves at most once, in the order of the calls, with a reply
      of its own kind, and turns reply in the order they began; once the actor is gone, each send
      not given up has been replied to or has bounced. */
  lemma {:induction false} RunKeepsSound(s: State, ls: seq<Label>)
    requires Sound(s) && Legal(s, ls)
    ensures Sound(After(s, ls))
    ensures var t := After(s, ls); t.phase.Stopped? ==> Envelopes(t.log) + Envelopes(t.bounced) == t.called
    decreases |ls|
  {
    if ls != [] {
      StepKeepsSound(s, ls[0]);
      RunKeepsSound(Next(s, ls[0]), ls[1..]);
    } else if s.phase.Stopped? {
      StoppedIsAccounted(s);
    }
  }

  /** What was told stays told, by a reply or a bounce, and what was accepted stays accepted. */
  lemma {:induction false} RepliesAreFinal(s: State, ls: seq<Label>)
    requires Legal(s, ls)
    ensures s.log <= After(s, ls).log && s.bounced <= After(s, ls).bounced && s.accepted <= After(s, ls).accepted
    ensures s.started <= After(s, ls).started && (s.drain ==> After(s, ls).drain)
    decreases |ls|
  {
    if ls != [] { RepliesAreFinal(Next(s, ls[0]), ls[1..]); }
  }

  /** Once the drain began no turn starts, whatever is queued or still sent. */
  lemma {:induction false} NoTurnAfterDrain(s: State, ls: seq<Label>)
    requires s.drain && Legal(s, ls)
    ensures After(s, ls).started == s.started
    decreases |ls|
  {
    if ls != [] { NoTurnAfterDrain(Next(s, ls[0]), ls[1..]); }
  }

  /** A turn in flight is the next to reply, drain or not, unless the actor crashes. */
  lemma {:induction false} InFlightReplies(s: State, ls: seq<Label>)
    requires s.phase.Running? && Legal(s, ls) && Crash !in ls
    ensures var t := After(s, ls);
            if |t.log| == |s.log| then t.phase == s.phase
            else |t.log| > |s.log| && t.log[|s.log|].envelope == s.phase.envelope && t.log[|s.log|].reply.Done?
    decreases |ls|
  {
    if ls != [] {
      if ls[0].Finish? {
        RepliesAreFinal(Next(s, ls[0]), ls[1..]);
      } else {
        InFlightReplies(Next(s, ls[0]), ls[1..]);
      }
    }
  }

  lemma CompactionStep(s: State, l: Label)
    requires Sound(s) && Enabled(s, l)
    ensures !s.phase.Compacting? && Next(s, l).phase.Compacting? <==> l.Check? && s.mailbox == []
    ensures l.Check? && s.mailbox == [] ==> JustReplied(s) && InFlight(s) == [] && JustReplied(Next(s, l))
  {
    hide Turned;
  }

  /** Compaction begins after each reply that leaves an empty mailbox, and at no other time: the last thing out was the reply of the last turn begun, no turn
      is in flight and nothing is queued. */
  lemma {:induction false} CompactionIsQuiet(s: State, ls: seq<Label>, k: nat)
    requires Sound(s) && Legal(s, ls) && k < |ls|
    ensures Legal(s, ls[..k]) && Legal(s, ls[..k + 1])
    ensures var before, after := After(s, ls[..k]), After(s, ls[..k + 1]);
            && (!before.phase.Compacting? && after.phase.Compacting? <==> ls[k].Check? && before.mailbox == [])
            && (ls[k].Check? && before.mailbox == [] ==>
                  JustReplied(before) && InFlight(before) == [] && JustReplied(after))
    decreases |ls|
  {
    var rest := ls[1..];
    assert ls[..k + 1][0] == ls[0] && ls[..k + 1][1..] == rest[..k];
    StepKeepsSound(s, ls[0]);
    CompactionStep(s, ls[0]);
    hide Sound, JustReplied, Next, Enabled;
    if k > 0 {
      assert ls[..k][0] == ls[0] && ls[..k][1..] == rest[..k - 1];
      CompactionIsQuiet(Next(s, ls[0]), rest, k - 1);
    }
  }

  // Handles, and who the daemon waits for.

  function Clones(ls: seq<Label>): nat {
    if ls == [] then 0 else (if ls[0].CloneHandle? then 1 else 0) + Clones(ls[1..])
  }

  function Drops(ls: seq<Label>): nat {
    if ls == [] then 0 else (if ls[0].DropHandle? then 1 else 0) + Drops(ls[1..])
  }

  /** The handles are those there were, those cloned since, less those dropped; and an actor that did not
      crash stops only when none is left. */
  lemma {:induction false} HandlesAreCounted(s: State, ls: seq<Label>)
    requires Legal(s, ls)
    ensures After(s, ls).handles == s.handles + Clones(ls) - Drops(ls)
    ensures Crash !in ls && (s.phase.Stopped? ==> s.handles == 0) && After(s, ls).phase.Stopped? ==>
              s.handles + Clones(ls) == Drops(ls)
    decreases |ls|
  {
    if ls != [] { HandlesAreCounted(Next(s, ls[0]), ls[1..]); }
  }

  /** The drain is on exactly when it was or someone began it since. */
  lemma {:induction false} DrainIsBegun(s: State, ls: seq<Label>)
    requires Legal(s, ls)
    ensures After(s, ls).drain <==> s.drain || BeginDrain in ls
    decreases |ls|
  {
    if ls != [] { DrainIsBegun(Next(s, ls[0]), ls[1..]); }
  }

  function Sends(ls: seq<Label>): seq<Envelope> {
    if ls == [] then [] else (if ls[0].Send? then [ls[0].envelope] else []) + Sends(ls[1..])
  }

  function GiveUps(ls: seq<Label>): nat {
    if ls == [] then 0 else (if ls[0].GiveUp? then 1 else 0) + GiveUps(ls[1..])
  }

  /** The calls to account for are the sends of the run, each caller that gives up taking its own away. */
  lemma {:induction false} CallsAreTheSends(s: State, ls: seq<Label>)
    requires Sound(s) && Legal(s, ls)
    ensures |After(s, ls).called| + GiveUps(ls) == |s.called| + |Sends(ls)|
    ensures GiveUps(ls) == 0 ==> After(s, ls).called == s.called + Sends(ls)
    decreases |ls|
  {
    if ls == [] {
      assert s.called + Sends(ls) == s.called;
    } else {
      var t := Next(s, ls[0]);
      StepKeepsSound(s, ls[0]);
      CalledStep(s, ls[0]);
      CallsAreTheSends(t, ls[1..]);
      hide Sound, Next, Enabled;
      Associate(s.called, if ls[0].Send? then [ls[0].envelope] else [], Sends(ls[1..]));
      if !ls[0].Send? { assert s.called + [] == s.called; }
    }
  }

  lemma CalledStep(s: State, l: Label)
    requires Sound(s) && Enabled(s, l)
    ensures !l.GiveUp? ==> Next(s, l).called == s.called + if l.Send? then [l.envelope] else []
    ensures l.GiveUp? ==> |Next(s, l).called| == |s.called| - 1
    ensures l.GiveUp? ==> var rest := Next(s, l).waiting; s.waiting == rest[..l.k] + [s.waiting[l.k]] + rest[l.k..]
  {
    hide Turned;
    if l.GiveUp? {
      var rest := Next(s, l).waiting;
      assert rest[..l.k] == s.waiting[..l.k] && rest[l.k..] == s.waiting[l.k + 1..];
    }
  }

  /** While a send waits, the mailbox holds something or a turn is unfinished, there is a step to take that
      needs no caller and no crash. */
  lemma WorkGoesOn(s: State) returns (l: Label)
    requires Sound(s) && !s.phase.Stopped? && (s.waiting != [] || s.mailbox != [] || !s.phase.Idle?)
    ensures Enabled(s, l) && (l.Admit? || l.Receive? || l.Finish? || l.Check? || l.Compacted?)
  {
    l := match s.phase
      case Running(_) => Finish("")
      case Replied => Check
      case Compacting => Compacted
      case _ => if s.mailbox != [] then Receive else Admit;
  }

  lemma OneStepOn(s: State, l: Label, ls: seq<Label>)
    requires Enabled(s, l) && Legal(Next(s, l), ls)
    ensures Legal(s, [l] + ls) && After(s, [l] + ls) == After(Next(s, l), ls)
  {
    assert ([l] + ls)[1..] == ls;
  }

  /** The actor can always be brought to stop without a crash: waiting callers give up, the handles are
      dropped, and the actor serves what is queued. */
  lemma {:induction false} CanBeStopped(s: State) returns (ls: seq<Label>)
    requires Sound(s)
    ensures Legal(s, ls) && After(s, ls).phase.Stopped? && Crash !in ls
    decreases |s.waiting|, s.handles, Rank(s)
  {
    ls := [];
    if !s.phase.Stopped? {
      var l := if s.waiting != [] then GiveUp(0) else if s.handles > 0 then DropHandle else Exit;
      if s.waiting == [] && s.handles == 0 && (s.mailbox != [] || !s.phase.Idle?) { l := WorkGoesOn(s); }
      StepKeepsSound(s, l);
      hide Sound, Turned;
      ls := CanBeStopped(Next(s, l));
      OneStepOn(s, l, ls);
      ls := [l] + ls;
    }
  }

  // Shutdown.

  /** How much the actor has left to do once nobody can send. */
  function Rank(s: State): nat {
    if s.phase.Stopped? then 0
    else 1 + 4 * |s.mailbox| + (if s.phase.Running? then 3 else if s.phase.Replied? then 2 else if s.phase.Compacting? then 1 else 0)
  }

  /** After the last handle drops the actor needs at most four steps an envelope, and is stuck
      only when it has stopped. */
  lemma {:induction false} StopsWithin(s: State, ls: seq<Label>)
    requires s.handles == 0 && s.waiting == [] && Legal(s, ls)
    ensures |ls| <= Rank(s) && After(s, ls).handles == 0
    ensures !After(s, ls).phase.Stopped? ==> exists l: Label :: !l.Crash? && Enabled(After(s, ls), l)
    decreases |ls|
  {
    if ls == [] {
      assert Enabled(s, if s.phase.Running? then Finish("") else if s.phase.Replied? then Check
                        else if s.phase.Compacting? then Compacted else if s.mailbox == [] then Exit else Receive)
             || s.phase.Stopped?;
    } else {
      StopsWithin(Next(s, ls[0]), ls[1..]);
    }
  }

  /** What a draining actor tells the queue. */
  function Refusals(es: seq<Envelope>): seq<Resolved> {
    if es == [] then []
    else [Resolved(es[0], if es[0].Input? then Draining else Greeted)] + Refusals(es[1..])
  }

  /** The outcome of the first turn that finishes. */
  function FirstOutcome(ls: seq<Label>): string {
    if ls == [] then "" else if ls[0].Finish? then ls[0].outcome else FirstOutcome(ls[1..])
  }

  /** The replies a draining actor still owes, if its turn ends with `outcome`. */
  function Owed(s: State, outcome: string): seq<Resolved> {
    (if s.phase.Running? then [Resolved(s.phase.envelope, Done(outcome))] else []) + Refusals(s.mailbox)
  }

  lemma OwedStep(s: State, l: Label, outcome: string)
    requires s.handles == 0 && s.waiting == [] && s.drain && Enabled(s, l) && !l.Crash? && (l.Finish? ==> l.outcome == outcome)
    ensures Next(s, l).log + Owed(Next(s, l), outcome) == s.log + Owed(s, outcome)
  {
    var t := Next(s, l);
    if l.Receive? {
      var first := Refusals(s.mailbox)[..1];
      assert t.log == s.log + first && Refusals(s.mailbox) == first + Refusals(t.mailbox);
      assert Owed(s, outcome) == Refusals(s.mailbox) && Owed(t, outcome) == Refusals(t.mailbox);
      Associate(s.log, first, Refusals(t.mailbox));
    } else if l.Finish? {
      Associate(s.log, [Resolved(s.phase.envelope, Done(outcome))], Refusals(s.mailbox));
      assert Owed(t, outcome) == Refusals(s.mailbox);
    }
  }

  /** A shutdown drained and left alone answers exactly this: the turn in flight with its own
      outcome, each queued input with a refusal, each queued greeting, in queue order. */
  lemma {:induction false} DrainAnswersTheQueue(s: State, ls: seq<Label>)
    requires s.handles == 0 && s.waiting == [] && s.drain && Legal(s, ls) && Crash !in ls && After(s, ls).phase.Stopped?
    requires s.phase.Stopped? ==> s.mailbox == []
    ensures After(s, ls).log == s.log + Owed(s, FirstOutcome(ls))
    decreases |ls|
  {
    if ls == [] {
      assert Owed(s, "") == [];
    } else {
      OwedStep(s, ls[0], FirstOutcome(ls));
      DrainAnswersTheQueue(Next(s, ls[0]), ls[1..]);
      NoTurnLeft(s, ls[0], FirstOutcome(ls), FirstOutcome(ls[1..]));
    }
  }

  /** Only a finishing turn uses up an outcome, and none follows it. */
  lemma NoTurnLeft(s: State, l: Label, outcome: string, later: string)
    requires s.drain && Enabled(s, l) && (!l.Finish? ==> outcome == later)
    ensures Owed(Next(s, l), outcome) == Owed(Next(s, l), later)
  {
  }

  // The actor's own loop.

  /** What the loop tells a closed mailbox: `turn` is the outcome of an envelope's turn. */
  function Served(drain: bool, turn: Envelope -> string, es: seq<Envelope>): seq<Resolved> {
    if es == [] then []
    else [Resolved(es[0], if es[0].Greeting? then Greeted else if drain then Draining else Done(turn(es[0])))]
         + Served(drain, turn, es[1..])
  }

  lemma {:induction false} DrainedServiceRefuses(turn: Envelope -> string, es: seq<Envelope>)
    ensures Served(true, turn, es) == Refusals(es)
  {
    if es != [] { DrainedServiceRefuses(turn, es[1..]); }
  }

  lemma StoppedIsAccounted(s: State)
    requires Sound(s) && s.phase.Stopped?
    ensures Envelopes(s.log) + Envelopes(s.bounced) == s.called
  {
    hide Turned;
    assert Envelopes(s.log) + [] + [] == Envelopes(s.log);
    assert s.accepted + Envelopes(s.bounced) + [] == s.accepted + Envelopes(s.bounced);
  }

  lemma ReceivedFields(s: State)
    requires Enabled(s, Receive)
    ensures var e := s.mailbox[0];
            var begins := e.Input? && !s.drain;
            var log := if begins then s.log else s.log + [Resolved(e, if e.Greeting? then Greeted else Draining)];
            Next(s, Receive) == State(s.handles, s.drain, s.waiting, s.mailbox[1..], if begins then Running(e) else s.phase,
                                      s.called, s.accepted, log, if begins then s.started + [e] else s.started, s.bounced)
  {
  }

  class Actor {
    var handles: nat
    var drain: bool
    var waiting: seq<Envelope>
    var mailbox: seq<Envelope>
    var phase: Phase
    var log: seq<Resolved>
    var bounced: seq<Resolved>
    var turnSeq: nat
    ghost var called: seq<Envelope>
    ghost var accepted: seq<Envelope>
    ghost var started: seq<Envelope>

    ghost function View(): State
      reads this
    {
      State(handles, drain, waiting, mailbox, phase, called, accepted, log, started, bounced)
    }

    ghost predicate Valid()
      reads this
    {
      Sound(View()) && turnSeq == |started|
    }

    constructor ()
      ensures Valid() && View() == Spawned(1)
    {
      handles, drain, waiting, mailbox, phase, log, bounced, turnSeq := 1, false, [], [], Idle, [], [], 0;
      called, accepted, started := [], [], [];
    }

    /** A caller's send. */
    method SendMessage(e: Envelope)
      requires Valid() && Enabled(View(), Send(e))
      modifies this
      ensures Valid() && View() == Next(old(View()), Send(e))
    {
      StepKeepsSound(View(), Send(e));
      called := called + [e];
      if phase.Stopped? {
        bounced := bounced + [Resolved(e, ShutDown)];
      } else {
        waiting := waiting + [e];
      }
    }

    /** The longest waiting send enters the mailbox. */
    method Enqueue()
      requires Valid() && Enabled(View(), Admit)
      modifies this
      ensures Valid() && View() == Next(old(View()), Admit)
    {
      StepKeepsSound(View(), Admit);
      accepted, mailbox, waiting := accepted + [waiting[0]], mailbox + [waiting[0]], waiting[1..];
    }

    method StartDrain()
      requires Valid() && Enabled(View(), BeginDrain)
      modifies this
      ensures Valid() && View() == Next(old(View()), BeginDrain)
    {
      drain := true;
    }

    method DropLast()
      requires Valid() && Enabled(View(), DropHandle)
      modifies this
      ensures Valid() && View() == Next(old(View()), DropHandle)
    {
      StepKeepsSound(View(), DropHandle);
      handles := handles - 1;
    }

    /** The head of the loop: take the next envelope and answer it or begin its turn. */
    method Take()
      requires Valid() && Enabled(View(), Receive)
      modifies this
      ensures Valid() && View() == Next(old(View()), Receive)
    {
      StepKeepsSound(View(), Receive);
      ReceivedFields(View());
      hide Sound, Next, Enabled;
      var e := mailbox[0];
      mailbox := mailbox[1..];
      if e.Greeting? {
        log := log + [Resolved(e, Greeted)];
      } else if drain {
        log := log + [Resolved(e, Draining)];
      } else {
        phase, turnSeq, started := Running(e), turnSeq + 1, started + [e];
      }
    }

    /** The rest of a turn's iteration: reply, then compact unless something is queued. */
    method EndTurn(outcome: string) returns (compacted: bool)
      requires Valid() && phase.Running?
      modifies this
      ensures Valid() && phase.Idle? && log == old(log) + [Resolved(old(phase).envelope, Done(outcome))]
      ensures mailbox == old(mailbox) && drain == old(drain) && handles == old(handles)
      ensures started == old(started) && accepted == old(accepted) && bounced == old(bounced)
      ensures called == old(called) && waiting == old(waiting)
      ensures compacted <==> mailbox == []
    {
      StepKeepsSound(View(), Finish(outcome));
      log := log + [Resolved(phase.envelope, Done(outcome))];
      phase := Replied;
      compacted := mailbox == [];
      phase := Idle;
    }

    /** The loop after the last handle dropped: it serves what is queued and exits. */
    method RunToExit(turn: Envelope -> string)
      requires Valid() && phase.Idle? && handles == 0
      modifies this
      ensures Valid() && phase.Stopped? && log == old(log) + Served(drain, turn, old(mailbox))
      ensures drain == old(drain) && called == old(called) && Envelopes(log) + Envelopes(bounced) == called
    {
      hide Turned, JustReplied, Envelopes;
      while mailbox != []
        invariant Valid() && phase.Idle? && handles == 0
        invariant log + Served(drain, turn, mailbox) == old(log) + Served(drain, turn, old(mailbox))
        invariant drain == old(drain) && called == old(called)
        decreases |mailbox|
      {
        ghost var queued, said := mailbox, log;
        Take();
        if phase.Running? { var _ := EndTurn(turn(phase.envelope)); }
        Associate(said, Served(drain, turn, queued)[..1], Served(drain, turn, mailbox));
        assert Served(drain, turn, queued) == Served(drain, turn, queued)[..1] + Served(drain, turn, mailbox);
      }
      StepKeepsSound(View(), Exit);
      phase := Stopped;
      assert Served(drain, turn, mailbox) == [];
      StoppedIsAccounted(View());
    }

    /** The daemon after the shutdown signal: its loops are gone, so its handle is the last. It
        begins the drain, drops the handle and waits for the actor. */
    method ShutDownDaemon(turn: Envelope -> string)
      requires Valid() && handles == 1 && waiting == [] && !phase.Stopped?
      modifies this
      ensures Valid() && phase.Stopped? && Envelopes(log) + Envelopes(bounced) == called == old(called)
      ensures var flight := old(phase);
              log == old(log) + (if flight.Running? then [Resolved(flight.envelope, Done(turn(flight.envelope)))] else [])
                     + Refusals(old(mailbox))
    {
      hide Turned, JustReplied, Envelopes;
      StartDrain();
      DropLast();
      if phase.Running? { var _ := EndTurn(turn(phase.envelope)); }
      // A compaction under way ends by itself.
      phase := Idle;
      DrainedServiceRefuses(turn, mailbox);
      RunToExit(turn);
    }
  }

  lemma Associate<T>(a: seq<T>, b: seq<T>, c: seq<T>)
    ensures (a + b) + c == a + (b + c)
  {
  }
}
