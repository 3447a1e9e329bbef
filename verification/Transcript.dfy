/** The conversation a turn grows (src/types.rs), and when every tool call in it is answered. */
module Transcript {
  import opened Options
  import opened JsonArgs

  datatype ToolCall = ToolCall(id: string, name: string, args: Args)

  datatype HintKind = AssertHint | RerunHint | StaleEditHint

  datatype Directive = Midpoint | ConfirmReply | PolicyStop | FinalAnswer | StateReport

  /** Message text. Fixed wordings are named, what varies in them is kept. */
  datatype Content =
    | Plain(text: string)
    | Fixed(directive: Directive)
    | Hints(kinds: seq<HintKind>)
    | RepeatRefusal
    | Failure(error: string, repeated: Option<nat>)
    | TimedOut(command: string, secs: nat, repeated: Option<nat>)

  datatype Message =
    | Assistant(content: Content)
    | System(content: Content)
    | Tool(callId: string, content: Content)
    | ToolCalls(text: string, calls: seq<ToolCall>)
    | User(content: Content)

  function Ids(calls: seq<ToolCall>): (r: seq<string>)
    ensures |r| == |calls| && forall k | 0 <= k < |calls| :: r[k] == calls[k].id
  {
    seq(|calls|, k requires 0 <= k < |calls| => calls[k].id)
  }

  /** The calls a message asks answers to. */
  function Expected(m: Message): seq<string> {
    if m.ToolCalls? then Ids(m.calls) else []
  }

  /** `t` opens with one result per id, in order. */
  predicate Answers(t: seq<Message>, ids: seq<string>) {
    |ids| <= |t| && forall k | 0 <= k < |ids| :: t[k].Tool? && t[k].callId == ids[k]
  }

  /** Each `ToolCalls` is followed, in order, by exactly one result per call before any
      other message, and no result stands anywhere else. */
  predicate Closed(t: seq<Message>)
    decreases |t|
  {
    t == [] || (!t[0].Tool? && Answers(t[1..], Expected(t[0])) && Closed(t[1 + |Expected(t[0])|..]))
  }

  // The same, one message at a time.

  datatype Pairing = Awaiting(ids: seq<string>) | Broken

  function Next(p: Pairing, m: Message): Pairing {
    if p.Broken? then Broken
    else if m.Tool? then (if p.ids != [] && p.ids[0] == m.callId then Awaiting(p.ids[1..]) else Broken)
    else if p.ids != [] then Broken
    else Awaiting(Expected(m))
  }

  function Scan(p: Pairing, t: seq<Message>): Pairing
    decreases |t|
  {
    if t == [] then p else Scan(Next(p, t[0]), t[1..])
  }

  /** How a transcript stands: what it still owes, or that it is past repair. */
  function Standing(t: seq<Message>): Pairing {
    Scan(Awaiting([]), t)
  }

  lemma {:induction false} ScanSplit(p: Pairing, a: seq<Message>, b: seq<Message>)
    ensures Scan(p, a + b) == Scan(Scan(p, a), b)
    decreases |a|
  {
    if a == [] {
      assert a + b == b;
    } else {
      assert (a + b)[1..] == a[1..] + b;
      ScanSplit(Next(p, a[0]), a[1..], b);
    }
  }

  lemma ScanOne(t: seq<Message>, m: Message)
    ensures Standing(t + [m]) == Next(Standing(t), m)
  {
    ScanSplit(Awaiting([]), t, [m]);
  }

  lemma {:induction false} BrokenStays(t: seq<Message>)
    ensures Scan(Broken, t) == Broken
  {
    if t != [] { BrokenStays(t[1..]); }
  }

  lemma {:induction false} ScanAnswers(ids: seq<string>, t: seq<Message>)
    ensures Scan(Awaiting(ids), t) == Awaiting([]) <==>
            Answers(t, ids) && Standing(t[|ids|..]) == Awaiting([])
  {
    if ids == [] {
      assert t[0..] == t;
    } else if t != [] {
      if t[0].Tool? && t[0].callId == ids[0] {
        ScanAnswers(ids[1..], t[1..]);
        if |ids| <= |t| {
          assert t[1..][|ids| - 1..] == t[|ids|..];
          assert forall k | 0 < k < |ids| :: t[k] == t[1..][k - 1] && ids[k] == ids[1..][k - 1];
          assert forall k | 0 <= k < |ids| - 1 :: t[1..][k] == t[k + 1] && ids[1..][k] == ids[k + 1];
        }
      } else {
        BrokenStays(t[1..]);
      }
    }
  }

  /** The incremental reading decides the same property. */
  lemma {:induction false} ClosedIsStanding(t: seq<Message>)
    ensures Closed(t) <==> Standing(t) == Awaiting([])
    decreases |t|
  {
    if t != [] {
      var ids := Expected(t[0]);
      if t[0].Tool? {
        BrokenStays(t[1..]);
      } else {
        ScanAnswers(ids, t[1..]);
        if |ids| < |t| {
          assert t[1..][|ids|..] == t[1 + |ids|..];
          ClosedIsStanding(t[1 + |ids|..]);
        }
      }
    }
  }

  function SystemCount(t: seq<Message>): nat {
    if t == [] then 0 else SystemCount(t[..|t| - 1]) + (if t[|t| - 1].System? then 1 else 0)
  }

  function SystemPlaces(t: seq<Message>): set<nat> {
    set i | 0 <= i < |t| && t[i].System? :: i
  }

  /** The System messages are counted place by place. */
  lemma {:induction false} SystemCountIsPlaces(t: seq<Message>)
    ensures SystemCount(t) == |SystemPlaces(t)|
  {
    if t != [] {
      var rest, last := t[..|t| - 1], |t| - 1;
      SystemCountIsPlaces(rest);
      assert SystemPlaces(t) == SystemPlaces(rest) + if t[last].System? then {last} else {};
    }
  }
}
