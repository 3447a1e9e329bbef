/** Which provider serves a root turn, and when a task's retry is armed
    (src/agent/escalation.rs, src/agent/actor.rs). */
module Escalation {
  import opened Options

  type Task = string

  datatype Tier = Usual | Retry
  datatype Transition = Armed | Cleared | Exhausted
  datatype Role = Ordinary | Planner
  datatype Served = ByUsual | ByPlanner | ByRetry

  /** A root turn that ran: whether a retry provider was configured, whether the turn reached its
      iteration cap, and whether the table took the outcome. */
  datatype Turn = Turn(task: Task, role: Role, configured: bool, capped: bool, stored: bool)

  /** A turn that the table remembers. */
  predicate Counts(t: Turn, task: Task) {
    t.task == task && t.role.Ordinary? && t.configured && t.stored
  }

  /** How many of the task's remembered turns, counted back from the latest, were capped. */
  function Streak(h: seq<Turn>, task: Task): nat {
    if h == [] then 0
    else
      var last := h[|h| - 1];
      if !Counts(last, task) then Streak(h[..|h| - 1], task)
      else if last.capped then Streak(h[..|h| - 1], task) + 1
      else 0
  }

  predicate Odd(n: nat) { n % 2 == 1 }

  function Own(h: seq<Turn>, task: Task): seq<Turn> {
    if h == [] then [] else Own(h[..|h| - 1], task) + if Counts(h[|h| - 1], task) then [h[|h| - 1]] else []
  }

  /** The caps in a row, a row found in the table at the start counting as one before them all. */
  function Caps(initial: set<Task>, h: seq<Turn>, task: Task): nat {
    Streak(h, task) + if task in initial && Streak(h, task) == |Own(h, task)| then 1 else 0
  }

  function TierOf(rows: set<Task>, t: Turn): Option<Tier> {
    if t.role.Planner? || !t.configured then None else if t.task in rows then Some(Retry) else Some(Usual)
  }

  function ServedBy(role: Role, tier: Option<Tier>): Served {
    if role.Planner? then ByPlanner else if tier == Some(Retry) then ByRetry else ByUsual
  }

  /** The table's content after a history. */
  function Rows(initial: set<Task>, h: seq<Turn>): set<Task> {
    if h == [] then initial
    else
      var before, t := Rows(initial, h[..|h| - 1]), h[|h| - 1];
      var tier := TierOf(before, t);
      if tier.None? || !t.stored then before
      else if tier == Some(Usual) && t.capped then before + {t.task}
      else before - {t.task}
  }

  /** A remembered turn arms its task's retry when it is capped and none was armed, and clears it in all other
      cases; planner turns, turns without a retry provider and unrecorded ones move nothing. */
  lemma RowsStep(initial: set<Task>, h: seq<Turn>, t: Turn)
    ensures var before, after := Rows(initial, h), Rows(initial, h + [t]);
            after == if !(t.role == Ordinary && t.configured && t.stored) then before
                     else if t.capped && t.task !in before then before + {t.task}
                     else before - {t.task}
  {
    assert (h + [t])[..|h + [t]| - 1] == h;
  }

  /** A task has a row exactly when its caps in a row are odd in number. */
  lemma {:induction false} RowsAreOddCaps(initial: set<Task>, h: seq<Turn>, task: Task)
    ensures task in Rows(initial, h) <==> Odd(Caps(initial, h, task))
    ensures Streak(h, task) <= |Own(h, task)|
  {
    if h != [] { RowsAreOddCaps(initial, h[..|h| - 1], task); }
  }

  /** The table of tasks owed a retry, and the root turns since it was opened. */
  class Table {
    var rows: set<Task>
    ghost const initial: set<Task>
    ghost var history: seq<Turn>

    ghost predicate Valid()
      reads this
    {
      rows == Rows(initial, history)
    }

    constructor (stored: set<Task>)
      ensures Valid() && initial == stored && history == []
    {
      rows, initial, history := stored, stored, [];
    }

    method Tier(task: Task) returns (tier: Tier)
      requires Valid()
      ensures tier.Retry? <==> task in rows
      ensures tier.Retry? <==> Odd(Caps(initial, history, task))
    {
      RowsAreOddCaps(initial, history, task);
      tier := if task in rows then Retry else Usual;
    }

    /** Insert on the first cap, delete on anything after it. */
    method Record(task: Task, tier: Tier, capped: bool) returns (change: Transition)
      modifies this`rows
      ensures rows == if tier.Usual? && capped then old(rows) + {task} else old(rows) - {task}
      ensures change == if !capped then Cleared else if tier.Usual? then Armed else Exhausted
    {
      match (tier, capped)
      case (Usual, true) =>
        rows := rows + {task};
        change := Armed;
      case (Retry, true) =>
        rows := rows - {task};
        change := Exhausted;
      case (_, false) =>
        rows := rows - {task};
        change := Cleared;
    }

    /** One root turn: pick the provider, run, record. `human` says that the reply asks for a human. */
    method RootTurn(t: Turn) returns (served: Served, human: bool)
      requires Valid()
      modifies this
      ensures Valid() && history == old(history) + [t]
      // The retry provider serves exactly the turns after an odd number of caps in a row.
      ensures served.ByRetry? <==> t.role.Ordinary? && t.configured && Odd(Caps(initial, old(history), t.task))
      ensures served.ByPlanner? <==> t.role.Planner?
      // A human is asked for exactly when a remembered cap makes their number in a row even.
      ensures human <==> Counts(t, t.task) && t.capped && !Odd(Caps(initial, history, t.task))
    {
      hide Rows, Caps, Odd;
      var tier := None;
      if t.role.Ordinary? && t.configured {
        var known := Tier(t.task);
        tier := Some(known);
      }
      served := ServedBy(t.role, tier);
      human := false;
      if tier.Some? && t.stored {
        var change := Record(t.task, tier.value, t.capped);
        human := change.Exhausted?;
      }
      RowsStep(initial, history, t);
      history := history + [t];
      RowsAreOddCaps(initial, history, t.task);
    }
  }

  /** Planner turns, unrecorded turns and other tasks leave a task's retry alone. */
  lemma {:induction false} OnlyOwnTurnsMatter(h: seq<Turn>, task: Task)
    ensures Streak(h, task) == Streak(Own(h, task), task)
    ensures Own(Own(h, task), task) == Own(h, task)
  {
    if h != [] {
      OnlyOwnTurnsMatter(h[..|h| - 1], task);
      var own, last := Own(h[..|h| - 1], task), h[|h| - 1];
      assert (own + [last])[..|own + [last]| - 1] == own && own + [] == own;
    }
  }

  /** No task is served by the retry provider twice in a row. */
  lemma RetriesDoNotRepeat(initial: set<Task>, h: seq<Turn>, t: Turn)
    requires Counts(t, t.task) && Odd(Caps(initial, h, t.task))
    ensures !Odd(Caps(initial, h + [t], t.task))
  {
    assert (h + [t])[..|h + [t]| - 1] == h;
    RowsAreOddCaps(initial, h, t.task);
  }
}
