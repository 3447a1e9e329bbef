/** Which session is active and whose transcript a turn extends
    (src/agent/actor.rs, src/commands.rs, src/context/flat/mod.rs). */
module Sessions {
  import opened Options
  import opened Names

  type Transcript = seq<string>

  /** The active stored name and every session's messages, the active one's included. */
  datatype Store = Store(active: string, transcripts: map<string, Transcript>) {
    predicate Valid() {
      Stored(active) && active in transcripts && forall s | s in transcripts :: Stored(s)
    }

    function Of(s: string): Transcript {
      if s in transcripts then transcripts[s] else []
    }
  }

  /** One thing the actor is asked to do, with the outcomes the engine may report. */
  datatype Request =
    | Message(hint: Option<string>, enters: bool, turn: Transcript, restores: bool)
    | Project(name: string, switches: bool)
    | Rewrite(turn: Transcript)

  /** The session a message is for: its hint, or whatever is selected. */
  function Target(active: string, hint: Option<string>): string {
    Sanitize(hint.GetOr(active))
  }

  predicate Known(s: Store, name: string) {
    Sanitize(name) in s.transcripts
  }

  /** Whether a request's switch to `name` goes through. */
  predicate Succeeds(s: Store, r: Request) {
    match r
    case Message(hint, enters, _, _) => enters || Target(s.active, hint) == s.active
    case Project(name, switches) => Known(s, name) && (switches || Sanitize(name) == s.active)
    case Rewrite(_) => true
  }

  /** The selection a request leaves behind. */
  function Selected(s: Store, r: Request): string {
    match r
    case Message(hint, _, _, restores) =>
      if !Succeeds(s, r) || restores then s.active else Target(s.active, hint)
    case Project(name, _) => if Succeeds(s, r) then Sanitize(name) else s.active
    case Rewrite(_) => s.active
  }

  /** The only transcripts a request may change. */
  function Touched(s: Store, r: Request): set<string> {
    match r
    case Message(hint, _, _, _) => if Succeeds(s, r) then {Target(s.active, hint)} else {}
    case Project(_, _) => {}
    case Rewrite(_) => {s.active}
  }

  ghost predicate Step(s: Store, r: Request, t: Store) {
    && s.Valid() && t.Valid()
    && t.active == Selected(s, r)
    && (forall x | x !in Touched(s, r) :: t.Of(x) == s.Of(x))
    && (forall x | x in Touched(s, r) :: t.Of(x) == r.turn)
  }

  ghost predicate Run(states: seq<Store>, reqs: seq<Request>) {
    |states| == |reqs| + 1 && forall i | 0 <= i < |reqs| :: Step(states[i], reqs[i], states[i + 1])
  }

  /** The name the last successful `/project` chose among the first `i` requests. */
  function Chosen(states: seq<Store>, reqs: seq<Request>, i: nat): string
    requires |states| == |reqs| + 1 && i <= |reqs|
  {
    if i == 0 then states[0].active
    else if reqs[i - 1].Project? && Succeeds(states[i - 1], reqs[i - 1]) then Sanitize(reqs[i - 1].name)
    else Chosen(states, reqs, i - 1)
  }

  /** Over any run whose restores succeed, only `/project` moves the selection. */
  lemma {:induction false} SelectionFollowsProjects(states: seq<Store>, reqs: seq<Request>, i: nat)
    requires Run(states, reqs) && i <= |reqs|
    requires forall k | 0 <= k < |reqs| && reqs[k].Message? :: reqs[k].restores
    ensures states[i].active == Chosen(states, reqs, i)
  {
    if i > 0 {
      SelectionFollowsProjects(states, reqs, i - 1);
      assert Step(states[i - 1], reqs[i - 1], states[i]);
    }
  }

  /** A request aimed at some session other than `x`, by hint or by the current choice. */
  predicate Elsewhere(chosen: string, r: Request, x: string) {
    match r
    case Message(Some(h), _, _, _) => Sanitize(h) != x
    case Message(None, _, _, _) => chosen != x
    case Project(_, _) => true
    case Rewrite(_) => chosen != x
  }

  /** A session's transcript moves only by requests aimed at it: hinted messages never leak,
      whatever spelling the hint uses and whatever is selected meanwhile. */
  lemma {:induction false} TranscriptsDoNotLeak(states: seq<Store>, reqs: seq<Request>, x: string, i: nat, j: nat)
    requires Run(states, reqs) && i <= j <= |reqs|
    requires forall k | 0 <= k < |reqs| && reqs[k].Message? :: reqs[k].restores
    requires forall k | i <= k < j :: Elsewhere(Chosen(states, reqs, k), reqs[k], x)
    ensures states[j].Of(x) == states[i].Of(x)
  {
    hide Sanitize, Chosen, Elsewhere, Step;
    if i < j {
      TranscriptsDoNotLeak(states, reqs, x, i, j - 1);
      SelectionFollowsProjects(states, reqs, j - 1);
      assert Step(states[j - 1], reqs[j - 1], states[j - 1 + 1]);
      assert Elsewhere(Chosen(states, reqs, j - 1), reqs[j - 1], x);
      ElsewhereIsUntouched(states[j - 1], reqs[j - 1], states[j], x);
    }
  }

  lemma ElsewhereIsUntouched(s: Store, r: Request, t: Store, x: string)
    requires Step(s, r, t) && Elsewhere(s.active, r, x)
    ensures t.Of(x) == s.Of(x)
  {
    StoredIsFixed(s.active);
    assert x !in Touched(s, r);
  }

  /** A message whose session can be entered leaves its turn in the session its hint spells, or in the
      selected one, and nothing anywhere else; one whose session cannot be entered changes nothing. */
  lemma MessagesArrive(s: Store, r: Request, t: Store)
    requires Step(s, r, t) && r.Message?
    ensures var target := if r.hint.Some? then Sanitize(r.hint.value) else s.active;
            && (r.enters || target == s.active ==>
                  && t.Of(target) == r.turn && (forall x | x != target :: t.Of(x) == s.Of(x))
                  && t.active == if r.restores then s.active else target)
            && (!r.enters && target != s.active ==> t.active == s.active && forall x :: t.Of(x) == s.Of(x))
  {
    StoredIsFixed(s.active);
    assert r.hint.None? ==> Target(s.active, r.hint) == s.active;
  }

  /** `/project` selects the session the name spells when there is one and it can be entered, and nothing
      otherwise; it changes no transcript. */
  lemma ProjectsSelect(s: Store, r: Request, t: Store)
    requires Step(s, r, t) && r.Project?
    ensures var stem := Sanitize(r.name);
            && t.active == (if stem in s.transcripts && (r.switches || stem == s.active) then stem else s.active)
            && forall x :: t.Of(x) == s.Of(x)
  {
  }

  class Engine {
    var active: string
    var transcripts: map<string, Transcript>

    ghost predicate Valid()
      reads this
    {
      State().Valid()
    }

    ghost function State(): Store
      reads this
    {
      Store(active, transcripts)
    }

    constructor (first: string)
      requires Stored(first)
      ensures Valid() && active == first && transcripts == map[first := []]
    {
      active, transcripts := first, map[first := []];
    }

    /** Save the current session, then load or create the other; a failure changes nothing. */
    method SwitchSession(name: string, works: bool) returns (ok: bool)
      requires Valid()
      modifies this
      ensures Valid()
      ensures ok <==> works || Sanitize(name) == old(active)
      ensures active == if ok then Sanitize(name) else old(active)
      ensures forall s :: State().Of(s) == old(State()).Of(s)
      ensures old(transcripts).Keys <= transcripts.Keys <= old(transcripts).Keys + {Sanitize(name)}
    {
      var target := Sanitize(name);
      if target == active { return true; }
      if !works { return false; }
      SanitizedIsStored(name);
      if target !in transcripts { transcripts := transcripts[target := []]; }
      active := target;
      ok := true;
    }

    /** The names a listing shows. */
    method ListSessions() returns (names: set<string>)
      requires Valid()
      ensures names == set s | s in transcripts :: Desanitize(s)
    {
      names := set s | s in transcripts :: Desanitize(s);
    }

    /** `/project name`: navigation only, never creation. */
    method SwitchProject(name: string, works: bool) returns (ok: bool)
      requires Valid()
      modifies this
      ensures Valid() && transcripts == old(transcripts)
      ensures ok <==> Known(old(State()), name) && (works || Sanitize(name) == old(active))
      ensures active == if ok then Sanitize(name) else old(active)
    {
      var sessions := ListSessions();
      var target := Sanitize(name);
      ListingFinds(State(), name);
      if !exists s | s in sessions :: Sanitize(s) == target { return false; }
      ok := SwitchSession(name, works);
      assert target in old(transcripts);
      assert transcripts.Keys == old(transcripts).Keys;
      assert forall s | s in transcripts :: State().Of(s) == old(State()).Of(s);
    }

    /** The turn itself: it rewrites the selected transcript, whichever that is. */
    method RunTurn(after: Transcript)
      requires Valid()
      modifies this`transcripts
      ensures Valid() && transcripts == old(transcripts)[active := after]
    {
      transcripts := transcripts[active := after];
    }

    /** A message, on the hinted session for the duration of the turn. */
    method HandleMessage(hint: Option<string>, enters: bool, turn: Transcript, restores: bool) returns (ran: bool)
      requires Valid()
      modifies this
      ensures Valid()
      ensures ran <==> enters || Target(old(active), hint) == old(active)
      ensures !ran ==> active == old(active) && forall s :: State().Of(s) == old(State()).Of(s)
      ensures ran ==>
                && (forall s | s != Target(old(active), hint) :: State().Of(s) == old(State()).Of(s))
                && State().Of(Target(old(active), hint)) == turn
      ensures active == if !ran || restores then old(active) else Target(old(active), hint)
    {
      var original := active;
      StoredIsFixed(original);
      var target := hint.GetOr(original);
      var switched := target != original;
      if switched {
        var entered := SwitchSession(target, enters);
        if !entered { return false; }
      }
      RunTurn(turn);
      if switched {
        var _ := SwitchSession(original, restores);
      }
      ran := true;
    }

    method Handle(r: Request)
      requires Valid()
      modifies this
      ensures Valid()
      ensures Step(old(State()), r, State())
    {
      match r
      case Message(hint, enters, turn, restores) =>
        var _ := HandleMessage(hint, enters, turn, restores);
        StoredIsFixed(old(active));
      case Project(name, switches) => var _ := SwitchProject(name, switches);
      case Rewrite(turn) => RunTurn(turn);
    }
  }

  /** A name is found in the listing exactly when its stored form exists. */
  lemma ListingFinds(s: Store, name: string)
    requires s.Valid()
    ensures (exists n | n in (set t | t in s.transcripts :: Desanitize(t)) :: Sanitize(n) == Sanitize(name)) <==> Known(s, name)
  {
    forall t | t in s.transcripts ensures Sanitize(Desanitize(t)) == t { ShownNameFindsItsSession(t); }
    if Known(s, name) {
      assert Desanitize(Sanitize(name)) in (set t | t in s.transcripts :: Desanitize(t));
    }
  }
}
