/** Grouping the usage ledger's rows for the report (src/usage.rs). */
module UsageReport {
  import opened Options

  datatype Row = Row(
    gitSha: Option<string>,
    model: string,
    promptTokens: nat,
    completionTokens: nat,
    cost: Option<real>,
    task: Option<string>,
    startedAt: Option<nat>,
    durationMs: Option<nat>,
    cachedTokens: Option<nat>)

  datatype Agg = Agg(turns: nat, tokens: nat, cost: real, metered: bool, cached: nat, cachedPrompt: nat) {
    function Add(row: Row): Agg {
      Agg(turns + 1,
          tokens + row.promptTokens + row.completionTokens,
          cost + row.cost.GetOr(0.0),
          metered || row.cost.Some?,
          cached + row.cachedTokens.GetOr(0),
          cachedPrompt + if row.cachedTokens.Some? then row.promptTokens else 0)
    }
  }

  const EMPTY := Agg(0, 0, 0.0, false, 0, 0)

  const U64_MAX: nat := 0xFFFF_FFFF_FFFF_FFFF

  function Saturated(n: nat): nat {
    if n <= U64_MAX then n else U64_MAX
  }

  datatype TaskAgg = TaskAgg(
    turns: nat,
    cost: real,
    metered: bool,
    activeMs: nat,
    startMinMs: Option<nat>,
    endMaxMs: Option<nat>,
    lastSeen: nat)
  {
    function Add(row: Row, index: nat): TaskAgg {
      var paid := this.(turns := turns + 1, cost := cost + row.cost.GetOr(0.0), metered := metered || row.cost.Some?,
                        lastSeen := index);
      if !Timed(row) then paid
      else paid.(activeMs := activeMs + row.durationMs.value,
                 startMinMs := Some(if startMinMs.Some? && startMinMs.value <= StartMs(row) then startMinMs.value else StartMs(row)),
                 endMaxMs := Some(if endMaxMs.Some? && endMaxMs.value >= EndMs(row) then endMaxMs.value else EndMs(row)))
    }

    function SpanMs(): Option<nat> {
      if startMinMs.None? || endMaxMs.None? then None
      else Some(if endMaxMs.value >= startMinMs.value then endMaxMs.value - startMinMs.value else 0)
    }
  }

  const NO_TURNS := TaskAgg(0, 0.0, false, 0, None, None, 0)

  predicate Timed(row: Row) {
    row.startedAt.Some? && row.durationMs.Some?
  }

  function StartMs(row: Row): nat
    requires Timed(row)
  {
    Saturated(row.startedAt.value * 1000)
  }

  function EndMs(row: Row): nat
    requires Timed(row)
  {
    Saturated(StartMs(row) + row.durationMs.value)
  }

  // Grouping, whatever the aggregate.

  /** The index of `name`'s group, or the number of groups. */
  function Find<A>(groups: seq<(string, A)>, name: string): (k: nat)
    ensures k <= |groups| && (k < |groups| ==> groups[k].0 == name)
    ensures forall j | 0 <= j < k :: groups[j].0 != name
  {
    if groups == [] then 0
    else if groups[0].0 == name then 0
    else
      assert forall j | 0 <= j < |groups| - 1 :: groups[1..][j] == groups[j + 1];
      Find(groups[1..], name) + 1
  }

  /** How a row joins a group: the aggregate, the row, the row's index. */
  type Adder<!A> = (A, Row, nat) -> A

  function Joined<A>(groups: seq<(string, A)>, name: string, add: Adder<A>, zero: A, row: Row, index: nat): seq<(string, A)> {
    var k := Find(groups, name);
    if k < |groups| then groups[k := (name, add(groups[k].1, row, index))] else groups + [(name, add(zero, row, index))]
  }

  /** The groups of the first `n` rows. */
  function Grouped<A>(rows: seq<Row>, key: Row -> string, add: Adder<A>, zero: A, n: nat): seq<(string, A)>
    requires n <= |rows|
  {
    if n == 0 then [] else Joined(Grouped(rows, key, add, zero, n - 1), key(rows[n - 1]), add, zero, rows[n - 1], n - 1)
  }

  /** The aggregate of exactly the rows with that key, in order. */
  function FoldOf<A>(rows: seq<Row>, key: Row -> string, name: string, add: Adder<A>, zero: A, n: nat): A
    requires n <= |rows|
  {
    if n == 0 then zero
    else
      var before := FoldOf(rows, key, name, add, zero, n - 1);
      if key(rows[n - 1]) == name then add(before, rows[n - 1], n - 1) else before
  }

  /** Where a key is first seen among the first `n` rows, or `n`. */
  function FirstAt(rows: seq<Row>, key: Row -> string, name: string, n: nat): nat
    requires n <= |rows|
  {
    if n == 0 then 0
    else
      var i := FirstAt(rows, key, name, n - 1);
      if i < n - 1 || key(rows[n - 1]) == name then i else n
  }

  lemma {:induction false} FirstAtIsFirst(rows: seq<Row>, key: Row -> string, name: string, n: nat)
    requires n <= |rows|
    ensures var i := FirstAt(rows, key, name, n);
            i <= n && (i < n ==> key(rows[i]) == name) && forall j | 0 <= j < i :: key(rows[j]) != name
  {
    if n > 0 { FirstAtIsFirst(rows, key, name, n - 1); }
  }

  lemma {:induction false} UnseenFoldsToZero<A>(rows: seq<Row>, key: Row -> string, name: string, add: Adder<A>, zero: A, n: nat)
    requires n <= |rows| && forall i | 0 <= i < n :: key(rows[i]) != name
    ensures FoldOf(rows, key, name, add, zero, n) == zero
  {
    if n > 0 { UnseenFoldsToZero(rows, key, name, add, zero, n - 1); }
  }

  function Names<A>(gs: seq<(string, A)>): seq<string> {
    seq(|gs|, i requires 0 <= i < |gs| => gs[i].0)
  }

  /** The keys of the first `n` rows, each where it first occurs. */
  function Keys(rows: seq<Row>, key: Row -> string, n: nat): seq<string>
    requires n <= |rows|
  {
    if n == 0 then []
    else if key(rows[n - 1]) in Keys(rows, key, n - 1) then Keys(rows, key, n - 1)
    else Keys(rows, key, n - 1) + [key(rows[n - 1])]
  }

  lemma {:induction false} KeysCover(rows: seq<Row>, key: Row -> string, n: nat)
    requires n <= |rows|
    ensures forall i | 0 <= i < n :: key(rows[i]) in Keys(rows, key, n)
  {
    if n > 0 { KeysCover(rows, key, n - 1); }
  }

  /** Seen keys stay where they were first seen; a key not seen so far is first seen at the new row. */
  lemma LaterRowsMoveNothing(rows: seq<Row>, key: Row -> string, ks: seq<string>, n: nat)
    requires 0 < n <= |rows| && forall k | 0 <= k < |ks| :: FirstAt(rows, key, ks[k], n - 1) < n - 1
    ensures forall k | 0 <= k < |ks| :: FirstAt(rows, key, ks[k], n) == FirstAt(rows, key, ks[k], n - 1)
    ensures FirstAt(rows, key, key(rows[n - 1]), n) < n
    ensures (forall i | 0 <= i < n - 1 :: key(rows[i]) in ks) && key(rows[n - 1]) !in ks ==>
              FirstAt(rows, key, key(rows[n - 1]), n) == n - 1
  {
    FirstAtIsFirst(rows, key, key(rows[n - 1]), n - 1);
  }

  /** Each key was seen, and later in the list means first seen later. */
  predicate SeenInOrder(rows: seq<Row>, key: Row -> string, ks: seq<string>, n: nat)
    requires n <= |rows|
  {
    && (forall k | 0 <= k < |ks| :: FirstAt(rows, key, ks[k], n) < n)
    && forall j, k | 0 <= j < k < |ks| :: FirstAt(rows, key, ks[j], n) < FirstAt(rows, key, ks[k], n)
  }

  lemma NewKeyIsLast(rows: seq<Row>, key: Row -> string, ks: seq<string>, n: nat)
    requires 0 < n <= |rows| && SeenInOrder(rows, key, ks, n) && FirstAt(rows, key, key(rows[n - 1]), n) == n - 1
    requires forall k | 0 <= k < |ks| :: FirstAt(rows, key, ks[k], n) < n - 1
    ensures SeenInOrder(rows, key, ks + [key(rows[n - 1])], n)
  {
    hide FirstAt;
    var all := ks + [key(rows[n - 1])];
    forall j, k | 0 <= j < k < |all| ensures FirstAt(rows, key, all[j], n) < FirstAt(rows, key, all[k], n) {
      assert all[j] == ks[j] && (k < |ks| ==> all[k] == ks[k]);
    }
  }

  lemma {:induction false} KeysInOrder(rows: seq<Row>, key: Row -> string, n: nat)
    requires n <= |rows|
    ensures SeenInOrder(rows, key, Keys(rows, key, n), n)
  {
    if n > 0 {
      var ks := Keys(rows, key, n - 1);
      KeysInOrder(rows, key, n - 1);
      KeysCover(rows, key, n - 1);
      LaterRowsMoveNothing(rows, key, ks, n);
      hide FirstAt;
      if key(rows[n - 1]) !in ks { NewKeyIsLast(rows, key, ks, n); }
    }
  }

  /** No key twice, none missing, none invented, and in the order they are first seen. */
  lemma KeysInFirstSeenOrder(rows: seq<Row>, key: Row -> string, n: nat)
    requires n <= |rows|
    ensures var ks := Keys(rows, key, n);
            && (forall j, k | 0 <= j < k < |ks| :: FirstAt(rows, key, ks[j], n) < FirstAt(rows, key, ks[k], n))
            && (forall k | 0 <= k < |ks| :: FirstAt(rows, key, ks[k], n) < n)
            && (forall i | 0 <= i < n :: key(rows[i]) in ks)
  {
    KeysCover(rows, key, n);
    KeysInOrder(rows, key, n);
  }

  lemma JoinedNames<A>(gs: seq<(string, A)>, name: string, add: Adder<A>, zero: A, row: Row, index: nat)
    ensures name in Names(gs) <==> Find(gs, name) < |gs|
    ensures Names(Joined(gs, name, add, zero, row, index)) == if name in Names(gs) then Names(gs) else Names(gs) + [name]
  {
    var k := Find(gs, name);
    if k < |gs| { assert Names(gs)[k] == name; }
  }

  lemma {:induction false} GroupNames<A>(rows: seq<Row>, key: Row -> string, add: Adder<A>, zero: A, n: nat)
    requires n <= |rows|
    ensures Names(Grouped(rows, key, add, zero, n)) == Keys(rows, key, n)
  {
    if n > 0 {
      GroupNames(rows, key, add, zero, n - 1);
      JoinedNames(Grouped(rows, key, add, zero, n - 1), key(rows[n - 1]), add, zero, rows[n - 1], n - 1);
    }
  }

  /** Groups partition the rows: they are named by the keys in the order those are first seen, and
      each aggregate is the fold of exactly its key's rows. */
  lemma {:induction false} GroupsPartition<A>(rows: seq<Row>, key: Row -> string, add: Adder<A>, zero: A, n: nat)
    requires n <= |rows|
    ensures var gs := Grouped(rows, key, add, zero, n);
            && Names(gs) == Keys(rows, key, n)
            && forall k | 0 <= k < |gs| :: gs[k].1 == FoldOf(rows, key, gs[k].0, add, zero, n)
  {
    GroupNames(rows, key, add, zero, n);
    if n > 0 {
      var before, name := Grouped(rows, key, add, zero, n - 1), key(rows[n - 1]);
      var gs, f := Grouped(rows, key, add, zero, n), Find(before, name);
      GroupsPartition(rows, key, add, zero, n - 1);
      KeyOfOneGroup(rows, key, add, zero, n, before);
      JoinedAt(before, name, add, zero, rows[n - 1], n - 1);
      hide Joined, Find, Keys, Names;
      FoldsFollow(rows, key, add, zero, n, before, gs, f);
    }
  }

  /** Row `n - 1` belongs to the group its key finds and to no other; a key not found was never seen. */
  lemma KeyOfOneGroup<A>(rows: seq<Row>, key: Row -> string, add: Adder<A>, zero: A, n: nat, before: seq<(string, A)>)
    requires 0 < n <= |rows| && Names(before) == Keys(rows, key, n - 1)
    ensures var name := key(rows[n - 1]);
            && (forall k | 0 <= k < |before| && k != Find(before, name) :: before[k].0 != name)
            && (Find(before, name) == |before| ==> FoldOf(rows, key, name, add, zero, n - 1) == zero)
  {
    var name := key(rows[n - 1]);
    KeysCover(rows, key, n - 1);
    hide Keys, Joined;
    JoinedNames(before, name, add, zero, rows[n - 1], n - 1);
    if Find(before, name) == |before| {
      UnseenFoldsToZero(rows, key, name, add, zero, n - 1);
    } else {
      OnlyOneGroup(rows, key, n - 1, before, Find(before, name));
    }
  }

  /** One more row changes the fold of its own key and of no other. */
  lemma FoldsFollow<A>(rows: seq<Row>, key: Row -> string, add: Adder<A>, zero: A, n: nat,
                       before: seq<(string, A)>, gs: seq<(string, A)>, f: nat)
    requires 0 < n <= |rows| && f <= |before| && |gs| == if f < |before| then |before| else |before| + 1
    requires forall k | 0 <= k < |before| :: before[k].1 == FoldOf(rows, key, before[k].0, add, zero, n - 1)
    requires forall k | 0 <= k < |before| && k != f :: before[k].0 != key(rows[n - 1]) && gs[k] == before[k]
    requires gs[f].0 == key(rows[n - 1]) && (f < |before| ==> before[f].0 == key(rows[n - 1]))
    requires gs[f].1 == add(FoldOf(rows, key, key(rows[n - 1]), add, zero, n - 1), rows[n - 1], n - 1)
    ensures forall k | 0 <= k < |gs| :: gs[k].1 == FoldOf(rows, key, gs[k].0, add, zero, n)
  {
    forall k | 0 <= k < |gs| ensures gs[k].1 == FoldOf(rows, key, gs[k].0, add, zero, n) {
      if k != f { assert gs[k] == before[k]; }
    }
  }

  lemma JoinedAt<A>(gs: seq<(string, A)>, name: string, add: Adder<A>, zero: A, row: Row, index: nat)
    ensures var f, js := Find(gs, name), Joined(gs, name, add, zero, row, index);
            && |js| == (if f < |gs| then |gs| else |gs| + 1)
            && js[f] == (name, add(if f < |gs| then gs[f].1 else zero, row, index))
            && forall j | 0 <= j < |gs| && j != f :: js[j] == gs[j]
  {
  }

  lemma OnlyOneGroup<A>(rows: seq<Row>, key: Row -> string, n: nat, gs: seq<(string, A)>, k: nat)
    requires n <= |rows| && Names(gs) == Keys(rows, key, n) && k < |gs|
    ensures forall j | 0 <= j < |gs| && j != k :: gs[j].0 != gs[k].0
  {
    KeysInFirstSeenOrder(rows, key, n);
    forall j | 0 <= j < |gs| && j != k ensures gs[j].0 != gs[k].0 {
      assert Names(gs)[j] == gs[j].0 && Names(gs)[k] == gs[k].0;
    }
  }

  // Conservation.

  function SumOver<A>(gs: seq<(string, A)>, m: A -> real): real {
    if gs == [] then 0.0 else SumOver(gs[..|gs| - 1], m) + m(gs[|gs| - 1].1)
  }

  function SumRows(rows: seq<Row>, w: Row -> real, n: nat): real
    requires n <= |rows|
  {
    if n == 0 then 0.0 else SumRows(rows, w, n - 1) + w(rows[n - 1])
  }

  /** A figure that each added row moves by its own share. */
  ghost predicate Additive<A(!new)>(add: Adder<A>, zero: A, m: A -> real, w: Row -> real) {
    m(zero) == 0.0 && forall a: A, row: Row, i: nat :: m(add(a, row, i)) == m(a) + w(row)
  }

  lemma {:induction false} SumOfUpdate<A>(gs: seq<(string, A)>, k: nat, g: (string, A), m: A -> real)
    requires k < |gs|
    ensures SumOver(gs[k := g], m) == SumOver(gs, m) - m(gs[k].1) + m(g.1)
  {
    var last := |gs| - 1;
    if k < last {
      assert gs[k := g][..last] == gs[..last][k := g];
      SumOfUpdate(gs[..last], k, g, m);
    } else {
      assert gs[k := g][..last] == gs[..last];
    }
  }

  /** Whatever the grouping, the groups' figures add up to the rows'. */
  lemma {:induction false} GroupsConserve<A(!new)>(
    rows: seq<Row>, key: Row -> string, add: Adder<A>, zero: A, m: A -> real, w: Row -> real, n: nat)
    requires n <= |rows| && Additive(add, zero, m, w)
    ensures SumOver(Grouped(rows, key, add, zero, n), m) == SumRows(rows, w, n)
  {
    if n > 0 {
      GroupsConserve(rows, key, add, zero, m, w, n - 1);
      var before, row := Grouped(rows, key, add, zero, n - 1), rows[n - 1];
      var k := Find(before, key(row));
      if k < |before| {
        SumOfUpdate(before, k, (key(row), add(before[k].1, row, n - 1)), m);
      } else {
        var g := (key(row), add(zero, row, n - 1));
        assert (before + [g])[..|before + [g]| - 1] == before;
      }
    }
  }

  // By build and by model.

  function AddRow(): Adder<Agg> {
    (a: Agg, row: Row, _: nat) => a.Add(row)
  }

  /** The header's totals. */
  function Total(rows: seq<Row>, n: nat): Agg
    requires n <= |rows|
  {
    if n == 0 then EMPTY else Total(rows, n - 1).Add(rows[n - 1])
  }

  method GroupBy(rows: seq<Row>, key: Row -> string) returns (groups: seq<(string, Agg)>)
    ensures groups == Grouped(rows, key, AddRow(), EMPTY, |rows|)
  {
    groups := [];
    for i := 0 to |rows|
      invariant groups == Grouped(rows, key, AddRow(), EMPTY, i)
    {
      var name := key(rows[i]);
      var k := 0;
      while k < |groups| && groups[k].0 != name
        invariant k <= |groups| && forall j | 0 <= j < k :: groups[j].0 != name
      {
        k := k + 1;
      }
      if k < |groups| {
        groups := groups[k := (name, groups[k].1.Add(rows[i]))];
      } else {
        groups := groups + [(name, EMPTY.Add(rows[i]))];
      }
    }
  }

  predicate SomeMetered(gs: seq<(string, Agg)>) {
    exists k | 0 <= k < |gs| :: gs[k].1.metered
  }

  lemma {:induction false} MeteredIffSomeGroup(rows: seq<Row>, key: Row -> string, n: nat)
    requires n <= |rows|
    ensures Total(rows, n).metered <==> SomeMetered(Grouped(rows, key, AddRow(), EMPTY, n))
  {
    if n > 0 {
      MeteredIffSomeGroup(rows, key, n - 1);
      var before, row := Grouped(rows, key, AddRow(), EMPTY, n - 1), rows[n - 1];
      var gs := Grouped(rows, key, AddRow(), EMPTY, n);
      var k := Find(before, key(row));
      assert gs[k].1.metered <==> row.cost.Some? || (k < |before| && before[k].1.metered);
      assert forall j | 0 <= j < |before| && j != k :: gs[j] == before[j];
    }
  }

  /** The header's figures are those of the rows: cached input counts where it was reported, cost where it was
      metered, and the header has a cost exactly when some row has. */
  lemma HeaderIsOfTheRows(rows: seq<Row>)
    ensures var n, t := |rows|, Total(rows, |rows|);
            && t.turns == n
            && t.tokens as real == SumRows(rows, (r: Row) => (r.promptTokens + r.completionTokens) as real, n)
            && t.cost == SumRows(rows, (r: Row) => r.cost.GetOr(0.0), n)
            && t.cached as real == SumRows(rows, (r: Row) => r.cachedTokens.GetOr(0) as real, n)
            && t.cachedPrompt as real == SumRows(rows, (r: Row) => (if r.cachedTokens.Some? then r.promptTokens else 0) as real, n)
            && (t.metered <==> exists i | 0 <= i < n :: rows[i].cost.Some?)
  {
    TotalIsTheSum(rows, (a: Agg) => a.tokens as real, (r: Row) => (r.promptTokens + r.completionTokens) as real, |rows|);
    TotalIsTheSum(rows, (a: Agg) => a.cost, (r: Row) => r.cost.GetOr(0.0), |rows|);
    TotalIsTheSum(rows, (a: Agg) => a.cached as real, (r: Row) => r.cachedTokens.GetOr(0) as real, |rows|);
    TotalIsTheSum(rows, (a: Agg) => a.cachedPrompt as real,
                  (r: Row) => (if r.cachedTokens.Some? then r.promptTokens else 0) as real, |rows|);
    TurnsAndMeters(rows, |rows|);
  }

  lemma {:induction false} TurnsAndMeters(rows: seq<Row>, n: nat)
    requires n <= |rows|
    ensures Total(rows, n).turns == n && (Total(rows, n).metered <==> exists i | 0 <= i < n :: rows[i].cost.Some?)
  {
    if n > 0 { TurnsAndMeters(rows, n - 1); }
  }

  /** A group has a cost exactly when one of its own rows has. */
  lemma {:induction false} GroupIsMeteredIff(rows: seq<Row>, key: Row -> string, name: string, n: nat)
    requires n <= |rows|
    ensures FoldOf(rows, key, name, AddRow(), EMPTY, n).metered <==>
            exists i | 0 <= i < n :: key(rows[i]) == name && rows[i].cost.Some?
  {
    if n > 0 { GroupIsMeteredIff(rows, key, name, n - 1); }
  }

  /** The groups of any key add up to the header, figure by figure. */
  lemma GroupsAddUpToTheHeader(rows: seq<Row>, key: Row -> string)
    ensures var gs, t := Grouped(rows, key, AddRow(), EMPTY, |rows|), Total(rows, |rows|);
            && SumOver(gs, (a: Agg) => a.turns as real) == t.turns as real
            && SumOver(gs, (a: Agg) => a.tokens as real) == t.tokens as real
            && SumOver(gs, (a: Agg) => a.cost) == t.cost
            && SumOver(gs, (a: Agg) => a.cached as real) == t.cached as real
            && SumOver(gs, (a: Agg) => a.cachedPrompt as real) == t.cachedPrompt as real
            && (t.metered <==> SomeMetered(gs))
  {
    MeteredIffSomeGroup(rows, key, |rows|);
    FigureAddsUp(rows, key, (a: Agg) => a.turns as real, (r: Row) => 1.0);
    FigureAddsUp(rows, key, (a: Agg) => a.tokens as real, (r: Row) => (r.promptTokens + r.completionTokens) as real);
    FigureAddsUp(rows, key, (a: Agg) => a.cost, (r: Row) => r.cost.GetOr(0.0));
    FigureAddsUp(rows, key, (a: Agg) => a.cached as real, (r: Row) => r.cachedTokens.GetOr(0) as real);
    FigureAddsUp(rows, key, (a: Agg) => a.cachedPrompt as real,
                 (r: Row) => (if r.cachedTokens.Some? then r.promptTokens else 0) as real);
  }

  lemma FigureAddsUp(rows: seq<Row>, key: Row -> string, m: Agg -> real, w: Row -> real)
    requires Additive(AddRow(), EMPTY, m, w)
    ensures SumOver(Grouped(rows, key, AddRow(), EMPTY, |rows|), m) == m(Total(rows, |rows|))
  {
    GroupsConserve(rows, key, AddRow(), EMPTY, m, w, |rows|);
    TotalIsTheSum(rows, m, w, |rows|);
  }

  lemma {:induction false} TotalIsTheSum(rows: seq<Row>, m: Agg -> real, w: Row -> real, n: nat)
    requires n <= |rows| && Additive(AddRow(), EMPTY, m, w)
    ensures m(Total(rows, n)) == SumRows(rows, w, n)
  {
    if n > 0 {
      TotalIsTheSum(rows, m, w, n - 1);
      assert m(AddRow()(Total(rows, n - 1), rows[n - 1], n - 1)) == m(Total(rows, n - 1)) + w(rows[n - 1]);
    }
  }

  // By task.

  const UNTRACKED := "(untracked)"

  function TaskKey(): Row -> string {
    (row: Row) => row.task.GetOr(UNTRACKED)
  }

  function AddTaskRow(): Adder<TaskAgg> {
    (a: TaskAgg, row: Row, index: nat) => a.Add(row, index)
  }

  function ByTask(rows: seq<Row>, n: nat): seq<(string, TaskAgg)>
    requires n <= |rows|
  {
    Grouped(rows, TaskKey(), AddTaskRow(), NO_TURNS, n)
  }

  /** Tracked before untracked, then the newest activity first. */
  predicate TaskBefore(a: (string, TaskAgg), b: (string, TaskAgg)) {
    if (a.0 == UNTRACKED) != (b.0 == UNTRACKED) then b.0 == UNTRACKED else a.1.lastSeen > b.1.lastSeen
  }

  predicate InTaskOrder(gs: seq<(string, TaskAgg)>) {
    forall i, j | 0 <= i < j < |gs| :: TaskBefore(gs[i], gs[j])
  }

  /** There is a group for each task a row names, one for the rows that name none, and no other. */
  lemma TasksAreTheGroups(rows: seq<Row>, name: string)
    ensures name in Names(ByTask(rows, |rows|)) <==>
            exists i | 0 <= i < |rows| :: rows[i].task == Some(name) || (rows[i].task.None? && name == UNTRACKED)
  {
    GroupNames(rows, TaskKey(), AddTaskRow(), NO_TURNS, |rows|);
    KeysCover(rows, TaskKey(), |rows|);
    KeysInOrder(rows, TaskKey(), |rows|);
    FirstAtIsFirst(rows, TaskKey(), name, |rows|);
    hide Keys, FirstAt, Names;
    if name in Keys(rows, TaskKey(), |rows|) {
      var k :| 0 <= k < |Keys(rows, TaskKey(), |rows|)| && Keys(rows, TaskKey(), |rows|)[k] == name;
      assert TaskKey()(rows[FirstAt(rows, TaskKey(), name, |rows|)]) == name;
    }
    forall i | 0 <= i < |rows| && (rows[i].task == Some(name) || (rows[i].task.None? && name == UNTRACKED))
      ensures name in Keys(rows, TaskKey(), |rows|)
    {
      assert TaskKey()(rows[i]) == name;
    }
  }

  /** Row `i` is the last of the first `n` with that task. */
  predicate IsLatest(rows: seq<Row>, n: nat, name: string, i: nat)
    requires n <= |rows|
  {
    i < n && TaskKey()(rows[i]) == name && forall j | i < j < n :: TaskKey()(rows[j]) != name
  }

  /** A group's recency is the last row of its own, so no two groups are equally new. */
  lemma {:induction false} LastSeenIsOwn(rows: seq<Row>, n: nat)
    requires n <= |rows|
    ensures forall k | 0 <= k < |ByTask(rows, n)| ::
              IsLatest(rows, n, ByTask(rows, n)[k].0, ByTask(rows, n)[k].1.lastSeen)
  {
    if n > 0 {
      LastSeenIsOwn(rows, n - 1);
      OneMoreTaskRow(rows, n);
      hide ByTask, TaskKey, IsLatest;
      forall k | 0 <= k < |ByTask(rows, n)|
        ensures var g := ByTask(rows, n)[k]; IsLatest(rows, n, g.0, g.1.lastSeen)
      {
        var g := ByTask(rows, n)[k];
        LatestMoves(rows, n, g.0, g.1.lastSeen);
      }
    }
  }

  /** The row's own group has seen it last; every other group is as it was. */
  lemma OneMoreTaskRow(rows: seq<Row>, n: nat)
    requires 0 < n <= |rows|
    ensures var before, now, name := ByTask(rows, n - 1), ByTask(rows, n), TaskKey()(rows[n - 1]);
            forall k | 0 <= k < |now| ::
              || (now[k].0 == name && now[k].1.lastSeen == n - 1)
              || (k < |before| && now[k] == before[k] && now[k].0 != name)
  {
    var before, name := ByTask(rows, n - 1), TaskKey()(rows[n - 1]);
    JoinedAt(before, name, AddTaskRow(), NO_TURNS, rows[n - 1], n - 1);
    GroupNames(rows, TaskKey(), AddTaskRow(), NO_TURNS, n - 1);
    KeyOfOneGroup(rows, TaskKey(), AddTaskRow(), NO_TURNS, n, before);
    hide Joined, Find, TaskKey, FoldOf, Names, Keys;
  }

  lemma LatestMoves(rows: seq<Row>, n: nat, name: string, i: nat)
    requires 0 < n <= |rows|
    ensures name == TaskKey()(rows[n - 1]) ==> IsLatest(rows, n, name, n - 1)
    ensures name != TaskKey()(rows[n - 1]) && IsLatest(rows, n - 1, name, i) ==> IsLatest(rows, n, name, i)
  {
  }

  lemma GroupsAreOrderable(rows: seq<Row>, n: nat)
    requires n <= |rows|
    ensures var gs := ByTask(rows, n);
            forall j, k | 0 <= j < k < |gs| :: TaskBefore(gs[j], gs[k]) || TaskBefore(gs[k], gs[j])
  {
    var gs := ByTask(rows, n);
    LastSeenIsOwn(rows, n);
    GroupNames(rows, TaskKey(), AddTaskRow(), NO_TURNS, n);
    forall j, k | 0 <= j < k < |gs| ensures gs[j].1.lastSeen != gs[k].1.lastSeen {
      OnlyOneGroup(rows, TaskKey(), n, gs, k);
    }
  }

  /** Only one order of the groups is right, so any sort by it gives the same table. */
  lemma {:induction false} TaskOrderIsUnique(a: seq<(string, TaskAgg)>, b: seq<(string, TaskAgg)>)
    requires InTaskOrder(a) && InTaskOrder(b) && multiset(a) == multiset(b)
    ensures a == b
  {
    if a == [] {
      assert |multiset(b)| == 0;
    } else {
      assert a[0] in multiset(a) && |multiset(a)| == |multiset(b)|;
      assert b[0] in multiset(b);
      assert a[0] in b && b[0] in a;
      assert a[0] == b[0];
      assert a == [a[0]] + a[1..] && b == [b[0]] + b[1..];
      assert multiset(a[1..]) == multiset(a) - multiset{a[0]};
      TaskOrderIsUnique(a[1..], b[1..]);
    }
  }

  function Insert(gs: seq<(string, TaskAgg)>, g: (string, TaskAgg)): seq<(string, TaskAgg)> {
    if gs == [] then [g] else if TaskBefore(g, gs[0]) then [g] + gs else [gs[0]] + Insert(gs[1..], g)
  }

  lemma {:induction false} InsertAdds(gs: seq<(string, TaskAgg)>, g: (string, TaskAgg))
    ensures multiset(Insert(gs, g)) == multiset(gs) + multiset{g}
    ensures forall h | h in Insert(gs, g) :: h in gs || h == g
  {
    hide TaskBefore;
    if gs != [] {
      InsertAdds(gs[1..], g);
      assert gs == [gs[0]] + gs[1..];
    }
  }

  lemma {:induction false} InsertKeepsOrder(gs: seq<(string, TaskAgg)>, g: (string, TaskAgg))
    requires InTaskOrder(gs) && forall h | h in gs :: TaskBefore(h, g) || TaskBefore(g, h)
    ensures InTaskOrder(Insert(gs, g))
  {
    if gs == [] {
      assert Insert(gs, g) == [g];
    } else if TaskBefore(g, gs[0]) {
      forall k | 0 <= k < |gs| ensures TaskBefore(g, gs[k]) {
        if k > 0 { assert TaskBefore(gs[0], gs[k]); }
      }
      ConsKeepsOrder(g, gs);
    } else {
      var rest := gs[1..];
      InsertKeepsOrder(rest, g);
      InsertAdds(rest, g);
      forall h | h in rest ensures TaskBefore(gs[0], h) {
        var k :| 0 <= k < |rest| && rest[k] == h;
        assert gs[k + 1] == h;
      }
      hide TaskBefore, InTaskOrder;
      assert TaskBefore(gs[0], g);
      ConsKeepsOrder(gs[0], Insert(rest, g));
    }
  }

  lemma ConsKeepsOrder(x: (string, TaskAgg), gs: seq<(string, TaskAgg)>)
    requires InTaskOrder(gs) && forall h | h in gs :: TaskBefore(x, h)
    ensures InTaskOrder([x] + gs)
  {
    hide TaskBefore;
    forall i, j | 0 <= i < j < |gs| + 1 ensures TaskBefore(([x] + gs)[i], ([x] + gs)[j]) {
      assert ([x] + gs)[j] == gs[j - 1];
    }
  }

  /** Group, then sort by the task order. */
  method GroupByTask(rows: seq<Row>) returns (groups: seq<(string, TaskAgg)>)
    ensures InTaskOrder(groups) && multiset(groups) == multiset(ByTask(rows, |rows|))
    // The untracked group comes last, the others newest activity first.
    ensures forall i, j | 0 <= i < j < |groups| :: Tabled(groups[i], groups[j])
  {
    var found := [];
    for i := 0 to |rows|
      invariant found == ByTask(rows, i)
    {
      var name := TaskKey()(rows[i]);
      var k := 0;
      while k < |found| && found[k].0 != name
        invariant k <= |found| && forall j | 0 <= j < k :: found[j].0 != name
      {
        k := k + 1;
      }
      if k < |found| {
        found := found[k := (name, found[k].1.Add(rows[i], i))];
      } else {
        found := found + [(name, NO_TURNS.Add(rows[i], i))];
      }
    }
    GroupsAreOrderable(rows, |rows|);
    groups := Sorted(found);
    UntrackedIsLast(rows, groups);
  }

  /** `g` may stand above `h`. */
  predicate Tabled(g: (string, TaskAgg), h: (string, TaskAgg)) {
    g.0 != UNTRACKED && (h.0 == UNTRACKED || g.1.lastSeen > h.1.lastSeen)
  }

  lemma UntrackedIsLast(rows: seq<Row>, groups: seq<(string, TaskAgg)>)
    requires InTaskOrder(groups) && multiset(groups) == multiset(ByTask(rows, |rows|))
    ensures forall i, j | 0 <= i < j < |groups| :: Tabled(groups[i], groups[j])
  {
    forall i, j | 0 <= i < j < |groups| ensures Tabled(groups[i], groups[j]) {
      assert TaskBefore(groups[i], groups[j]);
      assert groups[i] in multiset(groups) && groups[j] in multiset(groups);
      SameNameSameGroup(rows, groups[i], groups[j]);
    }
  }

  lemma SameNameSameGroup(rows: seq<Row>, g: (string, TaskAgg), h: (string, TaskAgg))
    requires g in ByTask(rows, |rows|) && h in ByTask(rows, |rows|)
    ensures g.0 == h.0 ==> g == h
  {
    GroupNames(rows, TaskKey(), AddTaskRow(), NO_TURNS, |rows|);
    var gs := ByTask(rows, |rows|);
    hide ByTask, TaskKey;
    var k :| 0 <= k < |gs| && gs[k] == g;
    OnlyOneGroup(rows, TaskKey(), |rows|, gs, k);
  }

  method Sorted(found: seq<(string, TaskAgg)>) returns (groups: seq<(string, TaskAgg)>)
    requires forall j, k | 0 <= j < k < |found| :: TaskBefore(found[j], found[k]) || TaskBefore(found[k], found[j])
    ensures InTaskOrder(groups) && multiset(groups) == multiset(found)
  {
    hide TaskBefore, Insert;
    groups := [];
    for i := 0 to |found|
      invariant InTaskOrder(groups) && multiset(groups) == multiset(found[..i])
    {
      forall g | g in groups ensures TaskBefore(g, found[i]) || TaskBefore(found[i], g) {
        assert g in multiset(groups);
        assert g in found[..i];
      }
      assert found[..i + 1] == found[..i] + [found[i]];
      InsertKeepsOrder(groups, found[i]);
      InsertAdds(groups, found[i]);
      groups := Insert(groups, found[i]);
    }
    assert found[..|found|] == found;
  }

  function TaskFold(rows: seq<Row>, name: string, n: nat): TaskAgg
    requires n <= |rows|
  {
    FoldOf(rows, TaskKey(), name, AddTaskRow(), NO_TURNS, n)
  }

  /** Row `i` is timed and belongs to the task. */
  predicate TimedIn(rows: seq<Row>, name: string, i: nat) {
    i < |rows| && TaskKey()(rows[i]) == name && Timed(rows[i])
  }

  /** A task's end points are its timed rows' earliest start and latest end. */
  lemma {:induction false} EndpointsAreExtremes(rows: seq<Row>, name: string, n: nat)
    requires n <= |rows|
    ensures var a := TaskFold(rows, name, n);
            && (a.startMinMs.Some? <==> a.endMaxMs.Some?)
            && (a.startMinMs.Some? <==> exists i: nat | i < n :: TimedIn(rows, name, i))
            && (a.startMinMs.Some? ==> exists i: nat | i < n && TimedIn(rows, name, i) :: StartMs(rows[i]) == a.startMinMs.value)
            && (a.endMaxMs.Some? ==> exists i: nat | i < n && TimedIn(rows, name, i) :: EndMs(rows[i]) == a.endMaxMs.value)
            && forall i: nat | i < n && TimedIn(rows, name, i) ::
                 a.startMinMs.Some? && a.endMaxMs.Some?
                 && a.startMinMs.value <= StartMs(rows[i]) && EndMs(rows[i]) <= a.endMaxMs.value
  {
    if n > 0 {
      var before := TaskFold(rows, name, n - 1);
      EndpointsAreExtremes(rows, name, n - 1);
      if TimedIn(rows, name, n - 1) {
        assert TaskFold(rows, name, n) == before.Add(rows[n - 1], n - 1);
      }
    }
  }

  /** Start and end in milliseconds, as far as 64 bits hold them. */
  lemma TimesSaturate(row: Row)
    requires Timed(row)
    ensures var start := row.startedAt.value * 1000;
            && StartMs(row) == (if start <= 18446744073709551615 then start else 18446744073709551615)
            && EndMs(row) == (if StartMs(row) + row.durationMs.value <= 18446744073709551615
                              then StartMs(row) + row.durationMs.value else 18446744073709551615)
  {
  }

  /** A task's span runs from the earliest start to the latest end among its timed rows, and there is one
      exactly when it has such a row. */
  lemma SpanIsTheExtent(rows: seq<Row>, name: string) returns (i: nat, j: nat)
    ensures var span := TaskFold(rows, name, |rows|).SpanMs();
            if span.None? then forall k: nat :: !TimedIn(rows, name, k) else Extent(rows, name, i, j, span.value)
  {
    EndpointsAreExtremes(rows, name, |rows|);
    var a := TaskFold(rows, name, |rows|);
    hide TaskFold;
    i, j := 0, 0;
    if a.SpanMs().Some? {
      i :| i < |rows| && TimedIn(rows, name, i) && StartMs(rows[i]) == a.startMinMs.value;
      j :| j < |rows| && TimedIn(rows, name, j) && EndMs(rows[j]) == a.endMaxMs.value;
      assert StartMs(rows[i]) <= StartMs(rows[j]) <= EndMs(rows[j]);
    }
  }

  /** From the start of row `i`, the earliest, to the end of row `j`, the latest. */
  predicate Extent(rows: seq<Row>, name: string, i: nat, j: nat, span: nat) {
    && TimedIn(rows, name, i) && TimedIn(rows, name, j) && span == EndMs(rows[j]) - StartMs(rows[i])
    && forall k: nat | k < |rows| && TimedIn(rows, name, k) ::
         StartMs(rows[i]) <= StartMs(rows[k]) && EndMs(rows[k]) <= EndMs(rows[j])
  }

  /** The task's span is at least the row's duration. */
  predicate Covers(rows: seq<Row>, i: nat)
    requires i < |rows| && Timed(rows[i])
  {
    var span := TaskFold(rows, TaskKey()(rows[i]), |rows|).SpanMs();
    span.Some? && span.value >= rows[i].durationMs.value
  }

  /** The end of the turn does not fit in 64 bits, so the row's own end is cut short. */
  predicate Clipped(row: Row)
    requires Timed(row)
  {
    StartMs(row) + row.durationMs.value > U64_MAX
  }

  /** A timed row is covered by its task's span in every ledger exactly when its end is not clipped. */
  lemma SpanCoversIff(row: Row)
    requires Timed(row)
    ensures (forall rows: seq<Row>, i: nat | i < |rows| && rows[i] == row :: Covers(rows, i)) <==> !Clipped(row)
  {
    if Clipped(row) {
      var rows := [row];
      var name := TaskKey()(row);
      assert TaskFold(rows, name, 1) == TaskFold(rows, name, 0).Add(row, 0);
      assert !Covers(rows, 0);
    } else {
      forall rows: seq<Row>, i: nat | i < |rows| && rows[i] == row ensures Covers(rows, i) {
        EndpointsAreExtremes(rows, TaskKey()(row), |rows|);
        assert TimedIn(rows, TaskKey()(row), i);
      }
    }
  }

  /** The tasks' turns, costs and active times add up to the rows'. */
  lemma TasksConserve(rows: seq<Row>)
    ensures var gs, t := ByTask(rows, |rows|), Total(rows, |rows|);
            && SumOver(gs, (a: TaskAgg) => a.turns as real) == t.turns as real
            && SumOver(gs, (a: TaskAgg) => a.cost) == t.cost
            && SumOver(gs, (a: TaskAgg) => a.activeMs as real)
               == SumRows(rows, (r: Row) => (if Timed(r) then r.durationMs.value else 0) as real, |rows|)
  {
    GroupsConserve(rows, TaskKey(), AddTaskRow(), NO_TURNS, (a: TaskAgg) => a.turns as real, (r: Row) => 1.0, |rows|);
    TotalIsTheSum(rows, (a: Agg) => a.turns as real, (r: Row) => 1.0, |rows|);
    GroupsConserve(rows, TaskKey(), AddTaskRow(), NO_TURNS, (a: TaskAgg) => a.cost, (r: Row) => r.cost.GetOr(0.0), |rows|);
    TotalIsTheSum(rows, (a: Agg) => a.cost, (r: Row) => r.cost.GetOr(0.0), |rows|);
    GroupsConserve(rows, TaskKey(), AddTaskRow(), NO_TURNS, (a: TaskAgg) => a.activeMs as real,
                   (r: Row) => (if Timed(r) then r.durationMs.value else 0) as real, |rows|);
  }
}
