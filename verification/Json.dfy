/** Argument values and the two keys the loop derives from them (src/agent/mod.rs). */
module JsonArgs {
  import opened Options
  import opened Text

  /** A parsed value. Objects keep their entries in written order; a number is what it prints as. */
  datatype Json =
    | Null
    | Bool(b: bool)
    | Num(literal: string)
    | Str(text: string)
    | Arr(items: seq<Json>)
    | Obj(entries: seq<Entry>)

  datatype Entry = Entry(key: string, value: Json)

  ghost predicate DistinctKeys(es: seq<Entry>) {
    forall i, j | 0 <= i < j < |es| :: es[i].key != es[j].key
  }

  /** What the parser yields: no object names a key twice. */
  ghost predicate Unique(v: Json) {
    match v
    case Arr(items) => forall i | 0 <= i < |items| :: Unique(items[i])
    case Obj(es) => DistinctKeys(es) && forall i | 0 <= i < |es| :: Unique(es[i].value)
    case _ => true
  }

  /** Equality up to the order of object keys, at every depth. */
  ghost predicate Same(a: Json, b: Json)
    decreases a, 1
  {
    match (a, b)
    case (Arr(x), Arr(y)) => |x| == |y| && forall i | 0 <= i < |x| :: Same(x[i], y[i])
    case (Obj(x), Obj(y)) =>
      && (forall i | 0 <= i < |x| :: MatchedIn(x[i], y))
      && (forall j | 0 <= j < |y| :: MatchedFrom(x, y[j]))
    case (_, _) => a == b
  }

  ghost predicate MatchedIn(e: Entry, es: seq<Entry>)
    decreases e, 0
  {
    exists j | 0 <= j < |es| :: e.key == es[j].key && Same(e.value, es[j].value)
  }

  ghost predicate MatchedFrom(es: seq<Entry>, e: Entry)
    decreases es, 0
  {
    exists i | 0 <= i < |es| :: es[i].key == e.key && Same(es[i].value, e.value)
  }

  function Lookup(es: seq<Entry>, key: string): Option<Json> {
    if es == [] then None else if es[0].key == key then Some(es[0].value) else Lookup(es[1..], key)
  }

  // Canonical form: entries sorted by key, recursively.

  function Insert(e: Entry, es: seq<Entry>): seq<Entry> {
    if es == [] || AtMost(e.key, es[0].key) then [e] + es else [es[0]] + Insert(e, es[1..])
  }

  function SortByKey(es: seq<Entry>): seq<Entry> {
    if es == [] then [] else Insert(es[0], SortByKey(es[1..]))
  }

  function Canon(v: Json): Json {
    match v
    case Arr(items) => Arr(seq(|items|, i requires 0 <= i < |items| => Canon(items[i])))
    case Obj(es) => Obj(SortByKey(seq(|es|, i requires 0 <= i < |es| => Entry(es[i].key, Canon(es[i].value)))))
    case _ => v
  }

  /** An object's entries with canonical values, still in written order. */
  function CanonEntries(es: seq<Entry>): (r: seq<Entry>)
    ensures |r| == |es| && forall i | 0 <= i < |es| :: r[i] == Entry(es[i].key, Canon(es[i].value))
  {
    seq(|es|, i requires 0 <= i < |es| => Entry(es[i].key, Canon(es[i].value)))
  }

  ghost predicate Ascending(es: seq<Entry>) {
    forall i, j | 0 <= i < j < |es| :: Before(es[i].key, es[j].key)
  }

  lemma {:induction false} InsertKeeps(e: Entry, es: seq<Entry>)
    requires Ascending(es) && forall x | x in es :: x.key != e.key
    ensures Ascending(Insert(e, es)) && |Insert(e, es)| == |es| + 1
    ensures forall x :: x in Insert(e, es) <==> x == e || x in es
  {
    if es != [] {
      BeforeTotal(e.key, es[0].key);
      assert es == [es[0]] + es[1..];
      if AtMost(e.key, es[0].key) {
        forall j | 0 < j < |es| ensures Before(e.key, es[j].key) { BeforeTransitive(e.key, es[0].key, es[j].key); }
      } else {
        InsertKeeps(e, es[1..]);
        var r := Insert(e, es[1..]);
        forall j | 0 <= j < |r| ensures Before(es[0].key, r[j].key) { assert r[j] in r; }
      }
    }
  }

  lemma {:induction false} SortKeeps(es: seq<Entry>)
    requires DistinctKeys(es)
    ensures Ascending(SortByKey(es)) && |SortByKey(es)| == |es|
    ensures forall x :: x in SortByKey(es) <==> x in es
  {
    if es != [] {
      SortKeeps(es[1..]);
      assert es == [es[0]] + es[1..];
      forall x | x in SortByKey(es[1..]) ensures x.key != es[0].key {
        var j :| 0 <= j < |es[1..]| && es[1..][j] == x;
        assert es[j + 1] == x;
      }
      InsertKeeps(es[0], SortByKey(es[1..]));
    }
  }

  /** Ascending entry lists with the same members are the same list. */
  lemma {:induction false} AscendingIsDetermined(p: seq<Entry>, q: seq<Entry>)
    requires Ascending(p) && Ascending(q) && forall x :: x in p <==> x in q
    ensures p == q
  {
    assert (p != [] ==> p[0] in p) && (q != [] ==> q[0] in q);
    if p != [] && q != [] {
      HeadIsLeast(p, q);
      assert p == [p[0]] + p[1..] && q == [q[0]] + q[1..];
      BeforeTotal(p[0].key, p[0].key);
      forall x ensures x in p[1..] <==> x in q[1..] {
        if x in p[1..] { var k :| 0 <= k < |p[1..]| && p[1..][k] == x; assert Before(p[0].key, p[k + 1].key); assert x in p; }
        if x in q[1..] { var k :| 0 <= k < |q[1..]| && q[1..][k] == x; assert Before(q[0].key, q[k + 1].key); assert x in q; }
      }
      AscendingIsDetermined(p[1..], q[1..]);
    }
  }

  lemma HeadIsLeast(p: seq<Entry>, q: seq<Entry>)
    requires p != [] && q != [] && Ascending(p) && Ascending(q) && forall x :: x in p <==> x in q
    ensures p[0] == q[0]
  {
    assert p[0] in q && q[0] in p;
    var i :| 0 <= i < |q| && q[i] == p[0];
    var j :| 0 <= j < |p| && p[j] == q[0];
    BeforeTotal(p[0].key, q[0].key);
  }

  lemma CanonOfObject(es: seq<Entry>)
    ensures Canon(Obj(es)) == Obj(SortByKey(CanonEntries(es)))
  {
    assert CanonEntries(es) == seq(|es|, i requires 0 <= i < |es| => Entry(es[i].key, Canon(es[i].value)));
  }

  lemma SortedEntries(es: seq<Entry>)
    requires DistinctKeys(es)
    ensures Ascending(SortByKey(CanonEntries(es)))
    ensures forall x :: x in SortByKey(CanonEntries(es)) <==> x in CanonEntries(es)
  {
    SortKeeps(CanonEntries(es));
  }

  /** Canonical forms agree exactly when the values agree up to key order. */
  lemma {:induction false} CanonDecidesSame(a: Json, b: Json)
    requires Unique(a) && Unique(b)
    ensures Canon(a) == Canon(b) <==> Same(a, b)
  {
    match (a, b)
    case (Arr(x), Arr(y)) =>
      if |x| == |y| {
        forall i | 0 <= i < |x| ensures Canon(x[i]) == Canon(y[i]) <==> Same(x[i], y[i]) { CanonDecidesSame(x[i], y[i]); }
        assert forall i | 0 <= i < |x| :: Canon(a).items[i] == Canon(x[i]) && Canon(b).items[i] == Canon(y[i]);
      }
    case (Obj(x), Obj(y)) =>
      forall i, j | 0 <= i < |x| && 0 <= j < |y| ensures Canon(x[i].value) == Canon(y[j].value) <==> Same(x[i].value, y[j].value) {
        CanonDecidesSame(x[i].value, y[j].value);
      }
      CanonOfObject(x);
      CanonOfObject(y);
      SortedEntries(x);
      SortedEntries(y);
      if Same(a, b) {
        SameEntries(x, y);
        AscendingIsDetermined(SortByKey(CanonEntries(x)), SortByKey(CanonEntries(y)));
      } else if Canon(a) == Canon(b) {
        MatchedEntries(x, y);
      }
    case (_, _) =>
  }

  /** Matching entries have the same canonical members. */
  lemma SameEntries(x: seq<Entry>, y: seq<Entry>)
    requires Same(Obj(x), Obj(y))
    requires forall i, j | 0 <= i < |x| && 0 <= j < |y| :: Same(x[i].value, y[j].value) ==> Canon(x[i].value) == Canon(y[j].value)
    ensures forall e :: e in CanonEntries(x) <==> e in CanonEntries(y)
  {
    forall e | e in CanonEntries(x) ensures e in CanonEntries(y) {
      var i :| 0 <= i < |x| && CanonEntries(x)[i] == e;
      assert MatchedIn(x[i], y);
      var j :| 0 <= j < |y| && x[i].key == y[j].key && Same(x[i].value, y[j].value);
      assert CanonEntries(y)[j] == e;
    }
    forall e | e in CanonEntries(y) ensures e in CanonEntries(x) {
      var j :| 0 <= j < |y| && CanonEntries(y)[j] == e;
      assert MatchedFrom(x, y[j]);
      var i :| 0 <= i < |x| && x[i].key == y[j].key && Same(x[i].value, y[j].value);
      assert CanonEntries(x)[i] == e;
    }
  }

  lemma MatchedEntries(x: seq<Entry>, y: seq<Entry>)
    requires forall e :: e in CanonEntries(x) <==> e in CanonEntries(y)
    requires forall i, j | 0 <= i < |x| && 0 <= j < |y| :: Canon(x[i].value) == Canon(y[j].value) ==> Same(x[i].value, y[j].value)
    ensures Same(Obj(x), Obj(y))
  {
    forall i | 0 <= i < |x| ensures MatchedIn(x[i], y) {
      assert CanonEntries(x)[i] in CanonEntries(y);
      var j :| 0 <= j < |y| && CanonEntries(y)[j] == CanonEntries(x)[i];
      assert Same(x[i].value, y[j].value);
    }
    forall j | 0 <= j < |y| ensures MatchedFrom(x, y[j]) {
      assert CanonEntries(y)[j] in CanonEntries(x);
      var i :| 0 <= i < |x| && CanonEntries(x)[i] == CanonEntries(y)[j];
      assert Same(x[i].value, y[j].value);
    }
  }

  /** Canonicalizing a canonical value changes nothing. */
  lemma {:induction false} CanonIdempotent(v: Json)
    requires Unique(v)
    ensures Canon(Canon(v)) == Canon(v)
  {
    match v
    case Arr(items) =>
      forall i | 0 <= i < |items| ensures Canon(Canon(items[i])) == Canon(items[i]) { CanonIdempotent(items[i]); }
      assert Canon(Canon(v)).items == Canon(v).items;
    case Obj(es) =>
      CanonOfObject(es);
      SortedEntries(es);
      var sorted := SortByKey(CanonEntries(es));
      forall k | 0 <= k < |sorted| ensures CanonEntries(sorted)[k] == sorted[k] {
        assert sorted[k] in CanonEntries(es);
        var i :| 0 <= i < |es| && CanonEntries(es)[i] == sorted[k];
        CanonIdempotent(es[i].value);
      }
      assert CanonEntries(sorted) == sorted;
      CanonOfObject(sorted);
      SortFixesAscending(sorted);
    case _ =>
  }

  lemma {:induction false} SortFixesAscending(es: seq<Entry>)
    requires Ascending(es)
    ensures SortByKey(es) == es
  {
    if es != [] {
      SortFixesAscending(es[1..]);
      assert es == [es[0]] + es[1..];
    }
  }

  /** Canonicalization keeps every lookup. */
  lemma CanonKeepsLookups(es: seq<Entry>, key: string)
    requires Unique(Obj(es))
    ensures Canon(Obj(es)).Obj?
    ensures var found := Lookup(Canon(Obj(es)).entries, key);
            match Lookup(es, key) case None => found == None case Some(v) => found == Some(Canon(v))
  {
    CanonOfObject(es);
    SortedEntries(es);
    var sorted := SortByKey(CanonEntries(es));
    LookupFinds(es, key);
    LookupFinds(sorted, key);
    hide Canon, Lookup, SortByKey;
    if Lookup(es, key).Some? {
      var i :| 0 <= i < |es| && es[i] == Entry(key, Lookup(es, key).value);
      assert CanonEntries(es)[i] in sorted;
      var k :| 0 <= k < |sorted| && sorted[k] == CanonEntries(es)[i];
      assert sorted[k].key == key;
    }
    if Lookup(sorted, key).Some? {
      assert Entry(key, Lookup(sorted, key).value) in CanonEntries(es);
      var i :| 0 <= i < |es| && CanonEntries(es)[i] == Entry(key, Lookup(sorted, key).value);
      assert es[i].key == key;
      assert es[i] == Entry(key, Lookup(es, key).value);
    }
  }

  lemma {:induction false} LookupFinds(es: seq<Entry>, key: string)
    ensures Lookup(es, key).Some? ==> Entry(key, Lookup(es, key).value) in es
    ensures Lookup(es, key).None? ==> forall i | 0 <= i < |es| :: es[i].key != key
  {
    if es != [] {
      LookupFinds(es[1..], key);
      assert es == [es[0]] + es[1..];
    }
  }

  // Equality of values: the two float zeros are one number and print differently.

  const ZERO := "0.0"
  const MINUS_ZERO := "-0.0"

  /** The value with the sign of every zero dropped. */
  function Unsigned(v: Json): Json {
    match v
    case Num(literal) => if literal == MINUS_ZERO then Num(ZERO) else v
    case Arr(items) => Arr(seq(|items|, i requires 0 <= i < |items| => Unsigned(items[i])))
    case Obj(es) => Obj(seq(|es|, i requires 0 <= i < |es| => Entry(es[i].key, Unsigned(es[i].value))))
    case _ => v
  }

  /** Equal as values, whatever the order of object keys. */
  ghost predicate SameValue(a: Json, b: Json) {
    Same(Unsigned(a), Unsigned(b))
  }

  /** No zero in the value has a sign. */
  predicate SignFree(v: Json) {
    match v
    case Num(literal) => literal != MINUS_ZERO
    case Arr(items) => forall i | 0 <= i < |items| :: SignFree(items[i])
    case Obj(es) => forall i | 0 <= i < |es| :: SignFree(es[i].value)
    case _ => true
  }

  lemma {:induction false} UnsignedIsUnique(v: Json)
    requires Unique(v)
    ensures Unique(Unsigned(v)) && SignFree(Unsigned(v))
  {
    match v
    case Arr(items) =>
      forall i | 0 <= i < |items| ensures Unique(Unsigned(items[i])) && SignFree(Unsigned(items[i])) { UnsignedIsUnique(items[i]); }
    case Obj(es) =>
      forall i | 0 <= i < |es| ensures Unique(Unsigned(es[i].value)) && SignFree(Unsigned(es[i].value)) {
        UnsignedIsUnique(es[i].value);
      }
    case _ =>
  }

  lemma {:induction false} SignFreeIsUnsigned(v: Json)
    requires SignFree(v)
    ensures Unsigned(v) == v
  {
    match v
    case Arr(items) =>
      forall i | 0 <= i < |items| ensures Unsigned(items[i]) == items[i] { SignFreeIsUnsigned(items[i]); }
      assert Unsigned(v).items == items;
    case Obj(es) =>
      forall i | 0 <= i < |es| ensures Unsigned(es[i].value) == es[i].value { SignFreeIsUnsigned(es[i].value); }
      assert Unsigned(v).entries == es;
    case _ =>
  }

  /** What the repeat detector compares decides equality of values. */
  lemma ComparedDecidesValue(a: Json, b: Json)
    requires Unique(a) && Unique(b)
    ensures Compared(a) == Compared(b) <==> SameValue(a, b)
  {
    UnsignedIsUnique(a);
    UnsignedIsUnique(b);
    CanonDecidesSame(Unsigned(a), Unsigned(b));
  }

  /** One form for all values equal to `v`. */
  function Compared(v: Json): Json {
    Canon(Unsigned(v))
  }

  // The repeat fingerprint and the strike key.

  /** A call's arguments: parsed, or text the parser refuses. */
  datatype Args = Parsed(value: Json) | Raw(text: string) {
    ghost predicate WellFormed() {
      Parsed? ==> Unique(value)
    }
  }

  /** The value the repeat detector compares: unparseable text stands as a string value. */
  function AsValue(a: Args): Json {
    match a case Parsed(v) => v case Raw(text) => Str(text)
  }

  /** The strike key: the printed canonical value, or the text itself. No printed value is unparseable. */
  datatype StrikeKey = Printed(canonical: Json) | Verbatim(text: string)

  function CanonicalArgs(a: Args): StrikeKey {
    match a case Parsed(v) => Printed(Canon(v)) case Raw(text) => Verbatim(text)
  }

  /** Equal to the repeat detector, different to the strike tracker: unparseable text and a string value
      with that text, or equal values that print differently, by the sign of a zero. */
  ghost predicate Confusable(a: Args, b: Args) {
    || (a.Raw? && b.Parsed? && b.value == Str(a.text))
    || (b.Raw? && a.Parsed? && a.value == Str(b.text))
    || (a.Parsed? && b.Parsed? && SameValue(a.value, b.value) && !Same(a.value, b.value))
  }

  /** The two keys identify the same calls, except for unparseable text against the string value it
      spells and for values that differ in the sign of a zero. */
  lemma KeysAgreeUnlessConfusable(a: Args, b: Args)
    requires a.WellFormed() && b.WellFormed()
    ensures (CanonicalArgs(a) == CanonicalArgs(b) <==> SameValue(AsValue(a), AsValue(b))) <==> !Confusable(a, b)
  {
    if a.Parsed? && b.Parsed? {
      CanonDecidesSame(a.value, b.value);
      UnsignedIsUnique(a.value);
      UnsignedIsUnique(b.value);
      if Same(a.value, b.value) { SameIsSameValue(a.value, b.value); }
    }
  }

  lemma {:induction false} SameIsSameValue(a: Json, b: Json)
    requires Same(a, b)
    ensures SameValue(a, b)
    decreases a
  {
    match (a, b)
    case (Arr(x), Arr(y)) =>
      forall i | 0 <= i < |x| ensures SameValue(x[i], y[i]) { SameIsSameValue(x[i], y[i]); }
      ItemsCarryOver(x, y);
    case (Obj(x), Obj(y)) =>
      forall i, j | 0 <= i < |x| && 0 <= j < |y| && Same(x[i].value, y[j].value) ensures SameValue(x[i].value, y[j].value) {
        SameIsSameValue(x[i].value, y[j].value);
      }
      EntriesCarryOver(x, y);
    case (_, _) =>
  }

  lemma ItemsCarryOver(x: seq<Json>, y: seq<Json>)
    requires |x| == |y| && forall i | 0 <= i < |x| :: SameValue(x[i], y[i])
    ensures SameValue(Arr(x), Arr(y))
  {
    var u, w := Unsigned(Arr(x)).items, Unsigned(Arr(y)).items;
    assert forall i | 0 <= i < |x| :: Same(u[i], w[i]);
  }

  lemma EntriesCarryOver(x: seq<Entry>, y: seq<Entry>)
    requires Same(Obj(x), Obj(y))
    requires forall i, j | 0 <= i < |x| && 0 <= j < |y| && Same(x[i].value, y[j].value) :: SameValue(x[i].value, y[j].value)
    ensures SameValue(Obj(x), Obj(y))
  {
    hide MatchedIn, MatchedFrom;
    var u, w := Unsigned(Obj(x)).entries, Unsigned(Obj(y)).entries;
    assert forall i | 0 <= i < |x| :: u[i] == Entry(x[i].key, Unsigned(x[i].value));
    assert forall j | 0 <= j < |y| :: w[j] == Entry(y[j].key, Unsigned(y[j].value));
    MatchesCarryOver(x, y, u, w);
  }

  /** Entries that match keep matching when their keys stay and equal values stay equal. */
  lemma MatchesCarryOver(x: seq<Entry>, y: seq<Entry>, u: seq<Entry>, w: seq<Entry>)
    requires Same(Obj(x), Obj(y)) && |u| == |x| && |w| == |y|
    requires (forall i | 0 <= i < |x| :: u[i].key == x[i].key) && forall j | 0 <= j < |y| :: w[j].key == y[j].key
    requires forall i, j | 0 <= i < |x| && 0 <= j < |y| && Same(x[i].value, y[j].value) :: Same(u[i].value, w[j].value)
    ensures Same(Obj(u), Obj(w))
  {
    forall i | 0 <= i < |u| ensures MatchedIn(u[i], w) {
      assert MatchedIn(x[i], y);
      var j :| 0 <= j < |y| && x[i].key == y[j].key && Same(x[i].value, y[j].value);
      assert u[i].key == w[j].key && Same(u[i].value, w[j].value);
    }
    forall j | 0 <= j < |w| ensures MatchedFrom(u, w[j]) {
      assert MatchedFrom(x, y[j]);
      var i :| 0 <= i < |x| && x[i].key == y[j].key && Same(x[i].value, y[j].value);
      assert u[i].key == w[j].key && Same(u[i].value, w[j].value);
    }
  }

  /** Values without a signed zero are never confused with one another. */
  lemma SignFreeIsNotConfused(a: Json, b: Json)
    requires SignFree(a) && SignFree(b)
    ensures !Confusable(Parsed(a), Parsed(b))
  {
    SignFreeIsUnsigned(a);
    SignFreeIsUnsigned(b);
  }

  /** The two zeros are. */
  lemma ZerosAreConfused()
    ensures Confusable(Parsed(Num(ZERO)), Parsed(Num(MINUS_ZERO)))
  {
    assert |ZERO| != |MINUS_ZERO|;
  }
}
