/** Session names as stored and as shown (src/context/names.rs). */
module Names {
  import opened Text

  const NUL: string := "\0"

  function Sanitize(name: string): string {
    Replace(Replace(Replace(name, NUL, ""), "..", ""), "/", "--")
  }

  function Desanitize(stem: string): string {
    Replace(stem, "--", "/")
  }

  /** A name in storage form. */
  predicate Stored(s: string) {
    '\0' !in s && '/' !in s && !Has(s, "..")
  }

  lemma PairPrefix(a: char, b: char, s: string)
    ensures [a, b] <= s <==> |s| >= 2 && s[0] == a && s[1] == b
  {
  }

  lemma {:induction false} RemoveChar(s: string, c: char)
    ensures c !in Replace(s, [c], "")
    ensures c in s ==> |Replace(s, [c], "")| < |s|
    ensures |Replace(s, [c], "")| <= |s|
    ensures forall x | x in Replace(s, [c], "") :: x in s
  {
    if s != [] {
      RemoveChar(s[1..], c);
      assert s == [s[0]] + s[1..];
      assert [c] <= s <==> s[0] == c;
    }
  }

  /** Removing pairs leaves no pair: what is left of a run of dots is at most one dot. */
  lemma {:induction false} RemovePairs(s: string)
    ensures var r := Replace(s, "..", "");
            && !Has(r, "..") && |r| <= |s| && (forall x | x in r :: x in s)
            && (r != [] && r[0] == '.' ==> s != [] && s[0] == '.')
    decreases |s|
  {
    if s == [] {
    } else if ".." <= s {
      RemovePairs(s[2..]);
      assert "" + Replace(s[2..], "..", "") == Replace(s[2..], "..", "");
      assert s == s[..2] + s[2..];
    } else {
      RemovePairs(s[1..]);
      assert s == [s[0]] + s[1..];
      var r := Replace(s[1..], "..", "");
      assert ([s[0]] + r)[1..] == r;
      assert !(".." <= [s[0]] + r);
    }
  }

  lemma {:induction false} ExpandSlashes(s: string)
    requires '\0' !in s && !Has(s, "..")
    ensures Stored(Replace(s, "/", "--"))
  {
    if s != [] {
      ExpandSlashes(s[1..]);
      var r := Replace(s[1..], "/", "--");
      assert s == [s[0]] + s[1..];
      if s[0] == '/' {
        NoPair("-" + r, r);
        NoPair("--" + r, "-" + r);
      } else {
        assert !("/" <= s) && ([s[0]] + r)[1..] == r;
        SlashHead(s[1..]);
        assert !(".." <= [s[0]] + r);
      }
    }
  }

  lemma NoPair(s: string, rest: string)
    requires s == "-" + rest && !Has(rest, "..")
    ensures !Has(s, "..")
  {
    assert s[0] == '-' && s[1..] == rest;
  }

  lemma SlashHead(s: string)
    ensures var r := Replace(s, "/", "--"); r != [] && r[0] == '.' ==> s != [] && s[0] == '.'
  {
  }

  /** Every stored name is free of separators, NULs and parent references, whatever was asked for. */
  lemma SanitizedIsStored(name: string)
    ensures Stored(Sanitize(name))
  {
    RemoveChar(name, '\0');
    var a := Replace(name, NUL, "");
    RemovePairs(a);
    ExpandSlashes(Replace(a, "..", ""));
  }

  lemma StoredIsFixed(s: string)
    requires Stored(s)
    ensures Sanitize(s) == s
  {
    HasChar(s, '\0');
    HasChar(s, '/');
    ReplaceAbsent(s, NUL, "");
    ReplaceAbsent(s, "..", "");
    ReplaceAbsent(s, "/", "--");
  }

  /** A name is its own storage form exactly when it is in storage form. */
  lemma SanitizeFixesExactlyStored(s: string)
    ensures Sanitize(s) == s <==> Stored(s)
    ensures Sanitize(Sanitize(s)) == Sanitize(s)
  {
    SanitizedIsStored(s);
    if Stored(s) { StoredIsFixed(s); }
    StoredIsFixed(Sanitize(s));
  }

  lemma {:induction false} NoDotNoPair(s: string)
    requires '.' !in s
    ensures !Has(s, "..")
    ensures '\0' !in s && '/' !in s ==> Stored(s)
  {
    if s != [] {
      NoDotNoPair(s[1..]);
      assert s[0] != '.' && ".."[0] == '.';
    }
  }

  // What display loses.

  /** The names display gives back. */
  predicate Displayable(name: string) {
    '\0' !in name && !Has(name, "..") && !Has(name, "--") && !Has(name, "-/")
  }

  /** Contracting `--` leaves neither `--` nor `-/`, and invents no dots or NULs. */
  lemma {:induction false} ContractDashes(s: string)
    requires '/' !in s && '\0' !in s && !Has(s, "..")
    ensures Displayable(Desanitize(s))
    ensures Desanitize(s) != [] ==> s != []
    ensures Desanitize(s) != [] && (Desanitize(s)[0] == '-' || Desanitize(s)[0] == '/') ==> s[0] == '-'
    ensures Desanitize(s) != [] && Desanitize(s)[0] == '.' ==> s[0] == '.'
    decreases |s|
  {
    if s == [] {
    } else if "--" <= s {
      var r := Desanitize(s[2..]);
      DropKeeps(s, 2);
      ContractDashes(s[2..]);
      var t := "/" + r;
      assert t[1..] == r;
      assert !("--" <= t) && !("-/" <= t) && !(".." <= t);
    } else {
      var r := Desanitize(s[1..]);
      DropKeeps(s, 1);
      ContractDashes(s[1..]);
      var t := [s[0]] + r;
      assert t[1..] == r;
      forall b | b in {'-', '.', '/'} ensures b != '/' ==> !([b, b] <= t)
        ensures !(['-', '/'] <= t)
      {
        PairPrefix(b, b, s);
        PairPrefix(b, b, t);
        PairPrefix('-', '/', t);
        PairPrefix('-', '-', s);
      }
    }
  }

  lemma DropKeeps(s: string, k: nat)
    requires k <= |s| && '/' !in s && '\0' !in s && !Has(s, "..")
    ensures '/' !in s[k..] && '\0' !in s[k..] && !Has(s[k..], "..")
  {
    assert s == s[..k] + s[k..];
    if Has(s[k..], "..") { HasSplit(s[..k], s[k..], ".."); }
  }

  lemma DashHead(s: string)
    ensures var r := Replace(s, "/", "--"); r != [] && r[0] == '-' ==> s != [] && s[0] in {'-', '/'}
  {
  }

  lemma {:induction false} ExpandContract(s: string)
    requires '\0' !in s && !Has(s, "--") && !Has(s, "-/")
    ensures Desanitize(Replace(s, "/", "--")) == s
  {
    if s != [] {
      ExpandContract(s[1..]);
      var r := Replace(s[1..], "/", "--");
      if s[0] == '/' {
        assert ("--" + r)[2..] == r && "--" <= "--" + r;
        assert s == "/" + s[1..];
      } else {
        assert !("/" <= s) && ([s[0]] + r)[1..] == r;
        DashHead(s[1..]);
        assert !("--" <= [s[0]] + r);
      }
    }
  }

  /** Showing a stored name gives the name back exactly when it has no NUL, no `..`, no `--` and no `-/`. */
  lemma DisplayRoundTripIff(name: string)
    ensures Desanitize(Sanitize(name)) == name <==> Displayable(name)
  {
    SanitizedIsStored(name);
    if Displayable(name) {
      HasChar(name, '\0');
      ReplaceAbsent(name, NUL, "");
      ReplaceAbsent(name, "..", "");
      ExpandContract(name);
    }
    ContractDashes(Sanitize(name));
  }

  /** Listing loses nothing: a stored name shown and typed back is the same session. */
  lemma ShownNameFindsItsSession(s: string)
    requires Stored(s)
    ensures Sanitize(Desanitize(s)) == s
  {
    ContractDashes(s);
    var shown := Desanitize(s);
    HasChar(shown, '\0');
    ReplaceAbsent(shown, NUL, "");
    ReplaceAbsent(shown, "..", "");
    ContractExpand(s);
  }

  lemma {:induction false} ContractExpand(s: string)
    requires '/' !in s
    ensures Replace(Desanitize(s), "/", "--") == s
    decreases |s|
  {
    if s == [] {
    } else if "--" <= s {
      ContractExpand(s[2..]);
      assert ("/" + Desanitize(s[2..]))[1..] == Desanitize(s[2..]);
      assert s == "--" + s[2..];
    } else {
      ContractExpand(s[1..]);
      assert ([s[0]] + Desanitize(s[1..]))[1..] == Desanitize(s[1..]);
      assert s == [s[0]] + s[1..];
    }
  }

  // What a stored name still says.

  /** The characters other than dots and NULs. */
  function Kept(s: string): string {
    if s == [] then [] else (if s[0] == '.' || s[0] == '\0' then [] else [s[0]]) + Kept(s[1..])
  }

  /** Each slash written as two dashes. */
  function Dashed(s: string): string {
    if s == [] then [] else (if s[0] == '/' then "--" else [s[0]]) + Dashed(s[1..])
  }

  function Dots(n: nat): string {
    seq(n, i => '.')
  }

  lemma {:induction false} KeptOfConcat(a: string, b: string)
    ensures Kept(a + b) == Kept(a) + Kept(b)
  {
    if a == [] {
      assert a + b == b;
    } else {
      assert (a + b)[1..] == a[1..] + b;
      KeptOfConcat(a[1..], b);
    }
  }

  lemma {:induction false} KeptWithout(s: string, pat: string)
    requires pat != [] && Kept(pat) == []
    ensures Kept(Replace(s, pat, "")) == Kept(s)
    decreases |s|
  {
    if s == [] {
    } else if pat <= s {
      KeptWithout(s[|pat|..], pat);
      assert s == pat + s[|pat|..];
      KeptOfConcat(pat, s[|pat|..]);
      assert "" + Replace(s[|pat|..], pat, "") == Replace(s[|pat|..], pat, "");
    } else {
      KeptWithout(s[1..], pat);
      KeptOfConcat([s[0]], s[1..]);
      KeptOfConcat([s[0]], Replace(s[1..], pat, ""));
      assert s == [s[0]] + s[1..];
    }
  }

  lemma {:induction false} KeptDashes(s: string)
    ensures Kept(Replace(s, "/", "--")) == Dashed(Kept(s))
  {
    if s != [] {
      KeptDashes(s[1..]);
      var rest := Replace(s[1..], "/", "--");
      if s[0] == '/' {
        assert ("--" + rest)[1..] == "-" + rest && ("-" + rest)[1..] == rest;
        assert Kept("--" + rest) == "-" + ("-" + Kept(rest));
        assert Kept(s) == "/" + Kept(s[1..]) && Kept(s)[1..] == Kept(s[1..]);
      } else {
        assert !("/" <= s) && ([s[0]] + rest)[1..] == rest;
        if Kept(s) != Kept(s[1..]) { assert Kept(s)[1..] == Kept(s[1..]); }
      }
    }
  }

  /** Sanitizing loses nothing but dots and NULs: the other characters stay, in order, slashes as two dashes. */
  lemma NothingElseIsLost(name: string)
    ensures Kept(Sanitize(name)) == Dashed(Kept(name))
  {
    assert Kept(NUL) == [] && Kept("..") == [] by { assert ".."[1..] == "."; }
    KeptWithout(name, NUL);
    var a := Replace(name, NUL, "");
    KeptWithout(a, "..");
    KeptDashes(Replace(a, "..", ""));
  }

  /** And of a run of dots one is left when their number is odd, none when it is even. */
  lemma {:induction false} DotRunLeavesItsParity(n: nat, rest: string)
    requires rest == [] || rest[0] != '.'
    ensures Replace(Dots(n) + rest, "..", "") == Dots(n % 2) + Replace(rest, "..", "")
  {
    hide Replace;
    if n >= 2 {
      DotRunLeavesItsParity(n - 2, rest);
      TwoDotsGo(Dots(n - 2) + rest);
      MoreDots(n, rest);
    } else if n == 1 {
      OneDotStays(rest);
      assert Dots(1) == ".";
    } else {
      assert Dots(0) + rest == rest;
      assert Dots(0) + Replace(rest, "..", "") == Replace(rest, "..", "");
    }
  }

  lemma MoreDots(n: nat, rest: string)
    requires n >= 2
    ensures Dots(n) + rest == ".." + (Dots(n - 2) + rest)
  {
  }

  lemma TwoDotsGo(rest: string)
    ensures Replace(".." + rest, "..", "") == Replace(rest, "..", "")
  {
    var s := ".." + rest;
    assert ".." <= s && s[2..] == rest;
    assert "" + Replace(rest, "..", "") == Replace(rest, "..", "");
  }

  lemma OneDotStays(rest: string)
    requires rest == [] || rest[0] != '.'
    ensures Replace("." + rest, "..", "") == "." + Replace(rest, "..", "")
  {
    var s := "." + rest;
    PairPrefix('.', '.', s);
    assert s[1..] == rest && [s[0]] == ".";
  }
}
