/** Strings as the repository uses them: ordering, substring search, replacement, decimals. */
module Options {
  datatype Option<+T> = None | Some(value: T) {
    function GetOr(fallback: T): T {
      if Some? then value else fallback
    }
  }
}

module Text {

  /** The order of `str`: first difference decides, a proper prefix comes first. */
  predicate Before(a: string, b: string) {
    if b == [] then false
    else if a == [] then true
    else if a[0] != b[0] then a[0] < b[0]
    else Before(a[1..], b[1..])
  }

  predicate AtMost(a: string, b: string) {
    a == b || Before(a, b)
  }

  lemma {:induction false} BeforeTotal(a: string, b: string)
    ensures Before(a, b) || a == b || Before(b, a)
    ensures !(Before(a, b) && Before(b, a))
    ensures a == b ==> !Before(a, b)
  {
    if a != [] && b != [] {
      BeforeTotal(a[1..], b[1..]);
      assert a == [a[0]] + a[1..] && b == [b[0]] + b[1..];
    }
  }

  lemma {:induction false} BeforeTransitive(a: string, b: string, c: string)
    requires Before(a, b) && Before(b, c)
    ensures Before(a, c)
  {
    if a != [] && b != [] && c != [] && a[0] == b[0] == c[0] {
      BeforeTransitive(a[1..], b[1..], c[1..]);
    }
  }

  /** A common prefix never decides. */
  lemma {:induction false} BeforeAfterPrefix(p: string, a: string, b: string)
    ensures Before(p + a, p + b) <==> Before(a, b)
  {
    if p == [] {
      assert p + a == a && p + b == b;
    } else {
      assert (p + a)[1..] == p[1..] + a && (p + b)[1..] == p[1..] + b;
      BeforeAfterPrefix(p[1..], a, b);
    }
  }

  /** Between equally long, different heads the tails never decide. */
  lemma {:induction false} BeforeByHead(p: string, q: string, a: string, b: string)
    requires |p| == |q| && p != q
    ensures Before(p + a, q + b) <==> Before(p, q)
  {
    assert (p + a)[1..] == p[1..] + a && (q + b)[1..] == q[1..] + b;
    if p[0] == q[0] {
      assert p == [p[0]] + p[1..] && q == [q[0]] + q[1..];
      BeforeByHead(p[1..], q[1..], a, b);
    }
  }

  /** Whether `pat` occurs in `s`. */
  predicate Has(s: string, pat: string) {
    pat <= s || (s != [] && Has(s[1..], pat))
  }

  /** `str::replace`: leftmost, non-overlapping occurrences. */
  function Replace(s: string, pat: string, sub: string): string
    requires pat != []
    decreases |s|
  {
    if s == [] then []
    else if pat <= s then sub + Replace(s[|pat|..], pat, sub)
    else [s[0]] + Replace(s[1..], pat, sub)
  }

  lemma {:induction false} ReplaceAbsent(s: string, pat: string, sub: string)
    requires pat != [] && !Has(s, pat)
    ensures Replace(s, pat, sub) == s
  {
    if s != [] {
      ReplaceAbsent(s[1..], pat, sub);
    }
  }

  lemma {:induction false} HasSplit(a: string, b: string, pat: string)
    requires Has(b, pat)
    ensures Has(a + b, pat)
  {
    if a == [] {
      assert a + b == b;
    } else {
      assert (a + b)[1..] == a[1..] + b;
      HasSplit(a[1..], b, pat);
    }
  }

  lemma {:induction false} HasSplits(s: string, pat: string) returns (a: string, b: string)
    requires Has(s, pat)
    ensures s == a + pat + b
  {
    if pat <= s {
      a, b := [], s[|pat|..];
    } else {
      a, b := HasSplits(s[1..], pat);
      assert [s[0]] + (a + pat + b) == ([s[0]] + a) + pat + b;
      a := [s[0]] + a;
    }
  }

  lemma HasInside(a: string, pat: string, b: string)
    ensures Has(a + pat + b, pat)
  {
    assert a + pat + b == a + (pat + b);
    assert pat <= pat + b;
    HasSplit(a, pat + b, pat);
  }

  /** `pat` occurs in `s` exactly when `s` is something, `pat`, and something. */
  lemma HasIffSplits(s: string, pat: string)
    ensures Has(s, pat) <==> exists a: string, b: string :: s == a + pat + b
  {
    if Has(s, pat) { var a, b := HasSplits(s, pat); }
    forall a: string, b: string | s == a + pat + b ensures Has(s, pat) { HasInside(a, pat, b); }
  }

  lemma {:induction false} HasChar(s: string, c: char)
    ensures Has(s, [c]) <==> c in s
  {
    if s != [] {
      HasChar(s[1..], c);
      assert [c] <= s <==> s[0] == c;
      assert s == [s[0]] + s[1..];
    }
  }

  function ToLowerAscii(s: string): (r: string)
    ensures |r| == |s|
  {
    seq(|s|, i requires 0 <= i < |s| => if 'A' <= s[i] <= 'Z' then (s[i] as int + 32) as char else s[i])
  }

  /** The same letter, upper or lower case, or the same other character. */
  predicate SameLetter(a: char, b: char) {
    a == b || ('A' <= a <= 'Z' && b as int == a as int + 32) || ('A' <= b <= 'Z' && a as int == b as int + 32)
  }

  /** Strings agree in lower case exactly when they agree letter by letter, whatever the case. */
  lemma LowerDecidesLetters(a: string, b: string)
    ensures ToLowerAscii(a) == ToLowerAscii(b) <==> |a| == |b| && forall i | 0 <= i < |a| :: SameLetter(a[i], b[i])
  {
    var x, y := ToLowerAscii(a), ToLowerAscii(b);
    if x == y {
      forall i | 0 <= i < |a| ensures SameLetter(a[i], b[i]) { assert x[i] == y[i]; }
    }
  }

  /** The decimal digit of `n`. */
  function Digit(n: nat): (c: char)
    requires n < 10
    ensures '0' <= c <= '9'
  {
    ('0' as int + n) as char
  }

  /** The last `width` decimal digits of `n`, zero padded. */
  function Padded(n: nat, width: nat): (s: string)
    ensures |s| == width
  {
    if width == 0 then [] else Padded(n / 10, width - 1) + [Digit(n % 10)]
  }

  /** The shortest decimal rendering of `n`. */
  function Decimal(n: nat): (s: string)
    ensures |s| > 0
  {
    if n < 10 then [Digit(n)] else Decimal(n / 10) + [Digit(n % 10)]
  }

  function Pow10(k: nat): (r: nat)
    ensures r > 0
  {
    if k == 0 then 1 else 10 * Pow10(k - 1)
  }

  lemma {:induction false} DecimalLength(n: nat, k: nat)
    requires k > 0 && n < Pow10(k)
    ensures |Decimal(n)| <= k
  {
    if n >= 10 {
      assert Pow10(1) == 10;
      assert n / 10 < Pow10(k - 1);
      DecimalLength(n / 10, k - 1);
    }
  }

  // Reading decimals back.

  predicate Digits(s: string) {
    forall i | 0 <= i < |s| :: '0' <= s[i] <= '9'
  }

  /** The number a run of digits stands for. */
  function NumberOf(s: string): nat
    requires Digits(s)
  {
    if s == [] then 0 else 10 * NumberOf(s[..|s| - 1]) + (s[|s| - 1] as int - '0' as int)
  }

  lemma OneMoreDigit(s: string, n: nat)
    requires Digits(s) && n < 10
    ensures Digits(s + [Digit(n)]) && NumberOf(s + [Digit(n)]) == 10 * NumberOf(s) + n
  {
    assert (s + [Digit(n)])[..|s|] == s;
  }

  /** A decimal is read back as its number, and has no leading zero. */
  lemma {:induction false} DecimalReadsBack(n: nat)
    ensures Digits(Decimal(n)) && NumberOf(Decimal(n)) == n && (n > 0 ==> Decimal(n)[0] != '0')
  {
    if n < 10 {
      OneMoreDigit([], n);
      assert [] + [Digit(n)] == Decimal(n);
    } else {
      DecimalReadsBack(n / 10);
      OneMoreDigit(Decimal(n / 10), n % 10);
    }
  }

  /** A padded number that fits its width is read back as it was. */
  lemma {:induction false} PaddedReadsBack(n: nat, width: nat)
    requires n < Pow10(width)
    ensures Digits(Padded(n, width)) && NumberOf(Padded(n, width)) == n
  {
    if width > 0 {
      PaddedReadsBack(n / 10, width - 1);
      OneMoreDigit(Padded(n / 10, width - 1), n % 10);
    }
  }

  lemma {:induction false} PaddedOrder(a: nat, b: nat, width: nat)
    requires a < Pow10(width) && b < Pow10(width)
    ensures Before(Padded(a, width), Padded(b, width)) <==> a < b
    ensures Padded(a, width) == Padded(b, width) <==> a == b
  {
    if width > 0 {
      var p, q := Padded(a / 10, width - 1), Padded(b / 10, width - 1);
      var x, y := [Digit(a % 10)], [Digit(b % 10)];
      PaddedOrder(a / 10, b / 10, width - 1);
      assert Padded(a, width)[..width - 1] == p && Padded(b, width)[..width - 1] == q;
      assert Padded(a, width)[width - 1] == x[0] && Padded(b, width)[width - 1] == y[0];
      if p == q {
        BeforeAfterPrefix(p, x, y);
      } else {
        BeforeByHead(p, q, x, y);
      }
    }
  }
}
