/** String helpers the source takes from JavaScript: decimal rendering of numbers
    (template literals), `startsWith` and `trim`. */
module Text {

  /** The digit character for 0..9. */
  function Digit(d: nat): (c: char)
    requires d < 10
    ensures '0' <= c <= '9'
  {
    "0123456789"[d]
  }

  /** Decimal rendering of a non-negative integer, without leading zeros. */
  function Digits(n: nat): (s: string)
    ensures |s| >= 1
    ensures forall i :: 0 <= i < |s| ==> '0' <= s[i] <= '9'
    decreases n
  {
    if n < 10 then [Digit(n)] else Digits(n / 10) + [Digit(n % 10)]
  }

  /** What `${n}` renders for an integral number `n` (below 10^21 in magnitude). */
  function Decimal(n: int): (s: string)
    ensures n >= 0 ==> s == Digits(n)
    ensures n < 0 ==> s == "-" + Digits(-n)
  {
    if n >= 0 then Digits(n) else "-" + Digits(-n)
  }

  lemma DigitInjective(a: nat, b: nat)
    requires a < 10 && b < 10 && Digit(a) == Digit(b)
    ensures a == b
  {
  }

  /** Distinct numbers render differently. */
  lemma {:induction false} DigitsInjective(a: nat, b: nat)
    requires Digits(a) == Digits(b)
    ensures a == b
    decreases a
  {
    var s := Digits(a);
    if a < 10 && b < 10 {
      DigitInjective(a, b);
    } else if a >= 10 && b >= 10 {
      assert s[|s| - 1] == Digit(a % 10) && s[|s| - 1] == Digit(b % 10);
      DigitInjective(a % 10, b % 10);
      assert Digits(a / 10) == s[..|s| - 1] == Digits(b / 10);
      DigitsInjective(a / 10, b / 10);
    } else {
      // one rendering has a single digit, the other at least two
      assert false;
    }
  }

  /** Distinct integers render differently, sign included. */
  lemma DecimalInjective(a: int, b: int)
    requires Decimal(a) == Decimal(b)
    ensures a == b
  {
    if a >= 0 && b >= 0 {
      DigitsInjective(a, b);
    } else if a < 0 && b < 0 {
      assert Digits(-a) == Decimal(a)[1..] == Digits(-b);
      DigitsInjective(-a, -b);
    } else {
      DecimalSign(a);
      DecimalSign(b);
      assert false;
    }
  }

  /** A rendering starts with '-' exactly for a negative number. */
  lemma DecimalSign(n: int)
    ensures Decimal(n)[0] == '-' <==> n < 0
  {
    if n >= 0 {
      assert Decimal(n)[0] == Digits(n)[0];
    }
  }

  /** Position of the first '-' in `s` (|s| when there is none). */
  function DashIndex(s: string): (k: nat)
    ensures k <= |s|
  {
    if s == [] || s[0] == '-' then 0 else 1 + DashIndex(s[1..])
  }

  /** A '-' preceded by no other '-' is the first one. */
  lemma {:induction false} DashIndexAt(s: string, k: nat)
    requires k < |s| && s[k] == '-'
    requires forall i :: 0 <= i < k ==> s[i] != '-'
    ensures DashIndex(s) == k
  {
    if k > 0 {
      DashIndexAt(s[1..], k - 1);
    }
  }

  /** A number's rendering followed by '-' and any text splits back at that '-'. */
  lemma DigitsDashSplit(n1: nat, f1: string, n2: nat, f2: string)
    requires Digits(n1) + "-" + f1 == Digits(n2) + "-" + f2
    ensures n1 == n2 && f1 == f2
  {
    var d1, d2 := Digits(n1), Digits(n2);
    var s := d1 + "-" + f1;
    DashIndexAt(s, |d1|);
    DashIndexAt(d2 + "-" + f2, |d2|);
    assert d1 == s[..|d1|];
    assert d2 == (d2 + "-" + f2)[..|d2|];
    DigitsInjective(n1, n2);
    assert f1 == s[|d1| + 1..];
    assert f2 == (d2 + "-" + f2)[|d2| + 1..];
  }

  predicate StartsWith(s: string, prefix: string) {
    |prefix| <= |s| && s[..|prefix|] == prefix
  }

  predicate EndsWith(s: string, suffix: string) {
    |suffix| <= |s| && s[|s| - |suffix|..] == suffix
  }

  /** The characters `String.prototype.trim` removes: ECMAScript WhiteSpace and LineTerminator. */
  predicate IsJsSpace(c: char) {
    c == '\t' || c == '\n' || c == '\U{000B}' || c == '\U{000C}' || c == '\r' || c == ' '
    || c == '\U{00A0}' || c == '\U{1680}' || ('\U{2000}' <= c <= '\U{200A}')
    || c == '\U{2028}' || c == '\U{2029}' || c == '\U{202F}' || c == '\U{205F}'
    || c == '\U{3000}' || c == '\U{FEFF}'
  }

  function TrimStart(s: string): (r: string)
    ensures |r| <= |s| && r == s[|s| - |r|..]
    ensures r == [] || !IsJsSpace(r[0])
    ensures forall i :: 0 <= i < |s| - |r| ==> IsJsSpace(s[i])
  {
    if s != [] && IsJsSpace(s[0]) then TrimStart(s[1..]) else s
  }

  function TrimEnd(s: string): (r: string)
    ensures |r| <= |s| && r == s[..|r|]
    ensures r == [] || !IsJsSpace(r[|r| - 1])
    ensures forall i :: |r| <= i < |s| ==> IsJsSpace(s[i])
  {
    if s != [] && IsJsSpace(s[|s| - 1]) then TrimEnd(s[..|s| - 1]) else s
  }

  /** `s.trim()`: removes leading and trailing white space, keeps the rest as it is. */
  function Trim(s: string): (r: string)
    ensures |r| <= |s|
    ensures r == [] || (!IsJsSpace(r[0]) && !IsJsSpace(r[|r| - 1]))
  {
    TrimEnd(TrimStart(s))
  }

  /** The trim is one contiguous piece of the input, with only white space around it. */
  lemma TrimIsSlice(s: string)
    ensures var r, k := Trim(s), |s| - |TrimStart(s)|;
      && k + |r| <= |s| && r == s[k..k + |r|]
      && (forall i :: 0 <= i < k ==> IsJsSpace(s[i]))
      && (forall i :: k + |r| <= i < |s| ==> IsJsSpace(s[i]))
  {
    var front := TrimStart(s);
    var r := TrimEnd(front);
    var k := |s| - |front|;
    assert Trim(s) == r;
    assert front == s[k..];
    assert r == front[..|r|];
    assert r == s[k..k + |r|];
    forall i | k + |r| <= i < |s| ensures IsJsSpace(s[i]) {
      assert s[i] == front[i - k];
    }
  }

  /** A string with no white space at either end is its own trim. */
  lemma {:induction false} TrimOfTrimmed(s: string)
    requires s == [] || (!IsJsSpace(s[0]) && !IsJsSpace(s[|s| - 1]))
    ensures Trim(s) == s
  {
  }

  /** Trimming twice is trimming once. */
  lemma TrimIdempotent(s: string)
    ensures Trim(Trim(s)) == Trim(s)
  {
    TrimOfTrimmed(Trim(s));
  }
}
