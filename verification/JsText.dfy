/** The string operations of the host language that the other modules rely on. */
module JsText {

  /** White space as `trim` understands it. */
  predicate IsSpace(c: char) {
    var n := c as int;
    || 9 <= n <= 13 || n == 32 || n == 0xA0 || n == 0x1680 || 0x2000 <= n <= 0x200A
    || n == 0x2028 || n == 0x2029 || n == 0x202F || n == 0x205F || n == 0x3000 || n == 0xFEFF
  }

  predicate AllSpace(s: string) {
    forall i :: 0 <= i < |s| ==> IsSpace(s[i])
  }

  function TrimStart(s: string): string {
    if s != "" && IsSpace(s[0]) then TrimStart(s[1..]) else s
  }

  function TrimEnd(s: string): string {
    if s != "" && IsSpace(s[|s| - 1]) then TrimEnd(s[..|s| - 1]) else s
  }

  function Trim(s: string): string {
    TrimEnd(TrimStart(s))
  }

  /** Neither end is white space. */
  predicate IsTrimmed(s: string) {
    s == "" || (!IsSpace(s[0]) && !IsSpace(s[|s| - 1]))
  }

  lemma {:induction false} TrimStartParts(s: string) returns (k: nat)
    ensures k <= |s| && TrimStart(s) == s[k..] && AllSpace(s[..k])
    ensures k == |s| || !IsSpace(s[k])
  {
    if s != "" && IsSpace(s[0]) {
      var j := TrimStartParts(s[1..]);
      k := j + 1;
      assert s[..k] == [s[0]] + s[1..][..j];
    } else {
      k := 0;
    }
  }

  lemma {:induction false} TrimEndParts(s: string) returns (k: nat)
    ensures k <= |s| && TrimEnd(s) == s[..k] && AllSpace(s[k..])
    ensures k == 0 || !IsSpace(s[k - 1])
  {
    if s != "" && IsSpace(s[|s| - 1]) {
      k := TrimEndParts(s[..|s| - 1]);
      assert s[k..] == s[..|s| - 1][k..] + [s[|s| - 1]];
      assert s[..|s| - 1][..k] == s[..k];
    } else {
      k := |s|;
      assert s[..k] == s;
    }
  }

  /** Trimming takes white space off both ends and nothing else. */
  lemma TrimParts(s: string) returns (left: string, right: string)
    ensures s == left + Trim(s) + right && AllSpace(left) && AllSpace(right) && IsTrimmed(Trim(s))
  {
    var i := TrimStartParts(s);
    var t := TrimStart(s);
    var j := TrimEndParts(t);
    left, right := s[..i], t[j..];
    assert t == t[..j] + t[j..];
    if Trim(s) != "" {
      assert Trim(s)[0] == t[0] == s[i];
    }
  }

  lemma TrimmedStays(s: string)
    requires IsTrimmed(s)
    ensures Trim(s) == s
  {
  }

  lemma {:induction false} TrimStartOfSpace(left: string, s: string)
    requires AllSpace(left)
    ensures TrimStart(left + s) == TrimStart(s)
    decreases |left|
  {
    if left == "" {
      assert left + s == s;
    } else {
      assert IsSpace(left[0]);
      assert (left + s)[1..] == left[1..] + s;
      TrimStartOfSpace(left[1..], s);
    }
  }

  lemma {:induction false} TrimEndOfSpace(s: string, right: string)
    requires AllSpace(right)
    ensures TrimEnd(s + right) == TrimEnd(s)
    decreases |right|
  {
    if right == "" {
      assert s + right == s;
    } else {
      assert IsSpace(right[|right| - 1]);
      assert (s + right)[..|s + right| - 1] == s + right[..|right| - 1];
      TrimEndOfSpace(s, right[..|right| - 1]);
    }
  }

  lemma TrimIs(left: string, s: string, right: string)
    requires AllSpace(left) && AllSpace(right) && IsTrimmed(s)
    ensures Trim(left + s + right) == s
  {
    assert left + s + right == left + (s + right);
    TrimStartOfSpace(left, s + right);
    if s == "" {
      assert s + right == right + "";
      TrimStartOfSpace(right, "");
    } else {
      assert (s + right)[0] == s[0];
      TrimEndOfSpace(s, right);
    }
  }

  ghost predicate Surrounds(left: string, t: string, right: string, s: string) {
    s == left + t + right && AllSpace(left) && AllSpace(right)
  }

  /** The trimmed text is the one text without white space at its ends that is left when white space is taken off. */
  lemma TrimIff(s: string, t: string)
    ensures Trim(s) == t <==> IsTrimmed(t) && exists left, right :: Surrounds(left, t, right, s)
  {
    var l, r := TrimParts(s);
    assert Surrounds(l, Trim(s), r, s);
    if IsTrimmed(t) && exists left, right :: Surrounds(left, t, right, s) {
      var left, right :| Surrounds(left, t, right, s);
      TrimIs(left, t, right);
    }
  }

  // ----- Decimal numerals -----

  const DIGITS := "0123456789"

  function Decimal(n: nat): (r: string)
    ensures |r| > 0
  {
    if n < 10 then [DIGITS[n]] else Decimal(n / 10) + [DIGITS[n % 10]]
  }

  lemma {:induction false} DecimalDigits(n: nat, i: nat)
    requires i < |Decimal(n)|
    ensures Decimal(n)[i] in DIGITS
  {
    if n >= 10 && i < |Decimal(n / 10)| {
      DecimalDigits(n / 10, i);
    }
  }

  lemma {:induction false} DecimalInjective(m: nat, n: nat)
    requires Decimal(m) == Decimal(n)
    ensures m == n
  {
    var a, b := Decimal(m), Decimal(n);
    assert a[|a| - 1] == DIGITS[m % 10] && b[|b| - 1] == DIGITS[n % 10];
    assert a[..|a| - 1] == if m < 10 then "" else Decimal(m / 10);
    assert b[..|b| - 1] == if n < 10 then "" else Decimal(n / 10);
    if m >= 10 && n >= 10 {
      DecimalInjective(m / 10, n / 10);
    }
  }
}
