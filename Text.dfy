/** Account numbers: the dash-stripping `cleanNumber` helper and the
    canonical displayed form DDD-D-DDDDD-D that both scraping patterns
    match. */
module Text {

  /** `cleanNumber`: every '-' removed, every other character kept. */
  function CleanNumber(s: string): (r: string)
    ensures '-' !in r
    ensures |r| <= |s|
  {
    if s == [] then []
    else if s[0] == '-' then CleanNumber(s[1..])
    else [s[0]] + CleanNumber(s[1..])
  }

  /** Cleaning works piece by piece: what is left of `a` comes, in order,
      before what is left of `b`. */
  lemma {:induction false} CleanNumberAppend(a: string, b: string)
    ensures CleanNumber(a + b) == CleanNumber(a) + CleanNumber(b)
  {
    if a != [] {
      assert (a + b)[1..] == a[1..] + b;
      CleanNumberAppend(a[1..], b);
    } else {
      assert a + b == b;
    }
  }

  /** A string without dashes is left as it is. */
  lemma {:induction false} CleanNumberFixed(s: string)
    requires '-' !in s
    ensures CleanNumber(s) == s
  {
    if s != [] {
      assert '-' !in s[1..] by {
        forall i | 0 <= i < |s[1..]| ensures s[1..][i] != '-' {
          assert s[1..][i] == s[i + 1];
        }
      }
      CleanNumberFixed(s[1..]);
    }
  }

  lemma CleanNumberIdempotent(s: string)
    ensures CleanNumber(CleanNumber(s)) == CleanNumber(s)
  {
    CleanNumberFixed(CleanNumber(s));
  }

  /** Exactly the dashes go: every other character keeps its count, and
      the length drops by the number of dashes. */
  lemma {:induction false} CleanNumberCounts(s: string)
    ensures forall c :: c != '-' ==> multiset(CleanNumber(s))[c] == multiset(s)[c]
    ensures multiset(CleanNumber(s))['-'] == 0
    ensures |CleanNumber(s)| == |s| - multiset(s)['-']
  {
    if s != [] {
      CleanNumberCounts(s[1..]);
      assert s == [s[0]] + s[1..];
      assert multiset(s) == multiset([s[0]]) + multiset(s[1..]);
      if s[0] != '-' {
        assert multiset(CleanNumber(s)) == multiset([s[0]]) + multiset(CleanNumber(s[1..]));
      }
    }
  }

  predicate IsDigit(c: char) {
    '0' <= c <= '9'
  }

  predicate AllDigits(s: string) {
    forall i :: 0 <= i < |s| ==> IsDigit(s[i])
  }

  /** The displayed account number `[0-9]{3}-[0-9]-[0-9]{5}-[0-9]`. */
  predicate IsCanonicalNumber(s: string) {
    && |s| == 13
    && s[3] == '-' && s[5] == '-' && s[11] == '-'
    && AllDigits(s[..3]) && AllDigits(s[4..5]) && AllDigits(s[6..11]) && AllDigits(s[12..])
  }

  /** The canonical form of ten digits; an independent reference for
      what cleaning a canonical number loses. */
  function Canonical(d: string): (s: string)
    requires |d| == 10 && AllDigits(d)
    ensures IsCanonicalNumber(s)
  {
    var s := d[..3] + "-" + d[3..4] + "-" + d[4..9] + "-" + d[9..];
    assert s[..3] == d[..3] && s[4..5] == d[3..4] && s[6..11] == d[4..9] && s[12..] == d[9..];
    s
  }

  lemma DigitsHaveNoDash(d: string)
    requires AllDigits(d)
    ensures '-' !in d
  {
    forall i | 0 <= i < |d| ensures d[i] != '-' {
      assert IsDigit(d[i]);
    }
  }

  /** Cleaning across one dash joins what is left of either side. */
  lemma CleanAcrossDash(x: string, y: string)
    ensures CleanNumber(x + "-" + y) == CleanNumber(x) + CleanNumber(y)
  {
    CleanNumberAppend(x + "-", y);
    CleanNumberAppend(x, "-");
  }

  lemma AllDigitsAppend(x: string, y: string)
    requires AllDigits(x) && AllDigits(y)
    ensures AllDigits(x + y)
  {
    forall i | 0 <= i < |x + y| ensures IsDigit((x + y)[i]) {
      if i < |x| { assert (x + y)[i] == x[i]; } else { assert (x + y)[i] == y[i - |x|]; }
    }
  }

  /** Cleaning a canonical number leaves its ten digits, in order. */
  lemma CleanCanonical(s: string)
    requires IsCanonicalNumber(s)
    ensures CleanNumber(s) == s[..3] + s[4..5] + s[6..11] + s[12..]
    ensures |CleanNumber(s)| == 10 && AllDigits(CleanNumber(s))
  {
    var a, b, c, d := s[..3], s[4..5], s[6..11], s[12..];
    DigitsHaveNoDash(a);
    DigitsHaveNoDash(b);
    DigitsHaveNoDash(c);
    DigitsHaveNoDash(d);
    CleanNumberFixed(a);
    CleanNumberFixed(b);
    CleanNumberFixed(c);
    CleanNumberFixed(d);
    var p1 := a + "-" + b;
    assert p1 == s[..5] by { assert s[..5] == s[..3] + [s[3]] + s[4..5]; }
    CleanAcrossDash(a, b);
    var p2 := p1 + "-" + c;
    assert p2 == s[..11] by { assert s[..11] == s[..5] + [s[5]] + s[6..11]; }
    CleanAcrossDash(p1, c);
    assert s == p2 + "-" + d by { assert s == s[..11] + [s[11]] + s[12..]; }
    CleanAcrossDash(p2, d);
    AllDigitsAppend(a, b);
    AllDigitsAppend(a + b, c);
    AllDigitsAppend(a + b + c, d);
  }

  /** A canonical number is its four digit groups joined by dashes. */
  lemma CanonicalParts(s: string)
    requires IsCanonicalNumber(s)
    ensures s == s[..3] + "-" + s[4..5] + "-" + s[6..11] + "-" + s[12..]
  {
    var t := s[..3] + "-" + s[4..5] + "-" + s[6..11] + "-" + s[12..];
    assert |t| == 13;
    forall i | 0 <= i < 13 ensures t[i] == s[i] {
    }
  }

  /** Cleaning a canonical number is undone by `Canonical`. */
  lemma CanonicalOfClean(s: string)
    requires IsCanonicalNumber(s)
    ensures |CleanNumber(s)| == 10 && AllDigits(CleanNumber(s)) && Canonical(CleanNumber(s)) == s
  {
    CleanCanonical(s);
    CanonicalParts(s);
    var a, b, c, d := s[..3], s[4..5], s[6..11], s[12..];
    var t := CleanNumber(s);
    assert t == a + b + c + d;
    assert t[..3] == a && t[3..4] == b && t[4..9] == c && t[9..] == d;
  }

  /** `Canonical` is undone by cleaning. */
  lemma CleanOfCanonical(d: string)
    requires |d| == 10 && AllDigits(d)
    ensures CleanNumber(Canonical(d)) == d
  {
    var u := Canonical(d);
    CleanCanonical(u);
    assert u[..3] == d[..3] && u[4..5] == d[3..4] && u[6..11] == d[4..9] && u[12..] == d[9..];
    assert d == d[..3] + d[3..4] + d[4..9] + d[9..];
  }

  /** Two canonical numbers with the same digits are the same number: the
      digits-only form used in requests identifies the account. */
  lemma CleanCanonicalInjective(a: string, b: string)
    requires IsCanonicalNumber(a) && IsCanonicalNumber(b)
    requires CleanNumber(a) == CleanNumber(b)
    ensures a == b
  {
    CanonicalOfClean(a);
    CanonicalOfClean(b);
  }

  predicate StartsWith(s: string, prefix: string) {
    |prefix| <= |s| && s[..|prefix|] == prefix
  }
}
