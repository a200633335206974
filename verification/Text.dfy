/** Strings as the sources use them: decimal step numbers inside a hash preimage, and the
    byte-wise order of sorted identifiers. */
module Text {

  const DIGITS := "0123456789"

  function Decimal(n: nat): string {
    if n < 10 then [DIGITS[n]] else Decimal(n / 10) + [DIGITS[n % 10]]
  }

  function DigitValue(c: char): int {
    c as int - '0' as int
  }

  function Value(s: string): int {
    if s == [] then 0 else Value(s[..|s| - 1]) * 10 + DigitValue(s[|s| - 1])
  }

  lemma {:induction false} DigitRoundTrip(d: nat)
    requires d < 10
    ensures DigitValue(DIGITS[d]) == d && DIGITS[d] != '|'
  {
  }

  lemma {:induction false} DecimalRoundTrip(n: nat)
    ensures Value(Decimal(n)) == n
    ensures '|' !in Decimal(n)
  {
    hide DigitValue;
    DigitRoundTrip(n % 10);
    if n < 10 {
      assert Decimal(n)[..0] == "";
    } else {
      DecimalRoundTrip(n / 10);
      assert Decimal(n)[..|Decimal(n)| - 1] == Decimal(n / 10);
    }
  }

  /** Text before the first separator is determined by the whole. */
  lemma {:induction false} SplitAtBar(a: string, x: string, b: string, y: string)
    requires '|' !in a && '|' !in b
    requires a + "|" + x == b + "|" + y
    ensures a == b && x == y
  {
    var s := a + "|" + x;
    assert s[|a|] == '|' && s[|b|] == '|';
    assert forall i | 0 <= i < |a| :: s[i] == a[i];
    assert forall i | 0 <= i < |b| :: s[i] == b[i];
    assert |a| == |b|;
    assert a == s[..|a|] && x == s[|a| + 1..];
    assert b == s[..|b|] && y == s[|b| + 1..];
  }

  // ---------------------------------------------------------------- order

  predicate LexLeq(a: string, b: string) {
    a == [] || (b != [] && (a[0] < b[0] || (a[0] == b[0] && LexLeq(a[1..], b[1..]))))
  }

  lemma {:induction false} LexTotal(a: string, b: string)
    ensures LexLeq(a, b) || LexLeq(b, a)
  {
    if a != [] && b != [] { LexTotal(a[1..], b[1..]); }
  }

  lemma {:induction false} LexAntisymmetric(a: string, b: string)
    requires LexLeq(a, b) && LexLeq(b, a)
    ensures a == b
  {
    if a != [] {
      LexAntisymmetric(a[1..], b[1..]);
      assert a == [a[0]] + a[1..] && b == [b[0]] + b[1..];
    }
  }

  lemma {:induction false} LexTransitive(a: string, b: string, c: string)
    requires LexLeq(a, b) && LexLeq(b, c)
    ensures LexLeq(a, c)
  {
    if a != [] && a[0] == b[0] == c[0] { LexTransitive(a[1..], b[1..], c[1..]); }
  }

  predicate IsLeast(s: set<string>, x: string) {
    x in s && forall y | y in s :: LexLeq(x, y)
  }

  lemma {:induction false} LeastExists(s: set<string>)
    requires s != {}
    ensures exists x :: IsLeast(s, x)
  {
    var x :| x in s;
    if s == {x} {
      LexTotal(x, x);
      assert IsLeast(s, x);
    } else {
      var z :| z in s && z != x;
      assert z in s - {x};
      LeastExists(s - {x});
      var y :| IsLeast(s - {x}, y);
      LexTotal(x, y);
      if LexLeq(y, x) {
        assert IsLeast(s, y);
      } else {
        forall w | w in s ensures LexLeq(x, w) {
          LexTotal(x, x);
          if w != x { LexTransitive(x, y, w); }
        }
        assert IsLeast(s, x);
      }
    }
  }

  lemma {:induction false} LeastIsUnique(s: set<string>)
    ensures forall x, y | IsLeast(s, x) && IsLeast(s, y) :: x == y
  {
    forall x, y | IsLeast(s, x) && IsLeast(s, y) ensures x == y {
      LexAntisymmetric(x, y);
    }
  }

  function Least(s: set<string>): (x: string)
    requires s != {}
    ensures IsLeast(s, x)
  {
    LeastExists(s);
    LeastIsUnique(s);
    var x :| IsLeast(s, x);
    x
  }

  /** The elements of `s` in increasing order, each once. */
  function Sorted(s: set<string>): (r: seq<string>)
    ensures forall x :: x in r <==> x in s
    ensures forall i, j | 0 <= i < j < |r| :: r[i] != r[j] && LexLeq(r[i], r[j])
    ensures |r| == |s|
    decreases |s|
  {
    if s == {} then []
    else
      var x := Least(s);
      var rest := Sorted(s - {x});
      LeastComesFirst(s, x, rest);
      [x] + rest
  }

  lemma {:induction false} LeastComesFirst(s: set<string>, x: string, rest: seq<string>)
    requires IsLeast(s, x) && |rest| == |s - {x}| && forall y :: y in rest <==> y in s - {x}
    requires forall i, j | 0 <= i < j < |rest| :: rest[i] != rest[j] && LexLeq(rest[i], rest[j])
    ensures var r := [x] + rest;
      && (forall y :: y in r <==> y in s) && |r| == |s|
      && (forall i, j | 0 <= i < j < |r| :: r[i] != r[j] && LexLeq(r[i], r[j]))
  {
    hide LexLeq;
    var r := [x] + rest;
    forall i, j | 0 <= i < j < |r| ensures r[i] != r[j] && LexLeq(r[i], r[j]) {
      assert r[j] == rest[j - 1] && rest[j - 1] in rest;
    }
  }

  // ---------------------------------------------------------------- what the order is

  lemma {:induction false} LexBehindPrefix(p: string, x: string, y: string)
    ensures LexLeq(p + x, p + y) <==> LexLeq(x, y)
  {
    if p == [] {
      assert p + x == x && p + y == y;
    } else {
      LexBehindPrefix(p[1..], x, y);
      assert (p + x)[1..] == p[1..] + x && (p + y)[1..] == p[1..] + y;
    }
  }

  /** The order of strings is that of their first difference, a prefix coming first. */
  lemma {:induction false} LexByFirstDifference(p: string, c: char, x: string, d: char, y: string)
    ensures LexLeq(p, p + x)
    ensures c < d ==> LexLeq(p + ([c] + x), p + ([d] + y)) && !LexLeq(p + ([d] + y), p + ([c] + x))
  {
    LexBehindPrefix(p, [], x);
    assert p + [] == p && LexLeq([], x);
    LexBehindPrefix(p, [c] + x, [d] + y);
    LexBehindPrefix(p, [d] + y, [c] + x);
  }
}
