/**
  The JavaScript value and string primitives that the client and the server
  lean on: `undefined` and truthiness, ASCII digits, `replace(/\D/g, "")`,
  `split("")`, `join("")` and the decimal text `${n}` of an integer.
 */
module Js {

  /** A value that may be `undefined`. */
  datatype Option<+T> = None | Some(value: T)

  /** `x || fallback` for an optional number: `undefined` and `0` are falsy. */
  predicate TruthyNumber(x: Option<int>) {
    x.Some? && x.value != 0
  }

  /** `x || fallback` for an optional string: `undefined` and `""` are falsy. */
  predicate TruthyString(x: Option<string>) {
    x.Some? && x.value != ""
  }

  /** `x || fallback`: the result is empty only when both sides are. */
  function OrString(x: Option<string>, fallback: string): (r: string)
    ensures TruthyString(x) ==> r == x.value
    ensures !TruthyString(x) ==> r == fallback
    ensures r == "" <==> !TruthyString(x) && fallback == ""
    ensures fallback != "" ==> r != ""
  {
    if TruthyString(x) then x.value else fallback
  }

  predicate IsDigit(c: char) {
    '0' <= c <= '9'
  }

  predicate AllDigits(s: string) {
    forall i :: 0 <= i < |s| ==> IsDigit(s[i])
  }

  /** `s.replace(/\D/g, "")`: drop every character that is not an ASCII digit. */
  function KeepDigits(s: string): (r: string)
    ensures AllDigits(r)
    ensures |r| <= |s|
    ensures forall i :: 0 <= i < |r| ==> r[i] in s
  {
    if s == [] then []
    else if IsDigit(s[0]) then [s[0]] + KeepDigits(s[1..])
    else KeepDigits(s[1..])
  }

  /** The filter distributes over concatenation: it keeps digits in their order. */
  lemma {:induction false} KeepDigitsAppend(a: string, b: string)
    ensures KeepDigits(a + b) == KeepDigits(a) + KeepDigits(b)
  {
    if a == [] {
      assert a + b == b;
    } else {
      assert (a + b)[0] == a[0];
      assert (a + b)[1..] == a[1..] + b;
      KeepDigitsAppend(a[1..], b);
    }
  }

  /** The filter leaves a string unchanged exactly when it is all digits. */
  lemma {:induction false} KeepDigitsFixed(s: string)
    ensures KeepDigits(s) == s <==> AllDigits(s)
  {
    if s != [] {
      KeepDigitsFixed(s[1..]);
      if AllDigits(s) {
        assert AllDigits(s[1..]) by {
          forall i | 0 <= i < |s[1..]| ensures IsDigit(s[1..][i]) {
            assert s[1..][i] == s[i + 1];
          }
        }
      } else if IsDigit(s[0]) {
        var i :| 0 <= i < |s| && !IsDigit(s[i]);
        assert !IsDigit(s[1..][i - 1]);
      } else {
        assert |KeepDigits(s)| < |s|;
      }
    }
  }

  /** `s.split("")` on a string of single-unit characters. */
  function Split(s: string): (r: seq<string>)
    ensures |r| == |s|
    ensures forall i :: 0 <= i < |s| ==> r[i] == [s[i]]
  {
    seq(|s|, i requires 0 <= i < |s| => [s[i]])
  }

  /** `xs.join("")`. */
  function Join(xs: seq<string>): (r: string)
  {
    if xs == [] then "" else xs[0] + Join(xs[1..])
  }

  lemma {:induction false} JoinLength(xs: seq<string>)
    requires forall i :: 0 <= i < |xs| ==> |xs[i]| == 1
    ensures |Join(xs)| == |xs|
  {
    if xs != [] {
      JoinLength(xs[1..]);
    }
  }

  /** Joining one-character strings puts character i of the result from element i. */
  lemma {:induction false} JoinSingles(xs: seq<string>)
    requires forall i :: 0 <= i < |xs| ==> |xs[i]| == 1
    ensures |Join(xs)| == |xs|
    ensures forall i :: 0 <= i < |xs| ==> Join(xs)[i] == xs[i][0]
  {
    JoinLength(xs);
    if xs != [] {
      JoinSingles(xs[1..]);
      forall i | 0 <= i < |xs|
        ensures Join(xs)[i] == xs[i][0]
      {
        if i > 0 {
          assert Join(xs)[i] == Join(xs[1..])[i - 1];
        }
      }
    }
  }

  /** Round trip: joining the pieces of a split gives the string back. */
  lemma SplitJoin(s: string)
    ensures Join(Split(s)) == s
  {
    JoinSingles(Split(s));
  }

  /** Round trip: splitting the join of one-character strings gives them back. */
  lemma JoinSplit(xs: seq<string>)
    requires forall i :: 0 <= i < |xs| ==> |xs[i]| == 1
    ensures Split(Join(xs)) == xs
  {
    JoinSingles(xs);
    var ys := Split(Join(xs));
    assert forall i :: 0 <= i < |xs| ==> ys[i] == [xs[i][0]] == xs[i];
  }

  function DigitChar(d: nat): (c: char)
    requires d < 10
    ensures IsDigit(c)
  {
    "0123456789"[d]
  }

  /** Decimal text of a natural number, without leading zeros. */
  function NatText(n: nat): (r: string)
    ensures |r| > 0
    ensures AllDigits(r)
    decreases n
  {
    if n < 10 then [DigitChar(n)] else NatText(n / 10) + [DigitChar(n % 10)]
  }

  /** The template literal `${n}` of an integer number. */
  function NumberText(n: int): (r: string)
    ensures |r| > 0
  {
    if n < 0 then "-" + NatText(-n) else NatText(n)
  }

  function Pow10(k: nat): (p: nat)
    ensures p >= 1
  {
    if k == 0 then 1 else 10 * Pow10(k - 1)
  }

  /** A number whose leading decimal digit is 4: it lies in [4·10^k, 5·10^k) for some k. */
  ghost predicate LeadingFour(n: int) {
    exists k: nat :: 4 * Pow10(k) <= n < 5 * Pow10(k)
  }

  /** The decimal text of n starts with '4' exactly when n's leading digit is 4. */
  lemma {:induction false} NumberTextStartsWithFour(n: int)
    ensures NumberText(n)[0] == '4' <==> LeadingFour(n)
  {
    if n < 0 {
      assert NumberText(n)[0] == '-';
      forall k: nat
        ensures !(4 * Pow10(k) <= n < 5 * Pow10(k))
      {
      }
    } else {
      NatTextStartsWithFour(n);
    }
  }

  lemma {:induction false} NatTextStartsWithFour(n: nat)
    ensures NatText(n)[0] == '4' <==> LeadingFour(n)
    decreases n
  {
    if n < 10 {
      if n == 4 {
        assert 4 * Pow10(0) <= n < 5 * Pow10(0);
      } else {
        forall k: nat
          ensures !(4 * Pow10(k) <= n < 5 * Pow10(k))
        {
          if k > 0 {
            Pow10Grows(k);
          }
        }
      }
    } else {
      var m := n / 10;
      assert NatText(n)[0] == NatText(m)[0];
      NatTextStartsWithFour(m);
      if LeadingFour(m) {
        var k: nat :| 4 * Pow10(k) <= m < 5 * Pow10(k);
        assert 4 * Pow10(k + 1) <= n < 5 * Pow10(k + 1) by { ScaleBand(m, n, k); }
      }
      if LeadingFour(n) {
        var k: nat :| 4 * Pow10(k) <= n < 5 * Pow10(k);
        if k == 0 {
          assert false;
        }
        assert 4 * Pow10(k - 1) <= m < 5 * Pow10(k - 1) by { ScaleBand(m, n, k - 1); }
      }
    }
  }

  lemma Pow10Grows(k: nat)
    requires k > 0
    ensures Pow10(k) >= 10
  {
  }

  /** n lies in the band [4·10^(k+1), 5·10^(k+1)) iff n / 10 lies in [4·10^k, 5·10^k). */
  lemma ScaleBand(m: nat, n: nat, k: nat)
    requires m == n / 10
    ensures (4 * Pow10(k + 1) <= n < 5 * Pow10(k + 1)) <==> (4 * Pow10(k) <= m < 5 * Pow10(k))
  {
    var p := Pow10(k);
    assert Pow10(k + 1) == 10 * p;
    assert n == 10 * m + n % 10 && 0 <= n % 10 < 10;
  }
}
