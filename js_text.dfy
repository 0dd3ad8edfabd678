/**
 * The pieces of JavaScript string behaviour the core relies on: the decimal
 * rendering of a number inside a template literal (`${idx}`), and
 * `Array.prototype.join(" ")`. A JavaScript string is modelled as a Dafny
 * `string`, a sequence of Unicode scalar values.
 */
module JsText {

  predicate IsDigit(c: char) {
    '0' <= c <= '9'
  }

  predicate AllDigits(s: string) {
    forall i :: 0 <= i < |s| ==> IsDigit(s[i])
  }

  function DigitValue(c: char): nat
    requires IsDigit(c)
  {
    (c as int) - ('0' as int)
  }

  function DigitChar(d: nat): (c: char)
    requires d < 10
    ensures IsDigit(c) && DigitValue(c) == d
  {
    (('0' as int) + d) as char
  }

  /**
   * The decimal rendering of an array index, as `${idx}` produces it (the
   * only use here). JavaScript renders numbers from 1e21 on in exponent
   * notation; no index reaches that.
   */
  function NatToString(n: nat): string
    decreases n
  {
    if n < 10 then [DigitChar(n)] else NatToString(n / 10) + [DigitChar(n % 10)]
  }

  /** The rendering is a nonempty string of digits, one digit long exactly below ten. */
  lemma {:induction false} NatToStringDigits(n: nat)
    ensures var s := NatToString(n); |s| > 0 && AllDigits(s) && (n < 10 <==> |s| == 1)
    decreases n
  {
    if n >= 10 {
      NatToStringDigits(n / 10);
    }
  }

  /** The value of a string of decimal digits (the inverse of NatToString). */
  function DigitsValue(s: string): nat
    requires AllDigits(s)
  {
    if s == [] then 0 else DigitsValue(s[..|s| - 1]) * 10 + DigitValue(s[|s| - 1])
  }

  /** Reading back the rendering of `n` gives `n`. */
  lemma {:induction false} DigitsValueOfNatToString(n: nat)
    ensures AllDigits(NatToString(n)) && DigitsValue(NatToString(n)) == n
    decreases n
  {
    NatToStringDigits(n);
    if n >= 10 {
      NatToStringDigits(n / 10);
      var s := NatToString(n);
      assert s[..|s| - 1] == NatToString(n / 10);
      DigitsValueOfNatToString(n / 10);
    }
  }

  /** Distinct numbers render as distinct strings. */
  lemma NatToStringInjective(m: nat, n: nat)
    requires NatToString(m) == NatToString(n)
    ensures m == n
  {
    DigitsValueOfNatToString(m);
    DigitsValueOfNatToString(n);
  }

  /** `xs.join(" ")`: the elements in order, one space between neighbours, `""` for no elements. */
  function JoinWithSpace(xs: seq<string>): string
  {
    if |xs| == 0 then ""
    else if |xs| == 1 then xs[0]
    else xs[0] + " " + JoinWithSpace(xs[1..])
  }

  /** Where element `i` starts inside `JoinWithSpace(xs)`: the lengths of the earlier elements, plus one separator each. */
  function Offset(xs: seq<string>, i: nat): nat
    requires i <= |xs|
  {
    if i == 0 then 0 else |xs[0]| + 1 + Offset(xs[1..], i - 1)
  }

  /**
   * Element `i` of `xs` sits in the joined string at `Offset(xs, i)`, it is
   * followed by a single space unless it is the last one, and the last element
   * ends the string.
   */
  lemma {:induction false} JoinAt(xs: seq<string>, i: nat)
    requires i < |xs|
    ensures Offset(xs, i) + |xs[i]| <= |JoinWithSpace(xs)|
    ensures JoinWithSpace(xs)[Offset(xs, i)..Offset(xs, i) + |xs[i]|] == xs[i]
    ensures i + 1 < |xs| ==>
      Offset(xs, i) + |xs[i]| < |JoinWithSpace(xs)| && JoinWithSpace(xs)[Offset(xs, i) + |xs[i]|] == ' '
    ensures i + 1 == |xs| ==> Offset(xs, i) + |xs[i]| == |JoinWithSpace(xs)|
    decreases i
  {
    if |xs| > 1 {
      var tail := JoinWithSpace(xs[1..]);
      var k := |xs[0]| + 1;
      assert JoinWithSpace(xs) == xs[0] + " " + tail;
      if i > 0 {
        JoinAt(xs[1..], i - 1);
        var a := Offset(xs[1..], i - 1);
        assert Offset(xs, i) == k + a;
        assert JoinWithSpace(xs)[k + a..k + a + |xs[i]|] == tail[a..a + |xs[i]|];
      }
    }
  }

  /** `"..".split(" ")`: the maximal space-free pieces; always at least one piece. */
  function SplitOnSpace(s: string): (parts: seq<string>)
    ensures |parts| >= 1
  {
    if |s| == 0 then [""]
    else if s[0] == ' ' then [""] + SplitOnSpace(s[1..])
    else
      var rest := SplitOnSpace(s[1..]);
      [[s[0]] + rest[0]] + rest[1..]
  }

  predicate SpaceFree(w: string) {
    forall i :: 0 <= i < |w| ==> w[i] != ' '
  }

  lemma {:induction false} SplitAfterWord(w: string, t: string)
    requires SpaceFree(w)
    ensures SplitOnSpace(w + t) == [w + SplitOnSpace(t)[0]] + SplitOnSpace(t)[1..]
    decreases |w|
  {
    if |w| == 0 {
      var r := SplitOnSpace(t);
      assert w + t == t;
      assert w + r[0] == r[0];
      assert [r[0]] + r[1..] == r;
    } else {
      assert (w + t)[1..] == w[1..] + t;
      SplitAfterWord(w[1..], t);
      assert [w[0]] + (w[1..] + SplitOnSpace(t)[0]) == w + SplitOnSpace(t)[0];
    }
  }

  /** Joining space-free pieces and splitting the result on spaces gives the pieces back. */
  lemma {:induction false} SplitJoin(xs: seq<string>)
    requires |xs| >= 1
    requires forall i :: 0 <= i < |xs| ==> SpaceFree(xs[i])
    ensures SplitOnSpace(JoinWithSpace(xs)) == xs
    decreases |xs|
  {
    if |xs| == 1 {
      SplitAfterWord(xs[0], "");
      assert xs[0] + "" == xs[0];
    } else {
      var t := " " + JoinWithSpace(xs[1..]);
      assert JoinWithSpace(xs) == xs[0] + t;
      SplitAfterWord(xs[0], t);
      assert t[1..] == JoinWithSpace(xs[1..]);
      SplitJoin(xs[1..]);
      assert SplitOnSpace(t) == [""] + xs[1..];
      assert xs[0] + "" == xs[0];
      assert [xs[0]] + xs[1..] == xs;
    }
  }
}
