/**
 * The string operations the hooks rely on: `Array.prototype.join` and
 * `String.prototype.split` with a one-character separator, and the decimal
 * text of an integral JavaScript number (as produced by a template literal).
 */
module Text {
  import opened Wrappers

  /** `xs.join(sep)`: the elements with one `sep` between neighbours. */
  function Join(xs: seq<string>, sep: char): (r: string)
    ensures |r| == TotalLength(xs) + (if xs == [] then 0 else |xs| - 1)
    ensures |xs| > 0 ==> r[..|xs[0]|] == xs[0]
  {
    if xs == [] then ""
    else if |xs| == 1 then xs[0]
    else xs[0] + [sep] + Join(xs[1..], sep)
  }

  /** The sum of the lengths of the strings. */
  function TotalLength(xs: seq<string>): nat
  {
    if xs == [] then 0 else |xs[0]| + TotalLength(xs[1..])
  }

  /** `s.split(sep)`: the maximal `sep`-free pieces, in order; never empty. */
  function Split(s: string, sep: char): (parts: seq<string>)
    ensures |parts| >= 1
  {
    SplitFrom(s, sep, "")
  }

  /** Splitting `s` when the piece under construction already holds `acc`. */
  function SplitFrom(s: string, sep: char, acc: string): (parts: seq<string>)
    ensures |parts| >= 1
    decreases |s|
  {
    if s == [] then [acc]
    else if s[0] == sep then [acc] + SplitFrom(s[1..], sep, "")
    else SplitFrom(s[1..], sep, acc + [s[0]])
  }

  /** A separator-free prefix is absorbed into the piece under construction. */
  lemma {:induction false} SplitFromAbsorbs(x: string, rest: string, sep: char, acc: string)
    requires sep !in x
    ensures SplitFrom(x + rest, sep, acc) == SplitFrom(rest, sep, acc + x)
    decreases |x|
  {
    if x == [] {
      assert x + rest == rest;
      assert acc + x == acc;
    } else {
      assert (x + rest)[0] == x[0];
      assert (x + rest)[1..] == x[1..] + rest;
      SplitFromAbsorbs(x[1..], rest, sep, acc + [x[0]]);
      assert acc + [x[0]] + x[1..] == acc + x;
    }
  }

  /** Splitting undoes joining when no element contains the separator. */
  lemma {:induction false} SplitJoin(xs: seq<string>, sep: char)
    requires |xs| > 0
    requires forall i :: 0 <= i < |xs| ==> sep !in xs[i]
    ensures Split(Join(xs, sep), sep) == xs
  {
    if |xs| == 1 {
      SplitFromAbsorbs(xs[0], "", sep, "");
      assert xs[0] + "" == xs[0];
      assert "" + xs[0] == xs[0];
    } else {
      var rest := Join(xs[1..], sep);
      assert Join(xs, sep) == xs[0] + ([sep] + rest);
      SplitFromAbsorbs(xs[0], [sep] + rest, sep, "");
      assert "" + xs[0] == xs[0];
      assert ([sep] + rest)[1..] == rest;
      SplitJoin(xs[1..], sep);
      assert xs == [xs[0]] + xs[1..];
    }
  }

  /** Joining a concatenation puts one separator between the two joins. */
  lemma {:induction false} JoinAppend(xs: seq<string>, ys: seq<string>, sep: char)
    requires |xs| > 0 && |ys| > 0
    ensures Join(xs + ys, sep) == Join(xs, sep) + [sep] + Join(ys, sep)
    decreases |xs|
  {
    if |xs| == 1 {
      assert (xs + ys)[0] == xs[0];
      assert (xs + ys)[1..] == ys;
    } else {
      assert (xs + ys)[0] == xs[0];
      assert (xs + ys)[1..] == xs[1..] + ys;
      JoinAppend(xs[1..], ys, sep);
    }
  }

  predicate IsDigit(c: char) {
    '0' <= c <= '9'
  }

  function DigitChar(d: int): (c: char)
    requires 0 <= d < 10
    ensures IsDigit(c)
  {
    (d + '0' as int) as char
  }

  /** The decimal digits of `n`, most significant first, without leading zeros. */
  function NatToDecimal(n: nat): (s: string)
    ensures |s| > 0
    ensures forall i :: 0 <= i < |s| ==> IsDigit(s[i])
    ensures s[0] == '0' ==> n == 0
  {
    if n < 10 then [DigitChar(n)] else NatToDecimal(n / 10) + [DigitChar(n % 10)]
  }

  /** `${n}` for an integral number `n`: a minus sign, then the digits of |n|. */
  function IntToDecimal(n: int): (s: string)
    ensures |s| > 0 && (s[0] == '-' <==> n < 0)
    ensures forall i :: 1 <= i < |s| ==> IsDigit(s[i])
    ensures n >= 0 ==> IsDigit(s[0])
    ensures s[0] == '0' ==> s == "0"
  {
    if n < 0 then "-" + NatToDecimal(-n) else NatToDecimal(n)
  }

  /** The value of a non-empty string of decimal digits. */
  function DigitsValue(s: string): nat
    requires |s| > 0 && forall i :: 0 <= i < |s| ==> IsDigit(s[i])
  {
    assert IsDigit(s[|s| - 1]);
    var d := s[|s| - 1] as int - '0' as int;
    if |s| == 1 then d else DigitsValue(s[..|s| - 1]) * 10 + d
  }

  /** Reads an optionally negative decimal integer; absent on any other text. */
  function ParseDecimal(s: string): Option<int>
  {
    if |s| > 0 && forall i :: 0 <= i < |s| ==> IsDigit(s[i]) then Some(DigitsValue(s))
    else if |s| > 1 && s[0] == '-' && forall i :: 1 <= i < |s| ==> IsDigit(s[i]) then Some(0 - DigitsValue(s[1..]))
    else None
  }

  lemma {:induction false} NatDecimalRoundTrip(n: nat)
    ensures DigitsValue(NatToDecimal(n)) == n
  {
    if n >= 10 {
      var s := NatToDecimal(n);
      assert s[..|s| - 1] == NatToDecimal(n / 10);
      NatDecimalRoundTrip(n / 10);
    }
  }

  /** The decimal text of an integer reads back as that integer and holds no '/'. */
  lemma DecimalRoundTrip(n: int)
    ensures ParseDecimal(IntToDecimal(n)) == Some(n)
    ensures '/' !in IntToDecimal(n)
  {
    var s := IntToDecimal(n);
    if n < 0 {
      assert s[1..] == NatToDecimal(-n);
      NatDecimalRoundTrip(-n);
      assert !IsDigit(s[0]);
    } else {
      NatDecimalRoundTrip(n);
    }
  }
}
