/**
  Arithmetic shared by the scoring engine. Scores are integer hundredths of a point
  (100.00 points is 10000); importance values are reals. Round2 turns a real point value
  into hundredths, the way round(x, 2) is used throughout the source.
*/
module Numbers {

  /** One hundred points, in hundredths. */
  const FullMarks: int := 10000

  function Abs(x: int): int {
    if x < 0 then -x else x
  }

  /** Sum of integers, folded from the left as Python's sum() does. */
  function Sum(s: seq<int>): int {
    if s == [] then 0 else Sum(s[..|s| - 1]) + s[|s| - 1]
  }

  /** Sum of reals, folded from the left. */
  function RealSum(s: seq<real>): real {
    if s == [] then 0.0 else RealSum(s[..|s| - 1]) + s[|s| - 1]
  }

  lemma {:induction false} SumAppend(a: seq<int>, b: seq<int>)
    ensures Sum(a + b) == Sum(a) + Sum(b)
    decreases |b|
  {
    if b != [] {
      assert (a + b)[..|a + b| - 1] == a + b[..|b| - 1];
      SumAppend(a, b[..|b| - 1]);
    } else {
      assert a + b == a;
    }
  }

  lemma {:induction false} RealSumAppend(a: seq<real>, b: seq<real>)
    ensures RealSum(a + b) == RealSum(a) + RealSum(b)
    decreases |b|
  {
    if b != [] {
      assert (a + b)[..|a + b| - 1] == a + b[..|b| - 1];
      RealSumAppend(a, b[..|b| - 1]);
    } else {
      assert a + b == a;
    }
  }

  /** Changing one entry of a sequence changes its sum by exactly the difference. */
  lemma {:induction false} SumUpdate(s: seq<int>, k: nat, v: int)
    requires k < |s|
    ensures Sum(s[k := v]) == Sum(s) - s[k] + v
  {
    var pre, post := s[..k], s[k + 1..];
    assert s == pre + [s[k]] + post;
    assert s[k := v] == pre + [v] + post;
    SumAppend(pre + [s[k]], post);
    SumAppend(pre + [v], post);
    SumAppend(pre, [s[k]]);
    SumAppend(pre, [v]);
  }

  /** A sum of positive reals over a non-empty sequence is positive. */
  lemma {:induction false} RealSumPositive(s: seq<real>)
    requires |s| > 0
    requires forall k :: 0 <= k < |s| ==> s[k] > 0.0
    ensures RealSum(s) > 0.0
    decreases |s|
  {
    if |s| > 1 {
      RealSumPositive(s[..|s| - 1]);
    }
  }

  /** (part / whole) × scale: the proportional split every weight and score comes from. */
  function Share(part: real, whole: real, scale: real): real
    requires whole != 0.0
  {
    part / whole * scale
  }

  /** Each part's share of the same whole, in order. */
  function Shares(parts: seq<real>, whole: real, scale: real): (r: seq<real>)
    requires whole != 0.0
    ensures |r| == |parts|
  {
    seq(|parts|, k requires 0 <= k < |parts| => Share(parts[k], whole, scale))
  }

  /** Splitting is linear: the shares of the parts add up to the share of their sum. */
  lemma {:induction false} SharesSum(parts: seq<real>, whole: real, scale: real)
    requires whole != 0.0
    ensures RealSum(Shares(parts, whole, scale)) == Share(RealSum(parts), whole, scale)
    decreases |parts|
  {
    if parts != [] {
      var init := parts[..|parts| - 1];
      var last := parts[|parts| - 1];
      assert Shares(parts, whole, scale)[..|parts| - 1] == Shares(init, whole, scale);
      SharesSum(init, whole, scale);
      ShareAdds(RealSum(init), last, whole, scale);
    }
  }

  lemma ShareAdds(a: real, b: real, whole: real, scale: real)
    requires whole != 0.0
    ensures Share(a + b, whole, scale) == Share(a, whole, scale) + Share(b, whole, scale)
  {
  }

  /** A positive part of a positive whole keeps a positive share of a positive scale. */
  lemma SharePositive(part: real, whole: real, scale: real)
    requires part > 0.0 && whole > 0.0 && scale > 0.0
    ensures Share(part, whole, scale) > 0.0
  {
  }

  /** The whole's share of itself is the full scale. */
  lemma ShareOfWhole(whole: real, scale: real)
    requires whole != 0.0
    ensures Share(whole, whole, scale) == scale
  {
  }

  /** round(x, 2) as hundredths: the nearest whole number of hundredths, ties rounded up. */
  function Round2(x: real): (r: int)
    ensures (r as real) - 0.5 <= 100.0 * x < (r as real) + 0.5
  {
    (100.0 * x + 0.5).Floor
  }

  lemma Round2Monotone(x: real, y: real)
    requires x <= y
    ensures Round2(x) <= Round2(y)
  {
  }

  lemma Round2NonNegative(x: real)
    requires x >= 0.0
    ensures Round2(x) >= 0
  {
  }

  /** A real that is already a whole number of hundredths rounds to itself. */
  lemma Round2Exact(n: int)
    ensures Round2(n as real / 100.0) == n
  {
  }

  function DigitChar(d: nat): char
    requires d < 10
  {
    "0123456789"[d]
  }

  /** Decimal representation of a natural number, as Python's str() of an int. */
  function NatToString(n: nat): (s: string)
    ensures |s| > 0
    ensures forall k :: 0 <= k < |s| ==> '0' <= s[k] <= '9'
  {
    if n < 10 then [DigitChar(n)] else NatToString(n / 10) + [DigitChar(n % 10)]
  }

  lemma DigitCharInjective(d: nat, e: nat)
    requires d < 10 && e < 10 && d != e
    ensures DigitChar(d) != DigitChar(e)
  {
  }

  /** Different numbers have different decimal representations. */
  lemma {:induction false} NatToStringInjective(n: nat, m: nat)
    requires n != m
    ensures NatToString(n) != NatToString(m)
    decreases n + m
  {
    var a, b := NatToString(n), NatToString(m);
    if n < 10 && m < 10 {
      DigitCharInjective(n, m);
      assert a[0] != b[0];
    } else if n < 10 {
      assert |a| == 1 < |b|;
    } else if m < 10 {
      assert |b| == 1 < |a|;
    } else if n % 10 != m % 10 {
      DigitCharInjective(n % 10, m % 10);
      assert a[|a| - 1] != b[|b| - 1];
    } else {
      NatToStringInjective(n / 10, m / 10);
      assert a[..|a| - 1] == NatToString(n / 10);
      assert b[..|b| - 1] == NatToString(m / 10);
    }
  }

  /**
    Rounding each of n values to hundredths moves their total by at most half a hundredth
    per value.
  */
  lemma {:induction false} RoundedSumDrift(xs: seq<real>, rs: seq<int>)
    requires |rs| == |xs|
    requires forall k :: 0 <= k < |xs| ==> rs[k] == Round2(xs[k])
    ensures (Sum(rs) as real) - 0.5 * (|xs| as real) <= 100.0 * RealSum(xs)
    ensures 100.0 * RealSum(xs) <= (Sum(rs) as real) + 0.5 * (|xs| as real)
    decreases |xs|
  {
    if xs != [] {
      var n := |xs| - 1;
      RoundedSumDrift(xs[..n], rs[..n]);
      assert rs[n] == Round2(xs[n]);
    }
  }

  /** A prefix extended by the next element is the next prefix (how every accumulating loop advances). */
  lemma PrefixExtend<T>(done: seq<T>, full: seq<T>, j: nat, v: T)
    requires j < |full| && done == full[..j] && v == full[j]
    ensures done + [v] == full[..j + 1]
  {
  }
}
