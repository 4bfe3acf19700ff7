/** The arithmetic mean of the presence utilities. An empty list has the
    integer mean 0; any other list has a floating-point mean. The two kinds
    stay apart in the result, because the reports serialise `0` and `0.0`
    differently. Floating point is modelled by exact reals. */
module Aggregator {

  /** A reported number: an integer or a (floating-point) real. */
  datatype Number = Int(i: int) | Real(r: real) {
    /** The number's value, whatever its kind. */
    function Value(): real {
      match this
      case Int(i) => i as real
      case Real(r) => r
    }
  }

  function Sum(xs: seq<real>): real {
    if xs == [] then 0.0 else xs[0] + Sum(xs[1..])
  }

  function IntSum(xs: seq<int>): int {
    if xs == [] then 0 else xs[0] + IntSum(xs[1..])
  }

  /** The integers of `xs`, each taken as a real. */
  function ToReals(xs: seq<int>): (ys: seq<real>)
    ensures |ys| == |xs|
    ensures forall k :: 0 <= k < |xs| ==> ys[k] == xs[k] as real
  {
    seq(|xs|, k requires 0 <= k < |xs| => xs[k] as real)
  }

  /** Integer 0 for the empty list; otherwise a real that, taken |xs|
      times, gives back the sum. */
  function Mean(xs: seq<real>): (m: Number)
    ensures xs == [] <==> m == Int(0)
    ensures m.Int? <==> xs == []
    ensures xs != [] ==> m.Value() * (|xs| as real) == Sum(xs)
  {
    if |xs| > 0 then Real(Sum(xs) / |xs| as real) else Int(0)
  }

  /** `m` is what the mean of the integers `xs` must be: the integer 0 when
      there are none, otherwise a real that, taken |xs| times, gives their sum. */
  predicate IsMeanOf(m: Number, xs: seq<int>) {
    (m == Int(0) <==> xs == [])
    && (m.Int? <==> xs == [])
    && (m.Real? ==> m.Value() * (|xs| as real) == IntSum(xs) as real)
  }

  /** The mean of a list of integers, each taken as a real, is its mean. */
  lemma {:induction false} MeanOfInts(xs: seq<int>)
    ensures IsMeanOf(Mean(ToReals(xs)), xs)
  {
    SumOfReals(xs);
  }

  /** A number multiplied by an integer factor, keeping its kind. */
  function Scale(n: Number, k: int): (s: Number)
    ensures s.Int? <==> n.Int?
    ensures s.Value() == n.Value() * k as real
  {
    match n
    case Int(i) => Int(i * k)
    case Real(r) => Real(r * k as real)
  }

  /** `m` is what k times the mean of the integers `xs` must be: the integer
      0 when there are none, otherwise a real that, taken |xs| times, gives k
      times their sum. */
  predicate IsScaledMeanOf(m: Number, xs: seq<int>, k: int) {
    (m == Int(0) <==> xs == [])
    && (m.Int? <==> xs == [])
    && (m.Real? ==> m.Value() * (|xs| as real) == (k * IntSum(xs)) as real)
  }

  /** Scaling the mean of integers by k gives k times their mean. */
  lemma {:induction false} ScaledMeanOfInts(xs: seq<int>, k: int)
    ensures IsScaledMeanOf(Scale(Mean(ToReals(xs)), k), xs, k)
  {
    var m := Mean(ToReals(xs));
    MeanOfInts(xs);
    if xs != [] {
      var n := |xs| as real;
      calc {
        Scale(m, k).Value() * n;
        (m.Value() * k as real) * n;
        { MulSwap(m.Value(), k as real, n); }
        (m.Value() * n) * k as real;
        (IntSum(xs) as real) * k as real;
        (k * IntSum(xs)) as real;
      }
    }
  }

  lemma MulSwap(a: real, b: real, c: real)
    ensures (a * b) * c == (a * c) * b
  {
  }

  /** Summing integers and then taking a real is summing the reals. */
  lemma {:induction false} SumOfReals(xs: seq<int>)
    ensures Sum(ToReals(xs)) == IntSum(xs) as real
  {
    if xs != [] {
      assert ToReals(xs)[1..] == ToReals(xs[1..]);
      SumOfReals(xs[1..]);
    }
  }

  /** A sum of values between `lo` and `hi` lies between |xs| times each. */
  lemma {:induction false} SumBounds(xs: seq<real>, lo: real, hi: real)
    requires forall k :: 0 <= k < |xs| ==> lo <= xs[k] <= hi
    ensures (|xs| as real) * lo <= Sum(xs) <= (|xs| as real) * hi
  {
    if xs != [] {
      assert forall k :: 0 <= k < |xs[1..]| ==> xs[1..][k] == xs[k + 1];
      SumBounds(xs[1..], lo, hi);
    }
  }

  /** The mean of a non-empty list lies between any lower and upper bound
      of its elements. */
  lemma {:induction false} MeanBounds(xs: seq<real>, lo: real, hi: real)
    requires xs != []
    requires forall k :: 0 <= k < |xs| ==> lo <= xs[k] <= hi
    ensures lo <= Mean(xs).Value() <= hi
  {
    SumBounds(xs, lo, hi);
    QuotientBounds(Sum(xs), |xs| as real, lo, hi);
  }

  lemma QuotientBounds(a: real, n: real, lo: real, hi: real)
    requires n > 0.0 && n * lo <= a <= n * hi
    ensures lo <= a / n <= hi
  {
  }

  /** Sums are linear: the sum of element-wise differences is the
      difference of the sums. */
  lemma {:induction false} SumOfDifferences(ends: seq<real>, starts: seq<real>, diffs: seq<real>)
    requires |ends| == |starts| == |diffs|
    requires forall k :: 0 <= k < |diffs| ==> diffs[k] == ends[k] - starts[k]
    ensures Sum(diffs) == Sum(ends) - Sum(starts)
  {
    if diffs != [] {
      assert forall k :: 0 <= k < |diffs| - 1 ==> diffs[1..][k] == ends[1..][k] - starts[1..][k];
      SumOfDifferences(ends[1..], starts[1..], diffs[1..]);
    }
  }

  /** Means are linear too: the mean of element-wise differences is the
      difference of the means. */
  lemma {:induction false} MeanOfDifferences(ends: seq<real>, starts: seq<real>, diffs: seq<real>)
    requires |ends| == |starts| == |diffs|
    requires forall k :: 0 <= k < |diffs| ==> diffs[k] == ends[k] - starts[k]
    ensures Mean(diffs).Value() == Mean(ends).Value() - Mean(starts).Value()
  {
    SumOfDifferences(ends, starts, diffs);
  }
}
