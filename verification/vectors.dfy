/** Real-valued vectors: sums, sums of squares, scaling and the unit interval. */
module Vectors {

  /** A coordinate lies in the closed unit interval [0, 1]. */
  predicate InUnit(x: real) {
    0.0 <= x <= 1.0
  }

  function Abs(x: real): (r: real)
    ensures r >= 0.0
    ensures r == x || r == -x
  {
    if x < 0.0 then -x else x
  }

  /** Distance between two points of the real line. */
  function Dist(a: real, b: real): real {
    Abs(a - b)
  }

  /** Sum of the entries, accumulated from the front as a left-to-right loop does. */
  function Sum(v: seq<real>): real {
    if |v| == 0 then 0.0 else Sum(v[..|v| - 1]) + v[|v| - 1]
  }

  /** Sum of squares (the squared Euclidean norm), accumulated from the front. */
  function SumSq(v: seq<real>): (r: real)
    ensures r >= 0.0
  {
    if |v| == 0 then 0.0
    else
      var x := v[|v| - 1];
      assert x * x >= 0.0 by { SquareNonNegative(x); }
      SumSq(v[..|v| - 1]) + x * x
  }

  lemma SquareNonNegative(x: real)
    ensures x * x >= 0.0
  {
    if x < 0.0 {
      assert x * x == (-x) * (-x);
    }
  }

  /** Every entry divided by the same non-zero divisor. */
  function Scale(v: seq<real>, c: real): (w: seq<real>)
    requires c != 0.0
    ensures |w| == |v|
    ensures forall j :: 0 <= j < |v| ==> w[j] * c == v[j]
  {
    seq(|v|, j requires 0 <= j < |v| => v[j] / c)
  }

  /** Two vectors whose entries have equal squares (they differ only in
      signs) have equal sums of squares. */
  lemma {:induction false} SumSqSameSquares(a: seq<real>, b: seq<real>)
    requires |a| == |b|
    requires forall j :: 0 <= j < |a| ==> a[j] * a[j] == b[j] * b[j]
    ensures SumSq(a) == SumSq(b)
  {
    if |a| > 0 {
      var n := |a| - 1;
      SumSqSameSquares(a[..n], b[..n]);
    }
  }

  lemma ScaledSquare(x: real, c: real)
    requires c != 0.0
    ensures (x / c) * (x / c) * (c * c) == x * x
  {
    var y := x / c;
    assert y * c == x;
    calc {
      y * y * (c * c);
      (y * c) * (y * c);
      x * x;
    }
  }

  /** Scaling a vector by 1/c scales its sum of squares by 1/c². */
  lemma {:induction false} SumSqScale(v: seq<real>, c: real)
    requires c != 0.0
    ensures SumSq(Scale(v, c)) * (c * c) == SumSq(v)
  {
    if |v| > 0 {
      var n := |v| - 1;
      var w := Scale(v, c);
      assert w[..n] == Scale(v[..n], c);
      SumSqScale(v[..n], c);
      ScaledSquare(v[n], c);
      var head, y := SumSq(w[..n]), w[n];
      assert SumSq(w) == head + y * y;
      calc {
        SumSq(w) * (c * c);
        (head + y * y) * (c * c);
        head * (c * c) + y * y * (c * c);
        SumSq(v[..n]) + v[n] * v[n];
      }
    }
  }

  /** The sum of n copies of c is n·c. */
  lemma {:induction false} SumConstant(n: nat, c: real)
    ensures Sum(seq(n, _ => c)) == (n as real) * c
  {
    if n > 0 {
      var v := seq(n, _ => c);
      assert v[..n - 1] == seq(n - 1, _ => c);
      SumConstant(n - 1, c);
    }
  }
}
