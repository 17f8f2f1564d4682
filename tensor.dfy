/**
 * The tensor operations the sanitizer hands to its host: the sum over the
 * leading axis (tf.reduce_sum), clipping to an L2 norm (tf.clip_by_norm) and
 * Gaussian perturbation (utils.AddGaussianNoise). Tensors are rank 2, one row
 * per example. Square roots and random draws are not computed here: the norm
 * of a tensor and the standard-normal draws are given as arguments.
 */
module Tensor {

  /** A rank-2 tensor: `rows` are the examples along the leading axis, each a
      vector of `width` features. The width is kept apart from the rows so that
      a batch of no examples still has a shape. */
  datatype Batch = Batch(width: nat, rows: seq<seq<real>>)
  {
    predicate WellShaped() {
      forall i :: 0 <= i < |rows| ==> |rows[i]| == width
    }
  }

  predicate SameShape(a: Batch, b: Batch) {
    a.WellShaped() && b.WellShaped() && a.width == b.width && |a.rows| == |b.rows|
  }

  function Zeros(n: nat): (r: seq<real>)
    ensures |r| == n && forall j :: 0 <= j < n ==> r[j] == 0.0
  {
    seq(n, _ => 0.0)
  }

  function AddVectors(u: seq<real>, v: seq<real>): (r: seq<real>)
    requires |u| == |v|
    ensures |r| == |u| && forall j :: 0 <= j < |u| ==> r[j] == u[j] + v[j]
  {
    seq(|u|, j requires 0 <= j < |u| => u[j] + v[j])
  }

  function ScaleVector(v: seq<real>, k: real): (r: seq<real>)
    ensures |r| == |v| && forall j :: 0 <= j < |v| ==> r[j] == k * v[j]
  {
    seq(|v|, j requires 0 <= j < |v| => k * v[j])
  }

  // ---------------------------------------------------------------------------
  // Sum over the leading axis
  // ---------------------------------------------------------------------------

  /** Feature `j` added up over all the examples, first example first. */
  function ColumnSum(rows: seq<seq<real>>, j: nat): real
    requires forall i :: 0 <= i < |rows| ==> j < |rows[i]|
  {
    if rows == [] then 0.0 else rows[0][j] + ColumnSum(rows[1..], j)
  }

  /** tf.reduce_sum(x, 0), computed by adding up whole example vectors: entry
      `j` of the result is the sum of feature `j` over all examples, and a batch
      of no examples sums to zeros of the batch's width. */
  function ReduceSum(x: Batch): (r: seq<real>)
    requires x.WellShaped()
    decreases |x.rows|
    ensures |r| == x.width
    ensures forall j :: 0 <= j < x.width ==> r[j] == ColumnSum(x.rows, j)
  {
    if x.rows == [] then Zeros(x.width)
    else AddVectors(x.rows[0], ReduceSum(Batch(x.width, x.rows[1..])))
  }

  // ---------------------------------------------------------------------------
  // Scaling and the L2 norm
  // ---------------------------------------------------------------------------

  function ScaleRows(rows: seq<seq<real>>, k: real): (r: seq<seq<real>>)
    ensures |r| == |rows|
    ensures forall i :: 0 <= i < |rows| ==> r[i] == ScaleVector(rows[i], k)
  {
    seq(|rows|, i requires 0 <= i < |rows| => ScaleVector(rows[i], k))
  }

  /** Every entry of `x` multiplied by `k`. */
  function Scale(x: Batch, k: real): (r: Batch)
    requires x.WellShaped()
    ensures SameShape(r, x)
  {
    Batch(x.width, ScaleRows(x.rows, k))
  }

  function SumOfSquares(v: seq<real>): real {
    if v == [] then 0.0 else v[0] * v[0] + SumOfSquares(v[1..])
  }

  /** The square of the L2 norm of the whole tensor. */
  function SquaredNorm(rows: seq<seq<real>>): real {
    if rows == [] then 0.0 else SumOfSquares(rows[0]) + SquaredNorm(rows[1..])
  }

  /** `n` is the L2 norm of `x`, the non-negative square root of its squared norm. */
  predicate IsL2Norm(n: real, x: Batch) {
    0.0 <= n && n * n == SquaredNorm(x.rows)
  }

  lemma Distribute(c: real, a: real, b: real)
    ensures c * a + c * b == c * (a + b)
  {
  }

  lemma SquareOfScaled(k: real, a: real)
    ensures (k * a) * (k * a) == k * k * (a * a)
  {
  }

  lemma ScaleVectorSplit(v: seq<real>, k: real)
    requires v != []
    ensures ScaleVector(v, k)[0] == k * v[0]
    ensures ScaleVector(v, k)[1..] == ScaleVector(v[1..], k)
  {
    var w, tail := ScaleVector(v, k), ScaleVector(v[1..], k);
    forall j | 0 <= j < |tail|
      ensures w[1..][j] == tail[j]
    {
      assert w[1..][j] == w[j + 1];
      assert v[1..][j] == v[j + 1];
    }
  }

  lemma ScaleRowsSplit(rows: seq<seq<real>>, k: real)
    requires rows != []
    ensures ScaleRows(rows, k)[0] == ScaleVector(rows[0], k)
    ensures ScaleRows(rows, k)[1..] == ScaleRows(rows[1..], k)
  {
    var w, tail := ScaleRows(rows, k), ScaleRows(rows[1..], k);
    forall i | 0 <= i < |tail|
      ensures w[1..][i] == tail[i]
    {
      assert w[1..][i] == w[i + 1];
      assert rows[1..][i] == rows[i + 1];
    }
  }

  lemma {:induction false} SumOfSquaresScale(v: seq<real>, k: real)
    ensures SumOfSquares(ScaleVector(v, k)) == k * k * SumOfSquares(v)
  {
    if v != [] {
      ScaleVectorSplit(v, k);
      SumOfSquaresScale(v[1..], k);
      SquareOfScaled(k, v[0]);
      Distribute(k * k, v[0] * v[0], SumOfSquares(v[1..]));
    }
  }

  lemma {:induction false} SquaredNormScale(rows: seq<seq<real>>, k: real)
    ensures SquaredNorm(ScaleRows(rows, k)) == k * k * SquaredNorm(rows)
  {
    if rows != [] {
      var w := ScaleRows(rows, k);
      assert w[0] == ScaleVector(rows[0], k);
      assert w[1..] == ScaleRows(rows[1..], k);
      SumOfSquaresScale(rows[0], k);
      SquaredNormScale(rows[1..], k);
      Distribute(k * k, SumOfSquares(rows[0]), SquaredNorm(rows[1..]));
    }
  }

  /** Scaling distributes over the sum of two vectors. */
  lemma AddVectorsScale(u: seq<real>, v: seq<real>, k: real)
    requires |u| == |v|
    ensures AddVectors(ScaleVector(u, k), ScaleVector(v, k)) == ScaleVector(AddVectors(u, v), k)
  {
    var lhs, rhs := AddVectors(ScaleVector(u, k), ScaleVector(v, k)), ScaleVector(AddVectors(u, v), k);
    forall j | 0 <= j < |u|
      ensures lhs[j] == rhs[j]
    {
      Distribute(k, u[j], v[j]);
    }
  }

  /** Summing a scaled batch over its examples scales the sum: rescaling the
      batch before aggregation is the same as rescaling the aggregate. */
  lemma {:induction false} ReduceSumScale(x: Batch, k: real)
    requires x.WellShaped()
    decreases |x.rows|
    ensures ReduceSum(Scale(x, k)) == ScaleVector(ReduceSum(x), k)
  {
    if x.rows == [] {
      assert Scale(x, k).rows == [];
    } else {
      var tail := Batch(x.width, x.rows[1..]);
      ScaleRowsSplit(x.rows, k);
      assert Batch(x.width, Scale(x, k).rows[1..]) == Scale(tail, k);
      ReduceSumScale(tail, k);
      AddVectorsScale(x.rows[0], ReduceSum(tail), k);
    }
  }

  // ---------------------------------------------------------------------------
  // Clipping
  // ---------------------------------------------------------------------------

  /** tf.clip_by_norm(x, clipNorm) with no axes: the whole tensor is multiplied
      by clipNorm / max(norm, clipNorm), where `norm` is its L2 norm. A tensor
      whose norm is within the bound is returned as it is. */
  function ClipByNorm(x: Batch, clipNorm: real, norm: real): (r: Batch)
    requires x.WellShaped()
    ensures SameShape(r, x)
  {
    if norm <= clipNorm || norm == 0.0 then x else Scale(x, clipNorm / norm)
  }

  /** Clipping to a non-negative bound leaves a tensor within the bound
      unchanged, and brings the norm of any other tensor down to exactly the
      bound: the norm afterwards is the smaller of the two. */
  lemma ClipByNormBound(x: Batch, clipNorm: real, norm: real)
    requires x.WellShaped() && IsL2Norm(norm, x) && 0.0 <= clipNorm
    ensures norm <= clipNorm ==> ClipByNorm(x, clipNorm, norm) == x
    ensures IsL2Norm(if norm <= clipNorm then norm else clipNorm, ClipByNorm(x, clipNorm, norm))
  {
    if clipNorm < norm {
      var k := clipNorm / norm;
      assert ClipByNorm(x, clipNorm, norm) == Scale(x, k);
      assert Scale(x, k).rows == ScaleRows(x.rows, k);
      SquaredNormScale(x.rows, k);
      assert k * norm == clipNorm;
      calc {
        k * k * SquaredNorm(x.rows);
        k * k * (norm * norm);
        (k * norm) * (k * norm);
        clipNorm * clipNorm;
      }
    }
  }

  // ---------------------------------------------------------------------------
  // Noise
  // ---------------------------------------------------------------------------

  /** utils.AddGaussianNoise(x, stddev): entry (i, j) of `x` plus `stddev` times
      `gaussian(i, j)`, where `gaussian` gives independent standard-normal draws,
      one per entry. */
  function AddGaussianNoise(x: Batch, stddev: real, gaussian: (nat, nat) -> real): (r: Batch)
    requires x.WellShaped()
    ensures SameShape(r, x)
    ensures forall i, j :: 0 <= i < |x.rows| && 0 <= j < x.width ==>
      r.rows[i][j] == x.rows[i][j] + stddev * gaussian(i, j)
  {
    Batch(x.width, seq(|x.rows|, i requires 0 <= i < |x.rows| =>
      seq(x.width, j requires 0 <= j < x.width => x.rows[i][j] + stddev * gaussian(i, j))))
  }
}
