/** Dense vectors and matrices of reals, with the few linearity facts the block solvers need. */
module LinAlg {

  /** M has r rows of c entries each. */
  predicate IsMatrix(M: seq<seq<real>>, r: nat, c: nat)
  {
    |M| == r && forall i :: 0 <= i < r ==> |M[i]| == c
  }

  function Dot(a: seq<real>, b: seq<real>): real
    requires |a| == |b|
  {
    if a == [] then 0.0 else Dot(a[..|a| - 1], b[..|b| - 1]) + a[|a| - 1] * b[|b| - 1]
  }

  function MatVec(M: seq<seq<real>>, v: seq<real>): (r: seq<real>)
    requires forall i :: 0 <= i < |M| ==> |M[i]| == |v|
    ensures |r| == |M|
  {
    seq(|M|, i requires 0 <= i < |M| => Dot(M[i], v))
  }

  function Add(a: seq<real>, b: seq<real>): (r: seq<real>)
    requires |a| == |b|
    ensures |r| == |a| && forall i :: 0 <= i < |a| ==> r[i] == a[i] + b[i]
  {
    seq(|a|, i requires 0 <= i < |a| => a[i] + b[i])
  }

  function Sub(a: seq<real>, b: seq<real>): (r: seq<real>)
    requires |a| == |b|
    ensures |r| == |a| && forall i :: 0 <= i < |a| ==> r[i] == a[i] - b[i]
  {
    seq(|a|, i requires 0 <= i < |a| => a[i] - b[i])
  }

  function DivVec(v: seq<real>, k: real): (r: seq<real>)
    requires k != 0.0
    ensures |r| == |v| && forall i :: 0 <= i < |v| ==> r[i] == v[i] / k
  {
    seq(|v|, i requires 0 <= i < |v| => v[i] / k)
  }

  function ZeroVec(n: nat): (r: seq<real>)
    ensures |r| == n && forall i :: 0 <= i < n ==> r[i] == 0.0
  {
    seq(n, _ => 0.0)
  }

  function ScaleRow(a: seq<real>, s: real): (r: seq<real>)
    ensures |r| == |a| && forall j :: 0 <= j < |a| ==> r[j] == a[j] * s
  {
    seq(|a|, j requires 0 <= j < |a| => a[j] * s)
  }

  /** Every entry of M multiplied by s. */
  function ScaleMat(M: seq<seq<real>>, s: real): (r: seq<seq<real>>)
    ensures |r| == |M| && forall i :: 0 <= i < |M| ==> r[i] == ScaleRow(M[i], s)
  {
    seq(|M|, i requires 0 <= i < |M| => ScaleRow(M[i], s))
  }

  lemma {:induction false} DotSub(a: seq<real>, b: seq<real>, c: seq<real>)
    requires |a| == |b| == |c|
    ensures Dot(a, Sub(b, c)) == Dot(a, b) - Dot(a, c)
    decreases |a|
  {
    if a != [] {
      var n := |a| - 1;
      assert Sub(b, c)[..n] == Sub(b[..n], c[..n]);
      DotSub(a[..n], b[..n], c[..n]);
    }
  }

  /** A row scaled by 1/k against v is the row against v/k. */
  lemma {:induction false} DotScaledRow(a: seq<real>, v: seq<real>, k: real)
    requires |a| == |v| && k != 0.0
    ensures Dot(ScaleRow(a, 1.0 / k), v) == Dot(a, DivVec(v, k))
    decreases |a|
  {
    var sa := ScaleRow(a, 1.0 / k);
    if a != [] {
      var n := |a| - 1;
      forall j | 0 <= j < n
        ensures ScaleRow(a[..n], 1.0 / k)[j] == sa[..n][j]
      {
      }
      assert ScaleRow(a[..n], 1.0 / k) == sa[..n];
      assert DivVec(v[..n], k) == DivVec(v, k)[..n];
      DotScaledRow(a[..n], v[..n], k);
      assert sa[n] * v[n] == a[n] * (v[n] / k);
    }
  }

  /** M(b - c) = Mb - Mc. */
  lemma MatVecSub(M: seq<seq<real>>, b: seq<real>, c: seq<real>)
    requires |b| == |c| && forall i :: 0 <= i < |M| ==> |M[i]| == |b|
    ensures MatVec(M, Sub(b, c)) == Sub(MatVec(M, b), MatVec(M, c))
  {
    forall i | 0 <= i < |M|
      ensures MatVec(M, Sub(b, c))[i] == Sub(MatVec(M, b), MatVec(M, c))[i]
    {
      DotSub(M[i], b, c);
    }
  }

  /** (M/k) v = M (v/k): scaling a block by 1/k is undone by dividing its unknowns by k. */
  lemma MatVecScaled(M: seq<seq<real>>, v: seq<real>, k: real)
    requires k != 0.0 && forall i :: 0 <= i < |M| ==> |M[i]| == |v|
    ensures MatVec(ScaleMat(M, 1.0 / k), v) == MatVec(M, DivVec(v, k))
  {
    forall i | 0 <= i < |M|
      ensures MatVec(ScaleMat(M, 1.0 / k), v)[i] == MatVec(M, DivVec(v, k))[i]
    {
      DotScaledRow(M[i], v, k);
    }
  }
}
