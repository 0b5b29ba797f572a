/** Small shared vocabulary: optional values and sums of real sequences. */
module Common {

  datatype Option<+T> = None | Some(value: T)

  /** Sum of a sequence of reals, left to right. */
  function Sum(s: seq<real>): real
  {
    if s == [] then 0.0 else Sum(s[..|s| - 1]) + s[|s| - 1]
  }

  /** The sum of a concatenation is the sum of the parts. */
  lemma {:induction false} SumAppend(a: seq<real>, b: seq<real>)
    ensures Sum(a + b) == Sum(a) + Sum(b)
    decreases |b|
  {
    if b == [] {
      assert a + b == a;
    } else {
      var c := b[..|b| - 1];
      assert (a + b)[..|a + b| - 1] == a + c;
      SumAppend(a, c);
    }
  }

  lemma DivSelf(x: real)
    requires x != 0.0
    ensures x / x == 1.0
  {
  }

  /** Dividing every term by the same non-zero constant divides the sum. */
  lemma {:induction false} SumDivide(s: seq<real>, t: seq<real>, c: real)
    requires c != 0.0 && |s| == |t|
    requires forall i :: 0 <= i < |s| ==> t[i] == s[i] / c
    ensures Sum(t) == Sum(s) / c
    decreases |s|
  {
    if s != [] {
      SumDivide(s[..|s| - 1], t[..|t| - 1], c);
    }
  }
}
