/**
 * A mixture of uncoupled elastic solids. Each material point carries one
 * sub-point per component and a weight per component; the mixture's
 * deviatoric stress, tangent and strain energy density are the weighted
 * sums of the components' values, each component evaluated at the
 * mixture's kinematics in its own local frame. Tensors are flat sequences
 * of their independent components (6 for a symmetric second-order tensor,
 * 21 for a fourth-order tensor with both symmetries); the component laws
 * are parameters.
 */
module ElasticMixture {
  import opened Common
  import opened LinAlg

  const SYMM2_WIDTH: nat := 6
  const SYMM4_WIDTH: nat := 21

  /** sum over i of w[i] * T[i], for tensors T[i] of width n. */
  function WeightedSum(T: seq<seq<real>>, w: seq<real>, n: nat): (r: seq<real>)
    requires |T| == |w|
    requires forall i :: 0 <= i < |T| ==> |T[i]| == n
    ensures |r| == n
  {
    if |T| == 0 then ZeroVec(n)
    else Add(WeightedSum(T[..|T| - 1], w[..|w| - 1], n), ScaleRow(T[|T| - 1], w[|w| - 1]))
  }

  /** sum over i of w[i] * e[i]. */
  function WeightedTotal(e: seq<real>, w: seq<real>): real
    requires |e| == |w|
  {
    if |e| == 0 then 0.0 else WeightedTotal(e[..|e| - 1], w[..|w| - 1]) + e[|e| - 1] * w[|w| - 1]
  }

  /** Component j of the tensor sum is the weighted sum of the components' entries j. */
  lemma {:induction false} WeightedSumEntry(T: seq<seq<real>>, w: seq<real>, n: nat, j: nat)
    requires |T| == |w|
    requires forall i :: 0 <= i < |T| ==> |T[i]| == n
    requires j < n
    ensures WeightedSum(T, w, n)[j] == WeightedTotal(seq(|T|, i requires 0 <= i < |T| => T[i][j]), w)
    decreases |T|
  {
    if |T| > 0 {
      var col := seq(|T|, i requires 0 <= i < |T| => T[i][j]);
      var pre := T[..|T| - 1];
      WeightedSumEntry(pre, w[..|w| - 1], n, j);
      assert seq(|pre|, i requires 0 <= i < |pre| => pre[i][j]) == col[..|col| - 1];
    }
  }

  /** A mixture of identical components behaves like w-total times one of them. */
  lemma {:induction false} IdenticalComponents(T: seq<seq<real>>, w: seq<real>, t: seq<real>)
    requires |T| == |w|
    requires forall i :: 0 <= i < |T| ==> T[i] == t
    ensures WeightedSum(T, w, |t|) == ScaleRow(t, Sum(w))
    decreases |T|
  {
    if |T| > 0 {
      IdenticalComponents(T[..|T| - 1], w[..|w| - 1], t);
      assert w[..|w| - 1] + [w[|w| - 1]] == w;
      SumAppend(w[..|w| - 1], [w[|w| - 1]]);
      assert Sum([w[|w| - 1]]) == w[|w| - 1] by {
        assert [w[|w| - 1]][..0] == [];
      }
      var a := Sum(w[..|w| - 1]);
      var b := w[|w| - 1];
      assert Sum(w) == a + b;
      assert T[|T| - 1] == t;
      var lhs := WeightedSum(T, w, |t|);
      assert lhs == Add(ScaleRow(t, a), ScaleRow(t, b));
      forall k | 0 <= k < |t|
        ensures lhs[k] == ScaleRow(t, a + b)[k]
      {
        assert t[k] * a + t[k] * b == t[k] * (a + b);
      }
    }
  }

  /** One more component adds its weighted value. */
  lemma WeightedSumStep(T: seq<seq<real>>, w: seq<real>, n: nat, i: nat)
    requires |T| == |w| && i < |T|
    requires forall j :: 0 <= j < |T| ==> |T[j]| == n
    ensures WeightedSum(T[..i + 1], w[..i + 1], n) == Add(WeightedSum(T[..i], w[..i], n), ScaleRow(T[i], w[i]))
  {
    assert T[..i + 1][..i] == T[..i] && w[..i + 1][..i] == w[..i];
  }

  lemma WeightedTotalStep(e: seq<real>, w: seq<real>, i: nat)
    requires |e| == |w| && i < |e|
    ensures WeightedTotal(e[..i + 1], w[..i + 1]) == WeightedTotal(e[..i], w[..i]) + e[i] * w[i]
  {
    assert e[..i + 1][..i] == e[..i] && w[..i + 1][..i] == w[..i];
  }

  /** Adding the weighted tensor i to the sum of the first i tensors gives the sum of the first i + 1. */
  lemma WeightedSumAccumulate(T: seq<seq<real>>, w: seq<real>, n: nat, i: nat, acc: seq<real>, v: seq<real>)
    requires |T| == |w| && i < |T|
    requires forall j :: 0 <= j < |T| ==> |T[j]| == n
    requires acc == WeightedSum(T[..i], w[..i], n) && v == T[i]
    ensures Add(acc, ScaleRow(v, w[i])) == WeightedSum(T[..i + 1], w[..i + 1], n)
  {
    WeightedSumStep(T, w, n, i);
  }

  /** Adding the weighted value of entry i to the total of the first i entries gives the total of the first i + 1. */
  lemma WeightedTotalAccumulate(e: seq<real>, w: seq<real>, i: nat, acc: real, v: real)
    requires |e| == |w| && i < |e|
    requires acc == WeightedTotal(e[..i], w[..i]) && v == e[i]
    ensures acc + v * w[i] == WeightedTotal(e[..i + 1], w[..i + 1])
  {
    WeightedTotalStep(e, w, i);
  }

  /** In particular, identical components whose weights add up to 1 give back the component's own value. */
  lemma PartitionOfUnity(T: seq<seq<real>>, w: seq<real>, t: seq<real>)
    requires |T| == |w|
    requires forall i :: 0 <= i < |T| ==> T[i] == t
    requires Sum(w) == 1.0
    ensures WeightedSum(T, w, |t|) == t
  {
    IdenticalComponents(T, w, t);
  }

  /** The component bulk moduli after Init: a zero becomes 1.0, anything else is kept. */
  function ReplaceZeroModuli(ks: seq<real>): (r: seq<real>)
    ensures |r| == |ks|
    ensures forall i :: 0 <= i < |ks| ==> r[i] != 0.0
    ensures forall i :: 0 <= i < |ks| && ks[i] != 0.0 ==> r[i] == ks[i]
  {
    seq(|ks|, i requires 0 <= i < |ks| => if ks[i] == 0.0 then 1.0 else ks[i])
  }

  /** Replacing zeros a second time changes nothing. */
  lemma ReplaceZeroModuliIdempotent(ks: seq<real>)
    ensures ReplaceZeroModuli(ReplaceZeroModuli(ks)) == ReplaceZeroModuli(ks)
  {
  }

  /** The number of zero entries. */
  function Zeros(ks: seq<real>): nat
  {
    if |ks| == 0 then 0 else Zeros(ks[..|ks| - 1]) + (if ks[|ks| - 1] == 0.0 then 1 else 0)
  }

  /**
   * The mixture modulus is summed before the zeros are replaced, so it falls
   * short of the sum of the replaced moduli by one per zero component.
   */
  lemma {:induction false} ModulusCountsZerosAsZero(ks: seq<real>)
    ensures Sum(ReplaceZeroModuli(ks)) == Sum(ks) + Zeros(ks) as real
    decreases |ks|
  {
    if |ks| > 0 {
      var pre := ks[..|ks| - 1];
      ModulusCountsZerosAsZero(pre);
      assert ReplaceZeroModuli(ks)[..|ks| - 1] == ReplaceZeroModuli(pre);
    }
  }

  /** The kinematic state a component receives from the mixture's point. */
  datatype Kinematics = Kinematics(rt: seq<real>, r0: seq<real>, F: seq<real>, J: real)

  /** A component's law: from the component index, the kinematics and the point's local frame, a tensor or a scalar. */
  type TensorLaw = (nat, Kinematics, seq<real>) -> seq<real>
  type ScalarLaw = (nat, Kinematics, seq<real>) -> real

  /** A solid component; only its bulk modulus matters here. */
  class Component {
    var K: real

    constructor (k: real)
      ensures K == k
    {
      K := k;
    }
  }

  /** An elastic material point: kinematics, local frame and stored stress. */
  class ElasticMaterialPoint {
    /** The component that created the point. */
    const material: Component
    var kin: Kinematics
    var Q: seq<real>
    var s: seq<real>

    constructor (m: Component)
      ensures material == m
    {
      material := m;
      kin := Kinematics([], [], [], 1.0);
      Q := [];
      s := [];
    }
  }

  /** The mixture's point data: one weight and one sub-point per component. */
  class MixturePoint {
    var w: seq<real>
    var mp: seq<ElasticMaterialPoint>

    constructor ()
      ensures w == [] && mp == []
    {
      w := [];
      mp := [];
    }
  }

  /** The values each component's law gives at the mixture's kinematics in the component's own frame. */
  function ComponentValues<T>(law: (nat, Kinematics, seq<real>) -> T, kin: Kinematics, Qs: seq<seq<real>>): (r: seq<T>)
    ensures |r| == |Qs|
    ensures forall i :: 0 <= i < |Qs| ==> r[i] == law(i, kin, Qs[i])
  {
    seq(|Qs|, i requires 0 <= i < |Qs| => law(i, kin, Qs[i]))
  }

  /** The sub-points are distinct objects and none of them is the mixture's own point. */
  predicate SeparatePoints(mp: seq<ElasticMaterialPoint>, ep: ElasticMaterialPoint)
  {
    ep !in mp && forall i, j :: 0 <= i < j < |mp| ==> mp[i] != mp[j]
  }

  /** Gives sub-point i the mixture point's kinematics; its frame, its stress and every other sub-point are kept. */
  method PassKinematics(mp: seq<ElasticMaterialPoint>, ep: ElasticMaterialPoint, i: nat)
    requires i < |mp| && SeparatePoints(mp, ep)
    modifies mp[i]
    ensures mp[i].kin == ep.kin && mp[i].Q == old(mp[i].Q) && mp[i].s == old(mp[i].s)
    ensures forall j :: 0 <= j < |mp| && j != i ==> mp[j].kin == old(mp[j].kin) && mp[j].Q == old(mp[j].Q) && mp[j].s == old(mp[j].s)
  {
    mp[i].kin := ep.kin;
  }

  /** Stores v as sub-point i's stress; everything else about the sub-points is kept. */
  method StoreStress(mp: seq<ElasticMaterialPoint>, i: nat, v: seq<real>)
    requires i < |mp| && forall j, k :: 0 <= j < k < |mp| ==> mp[j] != mp[k]
    modifies mp[i]
    ensures mp[i].s == v && mp[i].kin == old(mp[i].kin) && mp[i].Q == old(mp[i].Q)
    ensures forall j :: 0 <= j < |mp| && j != i ==> mp[j].kin == old(mp[j].kin) && mp[j].Q == old(mp[j].Q) && mp[j].s == old(mp[j].s)
  {
    mp[i].s := v;
  }

  /**
   * One component's turn in the stress sum: sub-point i receives the
   * mixture point's kinematics, stores its weighted stress, and that
   * stress is added to the running sum.
   */
  method StressStep(mp: seq<ElasticMaterialPoint>, ep: ElasticMaterialPoint, law: TensorLaw, w: seq<real>, i: nat,
                    ghost T: seq<seq<real>>, s: seq<real>) returns (s': seq<real>)
    requires i < |mp| == |w| == |T| && SeparatePoints(mp, ep)
    requires forall j :: 0 <= j < |T| ==> |T[j]| == SYMM2_WIDTH
    requires T[i] == law(i, ep.kin, mp[i].Q)
    requires s == WeightedSum(T[..i], w[..i], SYMM2_WIDTH)
    modifies mp[i]
    ensures s' == WeightedSum(T[..i + 1], w[..i + 1], SYMM2_WIDTH)
    ensures mp[i].kin == ep.kin && mp[i].Q == old(mp[i].Q) && mp[i].s == ScaleRow(law(i, ep.kin, mp[i].Q), w[i])
    ensures forall j :: 0 <= j < |mp| && j != i ==> mp[j].kin == old(mp[j].kin) && mp[j].Q == old(mp[j].Q) && mp[j].s == old(mp[j].s)
  {
    var epi := mp[i];
    PassKinematics(mp, ep, i);
    var v := law(i, epi.kin, epi.Q);
    var sv := ScaleRow(v, w[i]);
    StoreStress(mp, i, sv);
    WeightedSumAccumulate(T, w, SYMM2_WIDTH, i, s, v);
    s' := Add(s, sv);
  }

  /**
   * The loop of the deviatoric stress over the sub-points mp, whose frames
   * are Q0: each takes its turn in the order of the components.
   */
  method SumStresses(mp: seq<ElasticMaterialPoint>, ep: ElasticMaterialPoint, law: TensorLaw, w: seq<real>,
                     ghost Q0: seq<seq<real>>) returns (s: seq<real>)
    requires |mp| == |w| == |Q0| && SeparatePoints(mp, ep)
    requires forall i, k, q :: |law(i, k, q)| == SYMM2_WIDTH
    requires forall j :: 0 <= j < |mp| ==> mp[j].Q == Q0[j]
    modifies mp
    ensures s == WeightedSum(ComponentValues(law, ep.kin, Q0), w, SYMM2_WIDTH)
    ensures forall j :: 0 <= j < |mp| ==> mp[j].kin == ep.kin && mp[j].Q == Q0[j]
    ensures forall j :: 0 <= j < |mp| ==> mp[j].s == ScaleRow(law(j, ep.kin, mp[j].Q), w[j])
  {
    ghost var T := ComponentValues(law, ep.kin, Q0);
    s := ZeroVec(SYMM2_WIDTH);
    var i := 0;
    while i < |mp|
      invariant 0 <= i <= |mp|
      invariant s == WeightedSum(T[..i], w[..i], SYMM2_WIDTH)
      invariant forall j :: 0 <= j < |mp| ==> mp[j].Q == Q0[j]
      invariant forall j :: 0 <= j < i ==> mp[j].kin == ep.kin
      invariant forall j :: 0 <= j < i ==> mp[j].s == ScaleRow(law(j, ep.kin, mp[j].Q), w[j])
    {
      s := StressStep(mp, ep, law, w, i, T, s);
      i := i + 1;
    }
    assert T[..i] == T && w[..i] == w;
  }

  class UncoupledElasticMixture {
    var K: real
    var mats: seq<Component>

    /** The components' bulk moduli, in order. */
    function Moduli(): (r: seq<real>)
      reads this, mats
      ensures |r| == |mats| && forall i :: 0 <= i < |mats| ==> r[i] == mats[i].K
    {
      seq(|mats|, i reads this, mats requires 0 <= i < |mats| => mats[i].K)
    }

    /** The frames of the sub-points, in order. */
    static function Frames(mp: seq<ElasticMaterialPoint>): (r: seq<seq<real>>)
      reads mp
      ensures |r| == |mp| && forall i :: 0 <= i < |mp| ==> r[i] == mp[i].Q
    {
      seq(|mp|, i reads mp requires 0 <= i < |mp| => mp[i].Q)
    }

    /** The sub-points' stored stresses, in order. */
    static ghost function Stresses(mp: seq<ElasticMaterialPoint>): (r: seq<seq<real>>)
      reads mp
      ensures |r| == |mp| && forall i :: 0 <= i < |mp| ==> r[i] == mp[i].s
    {
      seq(|mp|, i reads mp requires 0 <= i < |mp| => mp[i].s)
    }

    /**
     * Sums the components' moduli into the mixture's modulus, as they were
     * before any is changed, and then sets every zero modulus to 1.0.
     */
    method Init()
      requires forall i, j :: 0 <= i < j < |mats| ==> mats[i] != mats[j]
      modifies this, mats
      ensures mats == old(mats)
      ensures K == Sum(old(Moduli()))
      ensures Moduli() == ReplaceZeroModuli(old(Moduli()))
    {
      ghost var ks := Moduli();
      K := 0.0;
      var i := 0;
      while i < |mats|
        invariant 0 <= i <= |mats| && mats == old(mats)
        invariant K == Sum(ks[..i])
        invariant forall j :: 0 <= j < |mats| ==> mats[j].K == (if j < i then ReplaceZeroModuli(ks)[j] else ks[j])
      {
        assert ks[..i + 1][..i] == ks[..i];
        K := K + mats[i].K;
        if mats[i].K == 0.0 {
          mats[i].K := 1.0;
        }
        i := i + 1;
      }
      assert ks[..i] == ks;
    }

    /** Appends a component to the mixture; the components already there keep their order. */
    method AddMaterial(pm: Component)
      modifies this
      ensures mats == old(mats) + [pm]
      ensures K == old(K)
    {
      mats := mats + [pm];
    }

    /**
     * Sets the point's local frame to frame (what the element gives the
     * mixture), then gives each component's sub-point the product of that
     * frame and the component's own local frame; kinematics and stresses
     * are not touched.
     */
    method SetLocalCoordinateSystem(pt: MixturePoint, ep: ElasticMaterialPoint, frame: seq<real>,
                                    componentFrame: nat -> seq<real>, compose: (seq<real>, seq<real>) -> seq<real>)
      requires |pt.mp| == |mats|
      requires SeparatePoints(pt.mp, ep)
      modifies ep, pt.mp
      ensures ep.Q == frame && ep.kin == old(ep.kin) && ep.s == old(ep.s)
      ensures forall i :: 0 <= i < |pt.mp| ==> pt.mp[i].Q == compose(frame, componentFrame(i))
      ensures forall i :: 0 <= i < |pt.mp| ==> pt.mp[i].kin == old(pt.mp[i].kin) && pt.mp[i].s == old(pt.mp[i].s)
    {
      ep.Q := frame;
      var j := 0;
      while j < |mats|
        invariant 0 <= j <= |mats|
        invariant ep.Q == frame && ep.kin == old(ep.kin) && ep.s == old(ep.s)
        invariant forall i :: 0 <= i < j ==> pt.mp[i].Q == compose(frame, componentFrame(i))
        invariant forall i :: 0 <= i < |pt.mp| ==> pt.mp[i].kin == old(pt.mp[i].kin) && pt.mp[i].s == old(pt.mp[i].s)
      {
        var pj := pt.mp[j];
        pj.Q := componentFrame(j);
        pj.Q := compose(ep.Q, pj.Q);
        j := j + 1;
      }
    }

    /** A new mixture point with one sub-point per component, created by the components in order. */
    method CreateMaterialPointData() returns (pt: MixturePoint)
      ensures fresh(pt)
      ensures |pt.mp| == |mats|
      ensures forall i :: 0 <= i < |mats| ==> fresh(pt.mp[i]) && pt.mp[i].material == mats[i]
      ensures forall i, j :: 0 <= i < j < |pt.mp| ==> pt.mp[i] != pt.mp[j]
    {
      pt := new MixturePoint();
      var i := 0;
      while i < |mats|
        invariant 0 <= i <= |mats|
        invariant fresh(pt) && |pt.mp| == i
        invariant forall j :: 0 <= j < i ==> fresh(pt.mp[j]) && pt.mp[j].material == mats[j]
        invariant forall j, k :: 0 <= j < k < i ==> pt.mp[j] != pt.mp[k]
      {
        var p := new ElasticMaterialPoint(mats[i]);
        pt.mp := pt.mp + [p];
        i := i + 1;
      }
    }

    /**
     * The deviatoric stress: each sub-point receives the mixture point's
     * current and reference positions, deformation gradient and Jacobian
     * (its frame is kept), stores its weighted stress, and the weighted
     * stresses are added up.
     */
    method DevStress(pt: MixturePoint, ep: ElasticMaterialPoint, law: TensorLaw) returns (s: seq<real>)
      requires |pt.w| == |mats| && |pt.mp| == |mats|
      requires SeparatePoints(pt.mp, ep)
      requires forall i, k, q :: |law(i, k, q)| == SYMM2_WIDTH
      modifies pt.mp
      ensures s == WeightedSum(ComponentValues(law, ep.kin, old(Frames(pt.mp))), pt.w, SYMM2_WIDTH)
      ensures forall i :: 0 <= i < |pt.mp| ==> pt.mp[i].kin == ep.kin && pt.mp[i].Q == old(pt.mp[i].Q)
      ensures forall i :: 0 <= i < |pt.mp| ==> pt.mp[i].s == ScaleRow(law(i, ep.kin, pt.mp[i].Q), pt.w[i])
    {
      s := SumStresses(pt.mp, ep, law, pt.w, Frames(pt.mp));
    }

    /** The deviatoric tangent: the same weighted sum over the components' tangents. */
    method DevTangent(pt: MixturePoint, ep: ElasticMaterialPoint, law: TensorLaw) returns (c: seq<real>)
      requires |pt.w| == |mats| && |pt.mp| == |mats|
      requires SeparatePoints(pt.mp, ep)
      requires forall i, k, q :: |law(i, k, q)| == SYMM4_WIDTH
      modifies pt.mp
      ensures c == WeightedSum(ComponentValues(law, ep.kin, old(Frames(pt.mp))), pt.w, SYMM4_WIDTH)
      ensures forall i :: 0 <= i < |pt.mp| ==> pt.mp[i].kin == ep.kin
      ensures forall i :: 0 <= i < |pt.mp| ==> pt.mp[i].Q == old(pt.mp[i].Q) && pt.mp[i].s == old(pt.mp[i].s)
    {
      ghost var Q0 := Frames(pt.mp);
      ghost var S0 := Stresses(pt.mp);
      ghost var T := ComponentValues(law, ep.kin, Q0);
      c := ZeroVec(SYMM4_WIDTH);
      var w, mp := pt.w, pt.mp;
      var i := 0;
      while i < |mp|
        invariant 0 <= i <= |mp|
        invariant c == WeightedSum(T[..i], w[..i], SYMM4_WIDTH)
        invariant forall j :: 0 <= j < |mp| ==> mp[j].Q == Q0[j] && mp[j].s == S0[j]
        invariant forall j :: 0 <= j < i ==> mp[j].kin == ep.kin
      {
        var epi := mp[i];
        PassKinematics(mp, ep, i);
        var v := law(i, epi.kin, epi.Q);
        WeightedSumAccumulate(T, w, SYMM4_WIDTH, i, c, v);
        c := Add(c, ScaleRow(v, w[i]));
        i := i + 1;
      }
      assert T[..i] == T && w[..i] == w;
    }

    /** The deviatoric strain energy density: the weighted sum of the components' densities. */
    method DevStrainEnergyDensity(pt: MixturePoint, ep: ElasticMaterialPoint, law: ScalarLaw) returns (sed: real)
      requires |pt.w| == |mats| && |pt.mp| == |mats|
      requires SeparatePoints(pt.mp, ep)
      modifies pt.mp
      ensures sed == WeightedTotal(ComponentValues(law, ep.kin, old(Frames(pt.mp))), pt.w)
      ensures forall i :: 0 <= i < |pt.mp| ==> pt.mp[i].kin == ep.kin
      ensures forall i :: 0 <= i < |pt.mp| ==> pt.mp[i].Q == old(pt.mp[i].Q) && pt.mp[i].s == old(pt.mp[i].s)
    {
      ghost var Q0 := Frames(pt.mp);
      ghost var S0 := Stresses(pt.mp);
      ghost var e := ComponentValues(law, ep.kin, Q0);
      sed := 0.0;
      var w, mp := pt.w, pt.mp;
      var i := 0;
      while i < |mp|
        invariant 0 <= i <= |mp|
        invariant sed == WeightedTotal(e[..i], w[..i])
        invariant forall j :: 0 <= j < |mp| ==> mp[j].Q == Q0[j] && mp[j].s == S0[j]
        invariant forall j :: 0 <= j < i ==> mp[j].kin == ep.kin
      {
        var epi := mp[i];
        PassKinematics(mp, ep, i);
        var v := law(i, epi.kin, epi.Q);
        WeightedTotalAccumulate(e, w, i, sed, v);
        sed := sed + v * w[i];
        i := i + 1;
      }
      assert e[..i] == e && w[..i] == w;
    }
  }
}
