/**
 * Degree-of-freedom layout and assembly indexing of the biphasic-solute
 * domain: the element location vector (one equation ID per element dof,
 * in blocks), its re-ordering to five dofs per node for the stiffness matrix,
 * the scatter of element residuals into the global residual, the two
 * symmetrisation passes on element matrices, and the aggregation of element
 * errors into one restart request.
 */
module BiphasicSolute {

  // ---------------------------------------------------------------------
  // Slots of the element location vector
  // ---------------------------------------------------------------------

  /** Index of the first concentration dof in a node's ID vector and in the location vector's blocks. */
  const DOF_C: nat := 11

  /** Displacement dof d of node i. */
  function DispSlot(i: nat, d: nat): nat { 3 * i + d }

  /** Fluid-pressure dof of node i, for N element nodes. */
  function PressureSlot(N: nat, i: nat): nat { 3 * N + i }

  /** Rigid rotational dof d of node i. */
  function RotationSlot(N: nat, i: nat, d: nat): nat { 4 * N + 3 * i + d }

  /** The three unused slots of node i, always -1. */
  function FillSlot(N: nat, i: nat, d: nat): nat { 7 * N + 3 * i + d }

  /** The dof at ID index 10 of node i. */
  function TenthSlot(N: nat, i: nat): nat { 10 * N + i }

  /**
   * First slot of block b, b*N: block b holds dof b of every node in turn.
   * It is spelled out block by block so that reasoning about it stays
   * linear; BlockStartIsProduct states the product form.
   */
  function BlockStart(N: nat, b: nat): nat
    decreases b
  {
    if b == 0 then 0 else BlockStart(N, b - 1) + N
  }

  /** Dof b of node i in the block layout. */
  function Slot(N: nat, b: nat, i: nat): nat
  {
    BlockStart(N, b) + i
  }

  /** Concentration dof k of node i. */
  function ConcSlot(N: nat, k: nat, i: nat): nat
  {
    Slot(N, DOF_C + k, i)
  }

  lemma {:induction false} BlockStartIsProduct(N: nat, b: nat)
    ensures BlockStart(N, b) == b * N
    decreases b
  {
    if b > 0 {
      BlockStartIsProduct(N, b - 1);
      assert b * N == (b - 1) * N + N;
    }
  }

  lemma {:induction false} BlockStartMono(N: nat, b: nat, c: nat)
    requires b <= c
    ensures BlockStart(N, b) <= BlockStart(N, c)
    decreases c
  {
    if b < c {
      BlockStartMono(N, b, c - 1);
    }
  }

  /** Different (block, node) pairs occupy different slots. */
  lemma SlotInjective(N: nat)
    ensures forall b: nat, i: nat, c: nat, j: nat :: i < N && j < N && Slot(N, b, i) == Slot(N, c, j) ==> b == c && i == j
  {
    forall b: nat, i: nat, c: nat, j: nat | i < N && j < N && Slot(N, b, i) == Slot(N, c, j)
      ensures b == c && i == j
    {
      if b < c {
        BlockStartMono(N, b + 1, c);
      } else if c < b {
        BlockStartMono(N, c + 1, b);
      }
    }
  }

  /** Concentration slots lie between the start of the first concentration block and the end of the last. */
  lemma ConcSlotBounds(N: nat, cdofs: nat)
    ensures forall k: nat, i: nat :: k < cdofs && i < N ==>
      BlockStart(N, DOF_C) <= ConcSlot(N, k, i) < BlockStart(N, DOF_C + cdofs)
  {
    forall k: nat, i: nat | k < cdofs && i < N
      ensures BlockStart(N, DOF_C) <= ConcSlot(N, k, i) < BlockStart(N, DOF_C + cdofs)
    {
      BlockStartMono(N, DOF_C, DOF_C + k);
      BlockStartMono(N, DOF_C + k + 1, DOF_C + cdofs);
    }
  }

  /** The location vector's writes stay in bounds exactly when the dof count leaves room for every concentration block. */
  lemma UnpackFits(N: nat, maxNdofs: nat, cdofs: nat)
    requires N >= 1
    ensures BlockStart(N, DOF_C + cdofs) <= N * maxNdofs <==> DOF_C + cdofs <= maxNdofs
  {
    BlockStartIsProduct(N, maxNdofs);
    if DOF_C + cdofs <= maxNdofs {
      BlockStartMono(N, DOF_C + cdofs, maxNdofs);
    } else {
      BlockStartMono(N, maxNdofs + 1, DOF_C + cdofs);
    }
  }

  // ---------------------------------------------------------------------
  // The element location vector
  // ---------------------------------------------------------------------

  function Disp(ids: seq<seq<int>>, i: nat, d: nat): int
    requires i < |ids| && d < |ids[i]|
  {
    ids[i][d]
  }

  function Rotation(ids: seq<seq<int>>, i: nat, d: nat): int
    requires i < |ids| && 7 + d < |ids[i]|
  {
    ids[i][7 + d]
  }

  function Conc(ids: seq<seq<int>>, i: nat, k: nat): int
    requires i < |ids| && DOF_C + k < |ids[i]|
  {
    ids[i][DOF_C + k]
  }

  /** Every node's ID vector holds at least the dofs the location vector reads. */
  predicate WellFormedIDs(ids: seq<seq<int>>, cdofs: nat)
  {
    forall i :: 0 <= i < |ids| ==> |ids[i]| >= DOF_C + cdofs
  }

  /**
   * lm is the element location vector of the nodes' ID vectors ids, with
   * cdofs concentration dofs: displacements node by node, then pressures,
   * then rotations node by node, then three unused slots per node, then ID
   * index 10, then each concentration block.
   */
  predicate IsUnpacked(lm: seq<int>, ids: seq<seq<int>>, cdofs: nat)
    requires WellFormedIDs(ids, cdofs)
  {
    && 11 * |ids| <= |lm|
    && (forall i, k :: 0 <= i < |ids| && 0 <= k < cdofs ==> ConcSlot(|ids|, k, i) < |lm|)
    && (forall i :: 0 <= i < |ids| ==> NodeUnpacked(lm, ids, cdofs, i))
  }

  /**
   * Builds the location vector of N*maxNdofs entries; slots past the last
   * concentration block keep the zero the vector is created with.
   */
  method UnpackLM(ids: seq<seq<int>>, maxNdofs: nat, cdofs: nat) returns (lm: array<int>)
    requires DOF_C + cdofs <= maxNdofs
    requires forall i :: 0 <= i < |ids| ==> |ids[i]| == maxNdofs
    ensures lm.Length == |ids| * maxNdofs
    ensures WellFormedIDs(ids, cdofs) && IsUnpacked(lm[..], ids, cdofs)
    ensures forall p :: BlockStart(|ids|, DOF_C + cdofs) <= p < lm.Length ==> lm[p] == 0
  {
    var N := |ids|;
    lm := new int[N * maxNdofs](_ => 0);
    BlockStartIsProduct(N, maxNdofs);
    BlockStartIsProduct(N, DOF_C);
    BlockStartMono(N, DOF_C + cdofs, maxNdofs);
    BlockStartMono(N, DOF_C, DOF_C + cdofs);
    ConcSlotBounds(N, cdofs);
    var top := BlockStart(N, DOF_C + cdofs);
    assert 11 * N <= top <= lm.Length;
    var i := 0;
    while i < N
      invariant 0 <= i <= N
      invariant forall i' :: 0 <= i' < i ==> NodeUnpacked(lm[..], ids, cdofs, i')
      invariant forall p :: top <= p < lm.Length ==> lm[p] == 0
    {
      UnpackNode(lm, ids, cdofs, i);
      i := i + 1;
    }
    assert forall i' :: 0 <= i' < N ==> NodeUnpacked(lm[..], ids, cdofs, i');
  }

  /** The slots of node i in lm hold its IDs as the layout places them. */
  predicate NodeUnpacked(lm: seq<int>, ids: seq<seq<int>>, cdofs: nat, i: nat)
    requires WellFormedIDs(ids, cdofs) && i < |ids| && 11 * |ids| <= |lm|
    requires forall k :: 0 <= k < cdofs ==> ConcSlot(|ids|, k, i) < |lm|
  {
    LinearUnpacked(lm, ids, i) && ConcUnpacked(lm, ids, cdofs, i)
  }

  /** Node i's slots in front of the concentration blocks. */
  predicate LinearUnpacked(lm: seq<int>, ids: seq<seq<int>>, i: nat)
    requires i < |ids| && |ids[i]| > 10 && 11 * |ids| <= |lm|
  {
    var N := |ids|;
    && (forall d :: 0 <= d < 3 ==> lm[DispSlot(i, d)] == Disp(ids, i, d))
    && lm[PressureSlot(N, i)] == ids[i][6]
    && (forall d :: 0 <= d < 3 ==> lm[RotationSlot(N, i, d)] == Rotation(ids, i, d))
    && (forall d :: 0 <= d < 3 ==> lm[FillSlot(N, i, d)] == -1)
    && lm[TenthSlot(N, i)] == ids[i][10]
  }

  /** Node i's concentration slots. */
  predicate ConcUnpacked(lm: seq<int>, ids: seq<seq<int>>, cdofs: nat, i: nat)
    requires i < |ids| && |ids[i]| >= DOF_C + cdofs
    requires forall k :: 0 <= k < cdofs ==> ConcSlot(|ids|, k, i) < |lm|
  {
    forall k :: 0 <= k < cdofs ==> lm[ConcSlot(|ids|, k, i)] == Conc(ids, i, k)
  }

  /** One pass of UnpackLM's node loop: writes node i's slots and no other. */
  method UnpackNode(lm: array<int>, ids: seq<seq<int>>, cdofs: nat, i: nat)
    requires WellFormedIDs(ids, cdofs) && i < |ids|
    requires BlockStart(|ids|, DOF_C + cdofs) <= lm.Length
    modifies lm
    ensures 11 * |ids| <= lm.Length
    ensures forall i', k :: 0 <= i' < |ids| && 0 <= k < cdofs ==> ConcSlot(|ids|, k, i') < lm.Length
    ensures NodeUnpacked(lm[..], ids, cdofs, i)
    ensures forall i' :: 0 <= i' < |ids| && i' != i && old(NodeUnpacked(lm[..], ids, cdofs, i')) ==> NodeUnpacked(lm[..], ids, cdofs, i')
    ensures forall p :: BlockStart(|ids|, DOF_C + cdofs) <= p < lm.Length ==> lm[p] == old(lm[p])
  {
    var N := |ids|;
    BlockStartIsProduct(N, DOF_C);
    BlockStartMono(N, DOF_C, DOF_C + cdofs);
    ConcSlotBounds(N, cdofs);
    ghost var before := lm[..];
    UnpackNodeLinear(lm, ids, cdofs, i);
    ghost var mid := lm[..];
    UnpackConcentrations(lm, ids, i, cdofs);
    LinearUnchanged(mid, lm[..], ids, i);
    forall i' | 0 <= i' < N && i' != i && NodeUnpacked(before, ids, cdofs, i')
      ensures NodeUnpacked(lm[..], ids, cdofs, i')
    {
      OtherNodeKept(before, mid, lm[..], ids, cdofs, i, i');
    }
  }

  /** Writes past the first 11 N slots leave every node's linear slots as they were. */
  lemma LinearUnchanged(mid: seq<int>, after: seq<int>, ids: seq<seq<int>>, i: nat)
    requires i < |ids| && |ids[i]| > 10 && 11 * |ids| <= |mid| == |after|
    requires LinearUnpacked(mid, ids, i)
    requires forall p :: 0 <= p < 11 * |ids| ==> after[p] == mid[p]
    ensures LinearUnpacked(after, ids, i)
  {
  }

  /** Whether p is one of node i's slots outside the concentration blocks. */
  predicate InLinearSlots(N: nat, i: nat, p: int)
  {
    || DispSlot(i, 0) <= p < DispSlot(i, 0) + 3
    || p == PressureSlot(N, i)
    || RotationSlot(N, i, 0) <= p < RotationSlot(N, i, 0) + 3
    || FillSlot(N, i, 0) <= p < FillSlot(N, i, 0) + 3
    || p == TenthSlot(N, i)
  }

  /** Node i' keeps its layout when only node i's slots outside the concentration blocks, and then node i's concentration slots, are written. */
  lemma OtherNodeKept(before: seq<int>, mid: seq<int>, after: seq<int>, ids: seq<seq<int>>, cdofs: nat, i: nat, i': nat)
    requires WellFormedIDs(ids, cdofs) && i < |ids| && i' < |ids| && i != i'
    requires |before| == |mid| == |after| && 11 * |ids| <= |before|
    requires forall k :: 0 <= k < cdofs ==> ConcSlot(|ids|, k, i') < |before|
    requires NodeUnpacked(before, ids, cdofs, i')
    requires forall p :: 0 <= p < |before| && !InLinearSlots(|ids|, i, p) ==> mid[p] == before[p]
    requires forall p :: 0 <= p < 11 * |ids| ==> after[p] == mid[p]
    requires forall k :: 0 <= k < cdofs ==> after[ConcSlot(|ids|, k, i')] == mid[ConcSlot(|ids|, k, i')]
    ensures NodeUnpacked(after, ids, cdofs, i')
  {
    LinearKept(before, mid, after, ids, i, i');
    ConcKept(before, mid, after, ids, cdofs, i, i');
  }

  /** Node i' keeps its slots in front of the concentration blocks. */
  lemma LinearKept(before: seq<int>, mid: seq<int>, after: seq<int>, ids: seq<seq<int>>, i: nat, i': nat)
    requires i < |ids| && i' < |ids| && i != i' && |ids[i']| > 10
    requires |before| == |mid| == |after| && 11 * |ids| <= |before|
    requires LinearUnpacked(before, ids, i')
    requires forall p :: 0 <= p < |before| && !InLinearSlots(|ids|, i, p) ==> mid[p] == before[p]
    requires forall p :: 0 <= p < 11 * |ids| ==> after[p] == mid[p]
    ensures LinearUnpacked(after, ids, i')
  {
  }

  /** Node i' keeps its concentration slots. */
  lemma ConcKept(before: seq<int>, mid: seq<int>, after: seq<int>, ids: seq<seq<int>>, cdofs: nat, i: nat, i': nat)
    requires i < |ids| && i' < |ids| && i != i' && |ids[i']| >= DOF_C + cdofs
    requires |before| == |mid| == |after| && 11 * |ids| <= |before|
    requires forall k :: 0 <= k < cdofs ==> ConcSlot(|ids|, k, i') < |before|
    requires ConcUnpacked(before, ids, cdofs, i')
    requires forall p :: 0 <= p < |before| && !InLinearSlots(|ids|, i, p) ==> mid[p] == before[p]
    requires forall k :: 0 <= k < cdofs ==> after[ConcSlot(|ids|, k, i')] == mid[ConcSlot(|ids|, k, i')]
    ensures ConcUnpacked(after, ids, cdofs, i')
  {
    var N := |ids|;
    BlockStartIsProduct(N, DOF_C);
    forall k | 0 <= k < cdofs
      ensures after[ConcSlot(N, k, i')] == Conc(ids, i', k)
    {
      BlockStartMono(N, DOF_C, DOF_C + k);
    }
  }

  /** The displacement, pressure, rotation, unused and index-10 slots of node i. */
  method UnpackNodeLinear(lm: array<int>, ids: seq<seq<int>>, cdofs: nat, i: nat)
    requires WellFormedIDs(ids, cdofs) && i < |ids| && 11 * |ids| <= lm.Length
    modifies lm
    ensures LinearUnpacked(lm[..], ids, i)
    ensures forall p :: 0 <= p < lm.Length && !InLinearSlots(|ids|, i, p) ==> lm[p] == old(lm[p])
  {
    var N := |ids|;
    PutDispAndPressure(lm, ids, i);
    PutRotationsAndRest(lm, ids, i);
  }

  /** The displacement and pressure slots of node i. */
  method PutDispAndPressure(lm: array<int>, ids: seq<seq<int>>, i: nat)
    requires i < |ids| && |ids[i]| > 10 && 11 * |ids| <= lm.Length
    modifies lm
    ensures forall d :: 0 <= d < 3 ==> lm[DispSlot(i, d)] == ids[i][d]
    ensures lm[PressureSlot(|ids|, i)] == ids[i][6]
    ensures forall p :: 0 <= p < lm.Length && !(DispSlot(i, 0) <= p < DispSlot(i, 0) + 3) && p != PressureSlot(|ids|, i) ==> lm[p] == old(lm[p])
  {
    var id := ids[i];
    PutThree(lm, 3 * i, id[0], id[1], id[2]);
    lm[3 * |ids| + i] := id[6];
  }

  /** Whether p is one of node i's rotation, unused or index-10 slots. */
  predicate InRestSlots(N: nat, i: nat, p: int)
  {
    || RotationSlot(N, i, 0) <= p < RotationSlot(N, i, 0) + 3
    || FillSlot(N, i, 0) <= p < FillSlot(N, i, 0) + 3
    || p == TenthSlot(N, i)
  }

  /** The rotation, unused and index-10 slots of node i. */
  method PutRotationsAndRest(lm: array<int>, ids: seq<seq<int>>, i: nat)
    requires i < |ids| && |ids[i]| > 10 && 11 * |ids| <= lm.Length
    modifies lm
    ensures forall d :: 0 <= d < 3 ==> lm[RotationSlot(|ids|, i, d)] == ids[i][7 + d]
    ensures forall d :: 0 <= d < 3 ==> lm[FillSlot(|ids|, i, d)] == -1
    ensures lm[TenthSlot(|ids|, i)] == ids[i][10]
    ensures forall p :: 0 <= p < lm.Length && !InRestSlots(|ids|, i, p) ==> lm[p] == old(lm[p])
  {
    var N := |ids|;
    var id := ids[i];
    PutThree(lm, 4 * N + 3 * i, id[7], id[8], id[9]);
    PutThree(lm, 7 * N + 3 * i, -1, -1, -1);
    lm[10 * N + i] := id[10];
  }

  /** Writes a, b, c to three consecutive slots from p. */
  method PutThree(lm: array<int>, p: nat, a: int, b: int, c: int)
    requires p + 3 <= lm.Length
    modifies lm
    ensures lm[p] == a && lm[p + 1] == b && lm[p + 2] == c
    ensures forall q :: 0 <= q < lm.Length && !(p <= q < p + 3) ==> lm[q] == old(lm[q])
  {
    lm[p] := a;
    lm[p + 1] := b;
    lm[p + 2] := c;
  }

  /** The inner loop of UnpackLM: the concentration dofs of node i, and nothing else. */
  method UnpackConcentrations(lm: array<int>, ids: seq<seq<int>>, i: nat, cdofs: nat)
    requires i < |ids| && |ids[i]| >= DOF_C + cdofs
    requires BlockStart(|ids|, DOF_C + cdofs) <= lm.Length
    modifies lm
    ensures forall i', k :: 0 <= i' < |ids| && 0 <= k < cdofs ==> ConcSlot(|ids|, k, i') < lm.Length
    ensures forall k :: 0 <= k < cdofs ==> lm[ConcSlot(|ids|, k, i)] == Conc(ids, i, k)
    ensures forall p :: 0 <= p < lm.Length && (p < BlockStart(|ids|, DOF_C) || p >= BlockStart(|ids|, DOF_C + cdofs)) ==> lm[p] == old(lm[p])
    ensures forall i', k :: 0 <= i' < |ids| && i' != i && 0 <= k < cdofs ==> lm[ConcSlot(|ids|, k, i')] == old(lm[ConcSlot(|ids|, k, i')])
  {
    var N := |ids|;
    SlotInjective(N);
    ConcSlotBounds(N, cdofs);
    var k := 0;
    while k < cdofs
      invariant 0 <= k <= cdofs
      invariant forall k' :: 0 <= k' < k ==> lm[ConcSlot(N, k', i)] == Conc(ids, i, k')
      invariant forall p :: 0 <= p < lm.Length && (p < BlockStart(N, DOF_C) || p >= BlockStart(N, DOF_C + cdofs)) ==> lm[p] == old(lm[p])
      invariant forall i', k' :: 0 <= i' < N && i' != i && 0 <= k' < cdofs ==> lm[ConcSlot(N, k', i')] == old(lm[ConcSlot(N, k', i')])
    {
      BlockStartIsProduct(N, DOF_C + k);
      assert (DOF_C + k) * N + i == ConcSlot(N, k, i);
      lm[(DOF_C + k) * N + i] := ids[i][DOF_C + k];
      k := k + 1;
    }
  }

  // ---------------------------------------------------------------------
  // Five dofs per node for the stiffness matrix
  // ---------------------------------------------------------------------

  /** lm lists, node by node, the three displacements, the pressure and concentration dof dofc of elm. */
  predicate IsReordered(lm: seq<int>, elm: seq<int>, N: nat, dofc: nat)
    requires Slot(N, dofc, N) <= |elm| && 4 * N <= |elm|
  {
    && |lm| == 5 * N
    && forall i :: 0 <= i < N ==>
         lm[5 * i] == elm[DispSlot(i, 0)] && lm[5 * i + 1] == elm[DispSlot(i, 1)] && lm[5 * i + 2] == elm[DispSlot(i, 2)]
         && lm[5 * i + 3] == elm[PressureSlot(N, i)] && lm[5 * i + 4] == elm[Slot(N, dofc, i)]
  }

  method StiffnessLM(elm: seq<int>, neln: nat, dofc: nat) returns (lm: seq<int>)
    requires Slot(neln, dofc, neln) <= |elm| && 4 * neln <= |elm|
    ensures IsReordered(lm, elm, neln, dofc)
  {
    BlockStartIsProduct(neln, dofc);
    var a := new int[5 * neln];
    var i := 0;
    while i < neln
      invariant 0 <= i <= neln
      invariant forall i' :: 0 <= i' < i ==>
        a[5 * i'] == elm[DispSlot(i', 0)] && a[5 * i' + 1] == elm[DispSlot(i', 1)] && a[5 * i' + 2] == elm[DispSlot(i', 2)]
        && a[5 * i' + 3] == elm[PressureSlot(neln, i')] && a[5 * i' + 4] == elm[Slot(neln, dofc, i')]
    {
      a[5 * i] := elm[3 * i];
      a[5 * i + 1] := elm[3 * i + 1];
      a[5 * i + 2] := elm[3 * i + 2];
      a[5 * i + 3] := elm[3 * neln + i];
      a[5 * i + 4] := elm[dofc * neln + i];
      i := i + 1;
    }
    lm := a[..];
  }

  /**
   * Re-ordering the location vector of a solute with concentration dof
   * dofc gives each node's five equation IDs together, straight from its ID
   * vector: displacements 0..2, pressure (index 6) and the solute's concentration.
   */
  lemma ReorderedIsNodeMajor(ids: seq<seq<int>>, cdofs: nat, elm: seq<int>, lm: seq<int>, dofc: nat, i: nat)
    requires WellFormedIDs(ids, cdofs) && IsUnpacked(elm, ids, cdofs)
    requires DOF_C <= dofc < DOF_C + cdofs && i < |ids|
    requires Slot(|ids|, dofc, |ids|) <= |elm| && 4 * |ids| <= |elm|
    requires IsReordered(lm, elm, |ids|, dofc)
    ensures lm[5 * i .. 5 * i + 5] == [ids[i][0], ids[i][1], ids[i][2], ids[i][6], ids[i][dofc]]
  {
    var N := |ids|;
    assert NodeUnpacked(elm, ids, cdofs, i);
    assert elm[DispSlot(i, 0)] == Disp(ids, i, 0);
    assert elm[DispSlot(i, 1)] == Disp(ids, i, 1);
    assert elm[DispSlot(i, 2)] == Disp(ids, i, 2);
    assert elm[ConcSlot(N, dofc - DOF_C, i)] == Conc(ids, i, dofc - DOF_C);
  }

  // ---------------------------------------------------------------------
  // Scatter of element residuals
  // ---------------------------------------------------------------------

  /** R after adding fe[j] into R[eqs[j]] for each j in turn, skipping negative equation numbers. */
  function Scatter(R: seq<real>, eqs: seq<int>, fe: seq<real>): (r: seq<real>)
    requires |eqs| == |fe| && forall j :: 0 <= j < |eqs| ==> eqs[j] < |R|
    ensures |r| == |R|
  {
    if eqs == [] then R
    else
      var n := |eqs| - 1;
      var r0 := Scatter(R, eqs[..n], fe[..n]);
      if eqs[n] >= 0 then r0[eqs[n] := r0[eqs[n]] + fe[n]] else r0
  }

  /** Entries of R that the element does not reference keep their value. */
  lemma {:induction false} ScatterLeavesOthers(R: seq<real>, eqs: seq<int>, fe: seq<real>, J: nat)
    requires |eqs| == |fe| && forall j :: 0 <= j < |eqs| ==> eqs[j] < |R|
    requires J < |R| && forall j :: 0 <= j < |eqs| ==> eqs[j] != J
    ensures Scatter(R, eqs, fe)[J] == R[J]
    decreases |eqs|
  {
    if eqs != [] {
      var n := |eqs| - 1;
      ScatterLeavesOthers(R, eqs[..n], fe[..n], J);
    }
  }

  /** With distinct equation numbers, each referenced entry gains exactly its element value. */
  lemma {:induction false} ScatterAddsOnce(R: seq<real>, eqs: seq<int>, fe: seq<real>, j: nat)
    requires |eqs| == |fe| && forall k :: 0 <= k < |eqs| ==> eqs[k] < |R|
    requires forall k, l :: 0 <= k < l < |eqs| ==> eqs[k] != eqs[l]
    requires j < |eqs| && eqs[j] >= 0
    ensures Scatter(R, eqs, fe)[eqs[j]] == R[eqs[j]] + fe[j]
    decreases |eqs|
  {
    var n := |eqs| - 1;
    if j == n {
      ScatterLeavesOthers(R, eqs[..n], fe[..n], eqs[j]);
    } else {
      ScatterAddsOnce(R, eqs[..n], fe[..n], j);
    }
  }

  /** Equation numbers of block b of the location vector, one per node. */
  function BlockOf(elm: seq<int>, N: nat, b: nat): (r: seq<int>)
    requires Slot(N, b, N) <= |elm|
    ensures |r| == N && forall j :: 0 <= j < N ==> r[j] == elm[Slot(N, b, j)]
  {
    elm[BlockStart(N, b) .. BlockStart(N, b) + N]
  }

  /**
   * Adds the element's work fe into R through the equation numbers of one
   * block of elm: block 3 (pressure) for the fluid work, block dofc for the
   * solute work. Negative equation numbers are skipped.
   */
  method ScatterAdd(R: array<real>, elm: seq<int>, fe: seq<real>, b: nat)
    requires Slot(|fe|, b, |fe|) <= |elm|
    requires forall j :: 0 <= j < |fe| ==> elm[Slot(|fe|, b, j)] < R.Length
    modifies R
    ensures R[..] == Scatter(old(R[..]), BlockOf(elm, |fe|, b), fe)
  {
    var neln := |fe|;
    var eqs := BlockOf(elm, neln, b);
    BlockStartIsProduct(neln, b);
    var j := 0;
    while j < neln
      invariant 0 <= j <= neln
      invariant R[..] == Scatter(old(R[..]), eqs[..j], fe[..j])
    {
      var J := elm[b * neln + j];
      assert J == eqs[j];
      assert eqs[..j + 1][..j] == eqs[..j] && fe[..j + 1][..j] == fe[..j];
      if J >= 0 {
        R[J] := R[J] + fe[j];
      }
      j := j + 1;
    }
    assert eqs[..neln] == eqs && fe[..neln] == fe;
  }

  // ---------------------------------------------------------------------
  // Symmetrisation of element matrices
  // ---------------------------------------------------------------------

  /** The contents of a two-dimensional array, row by row. */
  function Rows(a: array2<real>): (r: seq<seq<real>>)
    reads a
    ensures |r| == a.Length0 && forall i :: 0 <= i < a.Length0 ==> |r[i]| == a.Length1
    ensures forall i, j :: 0 <= i < a.Length0 && 0 <= j < a.Length1 ==> r[i][j] == a[i, j]
  {
    seq(a.Length0, i requires 0 <= i < a.Length0 reads a => seq(a.Length1, j requires 0 <= j < a.Length1 reads a => a[i, j]))
  }

  /** The leading n by n block of K is symmetric. */
  predicate SymmetricBlock(K: seq<seq<real>>, n: nat)
    requires n <= |K| && forall i :: 0 <= i < |K| ==> n <= |K[i]|
  {
    forall i, j :: 0 <= i < n && 0 <= j < n ==> K[i][j] == K[j][i]
  }

  /** The leading n by n block with its lower triangle replaced by the mirrored upper triangle. */
  function UpperMirrored(K: seq<seq<real>>, n: nat): (r: seq<seq<real>>)
    requires n <= |K| && forall i :: 0 <= i < |K| ==> n <= |K[i]|
    ensures |r| == |K| && forall i :: 0 <= i < |K| ==> |r[i]| == |K[i]|
    ensures forall i, j :: 0 <= i < |K| && 0 <= j < |K[i]| ==>
      r[i][j] == if i < n && j < i then K[j][i] else K[i][j]
  {
    seq(|K|, i requires 0 <= i < |K| =>
      seq(|K[i]|, j requires 0 <= j < |K[i]| => if i < n && j < i then K[j][i] else K[i][j]))
  }

  /** Mirroring makes the block symmetric and keeps the upper triangle, which is all the element routines fill in. */
  lemma UpperMirroredIsSymmetric(K: seq<seq<real>>, n: nat)
    requires n <= |K| && forall i :: 0 <= i < |K| ==> n <= |K[i]|
    ensures SymmetricBlock(UpperMirrored(K, n), n)
    ensures forall i, j :: 0 <= i <= j < n ==> UpperMirrored(K, n)[i][j] == K[i][j]
    ensures SymmetricBlock(K, n) ==> UpperMirrored(K, n) == K
  {
    var r := UpperMirrored(K, n);
    if SymmetricBlock(K, n) {
      forall i | 0 <= i < |K|
        ensures r[i] == K[i]
      {
      }
    }
  }

  /** Copies the upper triangle of the leading ndof by ndof block into the lower one. */
  method CopyUpperToLower(ke: array2<real>, ndof: nat)
    requires ndof <= ke.Length0 && ndof <= ke.Length1
    modifies ke
    ensures Rows(ke) == UpperMirrored(old(Rows(ke)), ndof)
  {
    ghost var K := Rows(ke);
    var i := 0;
    while i < ndof
      invariant 0 <= i <= ndof
      invariant forall r, c :: 0 <= r < ke.Length0 && 0 <= c < ke.Length1 ==>
        ke[r, c] == if r < ndof && c < r && c < i then K[c][r] else K[r][c]
    {
      var j := i + 1;
      while j < ndof
        invariant i + 1 <= j <= ndof || j == i + 1
        invariant forall r, c :: 0 <= r < ke.Length0 && 0 <= c < ke.Length1 ==>
          ke[r, c] == if r < ndof && c < r && (c < i || (c == i && r < j)) then K[c][r] else K[r][c]
      {
        ke[j, i] := ke[i, j];
        j := j + 1;
      }
      i := i + 1;
    }
    ghost var after := Rows(ke);
    ghost var want := UpperMirrored(K, ndof);
    forall r | 0 <= r < ke.Length0
      ensures after[r] == want[r]
    {
    }
  }

  /** The leading n by n block with each off-diagonal pair replaced by its average. */
  function Averaged(K: seq<seq<real>>, n: nat): (r: seq<seq<real>>)
    requires n <= |K| && forall i :: 0 <= i < |K| ==> n <= |K[i]|
    ensures |r| == |K| && forall i :: 0 <= i < |K| ==> |r[i]| == |K[i]|
    ensures forall i, j :: 0 <= i < |K| && 0 <= j < |K[i]| ==>
      r[i][j] == if i < n && j < n && i != j then 0.5 * (K[i][j] + K[j][i]) else K[i][j]
  {
    seq(|K|, i requires 0 <= i < |K| =>
      seq(|K[i]|, j requires 0 <= j < |K[i]| => if i < n && j < n && i != j then 0.5 * (K[i][j] + K[j][i]) else K[i][j]))
  }

  /** Averaging makes the block symmetric, keeps its diagonal, and changes nothing in a block already symmetric. */
  lemma AveragedIsSymmetric(K: seq<seq<real>>, n: nat)
    requires n <= |K| && forall i :: 0 <= i < |K| ==> n <= |K[i]|
    ensures SymmetricBlock(Averaged(K, n), n)
    ensures forall i :: 0 <= i < n ==> Averaged(K, n)[i][i] == K[i][i]
    ensures SymmetricBlock(K, n) ==> Averaged(K, n) == K
  {
    var r := Averaged(K, n);
    if SymmetricBlock(K, n) {
      forall i | 0 <= i < |K|
        ensures r[i] == K[i]
      {
      }
    }
  }

  /** Replaces each off-diagonal pair of the leading n by n block by its average. */
  method AverageSymmetrise(ke: array2<real>, n: nat)
    requires n <= ke.Length0 && n <= ke.Length1
    modifies ke
    ensures Rows(ke) == Averaged(old(Rows(ke)), n)
  {
    ghost var K := Rows(ke);
    var i := 0;
    while i < n
      invariant 0 <= i <= n
      invariant forall r, c :: 0 <= r < ke.Length0 && 0 <= c < ke.Length1 ==>
        ke[r, c] == if r < n && c < n && r != c && (r < i || c < i) then 0.5 * (K[r][c] + K[c][r]) else K[r][c]
    {
      var j := i + 1;
      while j < n
        invariant i + 1 <= j <= n || j == i + 1
        invariant forall r, c :: 0 <= r < ke.Length0 && 0 <= c < ke.Length1 ==>
          ke[r, c] == if r < n && c < n && r != c && (r < i || c < i || (r == i && c < j) || (c == i && r < j))
            then 0.5 * (K[r][c] + K[c][r]) else K[r][c]
      {
        var tmp := 0.5 * (ke[i, j] + ke[j, i]);
        ke[i, j] := tmp;
        ke[j, i] := tmp;
        j := j + 1;
      }
      i := i + 1;
    }
    ghost var after := Rows(ke);
    ghost var want := Averaged(K, n);
    forall r | 0 <= r < ke.Length0
      ensures after[r] == want[r]
    {
    }
  }

  // ---------------------------------------------------------------------
  // Stress update
  // ---------------------------------------------------------------------

  /** How one element's stress update ends. */
  datatype ElementUpdate = Updated | NegativeJacobian

  /** Whether any element update hit a negative Jacobian. */
  function AnyNegativeJacobian(outcomes: seq<ElementUpdate>): (r: bool)
    ensures r <==> exists e :: 0 <= e < |outcomes| && outcomes[e] == NegativeJacobian
  {
    if outcomes == [] then false
    else AnyNegativeJacobian(outcomes[..|outcomes| - 1]) || outcomes[|outcomes| - 1] == NegativeJacobian
  }

  /**
   * Updates every element in turn, where outcomes[e] is how element e's
   * update ends; a negative Jacobian is recorded and the loop goes on. The
   * result is whether one running restart is requested.
   */
  method UpdateStresses(outcomes: seq<ElementUpdate>) returns (visited: seq<nat>, restart: bool)
    ensures visited == seq(|outcomes|, e requires 0 <= e < |outcomes| => e)
    ensures restart <==> exists e :: 0 <= e < |outcomes| && outcomes[e] == NegativeJacobian
  {
    var err := false;
    visited := [];
    var e := 0;
    while e < |outcomes|
      invariant 0 <= e <= |outcomes|
      invariant visited == seq(e, k requires 0 <= k < e => k)
      invariant err <==> exists k :: 0 <= k < e && outcomes[k] == NegativeJacobian
    {
      visited := visited + [e];
      if outcomes[e] == NegativeJacobian {
        err := true;
      }
      e := e + 1;
    }
    restart := err;
  }
}
