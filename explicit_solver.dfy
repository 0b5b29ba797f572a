/**
 * The bookkeeping of the explicit solid solver: equation numbering and the
 * equation-ID code, checkpointing of the counters, the exception-to-result
 * mapping of a step, the per-step state snapshot and accumulation, and the
 * lumped element mass.
 */
module ExplicitSolver {
  import opened Common
  import LinAlg

  // ---------------------------------------------------------------------
  // The equation-ID code
  // ---------------------------------------------------------------------

  /** What a dof ID says about its degree of freedom. */
  datatype DofState = Free(eq: nat) | Fixed | Constrained(eq: nat)

  /** Writes a dof state as an ID: >= 0 free, -1 fixed, < -1 constrained to -ID-2. */
  function EncodeID(d: DofState): int
  {
    match d
    case Free(n) => n
    case Fixed => -1
    case Constrained(n) => -(n as int) - 2
  }

  /** Reads an ID; encoding the reading gives the ID back. */
  function DecodeID(id: int): (d: DofState)
    ensures EncodeID(d) == id
    ensures id >= 0 <==> d.Free?
    ensures id == -1 <==> d.Fixed?
  {
    if id >= 0 then Free(id) else if id == -1 then Fixed else Constrained(-id - 2)
  }

  /** Decoding an encoded state recovers it: the code is a bijection. */
  lemma DecodeEncode(d: DofState)
    ensures DecodeID(EncodeID(d)) == d
  {
    match d
    case Free(n) =>
    case Fixed =>
    case Constrained(n) => assert EncodeID(d) < -1;
  }

  /** The reference -LM-2 a node takes from a rigid-body dof. */
  function RefTo(lm: int): int
  {
    -lm - 2
  }

  /** An unnumbered body dof (-1) makes the node dof fixed; a numbered one constrains it to that equation. */
  lemma RefToDecodes(lm: int)
    requires lm >= -1
    ensures lm == -1 ==> DecodeID(RefTo(lm)) == Fixed
    ensures lm >= 0 ==> DecodeID(RefTo(lm)) == Constrained(lm)
  {
  }

  // ---------------------------------------------------------------------
  // Counting non-negative entries
  // ---------------------------------------------------------------------

  /** The number of entries of s that are >= 0. */
  function CountFree(s: seq<int>): nat
  {
    if s == [] then 0 else CountFree(s[..|s| - 1]) + (if s[|s| - 1] >= 0 then 1 else 0)
  }

  /** There are never more free dofs than dofs. */
  lemma {:induction false} CountFreeBound(s: seq<int>)
    ensures CountFree(s) <= |s|
    decreases |s|
  {
    if s != [] {
      CountFreeBound(s[..|s| - 1]);
    }
  }

  lemma CountFreeStep(s: seq<int>, k: nat)
    requires k < |s|
    ensures CountFree(s[..k + 1]) == CountFree(s[..k]) + (if s[k] >= 0 then 1 else 0)
  {
    assert s[..k + 1][..k] == s[..k];
  }

  /** The count over a prefix grows with the prefix, strictly past a non-negative entry. */
  lemma {:induction false} CountFreeMono(s: seq<int>, i: nat, j: nat)
    requires i <= j <= |s|
    ensures CountFree(s[..i]) <= CountFree(s[..j])
    ensures i < j && s[i] >= 0 ==> CountFree(s[..i]) < CountFree(s[..j])
    decreases j - i
  {
    if i < j {
      CountFreeStep(s, j - 1);
      CountFreeMono(s, i, j - 1);
      if i == j - 1 {
        assert CountFree(s[..j]) == CountFree(s[..i]) + (if s[i] >= 0 then 1 else 0);
      }
    }
  }

  /** Every count below the total is reached exactly at some non-negative entry. */
  lemma {:induction false} CountFreeOnto(s: seq<int>, e: nat)
    requires e < CountFree(s)
    ensures exists k :: 0 <= k < |s| && s[k] >= 0 && CountFree(s[..k]) == e
    decreases |s|
  {
    var t := s[..|s| - 1];
    assert s[..|s| - 1] == t;
    if e < CountFree(t) {
      CountFreeOnto(t, e);
      var k :| 0 <= k < |t| && t[k] >= 0 && CountFree(t[..k]) == e;
      assert t[..k] == s[..k];
      assert s[k] >= 0 && CountFree(s[..k]) == e;
    } else {
      assert s[|s| - 1] >= 0 && CountFree(s[..|s| - 1]) == e;
    }
  }

  // ---------------------------------------------------------------------
  // Stage 1: free dofs
  // ---------------------------------------------------------------------

  /** All node ID vectors one after the other: node-major, dof-minor order. */
  function Flatten(ids: seq<seq<int>>): seq<int>
  {
    if ids == [] then [] else Flatten(ids[..|ids| - 1]) + ids[|ids| - 1]
  }

  /**
   * The IDs after numbering from start: the k-th entry that is >= 0 gets
   * equation start + k in order; negative entries stay.
   */
  function Number(s: seq<int>, start: nat): seq<int>
  {
    seq(|s|, k requires 0 <= k < |s| => if s[k] >= 0 then start + CountFree(s[..k]) else s[k])
  }

  /** The equation numbers given to the entries that are >= 0. */
  function FreeNumbers(s: seq<int>, start: nat): set<int>
  {
    set k | 0 <= k < |s| && s[k] >= 0 :: Number(s, start)[k]
  }

  /** The free numbers are dense, in order, and onto [start, start + CountFree(s)); other entries are untouched. */
  lemma NumberIsDense(s: seq<int>, start: nat)
    ensures |Number(s, start)| == |s|
    ensures forall k :: 0 <= k < |s| && s[k] >= 0 ==> start <= Number(s, start)[k] < start + CountFree(s)
    ensures forall k1, k2 :: 0 <= k1 < k2 < |s| && s[k1] >= 0 && s[k2] >= 0 ==> Number(s, start)[k1] < Number(s, start)[k2]
    ensures forall e :: start <= e < start + CountFree(s) ==> e in FreeNumbers(s, start)
    ensures forall k :: 0 <= k < |s| && s[k] < 0 ==> Number(s, start)[k] == s[k]
  {
    forall k | 0 <= k < |s| && s[k] >= 0
      ensures Number(s, start)[k] < start + CountFree(s)
    {
      CountFreeMono(s, k, |s|);
      assert s[..|s|] == s;
    }
    forall k1, k2 | 0 <= k1 < k2 < |s| && s[k1] >= 0 && s[k2] >= 0
      ensures Number(s, start)[k1] < Number(s, start)[k2]
    {
      CountFreeMono(s, k1, k2);
    }
    forall e | start <= e < start + CountFree(s)
      ensures e in FreeNumbers(s, start)
    {
      CountFreeOnto(s, e - start);
      var k :| 0 <= k < |s| && s[k] >= 0 && CountFree(s[..k]) == e - start;
      assert Number(s, start)[k] == e;
    }
  }

  /** Counting over a concatenation adds the counts. */
  lemma {:induction false} CountFreeAppend(a: seq<int>, b: seq<int>)
    ensures CountFree(a + b) == CountFree(a) + CountFree(b)
    decreases |b|
  {
    if b == [] {
      assert a + b == a;
    } else {
      var c := b[..|b| - 1];
      assert (a + b)[..|a + b| - 1] == a + c;
      CountFreeAppend(a, c);
    }
  }

  /** Numbering a concatenation numbers the second part from where the first ends. */
  lemma NumberAppend(x: seq<int>, y: seq<int>, start: nat)
    ensures Number(x + y, start) == Number(x, start) + Number(y, start + CountFree(x))
  {
    forall k | 0 <= k < |x + y|
      ensures Number(x + y, start)[k] == (Number(x, start) + Number(y, start + CountFree(x)))[k]
    {
      if k < |x| {
        assert (x + y)[..k] == x[..k];
      } else {
        NumberAppendAt(x, y, start, k);
      }
    }
  }

  /** One entry of the second part of a numbered concatenation. */
  lemma NumberAppendAt(x: seq<int>, y: seq<int>, start: nat, k: nat)
    requires |x| <= k < |x| + |y|
    ensures Number(x + y, start)[k] == Number(y, start + CountFree(x))[k - |x|]
  {
    var j := k - |x|;
    CountFreeAppendPrefix(x, y, j);
    NumberAt(x + y, start, k);
    NumberAt(y, start + CountFree(x), j);
  }

  /** The count over a prefix reaching into the second part of a concatenation. */
  lemma CountFreeAppendPrefix(x: seq<int>, y: seq<int>, j: nat)
    requires j < |y|
    ensures (x + y)[|x| + j] == y[j]
    ensures CountFree((x + y)[..|x| + j]) == CountFree(x) + CountFree(y[..j])
  {
    assert (x + y)[..|x| + j] == x + y[..j];
    CountFreeAppend(x, y[..j]);
  }

  /** One entry of a numbering. */
  lemma NumberAt(s: seq<int>, start: nat, k: nat)
    requires k < |s|
    ensures Number(s, start)[k] == if s[k] >= 0 then start + CountFree(s[..k]) else s[k]
  {
  }

  lemma FlattenSnoc(xs: seq<seq<int>>, i: nat)
    requires i < |xs|
    ensures Flatten(xs[..i + 1]) == Flatten(xs[..i]) + xs[i]
  {
    assert xs[..i + 1][..i] == xs[..i];
  }

  /** Numbers the free dofs of one node from start; returns the next free equation. */
  method NumberNodeDofs(row: seq<int>, start: nat) returns (r: seq<int>, next: nat)
    ensures r == Number(row, start)
    ensures next == start + CountFree(row)
  {
    r := row;
    next := start;
    var j := 0;
    while j < |row|
      invariant 0 <= j <= |row| == |r|
      invariant forall m :: 0 <= m < j ==> r[m] == Number(row, start)[m]
      invariant forall m :: j <= m < |row| ==> r[m] == row[m]
      invariant next == start + CountFree(row[..j])
    {
      CountFreeStep(row, j);
      if r[j] >= 0 {
        r := r[j := next];
        next := next + 1;
      }
      j := j + 1;
    }
    assert row[..|row|] == row;
  }

  /** The numbering of each node, from where the nodes before it stopped. */
  predicate NumberedNodeByNode(s: seq<seq<int>>, t: seq<seq<int>>)
  {
    |t| == |s| && forall i :: 0 <= i < |s| ==> t[i] == Number(s[i], CountFree(Flatten(s[..i])))
  }

  lemma NumberedPrefix(s: seq<seq<int>>, t: seq<seq<int>>, n: nat)
    requires NumberedNodeByNode(s, t) && n <= |s|
    ensures NumberedNodeByNode(s[..n], t[..n])
  {
    forall i | 0 <= i < n
      ensures t[..n][i] == Number(s[..n][i], CountFree(Flatten(s[..n][..i])))
    {
      assert s[..n][..i] == s[..i];
    }
  }

  /** Numbering node by node is numbering the whole table in node-major, dof-minor order. */
  lemma {:induction false} NodeByNodeIsNodeMajor(s: seq<seq<int>>, t: seq<seq<int>>)
    requires NumberedNodeByNode(s, t)
    ensures Flatten(t) == Number(Flatten(s), 0)
    decreases |s|
  {
    if s != [] {
      var n := |s| - 1;
      NumberedPrefix(s, t, n);
      NodeByNodeIsNodeMajor(s[..n], t[..n]);
      NodeByNodeSnoc(s, t);
    }
  }

  /** The last node's numbering extends the node-major numbering of the nodes before it. */
  lemma NodeByNodeSnoc(s: seq<seq<int>>, t: seq<seq<int>>)
    requires NumberedNodeByNode(s, t) && s != []
    requires Flatten(t[..|s| - 1]) == Number(Flatten(s[..|s| - 1]), 0)
    ensures Flatten(t) == Number(Flatten(s), 0)
  {
    var n := |s| - 1;
    var a := Flatten(s[..n]);
    assert Flatten(t) == Flatten(t[..n]) + t[n] by {
      FlattenSnoc(t, n);
      assert t[..n + 1] == t;
    }
    assert Flatten(s) == a + s[n] by {
      FlattenSnoc(s, n);
      assert s[..n + 1] == s;
    }
    assert t[n] == Number(s[n], CountFree(a));
    NumberAppend(a, s[n], 0);
  }

  /** Numbers the free dofs of every node in place, node by node; returns their count. */
  method NumberFreeDofs(ids: array<seq<int>>) returns (neq: nat)
    modifies ids
    ensures NumberedNodeByNode(old(ids[..]), ids[..])
    ensures neq == CountFree(Flatten(old(ids[..])))
  {
    ghost var s := ids[..];
    neq := 0;
    var i := 0;
    while i < ids.Length
      invariant 0 <= i <= ids.Length
      invariant forall m :: 0 <= m < i ==> ids[m] == Number(s[m], CountFree(Flatten(s[..m])))
      invariant forall m :: i <= m < ids.Length ==> ids[m] == s[m]
      invariant neq == CountFree(Flatten(s[..i]))
    {
      var row, next := NumberNodeDofs(ids[i], neq);
      ids[i] := row;
      FlattenSnoc(s, i);
      CountFreeAppend(Flatten(s[..i]), s[i]);
      neq := next;
      i := i + 1;
    }
    assert s == s[..ids.Length];
  }

  // ---------------------------------------------------------------------
  // Stage 2: rigid-body dofs
  // ---------------------------------------------------------------------

  /**
   * The LM table of the rigid bodies (six dofs per body, body-major): a dof
   * with BC >= 0 gets the next equation from start, the others -1.
   */
  function RigidNumbers(bc: seq<int>, start: nat): seq<int>
  {
    seq(|bc|, k requires 0 <= k < |bc| => if bc[k] >= 0 then start + CountFree(bc[..k]) else -1)
  }

  /** Rigid numbers fill [start, start + CountFree(bc)) in order; other dofs get -1. */
  lemma RigidNumbersRange(bc: seq<int>, start: nat)
    ensures |RigidNumbers(bc, start)| == |bc|
    ensures forall k :: 0 <= k < |bc| && bc[k] >= 0 ==> start <= RigidNumbers(bc, start)[k] < start + CountFree(bc)
    ensures forall k :: 0 <= k < |bc| && bc[k] < 0 ==> RigidNumbers(bc, start)[k] == -1
    ensures forall k1, k2 :: 0 <= k1 < k2 < |bc| && bc[k1] >= 0 && bc[k2] >= 0 ==>
      RigidNumbers(bc, start)[k1] < RigidNumbers(bc, start)[k2]
    ensures forall e :: start <= e < start + CountFree(bc) ==> e in FreeNumbers(bc, start)
  {
    NumberIsDense(bc, start);
    assert forall k :: 0 <= k < |bc| && bc[k] >= 0 ==> RigidNumbers(bc, start)[k] == Number(bc, start)[k];
  }

  /** Numbers the rigid-body dofs from start on; returns the new equation count. */
  method NumberRigidDofs(bc: seq<int>, lm: array<int>, start: nat) returns (neq: nat)
    requires lm.Length == |bc|
    modifies lm
    ensures lm[..] == RigidNumbers(bc, start)
    ensures neq == start + CountFree(bc)
  {
    neq := start;
    var k := 0;
    while k < lm.Length
      invariant 0 <= k <= lm.Length
      invariant forall m :: 0 <= m < k ==> lm[m] == RigidNumbers(bc, start)[m]
      invariant neq == start + CountFree(bc[..k])
    {
      CountFreeStep(bc, k);
      if bc[k] >= 0 {
        lm[k] := neq;
        neq := neq + 1;
      } else {
        lm[k] := -1;
      }
      k := k + 1;
    }
    assert bc[..lm.Length] == bc;
  }

  // ---------------------------------------------------------------------
  // Stage 3: nodes attached to a rigid body
  // ---------------------------------------------------------------------

  const DOF_X: nat := 0
  const DOF_Y: nat := 1
  const DOF_Z: nat := 2
  const DOF_RU: nat := 7
  const DOF_RV: nat := 8
  const DOF_RW: nat := 9

  /** Which of a body's six dofs a node dof takes its reference from. */
  function RigidSlot(j: nat): (r: Option<nat>)
    ensures r.Some? ==> r.value < 6
    ensures r.Some? <==> j in {DOF_X, DOF_Y, DOF_Z, DOF_RU, DOF_RV, DOF_RW}
  {
    if j == DOF_X then Some(0)
    else if j == DOF_Y then Some(1)
    else if j == DOF_Z then Some(2)
    else if j == DOF_RU then Some(3)
    else if j == DOF_RV then Some(4)
    else if j == DOF_RW then Some(5)
    else None
  }

  /** A node dof after attachment: rigid slots of a rigid node refer to the body's LM, the rest stay. */
  function Attached(old_id: int, rid: int, lm: seq<int>, j: nat): int
    requires rid >= 0 ==> 6 * rid + 5 < |lm|
  {
    if rid >= 0 && RigidSlot(j).Some? then RefTo(lm[6 * rid + RigidSlot(j).value]) else old_id
  }

  /** Points the six rigid dofs of every node attached to a body at the body's equations. */
  method AttachRigidNodes(ids: array<seq<int>>, rid: seq<int>, lm: seq<int>)
    requires ids.Length == |rid|
    requires forall i :: 0 <= i < |rid| && rid[i] >= 0 ==> DOF_RW < |ids[i]| && 6 * rid[i] + 5 < |lm|
    modifies ids
    ensures forall i :: 0 <= i < |rid| ==> |ids[i]| == |old(ids[i])|
    ensures forall i, j :: 0 <= i < |rid| && 0 <= j < |ids[i]| ==>
      ids[i][j] == Attached(old(ids[i][j]), rid[i], lm, j)
  {
    ghost var s := ids[..];
    var i := 0;
    while i < ids.Length
      invariant 0 <= i <= ids.Length
      invariant forall m :: 0 <= m < |rid| ==> |ids[m]| == |s[m]|
      invariant forall m, j :: 0 <= m < i && 0 <= j < |ids[m]| ==> ids[m][j] == Attached(s[m][j], rid[m], lm, j)
      invariant forall m :: i <= m < ids.Length ==> ids[m] == s[m]
    {
      var b := rid[i];
      if b >= 0 {
        ids[i] := ids[i][DOF_X := RefTo(lm[6 * b])][DOF_Y := RefTo(lm[6 * b + 1])][DOF_Z := RefTo(lm[6 * b + 2])]
          [DOF_RU := RefTo(lm[6 * b + 3])][DOF_RV := RefTo(lm[6 * b + 4])][DOF_RW := RefTo(lm[6 * b + 5])];
      }
      i := i + 1;
    }
  }

  // ---------------------------------------------------------------------
  // Stage 4: prescribed rigid dofs
  // ---------------------------------------------------------------------

  /** The LM table after the dofs with BC > 0 are re-encoded as -LM-2; the others stay. */
  function Reencode(lm: seq<int>, bc: seq<int>): seq<int>
    requires |lm| == |bc|
  {
    seq(|lm|, k requires 0 <= k < |lm| => if bc[k] > 0 then RefTo(lm[k]) else lm[k])
  }

  /** Re-encodes the prescribed rigid dofs in place. */
  method ReencodePrescribed(bc: seq<int>, lm: array<int>)
    requires lm.Length == |bc|
    modifies lm
    ensures lm[..] == Reencode(old(lm[..]), bc)
  {
    ghost var s := lm[..];
    var k := 0;
    while k < lm.Length
      invariant 0 <= k <= lm.Length
      invariant forall m :: 0 <= m < k ==> lm[m] == Reencode(s, bc)[m]
      invariant forall m :: k <= m < lm.Length ==> lm[m] == s[m]
    {
      var n := lm[k];
      if bc[k] > 0 {
        lm[k] := -n - 2;
      }
      k := k + 1;
    }
  }

  /**
   * What the rigid-body LM table ends up saying: a dof with BC < 0 is fixed,
   * BC == 0 is free with an equation in [nreq, neq), and BC > 0 is
   * constrained to such an equation, which still counts in neq.
   */
  lemma RigidTableDecodes(bc: seq<int>, nreq: nat, k: nat)
    requires k < |bc|
    ensures bc[k] >= 0 ==> nreq <= RigidNumbers(bc, nreq)[k] < nreq + CountFree(bc)
    ensures bc[k] < 0 ==> DecodeID(Reencode(RigidNumbers(bc, nreq), bc)[k]) == Fixed
    ensures bc[k] == 0 ==> DecodeID(Reencode(RigidNumbers(bc, nreq), bc)[k]).Free?
    ensures bc[k] > 0 ==> DecodeID(Reencode(RigidNumbers(bc, nreq), bc)[k]).Constrained?
    ensures bc[k] >= 0 ==> DecodeID(Reencode(RigidNumbers(bc, nreq), bc)[k]).eq == RigidNumbers(bc, nreq)[k]
  {
    RigidNumbersRange(bc, nreq);
    if bc[k] > 0 {
      RefToDecodes(RigidNumbers(bc, nreq)[k]);
    }
  }

  /**
   * A dof of a node attached to body b refers to the body dof's equation
   * number as it was before the prescribed dofs were re-encoded: fixed when
   * the body dof has BC < 0, otherwise constrained to an equation in
   * [nreq, neq), whatever its BC.
   */
  lemma AttachedNodeDecodes(bc: seq<int>, nreq: nat, old_id: int, b: nat, j: nat)
    requires 6 * b + 5 < |bc|
    requires RigidSlot(j).Some?
    ensures bc[6 * b + RigidSlot(j).value] < 0 ==>
      DecodeID(Attached(old_id, b, RigidNumbers(bc, nreq), j)) == Fixed
    ensures bc[6 * b + RigidSlot(j).value] >= 0 ==>
      DecodeID(Attached(old_id, b, RigidNumbers(bc, nreq), j))
      == Constrained(RigidNumbers(bc, nreq)[6 * b + RigidSlot(j).value])
    ensures bc[6 * b + RigidSlot(j).value] >= 0 ==>
      nreq <= RigidNumbers(bc, nreq)[6 * b + RigidSlot(j).value] < nreq + CountFree(bc)
  {
    RigidNumbersRange(bc, nreq);
    RefToDecodes(RigidNumbers(bc, nreq)[6 * b + RigidSlot(j).value]);
  }

  // ---------------------------------------------------------------------
  // Checkpoint stream
  // ---------------------------------------------------------------------

  /** The seven counters the solver checkpoints. */
  datatype Counters = Counters(nrhs: int, niter: int, nref: int, ntotref: int, naug: int, neq: int, nreq: int)

  /** The order in which the counters are written; reading them back restores them. */
  function SaveOrder(c: Counters): (w: seq<int>)
    ensures |w| == 7
    ensures LoadOrder(w) == c
  {
    [c.nrhs, c.niter, c.nref, c.ntotref, c.naug, c.neq, c.nreq]
  }

  /** The order in which the counters are read. */
  function LoadOrder(w: seq<int>): Counters
    requires |w| == 7
  {
    Counters(w[0], w[1], w[2], w[3], w[4], w[5], w[6])
  }

  /** Loading then saving gives back the same seven words. */
  lemma LoadThenSave(w: seq<int>)
    requires |w| == 7
    ensures SaveOrder(LoadOrder(w)) == w
  {
  }

  /** A dump archive of integers, either being written or being read from pos on. */
  class DumpFile {
    var saving: bool
    var data: seq<int>
    var pos: nat

    constructor (saving: bool, data: seq<int>)
      ensures this.saving == saving && this.data == data && pos == 0
    {
      this.saving := saving;
      this.data := data;
      pos := 0;
    }

    method Write(v: int)
      requires saving
      modifies this
      ensures saving && data == old(data) + [v] && pos == old(pos)
    {
      data := data + [v];
    }

    method Read() returns (v: int)
      requires !saving && pos < |data|
      modifies this
      ensures !saving && data == old(data) && pos == old(pos) + 1
      ensures v == data[old(pos)]
    {
      v := data[pos];
      pos := pos + 1;
    }
  }

  /** Writes the seven counters to a saving archive, in save order. */
  method SaveCounters(ar: DumpFile, c: Counters)
    requires ar.saving
    modifies ar
    ensures ar.saving && ar.data == old(ar.data) + SaveOrder(c)
  {
    ar.Write(c.nrhs);
    ar.Write(c.niter);
    ar.Write(c.nref);
    ar.Write(c.ntotref);
    ar.Write(c.naug);
    ar.Write(c.neq);
    ar.Write(c.nreq);
  }

  /** Reads seven counters from a loading archive, in save order. */
  method LoadCounters(ar: DumpFile) returns (c: Counters)
    requires !ar.saving && ar.pos + 7 <= |ar.data|
    modifies ar
    ensures !ar.saving && ar.data == old(ar.data) && ar.pos == old(ar.pos) + 7
    ensures c == LoadOrder(old(ar.data[ar.pos..ar.pos + 7]))
  {
    var v0 := ar.Read();
    var v1 := ar.Read();
    var v2 := ar.Read();
    var v3 := ar.Read();
    var v4 := ar.Read();
    var v5 := ar.Read();
    var v6 := ar.Read();
    c := Counters(v0, v1, v2, v3, v4, v5, v6);
  }

  // ---------------------------------------------------------------------
  // Outcome of a step
  // ---------------------------------------------------------------------

  /** The exceptions a solution step can end with. */
  datatype Exception =
    | NegativeJacobian | MaxStiffnessReformations | ForceConversion | IterationFailure
    | ZeroLinestepSize | EnergyDiverging | MultiScaleFailure | DoRunningRestart | OtherException

  /** How a call ends: with a value or with an exception. */
  datatype Outcome = Returned(value: bool) | Thrown(exn: Exception)

  /** The exceptions the step catches. */
  predicate Caught(e: Exception)
  {
    e in {NegativeJacobian, MaxStiffnessReformations, ForceConversion, IterationFailure,
          ZeroLinestepSize, EnergyDiverging, MultiScaleFailure}
  }

  /**
   * The result of a step given how the solve ended: a forced conversion
   * counts as success, the other caught exceptions as failure, anything
   * else passes through.
   */
  function SolveStep(solve: Outcome): (r: Outcome)
    ensures r == Returned(true) <==> solve == Returned(true) || solve == Thrown(ForceConversion)
    ensures r == Returned(false) <==> solve == Returned(false) || (solve.Thrown? && Caught(solve.exn) && solve.exn != ForceConversion)
    ensures r.Thrown? <==> solve.Thrown? && !Caught(solve.exn)
    ensures r.Thrown? ==> r == solve
  {
    match solve
    case Returned(b) => solve
    case Thrown(e) =>
      if e == ForceConversion then Returned(true)
      else if Caught(e) then Returned(false)
      else solve
  }

  // ---------------------------------------------------------------------
  // Node kinematics
  // ---------------------------------------------------------------------

  datatype Vec3 = Vec3(x: real, y: real, z: real)

  /** A node's current (t) and previous (p) position, velocity, acceleration and concentrations. */
  datatype NodeState = NodeState(
    rt: Vec3, vt: Vec3, at: Vec3, ct: seq<real>,
    rp: Vec3, vp: Vec3, ap: Vec3, cp: seq<real>)

  /** The node after its current state is stored as previous state; cp keeps its length. */
  function Snapshot(n: NodeState): NodeState
    requires |n.cp| <= |n.ct|
  {
    n.(rp := n.rt, vp := n.vt, ap := n.at, cp := n.ct[..|n.cp|])
  }

  /** Storing leaves the current state alone, and storing twice is storing once. */
  lemma SnapshotIdempotent(n: NodeState)
    requires |n.cp| <= |n.ct|
    ensures Snapshot(n).rt == n.rt && Snapshot(n).vt == n.vt && Snapshot(n).at == n.at && Snapshot(n).ct == n.ct
    ensures |Snapshot(n).cp| == |n.cp|
    ensures forall k :: 0 <= k < |n.cp| ==> Snapshot(n).cp[k] == n.ct[k]
    ensures Snapshot(Snapshot(n)) == Snapshot(n)
  {
  }

  /** After the totals are zeroed, the first accumulation makes them the increment. */
  lemma FirstIncrementIsTotal(u: seq<real>)
    ensures LinAlg.Add(LinAlg.ZeroVec(|u|), u) == u
  {
  }

  /**
   * One write of a prescribed displacement increment: id is the dof ID the
   * node carries for the prescribed direction (a constrained dof holds
   * -I-2 for its equation I), value the increment the BC asks for there.
   */
  datatype PrescribedWrite = PrescribedWrite(id: int, value: real)

  /** The equation a prescribed write addresses. */
  function Target(p: PrescribedWrite): int
  {
    -p.id - 2
  }

  /** The increment vector u after the writes, in order; a write whose equation is outside [0, neq) is skipped. */
  function ApplyIncrements(u: seq<real>, w: seq<PrescribedWrite>, neq: int): (r: seq<real>)
    requires neq <= |u|
    ensures |r| == |u|
  {
    if w == [] then u
    else
      var prev := ApplyIncrements(u, w[..|w| - 1], neq);
      var I := Target(w[|w| - 1]);
      if 0 <= I < neq then prev[I := w[|w| - 1].value] else prev
  }

  /** An entry that no write addresses inside [0, neq) keeps its value. */
  lemma {:induction false} IncrementsUntouched(u: seq<real>, w: seq<PrescribedWrite>, neq: int, k: int)
    requires neq <= |u| && 0 <= k < |u|
    requires k >= neq || forall j :: 0 <= j < |w| ==> Target(w[j]) != k
    ensures ApplyIncrements(u, w, neq)[k] == u[k]
    decreases |w|
  {
    if w != [] {
      IncrementsUntouched(u, w[..|w| - 1], neq, k);
    }
  }

  /** The entry of an equation in [0, neq) holds the value of the last write to it. */
  lemma {:induction false} IncrementsLastWins(u: seq<real>, w: seq<PrescribedWrite>, neq: int, j: nat)
    requires neq <= |u| && j < |w| && 0 <= Target(w[j]) < neq
    requires forall m :: j < m < |w| ==> Target(w[m]) != Target(w[j])
    ensures ApplyIncrements(u, w, neq)[Target(w[j])] == w[j].value
    decreases |w|
  {
    if j < |w| - 1 {
      IncrementsLastWins(u, w[..|w| - 1], neq, j);
    }
  }

  /** The node's previous concentrations, overwritten entry by entry with its current ones. */
  method CopyConcentrations(n: NodeState) returns (cp: seq<real>)
    requires |n.cp| <= |n.ct|
    ensures cp == n.ct[..|n.cp|]
  {
    cp := n.cp;
    var k := 0;
    while k < |cp|
      invariant 0 <= k <= |cp| == |n.cp|
      invariant cp == n.ct[..k] + n.cp[k..]
    {
      cp := cp[k := n.ct[k]];
      k := k + 1;
    }
  }

  /** Stores every node's current state as its previous state, node by node. */
  method SnapshotNodes(nodes: array<NodeState>)
    requires forall i :: 0 <= i < nodes.Length ==> |nodes[i].cp| <= |nodes[i].ct|
    modifies nodes
    ensures forall i :: 0 <= i < nodes.Length ==> nodes[i] == Snapshot(old(nodes[i]))
  {
    var i := 0;
    while i < nodes.Length
      invariant 0 <= i <= nodes.Length
      invariant forall m :: 0 <= m < i ==> nodes[m] == Snapshot(old(nodes[m]))
      invariant forall m :: i <= m < nodes.Length ==> nodes[m] == old(nodes[m])
    {
      var n := nodes[i];
      var cp := CopyConcentrations(n);
      nodes[i] := n.(rp := n.rt, vp := n.vt, ap := n.at, cp := cp);
      i := i + 1;
    }
  }

  /**
   * The increment vector of a new step: n zeros, then each prescribed write
   * whose equation lies in [0, neq) stores its value there.
   */
  method PrescribedIncrements(n: nat, writes: seq<PrescribedWrite>, neq: int) returns (u: seq<real>)
    requires neq <= n
    ensures u == ApplyIncrements(LinAlg.ZeroVec(n), writes, neq)
  {
    u := LinAlg.ZeroVec(n);
    var j := 0;
    while j < |writes|
      invariant 0 <= j <= |writes|
      invariant u == ApplyIncrements(LinAlg.ZeroVec(n), writes[..j], neq)
    {
      assert writes[..j + 1][..j] == writes[..j];
      var I := -writes[j].id - 2;
      if 0 <= I < neq {
        u := u[I := writes[j].value];
      }
      j := j + 1;
    }
    assert writes[..j] == writes;
  }

  /**
   * Stores the rigid bodies' displacements into the increment vector u:
   * each write whose equation is not negative stores its value there. The
   * bodies' equations lie inside u.
   */
  method StoreRigidDisplacements(u: seq<real>, writes: seq<PrescribedWrite>) returns (r: seq<real>)
    requires forall j :: 0 <= j < |writes| ==> Target(writes[j]) < |u|
    ensures r == ApplyIncrements(u, writes, |u|)
  {
    r := u;
    var j := 0;
    while j < |writes|
      invariant 0 <= j <= |writes|
      invariant r == ApplyIncrements(u, writes[..j], |u|)
    {
      assert writes[..j + 1][..j] == writes[..j];
      var I := -writes[j].id - 2;
      if I >= 0 {
        r := r[I := writes[j].value];
      }
      j := j + 1;
    }
    assert writes[..j] == writes;
  }

  // ---------------------------------------------------------------------
  // Lumped element mass
  // ---------------------------------------------------------------------

  /** An n-by-n matrix given as rows. */
  predicate IsSquare(K: seq<seq<real>>, n: nat)
  {
    |K| == n && forall i :: 0 <= i < n ==> |K[i]| == n
  }

  /**
   * The 3n-by-3n element mass matrix built from the node-by-node consistent
   * mass K: K[i][j] on the three diagonal entries of block (i, j), 0 elsewhere.
   */
  function Expand(K: seq<seq<real>>, n: nat): (ke: seq<seq<real>>)
    requires IsSquare(K, n)
    ensures IsSquare(ke, 3 * n)
  {
    seq(3 * n, r requires 0 <= r < 3 * n =>
      seq(3 * n, c requires 0 <= c < 3 * n => if r % 3 == c % 3 then K[r / 3][c / 3] else 0.0))
  }

  /** Row sums of ke over its first m columns. */
  function RowSums(ke: seq<seq<real>>, m: nat): (l: seq<real>)
    requires forall i :: 0 <= i < |ke| ==> m <= |ke[i]|
    ensures |l| == |ke|
  {
    seq(|ke|, i requires 0 <= i < |ke| => Sum(ke[i][..m]))
  }

  /** The lumped mass vector as the element code computes it: each row summed over its first neln columns only. */
  function LumpedAsWritten(ke: seq<seq<real>>, neln: nat): (l: seq<real>)
    requires IsSquare(ke, 3 * neln)
    ensures |l| == 3 * neln
  {
    RowSums(ke, neln)
  }

  /** The lumped mass vector: each row of the 3neln-by-3neln matrix summed over all its columns. */
  function Lumped(ke: seq<seq<real>>, neln: nat): (l: seq<real>)
    requires IsSquare(ke, 3 * neln)
    ensures |l| == 3 * neln
  {
    RowSums(ke, 3 * neln)
  }

  lemma SumOfThree(a: real, b: real, c: real)
    ensures Sum([a, b, c]) == a + b + c
  {
    assert [a][..0] == [];
    assert Sum([a]) == a;
    assert [a, b][..1] == [a];
    assert Sum([a, b]) == a + b;
    assert [a, b, c][..2] == [a, b];
  }

  /** With one node of unit mass, the code as written lumps nothing into the y and z directions. */
  lemma LumpedAsWrittenDropsDirections()
    ensures Expand([[1.0]], 1) == [[1.0, 0.0, 0.0], [0.0, 1.0, 0.0], [0.0, 0.0, 1.0]]
    ensures LumpedAsWritten(Expand([[1.0]], 1), 1) == [1.0, 0.0, 0.0]
    ensures Lumped(Expand([[1.0]], 1), 1) == [1.0, 1.0, 1.0]
  {
    var ke := Expand([[1.0]], 1);
    assert ke[0] == [1.0, 0.0, 0.0];
    assert ke[1] == [0.0, 1.0, 0.0];
    assert ke[2] == [0.0, 0.0, 1.0];
    assert ke[0][..1] == [1.0] && ke[1][..1] == [0.0] && ke[2][..1] == [0.0];
    assert [1.0][..0] == [] && [0.0][..0] == [];
    assert ke[0][..3] == ke[0] && ke[1][..3] == ke[1] && ke[2][..3] == ke[2];
    SumOfThree(1.0, 0.0, 0.0);
    SumOfThree(0.0, 1.0, 0.0);
    SumOfThree(0.0, 0.0, 1.0);
  }

  /** Entry (3i+a, 3j+b) of the expanded matrix. */
  lemma ExpandEntry(K: seq<seq<real>>, n: nat, i: nat, a: nat, j: nat, b: nat)
    requires IsSquare(K, n) && i < n && j < n && a < 3 && b < 3
    ensures Expand(K, n)[3 * i + a][3 * j + b] == if a == b then K[i][j] else 0.0
  {
    assert (3 * i + a) % 3 == a && (3 * i + a) / 3 == i;
    assert (3 * j + b) % 3 == b && (3 * j + b) / 3 == j;
  }

  /** The first 3m entries of row 3i+a of the expanded matrix sum to the first m entries of row i of K. */
  lemma {:induction false} ExpandedRowPrefix(K: seq<seq<real>>, n: nat, i: nat, a: nat, m: nat)
    requires IsSquare(K, n) && i < n && a < 3 && m <= n
    ensures Sum(Expand(K, n)[3 * i + a][..3 * m]) == Sum(K[i][..m])
    decreases m
  {
    if m > 0 {
      var row := Expand(K, n)[3 * i + a];
      var j := m - 1;
      ExpandedRowPrefix(K, n, i, a, j);
      SumPrefixByTriple(row, j);
      ExpandedTriple(K, n, i, a, j);
      assert K[i][..m][..j] == K[i][..j];
    }
  }

  /** A prefix of three more entries adds their sum. */
  lemma SumPrefixByTriple(row: seq<real>, j: nat)
    requires 3 * j + 3 <= |row|
    ensures Sum(row[..3 * j + 3]) == Sum(row[..3 * j]) + (row[3 * j] + row[3 * j + 1] + row[3 * j + 2])
  {
    var tail := [row[3 * j], row[3 * j + 1], row[3 * j + 2]];
    assert row[..3 * j + 3] == row[..3 * j] + tail;
    SumAppend(row[..3 * j], tail);
    SumOfThree(row[3 * j], row[3 * j + 1], row[3 * j + 2]);
  }

  /** The three entries of row 3i+a in the columns of node j add up to K[i][j]. */
  lemma ExpandedTriple(K: seq<seq<real>>, n: nat, i: nat, a: nat, j: nat)
    requires IsSquare(K, n) && i < n && j < n && a < 3
    ensures var row := Expand(K, n)[3 * i + a];
      row[3 * j] + row[3 * j + 1] + row[3 * j + 2] == K[i][j]
  {
    ExpandEntry(K, n, i, a, j, 0);
    ExpandEntry(K, n, i, a, j, 1);
    ExpandEntry(K, n, i, a, j, 2);
  }

  /** Lumped over all columns, each of a node's three directions gets the node's row sum of K. */
  lemma LumpedIsNodeMass(K: seq<seq<real>>, n: nat, i: nat, a: nat)
    requires IsSquare(K, n) && i < n && a < 3
    ensures Lumped(Expand(K, n), n)[3 * i + a] == Sum(K[i])
  {
    ExpandedRowPrefix(K, n, i, a, n);
    assert K[i][..n] == K[i];
  }

  /** Sums of consecutive triples. */
  function Triples(l: seq<real>): (t: seq<real>)
    requires |l| % 3 == 0
    ensures |t| == |l| / 3
  {
    seq(|l| / 3, i requires 0 <= i < |l| / 3 => l[3 * i] + l[3 * i + 1] + l[3 * i + 2])
  }

  /** Grouping by triples does not change the sum. */
  lemma {:induction false} TriplesSum(l: seq<real>)
    requires |l| % 3 == 0
    ensures Sum(Triples(l)) == Sum(l)
    decreases |l|
  {
    if l != [] {
      var n := |l| - 3;
      var p := l[..n];
      TriplesSum(p);
      assert Triples(l)[..|Triples(l)| - 1] == Triples(p);
      assert l == p + [l[n], l[n + 1], l[n + 2]];
      SumAppend(p, [l[n], l[n + 1], l[n + 2]]);
      SumOfThree(l[n], l[n + 1], l[n + 2]);
      assert Triples(l)[|Triples(l)| - 1] == l[n] + l[n + 1] + l[n + 2];
    }
  }

  /** Each node's share of the element mass: its three lumped entries over three times the total. */
  function NodeFractions(l: seq<real>, total: real): (f: seq<real>)
    requires |l| % 3 == 0 && total != 0.0
    ensures |f| == |l| / 3
  {
    seq(|l| / 3, i requires 0 <= i < |l| / 3 => (l[3 * i] + l[3 * i + 1] + l[3 * i + 2]) / (3.0 * total))
  }

  /** With the total taken as a third of the lumped sum, the node fractions add up to one. */
  lemma FractionsSumToOne(l: seq<real>)
    requires |l| % 3 == 0 && Sum(l) != 0.0
    ensures Sum(NodeFractions(l, Sum(l) / 3.0)) == 1.0
  {
    var total := Sum(l) / 3.0;
    TriplesSum(l);
    assert 3.0 * total == Sum(l);
    SumDivide(Triples(l), NodeFractions(l, total), 3.0 * total);
    var x := Sum(l);
    assert Sum(NodeFractions(l, total)) == x / x;
    DivSelf(x);
  }

  /** The sum of the first m entries of a row. */
  method RowSum(row: seq<real>, m: nat) returns (r: real)
    requires m <= |row|
    ensures r == Sum(row[..m])
  {
    r := 0.0;
    var j := 0;
    while j < m
      invariant 0 <= j <= m
      invariant r == Sum(row[..j])
    {
      assert row[..j + 1][..j] == row[..j];
      r := r + row[j];
      j := j + 1;
    }
  }

  /** Sums every row of the element matrix over all 3neln columns, and adds up the row sums. */
  method LumpRows(ke: seq<seq<real>>, neln: nat) returns (lumped: seq<real>, sum: real)
    requires IsSquare(ke, 3 * neln)
    ensures lumped == Lumped(ke, neln)
    ensures sum == Sum(lumped)
  {
    var m := 3 * neln;
    var l := new real[m];
    sum := 0.0;
    var i := 0;
    while i < m
      invariant 0 <= i <= m
      invariant forall r :: 0 <= r < i ==> l[r] == Sum(ke[r][..m])
      invariant sum == Sum(l[..i])
    {
      var rowSum := RowSum(ke[i], m);
      l[i] := rowSum;
      assert l[..i + 1][..i] == l[..i];
      sum := sum + rowSum;
      i := i + 1;
    }
    lumped := l[..];
    assert lumped == l[..m];
  }

  /** Each node's fraction of the element mass. */
  method NodeShares(l: seq<real>, total: real) returns (f: seq<real>)
    requires |l| % 3 == 0 && total != 0.0
    ensures f == NodeFractions(l, total)
  {
    var neln := |l| / 3;
    var a := new real[neln];
    var k := 0;
    while k < neln
      invariant 0 <= k <= neln
      invariant forall r :: 0 <= r < k ==> a[r] == NodeFractions(l, total)[r]
    {
      a[k] := (l[3 * k] + l[3 * k + 1] + l[3 * k + 2]) / (3.0 * total);
      k := k + 1;
    }
    f := a[..];
  }

  /**
   * Lumps one element's 3neln-by-3neln mass matrix: the row sums, the
   * element's total mass (a third of their sum) and, when that total is not
   * zero, each node's share of it.
   */
  method LumpElementMass(ke: seq<seq<real>>, neln: nat) returns (lumped: seq<real>, total: real, fractions: Option<seq<real>>)
    requires IsSquare(ke, 3 * neln)
    ensures lumped == Lumped(ke, neln)
    ensures total == Sum(lumped) / 3.0
    ensures total == 0.0 <==> fractions == None
    ensures fractions.Some? ==> fractions.value == NodeFractions(lumped, total) && Sum(fractions.value) == 1.0
  {
    var sum;
    lumped, sum := LumpRows(ke, neln);
    total := sum / 3.0;
    if total == 0.0 {
      fractions := None;
    } else {
      var f := NodeShares(lumped, total);
      fractions := Some(f);
      FractionsSumToOne(lumped);
    }
  }

  // ---------------------------------------------------------------------
  // The solver
  // ---------------------------------------------------------------------

  /**
   * The four numbering stages on the node and body tables: free dofs,
   * rigid-body dofs, attached nodes, prescribed rigid dofs. Returns the
   * free-dof count and the final equation count.
   */
  method NumberEquations(ids: array<seq<int>>, rid: seq<int>, bc: seq<int>, lm: array<int>) returns (nreq: nat, neq: nat)
    requires ids.Length == |rid| && lm.Length == |bc|
    requires forall i :: 0 <= i < |rid| && rid[i] >= 0 ==> DOF_RW < |ids[i]| && 6 * rid[i] + 5 < |bc|
    modifies ids, lm
    ensures nreq == CountFree(Flatten(old(ids[..])))
    ensures neq == nreq + CountFree(bc)
    ensures lm[..] == Reencode(RigidNumbers(bc, nreq), bc)
    ensures forall i :: 0 <= i < |rid| ==> |ids[i]| == |old(ids[i])|
    ensures forall i, j :: 0 <= i < |rid| && 0 <= j < |ids[i]| ==>
      ids[i][j] == Attached(Number(old(ids[i]), CountFree(Flatten(old(ids[..])[..i])))[j], rid[i], RigidNumbers(bc, nreq), j)
  {
    ghost var s := ids[..];
    nreq := NumberFreeDofs(ids);
    ghost var numbered := ids[..];
    assert forall i :: 0 <= i < |rid| ==> numbered[i] == Number(s[i], CountFree(Flatten(s[..i])));
    neq := NumberRigidDofs(bc, lm, nreq);
    var rigid := lm[..];
    AttachRigidNodes(ids, rid, rigid);
    ReencodePrescribed(bc, lm);
  }

  class ExplicitSolidSolver {
    var neq: int
    var nreq: int
    var nrhs: int
    var niter: int
    var nref: int
    var ntotref: int
    var naug: int
    /** Total displacement in the step, the last increment, and the total over all steps. */
    var Ui: seq<real>
    var ui: seq<real>
    var Ut: seq<real>

    /** The damping factor of the velocity update. */
    var dynDamping: real

    constructor ()
      ensures dynDamping == 0.99
      ensures neq == 0 && nreq == 0 && nrhs == 0 && niter == 0 && nref == 0 && ntotref == 0 && naug == 0
      ensures Ui == [] && ui == [] && Ut == []
    {
      dynDamping := 0.99;
      neq, nreq, nrhs, niter, nref, ntotref, naug := 0, 0, 0, 0, 0, 0, 0;
      Ui, ui, Ut := [], [], [];
    }

    function Checkpoint(): Counters
      reads this
    {
      Counters(nrhs, niter, nref, ntotref, naug, neq, nreq)
    }

    /**
     * Assigns the equation numbers. ids holds each node's dof IDs (>= 0 free,
     * < 0 fixed or rigid on entry), rid each node's rigid body or -1, bc the
     * six BC flags of every body and lm receives the six LM numbers of every body.
     */
    method InitEquations(ids: array<seq<int>>, rid: seq<int>, bc: seq<int>, lm: array<int>) returns (ok: bool)
      requires ids.Length == |rid| && lm.Length == |bc| && |bc| % 6 == 0
      requires forall i :: 0 <= i < |rid| && rid[i] >= 0 ==> DOF_RW < |ids[i]| && 6 * rid[i] + 5 < |bc|
      modifies this, ids, lm
      ensures nreq == CountFree(Flatten(old(ids[..])))
      ensures neq == nreq + CountFree(bc)
      ensures lm[..] == Reencode(RigidNumbers(bc, nreq), bc)
      ensures forall i :: 0 <= i < |rid| ==> |ids[i]| == |old(ids[i])|
      ensures forall i, j :: 0 <= i < |rid| && 0 <= j < |ids[i]| ==>
        ids[i][j] == Attached(Number(old(ids[i]), CountFree(Flatten(old(ids[..])[..i])))[j], rid[i], RigidNumbers(bc, nreq), j)
      ensures nrhs == old(nrhs) && niter == old(niter) && nref == old(nref) && ntotref == old(ntotref)
      ensures naug == old(naug) && Ui == old(Ui) && ui == old(ui) && Ut == old(Ut) && dynDamping == old(dynDamping)
      ensures ok
    {
      var r, e := NumberEquations(ids, rid, bc, lm);
      nreq := r;
      neq := e;
      ok := true;
    }

    /** Writes the seven counters to a saving archive, or reads them back from a loading one. */
    method Serialize(ar: DumpFile)
      requires !ar.saving ==> ar.pos + 7 <= |ar.data|
      modifies this, ar
      ensures ar.saving == old(ar.saving)
      ensures old(ar.saving) ==> ar.data == old(ar.data) + SaveOrder(old(Checkpoint())) && Checkpoint() == old(Checkpoint())
      ensures !old(ar.saving) ==> ar.data == old(ar.data) && ar.pos == old(ar.pos) + 7
      ensures !old(ar.saving) ==> Checkpoint() == LoadOrder(old(ar.data[ar.pos..ar.pos + 7]))
      ensures Ui == old(Ui) && ui == old(ui) && Ut == old(Ut) && dynDamping == old(dynDamping)
    {
      if ar.saving {
        var c := Checkpoint();
        SaveCounters(ar, c);
      } else {
        var c := LoadCounters(ar);
        nrhs, niter, nref, ntotref, naug, neq, nreq := c.nrhs, c.niter, c.nref, c.ntotref, c.naug, c.neq, c.nreq;
      }
    }

    /**
     * Prepares a time step: zeroes the counters and the step's total
     * displacement, stores each node's current state as its previous one,
     * and fills the increment ui with the prescribed displacement increments
     * (writes, in the order of the active prescribed BCs) over zeros, and
     * then with the rigid bodies' displacements (rigidWrites, by body and dof,
     * each carrying the body's LM entry).
     */
    method PrepStep(nodes: array<NodeState>, writes: seq<PrescribedWrite>, rigidWrites: seq<PrescribedWrite>)
      requires forall i :: 0 <= i < nodes.Length ==> |nodes[i].cp| <= |nodes[i].ct|
      requires neq <= |ui|
      requires forall j :: 0 <= j < |rigidWrites| ==> Target(rigidWrites[j]) < |ui|
      modifies this, nodes
      ensures niter == 0 && nrhs == 0 && nref == 0 && ntotref == 0 && naug == 0
      ensures Ui == LinAlg.ZeroVec(|old(Ui)|)
      ensures forall i :: 0 <= i < nodes.Length ==> nodes[i] == Snapshot(old(nodes[i]))
      ensures neq == old(neq) && nreq == old(nreq) && Ut == old(Ut) && dynDamping == old(dynDamping)
      ensures ui == ApplyIncrements(ApplyIncrements(LinAlg.ZeroVec(|old(ui)|), writes, neq), rigidWrites, |old(ui)|)
    {
      niter := 0;
      nrhs := 0;
      nref := 0;
      ntotref := 0;
      naug := 0;
      Ui := LinAlg.ZeroVec(|Ui|);
      SnapshotNodes(nodes);
      var u := PrescribedIncrements(|ui|, writes, neq);
      ui := StoreRigidDisplacements(u, rigidWrites);
    }

    /**
     * The end of an iteration: adds the increment to the step total, counts
     * the iteration and adds the step total to the overall total.
     */
    method FinishIteration() returns (ok: bool)
      requires |Ui| <= |ui| && |Ut| == |Ui|
      modifies this
      ensures Ui == LinAlg.Add(old(Ui), old(ui)[..|old(Ui)|])
      ensures niter == old(niter) + 1
      ensures Ut == LinAlg.Add(old(Ut), Ui)
      ensures neq == old(neq) && nreq == old(nreq) && nrhs == old(nrhs) && nref == old(nref)
      ensures ntotref == old(ntotref) && naug == old(naug) && ui == old(ui) && dynDamping == old(dynDamping)
      ensures ok
    {
      var n := |Ui|;
      var i := 0;
      while i < n
        invariant 0 <= i <= n == |Ui|
        invariant ui == old(ui) && Ut == old(Ut) && niter == old(niter) && neq == old(neq) && nreq == old(nreq)
        invariant nrhs == old(nrhs) && nref == old(nref) && ntotref == old(ntotref) && naug == old(naug)
        invariant dynDamping == old(dynDamping)
        invariant forall m :: 0 <= m < i ==> Ui[m] == old(Ui[m]) + ui[m]
        invariant forall m :: i <= m < n ==> Ui[m] == old(Ui[m])
      {
        Ui := Ui[i := Ui[i] + ui[i]];
        i := i + 1;
      }
      niter := niter + 1;
      Ut := LinAlg.Add(Ut, Ui);
      ok := true;
    }
  }
}
