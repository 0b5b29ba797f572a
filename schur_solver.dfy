/**
 * The Schur-complement block solver. The system [A B; C D][u; w] = [F; G] is
 * solved by three sub-solves: A y = F, S v = C y - G with S the Schur
 * complement, and A u = F - B v. The sub-solvers are foreign code: their
 * outcomes are parameters, and a failing one is a None or a false.
 */
module Schur {
  import opened Common
  import opened LinAlg
  import opened FECoreEnum

  // ---------------------------------------------------------------------
  // Configuration and the solvers it builds
  // ---------------------------------------------------------------------

  /** The choice of solver for the A block (LU is the default). */
  datatype ASolverChoice = ALU | AFGMRES | AHypre | AILU0 | ADiagonal | AUnknown

  /** The choice of solver for the Schur complement (FGMRES is the default). */
  datatype SchurChoice = SchurFGMRES | SchurCG | SchurPC | SchurUnknown

  /** The choice of preconditioner for the Schur complement (none is the default). */
  datatype PreconditionerChoice = PCNone | PCDiagonalMass | PCICholMass | PCUnknown

  /** The solvers the A-block choice can build. */
  datatype LinearSolverKind = Pardiso | FGMRESILU0 | HypreGMRES | ILU0Solver | DiagonalPCSolver

  /** The solvers the Schur choice can return. */
  datatype SchurKind = FGMRESSchur | PCSchur

  datatype PreconditionerKind = DiagonalPreconditioner | IncompleteCholesky

  /** The A-block solver for a choice; an unknown choice builds none. */
  function BuildASolver(c: ASolverChoice): (r: Option<LinearSolverKind>)
    ensures r.None? <==> c == AUnknown
    ensures c == ADiagonal <==> r == Some(DiagonalPCSolver)
    ensures c == ALU <==> r == Some(Pardiso)
  {
    match c
    case ALU => Some(Pardiso)
    case AFGMRES => Some(FGMRESILU0)
    case AHypre => Some(HypreGMRES)
    case AILU0 => Some(ILU0Solver)
    case ADiagonal => Some(DiagonalPCSolver)
    case AUnknown => None
  }

  /**
   * The Schur solver for a choice. The CG branch configures a solver and
   * then falls through without returning it, so CG yields none.
   */
  function BuildSchurSolver(c: SchurChoice): (r: Option<SchurKind>)
    ensures r.Some? <==> c == SchurFGMRES || c == SchurPC
    ensures c == SchurCG ==> r.None?
    ensures r == Some(PCSchur) <==> c == SchurPC
  {
    match c
    case SchurFGMRES => Some(FGMRESSchur)
    case SchurCG => None
    case SchurPC => Some(PCSchur)
    case SchurUnknown => None
  }

  /**
   * The preconditioner for a choice; created is whether the preconditioner's
   * own set-up succeeded. A failed set-up yields none, as no choice does.
   */
  function BuildSchurPreconditioner(c: PreconditionerChoice, created: bool): (r: Option<PreconditionerKind>)
    ensures r.Some? <==> (c == PCDiagonalMass || c == PCICholMass) && created
    ensures r == Some(IncompleteCholesky) ==> c == PCICholMass
  {
    match c
    case PCNone => None
    case PCDiagonalMass => if created then Some(DiagonalPreconditioner) else None
    case PCICholMass => if created then Some(IncompleteCholesky) else None
    case PCUnknown => None
  }

  // ---------------------------------------------------------------------
  // The block matrix
  // ---------------------------------------------------------------------

  /**
   * A matrix partitioned in two: partition sizes, storage type, index
   * offset, and the off-diagonal blocks B and C and the D block (absent when
   * it is not stored in the compressed-row form that can be scaled).
   */
  datatype BlockMatrix = BlockMatrix(
    partitions: seq<int>, mtype: MatrixType, offset: nat,
    B: seq<seq<real>>, C: seq<seq<real>>, D: Option<seq<seq<real>>>)

  /** A sparse matrix handed to a solver: either a block matrix or some other kind. */
  datatype SparseMatrix = Blocked(bm: BlockMatrix) | Unblocked

  // ---------------------------------------------------------------------
  // The three-solve back substitution
  // ---------------------------------------------------------------------

  /** A sub-solver's answer always has the length of its right-hand side. */
  ghost predicate LengthPreserving(solve: seq<real> -> Option<seq<real>>)
  {
    forall r :: solve(r).Some? ==> |solve(r).value| == |r|
  }

  /**
   * The solution the back substitution writes, or None when a sub-solve
   * fails. b holds F then G; B and C are the blocks as stored (B already
   * scaled by 1/Bk); the second partition is divided by Bk at the end.
   */
  function BackSolveResult(n0: nat, n1: nat, b: seq<real>, B: seq<seq<real>>, C: seq<seq<real>>, Bk: real,
                           aSolve: seq<real> -> Option<seq<real>>, sSolve: seq<real> -> Option<seq<real>>): (r: Option<seq<real>>)
    requires n0 + n1 <= |b| && IsMatrix(B, n0, n1) && IsMatrix(C, n1, n0) && Bk != 0.0
    requires LengthPreserving(aSolve) && LengthPreserving(sSolve)
    ensures r.Some? ==> |r.value| == n0 + n1
    ensures r.Some? <==> (aSolve(b[..n0]).Some? &&
      sSolve(Sub(MatVec(C, aSolve(b[..n0]).value), b[n0..n0 + n1])).Some? &&
      aSolve(Sub(b[..n0], MatVec(B, sSolve(Sub(MatVec(C, aSolve(b[..n0]).value), b[n0..n0 + n1])).value))).Some?)
  {
    var F := b[..n0];
    var G := b[n0..n0 + n1];
    match aSolve(F)
    case None => None
    case Some(y) =>
      var H := Sub(MatVec(C, y), G);
      match sSolve(H)
      case None => None
      case Some(v) =>
        var L := Sub(F, MatVec(B, v));
        match aSolve(L)
        case None => None
        case Some(u) => Some(u + DivVec(v, Bk))
  }

  /** D times v, with an absent D block counting as zero. */
  function DTimes(D: Option<seq<seq<real>>>, v: seq<real>, n1: nat): (r: seq<real>)
    requires |v| == n1 && (D.Some? ==> IsMatrix(D.value, n1, n1))
    ensures |r| == n1
  {
    if D.None? then ZeroVec(n1) else MatVec(D.value, v)
  }

  function ScaleBlock(D: Option<seq<seq<real>>>, s: real): Option<seq<seq<real>>>
  {
    if D.None? then None else Some(ScaleMat(D.value, s))
  }

  /** The A-block sub-solver solves exactly: A times its answer is the right-hand side. */
  ghost predicate SolvesA(A: seq<seq<real>>, n0: nat, aSolve: seq<real> -> Option<seq<real>>)
    requires IsMatrix(A, n0, n0) && LengthPreserving(aSolve)
  {
    forall r :: |r| == n0 && aSolve(r).Some? ==> MatVec(A, aSolve(r).value) == r
  }

  /** A has at most one solution for each right-hand side. */
  ghost predicate Injective(A: seq<seq<real>>, n0: nat)
    requires IsMatrix(A, n0, n0)
  {
    forall u1, u2 :: |u1| == n0 && |u2| == n0 && MatVec(A, u1) == MatVec(A, u2) ==> u1 == u2
  }

  /**
   * The Schur sub-solver solves exactly with S = C A^-1 B - D, where B and D
   * are the stored (scaled) blocks and A^-1 is the A-block sub-solver.
   */
  ghost predicate SolvesSchur(B: seq<seq<real>>, C: seq<seq<real>>, D: Option<seq<seq<real>>>, n0: nat, n1: nat,
                        aSolve: seq<real> -> Option<seq<real>>, sSolve: seq<real> -> Option<seq<real>>)
    requires IsMatrix(B, n0, n1) && IsMatrix(C, n1, n0) && (D.Some? ==> IsMatrix(D.value, n1, n1))
    requires LengthPreserving(aSolve) && LengthPreserving(sSolve)
  {
    forall h :: |h| == n1 && sSolve(h).Some? ==>
      aSolve(MatVec(B, sSolve(h).value)).Some? &&
      Sub(MatVec(C, aSolve(MatVec(B, sSolve(h).value)).value), DTimes(D, sSolve(h).value, n1)) == h
  }

  /**
   * The algebra behind the back substitution, on the vectors it computes:
   * y solves A y = F, z solves A z = B' v and v solves the Schur system
   * C z - D' v = C y - G, where B' = B / Bk and D' = D / Bk. Then u, the
   * solution of A u = F - B' v, and w = v / Bk solve the unscaled system.
   */
  lemma BlockAlgebra(A: seq<seq<real>>, B: seq<seq<real>>, C: seq<seq<real>>, D: Option<seq<seq<real>>>,
                     Bk: real, n0: nat, n1: nat, F: seq<real>, G: seq<real>,
                     y: seq<real>, z: seq<real>, v: seq<real>, u: seq<real>)
    requires IsMatrix(A, n0, n0) && IsMatrix(B, n0, n1) && IsMatrix(C, n1, n0)
    requires D.Some? ==> IsMatrix(D.value, n1, n1)
    requires Bk != 0.0 && |F| == |y| == |z| == |u| == n0 && |G| == |v| == n1
    requires Injective(A, n0)
    requires MatVec(A, y) == F
    requires MatVec(A, z) == MatVec(ScaleMat(B, 1.0 / Bk), v)
    requires Sub(MatVec(C, z), DTimes(ScaleBlock(D, 1.0 / Bk), v, n1)) == Sub(MatVec(C, y), G)
    requires MatVec(A, u) == Sub(F, MatVec(ScaleMat(B, 1.0 / Bk), v))
    ensures Add(MatVec(A, u), MatVec(B, DivVec(v, Bk))) == F
    ensures Add(MatVec(C, u), DTimes(D, DivVec(v, Bk), n1)) == G
  {
    var w := DivVec(v, Bk);
    var Bw := MatVec(B, w);
    var Dw := DTimes(D, w, n1);
    // the scaled blocks on v are the unscaled blocks on w
    MatVecScaled(B, v, Bk);
    assert DTimes(ScaleBlock(D, 1.0 / Bk), v, n1) == Dw by {
      if D.Some? {
        MatVecScaled(D.value, v, Bk);
      }
    }
    // first block row
    assert MatVec(A, u) == Sub(F, Bw);
    forall i | 0 <= i < n0
      ensures Add(MatVec(A, u), Bw)[i] == F[i]
    {
    }
    // u = y - z, since both solve A x = F - B' v
    MatVecSub(A, y, z);
    assert MatVec(A, Sub(y, z)) == MatVec(A, u);
    assert u == Sub(y, z);
    // second block row: C u = C y - C z = G - D w
    MatVecSub(C, y, z);
    var Cy := MatVec(C, y);
    var Cz := MatVec(C, z);
    assert MatVec(C, u) == Sub(Cy, Cz);
    forall i | 0 <= i < n1
      ensures Add(MatVec(C, u), Dw)[i] == G[i]
    {
      assert Sub(Cz, Dw)[i] == Sub(Cy, G)[i];
    }
  }

  /** The vectors a successful back substitution computes, with what the exact sub-solvers make of them. */
  lemma BackSolveSteps(A: seq<seq<real>>, B: seq<seq<real>>, C: seq<seq<real>>, D: Option<seq<seq<real>>>,
                       Bk: real, n0: nat, n1: nat, b: seq<real>,
                       aSolve: seq<real> -> Option<seq<real>>, sSolve: seq<real> -> Option<seq<real>>)
    returns (y: seq<real>, z: seq<real>, v: seq<real>, u: seq<real>)
    requires IsMatrix(A, n0, n0) && IsMatrix(B, n0, n1) && IsMatrix(C, n1, n0)
    requires D.Some? ==> IsMatrix(D.value, n1, n1)
    requires Bk != 0.0 && n0 + n1 <= |b|
    requires LengthPreserving(aSolve) && LengthPreserving(sSolve)
    requires SolvesA(A, n0, aSolve)
    requires SolvesSchur(ScaleMat(B, 1.0 / Bk), C, ScaleBlock(D, 1.0 / Bk), n0, n1, aSolve, sSolve)
    requires BackSolveResult(n0, n1, b, ScaleMat(B, 1.0 / Bk), C, Bk, aSolve, sSolve).Some?
    ensures |y| == |z| == |u| == n0 && |v| == n1
    ensures BackSolveResult(n0, n1, b, ScaleMat(B, 1.0 / Bk), C, Bk, aSolve, sSolve).value == u + DivVec(v, Bk)
    ensures MatVec(A, y) == b[..n0]
    ensures MatVec(A, z) == MatVec(ScaleMat(B, 1.0 / Bk), v)
    ensures Sub(MatVec(C, z), DTimes(ScaleBlock(D, 1.0 / Bk), v, n1)) == Sub(MatVec(C, y), b[n0..n0 + n1])
    ensures MatVec(A, u) == Sub(b[..n0], MatVec(ScaleMat(B, 1.0 / Bk), v))
  {
    var Bs := ScaleMat(B, 1.0 / Bk);
    var Ds := ScaleBlock(D, 1.0 / Bk);
    var F := b[..n0];
    var G := b[n0..n0 + n1];
    y := aSolve(F).value;
    SolvesAAt(A, n0, aSolve, F);
    var H := Sub(MatVec(C, y), G);
    v := sSolve(H).value;
    var L := Sub(F, MatVec(Bs, v));
    u := aSolve(L).value;
    SolvesAAt(A, n0, aSolve, L);
    SolvesSchurAt(Bs, C, Ds, n0, n1, aSolve, sSolve, H);
    z := aSolve(MatVec(Bs, v)).value;
    SolvesAAt(A, n0, aSolve, MatVec(Bs, v));
  }

  /** SolvesA at one right-hand side. */
  lemma SolvesAAt(A: seq<seq<real>>, n0: nat, aSolve: seq<real> -> Option<seq<real>>, r: seq<real>)
    requires IsMatrix(A, n0, n0) && LengthPreserving(aSolve) && SolvesA(A, n0, aSolve)
    requires |r| == n0 && aSolve(r).Some?
    ensures |aSolve(r).value| == n0 && MatVec(A, aSolve(r).value) == r
  {
  }

  /** SolvesSchur at one right-hand side. */
  lemma SolvesSchurAt(B: seq<seq<real>>, C: seq<seq<real>>, D: Option<seq<seq<real>>>, n0: nat, n1: nat,
                      aSolve: seq<real> -> Option<seq<real>>, sSolve: seq<real> -> Option<seq<real>>, h: seq<real>)
    requires IsMatrix(B, n0, n1) && IsMatrix(C, n1, n0) && (D.Some? ==> IsMatrix(D.value, n1, n1))
    requires LengthPreserving(aSolve) && LengthPreserving(sSolve)
    requires SolvesSchur(B, C, D, n0, n1, aSolve, sSolve)
    requires |h| == n1 && sSolve(h).Some?
    ensures |sSolve(h).value| == n1
    ensures aSolve(MatVec(B, sSolve(h).value)).Some?
    ensures Sub(MatVec(C, aSolve(MatVec(B, sSolve(h).value)).value), DTimes(D, sSolve(h).value, n1)) == h
  {
  }

  /**
   * When the sub-solvers are exact and A is invertible, the back
   * substitution on the blocks scaled by 1/Bk returns [u; w] that solves the
   * unscaled system: A u + B w = F and C u + D w = G.
   */
  lemma BackSolveSolvesSystem(A: seq<seq<real>>, B: seq<seq<real>>, C: seq<seq<real>>, D: Option<seq<seq<real>>>,
                              Bk: real, n0: nat, n1: nat, b: seq<real>,
                              aSolve: seq<real> -> Option<seq<real>>, sSolve: seq<real> -> Option<seq<real>>)
    requires IsMatrix(A, n0, n0) && IsMatrix(B, n0, n1) && IsMatrix(C, n1, n0)
    requires D.Some? ==> IsMatrix(D.value, n1, n1)
    requires Bk != 0.0 && n0 + n1 <= |b|
    requires LengthPreserving(aSolve) && LengthPreserving(sSolve)
    requires SolvesA(A, n0, aSolve) && Injective(A, n0)
    requires SolvesSchur(ScaleMat(B, 1.0 / Bk), C, ScaleBlock(D, 1.0 / Bk), n0, n1, aSolve, sSolve)
    ensures var r := BackSolveResult(n0, n1, b, ScaleMat(B, 1.0 / Bk), C, Bk, aSolve, sSolve);
      r.Some? ==>
        Add(MatVec(A, r.value[..n0]), MatVec(B, r.value[n0..])) == b[..n0] &&
        Add(MatVec(C, r.value[..n0]), DTimes(D, r.value[n0..], n1)) == b[n0..n0 + n1]
  {
    var r := BackSolveResult(n0, n1, b, ScaleMat(B, 1.0 / Bk), C, Bk, aSolve, sSolve);
    if r.Some? {
      var y, z, v, u := BackSolveSteps(A, B, C, D, Bk, n0, n1, b, aSolve, sSolve);
      assert r.value[..n0] == u && r.value[n0..] == DivVec(v, Bk);
      BlockAlgebra(A, B, C, D, Bk, n0, n1, b[..n0], b[n0..n0 + n1], y, z, v, u);
    }
  }

  /**
   * The copy-out of the back substitution: u, then v, then the second part
   * divided by Bk in place; the rest of x is not touched.
   */
  method WriteSolution(x: array<real>, u: seq<real>, v: seq<real>, Bk: real)
    requires |u| + |v| <= x.Length && Bk != 0.0
    modifies x
    ensures x[..|u| + |v|] == u + DivVec(v, Bk)
    ensures x[|u| + |v|..] == old(x[|u| + |v|..])
  {
    var n0, n1 := |u|, |v|;
    ghost var x0 := x[..];
    var i := 0;
    while i < n0
      invariant 0 <= i <= n0
      invariant forall k :: 0 <= k < i ==> x[k] == u[k]
      invariant forall k :: i <= k < x.Length ==> x[k] == x0[k]
    {
      x[i] := u[i];
      i := i + 1;
    }
    i := 0;
    while i < n1
      invariant 0 <= i <= n1
      invariant forall k :: 0 <= k < n0 ==> x[k] == u[k]
      invariant forall k :: 0 <= k < i ==> x[n0 + k] == v[k]
      invariant forall k :: n0 + i <= k < x.Length ==> x[k] == x0[k]
    {
      x[n0 + i] := v[i];
      i := i + 1;
    }
    i := n0;
    while i < n0 + n1
      invariant n0 <= i <= n0 + n1
      invariant forall k :: 0 <= k < n0 ==> x[k] == u[k]
      invariant forall k :: n0 <= k < i ==> x[k] == v[k - n0] / Bk
      invariant forall k :: i <= k < n0 + n1 ==> x[k] == v[k - n0]
      invariant forall k :: n0 + n1 <= k < x.Length ==> x[k] == x0[k]
    {
      x[i] := x[i] / Bk;
      i := i + 1;
    }
    assert x[..n0 + n1] == u + DivVec(v, Bk);
  }

  // ---------------------------------------------------------------------
  // The solver
  // ---------------------------------------------------------------------

  class SchurSolver {
    var npart: seq<int>
    var nAsolver: ASolverChoice
    var nSchurSolver: SchurChoice
    var nSchurPreC: PreconditionerChoice
    var zeroDBlock: bool
    var Bk: real
    var iter: int
    var K: Option<BlockMatrix>
    var Asolver: Option<LinearSolverKind>
    var schurSolver: Option<SchurKind>
    var PS: Option<PreconditionerKind>

    /** Defaults: LU for A, FGMRES without preconditioner for the Schur complement, scale 1. */
    constructor ()
      ensures npart == [] && nAsolver == ALU && nSchurSolver == SchurFGMRES && nSchurPreC == PCNone
      ensures !zeroDBlock && Bk == 1.0 && iter == 0
      ensures K.None? && Asolver.None? && schurSolver.None? && PS.None?
    {
      npart := [];
      nAsolver := ALU;
      nSchurSolver := SchurFGMRES;
      nSchurPreC := PCNone;
      zeroDBlock := false;
      Bk := 1.0;
      iter := 0;
      K := None;
      Asolver := None;
      schurSolver := None;
      PS := None;
    }

    method SetPartitions(part: seq<int>)
      modifies this
      ensures npart == part
      ensures nAsolver == old(nAsolver) && nSchurSolver == old(nSchurSolver) && nSchurPreC == old(nSchurPreC)
      ensures zeroDBlock == old(zeroDBlock) && Bk == old(Bk) && iter == old(iter) && K == old(K)
      ensures Asolver == old(Asolver) && schurSolver == old(schurSolver) && PS == old(PS)
    {
      npart := part;
    }

    method SetScaleFactor(k: real)
      modifies this
      ensures Bk == k
      ensures npart == old(npart) && nAsolver == old(nAsolver) && nSchurSolver == old(nSchurSolver)
      ensures nSchurPreC == old(nSchurPreC) && zeroDBlock == old(zeroDBlock) && iter == old(iter) && K == old(K)
      ensures Asolver == old(Asolver) && schurSolver == old(schurSolver) && PS == old(PS)
    {
      Bk := k;
    }

    /**
     * Creates the block matrix for the two partitions, with index offset 0
     * for the Hypre A solver and 1 otherwise; without exactly two
     * partitions nothing is created.
     */
    method CreateSparseMatrix(ntype: MatrixType) returns (r: Option<BlockMatrix>)
      modifies this
      ensures |npart| != 2 ==> r.None? && K == old(K)
      ensures |npart| == 2 ==> r.Some? && K == r
      ensures r.Some? ==> r.value.partitions == npart && r.value.mtype == ntype
      ensures r.Some? ==> (r.value.offset == 0 <==> nAsolver == AHypre) && r.value.offset <= 1
      ensures npart == old(npart) && nAsolver == old(nAsolver) && nSchurSolver == old(nSchurSolver)
      ensures nSchurPreC == old(nSchurPreC) && zeroDBlock == old(zeroDBlock) && Bk == old(Bk) && iter == old(iter)
      ensures Asolver == old(Asolver) && schurSolver == old(schurSolver) && PS == old(PS)
    {
      if |npart| != 2 {
        return None;
      }
      var offset := if nAsolver == AHypre then 0 else 1;
      K := Some(BlockMatrix(npart, ntype, offset, [], [], Some([])));
      r := K;
    }

    /** Takes the matrix if it is a block matrix; otherwise the solver is left without one. */
    method SetSparseMatrix(A: SparseMatrix) returns (ok: bool)
      modifies this
      ensures ok <==> A.Blocked?
      ensures K == (if A.Blocked? then Some(A.bm) else None)
      ensures npart == old(npart) && nAsolver == old(nAsolver) && nSchurSolver == old(nSchurSolver)
      ensures nSchurPreC == old(nSchurPreC) && zeroDBlock == old(zeroDBlock) && Bk == old(Bk) && iter == old(iter)
      ensures Asolver == old(Asolver) && schurSolver == old(schurSolver) && PS == old(PS)
    {
      K := if A.Blocked? then Some(A.bm) else None;
      ok := K.Some?;
    }

    /**
     * Builds the sub-solvers. The foreign outcomes are: aPre, the A solver's
     * pre-processing (a diagonal PC solver always succeeds, its
     * preconditioner being set); schurSet, the FGMRES Schur solver accepting
     * the Schur complement operator; pcCreated, the Schur preconditioner's
     * set-up; schurPre, the FGMRES Schur solver's pre-processing (a PC Schur
     * solver succeeds exactly when it has a preconditioner).
     */
    method PreProcess(aPre: bool, schurSet: bool, pcCreated: bool, schurPre: bool) returns (ok: bool)
      modifies this
      ensures ok <==> PreProcessSucceeds(old(K), old(nAsolver), old(nSchurSolver), old(nSchurPreC), aPre, schurSet, pcCreated, schurPre)
      ensures ok ==> iter == 0
      ensures !ok ==> iter == old(iter)
      ensures !PartitionsReady(old(K)) ==> Asolver == old(Asolver) && schurSolver == old(schurSolver) && PS == old(PS)
      ensures PartitionsReady(old(K)) ==> Asolver == BuildASolver(old(nAsolver))
      ensures !ASolverReady(old(K), old(nAsolver), aPre) ==> schurSolver == old(schurSolver) && PS == old(PS)
      ensures ASolverReady(old(K), old(nAsolver), aPre) ==> schurSolver == BuildSchurSolver(old(nSchurSolver))
      ensures !SchurReady(old(K), old(nAsolver), old(nSchurSolver), aPre, schurSet) ==> PS == old(PS)
      ensures SchurReady(old(K), old(nAsolver), old(nSchurSolver), aPre, schurSet) ==>
        PS == BuildSchurPreconditioner(old(nSchurPreC), pcCreated)
      ensures npart == old(npart) && nAsolver == old(nAsolver) && nSchurSolver == old(nSchurSolver)
      ensures nSchurPreC == old(nSchurPreC) && zeroDBlock == old(zeroDBlock) && Bk == old(Bk) && K == old(K)
    {
      if K.None? {
        return false;
      }
      if |K.value.partitions| != 2 {
        return false;
      }
      Asolver := BuildASolver(nAsolver);
      if Asolver.None? {
        return false;
      }
      var aOk := if Asolver == Some(DiagonalPCSolver) then true else aPre;
      if !aOk {
        return false;
      }
      schurSolver := BuildSchurSolver(nSchurSolver);
      if schurSolver.None? {
        return false;
      }
      if nSchurSolver != SchurPC {
        if !schurSet {
          return false;
        }
      }
      PS := BuildSchurPreconditioner(nSchurPreC, pcCreated);
      var sOk := if schurSolver == Some(PCSchur) then PS.Some? else schurPre;
      if !sOk {
        return false;
      }
      iter := 0;
      ok := true;
    }

    /**
     * Scales B (and D when stored) by 1/Bk, then factors the A solver and the
     * Schur solver; aFactor and sFactor are their foreign outcomes (for a PC
     * Schur solver, its preconditioner's set-up).
     */
    method Factor(aFactor: bool, sFactor: bool) returns (ok: bool)
      requires K.Some? && Bk != 0.0 && Asolver.Some? && schurSolver.Some?
      modifies this
      ensures K == Some(old(K.value).(B := ScaleMat(old(K.value.B), 1.0 / old(Bk)), D := ScaleBlock(old(K.value.D), 1.0 / old(Bk))))
      ensures ok <==> aFactor && (if schurSolver == Some(PCSchur) then PS.Some? && sFactor else sFactor)
      ensures npart == old(npart) && nAsolver == old(nAsolver) && nSchurSolver == old(nSchurSolver)
      ensures nSchurPreC == old(nSchurPreC) && zeroDBlock == old(zeroDBlock) && Bk == old(Bk) && iter == old(iter)
      ensures Asolver == old(Asolver) && schurSolver == old(schurSolver) && PS == old(PS)
    {
      var m := K.value;
      K := Some(m.(B := ScaleMat(m.B, 1.0 / Bk), D := ScaleBlock(m.D, 1.0 / Bk)));
      if !aFactor {
        return false;
      }
      var sOk := if schurSolver == Some(PCSchur) then PS.Some? && sFactor else sFactor;
      if !sOk {
        return false;
      }
      ok := true;
    }

    /**
     * Solves for x from b with the three sub-solves; on success x holds u
     * then v / Bk, on failure x is not touched.
     */
    method BackSolve(x: array<real>, b: seq<real>,
                     aSolve: seq<real> -> Option<seq<real>>, sSolve: seq<real> -> Option<seq<real>>) returns (ok: bool)
      requires K.Some? && |K.value.partitions| == 2
      requires K.value.partitions[0] >= 0 && K.value.partitions[1] >= 0
      requires K.value.partitions[0] + K.value.partitions[1] <= |b| && K.value.partitions[0] + K.value.partitions[1] <= x.Length
      requires IsMatrix(K.value.B, K.value.partitions[0], K.value.partitions[1])
      requires IsMatrix(K.value.C, K.value.partitions[1], K.value.partitions[0])
      requires Bk != 0.0 && LengthPreserving(aSolve) && LengthPreserving(sSolve)
      modifies x
      ensures var n0, n1 := K.value.partitions[0], K.value.partitions[1];
        var r := BackSolveResult(n0, n1, b, K.value.B, K.value.C, Bk, aSolve, sSolve);
        (ok <==> r.Some?) &&
        (ok ==> x[..n0 + n1] == r.value && x[n0 + n1..] == old(x[n0 + n1..])) &&
        (!ok ==> x[..] == old(x[..]))
    {
      var n0: nat := K.value.partitions[0];
      var n1: nat := K.value.partitions[1];
      var B := K.value.B;
      var C := K.value.C;
      var F := b[..n0];
      var G := b[n0..n0 + n1];
      var ay := aSolve(F);
      if ay.None? {
        return false;
      }
      var y := ay.value;
      var H := Sub(MatVec(C, y), G);
      var sv := sSolve(H);
      if sv.None? {
        return false;
      }
      var v := sv.value;
      var L := Sub(F, MatVec(B, v));
      var au := aSolve(L);
      if au.None? {
        return false;
      }
      var u := au.value;
      WriteSolution(x, u, v, Bk);
      ok := true;
    }
  }

  /** Pre-processing gets past the matrix checks: a block matrix with exactly two partitions. */
  predicate PartitionsReady(K: Option<BlockMatrix>)
  {
    K.Some? && |K.value.partitions| == 2
  }

  /** Pre-processing gets past the A solver: it is built and pre-processed. */
  predicate ASolverReady(K: Option<BlockMatrix>, a: ASolverChoice, aPre: bool)
  {
    PartitionsReady(K) && BuildASolver(a).Some? && (a == ADiagonal || aPre)
  }

  /** Pre-processing gets past the Schur solver: it is built and, unless it is the PC solver, given the operator. */
  predicate SchurReady(K: Option<BlockMatrix>, a: ASolverChoice, s: SchurChoice, aPre: bool, schurSet: bool)
  {
    ASolverReady(K, a, aPre) && BuildSchurSolver(s).Some? && (s == SchurPC || schurSet)
  }

  /** Whether pre-processing gets through every check. */
  predicate PreProcessSucceeds(K: Option<BlockMatrix>, a: ASolverChoice, s: SchurChoice, p: PreconditionerChoice,
                               aPre: bool, schurSet: bool, pcCreated: bool, schurPre: bool)
  {
    && SchurReady(K, a, s, aPre, schurSet)
    && (if s == SchurPC then BuildSchurPreconditioner(p, pcCreated).Some? else schurPre)
  }

  /** Choosing CG for the Schur complement makes pre-processing fail, whatever else holds. */
  lemma CGNeverPreprocesses(K: Option<BlockMatrix>, a: ASolverChoice, p: PreconditionerChoice,
                            aPre: bool, schurSet: bool, pcCreated: bool, schurPre: bool)
    ensures !PreProcessSucceeds(K, a, SchurCG, p, aPre, schurSet, pcCreated, schurPre)
  {
  }

  /** Pre-processing fails without a block matrix with exactly two partitions. */
  lemma PreProcessNeedsTwoPartitions(K: Option<BlockMatrix>, a: ASolverChoice, s: SchurChoice, p: PreconditionerChoice,
                                     aPre: bool, schurSet: bool, pcCreated: bool, schurPre: bool)
    requires PreProcessSucceeds(K, a, s, p, aPre, schurSet, pcCreated, schurPre)
    ensures K.Some? && |K.value.partitions| == 2
  {
  }

  /** A PC Schur solver pre-processes exactly when a mass preconditioner was built. */
  lemma PCSchurNeedsPreconditioner(K: Option<BlockMatrix>, a: ASolverChoice, p: PreconditionerChoice,
                                   aPre: bool, schurSet: bool, pcCreated: bool, schurPre: bool)
    requires K.Some? && |K.value.partitions| == 2 && a != AUnknown && (a == ADiagonal || aPre)
    ensures PreProcessSucceeds(K, a, SchurPC, p, aPre, schurSet, pcCreated, schurPre)
      <==> (p == PCDiagonalMass || p == PCICholMass) && pcCreated
  {
  }

  // ---------------------------------------------------------------------
  // Equation numbers of the mass matrix
  // ---------------------------------------------------------------------

  /**
   * Moves a global equation ID into the numbering of the second partition:
   * a free equation is shifted down by N0, a constrained one is decoded and
   * shifted, and -1 stays.
   */
  function RemapEquation(lm: int, N0: nat): int
  {
    if lm >= 0 then lm - N0 else if lm < -1 then -lm - 2 - N0 else lm
  }

  /**
   * Free and constrained dofs alike land on their equation's index in the
   * second partition; first-partition equations land below 0; fixed dofs stay -1.
   */
  lemma RemapEquationMeaning(lm: int, N0: nat, N: nat)
    ensures lm == -1 ==> RemapEquation(lm, N0) == -1
    ensures lm != -1 ==> var e := if lm >= 0 then lm else -lm - 2;
      (N0 <= e < N0 + N ==> 0 <= RemapEquation(lm, N0) < N && RemapEquation(lm, N0) == e - N0) &&
      (e < N0 ==> RemapEquation(lm, N0) < 0)
  {
  }

  /** The two ways of writing a dof that refers to equation e remap alike. */
  lemma RemapIgnoresConstraint(e: nat, N0: nat)
    ensures RemapEquation(e, N0) == RemapEquation(-(e as int) - 2, N0)
  {
  }

  const ELEMENT_DOFS: nat := 4
  const MASS_DOF: nat := 3

  /** Picks dof 3 of every element node (four dofs per node) and remaps it. */
  method MassMatrixLM(lme: seq<int>, neln: nat, N0: nat) returns (lm: seq<int>)
    requires ELEMENT_DOFS * neln <= |lme|
    ensures |lm| == neln
    ensures forall i :: 0 <= i < neln ==> lm[i] == RemapEquation(lme[ELEMENT_DOFS * i + MASS_DOF], N0)
  {
    var a := new int[neln];
    var i := 0;
    while i < neln
      invariant 0 <= i <= neln
      invariant forall k :: 0 <= k < i ==> a[k] == RemapEquation(lme[ELEMENT_DOFS * k + MASS_DOF], N0)
    {
      var e := lme[i * ELEMENT_DOFS + MASS_DOF];
      if e >= 0 {
        e := e - N0;
      } else if e < -1 {
        e := -e - 2 - N0;
      }
      a[i] := e;
      i := i + 1;
    }
    lm := a[..];
  }

  // ---------------------------------------------------------------------
  // The preconditioner-only solver
  // ---------------------------------------------------------------------

  /** A preconditioner, with the matrix it was given. */
  class Preconditioner {
    var kind: PreconditionerKind
    var matrix: Option<SparseMatrix>

    constructor (kind: PreconditionerKind)
      ensures this.kind == kind && matrix.None?
    {
      this.kind := kind;
      matrix := None;
    }
  }

  /** A solver that only applies its preconditioner; every operation fails without one. */
  class PCSolver {
    var PC: Option<Preconditioner>

    constructor ()
      ensures PC.None?
    {
      PC := None;
    }

    method SetPreconditioner(pc: Preconditioner)
      modifies this
      ensures PC == Some(pc)
    {
      PC := Some(pc);
    }

    predicate HasPreconditioner()
      reads this
    {
      PC.Some?
    }

    /** This solver manages no matrix of its own. */
    function CreateSparseMatrix(ntype: MatrixType): (r: Option<SparseMatrix>)
      ensures r.None?
    {
      None
    }

    /** Hands the matrix to the preconditioner, if there is one. */
    method SetSparseMatrix(A: SparseMatrix) returns (ok: bool)
      modifies if PC.Some? then {PC.value} else {}
      ensures ok <==> HasPreconditioner()
      ensures ok ==> PC.value.matrix == Some(A) && PC.value.kind == old(PC.value.kind)
    {
      if PC.None? {
        return false;
      }
      PC.value.matrix := Some(A);
      ok := true;
    }

    method PreProcess() returns (ok: bool)
      ensures ok <==> HasPreconditioner()
    {
      ok := PC.Some?;
    }

    /** created is the outcome of the preconditioner's own set-up. */
    method Factor(created: bool) returns (ok: bool)
      ensures ok <==> HasPreconditioner() && created
    {
      if PC.None? {
        return false;
      }
      ok := created;
    }

    /** Applies the preconditioner, given as a foreign product, to b; x is written only on success. */
    method BackSolve(x: array<real>, b: seq<real>, apply: seq<real> -> Option<seq<real>>) returns (ok: bool)
      requires LengthPreserving(apply) && |b| == x.Length
      modifies x
      ensures ok <==> HasPreconditioner() && apply(b).Some?
      ensures ok ==> x[..] == apply(b).value
      ensures !ok ==> x[..] == old(x[..])
    {
      if PC.None? {
        return false;
      }
      var r := apply(b);
      if r.None? {
        return false;
      }
      var i := 0;
      while i < x.Length
        invariant 0 <= i <= x.Length
        invariant forall k :: 0 <= k < i ==> x[k] == r.value[k]
      {
        x[i] := r.value[i];
        i := i + 1;
      }
      ok := true;
    }
  }
}
