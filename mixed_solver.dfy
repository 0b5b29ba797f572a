/**
 * The mixed direct/iterative linear solver: a direct (Pardiso) and an
 * iterative (FGMRES with ILU0) solver share one compressed-row matrix, and a
 * two-state strategy picks which of them factors and solves. The first time
 * step of an analysis uses the direct solver, every later one the iterative
 * solver. The sub-solvers are foreign code: what they answer is a parameter.
 */
module MixedSolver {
  import opened Common
  import opened FECoreEnum

  /** The two strategies; the direct one has code 0, the iterative one code 1. */
  datatype Strategy = Direct | Iterative

  function StrategyCode(s: Strategy): (r: int)
    ensures r == 0 <==> s == Direct
    ensures 0 <= r <= 1
  {
    if s == Direct then 0 else 1
  }

  /** A sparse matrix as far as this solver can tell: a compressed-row matrix with its index offset, or another kind. */
  datatype SparseMatrix = CRS(offset: int) | OtherSparseMatrix

  /** A call made to one of the two sub-solvers. */
  datatype Call = FactorCall(solver: Strategy) | BackSolveCall(solver: Strategy)

  /** The strategy a factorisation selects: direct for the first time step, iterative afterwards. */
  function FactorStrategy(ntimesteps: int): (r: Strategy)
    ensures r == Direct <==> ntimesteps == 0
  {
    if ntimesteps == 0 then Direct else Iterative
  }

  /**
   * The strategy in force once a back substitution has made its check: a
   * direct strategy past the first time step is switched to iterative.
   */
  function BackSolveStrategy(s: Strategy, ntimesteps: int): (r: Strategy)
    ensures ntimesteps > 0 ==> r == Iterative
    ensures ntimesteps <= 0 ==> r == s
  {
    match s
    case Direct => if ntimesteps > 0 then Iterative else Direct
    case Iterative => Iterative
  }

  /**
   * The sub-solver calls of a back substitution from strategy s, where
   * refactorOk is the iterative solver's answer to a factorisation: on a
   * switch the iterative solver is factored first, and a failed factorisation
   * ends the back substitution there.
   */
  function BackSolveCalls(s: Strategy, ntimesteps: int, refactorOk: bool): (r: seq<Call>)
    ensures |r| >= 1 && r[0].solver == BackSolveStrategy(s, ntimesteps)
    ensures r[|r| - 1].BackSolveCall? <==> (BackSolveStrategy(s, ntimesteps) == s || refactorOk)
    ensures forall k :: 0 <= k < |r| ==> r[k].solver == BackSolveStrategy(s, ntimesteps)
    ensures r[0].FactorCall? <==> BackSolveStrategy(s, ntimesteps) != s
  {
    if ntimesteps > 0 && s == Direct then
      if refactorOk then [FactorCall(Iterative), BackSolveCall(Iterative)] else [FactorCall(Iterative)]
    else [BackSolveCall(s)]
  }

  /** A back substitution in the same time step as the factorisation never refactors. */
  lemma FactorThenBackSolveDoesNotRefactor(ntimesteps: nat, refactorOk: bool)
    ensures BackSolveCalls(FactorStrategy(ntimesteps), ntimesteps, refactorOk) == [BackSolveCall(FactorStrategy(ntimesteps))]
  {
  }

  /** Past the first time step, whatever the strategy was, only the iterative solver is called. */
  lemma LaterStepsAreIterative(s: Strategy, ntimesteps: int, refactorOk: bool)
    requires ntimesteps > 0
    ensures forall c :: c in BackSolveCalls(s, ntimesteps, refactorOk) ==> c.solver == Iterative
  {
  }

  class MixedLinearSolver {
    var strategy: Strategy
    /** The shared matrix, once one has been created or set; None when the last one set was not compressed-row. */
    var A: Option<SparseMatrix>

    /** A new solver starts with the direct strategy and no matrix. */
    constructor ()
      ensures strategy == Direct && A.None?
    {
      strategy := Direct;
      A := None;
    }

    /** Changes the strategy only when it differs; switched tells whether it did. */
    method SetSolverStrategy(n: Strategy) returns (switched: bool)
      modifies this
      ensures strategy == n && A == old(A)
      ensures switched <==> old(strategy) != n
    {
      switched := strategy != n;
      if switched {
        strategy := n;
      }
    }

    /**
     * Creates a compressed-row matrix with offset 1 for a real unsymmetric
     * problem and hands it to both sub-solvers, whose answers are
     * directAccepts and iterativeAccepts. The matrix is kept even when a
     * sub-solver refuses it, but then none is returned.
     */
    method CreateSparseMatrix(ntype: MatrixType, directAccepts: bool, iterativeAccepts: bool) returns (r: Option<SparseMatrix>)
      modifies this
      ensures ntype != RealUnsymmetric ==> r.None? && A == old(A)
      ensures ntype == RealUnsymmetric ==> A == Some(CRS(1))
      ensures r.Some? <==> ntype == RealUnsymmetric && directAccepts && iterativeAccepts
      ensures r.Some? ==> r == A
      ensures strategy == old(strategy)
    {
      if ntype != RealUnsymmetric {
        return None;
      }
      A := Some(CRS(1));
      if !directAccepts {
        return None;
      }
      if !iterativeAccepts {
        return None;
      }
      r := A;
    }

    /**
     * Takes a matrix if it is compressed-row; it is accepted when its offset
     * is 1 and both sub-solvers accept it.
     */
    method SetSparseMatrix(pA: SparseMatrix, directAccepts: bool, iterativeAccepts: bool) returns (ok: bool)
      modifies this
      ensures A == (if pA.CRS? then Some(pA) else None)
      ensures ok <==> pA.CRS? && pA.offset == 1 && directAccepts && iterativeAccepts
      ensures strategy == old(strategy)
    {
      A := if pA.CRS? then Some(pA) else None;
      if A.None? {
        return false;
      }
      if A.value.offset != 1 {
        return false;
      }
      if !directAccepts {
        return false;
      }
      if !iterativeAccepts {
        return false;
      }
      ok := true;
    }

    /** Pre-processing needs both sub-solvers to pre-process. */
    method PreProcess(directOk: bool, iterativeOk: bool) returns (ok: bool)
      ensures ok <==> directOk && iterativeOk
    {
      if !directOk {
        return false;
      }
      if !iterativeOk {
        return false;
      }
      ok := true;
    }

    /**
     * Selects the strategy for the current time step and factors only the
     * selected sub-solver; factorOk is each sub-solver's answer.
     */
    method Factor(ntimesteps: int, factorOk: Strategy -> bool) returns (ok: bool, called: Call)
      modifies this
      ensures strategy == FactorStrategy(ntimesteps) && A == old(A)
      ensures called == FactorCall(strategy)
      ensures ok == factorOk(strategy)
    {
      if ntimesteps == 0 {
        var _ := SetSolverStrategy(Direct);
      } else {
        var _ := SetSolverStrategy(Iterative);
      }
      called := FactorCall(strategy);
      ok := factorOk(strategy);
    }

    /**
     * Past the first time step a direct strategy switches to iterative and
     * factors it first, failing if that factorisation fails; then the
     * sub-solver of the current strategy solves, and its answer is solveOk.
     */
    method BackSolve(ntimesteps: int, refactorOk: bool, solveOk: Strategy -> bool) returns (ok: bool, calls: seq<Call>)
      modifies this
      ensures strategy == BackSolveStrategy(old(strategy), ntimesteps) && A == old(A)
      ensures calls == BackSolveCalls(old(strategy), ntimesteps, refactorOk)
      ensures ok <==> calls[|calls| - 1].BackSolveCall? && solveOk(strategy)
    {
      calls := [];
      if ntimesteps > 0 && strategy == Direct {
        var _ := SetSolverStrategy(Iterative);
        calls := calls + [FactorCall(strategy)];
        if !refactorOk {
          return false, calls;
        }
      }
      calls := calls + [BackSolveCall(strategy)];
      ok := solveOk(strategy);
    }
  }
}
