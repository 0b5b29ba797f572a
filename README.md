# FEBio bookkeeping core, modelled in Dafny

This project models the discrete bookkeeping around the FEBio finite-element engine and proves properties of it. The numerical kernels are not modelled. The modules are:

- **ExplicitSolver** (`explicit_solver.dfy`): the explicit solid solver.
  - Covered: the equation-ID code (`>= 0` free, `-1` fixed, `< -1` constrained to `-ID-2`) and the staged equation numbering of `InitEquations`.
  - Covered: the checkpoint order of `Serialize`, the exception-to-result mapping of `SolveStep`, the counter and state reset of `PrepStep` with its prescribed displacement increments, and the accumulation at the end of an iteration.
  - Covered: the lumped element mass and its per-node fractions.
- **Schur** (`schur_solver.dfy`): the Schur-complement block solver.
  - Covered: its configuration and the sub-solver factories, the `PreProcess` guards, and `Factor`'s `1/Bk` scaling.
  - Covered: the three-solve `BackSolve`, proved to solve the unscaled two-block system.
  - Covered: the equation remap of the mass-matrix builder, and the preconditioner-only `PCSolver`.
- **MixedSolver** (`mixed_solver.dfy`): the direct/iterative strategy machine of the mixed linear solver and its input guards.
- **BiphasicSolute** (`biphasic_solute_domain.dfy`): the biphasic-solute domain.
  - Covered: the element location vector built by `UnpackLM`, and its 5-dof-per-node reordering for stiffness assembly.
  - Covered: the residual scatter, and the two symmetrisation passes on element matrices.
  - Covered: the aggregation of negative-Jacobian errors in `UpdateStresses`.
- **RestartImport** (`restart_import.dfy`): the XML restart reader.
  - Covered: the `Control` section parser with its `time_stepper` sub-section and the `plot_level` table.
  - Covered: the derived times, and the root, version and Archive checks of `Load`.
- **StdSolver** (`std_solver.dfy`): the standard and restart tasks.
  - Covered: the null-model guards.
  - Covered: the choice between binary dump and XML restart, made from the text after the last `.`.
  - Covered: the restart's Init.
- **FECoreEnum** (`fecore_enum.dfy`): the element, analysis, plot-level and matrix-type enumerations with their numeric codes, and the element specification's constructor and equality.
- **FEDataStore** (`data_store.dfy`): the data store, which hands out sequential record ids.
- **ElasticMixture** (`elastic_mixture.dfy`): the uncoupled elastic mixture.
  - Covered: bulk-modulus initialisation, sub-point creation and local frames.
  - Covered: the weighted sums that compose its stress, tangent and energy.
- **FiberDamage** (`fiber_damage.dfy`): the history variables of the continuous fiber damage point (reset, commit, monotone accumulators, one-time latch), the clamped stress argument, and the exponential fiber's guarded `m` functions.
- **Common** and **LinAlg** (`common.dfy`, `linalg.dfy`): sums and small vector and matrix operations used by the others.

Sub-solvers, material laws and foreign routines are parameters of the model:
- a sub-solver is a function that may fail;
- a material law is a function of the component index, the kinematics and the frame;
- the exponential and the damage and saturation laws are real functions.

Exceptions raised by code outside the core, and the results of file opens, become boolean or datatype inputs.

## Model

| member | source | states |
|---|---|---|
| ExplicitSolver.DecodeID | FEBioMech/FEExplicitSolidSolver.cpp:170-183 | decoding an ID gives the state that encodes back to it; `>= 0` exactly when free, `-1` exactly when fixed |
| ExplicitSolver.DecodeEncode | FEBioMech/FEExplicitSolidSolver.cpp:170-183 | encoding then decoding a dof state gives it back |
| ExplicitSolver.RefToDecodes | FEBioMech/FEExplicitSolidSolver.cpp:234-239 | `-LM-2` of a body dof decodes as fixed when `LM == -1` and as constrained to equation `LM` when `LM >= 0` |
| ExplicitSolver.CountFreeBound | FEBioMech/FEExplicitSolidSolver.cpp:196-204 | the number of free dofs never exceeds the number of dofs |
| ExplicitSolver.CountFreeMono | FEBioMech/FEExplicitSolidSolver.cpp:196-204 | the running count of free dofs grows with the prefix, strictly past a free dof |
| ExplicitSolver.CountFreeOnto | FEBioMech/FEExplicitSolidSolver.cpp:196-204 | every number below the count is the running count at some free dof |
| ExplicitSolver.NumberIsDense | FEBioMech/FEExplicitSolidSolver.cpp:196-204 | the free dofs get strictly increasing numbers that fill `[start, start + count)`, and negative IDs are kept |
| ExplicitSolver.CountFreeAppend | FEBioMech/FEExplicitSolidSolver.cpp:196-204 | the free-dof count of a concatenation is the sum of the counts |
| ExplicitSolver.NumberAppend | FEBioMech/FEExplicitSolidSolver.cpp:196-204 | numbering a concatenation numbers the second part from where the first stopped |
| ExplicitSolver.NumberNodeDofs | FEBioMech/FEExplicitSolidSolver.cpp:199-204 | the dof loop of one node numbers its free dofs from the running counter and returns the counter advanced by their count |
| ExplicitSolver.NodeByNodeIsNodeMajor | FEBioMech/FEExplicitSolidSolver.cpp:196-204 | numbering node by node equals numbering the node-major flattening of all dofs from 0 |
| ExplicitSolver.NumberFreeDofs | FEBioMech/FEExplicitSolidSolver.cpp:196-207 | rewrites every node's IDs node by node, and returns `nreq`, the number of free dofs on entry |
| ExplicitSolver.RigidNumbersRange | FEBioMech/FEExplicitSolidSolver.cpp:207-224 | rigid dofs with `BC >= 0` get increasing numbers filling `[nreq, nreq + count)`; the others get `-1` |
| ExplicitSolver.NumberRigidDofs | FEBioMech/FEExplicitSolidSolver.cpp:207-224 | the rigid loop writes exactly that table and returns `neq = nreq + count` |
| ExplicitSolver.RigidSlot | FEBioMech/FEExplicitSolidSolver.cpp:228-241 | exactly the dofs X, Y, Z, RU, RV and RW have a rigid-body slot, which is below 6 |
| ExplicitSolver.AttachRigidNodes | FEBioMech/FEExplicitSolidSolver.cpp:228-241 | a node attached to a body gets `-LM-2` of that body in its six rigid slots; every other ID is kept |
| ExplicitSolver.ReencodePrescribed | FEBioMech/FEExplicitSolidSolver.cpp:243-253 | a rigid dof with `BC > 0` and `LM >= 0` becomes `-LM-2`; every other entry is kept |
| ExplicitSolver.RigidTableDecodes | FEBioMech/FEExplicitSolidSolver.cpp:207-253 | after both rigid passes, a body dof decodes as fixed (`BC < 0`), as free (`BC == 0`) or as constrained (`BC > 0`), always to its number in `[nreq, neq)` |
| ExplicitSolver.AttachedNodeDecodes | FEBioMech/FEExplicitSolidSolver.cpp:228-241 | an attached node's rigid dof decodes as fixed, or as constrained to its body's equation number |
| ExplicitSolver.NumberEquations | FEBioMech/FEExplicitSolidSolver.cpp:196-253 | the four numbering stages over the node IDs and the rigid table: `nreq` counts the free dofs, `neq` adds the active rigid dofs, the table ends renumbered then re-encoded, and each node's IDs are its dense numbering with the attached rigid slots replaced |
| ExplicitSolver.ExplicitSolidSolver.InitEquations | FEBioMech/FEExplicitSolidSolver.cpp:184-257 | runs all stages in order: `nreq` is the free-dof count, `neq = nreq +` the active rigid dofs, the rigid table is renumbered then re-encoded, attached nodes reference their body, and nothing else changes |
| ExplicitSolver.SaveOrder | FEBioMech/FEExplicitSolidSolver.cpp:609-627 | the seven counters are written as seven values that the load order reads back into the same counters |
| ExplicitSolver.LoadThenSave | FEBioMech/FEExplicitSolidSolver.cpp:609-627 | reading seven values and writing them again gives the same seven values |
| ExplicitSolver.ExplicitSolidSolver.Serialize | FEBioMech/FEExplicitSolidSolver.cpp:609-627 | saving appends the counters in save order and changes nothing; loading consumes seven values and sets the counters from them |
| ExplicitSolver.SolveStep | FEBioMech/FEExplicitSolidSolver.cpp:633-687 | true on `ForceConversion`; false on the six caught exceptions; otherwise the inner result, with other exceptions passing through |
| ExplicitSolver.SnapshotIdempotent | FEBioMech/FEExplicitSolidSolver.cpp:709-717 | the snapshot copies the current position, velocity, acceleration and concentrations into the previous ones, and a second snapshot changes nothing |
| ExplicitSolver.ExplicitSolidSolver.PrepStep | FEBioMech/FEExplicitSolidSolver.cpp:692-904 | zeroes the five iteration counters and the total increment, snapshots every node, and sets `ui` to zeros overwritten by the prescribed increments in BC order and then by the rigid bodies' displacements; the equation numbers, `Ut` and the damping factor are kept |
| ExplicitSolver.SnapshotNodes | FEBioMech/FEExplicitSolidSolver.cpp:706-717 | every node ends as the snapshot of its state before the call |
| ExplicitSolver.PrescribedIncrements | FEBioMech/FEExplicitSolidSolver.cpp:724-802 | the loop over the writes yields zeros overwritten by each write whose equation `-ID-2` lies in `[0, neq)` |
| ExplicitSolver.IncrementsUntouched | FEBioMech/FEExplicitSolidSolver.cpp:726-802 | an entry that no write addresses inside `[0, neq)` keeps its value, so `ui` is zero there |
| ExplicitSolver.StoreRigidDisplacements | FEBioMech/FEExplicitSolidSolver.cpp:895-904 | each rigid dof whose equation `-LM-2` is not negative receives the body's displacement, later writes overwriting earlier ones |
| ExplicitSolver.IncrementsLastWins | FEBioMech/FEExplicitSolidSolver.cpp:726-802 | an equation in `[0, neq)` holds the value of the last write addressed to it |
| ExplicitSolver.FirstIncrementIsTotal | FEBioMech/FEExplicitSolidSolver.cpp:704 | after the reset, the first accumulation of an increment gives that increment |
| ExplicitSolver.ExplicitSolidSolver.FinishIteration | FEBioMech/FEExplicitSolidSolver.cpp:1140-1166 | adds the iteration increment to the step increment, then the step increment to the total; `niter` goes up by one; the result is true |
| ExplicitSolver.Expand | FEBioMech/FEExplicitSolidSolver.cpp:103-121 | the element mass matrix is square of size `3*neln` |
| ExplicitSolver.LumpedAsWritten | FEBioMech/FEExplicitSolidSolver.cpp:125-132 | the row sums as the loop writes them, over the first `neln` columns only, one per row |
| ExplicitSolver.LumpedAsWrittenDropsDirections | FEBioMech/FEExplicitSolidSolver.cpp:125-132 | for one node with unit mass, the loop as written lumps `[1, 0, 0]` where the full row sums give `[1, 1, 1]` |
| ExplicitSolver.ExpandEntry | FEBioMech/FEExplicitSolidSolver.cpp:114-121 | entry `(3i+a, 3j+b)` of the expanded matrix is the nodal mass when `a == b` and zero otherwise |
| ExplicitSolver.ExpandedRowPrefix | FEBioMech/FEExplicitSolidSolver.cpp:114-132 | summing a row of the expanded matrix over `3m` columns gives the nodal row over `m` columns |
| ExplicitSolver.LumpedIsNodeMass | FEBioMech/FEExplicitSolidSolver.cpp:125-132 | with full rows, each of a node's three lumped entries is that node's row sum of the nodal mass matrix |
| ExplicitSolver.TriplesSum | FEBioMech/FEExplicitSolidSolver.cpp:141-144 | grouping the lumped entries by node keeps their sum |
| ExplicitSolver.FractionsSumToOne | FEBioMech/FEExplicitSolidSolver.cpp:124-144 | whenever the total is nonzero, the node fractions sum to one, the total being the lumped sum divided by 3 |
| ExplicitSolver.RowSum | FEBioMech/FEExplicitSolidSolver.cpp:127-130 | the inner loop returns the sum of the row's first `m` entries |
| ExplicitSolver.LumpRows | FEBioMech/FEExplicitSolidSolver.cpp:125-132 | returns the lumped vector and its running sum (corrected full-row lumping; the loop as written is `LumpedAsWritten`) |
| ExplicitSolver.NodeShares | FEBioMech/FEExplicitSolidSolver.cpp:141-144 | the node loop returns each node's three lumped entries over three times the total |
| ExplicitSolver.LumpElementMass | FEBioMech/FEExplicitSolidSolver.cpp:124-144 | the total is the lumped sum over 3; for a nonzero total, fractions exist and sum to one (corrected full-row lumping; the loop as written is `LumpedAsWritten`) |
| ExplicitSolver.ExplicitSolidSolver.constructor | FEBioMech/FEExplicitSolidSolver.cpp:18-23 | a new solver has damping factor 0.99, zero `niter` and `nreq`, and empty vectors |
| Schur.BuildASolver | NumCore/SchurSolver.cpp:143-191 | every known A-block choice builds a solver (diagonal gives the diagonal preconditioner solver, LU gives Pardiso); an unknown one gives none |
| Schur.BuildSchurSolver | NumCore/SchurSolver.cpp:196-235 | only FGMRES and PC give a solver; CG builds one but returns none |
| Schur.BuildSchurPreconditioner | NumCore/SchurSolver.cpp:240-279 | only the two mass preconditioners give one, and only when it was created |
| Schur.BackSolveResult | NumCore/SchurSolver.cpp:361-408 | the result has length `n0 + n1`, and exists exactly when all three sub-solves succeed in order |
| Schur.BlockAlgebra | NumCore/SchurSolver.cpp:346-406 | the vectors the three solves produce, with `v` divided by `Bk`, solve `A u + B w = F` and `C u + D w = G` |
| Schur.BackSolveSteps | NumCore/SchurSolver.cpp:382-406 | a successful result is `u` followed by `v / Bk`, where `A y = F`, `S v = C y - G` and `A u = F - B v` |
| Schur.BackSolveSolvesSystem | NumCore/SchurSolver.cpp:346-406 | with exact sub-solvers, any result solves the unscaled two-block system |
| Schur.SchurSolver.constructor | NumCore/SchurSolver.cpp:15-37 | the default options and an empty state |
| Schur.SchurSolver.SetPartitions | NumCore/SchurSolver.cpp:81-84 | stores the partitions and changes nothing else |
| Schur.SchurSolver.SetScaleFactor | NumCore/SchurSolver.cpp:117-120 | stores `Bk` and changes nothing else |
| Schur.SchurSolver.CreateSparseMatrix | NumCore/SchurSolver.cpp:124-130 | no matrix unless exactly two partitions are set; otherwise a block matrix with those partitions, offset 0 only for Hypre |
| Schur.SchurSolver.SetSparseMatrix | NumCore/SchurSolver.cpp:134-139 | accepts exactly block matrices |
| Schur.SchurSolver.PreProcess | NumCore/SchurSolver.cpp:285-327 | succeeds exactly when every guard passes; on success `iter` is 0, on failure it is kept; each sub-solver field is rebuilt exactly when the guards before its assignment pass and is left as it was otherwise, so the A solver is rebuilt once the matrix has two partitions, the Schur solver once the A solver pre-processes, and the preconditioner once the Schur solver has its operator |
| Schur.CGNeverPreprocesses | NumCore/SchurSolver.cpp:218-235 | choosing CG for the Schur system always makes pre-processing fail |
| Schur.PreProcessNeedsTwoPartitions | NumCore/SchurSolver.cpp:288-299 | successful pre-processing implies a matrix with two partitions |
| Schur.PCSchurNeedsPreconditioner | NumCore/SchurSolver.cpp:240-279 | with the PC Schur solver and the earlier checks passed, pre-processing succeeds exactly when a mass preconditioner was built |
| Schur.SchurSolver.Factor | NumCore/SchurSolver.cpp:332-356 | B and D are scaled by `1/Bk` first; the result is the A factor and then the Schur factor |
| Schur.SchurSolver.BackSolve | NumCore/SchurSolver.cpp:361-408 | returns true exactly when the result exists; then `x` holds `u` then `v / Bk`; on failure `x` is untouched |
| Schur.WriteSolution | NumCore/SchurSolver.cpp:400-405 | the copy-out loops leave `u` then `v / Bk` at the front of `x` and the rest untouched |
| Schur.RemapEquationMeaning | NumCore/SchurSolver.cpp:453-458 | `-1` is kept; a free or constrained dof of a second-partition equation lands on that equation's index in the partition; a first-partition equation lands below 0 |
| Schur.RemapIgnoresConstraint | NumCore/SchurSolver.cpp:453-458 | a free equation and the same equation constrained remap alike |
| Schur.MassMatrixLM | NumCore/SchurSolver.cpp:515-521 | node `i` gets the remapped ID of its mass dof |
| Schur.PCSolver.SetPreconditioner | NumCore/SchurSolver.cpp:596-599 | stores the preconditioner |
| Schur.PCSolver.CreateSparseMatrix | NumCore/SchurSolver.cpp:606-610 | never creates a matrix |
| Schur.PCSolver.SetSparseMatrix | NumCore/SchurSolver.cpp:612-617 | succeeds exactly when a preconditioner is set, which then holds the matrix |
| Schur.PCSolver.PreProcess | NumCore/SchurSolver.cpp:619-623 | succeeds exactly when a preconditioner is set |
| Schur.PCSolver.Factor | NumCore/SchurSolver.cpp:625-629 | succeeds exactly when a preconditioner is set and its creation succeeds |
| Schur.PCSolver.BackSolve | NumCore/SchurSolver.cpp:631-635 | succeeds exactly when a preconditioner is set and applying it succeeds; then `x` is its result, otherwise `x` is untouched |
| MixedSolver.StrategyCode | NumCore/MixedLinearSolver.cpp:33-39 | DIRECT is code 0 and ITERATIVE code 1 |
| MixedSolver.FactorStrategy | NumCore/MixedLinearSolver.cpp:110-116 | DIRECT exactly on the first time step |
| MixedSolver.BackSolveStrategy | NumCore/MixedLinearSolver.cpp:122-131 | ITERATIVE after the first time step; otherwise the strategy is kept |
| MixedSolver.BackSolveCalls | NumCore/MixedLinearSolver.cpp:122-131 | every call goes to the selected solver; a factor comes first exactly on a switch; the back-solve runs unless that factor fails |
| MixedSolver.FactorThenBackSolveDoesNotRefactor | NumCore/MixedLinearSolver.cpp:107-131 | after `Factor`, a `BackSolve` in the same step only back-solves |
| MixedSolver.LaterStepsAreIterative | NumCore/MixedLinearSolver.cpp:122-131 | after the first step, every call goes to the iterative solver |
| MixedSolver.MixedLinearSolver.constructor | NumCore/MixedLinearSolver.cpp:33-39 | a new solver starts DIRECT, without a matrix |
| MixedSolver.MixedLinearSolver.SetSolverStrategy | NumCore/MixedLinearSolver.cpp:47-54 | sets the strategy, and reports a switch exactly when it differed |
| MixedSolver.MixedLinearSolver.CreateSparseMatrix | NumCore/MixedLinearSolver.cpp:76-85 | no matrix for a type other than real unsymmetric; otherwise an offset-1 CRS matrix that both sub-solvers must accept |
| MixedSolver.MixedLinearSolver.SetSparseMatrix | NumCore/MixedLinearSolver.cpp:87-97 | succeeds exactly for a CRS matrix with offset 1 that both sub-solvers accept |
| MixedSolver.MixedLinearSolver.PreProcess | NumCore/MixedLinearSolver.cpp:99-105 | succeeds exactly when both sub-solvers pre-process |
| MixedSolver.MixedLinearSolver.Factor | NumCore/MixedLinearSolver.cpp:107-117 | selects the strategy from the step count and factors only that solver |
| MixedSolver.MixedLinearSolver.BackSolve | NumCore/MixedLinearSolver.cpp:119-132 | switches to ITERATIVE after the first step, and re-factors on a switch; the result is false if that factor fails, otherwise the selected solver's back-solve |
| BiphasicSolute.BlockStartIsProduct | FEBioMix/FEBiphasicSoluteDomain.cpp:42-73 | block `b` of the location vector starts at `b*N` |
| BiphasicSolute.SlotInjective | FEBioMix/FEBiphasicSoluteDomain.cpp:52-73 | different (block, node) pairs have different slots |
| BiphasicSolute.ConcSlotBounds | FEBioMix/FEBiphasicSoluteDomain.cpp:72-73 | the concentration slots lie between block 11 and block `11 + cdofs` |
| BiphasicSolute.UnpackFits | FEBioMix/FEBiphasicSoluteDomain.cpp:42 | the writes fit in `N*MAX_NDOFS` exactly when `MAX_NDOFS >= 11 + cdofs` |
| BiphasicSolute.UnpackLM | FEBioMix/FEBiphasicSoluteDomain.cpp:34-76 | gives length `N*MAX_NDOFS`; every node's displacement, pressure, rotation, tenth and concentration IDs are in their slots; the fill slots are `-1`; the tail is zero |
| BiphasicSolute.UnpackNode | FEBioMix/FEBiphasicSoluteDomain.cpp:47-75 | one node's pass unpacks that node and keeps every other node unpacked |
| BiphasicSolute.OtherNodeKept | FEBioMix/FEBiphasicSoluteDomain.cpp:52-73 | a pass writing only one node's slots keeps every other node unpacked |
| BiphasicSolute.UnpackNodeLinear | FEBioMix/FEBiphasicSoluteDomain.cpp:52-69 | sets the node's displacement, pressure, rotation, fill (`-1`) and tenth slots, and nothing else |
| BiphasicSolute.PutDispAndPressure | FEBioMix/FEBiphasicSoluteDomain.cpp:51-57 | sets the node's three displacement slots and its pressure slot, and nothing else |
| BiphasicSolute.PutRotationsAndRest | FEBioMix/FEBiphasicSoluteDomain.cpp:59-69 | sets the node's rotation slots, its three fill slots to `-1` and its tenth slot, and nothing else |
| BiphasicSolute.LinearUnchanged | FEBioMix/FEBiphasicSoluteDomain.cpp:71-73 | the concentration writes, which lie past the first `11N` slots, keep the node's other slots |
| BiphasicSolute.UnpackConcentrations | FEBioMix/FEBiphasicSoluteDomain.cpp:71-74 | sets the node's concentration slots and nothing outside them |
| BiphasicSolute.StiffnessLM | FEBioMix/FEBiphasicSoluteDomain.cpp:847-856 | node `i` gets `[elm[3i], elm[3i+1], elm[3i+2], elm[3N+i], elm[dofc*N+i]]` |
| BiphasicSolute.ReorderedIsNodeMajor | FEBioMix/FEBiphasicSoluteDomain.cpp:897-906 | on an unpacked vector the reordering gives each node's displacement, pressure and concentration IDs |
| BiphasicSolute.Scatter | FEBioMix/FEBiphasicSoluteDomain.cpp:299-304 | the residual keeps its length |
| BiphasicSolute.ScatterLeavesOthers | FEBioMix/FEBiphasicSoluteDomain.cpp:299-304 | a residual entry that the element does not reference is unchanged |
| BiphasicSolute.ScatterAddsOnce | FEBioMix/FEBiphasicSoluteDomain.cpp:365-371 | with distinct equation numbers, each non-negative one receives exactly its element value |
| BiphasicSolute.ScatterAdd | FEBioMix/FEBiphasicSoluteDomain.cpp:365-371 | the loop gives the scatter of the element's block into the residual |
| BiphasicSolute.UpperMirroredIsSymmetric | FEBioMix/FEBiphasicSoluteDomain.cpp:1440-1444 | the mirrored block is symmetric, keeps the upper triangle, and leaves a symmetric block as it was |
| BiphasicSolute.CopyUpperToLower | FEBioMix/FEBiphasicSoluteDomain.cpp:1429-1445 | the array ends as the upper triangle mirrored over the leading `3N` block |
| BiphasicSolute.AveragedIsSymmetric | FEBioMix/FEBiphasicSoluteDomain.cpp:1199-1205 | the averaged block is symmetric, keeps the diagonal, and leaves a symmetric block as it was |
| BiphasicSolute.AverageSymmetrise | FEBioMix/FEBiphasicSoluteDomain.cpp:1411-1417 | the array ends as the pairwise average over the leading `5N` block |
| BiphasicSolute.AnyNegativeJacobian | FEBioMix/FEBiphasicSoluteDomain.cpp:1656-1672 | true exactly when some element hit a negative Jacobian |
| BiphasicSolute.UpdateStresses | FEBioMix/FEBiphasicSoluteDomain.cpp:1652-1681 | every element is visited in order, and one restart is requested exactly when some element hit a negative Jacobian |
| RestartImport.PlotLevelName | FEBioXML/FERestartImport.cpp:45-51 | every plot-level name starts with `PLOT_` |
| RestartImport.PlotLevelOf | FEBioXML/FERestartImport.cpp:43-52 | a string is mapped to the level whose name it is, and to nothing when no level has that name |
| RestartImport.PlotLevelNamesRoundTrip | FEBioXML/FERestartImport.cpp:43-52 | each level's name maps back to it, and the seven names are distinct |
| RestartImport.ErrorSticks | FEBioXML/FERestartImport.cpp:20-58 | once a tag fails, the tags after it are not read |
| RestartImport.ApplyStepperTag | FEBioXML/FERestartImport.cpp:32-35 | only `max_retries`, `opt_iter` and `dtmin` are accepted, any other tag is `InvalidTag` with nothing changed, and the step's own fields are never touched |
| RestartImport.StepperKeepsStepFields | FEBioXML/FERestartImport.cpp:25-39 | the `time_stepper` section never changes the step's own fields |
| RestartImport.ApplyControlTag | FEBioXML/FERestartImport.cpp:22-54 | an unknown tag is `InvalidTag`; `plot_level` fails with `InvalidValue` exactly on an unknown name and otherwise sets the named level; `time_stepper` sets autostep and only stepper fields |
| RestartImport.ParsedControlHasKnownTags | FEBioXML/FERestartImport.cpp:22-54 | a section that parses without error holds only known tags |
| RestartImport.AutostepNeedsStepperTag | FEBioXML/FERestartImport.cpp:25-27 | without a `time_stepper` tag, autostep and the stepper fields are unchanged |
| RestartImport.ParseTimeStepper | FEBioXML/FERestartImport.cpp:25-39 | the loop applies the stepper tags in order and stops at the first error |
| RestartImport.ParseControlTag | FEBioXML/FERestartImport.cpp:22-54 | one tag's dispatch changes the step as the tag rule says |
| RestartImport.ParseControl | FEBioXML/FERestartImport.cpp:14-63 | the step ends as the tag run says; on success the time increment is `dt0` and `tstart = tend = ntime*dt0`; on error the times are unchanged |
| RestartImport.VersionNumber | FEBioXML/FERestartImport.cpp:112-117 | "1.0" maps to 1, "2.0" to 2, and anything else to -1 |
| RestartImport.LoadPath | FEBioXML/FERestartImport.cpp:85-157 | open failure, a missing root, a bad version and a non-Archive first tag each end the load on their own return; exceptions are caught |
| RestartImport.RestartImporter.constructor | FEBioXML/FERestartImport.cpp:70-73 | no file is open and no section is registered |
| RestartImport.RestartImporter.Load | FEBioXML/FERestartImport.cpp:82-157 | true exactly on the finishing path; the file stays open after an early error return; Control and LoadData (redefining curves) are registered, Step only for version 2; the file version is 0x0205 |
| StdSolver.LastDot | FEBioLib/FEBioStdSolver.cpp:60 | the position of a `.` with none after it, or none when the path has no `.` |
| StdSolver.Extension | FEBioLib/FEBioStdSolver.cpp:60 | the text from the last `.`, which contains no other `.`; absent exactly when the path has no `.` |
| StdSolver.LastDotSkipsDotless | FEBioLib/FEBioStdSolver.cpp:60 | appending text without a `.` does not move the last `.` |
| StdSolver.DumpExtensionIsBinary | FEBioLib/FEBioStdSolver.cpp:61 | any path ending in ".dmp" or ".DMP" is read as a binary dump |
| StdSolver.MixedCaseExtensionIsXml | FEBioLib/FEBioStdSolver.cpp:61 | a path ending in ".Dmp" is read as XML |
| StdSolver.DottedDirectoryMakesXml | FEBioLib/FEBioStdSolver.cpp:60 | a dotless file name inside a dotted directory is read as XML |
| StdSolver.StdSolverInit | FEBioLib/FEBioStdSolver.cpp:38-41 | true exactly when there is a model and its Init succeeds |
| StdSolver.StdSolverRun | FEBioLib/FEBioStdSolver.cpp:45-49 | true exactly when there is a model and its Solve succeeds; the restart task's Run (lines 118-122) has the same body and is modelled by this same function |
| StdSolver.RestartInit | FEBioLib/FEBioStdSolver.cpp:52-115 | succeeds exactly when the chosen reader loads and the log reopens for appending; a new log is opened exactly when the reader loads and the reopen fails, and the Init then fails; the XML reader's dump name is adopted when not empty |
| FECoreEnum.ClassCode | FECore/fecore_enum.h:31-44 | the wire class is 100, distinct from every other class code, which is below 9 |
| FECoreEnum.ClassCodeInjective | FECore/fecore_enum.h:31-44 | different classes have different codes |
| FECoreEnum.ShapeCode | FECore/fecore_enum.h:51-79 | the invalid shape is 999, distinct from every other shape code, which is below 20 |
| FECoreEnum.ShapeCodeBijective | FECore/fecore_enum.h:51-79 | shape codes and the ordinary shapes correspond one to one |
| FECoreEnum.TypeCode | FECore/fecore_enum.h:88-167 | the invalid type is 0xFFFF, distinct from every other type code, which is below 62 |
| FECoreEnum.TypeOfCode | FECore/fecore_enum.h:88-167 | exactly the codes from 62 up decode to the invalid type; every code below 62 is the code of the type it decodes to |
| FECoreEnum.TypeCodeBijective | FECore/fecore_enum.h:88-167 | type codes and the ordinary types correspond one to one |
| FECoreEnum.TypeCodeLeftInverse | FECore/fecore_enum.h:88-167 | decoding the code of any type, the invalid one included, gives the type back |
| FECoreEnum.ShellCode | FECore/fecore_enum.h:171-176 | `NEW_SHELL` is 0 and all formulations are below 4 |
| FECoreEnum.AnalysisCode | FECore/fecore_enum.h:259-263 | STATIC 0, DYNAMIC 1, STEADY_STATE 2 |
| FECoreEnum.PlotLevelCode | FECore/fecore_enum.h:275-283 | NEVER is 0, AUGMENTATIONS 5 and STEP_FINAL 6 |
| FECoreEnum.PlotLevelCodeBijective | FECore/fecore_enum.h:275-283 | the seven plot levels correspond one to one with the codes 0 to 6 |
| FECoreEnum.MatrixTypeCode | FECore/fecore_enum.h:349-353 | real unsymmetric is 0 and all codes are below 3 |
| FECoreEnum.MatrixTypeExactlyThree | FECore/fecore_enum.h:349-353 | there are exactly three matrix types, with distinct codes |
| FECoreEnum.DefaultSpec | FECore/fecore_enum.h:193-203 | invalid class, shape and type, `NEW_SHELL`, four flags false, and the two unset flags left as found |
| FECoreEnum.SpecEqualsIgnoresFlags | FECore/fecore_enum.h:205-211 | changing flags or the shell formulation keeps a spec equal to itself |
| FECoreEnum.DefaultSpecsEqual | FECore/fecore_enum.h:193-211 | any two default specs are equal |
| FECoreEnum.SpecEqualsEquivalence | FECore/fecore_enum.h:205-211 | spec equality is reflexive, symmetric and transitive |
| FECoreEnum.SpecEqualsExactly | FECore/fecore_enum.h:205-211 | two specs are equal exactly when their class, shape and type codes agree |
| FEDataStore.NextIds | FECore/DataStore.cpp:62-66 | one more id, the old ones kept, and sequential ids stay sequential |
| FEDataStore.AddsNumberFromOne | FECore/DataStore.cpp:64-65 | `k` additions to an empty store give the ids 1 to `k` in order, all distinct |
| FEDataStore.DataStore.constructor | FECore/DataStore.cpp:33-35 | a new store is empty |
| FEDataStore.DataStore.Clear | FECore/DataStore.cpp:43-47 | the store ends empty |
| FEDataStore.DataStore.Write | FECore/DataStore.cpp:51-58 | each record's Write is called exactly once, in store order |
| FEDataStore.DataStore.AddRecord | FECore/DataStore.cpp:62-66 | the record is appended with id count + 1; earlier records and their ids are unchanged |
| ElasticMixture.WeightedSum | FEBioMech/FEUncoupledElasticMixture.cpp:78-92 | the weighted sum has the tensor width |
| ElasticMixture.WeightedSumEntry | FEBioMech/FEUncoupledElasticMixture.cpp:78-92 | each entry of the weighted sum is the weighted sum of the components' entries |
| ElasticMixture.IdenticalComponents | FEBioMech/FEUncoupledElasticMixture.cpp:78-92 | components that answer alike give that answer times the total weight |
| ElasticMixture.PartitionOfUnity | FEBioMech/FEUncoupledElasticMixture.cpp:78-92 | with weights summing to one, identical components give their common answer |
| ElasticMixture.ReplaceZeroModuli | FEBioMech/FEUncoupledElasticMixture.cpp:55 | no modulus is zero afterwards; nonzero moduli are kept and zeros become 1.0 |
| ElasticMixture.ReplaceZeroModuliIdempotent | FEBioMech/FEUncoupledElasticMixture.cpp:55 | replacing twice is replacing once |
| ElasticMixture.ModulusCountsZerosAsZero | FEBioMech/FEUncoupledElasticMixture.cpp:49-55 | the sum taken before the replacement falls short of the sum after it by exactly the number of zeros |
| ElasticMixture.UncoupledElasticMixture.Init | FEBioMech/FEUncoupledElasticMixture.cpp:47-59 | `K` is the sum of the moduli as they were, and zero moduli become 1.0 |
| ElasticMixture.UncoupledElasticMixture.AddMaterial | FEBioMech/FEUncoupledElasticMixture.cpp:62-65 | the component is appended |
| ElasticMixture.UncoupledElasticMixture.SetLocalCoordinateSystem | FEBioMech/FEUncoupledElasticMixture.cpp:29-44 | the point gets the element's frame, and each sub-point gets that frame times its component's own frame |
| ElasticMixture.UncoupledElasticMixture.CreateMaterialPointData | FEBioMech/FEUncoupledElasticMixture.cpp:20-26 | one new, distinct sub-point per component, made by that component, in component order |
| ElasticMixture.UncoupledElasticMixture.DevStress | FEBioMech/FEUncoupledElasticMixture.cpp:68-93 | the weighted sum of the components' stresses; each sub-point gets the kinematics but keeps its frame, and stores its weighted stress |
| ElasticMixture.UncoupledElasticMixture.DevTangent | FEBioMech/FEUncoupledElasticMixture.cpp:96-121 | the weighted sum of the components' tangents, with the kinematics copied into each sub-point |
| ElasticMixture.UncoupledElasticMixture.DevStrainEnergyDensity | FEBioMech/FEUncoupledElasticMixture.cpp:124-149 | the weighted sum of the components' energy densities, with the kinematics copied into each sub-point |
| FiberDamage.MB | FEBioMech/FEContinuousElasticDamage.cpp:34 | the bracket is non-negative, at least its argument, and equal to it when positive |
| FiberDamage.Reset | FEBioMech/FEContinuousElasticDamage.cpp:57-69 | damage, `bt`, `gamma` and their previous and onset values are zero; the three energies are the threshold; the latch is cleared |
| FiberDamage.Committed | FEBioMech/FEContinuousElasticDamage.cpp:73-78 | `gamma`, `bt` and the energy become the previous values; nothing else changes |
| FiberDamage.HistoryStep | FEBioMech/FEContinuousElasticDamage.cpp:156-194 | see the list below the table |
| FiberDamage.BetaNonNegative | FEBioMech/FEContinuousElasticDamage.cpp:184 | the damage variable beta is never negative |
| FiberDamage.EvolveMonotone | FEBioMech/FEContinuousElasticDamage.cpp:73-78 | over any run of converged steps, committed `bt` and `gamma` never decrease, and the onset values once latched never change |
| FiberDamage.StressArgument | FEBioMech/FEContinuousElasticDamage.cpp:196-197 | the stress argument is non-negative, and equal to `(1-D) psi - psf_c` when that is |
| FiberDamage.FiberDamagePoint.constructor | FEBioMech/FEContinuousElasticDamage.cpp:42-55 | every variable is zero and the latch is cleared |
| FiberDamage.FiberDamagePoint.Init | FEBioMech/FEContinuousElasticDamage.cpp:57-69 | the point is reset |
| FiberDamage.FiberDamagePoint.Update | FEBioMech/FEContinuousElasticDamage.cpp:73-78 | the point is committed |
| FiberDamage.FiberDamagePoint.AdvanceHistory | FEBioMech/FEContinuousElasticDamage.cpp:155-194 | the point takes the history step |
| FiberDamage.FiberDamagePoint.FiberStress | FEBioMech/FEContinuousElasticDamage.cpp:136-205 | takes the history step, then returns the damage, the clamped argument and the slope there |
| FiberDamage.ExpFiberM | FEBioMech/FEContinuousElasticDamage.cpp:425-429 | zero for `P <= 0`, and non-negative for `k1 >= 0` wherever the exponential of `k2 P^2` is at least 1 |
| FiberDamage.ExpFiberDm | FEBioMech/FEContinuousElasticDamage.cpp:431-435 | zero for `P <= 0`, and non-negative for `k1 >= 0` |
| FiberDamage.ExpFiberD2m | FEBioMech/FEContinuousElasticDamage.cpp:437-441 | zero for `P <= 0` |
| FiberDamage.ClampedStressHasNoSlope | FEBioMech/FEContinuousElasticDamage.cpp:196-198 | with the exponential fiber, a clamped argument gives zero slope |

`FiberDamage.HistoryStep` states:
- before onset, nothing changes;
- once active, the latch is set, the energy is the new one, and `bt` and `gamma` are at least their previous values;
- `bt` stays at its previous value when the energy did not rise;
- the first activation latches the onset values, and a later one keeps them;
- D follows the laws.

## Left out

- Gauss-point integrals, tensor formulas and element force and stiffness formulas are not modelled. They are floating-point numerics resting on element and material classes outside this model. The stress, tangent and energy of a mixture component are parameters.
- Explicit-dynamics arithmetic is not modelled: damping, the acceleration update, inertial forces and the rigid-body quaternion chain.
- The Pardiso, FGMRES, ILU0, Hypre, CG and incomplete Cholesky solvers, and the Schur complement operator, are functions that may fail. Their internals are foreign code.
- Floating-point arithmetic is real arithmetic. Rounding is not modelled.
- OpenMP loops are modelled sequentially, in index order.
- I/O and logging are not modelled. This covers the log file, messages to stderr, `DumpFile`, XML file handling and `XMLTag` iteration. A file open, a root lookup, an archive read and the rest of the file parse are inputs that succeed, fail or throw.
- XML tags are records of a name, text, a parsed integer and a parsed real. Conversion of values, and the 256-character value buffer, are not modelled.
- `FERestartImport::ParseFile` is not modelled. The Control section runs inside it; `RestartImport.ParseControl` models that section on its own.
- RestartImport.ParseControl: a failed parse is not rolled back. The fields set before the failing tag keep their new values.
- `FEBioRestart::Init` casts the model without a null check. The model assumes a model is present there.
- FEDataStore.DataStore.AddRecord: requires that the record is not already in the store. Adding the same record twice would renumber the earlier entry too.
- ElasticMixture.UncoupledElasticMixture.Init: requires distinct component objects. An aliased component would be counted once per occurrence, with its modulus already replaced the second time.
- ElasticMixture.UncoupledElasticMixture.DevStress: requires distinct sub-points, none of them the mixture's own point. The same holds for `DevTangent`, `DevStrainEnergyDensity` and `SetLocalCoordinateSystem`.
- The mixture's tensors are flat sequences of the symmetric widths 6 and 21. The frame product in `SetLocalCoordinateSystem` is a parameter.
- `FEDamageElasticFiber::FiberTangent`, `FiberStrainEnergyDensity` and `Damage` are not modelled. They are tensor formulas and an accessor around the history modelled here.
- The power and exponential-linear fibers' `m` functions are not modelled. They are exp/pow formulas.
- FiberDamage.ExpFiberM: requires `k2 > 1`, the parameter range the material declares. The exponential and the saturation and damage laws are parameters.
- The explicit solver's dof indices X, Y, Z, RU, RV and RW are fixed constants of the model. Their values come from the model's dof table, which is outside this model.
- The biphasic-solute layout assumes dof index 11 for the first concentration, and the block sizes that `UnpackLM` writes.
- Schur.SchurSolver.Factor: requires `Bk != 0`, as do `Schur.SchurSolver.BackSolve`, `Schur.BackSolveResult` and `Schur.WriteSolution`. The source stores any scale factor (NumCore/SchurSolver.cpp:117-120) and divides by it unguarded (lines 347-348 and 406); a zero factor gives non-finite floating-point values there, which real arithmetic cannot express.
- Schur.BackSolveSolvesSystem: with the zero-D-block option the source builds the Schur complement operator without a D block (NumCore/SchurSolver.cpp:314); a caller states that mode by passing `D = None`. The option's setter is not modelled, so the `zeroDBlock` field keeps its default `false`.
- ExplicitSolver.ExplicitSolidSolver.constructor: the solver's own constructor (FEBioMech/FEExplicitSolidSolver.cpp:18-23) zeroes only `niter` and `nreq`; the other counters are zeroed by the base solver's constructor, which is not part of this model, and the model assumes those zeros.
- The Schur solver's numeric option codes are datatypes with an unknown case. `SetLinearSolver` and the other plain setters are not modelled. `Destroy`, `BuildDiagonalMassMatrix` and the mass-matrix values are left out; only the equation remap of the mass-matrix builder is modelled.
- ExplicitSolver.ExplicitSolidSolver.PrepStep: several parts are not modelled. These are `NodalForces(m_Fn)`, and the rigid bodies' `Init` and their local and global displacements, which are quaternion arithmetic (FEExplicitSolidSolver.cpp:804-892). Also left out are the rigid-body forces added to `m_Fn`, the contact update, the material-point data, `InitElements` and `UpdateStresses` (905-951).
- ExplicitSolver.ExplicitSolidSolver.PrepStep: the prescribed BCs enter as a sequence of writes, one per write the switch makes (two for `bc == 20`), each with its dof ID and value. The rigid displacements enter the same way, one write per body dof, carrying the body's LM entry and `m_du`. The values' arithmetic (load curve, scale, current displacement) is numeric and stays outside the model. The rigid equations must lie inside `ui`; the source writes there unchecked.
- ExplicitSolver.LumpElementMass: returns no fractions when the total mass is zero, where the source divides by `3*total_mass` unguarded (FEExplicitSolidSolver.cpp:143) and gets non-finite fractions. The inversion of the lumped entries and their assembly into `Mi` (FEExplicitSolidSolver.cpp:145-150) are not modelled.
- `FEExplicitSolidSolver::DoSolve` is modelled only in its accumulation tail, `FinishIteration`. The residual and update numerics before it are left out.
- `MixedSolver.MixedLinearSolver.Factor` and `BackSolve` take the step's `m_ntimesteps` as a parameter.

## Findings

| source | as written | input that shows it | evidently intended | confidence | as-written member | corrected member |
|---|---|---|---|---|---|---|
| FEBioMech/FEExplicitSolidSolver.cpp:125-132 | each row of the `3*neln` element mass matrix is summed over its first `neln` columns only | one node (`neln = 1`) with unit mass: lumped `[1, 0, 0]`, total `1/3`, so the y and z directions get no mass | sum each row over all `3*neln` columns, giving each direction the node's mass | not executed | ExplicitSolver.LumpedAsWrittenDropsDirections | ExplicitSolver.LumpedIsNodeMass |

The node fractions sum to one for either lumping whenever the total is nonzero (`ExplicitSolver.FractionsSumToOne`). The rest of the model uses the full-row lumping, `ExplicitSolver.Lumped`.
