# A verified model of propaq

propaq evolves an operator backwards through rotation gates. The operator is a map from basis
string (a Pauli string or a Majorana monomial) to coefficient; a gate rotates each pair
`{P, G P}` by a cosine and a sine. The shipped engine does this with hash partitions that
exchange messages, a Clifford frame that swallows gates, an open-addressed row index, a
transposed bitmap of the rows, and, for surrogate models, symbolic coefficients compiled to a
tape. This project states the simple map and proves that the engine is that map.

The layers, bottom up:

- `BasisStrings`, `BasisAlgebra`: bit strings and the two phased products. Phases are exponents
  of i modulo 4; associativity, symmetry and anticommutation are proved for both algebras.
- `TableauRows`, `Frames`, `CliffordTableaus`: signed row lists as phased homomorphisms, the
  frame of two inverse ones, composition, and the mutable tableau class.
- `JordanWigner`, `JwTransforms`, `JwWeights`: the map between the algebras, the conversion
  loops, and the three ways the library computes a Jordan-Wigner weight.
- `PairRule`, `Propagation`, `RunLaws`: one gate on the whole operator with its cutoffs, whole
  runs with and without deferral, expectation values, read-out keys and weight bounds.
- `NormLaws`, `WeightClearing`: the sum of squared coefficients over gates and runs, and when
  stored weights are read-out weights.
- `BitPositions`, `ProbeTable`, `OperatorIndexes`, `InvertedIndexes`: row storage, linear
  probing, and the column bitmaps, as classes.
- `PairProtocol`, `GateRounds`, `TermSums`, `PartitionedTermSums`, `ReadOuts`, `Engines`: the
  scan, exchange and rescue rounds on values, then on classes, up to the engine class whose
  `ApplyRotation` is proved equal to one abstract step.
- `Reclaims`: dropping rows and rebuilding a partition's store.
- `SymbolicCoeffs`, `CompiledTapes`, `SurrogateModels`: the coefficient graph, its compiler, and
  the compiled model.
- `SymbolicRows`, `SymbolicWorkers`, `SymbolicGates`, `Surrogates`: rows with symbolic
  coefficients over hash partitions, what one worker does to its own, what the workers do
  together, and the surrogate whose value is the numeric run's expectation value for every
  table of angles.
- `Simplification`, `Pruning`, `PruneWalks`, `PruneRuns`: the three walks that rewrite a
  coefficient graph, and why every later walk over a rewritten graph still succeeds.
- `ModelFiles`: compiled models as bytes, sharded and loaded back.
- `ComplexNumbers`, `PauliMatrices`, `ModeMatrices`: what the two algebras stand for, as matrices
  over configurations: letters, strings, modes, monomials, their products and diagonal entries.
- `Conjugation`, `Answers`: gates as unitaries, and what runs and surrogates compute in those
  terms.
- `MatrixProducts`, `Amplitudes`: environments of a matrix product state, the window contraction,
  and its meaning as an expectation value.
- `Wrappers`, `FiniteSums`: an optional value, and sums over finite sets.

Angles enter as exact reals with `cos^2 + sin^2 = 1`. A gate is Clifford when its cosine is 0
and phase-only when its sine is 0. Hashes are arbitrary fixed functions of the key, the order
in which workers take their turn is an arbitrary permutation, a truncation plugin is an
arbitrary predicate.

The main results are these.

- `Conjugation.RunExpectation`, `Answers.SurrogateAnswer`: what an engine without truncation and
  a compiled surrogate answer is the diagonal entry of the start operator conjugated, as a
  matrix, with the unitary of every gate in turn.
- `Engines.PartitionedTermSum.ApplyRotation` with `PairProtocol.GateIsPairStep`: one gate over
  any number of partitions, in any order of the workers, is the simple pair rule.
- `Propagation.RunIsExact`, `Propagation.DeferredIsEager`, `RunLaws.DeferredExpectation`:
  deferring Clifford gates changes nothing that can be read out.
- `RunLaws.SameKeysThroughoutIff`: when the deferring and the eager run also hold the same keys;
  they do not always (`RunLaws.OneCliffordDiffers`).
- `NormLaws.NormGrowsIff`, `NormLaws.RunNorm`, `RunLaws.PauliWeightCutoffHolds`: what truncated
  runs keep, and exactly when a gate can raise the norm.
- `ModeMatrices.BasisMultiply`, `ModeMatrices.MonomialMatrix`, `JordanWigner.JwIsomorphism`: the
  phases of both algebras are those of matrices, and the two algebras are the same algebra.
- `Amplitudes.SumIsBraket`: the hybrid contraction is the expectation value of the operator in
  the state the chain of tensors stands for.
- `Surrogates.Build`: over any number of partitions, with any gates followed by the simplifying
  pass, one compiled model agrees with the numeric run for all angles.
- `PruneRuns.EveryRunIsWalkable`: pruning breaks the shape the compiler's correctness rests on
  (`PruneRuns.PruningLosesShape`), yet every graph a truncated run reaches can be compiled.

Where code and documentation differ the code is followed. `changes_weight` is documented as
detecting a change of term weight, but compares supports: `WeightClearing` gives a Majorana
step it clears that changes the Jordan-Wigner weight, and proves exactly which steps keep it.
A truncation plugin is documented as seeing the weight of a term, and sees that of the stored key:
`WeightClearing.StoredWeightIsReadWeightIff` says when the two agree.

## Model

| member | source | states |
|---|---|---|
| `BasisStrings.CountAndFromXor` | crates/core/src/algebra/strings.rs:120-135 | the common-bit count with a product is, up to an even number, the sum of the counts with the factors |
| `BasisAlgebra.AnticommutesIsImaginary` | crates/pauli/src/algebra.rs:99-115 | for both algebras a string anticommutes with a generator exactly if the exponent of the product phase is odd, i.e. the phase imaginary |
| `BasisAlgebra.PhaseSwap` | crates/majorana/src/algebra.rs:162-193 | exchanging two factors multiplies the product by -1 exactly if the anticommutation test fires |
| `BasisAlgebra.PhaseCocycle` | crates/majorana/src/algebra.rs:180-193 | the phases of the two ways to bracket a triple product agree |
| `BasisAlgebra.MulAssoc` | crates/pauli/src/algebra.rs:109-115 | the phased product is associative in both algebras |
| `BasisAlgebra.PhaseSelf` | crates/pauli/src/algebra.rs:109-115 | every basis string squares to the identity with phase 1 |
| `BasisAlgebra.PhaseZero` | crates/pauli/src/algebra.rs:109-115 | the empty string is a two-sided identity with phase 1 |
| `BasisAlgebra.PhaseTwice` | crates/majorana/src/algebra.rs:180-193 | multiplying by the same generator twice returns the string with phase 1 |
| `BasisAlgebra.AnticommutesSymmetric` | crates/pauli/src/algebra.rs:99-101 | anticommutation does not depend on the order of the two strings |
| `BasisAlgebra.AnticommutesLinear` | crates/majorana/src/algebra.rs:162-167 | anticommutation with a fixed string is a XOR-linear function of the other |
| `BasisAlgebra.AnticommutesBranch` | crates/core/src/engine/termsum.rs:701-751 | a string and its branch anticommute with the generator together, so branching pairs are closed |
| `BasisStrings.SupportIsSize` | crates/pauli/src/algebra.rs:118-120 | the weight of a Pauli string is the number of units that carry a letter |
| `PauliMatrices.LetterProduct` | crates/pauli/src/algebra.rs:109-115 | on one unit the matrices of all sixteen pairs of letters multiply to the power of i the algebra gives times the matrix of the XOR |
| `PauliMatrices.PhaseIsSumOfUnits` | crates/pauli/src/algebra.rs:109-115 | the exponent of a product is the sum modulo 4 of the exponents of its units |
| `PauliMatrices.StringsMultiply` | crates/pauli/src/algebra.rs:109-115 | the matrices of any two strings multiply to the phase and the string the algebra gives |
| `PauliMatrices.TraceIsDiagonal` | crates/pauli/src/algebra.rs:123-147 | the trace of a string in a basis state is the diagonal entry of its matrix there, units past the state's end being empty |
| `PauliMatrices.EmptyTrace` | crates/pauli/src/algebra.rs:123-147 | without occupied units every product of Zs has trace 1, however long the state |
| `PauliMatrices.OccupyFlips` | crates/pauli/src/algebra.rs:123-147 | occupying a unit negates the trace of a product of Zs exactly if it has a Z there |
| `PauliMatrices.OffDiagonalTrace` | crates/pauli/src/algebra.rs:123-147 | a string with an X or Y has trace 0 in every basis state |
| `ModeMatrices.ModeString` | propaq/datatypes/majorana/termsum.py:164-195 | mode 2q is the string of Zs below unit q with an X at it, mode 2q + 1 the one with a Y |
| `ModeMatrices.ModeSign` | propaq/datatypes/majorana/termsum.py:404-417 | every single mode is converted with sign +1 |
| `ModeMatrices.ProductOfModes` | crates/majorana/src/algebra.rs:180-193 | the product of the modes of a monomial from the lowest up is the monomial, times 1 for a length of 0 or 1 modulo 4 and times -i otherwise |
| `ModeMatrices.TwoModes` | crates/majorana/src/algebra.rs:180-193 | two modes in ascending order multiply to -i times their pair |
| `ModeMatrices.DroppedSign` | propaq/datatypes/majorana/termsum.py:404-417 | the factor a conversion divides out is what the product of the strings of the modes, in order, leaves beside the factor of the Hermitian form |
| `ModeMatrices.MonomialMatrix` | crates/majorana/src/algebra.rs:180-193 | the matrix of a monomial is the matrix product of its modes in order, times i for a length of 2 or 3 modulo 4 |
| `ModeMatrices.BasisMultiply` | crates/majorana/src/algebra.rs:180-193 | in both algebras the matrices of two basis operators multiply to the phase and the operator the algebra gives |
| `ModeMatrices.BasisIdentity` | crates/core/src/algebra/strings.rs:45-50 | the empty string and the empty monomial are the identity matrix |
| `ModeMatrices.BasisTrace` | crates/majorana/src/algebra.rs:200-216 | in both algebras the trace is the diagonal entry of the operator's matrix |
| `ModeMatrices.PairTrace` | crates/majorana/src/algebra.rs:200-216 | the pair of one unit has trace 1 where the unit is occupied and -1 where it is not |
| `ModeMatrices.HalfPairTrace` | crates/majorana/src/algebra.rs:200-216 | a monomial with half a pair has trace 0 |
| `ModeMatrices.OccupyFlipsPair` | crates/majorana/src/algebra.rs:200-216 | occupying a unit negates the trace of a monomial exactly if it has the pair of that unit |
| `ModeMatrices.TextMatrix` | propaq/datatypes/majorana/termsum.py:164-195 | a text spells the product of its letters' matrices, the last letter on unit 0 |
| `ModeMatrices.ConversionKeepsOperator` | propaq/datatypes/majorana/termsum.py:404-417 | coefficient times matrix is the same before and after a conversion |
| `TableauRows.HomomorphismIsSigned` | crates/core/src/algebra/tableau.rs:93-98 | a phased homomorphism sends every string to a string with sign +1 or -1 and fixes the identity |
| `TableauRows.ImageOfUnit` | crates/core/src/algebra/tableau.rs:109-143 | applying rows to a single generator reads back that generator's row |
| `TableauRows.RowsAreHomomorphism` | crates/core/src/algebra/tableau.rs:109-143 | the fold over rows computes the one homomorphism that has these generator images, on every string and with phase |
| `TableauRows.CliffordIsHomomorphism` | crates/core/src/algebra/tableau.rs:180-209 | conjugation by a Clifford rotation preserves phased products |
| `TableauRows.CliffordInverse` | crates/core/src/algebra/tableau.rs:195-209 | the opposite rotation undoes a Clifford rotation, sign included |
| `Frames.ComposeRowsIsComposition` | crates/core/src/algebra/tableau.rs:146-177 | composing row lists composes the maps they stand for, phase included |
| `Frames.ComposeFramesImage` | crates/core/src/algebra/tableau.rs:146-177 | after `compose` readout is next after old and generator is old after next, on every string |
| `Frames.ComposeFramesOk` | crates/core/src/algebra/tableau.rs:146-177 | composition keeps both maps homomorphisms and mutually inverse |
| `Frames.RotationRowsAreConjugation` | crates/core/src/algebra/tableau.rs:180-209 | the rows `for_rotation` builds act on every string as conjugation by the rotation |
| `Frames.RotationFrameOk` | crates/core/src/algebra/tableau.rs:180-209 | a fresh rotation tableau is a lawful frame |
| `Frames.FrameReadout` | crates/core/src/algebra/tableau.rs:146-209 | after any list of deferred rotations the readout map is those rotations applied one after the other |
| `Frames.ReachableFrame` | crates/core/src/algebra/tableau.rs:109-209 | in every reachable frame readout and generator undo each other with sign and both preserve the phased product of any two strings |
| `Frames.OneUnitKeepsSupport` | crates/core/src/algebra/tableau.rs:211-223 | a Pauli generator on at most one unit keeps the weight of every string it branches |
| `Frames.ChangesSupportIffTwoUnits` | crates/core/src/algebra/tableau.rs:215-223 | for Pauli rotations `changes_weight` fires exactly if the generator spans two units or more |
| `Frames.ClearedStepKeepsWeight` | crates/core/src/algebra/tableau.rs:211-223 | a Pauli Clifford that `changes_weight` clears keeps the weight of every string |
| `CliffordTableaus.ApplyRows` | crates/core/src/algebra/tableau.rs:109-143 | the loop returns the image of the string under the rows, with its sign |
| `CliffordTableaus.CliffordTableau.constructor` | crates/core/src/algebra/tableau.rs:40-55 | a new tableau is the identity frame and its identity flag says so |
| `CliffordTableaus.CliffordTableau.RefreshIdentity` | crates/core/src/algebra/tableau.rs:82-90 | the flag is set exactly if the readout rows are the identity rows |
| `CliffordTableaus.CliffordTableau.Conjugate` | crates/core/src/algebra/tableau.rs:93-98 | returns the readout image and sign, also on the identity shortcut |
| `CliffordTableaus.CliffordTableau.ConjugateGenerator` | crates/core/src/algebra/tableau.rs:101-106 | returns the generator image and sign, also on the identity shortcut |
| `CliffordTableaus.CliffordTableau.Compose` | crates/core/src/algebra/tableau.rs:146-177 | the new state is the composition of the frames, and stays lawful |
| `CliffordTableaus.CliffordTableau.ForRotation` | crates/core/src/algebra/tableau.rs:180-209 | gives a tableau exactly if the cosine is 0, and then the frame of that rotation |
| `CliffordTableaus.CliffordTableau.ChangesWeight` | crates/core/src/algebra/tableau.rs:215-223 | true exactly if some generator's image has another support than the generator |
| `JordanWigner.PauliRoundTrip` | propaq/datatypes/majorana/termsum.py:131-195 | string to modes to string is the identity on every string |
| `JordanWigner.ModesRoundTrip` | propaq/datatypes/majorana/termsum.py:131-195 | modes to string to modes is the identity on every mode set |
| `JordanWigner.ToModesLinear` | propaq/datatypes/majorana/termsum.py:164-195 | the mode map of a product is the XOR of the mode maps |
| `JordanWigner.SignIsReal` | propaq/datatypes/majorana/termsum.py:404-417 | the dropped factor hermiticity times forward phase is +1 or -1 for every string |
| `JordanWigner.JwPhase` | crates/majorana/src/algebra.rs:180-193 | products map to products with the phases related by the dropped signs |
| `JordanWigner.JwIsomorphism` | crates/majorana/src/algebra.rs:180-193 | the map between phased Pauli strings and phased monomials is an isomorphism of groups |
| `JordanWigner.JwAnticommutes` | crates/majorana/src/algebra.rs:162-167 | the two anticommutation tests agree under the map |
| `JordanWigner.JwTrace` | crates/majorana/src/algebra.rs:200-216 | the trace against a diagonal state maps to the trace of the monomial times the dropped sign |
| `JwTransforms.JwInverseTransform` | propaq/datatypes/majorana/termsum.py:131-161 | the loop returns the letters of the inverse map and the exponent of its phase |
| `JwTransforms.JwTransform` | propaq/datatypes/majorana/termsum.py:164-195 | the loop returns the modes and the exponent of the forward phase |
| `JwTransforms.FromPauliTerm` | propaq/datatypes/majorana/termsum.py:390-417 | a Pauli term becomes a monomial whose coefficient differs by a real sign |
| `JwTransforms.ToPauliTerm` | propaq/datatypes/majorana/termsum.py:499-522 | a monomial becomes a Pauli term with the sign multiplied back in |
| `JwTransforms.TextRoundTrip` | propaq/datatypes/majorana/termsum.py:131-195 | spelling a string and reading the text undo each other |
| `JwTransforms.TermRoundTrip` | propaq/datatypes/majorana/termsum.py:390-522 | converting a Pauli term there and back returns text and coefficient |
| `JwWeights.ScanP` | crates/majorana/src/monomial.rs:84-92 | the doubling-shift scan computes the prefix parity of every site, for every register size |
| `JwWeights.LettersFromPlanes` | crates/majorana/src/algebra.rs:85-123 | a site carries a letter exactly where the planes of single, occupied and prefix-odd sites say so |
| `JwWeights.WeightFromParts` | crates/majorana/src/monomial.rs:96-108 | the count from the planes is the number of letters of the inverse transform |
| `JwWeights.FromModes` | crates/majorana/src/monomial.rs:111-122 | a monomial built from scratch caches the true weight and prefix plane |
| `JwWeights.PrefixPlaneLinear` | crates/majorana/src/monomial.rs:150-165 | the prefix plane of a product is the XOR of the planes |
| `JwWeights.MatMul` | crates/majorana/src/monomial.rs:167-200 | the product keeps the cached weight and plane true and returns the exact phase |
| `JwWeights.ResortingParity` | crates/majorana/src/monomial.rs:696-716 | the running-count loop gives the parity of the reordering swaps |
| `JwWeights.QubitSetsOf` | crates/majorana/src/monomial.rs:590-634 | one merge over two sorted position lists gives the set sizes of the inclusion-exclusion formula |
| `JwWeights.WeightSparse` | crates/majorana/src/monomial.rs:503-519 | the sparse inclusion-exclusion weight is the number of letters |
| `JwWeights.ResortingParitySparse` | crates/majorana/src/monomial.rs:637-645 | the sparse parity equals the parity on masks |
| `WeightClearing.ClearedMajoranaStepChangesWeight` | crates/core/src/algebra/tableau.rs:211-223 | a Majorana rotation that `changes_weight` clears and that turns a monomial of weight 1 into one of weight 2 |
| `WeightClearing.ImagesCorrespond` | crates/core/src/algebra/tableau.rs:180-209 | conjugating a monomial is conjugating its Pauli string by the generator's string |
| `WeightClearing.MajoranaKeepsWeightIff` | crates/core/src/algebra/tableau.rs:211-223 | a Majorana Clifford keeps every Jordan-Wigner weight if and only if its generator has weight at most 1 |
| `WeightClearing.PauliKeepsWeightIff` | crates/core/src/algebra/tableau.rs:211-223 | for Pauli Cliffords that condition is exactly what `changes_weight` tests |
| `WeightClearing.StoredWeightIsReadWeightIff` | crates/core/src/engine/termsum.rs:131-150 | the weight a plugin is shown is the weight of what is read out, for every key and after every gate of a deferring Pauli run, exactly if no gate on more than one unit is deferred |
| `WeightClearing.PluginCanMisread` | crates/core/src/engine/partitioned_termsum.rs:288-297 | with a plugin and no weight bound a quarter turn about ZZ is deferred: X is stored, and shown, with weight 1 and read out as YZ with weight 2 |
| `PairRule.PairStepAt` | crates/core/src/engine/termsum.rs:561-601 | key by key, what the operator holds after one gate |
| `PairRule.OppositeBranches` | crates/core/src/algebra/coeff.rs:151-168 | the branch out of a row and the branch back have opposite signs, each +1 or -1 |
| `PairRule.PairRotatedIffEitherPasses` | crates/core/src/engine/termsum.rs:561-800 | in the bound a live pair is fully rotated if either branch passes the cutoff and only damped otherwise; a lone row creates its partner exactly if its branch passes |
| `PairRule.LoneRowCreates` | crates/core/src/engine/termsum.rs:115-155 | a row without a live partner makes a new key exactly if the plugin keeps the branch's key, weight and magnitude or, without a plugin, weight and magnitude are within their bounds, or the operator is below the floor |
| `PairRule.LivePairReceives` | crates/core/src/engine/termsum.rs:561-800 | a row with a live partner receives the partner's branch exactly if that branch passes so, or is held back by the plugin or for its magnitude while the row's own branch passes |
| `PairRule.PrecheckIsExact` | crates/core/src/engine/termsum.rs:178-196 | the magnitude tested before the product is formed is the branch's magnitude |
| `PairRule.AdmittedUnlessDeclined` | crates/core/src/engine/termsum.rs:178-196 | a branch the precheck does not decline also passes the full test |
| `PairRule.LazyPhaseIsExact` | crates/core/src/engine/termsum.rs:604-647 | a branch held back unphased and phased on release equals the true sine branch |
| `PairRule.LosslessStep` | crates/core/src/engine/termsum.rs:561-601 | without truncation one gate is the exact rotation of every coefficient |
| `PairRule.ScaleStepIsRotation` | crates/core/src/engine/termsum.rs:551-557 | scaling the anticommuting rows is the exact rotation when the sine is 0 |
| `Propagation.IterationReadsOut` | crates/core/src/engine/partitioned_termsum.rs:265-272 | reading out visits each stored term once, under its signed image |
| `Propagation.DeferralIsExact` | crates/core/src/engine/partitioned_termsum.rs:285-300 | composing a Clifford into the frame is the exact rotation of what is read out |
| `Propagation.PullBackIsExact` | crates/core/src/engine/partitioned_termsum.rs:301-312 | rotating stored terms about the pulled-back generator is the exact rotation of what is read out |
| `Propagation.StepIsExact` | crates/core/src/engine/partitioned_termsum.rs:276-350 | every branch of a gate, deferred or not, rotates the read-out exactly when nothing is cut |
| `Propagation.RunKeepsFrame` | crates/core/src/engine/partitioned_termsum.rs:276-350 | the frame stays lawful over whole runs, with any cutoff |
| `Propagation.RunIsExact` | crates/core/src/engine/partitioned_termsum.rs:276-350 | a run without truncation reads out the exact evolution of the start, for every circuit |
| `Propagation.DeferredIsEager` | crates/core/src/engine/partitioned_termsum.rs:265-300 | for every circuit the deferring run reads out the coefficients the eager run stores |
| `Propagation.DefersIff` | crates/core/src/engine/partitioned_termsum.rs:285-300 | a gate is deferred exactly if deferral is on, its cosine is 0, and no weight bound is in force or every single-bit string it branches stays on one unit |
| `Conjugation.StringConjugated` | crates/core/src/algebra/coeff.rs:120-160 | a basis operator between the adjoint and the unitary of a gate is its cosine branch plus its sine branch, in both algebras |
| `Conjugation.TurnUnitary` | crates/core/src/algebra/coeff.rs:120-160 | the matrix of a gate, the cosine of the half angle less i times its sine times the generator, is unitary |
| `Conjugation.TurnAdjoint` | crates/core/src/algebra/coeff.rs:120-160 | turning the other way is the adjoint matrix |
| `Conjugation.AboutX` | crates/core/src/algebra/coeff.rs:120-160 | on one qubit a gate about X sends Y to cosine Y minus sine Z, and Z to cosine Z plus sine Y |
| `Conjugation.GateIsConjugation` | crates/core/src/engine/termsum.rs:561-601 | conjugating any operator with a gate's unitary rotates its coefficients by the pair rule |
| `Conjugation.RunIsEvolution` | crates/core/src/engine/partitioned_termsum.rs:276-350 | a run without truncation, deferring or not, reads out the start conjugated with every gate in turn |
| `Conjugation.ExpectationIsEntry` | crates/core/src/engine/partitioned_termsum.rs:676-697 | the expectation value in a basis state is the diagonal entry there of the operator read out, truncated or not |
| `Conjugation.RunExpectation` | crates/core/src/engine/partitioned_termsum.rs:676-697 | the expectation value of a run without truncation is the diagonal entry of the start conjugated with every gate in turn, for every circuit, start and basis state in both algebras |
| `RunLaws.ExpectationReadsOut` | crates/core/src/engine/partitioned_termsum.rs:676-697 | the expectation summed over stored rows is the sum over the operator that is read out |
| `RunLaws.SameReadSameExpectation` | crates/core/src/engine/partitioned_termsum.rs:676-697 | two engines that read out the same coefficients have the same expectation value in every state |
| `RunLaws.DeferredExpectation` | crates/core/src/engine/partitioned_termsum.rs:676-697 | deferring Cliffords changes no expectation value |
| `RunLaws.KeysAfter` | crates/core/src/engine/partitioned_termsum.rs:276-311 | which keys are read out after one lossless gate: deferred, a key changes places with its partner; carried out, a key joins its partner; otherwise nothing changes |
| `RunLaws.DeferredKeysAreLive` | crates/core/src/engine/partitioned_termsum.rs:265-300 | every key the deferring run reads out is live in the eager run; a key it lacks has coefficient 0 there |
| `RunLaws.OneCliffordDiffers` | crates/core/src/engine/partitioned_termsum.rs:285-311 | a circuit of one Clifford gate after which the eager run still holds a key that the deferring run does not |
| `RunLaws.KeysAgreeIff` | crates/core/src/engine/partitioned_termsum.rs:285-311 | after one gate the two runs read out the same keys exactly if, when the gate is Clifford, every live key it moves has a live partner |
| `RunLaws.SameKeysThroughoutIff` | crates/core/src/engine/partitioned_termsum.rs:285-311 | over a whole circuit the two runs read out the same keys after every gate exactly if that holds before each of its Clifford gates |
| `NormLaws.NormGrowsIff` | crates/core/src/engine/termsum.rs:115-128 | a gate that rotates pairs can raise the sum of squares of an operator with given keys exactly if it has a cosine and a sine and some live pair has one key within the weight bound and the other over it, whatever the magnitude cutoff or plugin |
| `NormLaws.StepNorm` | crates/core/src/engine/termsum.rs:701-800 | one gate, under any cutoff and any term floor, never raises the sum of squares unless it may, and conserves it without a cutoff |
| `NormLaws.StepGrowsIff` | crates/core/src/engine/partitioned_termsum.rs:282-300 | the same condition for a gate of the engine, read off the live keys, the frame and the floor before the gate |
| `NormLaws.RunNorm` | crates/core/src/engine/termsum.rs:701-800 | over whole runs, deferring or not and with any floor, the sum of squares never grows as long as no gate meets a pair that straddles the bound |
| `NormLaws.RunNormUnbounded` | crates/core/src/engine/termsum.rs:61-75 | without a weight bound that is every run, floor or not; lossless runs conserve the sum of squares |
| `NormLaws.RunNormInBound` | crates/core/src/engine/termsum.rs:701-800 | without a floor a run that starts within the weight bound stays in it and never raises the sum of squares |
| `NormLaws.RunNormCanGrow` | crates/core/src/engine/termsum.rs:61-75 | with a floor it can: a run of two gates from an admitted start whose sum of squares goes 1, 1, 1.2304 |
| `RunLaws.RunKeepsWeight` | crates/core/src/engine/partitioned_termsum.rs:285-300 | with a weight cutoff and no floor every frame a Pauli run reaches keeps weights |
| `RunLaws.PauliWeightCutoffHolds` | crates/core/src/engine/partitioned_termsum.rs:285-300 | in such a run every live term's stored weight is its read-out weight and within the cutoff |
| `BitPositions.PositionsFromAre` | crates/core/src/storage/operator_index.rs:273-285 | the position list of a row holds exactly its set bits |
| `ProbeTable.FreeSlot` | crates/core/src/storage/operator_index.rs:418-422 | below the load limit a free slot exists, so every probe ends |
| `ProbeTable.Place` | crates/core/src/storage/operator_index.rs:424-441 | an entry goes to the first free slot of its chain and no chain is broken |
| `ProbeTable.Rebuild` | crates/core/src/storage/operator_index.rs:424-441 | a rehash keeps exactly the same entries in a well-formed table |
| `OperatorIndexes.OperatorIndex.Set` | crates/core/src/storage/operator_index.rs:210-227 | inline or overflowed, the row now stands for the key and no other row changes |
| `OperatorIndexes.OperatorIndex.Push` | crates/core/src/storage/operator_index.rs:230-234 | appends the key, or refuses at the ceiling with nothing changed |
| `OperatorIndexes.OperatorIndex.Row` | crates/core/src/storage/operator_index.rs:249-261 | reconstructs the key whichever form it is stored in |
| `OperatorIndexes.OperatorIndex.RowPositions` | crates/core/src/storage/operator_index.rs:273-285 | the positions of a row in ascending order, whichever form it is stored in |
| `OperatorIndexes.OperatorIndex.RowEq` | crates/core/src/storage/operator_index.rs:288-298 | true exactly if the row holds the key, without building it |
| `OperatorIndexes.OperatorIndex.Find` | crates/core/src/storage/operator_index.rs:339-360 | returns a row exactly if an indexed row holds the key; the probe loop terminates |
| `OperatorIndexes.OperatorIndex.Insert` | crates/core/src/storage/operator_index.rs:363-385 | indexes the row exactly if no indexed row holds its key, and no other row |
| `OperatorIndexes.OperatorIndex.InsertAbsent` | crates/core/src/storage/operator_index.rs:387-415 | indexes that one row and keeps the load below the limit |
| `OperatorIndexes.OperatorIndex.RehashIfNeeded` | crates/core/src/storage/operator_index.rs:418-422 | afterwards one more entry fits below the load limit |
| `OperatorIndexes.OperatorIndex.RehashTo` | crates/core/src/storage/operator_index.rs:424-441 | moves every entry and loses none, at any requested size |
| `OperatorIndexes.OperatorIndex.Reserve` | crates/core/src/storage/operator_index.rs:444-447 | changes nothing that can be observed through the index |
| `InvertedIndexes.FoldIsAnticommutation` | crates/core/src/storage/inverted_index.rs:145-170 | the parity of the folded columns, corrected by row parity for odd generators, is the anticommutation test in both algebras |
| `InvertedIndexes.Promote` | crates/core/src/storage/inverted_index.rs:135-142 | a sparse column as a bitmap of full height with the same rows |
| `InvertedIndexes.InvertedIndex.Reset` | crates/core/src/storage/inverted_index.rs:126-132 | nothing is indexed, the columns stay |
| `InvertedIndexes.InvertedIndex.SyncTo` | crates/core/src/storage/inverted_index.rs:78-123 | after any history of syncs and promotions the columns index exactly the store's rows |
| `InvertedIndexes.InvertedIndex.Combine` | crates/core/src/storage/inverted_index.rs:145-163 | bit r of the result is the parity of row r over the chosen columns, and no bit past the last row is set |
| `InvertedIndexes.InvertedIndex.ApplyRowParity` | crates/core/src/storage/inverted_index.rs:166-170 | XORs in the parity of every row's length |
| `InvertedIndexes.ForEachSetBit` | crates/core/src/storage/inverted_index.rs:180-188 | visits exactly the set bits, in ascending order |
| `PairProtocol.StreamIsBranches` | crates/core/src/engine/partitioned_termsum.rs:389-450 | what a destination receives is exactly the emitted branches of the whole operator that it owns, each key once |
| `PairProtocol.UpperWordChooses` | crates/core/src/engine/termsum.rs:872-877 | the upper word of a hash chooses the partition and the lower word has no say |
| `PairProtocol.StreamDistinct` | crates/core/src/engine/termsum.rs:701-751 | branches of different sources never collide |
| `PairProtocol.ClaimedIffPaid` | crates/core/src/engine/termsum.rs:691-695 | a row is claimed exactly if it was held back and its partner emitted, and its release carries the true branch |
| `PairProtocol.RescueArrives` | crates/core/src/engine/termsum.rs:604-647 | every rescued branch was held back, and its target emitted |
| `PairProtocol.RescueIsSafe` | crates/core/src/engine/partitioned_termsum.rs:324-348 | every rescue lands on a row that existed before the gate in its owner, and the round creates no row and no claim |
| `PairProtocol.NotPaidBack` | crates/core/src/engine/partitioned_termsum.rs:324-348 | a row that held its own branch back is nobody's rescue target |
| `PairProtocol.GateIsPairStep` | crates/core/src/engine/partitioned_termsum.rs:276-450 | scan, exchange and rescue over any number of partitions together are the simple pair rule on the whole operator |
| `GateRounds.RoundOneDone` | crates/core/src/engine/partitioned_termsum.rs:352-450 | the first exchange completes round one whatever the sizes |
| `GateRounds.RescueReady` | crates/core/src/engine/partitioned_termsum.rs:324-348 | the rescue round can run and needs no room beyond what the first exchange left |
| `GateRounds.RowsNeeded` | crates/core/src/engine/termsum.rs:770-800 | a partition's rows after the exchange are the result's keys that it owns, which decides the ceiling |
| `GateRounds.GateDone` | crates/core/src/engine/partitioned_termsum.rs:276-350 | the states the loops leave are the pair rule of the states before |
| `GateRounds.OneRoundIsPairStep` | crates/core/src/engine/partitioned_termsum.rs:276-350 | without truncation nothing is held back, so scan and one exchange are the pair rule for any number of partitions |
| `TermSums.ScanStep` | crates/core/src/engine/termsum.rs:561-601 | scanning one more row keeps the account of what was damped, sent and held |
| `TermSums.TermSum.constructor` | crates/core/src/engine/termsum.rs:237-288 | a new partition is empty |
| `TermSums.TermSum.ResetPending` | crates/core/src/engine/termsum.rs:666-677 | nothing is held or claimed, every row has a slot, and keys and coefficients are as they were |
| `TermSums.TermSum.HoldBack` | crates/core/src/engine/termsum.rs:680-687 | exactly that row now holds that branch |
| `TermSums.TermSum.Claim` | crates/core/src/engine/termsum.rs:691-695 | notes the row exactly if it holds a branch |
| `TermSums.TermSum.EmitFromRow` | crates/core/src/engine/termsum.rs:701-751 | damps the row and emits, holds back or drops its branch as the cutoff decides |
| `TermSums.TermSum.AnticommutingRows` | crates/core/src/engine/termsum.rs:574-585 | the rows read off the bitmap are exactly the anticommuting ones, ascending |
| `TermSums.TermSum.ScanRows` | crates/core/src/engine/termsum.rs:561-601 | every row in the list rotates into its cosine branch and emits, holds back or drops its sine branch |
| `TermSums.TermSum.ScanInto` | crates/core/src/engine/termsum.rs:561-601 | the partition and its outbox after the scan, as the protocol states them |
| `TermSums.TermSum.DrainClaims` | crates/core/src/engine/termsum.rs:604-647 | releases every claimed branch with its true phase and settles the partition |
| `TermSums.TermSum.Append` | crates/core/src/engine/termsum.rs:770-786 | a new row with its coefficient, or, exactly at the ceiling, nothing changes at all |
| `TermSums.TermSum.Add` | crates/core/src/engine/termsum.rs:534-544 | the key's coefficient grows by the amount; the ceiling leaves rows, index and coefficients in step |
| `TermSums.TermSum.AbsorbRouted` | crates/core/src/engine/termsum.rs:788-800 | folds one branch in, claiming the row's own held-back branch, and says whether a row was created |
| `TermSums.TermSum.ScaleAnticommuting` | crates/core/src/engine/termsum.rs:551-557 | scales exactly the anticommuting rows |
| `TermSums.TermSum.Reclaim` | crates/core/src/engine/termsum.rs:472-497 | the rows afterwards are the kept ones in order, with a rebuilt index and nothing pending; the ceiling cannot be met |
| `TermSums.TermSum.Repack` | crates/core/src/engine/termsum.rs:293-308 | another inline width changes nothing but the storage |
| `Reclaims.ReclaimIsFilter` | crates/core/src/engine/termsum.rs:472-497 | reclaiming removes exactly the rejected terms and changes no other coefficient |
| `PartitionedTermSums.ScanPhase` | crates/core/src/engine/partitioned_termsum.rs:352-386 | every partition has scanned its own rows into its own outbox, in any order of the workers |
| `PartitionedTermSums.ExchangeOne` | crates/core/src/engine/partitioned_termsum.rs:389-450 | one worker folds its inbox and releases its claims; the other partitions stay as they are |
| `PartitionedTermSums.AbsorbExchange` | crates/core/src/engine/partitioned_termsum.rs:389-450 | after all workers, in any order, every partition has folded exactly its stream and the rows added are counted, or one lacked room |
| `PartitionedTermSums.AnyRescue` | crates/core/src/engine/partitioned_termsum.rs:324-335 | true exactly if some rescue box holds a branch |
| `PartitionedTermSums.RescueRound` | crates/core/src/engine/partitioned_termsum.rs:324-348 | the second exchange always has room, adds no row and completes the gate |
| `PartitionedTermSums.RescueExchange` | crates/core/src/engine/partitioned_termsum.rs:336-344 | the second exchange has room in every partition and creates no row |
| `PartitionedTermSums.RotatePairs` | crates/core/src/engine/partitioned_termsum.rs:312-350 | a gate over the partitions is the pair rule, reports how many terms it added, and succeeds exactly if the result's owned keys fit every partition |
| `PartitionedTermSums.ScaleAll` | crates/core/src/engine/partitioned_termsum.rs:303-311 | a phase-only gate scales the whole operator |
| `PartitionedTermSums.LenOf` | crates/core/src/engine/partitioned_termsum.rs:210-212 | the lengths add up to the number of live terms |
| `PartitionedTermSums.RowsAreTerms` | crates/core/src/engine/partitioned_termsum.rs:210-212 | the rows of the partitions are as many as the terms of the operator |
| `PartitionedTermSums.AddedTo` | crates/core/src/engine/partitioned_termsum.rs:259-262 | adding to the owner is adding to the operator |
| `ReadOuts.PartExpectation` | crates/core/src/engine/partitioned_termsum.rs:676-697 | one partition's share of the expectation, row by row under the frame |
| `ReadOuts.SumOwned` | crates/core/src/engine/partitioned_termsum.rs:676-697 | the shares of the partitions add up over the keys they own |
| `ReadOuts.SumPartsIsExpectation` | crates/core/src/engine/partitioned_termsum.rs:676-697 | summed row by row and partition by partition it is the expectation value of the operator |
| `Engines.PartitionedTermSum.constructor` | crates/core/src/engine/partitioned_termsum.rs:142-195 | at least one partition, nothing stored, identity frame, deferral on |
| `Engines.PartitionedTermSum.Len` | crates/core/src/engine/partitioned_termsum.rs:210-212 | the number of terms of the abstract operator |
| `Engines.PartitionedTermSum.Add` | crates/core/src/engine/partitioned_termsum.rs:259-262 | the abstract operator gains the amount at the key; fails exactly when the owner is full and the key new |
| `Engines.PartitionedTermSum.TryDefer` | crates/core/src/engine/partitioned_termsum.rs:285-300 | defers exactly when the step rule says so, and then only the frame changes |
| `Engines.PartitionedTermSum.RotateStored` | crates/core/src/engine/partitioned_termsum.rs:303-350 | the stored terms after a gate that is not deferred and how many are new, for any order of the workers |
| `Engines.PartitionedTermSum.ApplyRotation` | crates/core/src/engine/partitioned_termsum.rs:276-350 | succeeds exactly if the result fits; then the engine stands for one abstract step and the count returned is the number of new terms, for every order of the workers in each phase |
| `Engines.PartitionedTermSum.Expectation` | crates/core/src/engine/partitioned_termsum.rs:676-697 | the value returned is the abstract expectation |
| `Engines.PartitionedTermSum.Propagate` | crates/pauli/src/engine.rs:117-180 | a circuit succeeds exactly if every step's result fits; then the engine stands for the abstract run and, untruncated, reads out the exact evolution |
| `SymbolicCoeffs.ShapeIsAntichain` | crates/surrogate/src/symcoeff.rs:178-254 | in graphs the gate loop builds live roots are an antichain and no summand reaches its sibling |
| `SymbolicCoeffs.BranchKeeps` | crates/surrogate/src/symcoeff.rs:264-292 | a rotation keeps that shape |
| `SymbolicCoeffs.MergeKeeps` | crates/surrogate/src/symcoeff.rs:778-784 | a merge keeps that shape |
| `SymbolicCoeffs.ReplaceKeeps` | crates/surrogate/src/symcoeff.rs:794-796 | scaling or wrapping a coefficient keeps that shape |
| `SymbolicCoeffs.FreshKeeps` | crates/surrogate/src/symcoeff.rs:773-775 | a new scalar keeps that shape |
| `CompiledTapes.EvaluateInto` | crates/surrogate/src/symcoeff.rs:887-898 | the values of the tape, whatever the reused buffer held |
| `CompiledTapes.CompiledValue` | crates/surrogate/src/symcoeff.rs:178-254 | each operation evaluates to the value of the node it was compiled from |
| `CompiledTapes.ScheduledChildDone` | crates/surrogate/src/symcoeff.rs:178-254 | a child that was scheduled earlier has been compiled when its parent is reached |
| `CompiledTapes.OpenNode` | crates/surrogate/src/symcoeff.rs:178-254 | opening a node keeps the walk's account: what is missing lies above it on the stack |
| `CompiledTapes.CompileBatch` | crates/surrogate/src/symcoeff.rs:178-254 | never fails a lookup; operands precede users, each shared node is compiled once, exactly the reachable nodes are compiled, and every root evaluates to its coefficient |
| `CompiledTapes.ShapeIsWalkable` | crates/surrogate/src/symcoeff.rs:178-254 | every graph with the gate loop's shape meets what compiling needs |
| `CompiledTapes.AppendedValues` | crates/surrogate/src/symcoeff.rs:849-864 | a tape shifted behind another keeps its values and the other's |
| `CompiledTapes.MergeShards` | crates/surrogate/src/symcoeff.rs:924-935 | with its offsets every root of every shard keeps its value |
| `SymbolicRows.LiveSplit` | crates/surrogate/src/symcoeff.rs:264-292 | a rotation replaces a coefficient in use by two; all in use stay distinct nodes that nothing points to, whoever holds them |
| `SymbolicRows.LiveJoined` | crates/surrogate/src/symcoeff.rs:778-784 | a merge of two coefficients in use keeps that |
| `SymbolicRows.BranchValues` | crates/surrogate/src/symcoeff.rs:141-149 | under any angles the two branches are worth the cosine and the signed sine of the coefficient; a missing one stays worth nothing |
| `SymbolicRows.SplitUnder` | crates/surrogate/src/symcoeff.rs:264-292 | under any angle table splitting a symbolic row and routing its sine branch is scanning and routing the numeric row |
| `SymbolicRows.ScanShard` | crates/core/src/engine/termsum.rs:561-601 | a worker's scan: its rows and its outbox by destination, under all angle tables at once, leaving alone what other workers hold |
| `SymbolicWorkers.JoinedUnder` | crates/surrogate/src/symcoeff.rs:778-784 | what a row is worth after a branch joins it, missing coefficients on either side included |
| `SymbolicWorkers.AbsorbShard` | crates/core/src/engine/termsum.rs:788-800 | a worker's share of the exchange: every branch joins its row or becomes one, under all angle tables at once |
| `SymbolicWorkers.ScaleShard` | crates/core/src/engine/termsum.rs:551-558 | scales exactly the anticommuting rows, under all angle tables at once |
| `SymbolicWorkers.LiveIsWalkable` | crates/surrogate/src/symcoeff.rs:178-254 | the coefficients a worker holds can be compiled and simplified, whatever the others hold |
| `SymbolicWorkers.SimplifyShard` | crates/surrogate/src/symcoeff.rs:749-752 | simplifying in chunks keeps every row's value for all angles and leaves the others' coefficients in use |
| `SymbolicWorkers.LeftAt` | crates/surrogate/src/engine.rs:47-54 | dropping rows without a coefficient changes no key's value |
| `SymbolicWorkers.DropEmpty` | crates/surrogate/src/engine.rs:49-53 | exactly the rows that have a coefficient stay, in order |
| `SymbolicWorkers.CompileShard` | crates/surrogate/src/engine.rs:69-84 | every row gives up its coefficient, and the tape of the overlapping ones is worth the partition's share of the expectation for every angle table |
| `SymbolicGates.DeliveredAll` | crates/core/src/engine/partitioned_termsum.rs:404-420 | between outboxes and inboxes no coefficient is lost or doubled |
| `SymbolicGates.DeliveredUnder` | crates/core/src/engine/partitioned_termsum.rs:404-420 | the symbolic inbox stands for the numeric one under every angle table |
| `SymbolicGates.RoundsArePairStep` | crates/core/src/engine/partitioned_termsum.rs:310-350 | scan and exchange over any number of partitions, each in any order of the workers, are the pair rule under every angle table |
| `SymbolicGates.ScalesAreScaleStep` | crates/core/src/engine/partitioned_termsum.rs:303-308 | scaled partition by partition the whole operator is scaled |
| `SymbolicGates.RowsInTerms` | crates/core/src/engine/partitioned_termsum.rs:210-212 | the rows are as many as the terms of the operator, whatever the angles |
| `SymbolicGates.DroppingKeeps` | crates/surrogate/src/engine.rs:49-53 | dropping empty rows changes no coefficient of the operator |
| `Surrogates.SymbolicOperator.constructor` | crates/core/src/engine/partitioned_termsum.rs:173-195 | at least one partition, nothing stored, identity frame |
| `Surrogates.SymbolicOperator.ScanPhase` | crates/core/src/engine/partitioned_termsum.rs:352-386 | every partition has scanned its rows into its outbox, in any order of the workers |
| `Surrogates.SymbolicOperator.AbsorbExchange` | crates/core/src/engine/partitioned_termsum.rs:389-450 | every partition has folded in everything addressed to it, in any order of the workers |
| `Surrogates.SymbolicOperator.Rotate` | crates/core/src/engine/partitioned_termsum.rs:310-350 | a rotation is the pair rule under every angle table |
| `Surrogates.SymbolicOperator.ScaleAll` | crates/core/src/engine/partitioned_termsum.rs:303-308 | a gate of known angle with sine 0 scales what it anticommutes with |
| `Surrogates.SymbolicOperator.ApplyGate` | crates/core/src/engine/partitioned_termsum.rs:276-350 | deferred, scaling or branching, one gate rotates the read-out under every angle table |
| `Surrogates.SymbolicOperator.SimplifyAll` | crates/surrogate/src/engine.rs:35-38 | the simplifying pass changes the operator under no angle table |
| `Surrogates.SymbolicOperator.Truncate` | crates/surrogate/src/engine.rs:22-57 | with no limits set no coefficient of the operator changes, and above the floor no empty row stays |
| `Surrogates.SymbolicOperator.AddTerm` | crates/core/src/engine/partitioned_termsum.rs:259-262 | the operator gains the amount at the key, in the partition that owns it |
| `Surrogates.SymbolicOperator.AddObservable` | crates/surrogate/src/engine.rs:160-165 | the operator stands for the observable under every angle table |
| `Surrogates.SymbolicOperator.Propagate` | crates/surrogate/src/engine.rs:174-187 | the gate loop with its truncation passes reads out the exact evolution under every angle table |
| `Surrogates.SymbolicOperator.Compile` | crates/surrogate/src/engine.rs:59-97 | one tape per partition, merged, with every term at its shard's offset, is worth the operator's expectation for every angle table; the rows have given their coefficients up |
| `SurrogateModels.MovedSum` | crates/surrogate/src/engine.rs:85-96 | terms moved to their shard's offset are worth on the merged tape what they were worth on their own |
| `SurrogateModels.Evaluate` | crates/surrogate/src/model.rs:63-101 | evaluation gives the model's value whatever the scratch buffer held |
| `SurrogateModels.LutHoldsAngles` | crates/surrogate/src/model.rs:104-106 | every parameter finds its own cosine and sine in the table of angles |
| `Surrogates.AnglesReachGates` | crates/surrogate/src/engine.rs:137-235 | a gate with a parameter turns by the angle given for that parameter |
| `Surrogates.Build` | crates/surrogate/src/engine.rs:137-235 | for every circuit, any number of partitions, any hash, any order of the workers and any of the gates followed by simplification, the compiled model's value is for every angle table the numeric run's expectation value, deferring or not |
| `Answers.ObservedMatrix` | crates/surrogate/src/engine.rs:160-165 | the operator an observable is collected into has the observable's matrix, repeated keys added up |
| `Answers.SurrogateAnswer` | crates/surrogate/src/model.rs:63-101 | a built model answers with the diagonal entry of the observable conjugated with every gate in turn, for every table of angles |
| `Simplification.IncrementedDiffers` | crates/surrogate/src/symcoeff.rs:547-554 | different factor runs stay different when both gain the same factor |
| `Simplification.Group` | crates/surrogate/src/symcoeff.rs:559-564 | equal runs are added up: distinct runs, the same total for every run, no more terms, same value for all angles |
| `Simplification.CountConsumers` | crates/surrogate/src/symcoeff.rs:570-612 | the counts are how often each reachable node will be asked for, by parents and by coefficients |
| `Simplification.TakeOrClone` | crates/surrogate/src/symcoeff.rs:614-629 | hands out the result and uses up one request; the result is taken away only with the last |
| `Simplification.StillWanted` | crates/surrogate/src/symcoeff.rs:614-700 | a node just finished is still wanted by someone |
| `Simplification.FinishNode` | crates/surrogate/src/symcoeff.rs:630-699 | the node's terms are worth its value, and the counts stay exact |
| `Simplification.RootsKept` | crates/surrogate/src/symcoeff.rs:614-712 | no coefficient's own result is ever released |
| `Simplification.ExpandAll` | crates/surrogate/src/symcoeff.rs:568-699 | every coefficient's terms have for every run the total of its monomials, and so its value for all angles; distinct, and no more than its monomials |
| `Simplification.BuildLeaf` | crates/surrogate/src/symcoeff.rs:736-745 | a chain that spreads out to exactly this one monomial, worth scalar times run, without sums |
| `Simplification.PairUp` | crates/surrogate/src/symcoeff.rs:721-733 | one level of the balanced sum keeps the monomials in their order and the value, halves the number of nodes and adds at most one sum on top of another |
| `Simplification.RebuildBalanced` | crates/surrogate/src/symcoeff.rs:713-734 | the rebuilt coefficient spreads out to exactly the terms with a scalar other than 0, in order, and no more sums lie above one another than a balanced sum needs; nothing is left if there is none |
| `Simplification.SimplifyBatch` | crates/surrogate/src/symcoeff.rs:568-711 | every coefficient keeps the total of every run, and so its value for all angles, and comes out with like terms collected, without zeros, balanced and with no more monomials; with roots of their own the new graph has the gate loop's shape whatever the old one had |
| `Pruning.LimitsExist` | crates/surrogate/src/symcoeff.rs:299-312 | powers of two meet what is asked of the limits, for every setting of frequency and cutoff |
| `Pruning.CachesBound` | crates/surrogate/src/symcoeff.rs:73-137 | the cached frequency bounds and upper scale bound every monomial below a node |
| `Pruning.PruneSelects` | crates/surrogate/src/symcoeff.rs:256-541 | what pruning leaves is a selection of the monomials in their order: none over the frequency limit, none whose rounded magnitude is below the cutoff, and every one within the limit whose own magnitude reaches the cutoff |
| `Pruning.SmallIsPruned` | crates/surrogate/src/symcoeff.rs:299-312 | a coefficient whose every monomial, scaled by the rounded powers above it, stays below the cutoff is pruned to nothing |
| `Pruning.ScalarDroppedIff` | crates/surrogate/src/symcoeff.rs:305-312 | a lone scalar is dropped exactly if it is below a positive cutoff |
| `Pruning.FrequencyIsExactFilter` | crates/surrogate/src/symcoeff.rs:256-541 | with the frequency limit alone exactly the monomials within it remain |
| `PruneWalks.MaskingIsHarmless` | crates/surrogate/src/symcoeff.rs:316-328 | the parts of a memo key that are masked off make no difference to the answer |
| `PruneWalks.ScheduledIsPruned` | crates/surrogate/src/symcoeff.rs:395-425 | a child scheduled earlier has its answer when its parent is reached |
| `PruneWalks.PushChildren` | crates/surrogate/src/symcoeff.rs:370-420 | each child is scheduled once, above the node that waits for it |
| `PruneWalks.PruneNode` | crates/surrogate/src/symcoeff.rs:330-541 | the walk over the shared graph with its memo never fails a lookup and builds exactly the pruned tree, reusing nodes that did not change |
| `PruneWalks.MonosAddUp` | crates/surrogate/src/symcoeff.rs:873-898 | a coefficient's value is the sum of its monomials |
| `PruneRuns.NoCrossing` | crates/surrogate/src/symcoeff.rs:178-254 | summands of two nodes that do not reach each other do not either |
| `PruneRuns.TracksIsWalkable` | crates/surrogate/src/symcoeff.rs:178-254 | a graph whose nodes stand for those of an unpruned one can be walked |
| `PruneRuns.EveryRunIsWalkable` | crates/surrogate/src/engine.rs:22-57 | after any sequence of rotations, merges, drops, prunings and simplifications every coefficient has its own root, and any selection of them in any order can be compiled, simplified and pruned without looking up a child that is not done |
| `PruneRuns.PruningLosesShape` | crates/surrogate/src/symcoeff.rs:330-541 | a run of rotations, merges and drops with a pruning at its end that makes a summand a part of another node, so the gate loop's shape alone does not survive |
| `ModelFiles.SerializeOps` | crates/surrogate/src/symcoeff.rs:975-1004 | appends count, tags and operands of the tape |
| `ModelFiles.DeserializeOps` | crates/surrogate/src/symcoeff.rs:1007-1047 | reads a tape, or stops at an unknown tag or missing bytes |
| `ModelFiles.TapeReadBack` | crates/surrogate/src/symcoeff.rs:939-948 | wherever a stored tape stands, reading there returns it and stops right behind it |
| `ModelFiles.SerializeShards` | crates/surrogate/src/symcoeff.rs:950-964 | stores the tape in chunks of equal size but the last |
| `ModelFiles.LoadShards` | crates/surrogate/src/model.rs:216-225 | the shards behind each other, if each can be read |
| `ModelFiles.ShardsReadBack` | crates/surrogate/src/symcoeff.rs:950-972 | a tape stored in any number of shards is read back whole |
| `ModelFiles.TermShardsReadBack` | crates/surrogate/src/model.rs:134-146 | the terms, missing coefficients included, are read back from any number of shards |
| `ModelFiles.Save` | crates/surrogate/src/model.rs:125-173 | the bytes of the file: header, tape section, term section |
| `ModelFiles.HeaderBytes` | crates/surrogate/src/model.rs:258-260 | a file starts with the letters PQSM and version 9, low bytes first |
| `ModelFiles.KnownBytes` | crates/surrogate/src/symcoeff.rs:975-1004 | the exact bytes of every kind of operation and of terms with and without a root, on small numbers |
| `ModelFiles.Load` | crates/surrogate/src/model.rs:175-255 | what the bytes of a file hold, foreign files told apart from damaged ones |
| `ModelFiles.SaveLoadRoundTrip` | crates/surrogate/src/model.rs:125-255 | loading a saved model returns it, however many shards it was saved in, for every packing that can be undone and stored blocks whose length fits 64 bits |
| `ModelFiles.RoundTripApplies` | crates/surrogate/src/model.rs:125-255 | a packing and a model that meet what the round trip asks for |
| `ModelFiles.ForeignIff` | crates/surrogate/src/model.rs:193-200 | a file is refused as foreign exactly if its first eight bytes are there and are not magic and version |
| `MatrixProducts.ApplyTransfer` | crates/hybrid/src/mps.rs:110-153 | the accumulation loop pushes the environment through the site |
| `MatrixProducts.TransfersAdjoint` | crates/hybrid/src/mps.rs:110-176 | the forward and the reverse step are adjoint under the bilinear pairing |
| `MatrixProducts.CutAnywhere` | crates/hybrid/src/mps.rs:155-203 | every cut right of the operators gives the contraction of the whole chain; without operators every cut gives the same norm |
| `MatrixProducts.BuildEnvironments` | crates/hybrid/src/mps.rs:179-188 | left and right environments at every cut |
| `MatrixProducts.DecodeSites` | crates/hybrid/src/contract.rs:38-72 | the merge of X and Z positions gives the letters in site order |
| `MatrixProducts.SitesInOrder` | crates/hybrid/src/contract.rs:38-72 | decoded sites ascend and lie inside the chain |
| `MatrixProducts.WindowExpectation` | crates/hybrid/src/contract.rs:77-100 | contracting only from the first to the last site equals contracting the whole chain |
| `MatrixProducts.SplitPlanes` | crates/core/src/storage/store.rs:29-31 | splits a row's positions into those of the key's first plane and of its second |
| `MatrixProducts.DecodeRow` | crates/hybrid/src/contract.rs:38-72 | the letters of the key, in site order and inside the chain, straight from its positions |
| `MatrixProducts.HybridExpectationSum` | crates/hybrid/src/contract.rs:103-118 | the sum over rows of coefficient times the contraction of the whole chain with the key's letters in |
| `Amplitudes.FullIsBraket` | crates/hybrid/src/mps.rs:106-153 | contracting a chain with operators in is the double sum over configurations of conjugated amplitude, product of operator entries and amplitude, an amplitude being a product of tensor slices |
| `Amplitudes.KeyIsBraket` | crates/hybrid/src/contract.rs:36-100 | contracting a decoded key is the expectation value of its string's matrix in the chain's state |
| `Amplitudes.SumIsBraket` | crates/hybrid/src/contract.rs:103-118 | the weighted sum over the rows is the expectation value of the whole operator's matrix |
| `Amplitudes.BasisChainTrace` | crates/hybrid/src/contract.rs:77-100 | on a bond-1 chain that stands for a basis state a decoded key is worth its trace there |

## Left out

- Word packing: a basis string is a sequence of bits, not 64-bit words, so shifts across words,
  padding bits past the register and the bit-gather intrinsics are not modelled.
- Floating point: coefficients, angles and tensor entries are exact; the 1e-9 and 1e-15
  tolerances, f32 storage and rounding are left out, and a cosine or sine counts as 0 only if it is.
- Threads, prefetching and worker slots: workers take turns in an arbitrary order over disjoint
  partitions.
- Hash quality: hashes and their folding and spreading are arbitrary functions of the key.
- Rows are sequences of cells rather than one arena with a stride, and the probe's bit mask is
  written as a remainder.
- Columns and bitmaps are sequences of bits padded to whole words.
- Noise: scaling by weight or by key reads stored keys before the frame and needs a run without
  deferral; only runs without noise are stated.
- Counters, timings and discard statistics.
- Engines.PartitionedTermSum.ApplyRotation: at the index ceiling it says only that the gate
  fails and that the routing buffers stay taken out; what the stored rows then hold is not stated.
- Engines.PartitionedTermSum.Propagate: gates only; noise, reclaiming and repacking between layers
  are not part of the run.
- RunLaws.PauliWeightCutoffHolds: states runs without a term floor, because below the floor the code
  switches the cutoffs off and lets keys over the weight bound in.
- NormLaws.RunNorm: with a weight bound and a floor its condition is about the keys before each
  gate; which circuits lead there is not worked out beyond `NormLaws.RunNormCanGrow`.
- WeightClearing.MajoranaKeepsWeightIff: Majorana runs with a weight cutoff get no bound on the
  read-out weight, since the step the code clears may change it.
- Frames.ClearedStepKeepsWeight: Pauli only, for the same reason.
- Reclaiming across partitions under a cutoff, and the choice of when to repack; both are one
  partition at a time here.
- Surrogates.Build: partitions have no index ceiling, the rows a worker scans and the row that
  holds a key are found by testing rows one by one instead of through bitmap and index (those are
  proved on the numeric partitions), and frequency, coefficient and weight limits are off.
- SymbolicCoeffs: monomial counts are unbounded where the code saturates them at 128 bits.
- Pruning.PruneSelects: powers of two have unbounded exponents, where the code saturates them at
  32 bits; factor counts do saturate.
- Simplification: runs are maps over parameters below a bound instead of ordered maps, and grouping
  finds equal runs by search instead of hashing.
- ModelFiles.SaveLoadRoundTrip: compression is any packing that can be undone, and a file is a byte
  sequence.
- ModelFiles.Load: short files, bad compression and broken tapes are one outcome.
- Conjugation.RunExpectation: the half angles of the gates are given with it, since the model has no
  square roots; every angle has them.
- MatrixProducts: tensors and environments are indexed functions instead of flat buffers, and the
  validation of a tensor list is a precondition.
- Truncation and noise plugins: arbitrary predicates; the layer they are told is left out.
- Trace loops on sparse rows, the number-preserving flag, and byte conversions of terms.
- Circuit readers, conversions from other libraries, Python bindings, logging and progress bars.
