# ParticleDualVectorFunction in Dafny

This project models `itk::ParticleDualVectorFunction` from the ShapeWorks particle
optimiser (`src/deprecated/branches/portal_changes/ITKParticleSystem/itkParticleDualVectorFunction.h`).
The class combines three particle vector functions: a primary term A, a secondary
term B and a correction term C that is used exactly when B is. It answers like a
single function, with one gradient vector, one step bound ("maxmove") and one
energy. The flags `m_AOn` and `m_BOn` choose which terms are asked. Four relative
scalings weight the answers. Both `Evaluate` overloads also keep running sums of
the terms' gradient magnitudes and energies over one iteration, together with a
call counter.

Files:

- `vectors.dfy` (module `Vectors`) holds fixed-length real vectors, standing for
  `vnl_vector_fixed<double, VDimension>`.
- `vector_functions.dfy` (module `VectorFunctions`) models the sub-terms. Each is a
  `ParticleVectorFunction` object with a stored domain number and particle system.
  Its three evaluation entry points are fixed functions of the query.
- `combination.dfy` (module `Combination`) states the combination rules as pure
  functions of the flags, the scalings and the terms' answers. It also gives an
  independent coefficient table for the same rules and lemmas tying the two
  together.
- `statistics.dfy` (module `Statistics`) describes the running sums by the list of
  what each `Evaluate` call added. It proves bounds on the resulting means.
- `dual_vector_function.dfy` (module `DualFunction`) holds the class itself. Its
  fields are the source's fields. Its methods update them as the source does, and
  each method is proved against the functions above.

Modelling choices:

- **Lifecycle and evaluation calls are recorded.** Each call the combinator
  makes into a term through `Evaluate`, `BeforeEvaluate`, `BeforeIteration` or
  `AfterIteration` is appended to a ghost trace `calls`. The two `Evaluate`
  overloads read every answer through `AskEvaluate` or `AskEvaluateWithEnergy`,
  which make the call and record it. The claim that "B and C are not asked when
  B is off" is then a statement about that trace (`Forwarded`,
  `ForwardedReaches`). `Energy`'s queries and the `SetDomainNumber` /
  `SetParticleSystem` calls are not in the trace. The latter are stated through
  their effect on the terms' fields.
- **Uninitialised locals can leak out.** The value `Indeterminate` models a result
  the source hands back without ever storing into it: `maxA` when A is off, and
  `ansA` in the energy overload. The methods leave such an output unconstrained.
- **The six accumulators are one record.** `m_AverageGradMagA/B/C` and
  `m_AverageEnergyA/B/C` are held as a single `Contribution` field `sums`, one
  component per accumulator. Despite their names they hold sums, not averages.
- **Each call adds to the sums once.** An `Evaluate` call collects in a local what
  it adds to each sum and adds it in one step. Between the source's six updates
  nothing reads the sums, so the final state is the same.
- **The constructor leaves the statistics unset.** It does not initialise the sums
  or the counter. A ghost flag `statsReset` records whether `BeforeIteration` has
  run. Only after that are the sums tied to the ghost list `samples`, which holds
  what each `Evaluate` call added.
- **The code wins over the comment.** The comment at lines 102-103 says that
  with nothing turned on the function returns a step bound of 0 and a bogus
  vector. The control flow at lines 96-100 and 194-199 never reaches that
  fallback. With both flags off, control takes the only-A branch, so the
  fallback at lines 102-105 and 201-204 is dead code. The model follows the
  control flow:
  - maxmove stays unset in both overloads.
  - The plain overload returns the zero-filled vector.
  - The energy overload returns an unset vector and energy 0.0.
- **Quirks kept as written:**
  - *Only B, plain overload.* The overload without energy returns `ansB + ansC`
    unscaled (line 93). The energy overload returns
    `ansB + normGradient * ansC` (line 191).
  - *Asymmetric step bound.* With both terms on, the step bound is `maxA` when
    `maxA <= maxB`, and `maxB + normEnergy * maxC` otherwise (lines 86-87 and
    182-183).
  - *Defaults.* The constructor installs scalings 1.0/1.0/0.0/0.0 (gradient,
    energy, norm-gradient, norm-energy; lines 372-376), so the correction term
    has no weight until a caller sets one.

## Model

| member | source | states |
|---|---|---|
| Combination.StepBound | src/deprecated/branches/portal_changes/ITKParticleSystem/itkParticleDualVectorFunction.h:84-100 | the maxmove rule both overloads share (also lines 182-199), with Indeterminate for the uninitialised maxA when both flags are off; its properties are StepBoundRule and BothOnStepBoundIsAtMostEither |
| Combination.PlainGradient | src/deprecated/branches/portal_changes/ITKParticleSystem/itkParticleDualVectorFunction.h:66-100 | the vector of the overload without energy, the zero fill of line 68 included; its closed form is PlainGradientIsBlend |
| Combination.EnergyGradient | src/deprecated/branches/portal_changes/ITKParticleSystem/itkParticleDualVectorFunction.h:172-199 | the vector of the overload with energy, Indeterminate for the never-assigned ansA of line 150 when both flags are off; its closed form is EnergyGradientIsBlend |
| Combination.WeightedEnergy | src/deprecated/branches/portal_changes/ITKParticleSystem/itkParticleDualVectorFunction.h:184-197 | the energy of the overload with energy and of Energy (lines 121-136), 0.0 with nothing on because energyA starts at 0.0; its closed form is WeightedEnergyIsDot |
| Combination.CombinePlain | src/deprecated/branches/portal_changes/ITKParticleSystem/itkParticleDualVectorFunction.h:62-106 | the whole outcome of the overload without energy from the three terms' answers; OnlyAPassesThrough, NothingOn, OffTermsIgnored and OverloadsAgree are about it |
| Combination.CombineWithEnergy | src/deprecated/branches/portal_changes/ITKParticleSystem/itkParticleDualVectorFunction.h:142-205 | the whole outcome of the overload with energy; OnlyAPassesThrough, NothingOn, OffTermsIgnoredWithEnergy and OverloadsAgree are about it |
| Combination.StepBoundRule | src/deprecated/branches/portal_changes/ITKParticleSystem/itkParticleDualVectorFunction.h:84-100 | maxmove is set exactly when some term is on: only A gives maxA, only B gives maxB + normEnergy*maxC, and both on give maxA when maxA <= maxB and otherwise maxB + normEnergy*maxC |
| Combination.BothOnStepBoundIsAtMostEither | src/deprecated/branches/portal_changes/ITKParticleSystem/itkParticleDualVectorFunction.h:182-183 | with both on and a correction that does not raise the bound, maxmove is at most maxA and at most maxB; with normEnergy 0.0 it is min(maxA, maxB) |
| Combination.PlainGradientIsBlend | src/deprecated/branches/portal_changes/ITKParticleSystem/itkParticleDualVectorFunction.h:66-100 | for every flag setting, the plain overload's vector is the table's weighted sum of the three answers (both on: 1, gradient, normGradient; only B: 0, 1, 1; only A: 1, 0, 0; none: the zero vector) |
| Combination.EnergyGradientIsBlend | src/deprecated/branches/portal_changes/ITKParticleSystem/itkParticleDualVectorFunction.h:172-199 | when some term is on, the energy overload's vector is the table's weighted sum (only B: 0, 1, normGradient); with none on it is never set |
| Combination.WeightedEnergyIsDot | src/deprecated/branches/portal_changes/ITKParticleSystem/itkParticleDualVectorFunction.h:184-197 | the energy is the weighted sum of the three energies with weights (1, energy, normEnergy), (0, 1, normEnergy), (1, 0, 0) or (0, 0, 0) by flag setting |
| Combination.DefaultBothOn | src/deprecated/branches/portal_changes/ITKParticleSystem/itkParticleDualVectorFunction.h:372-376 | under the constructor's scalings, with both terms on, both vectors are ansA + ansB and the energy is energyA + energyB |
| Combination.OnlyAPassesThrough | src/deprecated/branches/portal_changes/ITKParticleSystem/itkParticleDualVectorFunction.h:96-100 | with only A on, both overloads return exactly A's vector, maxmove and (energy overload) energy, whatever B and C would answer |
| Combination.NothingOn | src/deprecated/branches/portal_changes/ITKParticleSystem/itkParticleDualVectorFunction.h:96-105 | with both flags off the plain overload returns the zero vector and an unset maxmove; the energy overload returns an unset vector, an unset maxmove and energy 0.0 |
| Combination.OffTermsIgnored | src/deprecated/branches/portal_changes/ITKParticleSystem/itkParticleDualVectorFunction.h:70-100 | the plain overload's outcome does not depend on A's answer when A is off, nor on B's and C's when B is off |
| Combination.OffTermsIgnoredWithEnergy | src/deprecated/branches/portal_changes/ITKParticleSystem/itkParticleDualVectorFunction.h:152-199 | the same independence for the energy overload |
| Combination.OverloadsAgree | src/deprecated/branches/portal_changes/ITKParticleSystem/itkParticleDualVectorFunction.h:84-94 | for terms whose two overloads agree, the combinator's overloads give the same maxmove and, with A on, the same vector; with only B on they differ by (1 - normGradient) times C's vector |
| Statistics.RecordsAppend | src/deprecated/branches/portal_changes/ITKParticleSystem/itkParticleDualVectorFunction.h:69-82 | adding one call's contribution and 1.0 to the counter keeps the counter equal to the number of recorded calls and the sums equal to their sums |
| Statistics.TotalAtLeast | src/deprecated/branches/portal_changes/ITKParticleSystem/itkParticleDualVectorFunction.h:156-170 | a sum over calls that each added at least lo is at least (number of calls) * lo |
| Statistics.TotalAtMost | src/deprecated/branches/portal_changes/ITKParticleSystem/itkParticleDualVectorFunction.h:156-170 | a sum over calls that each added at most hi is at most (number of calls) * hi |
| Statistics.MeanAtLeast | src/deprecated/branches/portal_changes/ITKParticleSystem/itkParticleDualVectorFunction.h:339-369 | a mean is at least any lower bound of what the calls added |
| Statistics.MeanAtMost | src/deprecated/branches/portal_changes/ITKParticleSystem/itkParticleDualVectorFunction.h:339-369 | a mean is at most any upper bound of what the calls added |
| Statistics.MeanOfConstant | src/deprecated/branches/portal_changes/ITKParticleSystem/itkParticleDualVectorFunction.h:339-369 | when every call added the same m, the mean is m |
| DualFunction.ForwardedReaches | src/deprecated/branches/portal_changes/ITKParticleSystem/itkParticleDualVectorFunction.h:207-243 | a dispatch reaches A if and only if A is on, and B and C if and only if B is on; each at most once, all through the same entry point |
| DualFunction.Forwarded | src/deprecated/branches/portal_changes/ITKParticleSystem/itkParticleDualVectorFunction.h:207-243 | the calls one dispatch makes, in order; ForwardedReaches states what it contains |
| DualFunction.ParticleDualVectorFunction.PlainContribution | src/deprecated/branches/portal_changes/ITKParticleSystem/itkParticleDualVectorFunction.h:69-82 | what the overload without energy adds to the six sums: the magnitude of A's vector when A is on, of B's and C's when B is on, each 0.0 otherwise, and no energies; ContributionsFollowFlags states this |
| DualFunction.ParticleDualVectorFunction.EnergyContribution | src/deprecated/branches/portal_changes/ITKParticleSystem/itkParticleDualVectorFunction.h:151-170 | what the overload with energy adds: the magnitudes and energies of the asked terms, 0.0 for the rest; ContributionsFollowFlags states this |
| DualFunction.ParticleDualVectorFunction.ContributionsFollowFlags | src/deprecated/branches/portal_changes/ITKParticleSystem/itkParticleDualVectorFunction.h:69-82 | A's two sums grow only when A is on and B's and C's only when B is on; the overload without energy adds 0.0 to every energy sum; what is added to a magnitude sum is never negative |
| DualFunction.ParticleDualVectorFunction.AskEvaluate | src/deprecated/branches/portal_changes/ITKParticleSystem/itkParticleDualVectorFunction.h:72 | returns the term's plain Evaluate answer and appends exactly that call to the trace |
| DualFunction.ParticleDualVectorFunction.AskEvaluateWithEnergy | src/deprecated/branches/portal_changes/ITKParticleSystem/itkParticleDualVectorFunction.h:154 | returns the term's Evaluate-with-energy answer and appends exactly that call to the trace |
| DualFunction.ParticleDualVectorFunction.AskTerms | src/deprecated/branches/portal_changes/ITKParticleSystem/itkParticleDualVectorFunction.h:70-82 | asks A iff A is on, then B and C iff B is on, returning their plain answers, and the trace grows by exactly those calls |
| DualFunction.ParticleDualVectorFunction.AskTermsWithEnergy | src/deprecated/branches/portal_changes/ITKParticleSystem/itkParticleDualVectorFunction.h:152-170 | the same for the Evaluate-with-energy answers |
| DualFunction.ParticleDualVectorFunction.constructor | src/deprecated/branches/portal_changes/ITKParticleSystem/itkParticleDualVectorFunction.h:372-376 | A on, B off, scalings 1.0/1.0/0.0/0.0, no terms, statistics not yet reset |
| DualFunction.ParticleDualVectorFunction.Evaluate | src/deprecated/branches/portal_changes/ITKParticleSystem/itkParticleDualVectorFunction.h:62-106 | returns the vector of the plain combination rule and, when it is set, its maxmove; adds 1.0 to the counter and each asked term's gradient magnitude to its sum, energies untouched; asks A iff A is on and B and C iff B is on |
| DualFunction.ParticleDualVectorFunction.EvaluateWithEnergy | src/deprecated/branches/portal_changes/ITKParticleSystem/itkParticleDualVectorFunction.h:142-205 | returns the vector and maxmove of the energy combination rule when they are set, and always its energy; adds 1.0 to the counter and each asked term's gradient magnitude and energy to their sums; asks A iff A is on and B and C iff B is on |
| DualFunction.ParticleDualVectorFunction.Energy | src/deprecated/branches/portal_changes/ITKParticleSystem/itkParticleDualVectorFunction.h:108-140 | 0.0 with none on, A's energy with only A, B's + normEnergy * C's with only B, A's + energy * B's + normEnergy * C's with both; being a function it changes no statistics |
| DualFunction.ParticleDualVectorFunction.EnergyAgreesWithEvaluate | src/deprecated/branches/portal_changes/ITKParticleSystem/itkParticleDualVectorFunction.h:108-140 | when each asked term's Energy equals the energy its Evaluate reports, the combinator's Energy equals the energy its Evaluate reports |
| DualFunction.ParticleDualVectorFunction.BeforeEvaluate | src/deprecated/branches/portal_changes/ITKParticleSystem/itkParticleDualVectorFunction.h:207-220 | forwards the query to A iff A is on, then to B and C iff B is on |
| DualFunction.ParticleDualVectorFunction.AfterIteration | src/deprecated/branches/portal_changes/ITKParticleSystem/itkParticleDualVectorFunction.h:224-232 | forwards to A iff A is on, then to B and C iff B is on; statistics unchanged |
| DualFunction.ParticleDualVectorFunction.BeforeIteration | src/deprecated/branches/portal_changes/ITKParticleSystem/itkParticleDualVectorFunction.h:236-251 | forwards like AfterIteration, sets the six sums and the counter to 0.0, after which all six averages read 0.0 and no call is recorded |
| DualFunction.ParticleDualVectorFunction.SetParticleSystem | src/deprecated/branches/portal_changes/ITKParticleSystem/itkParticleDualVectorFunction.h:255-261 | stores p and hands it to every assigned term, leaving their domain numbers alone |
| DualFunction.ParticleDualVectorFunction.SetDomainNumber | src/deprecated/branches/portal_changes/ITKParticleSystem/itkParticleDualVectorFunction.h:263-269 | stores i and hands it to every assigned term, leaving their particle systems alone |
| DualFunction.ParticleDualVectorFunction.SetFunctionA | src/deprecated/branches/portal_changes/ITKParticleSystem/itkParticleDualVectorFunction.h:271-276 | installs o in slot A and gives it the combinator's domain number and particle system |
| DualFunction.ParticleDualVectorFunction.SetFunctionB | src/deprecated/branches/portal_changes/ITKParticleSystem/itkParticleDualVectorFunction.h:278-283 | installs o in slot B and gives it the combinator's domain number and particle system |
| DualFunction.ParticleDualVectorFunction.SetFunctionC | src/deprecated/branches/portal_changes/ITKParticleSystem/itkParticleDualVectorFunction.h:285-290 | installs o in slot C and gives it the combinator's domain number and particle system |
| DualFunction.ParticleDualVectorFunction.SetAOn | src/deprecated/branches/portal_changes/ITKParticleSystem/itkParticleDualVectorFunction.h:294-297 | afterwards GetAOn returns s (SetAOn() and SetAOff() are s = true and s = false) |
| DualFunction.ParticleDualVectorFunction.SetBOn | src/deprecated/branches/portal_changes/ITKParticleSystem/itkParticleDualVectorFunction.h:298-301 | afterwards GetBOn returns s (SetBOn() and SetBOff() are s = true and s = false) |
| DualFunction.ParticleDualVectorFunction.SetRelativeEnergyScaling | src/deprecated/branches/portal_changes/ITKParticleSystem/itkParticleDualVectorFunction.h:305-312 | afterwards the getter returns r |
| DualFunction.ParticleDualVectorFunction.SetRelativeNormEnergyScaling | src/deprecated/branches/portal_changes/ITKParticleSystem/itkParticleDualVectorFunction.h:313-320 | afterwards the getter returns r |
| DualFunction.ParticleDualVectorFunction.SetRelativeGradientScaling | src/deprecated/branches/portal_changes/ITKParticleSystem/itkParticleDualVectorFunction.h:322-329 | afterwards the getter returns r |
| DualFunction.ParticleDualVectorFunction.SetRelativeNormGradientScaling | src/deprecated/branches/portal_changes/ITKParticleSystem/itkParticleDualVectorFunction.h:330-337 | afterwards the getter returns r |
| DualFunction.ParticleDualVectorFunction.GetAOn | src/deprecated/branches/portal_changes/ITKParticleSystem/itkParticleDualVectorFunction.h:297 | returns m_AOn; SetAOn's contract is stated through it |
| DualFunction.ParticleDualVectorFunction.GetBOn | src/deprecated/branches/portal_changes/ITKParticleSystem/itkParticleDualVectorFunction.h:301 | returns m_BOn; SetBOn's contract is stated through it |
| DualFunction.ParticleDualVectorFunction.GetRelativeEnergyScaling | src/deprecated/branches/portal_changes/ITKParticleSystem/itkParticleDualVectorFunction.h:309-312 | returns m_RelativeEnergyScaling |
| DualFunction.ParticleDualVectorFunction.GetRelativeNormEnergyScaling | src/deprecated/branches/portal_changes/ITKParticleSystem/itkParticleDualVectorFunction.h:317-320 | returns m_RelativeNormEnergyScaling |
| DualFunction.ParticleDualVectorFunction.GetRelativeGradientScaling | src/deprecated/branches/portal_changes/ITKParticleSystem/itkParticleDualVectorFunction.h:326-329 | returns m_RelativeGradientScaling |
| DualFunction.ParticleDualVectorFunction.GetRelativeNormGradientScaling | src/deprecated/branches/portal_changes/ITKParticleSystem/itkParticleDualVectorFunction.h:334-337 | returns m_RelativeNormGradientScaling |
| DualFunction.ParticleDualVectorFunction.GetAverageGradMagA | src/deprecated/branches/portal_changes/ITKParticleSystem/itkParticleDualVectorFunction.h:339-343 | once BeforeIteration has run, the mean of A's gradient magnitudes over the Evaluate calls since (0.0 before the first) |
| DualFunction.ParticleDualVectorFunction.GetAverageGradMagB | src/deprecated/branches/portal_changes/ITKParticleSystem/itkParticleDualVectorFunction.h:344-348 | the same for B |
| DualFunction.ParticleDualVectorFunction.GetAverageGradMagC | src/deprecated/branches/portal_changes/ITKParticleSystem/itkParticleDualVectorFunction.h:349-353 | the same for C |
| DualFunction.ParticleDualVectorFunction.GetAverageEnergyA | src/deprecated/branches/portal_changes/ITKParticleSystem/itkParticleDualVectorFunction.h:355-359 | once BeforeIteration has run, the mean of A's energies over the Evaluate calls since, a plain-overload call counting as 0.0 |
| DualFunction.ParticleDualVectorFunction.GetAverageEnergyB | src/deprecated/branches/portal_changes/ITKParticleSystem/itkParticleDualVectorFunction.h:360-364 | the same for B |
| DualFunction.ParticleDualVectorFunction.GetAverageEnergyC | src/deprecated/branches/portal_changes/ITKParticleSystem/itkParticleDualVectorFunction.h:365-369 | the same for C |
| DualFunction.ParticleDualVectorFunction.AverageGradMagsNonNegative | src/deprecated/branches/portal_changes/ITKParticleSystem/itkParticleDualVectorFunction.h:339-353 | once BeforeIteration has run, the three average gradient magnitudes are never negative |
| DualFunction.ParticleDualVectorFunction.SteadyTermsAverage | src/deprecated/branches/portal_changes/ITKParticleSystem/itkParticleDualVectorFunction.h:339-369 | once BeforeIteration has run, if every Evaluate call since added the same m to an accumulator, its average reads exactly m |

## Left out

- `src/ShapeWorksView2/ShapeWorksView2.h` and `src/ShapeWorksView2/MeshWorkQueue.h` are not part of this model. The first is a Qt/VTK viewer window. The second is a mutex-guarded work queue, and both files show declarations only.
- The concrete force models of the sub-terms are not modelled. `itkParticleVectorFunction.h` is not part of this model, so a term is an object whose answers are fixed functions of the query. Its own internal state and its reaction to the lifecycle hooks are not modelled.
- The base class's getters, `GetDomainNumber` and `GetParticleSystem`, are read as the fields `domainNumber` and `particleSystem`.
- Doubles are modelled as mathematical reals. IEEE rounding, NaN and infinities are not modelled.
- `magnitude()` is the Euclidean norm computed with `sqrt` in vnl. It is a constructor parameter known only to be non-negative, since Dafny's reals have no square root.
- `unsigned int` indices are modelled as `nat`, without 32-bit wrap-around. The combinator never does arithmetic on them.
- `VDimension` is fixed at 3. No proof depends on it.
- The C++ `const_cast` writes inside `const` methods, and their thread safety, are not modelled; they are ordinary field updates. The ITK object factory, `SmartPointer` reference counting, `itkTypeMacro` and the private copy operations are also left out.
- Nesting one combinator as a term of another is not modelled. A term is a `ParticleVectorFunction`, not a `ParticleDualVectorFunction`.
- The commented-out debug printing in `Energy` and in the energy overload is not modelled.
- `Energy` is a function, so its queries to the terms (lines 113 and 118-119) are not entered in the call trace. Its contract states which terms' energies it uses.
- The source dereferences a slot without a null check whenever that slot's flag is on (lines 72, 78, 81, 212 and the like). An unassigned term that is switched on crashes there. The model turns this into the precondition `Ready()`, which says every switched-on slot holds a term, and does not model the crash.
- DualFunction.ParticleDualVectorFunction.Evaluate: when a flag setting leaves `maxmove` unset (both flags off), the model promises nothing about it, where the C++ returns whatever the uninitialised `maxA` held.
- DualFunction.ParticleDualVectorFunction.EvaluateWithEnergy: with both flags off, the vector and `maxmove` are unconstrained, matching the uninitialised `ansA` and `maxA` of the source.
