/** The combination rules of ParticleDualVectorFunction as pure functions of the
    two flags, the four relative scalings and what the three terms answered:
    A is the primary term, B the secondary one and C the correction that rides
    along with B. */
module Combination {
  import opened Vectors
  import opened VectorFunctions

  /** m_RelativeGradientScaling, m_RelativeEnergyScaling,
      m_RelativeNormGradientScaling and m_RelativeNormEnergyScaling. */
  datatype Scalings = Scalings(gradient: real, energy: real, normGradient: real, normEnergy: real)

  /** The scalings the constructor installs: B weighted like A, C weighted 0.0. */
  const DefaultScalings := Scalings(1.0, 1.0, 0.0, 0.0)

  /** A result the source may hand back without ever having stored into it: an
      uninitialised local is Indeterminate, anything else is Defined. */
  datatype Value<T> = Defined(value: T) | Indeterminate

  /** The outputs of Evaluate(idx, d, system, maxmove): the vector is always set. */
  datatype PlainOutcome = PlainOutcome(grad: Vec, maxmove: Value<real>)

  /** The outputs of Evaluate(idx, d, system, maxmove, energy). */
  datatype EnergyOutcome = EnergyOutcome(grad: Value<Vec>, maxmove: Value<real>, energy: real)

  /** Stand-ins for the answer of a term that is switched off and so never asked;
      the combination does not look at them (OffTermsIgnored). */
  const NotEvaluated: Response := Response(Zero(), 0.0)
  const NotEvaluatedWithEnergy: EnergyResponse := EnergyResponse(Zero(), 0.0, 0.0)

  /** A term's scalar output weighted by a relative scaling, as in
      m_RelativeNormEnergyScaling * maxC: weight * x. The combination rules
      and the methods write the product through this name so that their proofs
      treat it as a single term instead of as nonlinear arithmetic; the lemmas
      below state the same products with `*`, to which Weigh unfolds. */
  function Weigh(weight: real, x: real): real {
    weight * x
  }

  /** The maxmove of both Evaluate overloads. With only A on the else branch
      returns maxA, which stays uninitialised when A is off as well. */
  function StepBound(aOn: bool, bOn: bool, s: Scalings, maxA: real, maxB: real, maxC: real): Value<real>
  {
    if bOn then
      if aOn then
        (if maxA > maxB then Defined(maxB + Weigh(s.normEnergy, maxC)) else Defined(maxA))
      else Defined(maxB + Weigh(s.normEnergy, maxC))
    else if aOn then Defined(maxA)
    else Indeterminate
  }

  /** The vector of the overload without energy. ansA is zero-filled before A
      is asked, so with nothing on the vector is the zero vector; with only B on
      the correction is added without scaling. */
  function PlainGradient(aOn: bool, bOn: bool, s: Scalings, gA: Vec, gB: Vec, gC: Vec): Vec
  {
    if bOn then
      if aOn then Add(Add(gA, Scale(s.gradient, gB)), Scale(s.normGradient, gC))
      else Add(gB, gC)
    else if aOn then gA
    else Zero()
  }

  /** The vector of the overload with energy. Here ansA is not zero-filled, so
      with nothing on the vector is Indeterminate; with only B on the correction
      is scaled by normGradient. */
  function EnergyGradient(aOn: bool, bOn: bool, s: Scalings, gA: Vec, gB: Vec, gC: Vec): Value<Vec>
  {
    if bOn then
      if aOn then Defined(Add(Add(gA, Scale(s.gradient, gB)), Scale(s.normGradient, gC)))
      else Defined(Add(gB, Scale(s.normGradient, gC)))
    else if aOn then Defined(gA)
    else Indeterminate
  }

  /** The energy of the overload with energy and of the Energy query. The A
      energy starts as 0.0, so with nothing on the energy is 0.0. */
  function WeightedEnergy(aOn: bool, bOn: bool, s: Scalings, eA: real, eB: real, eC: real): real
  {
    if bOn then
      if aOn then eA + Weigh(s.energy, eB) + Weigh(s.normEnergy, eC)
      else eB + Weigh(s.normEnergy, eC)
    else if aOn then eA
    else 0.0
  }

  function CombinePlain(aOn: bool, bOn: bool, s: Scalings, a: Response, b: Response, c: Response): PlainOutcome
  {
    PlainOutcome(PlainGradient(aOn, bOn, s, a.grad, b.grad, c.grad),
                 StepBound(aOn, bOn, s, a.maxmove, b.maxmove, c.maxmove))
  }

  function CombineWithEnergy(aOn: bool, bOn: bool, s: Scalings,
                             a: EnergyResponse, b: EnergyResponse, c: EnergyResponse): EnergyOutcome
  {
    EnergyOutcome(EnergyGradient(aOn, bOn, s, a.grad, b.grad, c.grad),
                  StepBound(aOn, bOn, s, a.maxmove, b.maxmove, c.maxmove),
                  WeightedEnergy(aOn, bOn, s, a.energy, b.energy, c.energy))
  }

  // An independent description of the vector and energy rules: each output is
  // a fixed linear combination of the three terms' outputs, with one weight per
  // term read off a table indexed by the flags.

  datatype Coefficients = Coefficients(a: real, b: real, c: real)

  function Blend(k: Coefficients, gA: Vec, gB: Vec, gC: Vec): Vec {
    Add(Add(Scale(k.a, gA), Scale(k.b, gB)), Scale(k.c, gC))
  }

  function Dot(k: Coefficients, eA: real, eB: real, eC: real): real {
    k.a * eA + k.b * eB + k.c * eC
  }

  /** Weights of A, B and C in the vector of the overload without energy. */
  function PlainGradientCoefficients(aOn: bool, bOn: bool, s: Scalings): Coefficients {
    match (aOn, bOn)
    case (true, true) => Coefficients(1.0, s.gradient, s.normGradient)
    case (false, true) => Coefficients(0.0, 1.0, 1.0)
    case (true, false) => Coefficients(1.0, 0.0, 0.0)
    case (false, false) => Coefficients(0.0, 0.0, 0.0)
  }

  /** Weights of A, B and C in the vector of the overload with energy. */
  function EnergyGradientCoefficients(aOn: bool, bOn: bool, s: Scalings): Coefficients {
    match (aOn, bOn)
    case (true, true) => Coefficients(1.0, s.gradient, s.normGradient)
    case (false, true) => Coefficients(0.0, 1.0, s.normGradient)
    case (true, false) => Coefficients(1.0, 0.0, 0.0)
    case (false, false) => Coefficients(0.0, 0.0, 0.0)
  }

  /** Weights of A, B and C in the energy. */
  function EnergyCoefficients(aOn: bool, bOn: bool, s: Scalings): Coefficients {
    match (aOn, bOn)
    case (true, true) => Coefficients(1.0, s.energy, s.normEnergy)
    case (false, true) => Coefficients(0.0, 1.0, s.normEnergy)
    case (true, false) => Coefficients(1.0, 0.0, 0.0)
    case (false, false) => Coefficients(0.0, 0.0, 0.0)
  }

  /** The vector of the overload without energy is, for every setting of the
      flags including none, the weighted sum given by the table. */
  lemma PlainGradientIsBlend(aOn: bool, bOn: bool, s: Scalings, gA: Vec, gB: Vec, gC: Vec)
    ensures PlainGradient(aOn, bOn, s, gA, gB, gC) == Blend(PlainGradientCoefficients(aOn, bOn, s), gA, gB, gC)
  {
  }

  /** The vector of the overload with energy is the weighted sum given by its
      table whenever a term is on, and is never set when none is. */
  lemma EnergyGradientIsBlend(aOn: bool, bOn: bool, s: Scalings, gA: Vec, gB: Vec, gC: Vec)
    ensures aOn || bOn ==>
      EnergyGradient(aOn, bOn, s, gA, gB, gC) == Defined(Blend(EnergyGradientCoefficients(aOn, bOn, s), gA, gB, gC))
    ensures !aOn && !bOn ==> EnergyGradient(aOn, bOn, s, gA, gB, gC) == Indeterminate
  {
    if aOn || bOn {
      var k := EnergyGradientCoefficients(aOn, bOn, s);
      var g := EnergyGradient(aOn, bOn, s, gA, gB, gC).value;
      assert forall i | 0 <= i < Dim :: g[i] == k.a * gA[i] + k.b * gB[i] + k.c * gC[i];
      assert g == Blend(k, gA, gB, gC);
    }
  }

  /** The energy is, for every setting of the flags, the weighted sum given by
      the energy table. */
  lemma WeightedEnergyIsDot(aOn: bool, bOn: bool, s: Scalings, eA: real, eB: real, eC: real)
    ensures WeightedEnergy(aOn, bOn, s, eA, eB, eC) == Dot(EnergyCoefficients(aOn, bOn, s), eA, eB, eC)
  {
  }

  /** The step bound is set exactly when some term is on: with only A on it is
      maxA, with only B on maxB + normEnergy * maxC, and with both on it is maxA
      whenever maxA <= maxB, the correction then playing no part. */
  lemma StepBoundRule(aOn: bool, bOn: bool, s: Scalings, maxA: real, maxB: real, maxC: real)
    ensures StepBound(aOn, bOn, s, maxA, maxB, maxC).Defined? <==> aOn || bOn
    ensures aOn && !bOn ==> StepBound(aOn, bOn, s, maxA, maxB, maxC) == Defined(maxA)
    ensures !aOn && bOn ==> StepBound(aOn, bOn, s, maxA, maxB, maxC) == Defined(maxB + s.normEnergy * maxC)
    ensures aOn && bOn ==>
      StepBound(aOn, bOn, s, maxA, maxB, maxC) == Defined(if maxA <= maxB then maxA else maxB + s.normEnergy * maxC)
  {
    if bOn {
      assert StepBound(aOn, bOn, s, maxA, maxB, maxC).value ==
        if aOn && maxA <= maxB then maxA else maxB + s.normEnergy * maxC;
    }
  }

  /** With both terms on, a correction that does not raise the bound keeps it
      at or below each term's own bound; with normEnergy = 0.0 (the default)
      the bound is the smaller of maxA and maxB. */
  lemma BothOnStepBoundIsAtMostEither(s: Scalings, maxA: real, maxB: real, maxC: real)
    ensures s.normEnergy * maxC <= 0.0 ==>
      StepBound(true, true, s, maxA, maxB, maxC).value <= maxA &&
      StepBound(true, true, s, maxA, maxB, maxC).value <= maxB
    ensures s.normEnergy == 0.0 ==>
      StepBound(true, true, s, maxA, maxB, maxC) == Defined(if maxA <= maxB then maxA else maxB)
  {
  }

  /** Under the default scalings, with both terms on, B counts as much as A and
      the correction not at all: the vector is ansA + ansB in both overloads and
      the energy is energyA + energyB. */
  lemma DefaultBothOn(gA: Vec, gB: Vec, gC: Vec, eA: real, eB: real, eC: real)
    ensures PlainGradient(true, true, DefaultScalings, gA, gB, gC) == Add(gA, gB)
    ensures EnergyGradient(true, true, DefaultScalings, gA, gB, gC) == Defined(Add(gA, gB))
    ensures WeightedEnergy(true, true, DefaultScalings, eA, eB, eC) == eA + eB
  {
  }

  /** With only A on, both overloads hand back exactly what A answered, whatever
      B and C would have answered. */
  lemma OnlyAPassesThrough(s: Scalings, a: Response, b: Response, c: Response,
                           ae: EnergyResponse, be: EnergyResponse, ce: EnergyResponse)
    ensures CombinePlain(true, false, s, a, b, c) == PlainOutcome(a.grad, Defined(a.maxmove))
    ensures CombineWithEnergy(true, false, s, ae, be, ce) ==
      EnergyOutcome(Defined(ae.grad), Defined(ae.maxmove), ae.energy)
  {
  }

  /** With both flags off control still takes the only-A branch: the overload
      without energy returns the zero vector and an unset maxmove, the one with
      energy an unset vector, an unset maxmove and energy 0.0. */
  lemma NothingOn(s: Scalings, a: Response, b: Response, c: Response,
                  ae: EnergyResponse, be: EnergyResponse, ce: EnergyResponse)
    ensures CombinePlain(false, false, s, a, b, c) == PlainOutcome(Zero(), Indeterminate)
    ensures CombineWithEnergy(false, false, s, ae, be, ce) == EnergyOutcome(Indeterminate, Indeterminate, 0.0)
  {
  }

  /** What a switched-off term would have answered does not matter: A's answer
      is ignored when A is off, B's and C's when B is off. */
  lemma OffTermsIgnored(aOn: bool, bOn: bool, s: Scalings,
                        a: Response, b: Response, c: Response,
                        a': Response, b': Response, c': Response)
    ensures !aOn ==> CombinePlain(aOn, bOn, s, a, b, c) == CombinePlain(aOn, bOn, s, a', b, c)
    ensures !bOn ==> CombinePlain(aOn, bOn, s, a, b, c) == CombinePlain(aOn, bOn, s, a, b', c')
  {
  }

  lemma OffTermsIgnoredWithEnergy(aOn: bool, bOn: bool, s: Scalings,
                                  a: EnergyResponse, b: EnergyResponse, c: EnergyResponse,
                                  a': EnergyResponse, b': EnergyResponse, c': EnergyResponse)
    ensures !aOn ==> CombineWithEnergy(aOn, bOn, s, a, b, c) == CombineWithEnergy(aOn, bOn, s, a', b, c)
    ensures !bOn ==> CombineWithEnergy(aOn, bOn, s, a, b, c) == CombineWithEnergy(aOn, bOn, s, a, b', c')
  {
  }

  /** A term whose two Evaluate overloads report the same vector and maxmove. */
  predicate Consistent(r: Response, e: EnergyResponse) {
    r.grad == e.grad && r.maxmove == e.maxmove
  }

  /** When every term's two overloads agree, so do the combinator's, except in
      the vector with only B on: there the overload without energy carries the
      whole correction vector and the one with energy only normGradient of it,
      so the two differ by (1 - normGradient) times C's vector. */
  lemma OverloadsAgree(aOn: bool, bOn: bool, s: Scalings,
                       a: Response, b: Response, c: Response,
                       ae: EnergyResponse, be: EnergyResponse, ce: EnergyResponse)
    requires Consistent(a, ae) && Consistent(b, be) && Consistent(c, ce)
    ensures CombineWithEnergy(aOn, bOn, s, ae, be, ce).maxmove == CombinePlain(aOn, bOn, s, a, b, c).maxmove
    ensures aOn ==> CombineWithEnergy(aOn, bOn, s, ae, be, ce).grad == Defined(CombinePlain(aOn, bOn, s, a, b, c).grad)
    ensures !aOn && bOn ==>
      CombinePlain(aOn, bOn, s, a, b, c).grad ==
      Add(CombineWithEnergy(aOn, bOn, s, ae, be, ce).grad.value, Scale(1.0 - s.normGradient, c.grad))
  {
    if !aOn && bOn {
      var e := CombineWithEnergy(aOn, bOn, s, ae, be, ce).grad.value;
      assert forall i | 0 <= i < Dim ::
        CombinePlain(aOn, bOn, s, a, b, c).grad[i] == Add(e, Scale(1.0 - s.normGradient, c.grad))[i];
    }
  }
}
