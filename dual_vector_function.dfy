/** ParticleDualVectorFunction: merges a primary term A, a secondary term B and
    a correction term C into one vector, one maxmove and one energy, under the
    flags m_AOn and m_BOn, and keeps per-iteration running sums. */
module DualFunction {
  import opened Vectors
  import opened VectorFunctions
  import opened Combination
  import opened Statistics

  /** The three term slots m_FunctionA, m_FunctionB, m_FunctionC. */
  datatype Slot = SlotA | SlotB | SlotC

  /** The entry points of a term the combinator calls. */
  datatype Hook =
    | EvaluateHook(q: Query)
    | EvaluateWithEnergyHook(q: Query)
    | BeforeEvaluateHook(q: Query)
    | BeforeIterationHook
    | AfterIterationHook

  /** One call made through a slot. */
  datatype Call = Call(slot: Slot, hook: Hook)

  /** The calls one dispatch makes, in order: A when A is on, then B and C when
      B is on. C has no flag of its own; it is asked exactly when B is. */
  function Forwarded(aOn: bool, bOn: bool, h: Hook): seq<Call> {
    (if aOn then [Call(SlotA, h)] else []) + (if bOn then [Call(SlotB, h), Call(SlotC, h)] else [])
  }

  /** A dispatch reaches A exactly when A is on and B and C exactly when B is
      on, each at most once, all through the same entry point. */
  lemma ForwardedReaches(aOn: bool, bOn: bool, h: Hook)
    ensures Call(SlotA, h) in Forwarded(aOn, bOn, h) <==> aOn
    ensures Call(SlotB, h) in Forwarded(aOn, bOn, h) <==> bOn
    ensures Call(SlotC, h) in Forwarded(aOn, bOn, h) <==> bOn
    ensures forall i | 0 <= i < |Forwarded(aOn, bOn, h)| :: Forwarded(aOn, bOn, h)[i].hook == h
    ensures |Forwarded(aOn, bOn, h)| == (if aOn then 1 else 0) + (if bOn then 2 else 0)
  {
  }

  class ParticleDualVectorFunction {
    // State of the ParticleVectorFunction base class.
    var domainNumber: nat
    var particleSystem: ParticleSystem?

    var aOn: bool
    var bOn: bool
    var relativeGradientScaling: real
    var relativeEnergyScaling: real
    var relativeNormGradientScaling: real
    var relativeNormEnergyScaling: real

    /** m_AverageGradMagA/B/C and m_AverageEnergyA/B/C, running sums despite
        their names, held as one record with a component per accumulator. */
    var sums: Contribution
    /** m_Counter, a double. */
    var counter: real

    var functionA: ParticleVectorFunction?
    var functionB: ParticleVectorFunction?
    var functionC: ParticleVectorFunction?

    /** vnl's magnitude(): the Euclidean length, known here only to be non-negative. */
    const magnitude: Vec -> real

    /** Every call made to a term through a slot, oldest first. */
    ghost var calls: seq<Call>
    /** Whether BeforeIteration has run; until then the sums and the counter hold
        whatever the constructor left in them. */
    ghost var statsReset: bool
    /** What each Evaluate call since the last BeforeIteration added. */
    ghost var samples: seq<Contribution>

    ghost predicate Valid()
      reads this
    {
      && (forall v :: magnitude(v) >= 0.0)
      && (statsReset ==> Records(counter, sums, samples))
    }

    /** A term is assigned in every slot a flag switches on (the source
        dereferences those slots without a null check). */
    predicate Ready()
      reads this`aOn, this`bOn, this`functionA, this`functionB, this`functionC
    {
      (aOn ==> functionA != null) && (bOn ==> functionB != null && functionC != null)
    }

    /** The terms currently assigned. */
    function Terms(): set<ParticleVectorFunction>
      reads this
    {
      (if functionA == null then {} else {functionA}) +
      (if functionB == null then {} else {functionB}) +
      (if functionC == null then {} else {functionC})
    }

    function CurrentScalings(): Scalings
      reads this`relativeGradientScaling, this`relativeEnergyScaling
      reads this`relativeNormGradientScaling, this`relativeNormEnergyScaling
    {
      Scalings(relativeGradientScaling, relativeEnergyScaling,
               relativeNormGradientScaling, relativeNormEnergyScaling)
    }

    /** What the overload without energy hands back for q. */
    ghost function PlainResult(q: Query): PlainOutcome
      reads this`aOn, this`bOn, this`functionA, this`functionB, this`functionC
      reads this`relativeGradientScaling, this`relativeEnergyScaling
      reads this`relativeNormGradientScaling, this`relativeNormEnergyScaling
      requires Ready()
    {
      CombinePlain(aOn, bOn, CurrentScalings(),
                   if aOn then functionA.evaluate(q) else NotEvaluated,
                   if bOn then functionB.evaluate(q) else NotEvaluated,
                   if bOn then functionC.evaluate(q) else NotEvaluated)
    }

    /** What the overload with energy hands back for q. */
    ghost function EnergyResult(q: Query): EnergyOutcome
      reads this`aOn, this`bOn, this`functionA, this`functionB, this`functionC
      reads this`relativeGradientScaling, this`relativeEnergyScaling
      reads this`relativeNormGradientScaling, this`relativeNormEnergyScaling
      requires Ready()
    {
      CombineWithEnergy(aOn, bOn, CurrentScalings(),
                        if aOn then functionA.evaluateWithEnergy(q) else NotEvaluatedWithEnergy,
                        if bOn then functionB.evaluateWithEnergy(q) else NotEvaluatedWithEnergy,
                        if bOn then functionC.evaluateWithEnergy(q) else NotEvaluatedWithEnergy)
    }

    /** What the overload without energy adds to the statistics for q:
        magnitudes of the terms it asks, no energies. */
    ghost function PlainContribution(q: Query): Contribution
      reads this`aOn, this`bOn, this`functionA, this`functionB, this`functionC
      requires Ready()
    {
      Contribution(if aOn then magnitude(functionA.evaluate(q).grad) else 0.0,
                   if bOn then magnitude(functionB.evaluate(q).grad) else 0.0,
                   if bOn then magnitude(functionC.evaluate(q).grad) else 0.0,
                   0.0, 0.0, 0.0)
    }

    /** What the overload with energy adds to the statistics for q. */
    ghost function EnergyContribution(q: Query): Contribution
      reads this`aOn, this`bOn, this`functionA, this`functionB, this`functionC
      requires Ready()
    {
      Contribution(if aOn then magnitude(functionA.evaluateWithEnergy(q).grad) else 0.0,
                   if bOn then magnitude(functionB.evaluateWithEnergy(q).grad) else 0.0,
                   if bOn then magnitude(functionC.evaluateWithEnergy(q).grad) else 0.0,
                   if aOn then functionA.evaluateWithEnergy(q).energy else 0.0,
                   if bOn then functionB.evaluateWithEnergy(q).energy else 0.0,
                   if bOn then functionC.evaluateWithEnergy(q).energy else 0.0)
    }

    /** A's two sums grow only when A is on, and B's and C's only when B is on;
        the overload without energy adds 0.0 to every energy sum; and no
        gradient magnitude either overload adds is negative. */
    lemma ContributionsFollowFlags(q: Query)
      requires Valid() && Ready()
      ensures !aOn ==> PlainContribution(q).gradMagA == 0.0
      ensures !aOn ==> EnergyContribution(q).gradMagA == 0.0 && EnergyContribution(q).energyA == 0.0
      ensures !bOn ==> PlainContribution(q).gradMagB == 0.0 && PlainContribution(q).gradMagC == 0.0
      ensures !bOn ==>
        && EnergyContribution(q).gradMagB == 0.0 && EnergyContribution(q).gradMagC == 0.0
        && EnergyContribution(q).energyB == 0.0 && EnergyContribution(q).energyC == 0.0
      ensures PlainContribution(q).energyA == 0.0 && PlainContribution(q).energyB == 0.0
      ensures PlainContribution(q).energyC == 0.0
      ensures PlainContribution(q).MagnitudesNonNegative() && EnergyContribution(q).MagnitudesNonNegative()
    {
    }

    /** The protected constructor: A on, B off, gradient and energy scalings 1.0,
        the two correction scalings 0.0, no terms. The running sums and the
        counter are left uninitialised. */
    constructor (magnitude: Vec -> real)
      requires forall v :: magnitude(v) >= 0.0
      ensures Valid() && !statsReset && calls == []
      ensures this.magnitude == magnitude
      ensures aOn && !bOn
      ensures CurrentScalings() == DefaultScalings
      ensures functionA == null && functionB == null && functionC == null
    {
      this.magnitude := magnitude;
      aOn, bOn := true, false;
      relativeGradientScaling, relativeEnergyScaling := 1.0, 1.0;
      relativeNormGradientScaling, relativeNormEnergyScaling := 0.0, 0.0;
      functionA, functionB, functionC := null, null, null;
      calls := [];
      statsReset := false;
    }

    /** Asks term t, sitting in slot, for its plain Evaluate answer to q, and
        records the call. Every answer the combinator reads comes through here. */
    method AskEvaluate(slot: Slot, t: ParticleVectorFunction, q: Query) returns (r: Response)
      modifies this`calls
      ensures r == t.evaluate(q)
      ensures calls == old(calls) + [Call(slot, EvaluateHook(q))]
    {
      r := t.evaluate(q);
      calls := calls + [Call(slot, EvaluateHook(q))];
    }

    /** Asks term t, sitting in slot, for its Evaluate-with-energy answer to q,
        and records the call. */
    method AskEvaluateWithEnergy(slot: Slot, t: ParticleVectorFunction, q: Query) returns (r: EnergyResponse)
      modifies this`calls
      ensures r == t.evaluateWithEnergy(q)
      ensures calls == old(calls) + [Call(slot, EvaluateWithEnergyHook(q))]
    {
      r := t.evaluateWithEnergy(q);
      calls := calls + [Call(slot, EvaluateWithEnergyHook(q))];
    }

    /** Asks A when A is on, then B and C when B is on, for their plain
        Evaluate answers to q, in that order. The answers of terms not asked
        are arbitrary. */
    method AskTerms(q: Query) returns (a: Response, b: Response, c: Response)
      requires Ready()
      modifies this`calls
      ensures aOn ==> a == functionA.evaluate(q)
      ensures bOn ==> b == functionB.evaluate(q) && c == functionC.evaluate(q)
      ensures calls == old(calls) + Forwarded(aOn, bOn, EvaluateHook(q))
    {
      a, b, c := *, *, *;
      if aOn {
        a := AskEvaluate(SlotA, functionA, q);
      }
      if bOn {
        b := AskEvaluate(SlotB, functionB, q);
        c := AskEvaluate(SlotC, functionC, q);
      }
    }

    /** The same for the Evaluate-with-energy answers. */
    method AskTermsWithEnergy(q: Query) returns (a: EnergyResponse, b: EnergyResponse, c: EnergyResponse)
      requires Ready()
      modifies this`calls
      ensures aOn ==> a == functionA.evaluateWithEnergy(q)
      ensures bOn ==> b == functionB.evaluateWithEnergy(q) && c == functionC.evaluateWithEnergy(q)
      ensures calls == old(calls) + Forwarded(aOn, bOn, EvaluateWithEnergyHook(q))
    {
      a, b, c := *, *, *;
      if aOn {
        a := AskEvaluateWithEnergy(SlotA, functionA, q);
      }
      if bOn {
        b := AskEvaluateWithEnergy(SlotB, functionB, q);
        c := AskEvaluateWithEnergy(SlotC, functionC, q);
      }
    }

    /** Evaluate(idx, d, system, maxmove). maxmove is left unset only when both
        flags are off. */
    method Evaluate(idx: nat, d: nat, system: ParticleSystem?) returns (v: Vec, maxmove: real)
      requires Valid() && Ready()
      modifies this`counter, this`sums
      modifies this`calls, this`samples
      ensures Valid()
      ensures v == old(PlainResult(Query(idx, d, system))).grad
      ensures old(PlainResult(Query(idx, d, system))).maxmove.Defined? ==>
        maxmove == old(PlainResult(Query(idx, d, system))).maxmove.value
      ensures counter == old(counter) + 1.0
      ensures sums == old(sums).Plus(old(PlainContribution(Query(idx, d, system))))
      ensures samples == old(samples) + [old(PlainContribution(Query(idx, d, system)))]
      ensures calls == old(calls) + Forwarded(aOn, bOn, EvaluateHook(Query(idx, d, system)))
    {
      var q := Query(idx, d, system);
      // Nothing below changes the flags or the scalings.
      var useA, useB := aOn, bOn;
      var s := CurrentScalings();
      var maxA: real := *;
      var ansA := Zero();
      // What this call adds to each running sum, added to the sums in one
      // step once the terms have answered; nothing reads them in between.
      var added := NoContribution;
      counter := counter + 1.0;
      var rA, rB, rC := AskTerms(q);
      if useA {
        ansA, maxA := rA.grad, rA.maxmove;
        added := added.(gradMagA := magnitude(ansA));
      }
      if useB {
        var ansB, maxB := rB.grad, rB.maxmove;
        added := added.(gradMagB := magnitude(ansB));

        var ansC, maxC := rC.grad, rC.maxmove;
        added := added.(gradMagC := magnitude(ansC));

        if useA {
          if maxA > maxB { maxmove := maxB + Weigh(s.normEnergy, maxC); }
          else { maxmove := maxA; }
          v := Add(Add(ansA, Scale(s.gradient, ansB)), Scale(s.normGradient, ansC));
        } else {
          maxmove := maxB + Weigh(s.normEnergy, maxC);
          v := Add(ansB, ansC);
        }
      } else {
        // Also taken when A is off: the "nothing on" fallback after this
        // if-else can never be reached.
        maxmove := maxA;
        v := ansA;
      }
      sums := sums.Plus(added);
      if statsReset {
        RecordsAppend(old(counter), old(sums), samples, added);
      }
      samples := samples + [added];
    }

    /** Energy(idx, d, system): the weighted energy sum of the terms that are
        on, without touching the statistics (it is a function). */
    function Energy(idx: nat, d: nat, system: ParticleSystem?): (e: real)
      reads this
      requires Ready()
      ensures !aOn && !bOn ==> e == 0.0
      ensures aOn && !bOn ==> e == functionA.energy(Query(idx, d, system))
      ensures !aOn && bOn ==>
        e == functionB.energy(Query(idx, d, system))
             + relativeNormEnergyScaling * functionC.energy(Query(idx, d, system))
      ensures aOn && bOn ==>
        e == functionA.energy(Query(idx, d, system))
             + relativeEnergyScaling * functionB.energy(Query(idx, d, system))
             + relativeNormEnergyScaling * functionC.energy(Query(idx, d, system))
    {
      var q := Query(idx, d, system);
      var ansA := if aOn then functionA.energy(q) else 0.0;
      var ansB := if bOn then functionB.energy(q) else 0.0;
      var ansC := if bOn then functionC.energy(q) else 0.0;
      WeightedEnergy(aOn, bOn, CurrentScalings(), ansA, ansB, ansC)
    }

    /** Evaluate(idx, d, system, maxmove, energy). Vector and maxmove are left
        unset only when both flags are off; energy is always set. */
    method EvaluateWithEnergy(idx: nat, d: nat, system: ParticleSystem?)
      returns (v: Vec, maxmove: real, energy: real)
      requires Valid() && Ready()
      modifies this`counter, this`sums
      modifies this`calls, this`samples
      ensures Valid()
      ensures old(EnergyResult(Query(idx, d, system))).grad.Defined? ==>
        v == old(EnergyResult(Query(idx, d, system))).grad.value
      ensures old(EnergyResult(Query(idx, d, system))).maxmove.Defined? ==>
        maxmove == old(EnergyResult(Query(idx, d, system))).maxmove.value
      ensures energy == old(EnergyResult(Query(idx, d, system))).energy
      ensures counter == old(counter) + 1.0
      ensures sums == old(sums).Plus(old(EnergyContribution(Query(idx, d, system))))
      ensures samples == old(samples) + [old(EnergyContribution(Query(idx, d, system)))]
      ensures calls == old(calls) + Forwarded(aOn, bOn, EvaluateWithEnergyHook(Query(idx, d, system)))
    {
      var q := Query(idx, d, system);
      // Nothing below changes the flags or the scalings.
      var useA, useB := aOn, bOn;
      var s := CurrentScalings();
      var maxA: real := *;
      var energyA, energyB, energyC := 0.0, 0.0, 0.0;
      var ansA: Vec := *;
      // What this call adds to each running sum, added to the sums in one
      // step once the terms have answered; nothing reads them in between.
      var added := NoContribution;
      counter := counter + 1.0;
      var rA, rB, rC := AskTermsWithEnergy(q);
      if useA {
        ansA, maxA, energyA := rA.grad, rA.maxmove, rA.energy;
        added := added.(gradMagA := magnitude(ansA), energyA := energyA);
      }
      if useB {
        var ansB, maxB := rB.grad, rB.maxmove;
        energyB := rB.energy;
        added := added.(gradMagB := magnitude(ansB), energyB := energyB);

        var ansC, maxC := rC.grad, rC.maxmove;
        energyC := rC.energy;
        added := added.(gradMagC := magnitude(ansC), energyC := energyC);

        if useA {
          if maxA > maxB { maxmove := maxB + Weigh(s.normEnergy, maxC); }
          else { maxmove := maxA; }
          energy := energyA + Weigh(s.energy, energyB) + Weigh(s.normEnergy, energyC);
          v := Add(Add(ansA, Scale(s.gradient, ansB)), Scale(s.normGradient, ansC));
        } else {
          maxmove := maxB + Weigh(s.normEnergy, maxC);
          energy := energyB + Weigh(s.normEnergy, energyC);
          v := Add(ansB, Scale(s.normGradient, ansC));
        }
      } else {
        // Also taken when A is off; ansA and maxA are then never set.
        maxmove := maxA;
        energy := energyA;
        v := ansA;
      }
      sums := sums.Plus(added);
      if statsReset {
        RecordsAppend(old(counter), old(sums), samples, added);
      }
      samples := samples + [added];
    }

    /** When every assigned term's Energy agrees with the energy its own
        Evaluate reports, the combinator's Energy agrees with the energy its
        Evaluate reports, so it can stand in for a single term. */
    lemma EnergyAgreesWithEvaluate(q: Query)
      requires Ready()
      requires aOn ==> functionA.energy(q) == functionA.evaluateWithEnergy(q).energy
      requires bOn ==> functionB.energy(q) == functionB.evaluateWithEnergy(q).energy
      requires bOn ==> functionC.energy(q) == functionC.evaluateWithEnergy(q).energy
      ensures Energy(q.idx, q.domain, q.system) == EnergyResult(q).energy
    {
    }

    method BeforeEvaluate(idx: nat, d: nat, system: ParticleSystem?)
      requires Ready()
      modifies this`calls
      ensures calls == old(calls) + Forwarded(aOn, bOn, BeforeEvaluateHook(Query(idx, d, system)))
    {
      var q := Query(idx, d, system);
      if aOn {
        calls := calls + [Call(SlotA, BeforeEvaluateHook(q))];
      }
      if bOn {
        calls := calls + [Call(SlotB, BeforeEvaluateHook(q))];
        calls := calls + [Call(SlotC, BeforeEvaluateHook(q))];
      }
    }

    /** Forwards to the terms that are on; the statistics are left alone. */
    method AfterIteration()
      requires Ready()
      modifies this`calls
      ensures calls == old(calls) + Forwarded(aOn, bOn, AfterIterationHook)
    {
      if aOn { calls := calls + [Call(SlotA, AfterIterationHook)]; }
      if bOn {
        calls := calls + [Call(SlotB, AfterIterationHook)];
        calls := calls + [Call(SlotC, AfterIterationHook)];
      }
    }

    /** Forwards to the terms that are on, then sets the six sums and the
        counter to 0.0: the only place they are reset, after which every
        average reads 0.0. */
    method BeforeIteration()
      requires Valid() && Ready()
      modifies this`calls, this`counter, this`sums
      modifies this`statsReset, this`samples
      ensures Valid() && statsReset && samples == []
      ensures calls == old(calls) + Forwarded(aOn, bOn, BeforeIterationHook)
      ensures counter == 0.0
      ensures sums == NoContribution
      ensures GetAverageGradMagA() == 0.0 && GetAverageGradMagB() == 0.0 && GetAverageGradMagC() == 0.0
      ensures GetAverageEnergyA() == 0.0 && GetAverageEnergyB() == 0.0 && GetAverageEnergyC() == 0.0
    {
      if aOn { calls := calls + [Call(SlotA, BeforeIterationHook)]; }
      if bOn {
        calls := calls + [Call(SlotB, BeforeIterationHook)];
        calls := calls + [Call(SlotC, BeforeIterationHook)];
      }
      sums := NoContribution;
      counter := 0.0;
      statsReset := true;
      samples := [];
    }

    /** Stores p and hands it to every assigned term, and only to those. */
    method SetParticleSystem(p: ParticleSystem?)
      requires Valid()
      modifies this`particleSystem, Terms()
      ensures Valid()
      ensures particleSystem == p
      ensures forall t | t in old(Terms()) :: t.particleSystem == p && t.domainNumber == old(t.domainNumber)
    {
      particleSystem := p;
      if functionA != null { functionA.SetParticleSystem(p); }
      if functionB != null { functionB.SetParticleSystem(p); }
      if functionC != null { functionC.SetParticleSystem(p); }
    }

    /** Stores i and hands it to every assigned term, and only to those. */
    method SetDomainNumber(i: nat)
      requires Valid()
      modifies this`domainNumber, Terms()
      ensures Valid()
      ensures domainNumber == i
      ensures forall t | t in old(Terms()) :: t.domainNumber == i && t.particleSystem == old(t.particleSystem)
    {
      domainNumber := i;
      if functionA != null { functionA.SetDomainNumber(i); }
      if functionB != null { functionB.SetDomainNumber(i); }
      if functionC != null { functionC.SetDomainNumber(i); }
    }

    /** Assigns slot A and pushes the current domain number and particle
        system into the new term. */
    method SetFunctionA(o: ParticleVectorFunction)
      requires Valid()
      modifies this`functionA, o
      ensures Valid()
      ensures functionA == o
      ensures o.domainNumber == domainNumber && o.particleSystem == particleSystem
    {
      functionA := o;
      functionA.SetDomainNumber(domainNumber);
      functionA.SetParticleSystem(particleSystem);
    }

    method SetFunctionB(o: ParticleVectorFunction)
      requires Valid()
      modifies this`functionB, o
      ensures Valid()
      ensures functionB == o
      ensures o.domainNumber == domainNumber && o.particleSystem == particleSystem
    {
      functionB := o;
      functionB.SetDomainNumber(domainNumber);
      functionB.SetParticleSystem(particleSystem);
    }

    method SetFunctionC(o: ParticleVectorFunction)
      requires Valid()
      modifies this`functionC, o
      ensures Valid()
      ensures functionC == o
      ensures o.domainNumber == domainNumber && o.particleSystem == particleSystem
    {
      functionC := o;
      functionC.SetDomainNumber(domainNumber);
      functionC.SetParticleSystem(particleSystem);
    }

    /** SetAOn(s); SetAOn() is SetAOn(true) and SetAOff() is SetAOn(false). */
    method SetAOn(s: bool)
      requires Valid()
      modifies this`aOn
      ensures Valid()
      ensures GetAOn() == s
    {
      aOn := s;
    }

    function GetAOn(): bool
      reads this
    {
      aOn
    }

    /** SetBOn(s); SetBOn() is SetBOn(true) and SetBOff() is SetBOn(false). */
    method SetBOn(s: bool)
      requires Valid()
      modifies this`bOn
      ensures Valid()
      ensures GetBOn() == s
    {
      bOn := s;
    }

    function GetBOn(): bool
      reads this
    {
      bOn
    }

    method SetRelativeEnergyScaling(r: real)
      requires Valid()
      modifies this`relativeEnergyScaling
      ensures Valid()
      ensures GetRelativeEnergyScaling() == r
    {
      relativeEnergyScaling := r;
    }

    function GetRelativeEnergyScaling(): real
      reads this
    {
      relativeEnergyScaling
    }

    method SetRelativeNormEnergyScaling(r: real)
      requires Valid()
      modifies this`relativeNormEnergyScaling
      ensures Valid()
      ensures GetRelativeNormEnergyScaling() == r
    {
      relativeNormEnergyScaling := r;
    }

    function GetRelativeNormEnergyScaling(): real
      reads this
    {
      relativeNormEnergyScaling
    }

    method SetRelativeGradientScaling(r: real)
      requires Valid()
      modifies this`relativeGradientScaling
      ensures Valid()
      ensures GetRelativeGradientScaling() == r
    {
      relativeGradientScaling := r;
    }

    function GetRelativeGradientScaling(): real
      reads this
    {
      relativeGradientScaling
    }

    method SetRelativeNormGradientScaling(r: real)
      requires Valid()
      modifies this`relativeNormGradientScaling
      ensures Valid()
      ensures GetRelativeNormGradientScaling() == r
    {
      relativeNormGradientScaling := r;
    }

    function GetRelativeNormGradientScaling(): real
      reads this
    {
      relativeNormGradientScaling
    }

    // The six averages: sum / counter, or 0.0 while the counter is 0.0. Once
    // BeforeIteration has run, each is the mean, over the Evaluate calls since,
    // of what those calls added.

    function GetAverageGradMagA(): (r: real)
      reads this
      ensures Valid() && statsReset ==> r == Mean(samples, GradMagA)
    {
      if counter != 0.0 then sums.gradMagA / counter else 0.0
    }

    function GetAverageGradMagB(): (r: real)
      reads this
      ensures Valid() && statsReset ==> r == Mean(samples, GradMagB)
    {
      if counter != 0.0 then sums.gradMagB / counter else 0.0
    }

    function GetAverageGradMagC(): (r: real)
      reads this
      ensures Valid() && statsReset ==> r == Mean(samples, GradMagC)
    {
      if counter != 0.0 then sums.gradMagC / counter else 0.0
    }

    function GetAverageEnergyA(): (r: real)
      reads this
      ensures Valid() && statsReset ==> r == Mean(samples, EnergyA)
    {
      if counter != 0.0 then sums.energyA / counter else 0.0
    }

    function GetAverageEnergyB(): (r: real)
      reads this
      ensures Valid() && statsReset ==> r == Mean(samples, EnergyB)
    {
      if counter != 0.0 then sums.energyB / counter else 0.0
    }

    function GetAverageEnergyC(): (r: real)
      reads this
      ensures Valid() && statsReset ==> r == Mean(samples, EnergyC)
    {
      if counter != 0.0 then sums.energyC / counter else 0.0
    }

    /** Once reset, the average gradient magnitudes are never negative. */
    lemma AverageGradMagsNonNegative()
      requires Valid() && statsReset
      ensures GetAverageGradMagA() >= 0.0 && GetAverageGradMagB() >= 0.0 && GetAverageGradMagC() >= 0.0
    {
      MeanAtLeast(samples, GradMagA, 0.0);
      MeanAtLeast(samples, GradMagB, 0.0);
      MeanAtLeast(samples, GradMagC, 0.0);
    }

    /** Once reset, if every Evaluate call since added the same value m to
        accumulator k, the matching average reads exactly m. */
    lemma SteadyTermsAverage(k: Stat, m: real)
      requires Valid() && statsReset && samples != []
      requires forall i | 0 <= i < |samples| :: samples[i].Get(k) == m
      ensures k == GradMagA ==> GetAverageGradMagA() == m
      ensures k == GradMagB ==> GetAverageGradMagB() == m
      ensures k == GradMagC ==> GetAverageGradMagC() == m
      ensures k == EnergyA ==> GetAverageEnergyA() == m
      ensures k == EnergyB ==> GetAverageEnergyB() == m
      ensures k == EnergyC ==> GetAverageEnergyC() == m
    {
      MeanOfConstant(samples, k, m);
    }
  }
}
