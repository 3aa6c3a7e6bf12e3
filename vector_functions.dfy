/** The sub-terms a ParticleDualVectorFunction combines: ParticleVectorFunction
    objects whose force models are opaque. A term is modelled by what it answers
    for a query, not by how it computes it. */
module VectorFunctions {
  import opened Vectors

  /** The particle system: an opaque object that is only passed around. */
  class ParticleSystem { }

  /** The arguments of every evaluation: particle index, domain index and system. */
  datatype Query = Query(idx: nat, domain: nat, system: ParticleSystem?)

  /** What the Evaluate overload without energy hands back: the vector and maxmove. */
  datatype Response = Response(grad: Vec, maxmove: real)

  /** What the Evaluate overload with energy hands back. */
  datatype EnergyResponse = EnergyResponse(grad: Vec, maxmove: real, energy: real)

  /** A sub-term. Its three evaluation entry points are arbitrary fixed functions
      of the query; the domain number and particle system it stores are updated
      by the combinator. */
  class ParticleVectorFunction {
    var domainNumber: nat
    var particleSystem: ParticleSystem?
    const evaluate: Query -> Response
    const evaluateWithEnergy: Query -> EnergyResponse
    const energy: Query -> real

    constructor (evaluate: Query -> Response, evaluateWithEnergy: Query -> EnergyResponse,
                 energy: Query -> real)
      ensures this.evaluate == evaluate && this.evaluateWithEnergy == evaluateWithEnergy
      ensures this.energy == energy
    {
      this.evaluate := evaluate;
      this.evaluateWithEnergy := evaluateWithEnergy;
      this.energy := energy;
    }

    method SetDomainNumber(i: nat)
      modifies this`domainNumber
      ensures domainNumber == i
    {
      domainNumber := i;
    }

    method SetParticleSystem(p: ParticleSystem?)
      modifies this`particleSystem
      ensures particleSystem == p
    {
      particleSystem := p;
    }
  }
}
