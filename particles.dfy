/** The particle and its store, as far as the collision code uses them.
    particles.h is not part of this model: a particle is taken to be a value
    holding a position, a velocity, the relative velocity written by the
    collision driver, the accumulated lost energy and the per-branch collision
    frequencies `nu`; a store is a growable list of such values. */
module ParticleStore {
  import opened Common

  datatype Particle = Particle(pos: Vec3, vel: Vec3, rel: Vec3, lost: real, nu: seq<real>)

  /** `Particle(x, y, z)`: a particle at rest at the given position. */
  function ParticleAt(pos: Vec3): (p: Particle)
    ensures p.pos == pos && p.nu == [] && p.lost == 0.0
  {
    Particle(pos, Vec3(0.0, 0.0, 0.0), Vec3(0.0, 0.0, 0.0), 0.0, [])
  }

  /** `Particles`: the store a species owns. */
  class Particles {
    var items: seq<Particle>

    constructor (contents: seq<Particle>)
      ensures items == contents
    {
      items := contents;
    }

    method Append(p: Particle)
      modifies this
      ensures items == old(items) + [p]
    {
      items := items + [p];
    }
  }
}
