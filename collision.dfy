/** collision.cpp: `Collisionpair`, the kinematics of one sampled collision
    between a particle and a background partner. The constructor splits the
    pair's motion into centre-of-mass velocity `w` and relative velocity
    `g = (gx, gy, gz)`; each collision routine samples scattering angles,
    rotates `g` and writes the particle's new velocity `w + F2 g`, its lost
    energy, and any products.

    Each routine is a method on the class that updates its fields, proved
    against a function on `PairState` (a snapshot of all the fields). The
    trigonometric functions, `sqrt`, and the random draws (`RG01`,
    `VelBoltzDistr`) are inputs; only structural and algebraic facts are
    stated, never energy conservation or angle distributions. */
module Collisions {
  import opened Common
  import opened ParticleStore

  /** The draws one routine consumes: `RG01()` values in call order and one
      `VelBoltzDistr` sample. */
  datatype Draws = Draws(u1: real, u2: real, boltz: Vec3)

  /** All fields of a `Collisionpair`, plus `basisSet`, which the source
      does not have: it records whether `FindEulerAngle` has written the six
      basis fields `st`, `ct`, `cp`, `sp`, `stcp` and `stsp`, which the
      constructor leaves uninitialised. */
  datatype PairState = PairState(
    pt: Particle, mass: real, vth: real,
    gx: real, gy: real, gz: real, gyz: real, g: real,
    f1: real, f2: real, chi: real, eta: real,
    wx: real, wy: real, wz: real,
    st: real, ct: real, cp: real, sp: real, stcp: real, stsp: real, basisSet: bool,
    products: seq<Particle>, energy: real)

  /** The constructor: reduced mass and mass fractions of `m1` (the particle)
      and `m2` (the partner), the particle's stored relative velocity as `g`,
      and the centre-of-mass velocity `w = F1 v + F2 (v - g)`. The basis the
      constructor leaves uninitialised is marked unset (its values are
      placeholders); `chi` and `eta`, also uninitialised, start at zero. */
  function Start(p: Particle, m1: real, m2: real, vtb: real, rt: Runtime): (s: PairState)
    ensures s.pt == p && s.vth == vtb && s.products == []
    ensures s.gx == p.rel.x && s.gy == p.rel.y && s.gz == p.rel.z
    ensures s.chi == 0.0 && s.eta == 0.0 && !s.basisSet
  {
    var total := m1 + m2;
    var f1, f2 := Div(m1, total, rt), Div(m2, total, rt);
    var mass := Div(m1 * m2, total, rt);
    var gx, gy, gz := p.rel.x, p.rel.y, p.rel.z;
    var vxb, vyb, vzb := p.vel.x - gx, p.vel.y - gy, p.vel.z - gz;
    PairState(
      p, mass, vtb,
      gx, gy, gz, Hypot(gy, gz, rt), RelativeSpeed(p.rel, rt),
      f1, f2, 0.0, 0.0,
      Weighted(f1, p.vel.x, f2, vxb), Weighted(f1, p.vel.y, f2, vyb), Weighted(f1, p.vel.z, f2, vzb),
      0.0, 0.0, 0.0, 0.0, 0.0, 0.0, false,
      [], PairEnergy(p.rel, mass, rt))
  }

  /** `a x + b y`: a centre-of-mass component from the two mass fractions. */
  function Weighted(a: real, x: real, b: real, y: real): real
  {
    a * x + b * y
  }

  /** `sqrt(2 rel_velsqr)`: the relative speed the constructor stores as `g`. */
  function RelativeSpeed(rel: Vec3, rt: Runtime): real
  {
    rt.sqrt(2.0 * rt.relVelSqr(rel))
  }

  /** `rel_velsqr() * mass` */
  function PairEnergy(rel: Vec3, mass: real, rt: Runtime): real
  {
    rt.relVelSqr(rel) * mass
  }

  /** `sqrt(a a + b b)` */
  function Hypot(a: real, b: real, rt: Runtime): real
  {
    rt.sqrt(a * a + b * b)
  }

  /** `sqrt(2 E / mass)`: the relative speed of a pair of energy `E`. */
  function SpeedOf(e: real, mass: real, rt: Runtime): real
  {
    rt.sqrt(Div(2.0 * e, mass, rt))
  }

  /** `acos(1 - 2 U)`: the deflection drawn uniformly over the sphere from a
      uniform draw `U`. */
  function IsotropicDeflection(u: real, rt: Runtime): real
  {
    rt.acos(1.0 - 2.0 * u)
  }

  /** For a pair of non-zero total mass, the mass fractions add up to one,
      the reduced mass is `F1 m2 = F2 m1`, and the centre-of-mass velocity is
      `w = v - F2 g`: the particle's lab velocity is `w + F2 g`. */
  lemma {:induction false} StartSplitsMotion(p: Particle, m1: real, m2: real, vtb: real, rt: Runtime)
    requires m1 + m2 != 0.0
    ensures var s := Start(p, m1, m2, vtb, rt);
      && s.f1 + s.f2 == 1.0
      && s.mass == s.f1 * m2 && s.mass == s.f2 * m1
      && s.wx == p.vel.x - s.f2 * s.gx && s.wy == p.vel.y - s.f2 * s.gy && s.wz == p.vel.z - s.f2 * s.gz
  {
    var s := Start(p, m1, m2, vtb, rt);
    MassSplit(m1, m2, rt);
    CentreOfMass(p.vel.x, s.gx, s.f1, s.f2);
    CentreOfMass(p.vel.y, s.gy, s.f1, s.f2);
    CentreOfMass(p.vel.z, s.gz, s.f1, s.f2);
  }

  /** `F1 + F2 = 1` and `m1 m2 / (m1 + m2) = F1 m2 = F2 m1`. */
  lemma MassSplit(m1: real, m2: real, rt: Runtime)
    requires m1 + m2 != 0.0
    ensures Div(m1, m1 + m2, rt) + Div(m2, m1 + m2, rt) == 1.0
    ensures Div(m1 * m2, m1 + m2, rt) == Div(m1, m1 + m2, rt) * m2
    ensures Div(m1 * m2, m1 + m2, rt) == Div(m2, m1 + m2, rt) * m1
  {
    var t := m1 + m2;
    assert (m1 / t) + (m2 / t) == (m1 + m2) / t;
    assert (m1 * m2) / t == (m1 / t) * m2;
    assert (m1 * m2) / t == (m2 / t) * m1;
  }

  /** With `F1 + F2 = 1`, the centre-of-mass component `F1 v + F2 (v - g)`
      equals `v - F2 g`. */
  lemma CentreOfMass(v: real, g: real, f1: real, f2: real)
    requires f1 + f2 == 1.0
    ensures f1 * v + f2 * (v - g) == v - f2 * g
  {
    calc {
      f1 * v + f2 * (v - g);
      (f1 + f2) * v - f2 * g;
    }
  }

  /** `FindEulerAngle`: the incoming direction's basis, with `sinφ = cosφ = 0`
      on the degenerate axis `gyz = 0`; afterwards the basis is set. */
  function EulerBasis(s: PairState, rt: Runtime): (r: PairState)
    ensures r.st == Div(s.gyz, s.g, rt) && r.ct == Div(s.gx, s.g, rt)
    ensures r.stcp == Div(s.gy, s.g, rt) && r.stsp == Div(s.gz, s.g, rt)
    ensures s.gyz == 0.0 ==> r.sp == 0.0 && r.cp == 0.0
    ensures s.gyz != 0.0 ==> r.sp == Div(s.gz, s.gyz, rt) && r.cp == Div(s.gy, s.gyz, rt)
    ensures r.basisSet
    ensures r.(st := s.st, ct := s.ct, cp := s.cp, sp := s.sp, stcp := s.stcp, stsp := s.stsp,
               basisSet := s.basisSet) == s
  {
    var sp, cp := if s.gyz == 0.0 then 0.0 else Div(s.gz, s.gyz, rt),
                  if s.gyz == 0.0 then 0.0 else Div(s.gy, s.gyz, rt);
    s.(st := Div(s.gyz, s.g, rt), ct := Div(s.gx, s.g, rt),
       stcp := Div(s.gy, s.g, rt), stsp := Div(s.gz, s.g, rt),
       sp := sp, cp := cp, basisSet := true)
  }

  /** The rotation `UpdateParticleVelInfo` and `EjectElectronReaction` share:
      `mag` times the direction at deflection `chi` and azimuth `eta` from the
      incoming direction `(cosθ, sinθ cosφ, sinθ sinφ)`, where `a` and `b` are
      the values used for `sinθ cosφ` and `sinθ sinφ`. */
  function Rotate(mag: real, ct: real, st: real, cp: real, sp: real, a: real, b: real,
                  chi: real, eta: real, rt: Runtime): Vec3
  {
    var sc, cc := rt.sin(chi), rt.cos(chi);
    var se, ce := rt.sin(eta), rt.cos(eta);
    Vec3(mag * (ct * cc - st * sc * ce),
         mag * (a * cc + ct * cp * sc * ce - sp * sc * se),
         mag * (b * cc + ct * sp * sc * ce + cp * sc * se))
  }

  /** `w + F2 g`: the lab velocity of the particle for a relative velocity `g`. */
  function Lab(w: Vec3, f2: real, g: Vec3): Vec3
  {
    Vec3(w.x + f2 * g.x, w.y + f2 * g.y, w.z + f2 * g.z)
  }

  function LabVelocity(s: PairState, g: Vec3): Vec3
  {
    Lab(Vec3(s.wx, s.wy, s.wz), s.f2, g)
  }

  /** The rotation of `UpdateParticleVelInfo`, which forms `sinθ cosφ` and
      `sinθ sinφ` as products. */
  function Turn(mag: real, ct: real, st: real, cp: real, sp: real, chi: real, eta: real, rt: Runtime): Vec3
  {
    Rotate(mag, ct, st, cp, sp, st * cp, st * sp, chi, eta, rt)
  }

  function Norm2(v: Vec3): real
  {
    v.x * v.x + v.y * v.y + v.z * v.z
  }

  /** `sin² a + cos² a = 1` holds for the runtime's `sin` and `cos` at `a`. */
  predicate UnitAngle(rt: Runtime, a: real)
  {
    rt.sin(a) * rt.sin(a) + rt.cos(a) * rt.cos(a) == 1.0
  }

  /** The plane rotation identity `(c a - s b)² + (s a + c b)² = (c² + s²)(a² + b²)`. */
  lemma PlaneRotation(c: real, s: real, a: real, b: real)
    ensures (c * a - s * b) * (c * a - s * b) + (s * a + c * b) * (s * a + c * b)
         == (c * c + s * s) * (a * a + b * b)
  {
  }

  /** For a unit incoming direction and unit angles, the rotation keeps the
      magnitude: `|Rotate(mag, …)|² = mag²`. */
  lemma {:induction false} RotateKeepsMagnitude(mag: real, ct: real, st: real, cp: real, sp: real,
                                                chi: real, eta: real, rt: Runtime)
    requires ct * ct + st * st == 1.0 && cp * cp + sp * sp == 1.0
    requires UnitAngle(rt, chi) && UnitAngle(rt, eta)
    ensures Norm2(Turn(mag, ct, st, cp, sp, chi, eta, rt)) == mag * mag
  {
    var sc, cc := rt.sin(chi), rt.cos(chi);
    var se, ce := rt.sin(eta), rt.cos(eta);
    var bigA := st * cc + ct * (sc * ce);
    var x, y, z := ct * cc - st * sc * ce, cp * bigA - sp * (sc * se), sp * bigA + cp * (sc * se);
    assert Turn(mag, ct, st, cp, sp, chi, eta, rt) == Vec3(mag * x, mag * y, mag * z);
    UnitTurn(ct, st, cp, sp, sc, cc, se, ce);
    ScaledNorm(mag, x, y, z);
  }

  /** The rotated direction of a unit direction by unit angles is a unit vector. */
  lemma UnitTurn(ct: real, st: real, cp: real, sp: real, sc: real, cc: real, se: real, ce: real)
    requires ct * ct + st * st == 1.0 && cp * cp + sp * sp == 1.0
    requires sc * sc + cc * cc == 1.0 && se * se + ce * ce == 1.0
    ensures var bigA := st * cc + ct * (sc * ce);
      var x, y, z := ct * cc - st * sc * ce, cp * bigA - sp * (sc * se), sp * bigA + cp * (sc * se);
      x * x + y * y + z * z == 1.0
  {
    var b, bigB := sc * ce, sc * se;
    var bigA := st * cc + ct * b;
    var x, y, z := ct * cc - st * b, cp * bigA - sp * bigB, sp * bigA + cp * bigB;
    assert st * sc * ce == st * b;
    UnitPlane(cp, sp, bigA, bigB);
    UnitPlane(ct, st, cc, b);
    SphereSplit(sc, cc, se, ce);
    assert x * x + y * y + z * z == cc * cc + b * b + bigB * bigB;
  }

  /** A plane rotation by a unit `(c, s)` keeps `a² + b²`. */
  lemma UnitPlane(c: real, s: real, a: real, b: real)
    requires c * c + s * s == 1.0
    ensures (c * a - s * b) * (c * a - s * b) + (s * a + c * b) * (s * a + c * b) == a * a + b * b
  {
    PlaneRotation(c, s, a, b);
  }

  /** `cos² χ + (sin χ cos η)² + (sin χ sin η)² = 1` for unit angles. */
  lemma SphereSplit(sc: real, cc: real, se: real, ce: real)
    requires sc * sc + cc * cc == 1.0 && se * se + ce * ce == 1.0
    ensures cc * cc + (sc * ce) * (sc * ce) + (sc * se) * (sc * se) == 1.0
  {
    calc {
      cc * cc + (sc * ce) * (sc * ce) + (sc * se) * (sc * se);
      cc * cc + sc * sc * (ce * ce + se * se);
      1.0;
    }
  }

  /** Scaling a unit vector by `mag` scales its squared length to `mag²`. */
  lemma ScaledNorm(mag: real, x: real, y: real, z: real)
    requires x * x + y * y + z * z == 1.0
    ensures Norm2(Vec3(mag * x, mag * y, mag * z)) == mag * mag
  {
    calc {
      Norm2(Vec3(mag * x, mag * y, mag * z));
      (mag * x) * (mag * x) + (mag * y) * (mag * y) + (mag * z) * (mag * z);
      mag * mag * (x * x + y * y + z * z);
    }
  }

  /** If `c g = a`, `s g = b` and `g² = a² + b²` with `g ≠ 0`, then
      `c² + s² = 1`. */
  lemma UnitFromLengths(c: real, s: real, g: real, a: real, b: real)
    requires g != 0.0 && c * g == a && s * g == b && g * g == a * a + b * b
    ensures c * c + s * s == 1.0
  {
    calc {
      (c * c + s * s) * (g * g);
      (c * g) * (c * g) + (s * g) * (s * g);
      { SameSquare(c * g, a); SameSquare(s * g, b); }
      a * a + b * b;
      g * g;
    }
    UnitFactor(c * c + s * s, g);
  }

  lemma SameSquare(u: real, v: real)
    requires u == v
    ensures u * u == v * v
  {
  }

  lemma SquarePositive(g: real)
    requires g != 0.0
    ensures g * g > 0.0
  {
    if g > 0.0 {
      MulPositive(g, g);
    } else {
      MulPositive(-g, -g);
      assert (-g) * (-g) == g * g;
    }
  }

  lemma MulPositive(a: real, b: real)
    requires a > 0.0 && b > 0.0
    ensures a * b > 0.0
  {
  }

  /** `x g² = g²` with `g ≠ 0` forces `x = 1`. */
  lemma UnitFactor(x: real, g: real)
    requires g != 0.0 && x * (g * g) == g * g
    ensures x == 1.0
  {
    SquarePositive(g);
  }

  /** `(gyz / g)(gy / gyz) = gy / g`. */
  lemma ProductOfRatios(st: real, cp: real, stcp: real, g: real, gyz: real, gy: real)
    requires g != 0.0 && st * g == gyz && cp * gyz == gy && stcp * g == gy
    ensures st * cp == stcp
  {
    calc {
      (st * cp) * g;
      (st * g) * cp;
      gy;
      stcp * g;
    }
  }

  /** The basis `FindEulerAngle` builds is a unit direction when `g` and
      `gyz` are the lengths of `(gx, gy, gz)` and `(gy, gz)`. */
  lemma {:induction false} EulerBasisIsUnit(s: PairState, rt: Runtime)
    requires s.g != 0.0 && s.gyz != 0.0
    requires s.g * s.g == s.gx * s.gx + s.gyz * s.gyz
    requires s.gyz * s.gyz == s.gy * s.gy + s.gz * s.gz
    ensures var r := EulerBasis(s, rt); r.ct * r.ct + r.st * r.st == 1.0 && r.cp * r.cp + r.sp * r.sp == 1.0
  {
    var r := EulerBasis(s, rt);
    assert r.ct == Div(s.gx, s.g, rt) && r.st == Div(s.gyz, s.g, rt);
    assert r.cp == Div(s.gy, s.gyz, rt) && r.sp == Div(s.gz, s.gyz, rt);
    DivExact(s.gyz, s.g, rt);
    DivExact(s.gx, s.g, rt);
    DivExact(s.gy, s.gyz, rt);
    DivExact(s.gz, s.gyz, rt);
    UnitFromLengths(r.ct, r.st, s.g, s.gx, s.gyz);
    UnitFromLengths(r.cp, r.sp, s.gyz, s.gy, s.gz);
  }

  /** Off the degenerate axis the two rotation formulas agree: `sinθ cosφ`
      (used by `UpdateParticleVelInfo`) equals the stored `stcp` (used by
      `EjectElectronReaction`), and likewise for `sinθ sinφ`; so ejecting
      along a freshly computed basis rotates exactly as an update does. */
  lemma {:induction false} RotationBasesAgree(s: PairState, mag: real, chi: real, eta: real, rt: Runtime)
    requires s.g != 0.0 && s.gyz != 0.0
    ensures var r := EulerBasis(s, rt);
      && r.st * r.cp == r.stcp && r.st * r.sp == r.stsp
      && Rotate(mag, r.ct, r.st, r.cp, r.sp, r.stcp, r.stsp, chi, eta, rt)
         == Turn(mag, r.ct, r.st, r.cp, r.sp, chi, eta, rt)
  {
    var r := EulerBasis(s, rt);
    assert r.st == Div(s.gyz, s.g, rt) && r.stcp == Div(s.gy, s.g, rt) && r.stsp == Div(s.gz, s.g, rt);
    assert r.cp == Div(s.gy, s.gyz, rt) && r.sp == Div(s.gz, s.gyz, rt);
    DivExact(s.gyz, s.g, rt);
    DivExact(s.gy, s.gyz, rt);
    DivExact(s.gz, s.gyz, rt);
    DivExact(s.gy, s.g, rt);
    DivExact(s.gz, s.g, rt);
    ProductOfRatios(r.st, r.cp, r.stcp, s.g, s.gyz, s.gy);
    ProductOfRatios(r.st, r.sp, r.stsp, s.g, s.gyz, s.gz);
  }

  /** `UpdateParticleVelInfo`: rotates a relative velocity of magnitude `g` by
      `(chi, eta)` about the current basis and moves the particle to
      `w + F2 g'`; nothing else changes. */
  function Updated(s: PairState, rt: Runtime): PairState
  {
    var v := Turn(s.g, s.ct, s.st, s.cp, s.sp, s.chi, s.eta, rt);
    s.(gx := v.x, gy := v.y, gz := v.z).(pt := s.pt.(vel := LabVelocity(s, v)))
  }

  /** A basis recomputed by `FindEulerAngle` followed by
      `UpdateParticleVelInfo` keeps the relative speed: when `g` and `gyz` are
      the lengths of `(gx, gy, gz)` and `(gy, gz)`, the rotated relative
      velocity has length `g` again, so the particle moves at distance
      `F2 g` from the centre-of-mass velocity. */
  lemma {:induction false} ScatteringKeepsSpeed(s: PairState, rt: Runtime)
    requires s.g != 0.0 && s.gyz != 0.0
    requires s.g * s.g == s.gx * s.gx + s.gyz * s.gyz
    requires s.gyz * s.gyz == s.gy * s.gy + s.gz * s.gz
    requires UnitAngle(rt, s.chi) && UnitAngle(rt, s.eta)
    ensures var r := Updated(EulerBasis(s, rt), rt);
      Norm2(Vec3(r.gx, r.gy, r.gz)) == s.g * s.g
  {
    var e := EulerBasis(s, rt);
    EulerBasisIsUnit(s, rt);
    RotateKeepsMagnitude(s.g, e.ct, e.st, e.cp, e.sp, s.chi, s.eta, rt);
  }

  /** `EjectElectronReaction(chi_, eta_, vel_, particle)`: the same rotation
      written with the stored `stcp`/`stsp`; the ejected particle moves at
      `w + F2 g'`. */
  function Ejected(s: PairState, chi: real, eta: real, vel: real, p: Particle, rt: Runtime)
    : (PairState, Particle)
  {
    var v := Rotate(vel, s.ct, s.st, s.cp, s.sp, s.stcp, s.stsp, chi, eta, rt);
    (s.(gx := v.x, gy := v.y, gz := v.z), p.(vel := LabVelocity(s, v)))
  }

  /** The in-place rotation of `ParticleElasticCollision`: `gy` and `gz` are
      computed from the already rotated `gx`. */
  function ElasticTurn(gx: real, gy: real, gz: real, gyz: real, g: real, cp: real, sp: real,
                       chi: real, eta: real, rt: Runtime): (v: Vec3)
    ensures v.x == gx * rt.cos(chi) - gyz * rt.sin(chi) * rt.cos(eta)
    ensures v.y == gy * rt.cos(chi) + v.x * cp * rt.sin(chi) * rt.cos(eta) - g * sp * rt.sin(chi) * rt.sin(eta)
    ensures v.z == gz * rt.cos(chi) + v.x * sp * rt.sin(chi) * rt.cos(eta) + g * cp * rt.sin(chi) * rt.sin(eta)
  {
    var sc, cc := rt.sin(chi), rt.cos(chi);
    var se, ce := rt.sin(eta), rt.cos(eta);
    var gx' := gx * cc - gyz * sc * ce;
    Vec3(gx', gy * cc + gx' * cp * sc * ce - g * sp * sc * se, gz * cc + gx' * sp * sc * ce + g * cp * sc * se)
  }

  /** `ParticleElasticCollision`: samples `(chi, eta)` and rotates `g` in
      place with `cos φ = gy/gyz` and `sin φ = gz/gyz` unguarded; the particle
      itself is never written. */
  function ElasticScattered(s: PairState, d: Draws, rt: Runtime): (r: PairState)
    ensures r.pt == s.pt && r.products == s.products && r.energy == s.energy && r.g == s.g
    ensures r.chi == IsotropicDeflection(d.u1, rt) && r.eta == rt.pi2 * d.u2
    ensures r.cp == Div(s.gy, s.gyz, rt) && r.sp == Div(s.gz, s.gyz, rt)
    ensures r.gx == s.gx * rt.cos(r.chi) - s.gyz * rt.sin(r.chi) * rt.cos(r.eta)
    ensures r.gy == s.gy * rt.cos(r.chi) + r.gx * r.cp * rt.sin(r.chi) * rt.cos(r.eta)
                    - s.g * r.sp * rt.sin(r.chi) * rt.sin(r.eta)
    ensures r.gz == s.gz * rt.cos(r.chi) + r.gx * r.sp * rt.sin(r.chi) * rt.cos(r.eta)
                    + s.g * r.cp * rt.sin(r.chi) * rt.sin(r.eta)
    ensures r.(gx := s.gx, gy := s.gy, gz := s.gz, chi := s.chi, eta := s.eta, cp := s.cp, sp := s.sp) == s
  {
    var chi, eta := IsotropicDeflection(d.u1, rt), rt.pi2 * d.u2;
    var cp, sp := Div(s.gy, s.gyz, rt), Div(s.gz, s.gyz, rt);
    var v := ElasticTurn(s.gx, s.gy, s.gz, s.gyz, s.g, cp, sp, chi, eta, rt);
    s.(chi := chi, eta := eta).(cp := cp, sp := sp).(gx := v.x, gy := v.y, gz := v.z)
  }

  /** `ParticleExcitatinCollision(th)`: the pair energy becomes `|E - th|`
      (an absolute value, not a clamp at zero), `g` becomes
      `sqrt(2 |E - th| / mass)`, the angles are drawn as in the elastic case,
      the basis is recomputed and the particle moves at `w + F2 g'`; its lost
      energy grows by `th`. */
  function Excited(s: PairState, th: real, d: Draws, rt: Runtime): (r: PairState)
    ensures r.energy == Abs(s.energy - th)
    ensures r.g == SpeedOf(Abs(s.energy - th), s.mass, rt)
    ensures r.chi == IsotropicDeflection(d.u1, rt) && r.eta == rt.pi2 * d.u2
    ensures r.pt == s.pt.(vel := LabVelocity(s, Vec3(r.gx, r.gy, r.gz)), lost := s.pt.lost + th)
    ensures r.products == s.products
  {
    var energy := Abs(s.energy - th);
    var s1 := s.(energy := energy, g := SpeedOf(energy, s.mass, rt))
               .(chi := IsotropicDeflection(d.u1, rt), eta := rt.pi2 * d.u2);
    var s2 := Updated(EulerBasis(s1, rt), rt);
    s2.(pt := s2.pt.(lost := s2.pt.lost + th))
  }

  /** The energy sharing of an ionizing collision. */
  datatype Sharing = Sharing(
    energy: real, enEj: real, enSc: real, g: real, gEj: real,
    chi: real, chiEj: real, eta: real, etaEj: real)

  /** With `w = 10.3 / kTe0` and `E' = |E - th|`: the ejected electron gets
      `w tan(U atan(E' / (2 w)))`, the scattered one the rest `|E' - e_ej|`;
      each deflection is `acos sqrt` of its share, and the ejection azimuth is
      the scattering azimuth plus `PI`. */
  function EnergySharing(energy: real, th: real, mass: real, d: Draws, kTe0: real, rt: Runtime): (h: Sharing)
    ensures h.energy == Abs(energy - th) && h.enSc == Abs(h.energy - h.enEj)
    ensures h.enEj == EjectedEnergy(h.energy, d.u1, Div(10.3, kTe0, rt), rt)
    ensures h.g == SpeedOf(h.enSc, mass, rt) && h.gEj == SpeedOf(h.enEj, mass, rt)
    ensures h.eta == rt.pi2 * d.u2 && h.etaEj == h.eta + rt.pi
  {
    var e := Abs(energy - th);
    var enEj := EjectedEnergy(e, d.u1, Div(10.3, kTe0, rt), rt);
    var enSc := Abs(e - enEj);
    var eta := rt.pi2 * d.u2;
    Sharing(
      e, enEj, enSc, SpeedOf(enSc, mass, rt), SpeedOf(enEj, mass, rt),
      rt.acos(rt.sqrt(Div(enSc, e, rt))), rt.acos(rt.sqrt(Div(enEj, e, rt))),
      eta, eta + rt.pi)
  }

  /** `w tan(U atan(E / (2 w)))`: the energy the ejected electron takes out
      of `E`, where the source's `w` is `10.3 / kTe0`. */
  function EjectedEnergy(e: real, u: real, w: real, rt: Runtime): real
  {
    w * rt.tan(u * rt.atan(Div(0.5 * e, w, rt)))
  }

  /** The global `kTe0` is defined without an initialiser and no modelled
      file assigns it, so it holds zero: `w = 10.3 / kTe0` is then the
      division-by-zero value, and the ejected energy is built from it. */
  lemma ZeroReferenceTemperature(energy: real, th: real, mass: real, d: Draws, rt: Runtime)
    ensures EnergySharing(energy, th, mass, d, 0.0, rt).enEj
         == EjectedEnergy(Abs(energy - th), d.u1, rt.byZero(10.3), rt)
  {
    assert Div(10.3, 0.0, rt) == rt.byZero(10.3);
  }

  /** `ParticleIonizationCollision(th)`: two products at the particle's
      position are appended, the ejected electron moving at `w + F2 g_ej`
      after the ejection rotation and the ion at a Boltzmann sample; the
      incident particle keeps its velocity and its lost energy grows by `th`.
      The rotation uses whatever basis the pair holds: this routine does not
      call `FindEulerAngle`. */
  function Ionized(s: PairState, th: real, d: Draws, kTe0: real, rt: Runtime): PairState
  {
    var h := EnergySharing(s.energy, th, s.mass, d, kTe0, rt);
    var s1 := s.(energy := h.energy, g := h.g).(chi := h.chi, eta := h.eta);
    var ej := Ejected(s1, h.chiEj, h.etaEj, h.gEj, ParticleAt(s.pt.pos), rt);
    var ion := ParticleAt(s.pt.pos).(vel := d.boltz);
    var s2 := ej.0;
    s2.(products := s2.products + [ej.1, ion], pt := s2.pt.(lost := s2.pt.lost + th))
  }

  /** What an ionization leaves behind: the two products are appended after
      the existing ones, both at the incident particle's position, the ejected
      electron at `w + F2 g_ej` and the ion at the Boltzmann sample; the
      incident particle only gains `th` of lost energy; the pair's energy
      becomes `|E - th|` and its speed and angles the scattered share's; the
      relative velocity left behind is the ejection rotation, with the old
      basis, at azimuth `eta + PI`; the basis and the centre-of-mass motion
      are left as they were. */
  lemma {:induction false} IonizationOutcome(s: PairState, th: real, d: Draws, kTe0: real, rt: Runtime)
    ensures var r := Ionized(s, th, d, kTe0, rt);
      && |r.products| == |s.products| + 2 && r.products[..|s.products|] == s.products
      && r.products[|s.products|].pos == s.pt.pos && r.products[|s.products| + 1].pos == s.pt.pos
      && r.products[|s.products|].vel == LabVelocity(s, Vec3(r.gx, r.gy, r.gz))
      && r.products[|s.products| + 1].vel == d.boltz
      && r.pt == s.pt.(lost := s.pt.lost + th)
      && r.energy == Abs(s.energy - th)
      && var h := EnergySharing(s.energy, th, s.mass, d, kTe0, rt);
      && r.g == h.g && r.chi == h.chi && r.eta == rt.pi2 * d.u2
      && Vec3(r.gx, r.gy, r.gz) == Rotate(h.gEj, s.ct, s.st, s.cp, s.sp, s.stcp, s.stsp, h.chiEj, r.eta + rt.pi, rt)
      && r.(gx := s.gx, gy := s.gy, gz := s.gz, g := s.g, chi := s.chi, eta := s.eta,
            energy := s.energy, products := s.products, pt := s.pt) == s
  {
    var r := Ionized(s, th, d, kTe0, rt);
    var h := EnergySharing(s.energy, th, s.mass, d, kTe0, rt);
    var s1 := s.(energy := h.energy, g := h.g).(chi := h.chi, eta := h.eta);
    var ej := Ejected(s1, h.chiEj, h.etaEj, h.gEj, ParticleAt(s.pt.pos), rt);
    assert r.products == s.products + [ej.1, ParticleAt(s.pt.pos).(vel := d.boltz)];
    assert r.products[..|s.products|] == s.products;
  }

  /** `Ionized` as the sequence of steps `ParticleIonizationCollision`
      takes: share the energy, eject the electron (which changes only the
      relative velocity), append both products, charge the lost energy. */
  lemma IonizationSteps(s: PairState, th: real, d: Draws, kTe0: real, rt: Runtime,
                        h: Sharing, s1: PairState, ej: (PairState, Particle))
    requires h == EnergySharing(s.energy, th, s.mass, d, kTe0, rt)
    requires s1 == s.(energy := h.energy, g := h.g).(chi := h.chi, eta := h.eta)
    requires ej == Ejected(s1, h.chiEj, h.etaEj, h.gEj, ParticleAt(s1.pt.pos), rt)
    ensures Ionized(s, th, d, kTe0, rt)
         == ej.0.(products := ej.0.products + [ej.1, ParticleAt(ej.0.pt.pos).(vel := d.boltz)],
                  pt := ej.0.pt.(lost := ej.0.pt.lost + th))
  {
  }

  /** `ParticleIsotropicCollision`: angles drawn as in the elastic case, then
      the basis and the particle's velocity are updated. */
  function IsotropicScattered(s: PairState, d: Draws, rt: Runtime): (r: PairState)
    ensures r.chi == IsotropicDeflection(d.u1, rt) && r.eta == rt.pi2 * d.u2
    ensures r.pt == s.pt.(vel := LabVelocity(s, Vec3(r.gx, r.gy, r.gz)))
    ensures r.products == s.products && r.energy == s.energy && r.g == s.g
  {
    Updated(EulerBasis(s.(chi := IsotropicDeflection(d.u1, rt), eta := rt.pi2 * d.u2), rt), rt)
  }

  /** `ParticleBackwardCollision`: the deflection is fixed at `PI` and only
      the azimuth is drawn. */
  function BackScattered(s: PairState, d: Draws, rt: Runtime): (r: PairState)
    ensures r.chi == rt.pi && r.eta == rt.pi2 * d.u1
    ensures r.pt == s.pt.(vel := LabVelocity(s, Vec3(r.gx, r.gy, r.gz)))
    ensures r.products == s.products && r.energy == s.energy && r.g == s.g
  {
    Updated(EulerBasis(s.(chi := rt.pi, eta := rt.pi2 * d.u1), rt), rt)
  }

  class Collisionpair {
    const rt: Runtime
    var pt: Particle
    const mass: real
    const vth: real
    var gx: real
    var gy: real
    var gz: real
    var gyz: real
    var g: real
    const f1: real
    const f2: real
    var chi: real
    var eta: real
    var wx: real
    var wy: real
    var wz: real
    var st: real
    var ct: real
    var cp: real
    var sp: real
    var stcp: real
    var stsp: real
    /** Not a field of the source: whether `FindEulerAngle` has run. */
    var basisSet: bool
    var productArr: seq<Particle>
    var energy: real

    ghost function State(): PairState
      reads this
    {
      PairState(pt, mass, vth, gx, gy, gz, gyz, g, f1, f2, chi, eta, wx, wy, wz,
                st, ct, cp, sp, stcp, stsp, basisSet, productArr, energy)
    }

    /** `Collisionpair(particle, m1, m2, vtb)`; the basis the source leaves
        uninitialised is marked unset, `chi` and `eta` start at zero. */
    constructor (particle: Particle, m1: real, m2: real, vtb: real, rt: Runtime)
      ensures State() == Start(particle, m1, m2, vtb, rt) && this.rt == rt
    {
      var m := Div(m1 * m2, m1 + m2, rt);
      var fr1, fr2 := Div(m1, m1 + m2, rt), Div(m2, m1 + m2, rt);
      var v, rel := particle.vel, particle.rel;
      var vxb, vyb, vzb := v.x - rel.x, v.y - rel.y, v.z - rel.z;
      this.rt := rt;
      pt, mass, vth := particle, m, vtb;
      gx, gy, gz, gyz, g := rel.x, rel.y, rel.z, Hypot(rel.y, rel.z, rt), RelativeSpeed(rel, rt);
      f1, f2, chi, eta := fr1, fr2, 0.0, 0.0;
      wx, wy, wz := Weighted(fr1, v.x, fr2, vxb), Weighted(fr1, v.y, fr2, vyb), Weighted(fr1, v.z, fr2, vzb);
      st, ct, cp, sp, stcp, stsp, basisSet := 0.0, 0.0, 0.0, 0.0, 0.0, 0.0, false;
      productArr, energy := [], PairEnergy(rel, m, rt);
    }

    /** `ion_products()` */
    function IonProducts(): (ps: seq<Particle>)
      reads this
      ensures ps == State().products
    {
      productArr
    }

    method ParticleElasticCollision(d: Draws)
      modifies this
      ensures State() == ElasticScattered(old(State()), d, rt)
    {
      var chi', eta' := IsotropicDeflection(d.u1, rt), rt.pi2 * d.u2;
      var cp', sp' := Div(gy, gyz, rt), Div(gz, gyz, rt);
      var v := ElasticTurn(gx, gy, gz, gyz, g, cp', sp', chi', eta', rt);
      ghost var o := State();
      assert ElasticScattered(o, d, rt).eta == eta' && v.x == ElasticScattered(o, d, rt).gx;
      SetAngles(chi', eta');
      SetAxis(cp', sp');
      SetRelative(v);
    }

    /** Stores the pair's energy and the relative speed. */
    method SetEnergy(e': real, g': real)
      modifies this
      ensures State() == old(State()).(energy := e', g := g')
    {
      energy, g := e', g';
    }

    /** Stores the scattering angles. */
    method SetAngles(chi': real, eta': real)
      modifies this
      ensures State() == old(State()).(chi := chi', eta := eta')
    {
      chi, eta := chi', eta';
    }

    /** Stores `cosφ` and `sinφ` of the incoming direction. */
    method SetAxis(cp': real, sp': real)
      modifies this
      ensures State() == old(State()).(cp := cp', sp := sp')
    {
      cp, sp := cp', sp';
    }

    /** Stores the rotated relative velocity. */
    method SetRelative(v: Vec3)
      modifies this
      ensures State() == old(State()).(gx := v.x, gy := v.y, gz := v.z)
    {
      gx, gy, gz := v.x, v.y, v.z;
    }

    method ParticleExcitatinCollision(th: real, d: Draws)
      modifies this
      ensures State() == Excited(old(State()), th, d, rt)
    {
      ghost var o := State();
      var e' := Abs(energy - th);
      ghost var s1 := o.(energy := e', g := SpeedOf(e', o.mass, rt))
                        .(chi := IsotropicDeflection(d.u1, rt), eta := rt.pi2 * d.u2);
      ghost var s2 := Updated(EulerBasis(s1, rt), rt);
      assert Excited(o, th, d, rt) == s2.(pt := s2.pt.(lost := s2.pt.lost + th));

      SetEnergy(e', SpeedOf(e', mass, rt));
      SetAngles(IsotropicDeflection(d.u1, rt), rt.pi2 * d.u2);
      FindEulerAngle();
      UpdateParticleVelInfo();
      assert State() == s2;
      pt := pt.(lost := pt.lost + th);
    }

    /** `kTe0` is the global electron reference temperature. The ejection
        reads the basis, which this routine does not compute. */
    method ParticleIonizationCollision(th: real, d: Draws, kTe0: real)
      requires basisSet
      modifies this
      ensures State() == Ionized(old(State()), th, d, kTe0, rt)
    {
      ghost var o := State();
      var h := ShareEnergy(th, d, kTe0);
      ghost var s1 := State();
      var eEj := ParticleAt(pt.pos);
      var pEj := ParticleAt(pt.pos);
      eEj := EjectElectronReaction(h.chiEj, h.etaEj, h.gEj, eEj);
      ghost var s2 := State();
      productArr := productArr + [eEj];
      pEj := EjectIonReaction(pEj, d.boltz);
      productArr := productArr + [pEj];
      pt := pt.(lost := pt.lost + th);
      assert State() == s2.(products := s2.products + [eEj, pEj], pt := s2.pt.(lost := s2.pt.lost + th));
      IonizationSteps(o, th, d, kTe0, rt, h, s1, (s2, eEj));
    }

    /** The energy-sharing block of `ParticleIonizationCollision`: the pair's
        energy, speed and angles take the scattered electron's share. */
    method ShareEnergy(th: real, d: Draws, kTe0: real) returns (h: Sharing)
      modifies this
      ensures h == EnergySharing(old(energy), th, mass, d, kTe0, rt)
      ensures State() == old(State()).(energy := h.energy, g := h.g).(chi := h.chi, eta := h.eta)
    {
      h := EnergySharing(energy, th, mass, d, kTe0, rt);
      SetEnergy(h.energy, h.g);
      SetAngles(h.chi, h.eta);
    }

    method ParticleIsotropicCollision(d: Draws)
      modifies this
      ensures State() == IsotropicScattered(old(State()), d, rt)
    {
      ghost var s1 := State().(chi := IsotropicDeflection(d.u1, rt), eta := rt.pi2 * d.u2);
      assert IsotropicScattered(State(), d, rt) == Updated(EulerBasis(s1, rt), rt);
      chi := IsotropicDeflection(d.u1, rt);
      eta := rt.pi2 * d.u2;
      assert State() == s1;
      FindEulerAngle();
      UpdateParticleVelInfo();
    }

    method ParticleBackwardCollision(d: Draws)
      modifies this
      ensures State() == BackScattered(old(State()), d, rt)
    {
      ghost var s1 := State().(chi := rt.pi, eta := rt.pi2 * d.u1);
      assert BackScattered(State(), d, rt) == Updated(EulerBasis(s1, rt), rt);
      chi := rt.pi;
      eta := rt.pi2 * d.u1;
      assert State() == s1;
      FindEulerAngle();
      UpdateParticleVelInfo();
    }

    method FindEulerAngle()
      modifies this
      ensures State() == EulerBasis(old(State()), rt)
    {
      var sp', cp' := 0.0, 0.0;
      if gyz != 0.0 {
        sp', cp' := Div(gz, gyz, rt), Div(gy, gyz, rt);
      }
      st, ct, stcp, stsp, sp, cp, basisSet := Div(gyz, g, rt), Div(gx, g, rt), Div(gy, g, rt), Div(gz, g, rt), sp', cp', true;
    }

    /** Writes the ejected particle's velocity; `particle` is passed by
        reference in the source, so the updated value is returned. */
    method EjectElectronReaction(chi_: real, eta_: real, vel_: real, particle: Particle)
      returns (particle': Particle)
      requires basisSet
      modifies this
      ensures (State(), particle') == Ejected(old(State()), chi_, eta_, vel_, particle, rt)
    {
      var v := Rotate(vel_, ct, st, cp, sp, stcp, stsp, chi_, eta_, rt);
      gx, gy, gz := v.x, v.y, v.z;
      particle' := particle.(vel := Lab(Vec3(wx, wy, wz), f2, Vec3(gx, gy, gz)));
    }

    method UpdateParticleVelInfo()
      requires basisSet
      modifies this
      ensures State() == Updated(old(State()), rt)
    {
      var v := Turn(g, ct, st, cp, sp, chi, eta, rt);
      SetRelative(v);
      pt := pt.(vel := Lab(Vec3(wx, wy, wz), f2, Vec3(gx, gy, gz)));
    }

    /** `EjectIonReaction`: the particle moves at a Boltzmann sample drawn at
        the partner's thermal speed `vth`. */
    method EjectIonReaction(particle: Particle, boltz: Vec3) returns (particle': Particle)
      ensures particle' == particle.(vel := boltz)
    {
      particle' := particle.(vel := boltz);
    }
  }
}
