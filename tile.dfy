/** tile.cpp: the collision driver of a `Tile`. For every reacting pair it
    either runs the null-collision scheme against the background gas or, for
    two species, the column path (which is not written yet and always fails).

    The reaction objects the driver reads are seen through `ReactionView`;
    the per-particle cross sections `en_cs`, the kinetic energy `get_energy`,
    the collision probability `Pcoll` and the relative-velocity update are
    functions this model takes as inputs (`Env`), as are the random draws
    (`Randoms`). A particle store is a sequence of particle values; a
    reference to a particle is modelled by writing the new value back at its
    index. */
module Tiles {
  import opened Common
  import opened ParticleStore
  import opened Collisions
  import opened Reactions

  /** What the driver reads from, and writes to, a `Reaction`: its reactant
      names, branch tags and thresholds, `isize()`, the product species ids
      and the background flag. */
  datatype ReactionView = ReactionView(
    pair: (string, string), types: seq<string>, th: seq<real>, isize: int,
    productId: seq<int>, isBackground: bool)

  /** One entry of the tile's `reaction_arr`: the reacting species ids and
      the reaction. */
  datatype Entry = Entry(specIds: seq<int>, reaction: ReactionView)

  /** The functions the driver calls that are defined elsewhere:
      `RelativeVelocity(pt, vxb, vyb, vzb)` (the new relative velocity it
      stores in the particle), `get_energy`, `en_cs` of reaction `icsp` and
      `Pcoll(nu_max, dt)`; and `kTe0`, which names the global `::kTe0` at
      the call in `ParticleIonizationCollision`: `aid_param` writes the
      member `CrossSection::kTe0` that shadows it, not the global. */
  datatype Env = Env(
    relVel: (Particle, Vec3) -> Vec3,
    getEnergy: Vec3 -> real,
    enCs: (int, real) -> seq<real>,
    pcoll: (real, real) -> real,
    kTe0: real,
    rt: Runtime)

  /** The draws of one pass over a pair: the background sample
      `VelBoltzDistr` for particle `i`, the `ranf()` of particle `i`, and the
      draws the collision routines consume for particle `i`. */
  datatype Randoms = Randoms(boltz: nat -> Vec3, rnd: nat -> real, draws: nat -> Draws)

  /* ---------------------------------------------------------------------
     `ParticleCollision`: one dispatched collision.
     --------------------------------------------------------------------- */

  /** The threshold the dispatch uses: `0` for branch 0 and `th[type_id - 1]`
      otherwise (the thresholds are read one place off). */
  function Threshold(r: ReactionView, typeId: int): Result<real>
  {
    if typeId == 0 then Ok(0.0)
    else if typeId - 1 < 0 || typeId - 1 >= |r.th| then Fail(Undefined("threshold index outside th()"))
    else Ok(r.th[typeId - 1])
  }

  /** `ParticleCollision(type_id, ...)` on a pair in state `s`: the routine
      named by the tag runs; `ion` always appends the pair's product list to
      `prod_arr`, but runs the ionization only for a background collision,
      and that ionization reads the Euler basis, which is undefined unless
      `FindEulerAngle` has run on the pair. */
  function Collided(r: ReactionView, typeId: int, s: PairState, d: Draws, prod: seq<seq<Particle>>,
                    kTe0: real, rt: Runtime): Result<(PairState, seq<seq<Particle>>)>
  {
    if typeId < 0 || typeId >= |r.types| then Fail(Undefined("type index outside get_types()"))
    else
      var tag := r.types[typeId];
      match Threshold(r, typeId)
      case Fail(e) => Fail(e)
      case Ok(th) =>
        if tag == "ela" then Ok((ElasticScattered(s, d, rt), prod))
        else if tag == "exc" then Ok((Excited(s, th, d, rt), prod))
        else if tag == "ion" then
          if r.isBackground && !s.basisSet then Fail(Undefined("Euler basis read before FindEulerAngle"))
          else
            var s' := if r.isBackground then Ionized(s, th, d, kTe0, rt) else s;
            Ok((s', prod + [s'.products]))
        else if tag == "iso" then Ok((IsotropicScattered(s, d, rt), prod))
        else if tag == "back" then Ok((BackScattered(s, d, rt), prod))
        else Fail(Fatal("Unknown Collision Type"))
  }

  /** The dispatch rules: branch 0 uses threshold 0 and branch `i > 0` the
      threshold `th[i - 1]`; `ion` appends exactly one product group, and
      changes the pair only for a background collision, which is undefined
      on a pair whose basis was never computed (as on every pair the tile
      builds); only `ela`, `exc`, `ion`, `iso` and `back` are known. */
  lemma CollidedRules(r: ReactionView, typeId: int, s: PairState, d: Draws, prod: seq<seq<Particle>>,
                      kTe0: real, rt: Runtime)
    requires 0 <= typeId < |r.types| && (typeId == 0 || typeId - 1 < |r.th|)
    ensures var th := if typeId == 0 then 0.0 else r.th[typeId - 1];
      var c := Collided(r, typeId, s, d, prod, kTe0, rt);
      && (r.types[typeId] == "exc" ==> c == Ok((Excited(s, th, d, rt), prod)))
      && (r.types[typeId] == "ion" && r.isBackground && !s.basisSet ==>
            c == Fail(Undefined("Euler basis read before FindEulerAngle")))
      && (r.types[typeId] == "ion" && (s.basisSet || !r.isBackground) ==>
            && c.Ok? && |c.value.1| == |prod| + 1 && c.value.1[..|prod|] == prod
            && c.value.1[|prod|] == c.value.0.products
            && c.value.0 == (if r.isBackground then Ionized(s, th, d, kTe0, rt) else s))
      && (r.types[typeId] !in {"ela", "exc", "ion", "iso", "back"} ==> c == Fail(Fatal("Unknown Collision Type")))
  {
    if r.types[typeId] == "ion" && (s.basisSet || !r.isBackground) {
      var s' := if r.isBackground then Ionized(s, (if typeId == 0 then 0.0 else r.th[typeId - 1]), d, kTe0, rt) else s;
      assert (prod + [s'.products])[..|prod|] == prod;
    }
  }

  /** `Tile::ParticleCollision(type_id, mass, reaction, cop, prod_arr)`. */
  method ParticleCollision(typeId: int, reaction: ReactionView, cop: Collisionpair, prod: seq<seq<Particle>>,
                           d: Draws, kTe0: real) returns (r: Result<seq<seq<Particle>>>)
    modifies cop
    ensures match Collided(reaction, typeId, old(cop.State()), d, prod, kTe0, cop.rt)
      case Fail(e) => r == Fail(e)
      case Ok((s, prod')) => r == Ok(prod') && cop.State() == s
  {
    if typeId < 0 || typeId >= |reaction.types| {
      return Fail(Undefined("type index outside get_types()"));
    }
    var tag := reaction.types[typeId];
    var isBc := reaction.isBackground;
    var threshold: real;
    if typeId == 0 {
      threshold := 0.0;
    } else {
      if typeId - 1 >= |reaction.th| {
        return Fail(Undefined("threshold index outside th()"));
      }
      threshold := reaction.th[typeId - 1];
    }
    if tag == "ela" {
      cop.ParticleElasticCollision(d);
      r := Ok(prod);
    } else if tag == "exc" {
      cop.ParticleExcitatinCollision(threshold, d);
      r := Ok(prod);
    } else if tag == "ion" {
      if isBc {
        if !cop.basisSet {
          return Fail(Undefined("Euler basis read before FindEulerAngle"));
        }
        cop.ParticleIonizationCollision(threshold, d, kTe0);
      }
      r := Ok(prod + [cop.IonProducts()]);
    } else if tag == "iso" {
      cop.ParticleIsotropicCollision(d);
      r := Ok(prod);
    } else if tag == "back" {
      cop.ParticleBackwardCollision(d);
      r := Ok(prod);
    } else {
      r := Fail(Fatal("Unknown Collision Type"));
    }
  }

  /* ---------------------------------------------------------------------
     `NullCollisionMethod`.
     --------------------------------------------------------------------- */

  /** `nuj` after `k` passes of the type loop, which adds `nu[itype]` with
      `itype` still 0. */
  function Multiple(k: nat, x: real): real
  {
    k as real * x
  }

  /** The pass on which the type loop fires, if any. `itype` only advances
      after a hit, so every pass adds `nu[0]` again and the loop fires on the
      first `k >= 1` with `rnd < k nu[0] / nu_max` (IEEE division when
      `nu_max == 0`); when no multiple fires the loop never ends. */
  function FirstHit(nu0: real, rnd: real, nuMax: real): Option<nat>
  {
    if nuMax == 0.0 then (if 0.0 < nu0 then Some(1) else None)
    else
      var q := nu0 / nuMax;
      if q <= 0.0 then (if rnd < q then Some(1) else None)
      else
        var c := (rnd / q).Floor + 1;
        Some(if c < 1 then 1 else c)
  }

  /** `FirstHit` is the first pass that fires, and `None` means that no pass
      ever fires. */
  lemma FirstHitIsFirst(nu0: real, rnd: real, nuMax: real)
    ensures FirstHit(nu0, rnd, nuMax).Some? ==>
      var k := FirstHit(nu0, rnd, nuMax).value;
      && 1 <= k && Fires(rnd, Multiple(k, nu0), nuMax)
      && forall j: nat :: 1 <= j < k ==> !Fires(rnd, Multiple(j, nu0), nuMax)
    ensures FirstHit(nu0, rnd, nuMax).None? ==>
      forall j: nat :: 1 <= j ==> !Fires(rnd, Multiple(j, nu0), nuMax)
  {
    if nuMax == 0.0 {
      forall j: nat | 1 <= j
        ensures 0.0 < Multiple(j, nu0) <==> 0.0 < nu0
      {
        SignOfMultiple(j, nu0);
      }
    } else {
      var q := nu0 / nuMax;
      forall j: nat
        ensures Fires(rnd, Multiple(j, nu0), nuMax) <==> rnd < Multiple(j, q)
      {
        MultipleQuotient(j, nu0, nuMax);
      }
      if q <= 0.0 {
        forall j: nat | 1 <= j
          ensures Multiple(j, q) <= q
        {
          NonPositiveMultiple(j, q);
        }
      } else {
        PositiveHit(q, rnd);
      }
    }
  }

  lemma MultipleQuotient(j: nat, x: real, d: real)
    requires d != 0.0
    ensures Multiple(j, x) / d == Multiple(j, x / d)
  {
    assert Multiple(j, x) / d == j as real * (x / d);
  }

  /** With a positive quotient `q`, the first `k >= 1` with `rnd < k q`. */
  lemma PositiveHit(q: real, rnd: real)
    requires 0.0 < q
    ensures var c := (rnd / q).Floor + 1;
      var k := if c < 1 then 1 else c;
      && rnd < Multiple(k, q)
      && forall j: nat :: 1 <= j < k ==> Multiple(j, q) <= rnd
  {
    var x := rnd / q;
    var c := x.Floor + 1;
    var k := if c < 1 then 1 else c;
    AboveQuotient(k, x, q, rnd);
    forall j: nat | 1 <= j < k
      ensures Multiple(j, q) <= rnd
    {
      BelowQuotient(j, x, q, rnd);
    }
  }

  lemma SignOfMultiple(j: nat, x: real)
    requires 1 <= j
    ensures 0.0 < Multiple(j, x) <==> 0.0 < x
  {
    if 0.0 < x {
      assert j as real * x >= x;
    } else {
      assert j as real * x <= 0.0;
    }
  }

  lemma NonPositiveMultiple(j: nat, q: real)
    requires 1 <= j && q <= 0.0
    ensures Multiple(j, q) <= q
  {
    assert (j as real - 1.0) * q <= 0.0;
  }

  lemma AboveQuotient(k: int, x: real, q: real, rnd: real)
    requires 0.0 < q && x == rnd / q && k >= 1 && k >= x.Floor + 1
    ensures rnd < k as real * q
  {
    assert x < k as real;
    assert rnd == x * q;
  }

  lemma BelowQuotient(j: int, x: real, q: real, rnd: real)
    requires 0.0 < q && x == rnd / q && 1 <= j <= x.Floor
    ensures j as real * q <= rnd
  {
    assert j as real <= x;
    assert rnd == x * q;
  }

  /** The type loop of one particle: with `isize() == 0` it does not run;
      otherwise it reads `nu[0]` and ends only on a hit. */
  function NullStep(nu: seq<real>, ntype: int, rnd: real, nuMax: real): Result<bool>
  {
    if ntype == 0 then Ok(false)
    else if |nu| == 0 then Fail(Undefined("nu[0] of an empty list"))
    else if FirstHit(nu[0], rnd, nuMax).None? then
      Fail(Diverges("the type loop never advances and no multiple of nu[0] fires"))
    else Ok(true)
  }

  /** The type loop collides the particle exactly when `isize() != 0` and
      some multiple of `nu[0]` fires, and runs forever when none does. */
  lemma NullStepMeaning(nu: seq<real>, ntype: int, rnd: real, nuMax: real)
    requires ntype != 0 && |nu| > 0
    ensures NullStep(nu, ntype, rnd, nuMax) == Ok(true) <==>
            exists k: nat :: 1 <= k && Fires(rnd, Multiple(k, nu[0]), nuMax)
    ensures NullStep(nu, ntype, rnd, nuMax).Fail? ==> NullStep(nu, ntype, rnd, nuMax).error.Diverges?
  {
    FirstHitIsFirst(nu[0], rnd, nuMax);
  }

  /** The inner `while (itype != ntype)` loop. */
  method TypeLoop(nu: seq<real>, ntype: int, rnd: real, nuMax: real) returns (r: Result<bool>)
    ensures r == NullStep(nu, ntype, rnd, nuMax)
  {
    if ntype == 0 {
      return Ok(false);
    }
    if |nu| == 0 {
      return Fail(Undefined("nu[0] of an empty list"));
    }
    var hit := FirstHit(nu[0], rnd, nuMax);
    if hit.None? {
      return Fail(Diverges("the type loop never advances and no multiple of nu[0] fires"));
    }
    FirstHitIsFirst(nu[0], rnd, nuMax);
    var nuj, passes := 0.0, 0;
    var itype := 0;
    while itype != ntype
      invariant itype == 0 && 0 <= passes < hit.value && nuj == Multiple(passes, nu[0])
      decreases hit.value - passes
    {
      nuj := nuj + nu[itype];
      passes := passes + 1;
      if Fires(rnd, nuj, nuMax) {
        itype := itype + 1;
        break;
      }
    }
    r := Ok(true);
  }

  /** The fixed inputs of one `NullCollisionMethod` call. */
  datatype NullSetup = NullSetup(
    reaction: ReactionView, nuMax: real, imass: real, mass: real, vth: real,
    rnd: nat -> real, draws: nat -> Draws, kTe0: real, rt: Runtime)

  /** Pass `i` of `for (ipart = 0; ipart < ncoll; ++ipart)` on the store
      `ps` and the product groups `prod` so far. A particle that collides is
      handed to a fresh `Collisionpair` and dispatched as branch 0. */
  function NullParticle(ps: seq<Particle>, prod: seq<seq<Particle>>, i: nat, c: NullSetup)
    : Result<(seq<Particle>, seq<seq<Particle>>)>
  {
    if i >= |ps| then Fail(Undefined("particle index past the store"))
    else
      match NullStep(ps[i].nu, c.reaction.isize, c.rnd(i), c.nuMax)
      case Fail(e) => Fail(e)
      case Ok(hit) =>
        if !hit then Ok((ps, prod))
        else
          match Collided(c.reaction, 0, Start(ps[i], c.imass, c.mass, c.vth, c.rt), c.draws(i), prod, c.kTe0, c.rt)
          case Fail(e) => Fail(e)
          case Ok((s, prod')) => Ok((ps[i := s.pt], prod'))
  }

  /** The first `k` passes of the particle loop. */
  function NullUpTo(pts: seq<Particle>, k: nat, c: NullSetup): Result<(seq<Particle>, seq<seq<Particle>>)>
  {
    if k == 0 then Ok((pts, []))
    else
      match NullUpTo(pts, k - 1, c)
      case Fail(e) => Fail(e)
      case Ok((ps, prod)) => NullParticle(ps, prod, k - 1, c)
  }

  lemma {:induction false} NullStops(pts: seq<Particle>, i: nat, k: nat, c: NullSetup)
    requires i <= k && NullUpTo(pts, i, c).Fail?
    ensures NullUpTo(pts, k, c) == NullUpTo(pts, i, c)
    decreases k - i
  {
    if i < k {
      NullStops(pts, i, k - 1, c);
    }
  }

  lemma NullSnoc(pts: seq<Particle>, k: nat, ps: seq<Particle>, prod: seq<seq<Particle>>, c: NullSetup)
    requires NullUpTo(pts, k, c) == Ok((ps, prod))
    ensures NullUpTo(pts, k + 1, c) == NullParticle(ps, prod, k, c)
  {
  }

  /** The loop visits particles `0 .. ncoll - 1` in order: the store keeps
      its length, particles from `k` on are untouched, and a particle whose
      type loop does not fire is untouched too. */
  lemma {:induction false} NullVisitsPrefix(pts: seq<Particle>, k: nat, c: NullSetup)
    requires NullUpTo(pts, k, c).Ok?
    ensures var ps := NullUpTo(pts, k, c).value.0;
      && |ps| == |pts| && k <= |pts|
      && (forall i :: k <= i < |pts| ==> ps[i] == pts[i])
      && (forall i :: 0 <= i < k && NullStep(pts[i].nu, c.reaction.isize, c.rnd(i), c.nuMax) == Ok(false)
            ==> ps[i] == pts[i])
  {
    if k > 0 {
      NullVisitsPrefix(pts, k - 1, c);
    }
  }

  /** One pass of the particle loop. */
  method CollideParticle(ps: seq<Particle>, prod: seq<seq<Particle>>, i: nat, c: NullSetup)
    returns (r: Result<(seq<Particle>, seq<seq<Particle>>)>)
    ensures r == NullParticle(ps, prod, i, c)
  {
    if i >= |ps| {
      return Fail(Undefined("particle index past the store"));
    }
    var hit := TypeLoop(ps[i].nu, c.reaction.isize, c.rnd(i), c.nuMax);
    if hit.Fail? {
      return Fail(hit.error);
    }
    if !hit.value {
      return Ok((ps, prod));
    }
    var cop := new Collisionpair(ps[i], c.imass, c.mass, c.vth, c.rt);
    var res := ParticleCollision(0, c.reaction, cop, prod, c.draws(i), c.kTe0);
    if res.Fail? {
      return Fail(res.error);
    }
    r := Ok((ps[i := cop.pt], res.value));
  }

  /** `NullCollisionMethod(pts, dt, nu_max, react, imass, products)` with
      `ncoll` already computed from `Pcoll`. */
  method NullCollisionMethod(pts: seq<Particle>, ncoll: nat, c: NullSetup)
    returns (r: Result<(seq<Particle>, seq<seq<Particle>>)>)
    ensures r == NullUpTo(pts, ncoll, c)
  {
    var ps: seq<Particle>, prod: seq<seq<Particle>> := pts, [];
    var ipart := 0;
    while ipart < ncoll
      invariant 0 <= ipart <= ncoll
      invariant NullUpTo(pts, ipart, c) == Ok((ps, prod))
    {
      var step := CollideParticle(ps, prod, ipart, c);
      NullSnoc(pts, ipart, ps, prod, c);
      if step.Fail? {
        NullStops(pts, ipart + 1, ncoll, c);
        return step;
      }
      ps, prod := step.value.0, step.value.1;
      ipart := ipart + 1;
    }
    r := Ok((ps, prod));
  }

  /* ---------------------------------------------------------------------
     `ParticleBackgroundCollision`: the frequency scan, the null-collision
     pass and the product routing.
     --------------------------------------------------------------------- */

  /** Particle `i` after the scan: its relative velocity against the
      background sample, and `nu` cleared and refilled with `en_cs` at its
      energy times `sqrt(2 energy) ndens`. */
  function Scan(p: Particle, i: nat, icsp: int, ndens: real, env: Env, boltz: nat -> Vec3): (q: Particle)
    ensures q.pos == p.pos && q.vel == p.vel && q.lost == p.lost
  {
    var rel := env.relVel(p, boltz(i));
    var energy := env.getEnergy(rel);
    p.(rel := rel, nu := Scaled(env.enCs(icsp, energy), Nevrt(energy, ndens, env.rt)))
  }

  /** `nevrt`: the speed `sqrt(2 energy)` times the background density. */
  function Nevrt(energy: real, ndens: real, rt: Runtime): real
  {
    rt.sqrt(2.0 * energy) * ndens
  }

  /** The scanned store and the largest per-particle total, from 0. */
  function Scanned(pts: seq<Particle>, icsp: int, ndens: real, env: Env, boltz: nat -> Vec3)
    : (r: (seq<Particle>, real))
    ensures |r.0| == |pts|
  {
    var out := ScannedStore(pts, icsp, ndens, env, boltz);
    (out, RunningMax(Frequencies(out), 0.0))
  }

  function ScannedStore(pts: seq<Particle>, icsp: int, ndens: real, env: Env, boltz: nat -> Vec3)
    : (out: seq<Particle>)
    ensures |out| == |pts|
  {
    seq(|pts|, i requires 0 <= i < |pts| => Scan(pts[i], i, icsp, ndens, env, boltz))
  }

  function Frequencies(pts: seq<Particle>): (nus: seq<seq<real>>)
    ensures |nus| == |pts|
  {
    seq(|pts|, i requires 0 <= i < |pts| => pts[i].nu)
  }

  /** Each particle's `nu` is its cross sections scaled by one factor, so it
      has as many entries as `en_cs` returned; `nu_max` starts at 0, is at
      least every particle's total, and is 0 or one of those totals. */
  lemma ScanBounds(pts: seq<Particle>, icsp: int, ndens: real, env: Env, boltz: nat -> Vec3)
    ensures var (out, nuMax) := Scanned(pts, icsp, ndens, env, boltz);
      && (forall i :: 0 <= i < |pts| ==>
            |out[i].nu| == |env.enCs(icsp, env.getEnergy(env.relVel(pts[i], boltz(i))))|)
      && 0.0 <= nuMax
      && (forall i :: 0 <= i < |out| ==> Sum(out[i].nu) <= nuMax)
      && (nuMax == 0.0 || exists i :: 0 <= i < |out| && nuMax == Sum(out[i].nu))
  {
    var (out, nuMax) := Scanned(pts, icsp, ndens, env, boltz);
    var nus := Frequencies(out);
    RunningMaxBounds(nus, 0.0);
    forall i | 0 <= i < |out|
      ensures Sum(out[i].nu) <= nuMax
    {
      assert nus[i] == out[i].nu;
    }
    if nuMax != 0.0 {
      var i :| 0 <= i < |nus| && nuMax == Sum(nus[i]);
      assert nus[i] == out[i].nu;
    }
  }

  /** The scan loop over the store, `for (auto& pt : *pts)`. */
  method ScanFrequencies(pts: seq<Particle>, icsp: int, ndens: real, env: Env, boltz: nat -> Vec3)
    returns (out: seq<Particle>, nuMax: real)
    ensures (out, nuMax) == Scanned(pts, icsp, ndens, env, boltz)
  {
    out, nuMax := [], 0.0;
    var ipart := 0;
    while ipart < |pts|
      invariant 0 <= ipart <= |pts| && |out| == ipart
      invariant forall i :: 0 <= i < ipart ==> out[i] == Scan(pts[i], i, icsp, ndens, env, boltz)
      invariant nuMax == RunningMax(Frequencies(out), 0.0)
    {
      var pt, nutot := ScanOne(pts[ipart], ipart, icsp, ndens, env, boltz);
      assert Frequencies(out + [pt]) == Frequencies(out) + [pt.nu];
      out := out + [pt];
      if nutot > nuMax {
        nuMax := nutot;
      }
      ipart := ipart + 1;
    }
    assert out == ScannedStore(pts, icsp, ndens, env, boltz);
  }

  /** The body of the scan for one particle, with its total `nutot`. */
  method ScanOne(pt: Particle, i: nat, icsp: int, ndens: real, env: Env, boltz: nat -> Vec3)
    returns (q: Particle, nutot: real)
    ensures q == Scan(pt, i, icsp, ndens, env, boltz) && nutot == Sum(q.nu)
  {
    var rel := env.relVel(pt, boltz(i));
    var energy := env.getEnergy(rel);
    var info := env.enCs(icsp, energy);
    var vel := env.rt.sqrt(2.0 * energy);
    var nevrt := vel * ndens;
    var nu := ScaleAll(info, nevrt);
    nutot := Total(nu);
    q := pt.(rel := rel, nu := nu);
    assert nevrt == Nevrt(energy, ndens, env.rt);
  }

  /** `transform(info, back_inserter(nu), x * nevrt)` into a cleared `nu`. */
  method ScaleAll(info: seq<real>, nevrt: real) returns (nu: seq<real>)
    ensures nu == Scaled(info, nevrt)
  {
    nu := [];
    var j := 0;
    while j < |info|
      invariant 0 <= j <= |info| && |nu| == j
      invariant forall l :: 0 <= l < j ==> nu[l] == info[l] * nevrt
    {
      nu := nu + [info[j] * nevrt];
      j := j + 1;
    }
    assert forall l :: 0 <= l < |nu| ==> nu[l] == Scaled(info, nevrt)[l];
  }

  /** `for (auto& nui : nu) nutot += nui`. */
  method Total(nu: seq<real>) returns (nutot: real)
    ensures nutot == Sum(nu)
  {
    nutot := 0.0;
    var j := 0;
    while j < |nu|
      invariant 0 <= j <= |nu| && nutot == Sum(nu[..j])
    {
      assert nu[..j + 1] == nu[..j] + [nu[j]];
      SumSnoc(nu[..j], nu[j]);
      nutot := nutot + nu[j];
      j := j + 1;
    }
    assert nu[..j] == nu;
  }

  /** The product routing: the first particle of each group goes to the
      incident species' store and the second to species `spec_id + 1`. */
  function Routed(stores: seq<seq<Particle>>, specId: int, products: seq<seq<Particle>>)
    : Result<seq<seq<Particle>>>
    decreases |products|
  {
    if products == [] then Ok(stores)
    else
      match Routed(stores, specId, products[..|products| - 1])
      case Fail(e) => Fail(e)
      case Ok(st) =>
        var group := products[|products| - 1];
        if specId < 0 || specId + 1 >= |st| then Fail(Undefined("species index past species_arr"))
        else if |group| < 2 then Fail(Undefined("product group with fewer than two particles"))
        else Ok(st[specId := st[specId] + [group[0]]][specId + 1 := st[specId + 1] + [group[1]]])
  }

  /** Routing grows the two stores by one particle per group, in order, and
      leaves every other store alone. */
  lemma {:induction false} RoutedGrows(stores: seq<seq<Particle>>, specId: int, products: seq<seq<Particle>>)
    requires Routed(stores, specId, products).Ok?
    ensures var st := Routed(stores, specId, products).value;
      && |st| == |stores|
      && (products != [] ==> 0 <= specId && specId + 1 < |stores|)
      && (forall i :: 0 <= i < |products| ==> |products[i]| >= 2)
      && (0 <= specId && specId + 1 < |stores| ==>
            && st[specId] == stores[specId] + seq(|products|, i requires 0 <= i < |products| => products[i][0])
            && st[specId + 1] == stores[specId + 1] + seq(|products|, i requires 0 <= i < |products| => products[i][1]))
      && forall j :: 0 <= j < |stores| && j != specId && j != specId + 1 ==> st[j] == stores[j]
    decreases |products|
  {
    if products != [] {
      var front := products[..|products| - 1];
      RoutedGrows(stores, specId, front);
      forall i | 0 <= i < |front|
        ensures front[i][0] == products[i][0] && front[i][1] == products[i][1]
      {
      }
    }
  }

  /** The routing loop. */
  method RouteProducts(stores: seq<seq<Particle>>, specId: int, products: seq<seq<Particle>>)
    returns (r: Result<seq<seq<Particle>>>)
    ensures r == Routed(stores, specId, products)
  {
    var st := stores;
    var iprod := 0;
    while iprod < |products|
      invariant 0 <= iprod <= |products|
      invariant Routed(stores, specId, products[..iprod]) == Ok(st)
    {
      assert products[..iprod + 1][..iprod] == products[..iprod];
      if specId < 0 || specId + 1 >= |st| || |products[iprod]| < 2 {
        RoutedStops(stores, specId, products, iprod + 1);
        return Fail(if specId < 0 || specId + 1 >= |st| then Undefined("species index past species_arr")
                    else Undefined("product group with fewer than two particles"));
      }
      st := st[specId := st[specId] + [products[iprod][0]]];
      st := st[specId + 1 := st[specId + 1] + [products[iprod][1]]];
      iprod := iprod + 1;
    }
    assert products[..iprod] == products;
    r := Ok(st);
  }

  lemma {:induction false} RoutedStops(stores: seq<seq<Particle>>, specId: int, products: seq<seq<Particle>>, i: nat)
    requires i <= |products| && Routed(stores, specId, products[..i]).Fail?
    ensures Routed(stores, specId, products) == Routed(stores, specId, products[..i])
    decreases |products|
  {
    if i < |products| {
      var front := products[..|products| - 1];
      assert front[..i] == products[..i];
      RoutedStops(stores, specId, front, i);
    } else {
      assert products[..i] == products;
    }
  }

  /* ---------------------------------------------------------------------
     The `Tile`.
     --------------------------------------------------------------------- */

  /** The tile's state as the collision driver sees it: the particle store
      and mass of each species, and `reaction_arr`. */
  datatype TileState = TileState(stores: seq<seq<Particle>>, speciesMass: seq<real>, reactionArr: seq<Entry>)

  /** One `ParticleBackgroundCollision(dt, icsp)`: the incident species is
      the pair's first id; after the scan, `ncoll = npart Pcoll(nu_max, dt)`
      truncated, the null-collision pass, then the routing of the product
      groups. A negative `ncoll` cannot be converted to a size. */
  function BackgroundRound(t: TileState, icsp: int, dt: real, mass: real, ndens: real, vth: real,
                           env: Env, rnds: Randoms): Result<seq<seq<Particle>>>
  {
    if icsp < 0 || icsp >= |t.reactionArr| || t.reactionArr[icsp].specIds == [] then
      Fail(Undefined("no incident species for the pair"))
    else
      var specId := t.reactionArr[icsp].specIds[0];
      var reaction := t.reactionArr[icsp].reaction;
      if specId < 0 || specId >= |t.stores| || specId >= |t.speciesMass| then
        Fail(Undefined("species index past species_arr"))
      else
        var scanned := Scanned(t.stores[specId], icsp, ndens, env, rnds.boltz);
        var ncoll := CollisionCount(|scanned.0|, env.pcoll(scanned.1, dt));
        if ncoll < 0 then Fail(Undefined("negative collision count"))
        else
          var setup := NullSetup(reaction, scanned.1, t.speciesMass[specId], mass, vth, rnds.rnd, rnds.draws, env.kTe0, env.rt);
          var pass := NullUpTo(scanned.0, ncoll, setup);
          if pass.Fail? then Fail(pass.error)
          else Routed(t.stores[specId := pass.value.0], specId, pass.value.1)
  }

  /** `static_cast<size_type>(npart * Pcoll(nu_max, dt))`: truncation
      toward zero. */
  function CollisionCount(npart: nat, pcoll: real): int
  {
    Trunc(npart as real * pcoll)
  }

  /** The first `k` passes of `ParticleCollisioninTiles`: a pair with fewer
      than two species ids takes the background path; any other pair is
      marked as not a background collision and takes the column path, which
      is an error. */
  function Rounds(t: TileState, k: nat, dt: real, mass: real, ndens: real, vth: real,
                  env: Env, rnds: int -> Randoms): Result<TileState>
  {
    if k == 0 then Ok(t)
    else
      match Rounds(t, k - 1, dt, mass, ndens, vth, env, rnds)
      case Fail(e) => Fail(e)
      case Ok(t') => Round(t', k - 1, dt, mass, ndens, vth, env, rnds(k - 1))
  }

  /** Pass `icsp` of `ParticleCollisioninTiles`. */
  function Round(t: TileState, icsp: nat, dt: real, mass: real, ndens: real, vth: real,
                 env: Env, rnds: Randoms): Result<TileState>
  {
    if icsp >= |t.reactionArr| then Fail(Undefined("pair index past reaction_arr"))
    else if |t.reactionArr[icsp].specIds| < 2 then
      match BackgroundRound(t, icsp, dt, mass, ndens, vth, env, rnds)
      case Fail(e) => Fail(e)
      case Ok(stores) => Ok(t.(stores := stores))
    else Fail(Fatal("Column collision has not prepared"))
  }

  /** Routing by reactant count: one species means the background path,
      two or more means an error. */
  lemma RoutingByCount(t: TileState, k: nat, dt: real, mass: real, ndens: real, vth: real,
                       env: Env, rnds: int -> Randoms)
    requires Rounds(t, k, dt, mass, ndens, vth, env, rnds).Ok? && 0 < k <= |t.reactionArr|
    ensures var t' := Rounds(t, k - 1, dt, mass, ndens, vth, env, rnds).value;
      && Rounds(t, k - 1, dt, mass, ndens, vth, env, rnds).Ok?
      && |t'.reactionArr[k - 1].specIds| < 2
      && Rounds(t, k, dt, mass, ndens, vth, env, rnds)
         == Ok(t'.(stores := BackgroundRound(t', k - 1, dt, mass, ndens, vth, env, rnds(k - 1)).value))
  {
  }

  /** A pair with two reactants makes the whole pass fail. */
  lemma ColumnPathFails(t: TileState, k: nat, dt: real, mass: real, ndens: real, vth: real,
                        env: Env, rnds: int -> Randoms)
    requires 0 < k && Rounds(t, k - 1, dt, mass, ndens, vth, env, rnds).Ok?
    requires var t' := Rounds(t, k - 1, dt, mass, ndens, vth, env, rnds).value;
             k - 1 < |t'.reactionArr| && |t'.reactionArr[k - 1].specIds| >= 2
    ensures Rounds(t, k, dt, mass, ndens, vth, env, rnds) == Fail(Fatal("Column collision has not prepared"))
  {
  }

  /** One more pass runs `Round` on the state the earlier passes left. */
  lemma RoundsSnoc(t: TileState, k: nat, t': TileState, dt: real, mass: real, ndens: real, vth: real,
                   env: Env, rnds: int -> Randoms)
    requires Rounds(t, k, dt, mass, ndens, vth, env, rnds) == Ok(t')
    ensures Rounds(t, k + 1, dt, mass, ndens, vth, env, rnds) == Round(t', k, dt, mass, ndens, vth, env, rnds(k))
  {
  }

  lemma {:induction false} RoundsKeepReactions(t: TileState, k: nat, dt: real, mass: real, ndens: real, vth: real,
                                               env: Env, rnds: int -> Randoms)
    requires Rounds(t, k, dt, mass, ndens, vth, env, rnds).Ok?
    ensures Rounds(t, k, dt, mass, ndens, vth, env, rnds).value.reactionArr == t.reactionArr
    ensures Rounds(t, k, dt, mass, ndens, vth, env, rnds).value.speciesMass == t.speciesMass
  {
    if k > 0 {
      RoundsKeepReactions(t, k - 1, dt, mass, ndens, vth, env, rnds);
    }
  }

  lemma {:induction false} RoundsStop(t: TileState, i: nat, k: nat, dt: real, mass: real, ndens: real, vth: real,
                                      env: Env, rnds: int -> Randoms)
    requires i <= k && Rounds(t, i, dt, mass, ndens, vth, env, rnds).Fail?
    ensures Rounds(t, k, dt, mass, ndens, vth, env, rnds) == Rounds(t, i, dt, mass, ndens, vth, env, rnds)
    decreases k - i
  {
    if i < k {
      RoundsStop(t, i, k - 1, dt, mass, ndens, vth, env, rnds);
    }
  }

  /* ---------------------------------------------------------------------
     `InitCollision`: species names to ids.
     --------------------------------------------------------------------- */

  function UnknownSpecies(name: string, second: string): string
  {
    "Unknown species \"" + name + " " + second + "\" given to \"cross_section\" command in [csection.in]"
  }

  /** The species ids of a reacting pair: the first name, and the second
      unless it is `"default"`. */
  function SpeciesIds(names: map<string, int>, pair: (string, string)): (r: Result<seq<int>>)
    ensures r.Ok? ==> |r.value| == (if pair.1 == "default" then 1 else 2)
  {
    if pair.0 !in names then Fail(Fatal(UnknownSpecies(pair.0, pair.1)))
    else if pair.1 == "default" then Ok([names[pair.0]])
    else if pair.1 !in names then Fail(Fatal(UnknownSpecies(pair.0, pair.1)))
    else Ok([names[pair.0], names[pair.1]])
  }

  /** The product ids: the names resolved in order up to the first
      `"none"`; an unknown name is an error. */
  function ProductIds(names: map<string, int>, list: seq<string>, second: string): Result<seq<int>>
  {
    if list == [] || list[0] == "none" then Ok([])
    else if list[0] !in names then Fail(Fatal(UnknownSpecies(list[0], second)))
    else
      match ProductIds(names, list[1..], second)
      case Fail(e) => Fail(e)
      case Ok(ids) => Ok([names[list[0]]] + ids)
  }

  /** The ids are the names before the first `"none"`, looked up one by
      one. */
  lemma {:induction false} ProductIdsResolve(names: map<string, int>, list: seq<string>, second: string)
    requires ProductIds(names, list, second).Ok?
    ensures var ids := ProductIds(names, list, second).value;
      && |ids| <= |list|
      && (|ids| < |list| ==> list[|ids|] == "none")
      && forall i :: 0 <= i < |ids| ==> list[i] != "none" && list[i] in names && ids[i] == names[list[i]]
  {
    if list != [] && list[0] != "none" {
      ProductIdsResolve(names, list[1..], second);
    }
  }

  /** The first `k` passes of `InitCollision`'s loop: the entries appended
      to the tile's `reaction_arr`, each with the reaction's product ids
      extended. */
  function InitEntries(names: map<string, int>, reactions: seq<ReactionView>, productLists: seq<seq<string>>,
                       k: nat): Result<seq<Entry>>
  {
    if k == 0 then Ok([])
    else
      match InitEntries(names, reactions, productLists, k - 1)
      case Fail(e) => Fail(e)
      case Ok(entries) =>
        var i := k - 1;
        if i >= |reactions| || i >= |productLists| then Fail(Undefined("pair index outside the cross sections"))
        else
          match InitEntry(names, reactions[i], productLists[i])
          case Fail(e) => Fail(e)
          case Ok(entry) => Ok(entries + [entry])
  }

  /** The entry of one reaction: its species ids, and the reaction with the
      product ids appended. */
  function InitEntry(names: map<string, int>, reaction: ReactionView, list: seq<string>): Result<Entry>
  {
    match SpeciesIds(names, reaction.pair)
    case Fail(e) => Fail(e)
    case Ok(ids) =>
      match ProductIds(names, list, reaction.pair.1)
      case Fail(e) => Fail(e)
      case Ok(pids) => Ok(Entry(ids, reaction.(productId := reaction.productId + pids)))
  }

  lemma InitSnoc(names: map<string, int>, reactions: seq<ReactionView>, productLists: seq<seq<string>>,
                 k: nat, entries: seq<Entry>)
    requires InitEntries(names, reactions, productLists, k) == Ok(entries)
    ensures k >= |reactions| || k >= |productLists|
      ==> InitEntries(names, reactions, productLists, k + 1) == Fail(Undefined("pair index outside the cross sections"))
    ensures k < |reactions| && k < |productLists|
      ==> var e := InitEntry(names, reactions[k], productLists[k]);
          InitEntries(names, reactions, productLists, k + 1) == if e.Fail? then Fail(e.error) else Ok(entries + [e.value])
  {
  }

  lemma {:induction false} InitStops(names: map<string, int>, reactions: seq<ReactionView>,
                                     productLists: seq<seq<string>>, i: nat, k: nat)
    requires i <= k && InitEntries(names, reactions, productLists, i).Fail?
    ensures InitEntries(names, reactions, productLists, k) == InitEntries(names, reactions, productLists, i)
    decreases k - i
  {
    if i < k {
      InitStops(names, reactions, productLists, i, k - 1);
    }
  }

  /** Entry `i` holds one species id when the second reactant is
      `"default"` and two otherwise, and the reaction with its product ids
      appended. */
  lemma {:induction false} InitEntryShape(names: map<string, int>, reactions: seq<ReactionView>,
                                          productLists: seq<seq<string>>, k: nat, i: nat)
    requires InitEntries(names, reactions, productLists, k).Ok? && i < k
    ensures var entries := InitEntries(names, reactions, productLists, k).value;
      && |entries| == k && i < |reactions| && i < |productLists|
      && Ok(entries[i].specIds) == SpeciesIds(names, reactions[i].pair)
      && |entries[i].specIds| == (if reactions[i].pair.1 == "default" then 1 else 2)
      && ProductIds(names, productLists[i], reactions[i].pair.1).Ok?
      && entries[i].reaction == reactions[i].(productId := reactions[i].productId
                                 + ProductIds(names, productLists[i], reactions[i].pair.1).value)
  {
    InitLength(names, reactions, productLists, k);
    if i < k - 1 {
      InitLength(names, reactions, productLists, k - 1);
      InitEntryShape(names, reactions, productLists, k - 1, i);
    }
  }

  lemma {:induction false} InitLength(names: map<string, int>, reactions: seq<ReactionView>,
                                      productLists: seq<seq<string>>, k: nat)
    requires InitEntries(names, reactions, productLists, k).Ok?
    ensures |InitEntries(names, reactions, productLists, k).value| == k
  {
    if k > 0 {
      InitLength(names, reactions, productLists, k - 1);
    }
  }

  class Tile {
    const mass: real
    const ndens: real
    const vth: real
    const env: Env
    var stores: seq<seq<Particle>>
    var speciesMass: seq<real>
    var reactionArr: seq<Entry>

    ghost function State(): TileState
      reads this
    {
      TileState(stores, speciesMass, reactionArr)
    }

    /** The part of the constructor the collision driver needs: the
        background's mass, density and thermal speed, and the species. */
    constructor (background: (real, real, real), stores: seq<seq<Particle>>, speciesMass: seq<real>, env: Env)
      ensures mass == background.0 && ndens == background.1 && vth == background.2 && this.env == env
      ensures State() == TileState(stores, speciesMass, [])
    {
      mass, ndens, vth := background.0, background.1, background.2;
      this.env := env;
      this.stores, this.speciesMass, reactionArr := stores, speciesMass, [];
    }

    /** `InitCollision(pp, cs)`: for each of the `num_pairs()` reactions,
        the reactant names become species ids and the product names become
        the reaction's product ids. */
    method InitCollision(names: map<string, int>, numPairs: int, reactions: seq<ReactionView>,
                         productLists: seq<seq<string>>) returns (r: Result<()>)
      modifies this
      ensures var k := if numPairs < 0 then 0 else numPairs;
        match InitEntries(names, reactions, productLists, k)
        case Fail(e) => r == Fail(e)
        case Ok(entries) => r.Ok? && State() == old(State()).(reactionArr := old(reactionArr) + entries)
    {
      var entries := ResolvePairs(names, numPairs, reactions, productLists);
      if entries.Fail? {
        return Fail(entries.error);
      }
      reactionArr := reactionArr + entries.value;
      r := Ok(());
    }

    /** The pair loop of `InitCollision`. */
    static method ResolvePairs(names: map<string, int>, numPairs: int, reactions: seq<ReactionView>,
                               productLists: seq<seq<string>>) returns (r: Result<seq<Entry>>)
      ensures r == InitEntries(names, reactions, productLists, if numPairs < 0 then 0 else numPairs)
    {
      ghost var n: nat := if numPairs < 0 then 0 else numPairs;
      var entries: seq<Entry> := [];
      var icsp := 0;
      while icsp < numPairs
        invariant 0 <= icsp <= n
        invariant InitEntries(names, reactions, productLists, icsp) == Ok(entries)
      {
        var next := ResolveNext(names, reactions, productLists, icsp, entries);
        if next.Fail? {
          InitStops(names, reactions, productLists, icsp + 1, n);
          return next;
        }
        entries := next.value;
        icsp := icsp + 1;
      }
      assert icsp == n;
      r := Ok(entries);
    }

    /** Pass `icsp` of the pair loop after the earlier passes produced `entries`. */
    static method ResolveNext(names: map<string, int>, reactions: seq<ReactionView>,
                              productLists: seq<seq<string>>, icsp: nat, entries: seq<Entry>)
      returns (r: Result<seq<Entry>>)
      requires InitEntries(names, reactions, productLists, icsp) == Ok(entries)
      ensures r == InitEntries(names, reactions, productLists, icsp + 1)
    {
      InitSnoc(names, reactions, productLists, icsp, entries);
      if icsp >= |reactions| || icsp >= |productLists| {
        return Fail(Undefined("pair index outside the cross sections"));
      }
      var entry := ResolvePair(names, reactions[icsp], productLists[icsp]);
      if entry.Fail? {
        return Fail(entry.error);
      }
      r := Ok(entries + [entry.value]);
    }

    /** One pass of the pair loop of `InitCollision`. */
    static method ResolvePair(names: map<string, int>, reaction: ReactionView, list: seq<string>)
      returns (r: Result<Entry>)
      ensures r == InitEntry(names, reaction, list)
    {
      var spair := reaction.pair;
      var ids := SpeciesIds(names, spair);
      if ids.Fail? {
        return Fail(ids.error);
      }
      var pids := ResolveProducts(names, list, spair.1);
      if pids.Fail? {
        return Fail(pids.error);
      }
      r := Ok(Entry(ids.value, reaction.(productId := reaction.productId + pids.value)));
    }

    /** The product loop of `InitCollision`, which stops at `"none"`. */
    static method ResolveProducts(names: map<string, int>, list: seq<string>, second: string)
      returns (r: Result<seq<int>>)
      ensures r == ProductIds(names, list, second)
    {
      var ids: seq<int> := [];
      var i := 0;
      assert list[0..] == list;
      assert forall rest: seq<int> :: ids + rest == rest;
      while i < |list|
        invariant 0 <= i <= |list|
        invariant ProductIds(names, list, second)
                  == match ProductIds(names, list[i..], second)
                     case Fail(e) => Fail(e)
                     case Ok(rest) => Ok(ids + rest)
      {
        if list[i] == "none" {
          assert ids + [] == ids;
          break;
        }
        if list[i] !in names {
          return Fail(Fatal(UnknownSpecies(list[i], second)));
        }
        assert list[i..][1..] == list[i + 1..];
        assert forall rest: seq<int> :: ids + ([names[list[i]]] + rest) == (ids + [names[list[i]]]) + rest;
        ids := ids + [names[list[i]]];
        i := i + 1;
      }
      if i == |list| {
        assert list[i..] == [];
        assert ids + [] == ids;
      }
      r := Ok(ids);
    }

    /** `ParticleBackgroundCollision(dt, icsp)`. */
    method ParticleBackgroundCollision(dt: real, icsp: int, rnds: Randoms) returns (r: Result<()>)
      modifies this
      ensures match BackgroundRound(old(State()), icsp, dt, mass, ndens, vth, env, rnds)
        case Fail(e) => r == Fail(e)
        case Ok(st) => r.Ok? && State() == old(State()).(stores := st)
    {
      var res := BackgroundPass(TileState(stores, speciesMass, reactionArr), icsp, dt, mass, ndens, vth, env, rnds);
      if res.Fail? {
        return Fail(res.error);
      }
      stores := res.value;
      r := Ok(());
    }

    /** The body of `ParticleBackgroundCollision` on the tile's state. */
    static method BackgroundPass(t: TileState, icsp: int, dt: real, mass: real, ndens: real, vth: real,
                                 env: Env, rnds: Randoms) returns (r: Result<seq<seq<Particle>>>)
      ensures r == BackgroundRound(t, icsp, dt, mass, ndens, vth, env, rnds)
    {
      if icsp < 0 || icsp >= |t.reactionArr| || t.reactionArr[icsp].specIds == [] {
        return Fail(Undefined("no incident species for the pair"));
      }
      var specId := t.reactionArr[icsp].specIds[0];
      var reaction := t.reactionArr[icsp].reaction;
      if specId < 0 || specId >= |t.stores| || specId >= |t.speciesMass| {
        return Fail(Undefined("species index past species_arr"));
      }
      var pm := t.speciesMass[specId];
      var pts, nuMax := ScanFrequencies(t.stores[specId], icsp, ndens, env, rnds.boltz);
      var ncoll := CollisionCount(|pts|, env.pcoll(nuMax, dt));
      if ncoll < 0 {
        return Fail(Undefined("negative collision count"));
      }
      var setup := NullSetup(reaction, nuMax, pm, mass, vth, rnds.rnd, rnds.draws, env.kTe0, env.rt);
      var pass := NullCollisionMethod(pts, ncoll, setup);
      if pass.Fail? {
        return Fail(pass.error);
      }
      r := RouteProducts(t.stores[specId := pass.value.0], specId, pass.value.1);
    }

    /** `ParticleCollisioninTiles(dt)`: every pair in order. */
    method ParticleCollisioninTiles(dt: real, rnds: int -> Randoms) returns (r: Result<()>)
      modifies this
      ensures match Rounds(old(State()), |old(reactionArr)|, dt, mass, ndens, vth, env, rnds)
        case Fail(e) => r == Fail(e)
        case Ok(t) => r.Ok? && State() == t
    {
      ghost var t0 := State();
      var n := |reactionArr|;
      var icsp := 0;
      while icsp < n
        invariant 0 <= icsp <= n == |t0.reactionArr|
        invariant Rounds(t0, icsp, dt, mass, ndens, vth, env, rnds) == Ok(State())
      {
        ghost var before := State();
        var step := PairCollision(dt, icsp, rnds(icsp));
        RoundsSnoc(t0, icsp, before, dt, mass, ndens, vth, env, rnds);
        if step.Fail? {
          RoundsStop(t0, icsp + 1, n, dt, mass, ndens, vth, env, rnds);
          return step;
        }
        icsp := icsp + 1;
      }
      r := Ok(());
    }

    /** The body of `ParticleCollisioninTiles` for pair `icsp`. */
    method PairCollision(dt: real, icsp: nat, rnds: Randoms) returns (r: Result<()>)
      modifies this
      ensures match Round(old(State()), icsp, dt, mass, ndens, vth, env, rnds)
        case Fail(e) => r == Fail(e)
        case Ok(t) => r.Ok? && State() == t
    {
      if icsp >= |reactionArr| {
        return Fail(Undefined("pair index past reaction_arr"));
      }
      if |reactionArr[icsp].specIds| < 2 {
        r := ParticleBackgroundCollision(dt, icsp, rnds);
      } else {
        // reaction_arr[icsp].second->is_background_collision = false
        var entry := reactionArr[icsp];
        reactionArr := reactionArr[icsp := entry.(reaction := entry.reaction.(isBackground := false))];
        r := Fail(Fatal("Column collision has not prepared"));
      }
    }
  }
}
