/** species.cpp: a species (name, mass, charge, statistical weight) owning a
    particle store, its two constructors, `gen_particles`, and the header that
    `write_restart` lays out in a 1024-byte buffer before the particle data. */
module SpeciesStore {
  import opened Common
  import opened ParticleStore

  /** The parsed species definition a `Species` is built from. */
  datatype SpeciesDef = SpeciesDef(name: string, mass: real, charge: real, weight: real)

  /** Object representations that `memcpy` copies: the bytes of an `int`, of a
      `Real` and of a `Particles::size_type`, and the sizes of those types.
      Their width and byte order are the host's, so they are parameters. */
  datatype Layout = Layout(
    intBytes: int -> seq<bv8>,
    realBytes: real -> seq<bv8>,
    sizeBytes: nat -> seq<bv8>,
    intSize: nat,
    realSize: nat,
    sizeTypeSize: nat)

  ghost predicate Consistent(l: Layout)
  {
    && (forall x :: |l.intBytes(x)| == l.intSize)
    && (forall x :: |l.realBytes(x)| == l.realSize)
    && (forall x :: |l.sizeBytes(x)| == l.sizeTypeSize)
  }

  /** The size of the stack buffer `write_restart` fills. */
  const BufferSize: nat := 1024

  /** A `std::string` holds bytes. */
  predicate ByteString(s: string)
  {
    forall i :: 0 <= i < |s| ==> s[i] as int < 256
  }

  function NameBytes(name: string): (b: seq<bv8>)
    requires ByteString(name)
    ensures |b| == |name|
  {
    seq(|name|, i requires 0 <= i < |name| => (name[i] as int) as bv8)
  }

  /** The header, field after field: name length, name, mass, charge, weight,
      particle count. */
  function HeaderBytes(name: string, mass: real, charge: real, weight: real, count: nat, l: Layout): seq<bv8>
    requires ByteString(name)
  {
    l.intBytes(|name|) + NameBytes(name) + l.realBytes(mass) + l.realBytes(charge)
      + l.realBytes(weight) + l.sizeBytes(count)
  }

  function HeaderLength(nameLength: nat, l: Layout): nat
  {
    l.intSize + nameLength + 3 * l.realSize + l.sizeTypeSize
  }

  /** The header is exactly `sizeof(int) + name_len + 3 sizeof(Real) +
      sizeof(size_type)` bytes long, and each field sits at its offset. */
  lemma HeaderLayout(name: string, mass: real, charge: real, weight: real, count: nat, l: Layout)
    requires Consistent(l) && ByteString(name)
    ensures var h := HeaderBytes(name, mass, charge, weight, count, l);
      var n, r := |name|, l.realSize;
      var o := l.intSize + n;
      && |h| == HeaderLength(n, l)
      && h[..l.intSize] == l.intBytes(n)
      && h[l.intSize..o] == NameBytes(name)
      && h[o..o + r] == l.realBytes(mass)
      && h[o + r..o + 2 * r] == l.realBytes(charge)
      && h[o + 2 * r..o + 3 * r] == l.realBytes(weight)
      && h[o + 3 * r..] == l.sizeBytes(count)
  {
    var h := HeaderBytes(name, mass, charge, weight, count, l);
    var n, r := |name|, l.realSize;
    var o := l.intSize + n;
    var a := l.intBytes(n);
    var b := NameBytes(name);
    var c := l.realBytes(mass);
    var d := l.realBytes(charge);
    var e := l.realBytes(weight);
    var f := l.sizeBytes(count);
    assert h == a + b + c + d + e + f;
    assert h[..l.intSize] == a;
    assert h[l.intSize..o] == b;
    assert h[o..o + r] == c;
    assert h[o + r..o + 2 * r] == d;
    assert h[o + 2 * r..o + 3 * r] == e;
    assert h[o + 3 * r..] == f;
  }

  /** `std::memcpy(buf + at, src, |src|)` */
  method MemCpy(buf: array<bv8>, at: nat, src: seq<bv8>)
    requires at + |src| <= buf.Length
    modifies buf
    ensures buf[..at] == old(buf[..at])
    ensures buf[at..at + |src|] == src
  {
    var i := 0;
    while i < |src|
      invariant 0 <= i <= |src|
      invariant buf[..at] == old(buf[..at])
      invariant buf[at..at + i] == src[..i]
    {
      buf[at + i] := src[i];
      i := i + 1;
    }
  }

  /** One `memcpy(buf + size, src, n); size += n;` step of `write_restart`:
      the buffer's first `size` bytes are the header written so far. */
  method Put(buf: array<bv8>, size: nat, ghost header: seq<bv8>, src: seq<bv8>, n: nat)
    returns (size': nat, ghost header': seq<bv8>)
    requires |header| == size <= buf.Length && buf[..size] == header
    requires n == |src| && size + n <= buf.Length
    modifies buf
    ensures size' == size + n && header' == header + src && buf[..size'] == header'
  {
    MemCpy(buf, size, src);
    size', header' := size + n, header + src;
    assert buf[..size'] == buf[..size] + buf[size..size'];
  }

  class Species {
    const name: string
    const mass: real
    const charge: real
    const weight: real
    const particles: Particles

    /** `Species(specdef)`: copies the definition and allocates an empty store. */
    constructor FromDef(def: SpeciesDef)
      ensures name == def.name && mass == def.mass && charge == def.charge && weight == def.weight
      ensures fresh(particles) && particles.items == []
    {
      name, mass, charge, weight := def.name, def.mass, def.charge, def.weight;
      particles := new Particles([]);
    }

    /** The copy constructor: the copy gets its own store holding the same particles. */
    constructor Copy(spec: Species)
      ensures name == spec.name && mass == spec.mass && charge == spec.charge && weight == spec.weight
      ensures fresh(particles) && particles.items == spec.particles.items
    {
      name, mass, charge, weight := spec.name, spec.mass, spec.charge, spec.weight;
      particles := new Particles(spec.particles.items);
    }

    /** `gen_particles(n)` fills six local vectors of length `n` and discards
        them (a negative `n` makes the vector constructor throw). */
    method GenParticles(n: int)
      requires 0 <= n
      ensures unchanged(this, particles)
    {
      var x, y, z := new real[n], new real[n], new real[n];
      var vx, vy, vz := new real[n], new real[n], new real[n];
    }

    /** The bytes `write_restart` hands to `fwrite` before the particle data:
        each field is copied into the buffer at the running offset `size`,
        which the header must not overrun. */
    method WriteRestart(l: Layout) returns (written: seq<bv8>)
      requires Consistent(l) && ByteString(name)
      requires HeaderLength(|name|, l) <= BufferSize
      ensures written == HeaderBytes(name, mass, charge, weight, |particles.items|, l)
      ensures |written| == HeaderLength(|name|, l)
    {
      var buf := new bv8[BufferSize];
      var size: nat := 0;
      var nparts := |particles.items|;
      var nameLen := |name|;
      ghost var header: seq<bv8> := [];
      size, header := Put(buf, size, header, l.intBytes(nameLen), l.intSize);
      size, header := Put(buf, size, header, NameBytes(name), nameLen);
      size, header := Put(buf, size, header, l.realBytes(mass), l.realSize);
      size, header := Put(buf, size, header, l.realBytes(charge), l.realSize);
      size, header := Put(buf, size, header, l.realBytes(weight), l.realSize);
      size, header := Put(buf, size, header, l.sizeBytes(nparts), l.sizeTypeSize);
      // fwrite(buf, sizeof(char), size, fp)
      written := buf[..size];
    }
  }
}
