/** Shared vocabulary of the model: outcomes, vectors, the foreign numeric
    routines the collision code calls, and the C/C++ conversions it relies on
    (atoi, a truncating cast, std::vector::resize). */
module Common {

  /** Why a run stops. `Fatal` is `espic_error` (it prints and aborts);
      `Thrown` is a C++ exception nothing catches (`std::length_error` when
      a vector is asked for a negative size, which converts to a huge
      `size_t`), so the run terminates; `Undefined` marks a step whose C++
      behaviour is undefined (an index past the end of a vector, a read of a
      field no constructor or earlier step initialised); `Diverges` marks a
      loop that never exits. */
  datatype Error =
    | Fatal(message: string)
    | Thrown(exception: string)
    | Undefined(reason: string)
    | Diverges(reason: string)

  datatype Result<T> = Ok(value: T) | Fail(error: Error)

  datatype Option<T> = None | Some(value: T)

  datatype Vec3 = Vec3(x: real, y: real, z: real)

  /** The routines the code calls but that are not part of this model:
      `atof`, the C math library, `velocity` from espic_math.h, the particle's
      `rel_velsqr`, the constants `ESPIC::PI` and `ESPIC::PI2`. `byZero(a)`
      stands for the IEEE value of `a / 0` (an infinity or NaN), which a real
      number cannot hold. */
  datatype Runtime = Runtime(
    atof: string -> real,
    sqrt: real -> real,
    sin: real -> real,
    cos: real -> real,
    acos: real -> real,
    tan: real -> real,
    atan: real -> real,
    velocity: (real, real, real) -> real,
    relVelSqr: Vec3 -> real,
    byZero: real -> real,
    pi: real,
    pi2: real)

  /** Floating-point division: the quotient when the divisor is non-zero, the
      IEEE value otherwise. */
  function Div(a: real, b: real, rt: Runtime): real
  {
    if b != 0.0 then a / b else rt.byZero(a)
  }

  /** A division by a non-zero divisor is exact: `(a / b) * b == a`. */
  lemma DivExact(a: real, b: real, rt: Runtime)
    requires b != 0.0
    ensures Div(a, b, rt) * b == a
  {
  }

  /** `fabs` */
  function Abs(x: real): (r: real)
    ensures 0.0 <= r && (r == x || r == -x)
  {
    if x < 0.0 then -x else x
  }

  function Max(a: real, b: real): (m: real)
    ensures a <= m && b <= m && (m == a || m == b)
  {
    if b > a then b else a
  }

  /** The range of a 32-bit `int`. */
  const IntMin: int := -0x8000_0000
  const IntMax: int := 0x7fff_ffff

  predicate InIntRange(x: int)
  {
    IntMin <= x <= IntMax
  }

  /** `static_cast<int>` of a floating value: rounds toward zero. C++ leaves
      the cast undefined when the result is not `InIntRange`; callers that
      model such a cast check it. */
  function Trunc(x: real): (r: int)
    ensures 0.0 <= x ==> 0 <= r && r as real <= x < r as real + 1.0
    ensures x < 0.0 ==> r <= 0 && r as real - 1.0 < x <= r as real
  {
    if x >= 0.0 then x.Floor else -((-x).Floor)
  }

  /** Left-to-right sum, as a loop `acc += s[i]` computes it. */
  function Sum(s: seq<real>): real
  {
    if s == [] then 0.0 else Sum(s[..|s| - 1]) + s[|s| - 1]
  }

  lemma SumSnoc(s: seq<real>, x: real)
    ensures Sum(s + [x]) == Sum(s) + x
  {
    assert (s + [x])[..|s + [x]| - 1] == s;
  }

  /** A sum of non-negative terms is non-negative and grows with the prefix. */
  lemma {:induction false} SumPrefixMonotone(s: seq<real>, i: nat, j: nat)
    requires i <= j <= |s|
    requires forall k :: 0 <= k < |s| ==> 0.0 <= s[k]
    ensures Sum(s[..i]) <= Sum(s[..j])
    decreases j - i
  {
    if i < j {
      SumPrefixMonotone(s, i, j - 1);
      assert s[..j] == s[..j - 1] + [s[j - 1]];
      SumSnoc(s[..j - 1], s[j - 1]);
    }
  }

  /** `std::vector::resize(n)`: keeps the first `n` elements and pads with the
      value-initialised element. */
  function Resize<T>(s: seq<T>, n: nat, fill: T): (r: seq<T>)
    ensures |r| == n
    ensures forall i :: 0 <= i < n && i < |s| ==> r[i] == s[i]
    ensures forall i :: |s| <= i < n ==> r[i] == fill
  {
    if n <= |s| then s[..n] else s + seq(n - |s|, _ => fill)
  }

  predicate IsDigit(c: char)
  {
    '0' <= c <= '9'
  }

  /** Value of the leading run of decimal digits of `s`, accumulated onto `acc`. */
  function LeadingDigits(s: string, acc: nat): nat
    decreases |s|
  {
    if s != [] && IsDigit(s[0])
    then LeadingDigits(s[1..], acc * 10 + (s[0] as int - '0' as int))
    else acc
  }

  /** C `atoi` on a whitespace-free token: an optional sign, then the leading
      digits; a token without leading digits reads as 0. */
  function Atoi(s: string): int
  {
    if s != [] && s[0] == '-' then -(LeadingDigits(s[1..], 0) as int)
    else if s != [] && s[0] == '+' then LeadingDigits(s[1..], 0)
    else LeadingDigits(s, 0)
  }
}
