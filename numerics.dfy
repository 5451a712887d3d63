/** Numeric collaborators the core calls but whose code is not modelled, and the
    small arithmetic vocabulary (sums, extended reals, floor/ceiling) shared by
    the other modules. */
module Numerics {

  /** An in-place complex transform over (real, imag) buffers of equal length, as
      `transform`/`inverseTransform` of the `./fft` module: only the fact that it
      keeps the length is known. */
  type SpectrumMap = f: (seq<real>, seq<real>) -> (seq<real>, seq<real>)
    | forall re: seq<real>, im: seq<real> :: |re| == |im| ==> |f(re, im).0| == |re| && |f(re, im).1| == |re|
    witness (re: seq<real>, im: seq<real>) => (re, if |im| == |re| then im else re)

  /** `convolveReal(x, y, out)` of the `./fft` module: writes a buffer as long as its inputs. */
  type Convolver = f: (seq<real>, seq<real>) -> seq<real>
    | forall x: seq<real>, y: seq<real> :: |x| == |y| ==> |f(x, y)| == |x|
    witness (x: seq<real>, y: seq<real>) => x

  /** The transforms and the transcendental maths the source takes from `./fft` and `Math`. */
  datatype Numerics = Numerics(
    transform: SpectrumMap,         // forward FFT, unnormalised
    inverseTransform: SpectrumMap,  // inverse FFT, unnormalised
    convolveReal: Convolver,        // circular convolution of two real buffers
    hypot: (real, real) -> real,    // Math.hypot(re, im)
    phase: (real, real) -> real,    // Math.atan(im / re)
    hannTaper: (nat, nat) -> real,  // Math.sin(PI * n / N) squared
    dbToGain: real -> real,         // Math.pow(10, dB / 20)
    gainToDb: real -> real,         // 20 * Math.log10(gain)
    log2: real -> real)             // Math.log2

  /** Sum of a buffer, peeled from the end so that a left-to-right loop extends it. */
  function Sum(s: seq<real>): real
  {
    if |s| == 0 then 0.0 else Sum(s[..|s| - 1]) + s[|s| - 1]
  }

  lemma {:induction false} SumConcat(a: seq<real>, b: seq<real>)
    ensures Sum(a + b) == Sum(a) + Sum(b)
  {
    if |b| == 0 {
      assert a + b == a;
    } else {
      assert (a + b)[..|a + b| - 1] == a + b[..|b| - 1];
      SumConcat(a, b[..|b| - 1]);
    }
  }

  /** A buffer of `n` equal values sums to `n` times that value. */
  lemma {:induction false} SumConstant(s: seq<real>, c: real)
    requires forall i :: 0 <= i < |s| ==> s[i] == c
    ensures Sum(s) == |s| as real * c
  {
    if |s| > 0 {
      SumConstant(s[..|s| - 1], c);
    }
  }

  /** A pointwise larger buffer has a larger sum. */
  lemma {:induction false} SumMonotone(s: seq<real>, t: seq<real>)
    requires |s| == |t|
    requires forall i :: 0 <= i < |s| ==> s[i] <= t[i]
    ensures Sum(s) <= Sum(t)
  {
    if |s| > 0 {
      SumMonotone(s[..|s| - 1], t[..|t| - 1]);
    }
  }

  function Zeros(n: nat): (z: seq<real>)
    ensures |z| == n && forall i :: 0 <= i < n ==> z[i] == 0.0
  {
    seq(n, _ => 0.0)
  }

  function Abs(x: real): (r: real)
    ensures r >= 0.0 && (r == x || r == -x)
  {
    if x < 0.0 then -x else x
  }

  /** `Math.max(a, b)` on numbers that are not NaN. */
  function MaxReal(a: real, b: real): (r: real)
    ensures r >= a && r >= b && (r == a || r == b)
  {
    if a < b then b else a
  }

  /** `Math.ceil`, written with Dafny's `Floor`. */
  function Ceil(x: real): (r: int)
    ensures x <= r as real < x + 1.0
  {
    -((-x).Floor)
  }

  predicate IsWhole(x: real)
  {
    x.Floor as real == x
  }

  /** The longest length among the buffers, 0 for none (`_.max` of lengths, with
      `new Float32Array(undefined)` being empty). */
  function MaxLength(data: seq<seq<real>>): (m: nat)
    ensures forall k :: 0 <= k < |data| ==> |data[k]| <= m
    ensures |data| == 0 ==> m == 0
    ensures |data| > 0 ==> exists k :: 0 <= k < |data| && |data[k]| == m
  {
    if |data| == 0 then 0
    else
      var m := MaxLength(data[..|data| - 1]);
      if |data[|data| - 1]| > m then |data[|data| - 1]| else m
  }

  /** A number that may be one of IEEE's infinities (never NaN). */
  datatype Extended = NegInf | Finite(value: real) | PosInf {
    predicate Below(y: real)
    {
      NegInf? || (Finite? && value < y)
    }
    predicate Above(y: real)
    {
      PosInf? || (Finite? && value > y)
    }
  }
}
