/**
  The plot grid: the axis ranges and modes, and the maps from data coordinates
  to the unit square of the diagram (x to the right, y downwards).
*/
module DiagramTypes {
  import opened Wrappers
  import opened Numerics

  /** A non-negative number over a positive one is non-negative. */
  lemma NonNegativeQuotient(a: real, d: real)
    requires a >= 0.0 && d > 0.0
    ensures a / d >= 0.0
  {
  }

  /** Multiplying by a non-zero number and dividing by it again is the identity. */
  lemma Cancel(a: real, n: real)
    requires n != 0.0
    ensures a * n / n == a
  {
    var q := a * n / n;
    assert q * n == a * n;
    assert (q - a) * n == 0.0;
  }

  /** Scaling a quotient back by its divisor gives the dividend. */
  lemma QuotientScaledBack(a: real, d: real)
    requires d != 0.0
    ensures (a / d) * d == a
  {
  }

  /** The frequency of sample `i` of `n` at `rate`: i · rate / n. */
  function SampleX(i: nat, rate: real, n: nat): real
    requires i < n
  {
    i as real * rate / n as real
  }

  /** The axis ranges and modes of a grid as a value, with the maps from data
      coordinates to the unit square; `Grid` reads its fields into one. */
  datatype Axes = Axes(kit: Numerics, minX: real, maxX: real, minY: real, maxY: real, logX: int, logY: int)
  {
    /** Maps that do not divide by zero: each axis spans a non-zero range,
        measured in log2 on a logarithmic x axis. */
    predicate Valid()
    {
      && maxX != minX && maxY != minY
      && (logX != 0 ==> kit.log2(maxX) != kit.log2(minX))
    }

    /** `transformX(x)`: the fraction of the way from `minX` to `maxX`, on a
        logarithmic axis in log2 with `x` shifted by one. */
    function MapX(x: real): real
      requires Valid()
    {
      if logX != 0 then
        (kit.log2(1.0 + x) - kit.log2(minX)) / (kit.log2(maxX) - kit.log2(minX))
      else
        (x - minX) / (maxX - minX)
    }

    /** The linear map of `transformY`: `minY` at the bottom (1), `maxY` at the top (0). */
    function LinearY(y: real): real
      requires Valid()
    {
      1.0 - (y - minY) / (maxY - minY)
    }

    /** `transformY(y)`: on a logarithmic axis the level in dB, then the linear map. */
    function MapY(y: real): real
      requires Valid()
    {
      var y' := if logY != 0 then kit.gainToDb(y) else y;
      LinearY(y')
    }

    /** Even slots through `MapX`, odd slots through `MapY`. */
    function Mapped(points: seq<real>): (r: seq<real>)
      requires Valid()
      ensures |r| == |points|
    {
      seq(|points|, k requires 0 <= k < |points| =>
        if k % 2 == 0 then MapX(points[k]) else MapY(points[k]))
    }

    /** Point i of a buffer sampled at `rate` is (MapX(i · rate / n), MapY(samples[i])). */
    function Sampled(samples: seq<real>, rate: real): (r: seq<real>)
      requires Valid()
      ensures |r| == 2 * |samples|
    {
      seq(2 * |samples|, k requires 0 <= k < 2 * |samples| =>
        if k % 2 == 0 then MapX(SampleX(k / 2, rate, |samples|))
        else MapY(samples[k / 2]))
    }
  }

  /** The loop of `transformPoints` on a snapshot of the grid's axes. */
  method MapPoints(ax: Axes, points: seq<real>) returns (result: seq<real>)
    requires ax.Valid()
    ensures result == ax.Mapped(points)
  {
    ghost var target := ax.Mapped(points);
    var r := new real[|points|](_ => 0.0);
    for i := 0 to (|points| + 1) / 2
      invariant forall k :: 0 <= k < 2 * i && k < |points| ==> r[k] == target[k]
    {
      PairSlots(i, |points|);
      r[i * 2 + 0] := ax.MapX(points[i * 2 + 0]);
      if i * 2 + 1 < r.Length {
        r[i * 2 + 1] := ax.MapY(points[i * 2 + 1]);
      }
    }
    result := r[..];
  }

  /** The loop of `samplesToPoints` on a snapshot of the grid's axes. */
  method MapSamples(ax: Axes, samples: seq<real>, rate: real) returns (points: seq<real>)
    requires ax.Valid()
    ensures points == ax.Sampled(samples, rate)
  {
    ghost var target := ax.Sampled(samples, rate);
    var p := new real[|samples| * 2](_ => 0.0);
    for i := 0 to |samples|
      invariant forall k :: 0 <= k < 2 * i ==> p[k] == target[k]
    {
      SampleSlots(i);
      p[i * 2 + 0] := ax.MapX(SampleX(i, rate, |samples|));
      p[i * 2 + 1] := ax.MapY(samples[i]);
    }
    points := p[..];
  }

  /** Pair `i` of a buffer of `n` numbers (rounded up to whole pairs) starts
      inside the buffer, in an even x slot followed by an odd y slot. */
  lemma PairSlots(i: nat, n: nat)
    requires i < (n + 1) / 2
    ensures i * 2 + 0 < n
    ensures (i * 2 + 0) % 2 == 0 && (i * 2 + 1) % 2 == 1
  {
  }

  /** Sample `i` fills the even slot `2i` and the odd slot `2i + 1`. */
  lemma SampleSlots(i: nat)
    ensures (i * 2 + 0) % 2 == 0 && (i * 2 + 0) / 2 == i
    ensures (i * 2 + 1) % 2 == 1 && (i * 2 + 1) / 2 == i
  {
  }

  class Grid {
    /** The logarithms the log-scaled axes take from `Math`. */
    const kit: Numerics
    var minX: real
    var maxX: real
    var minY: real
    var maxY: real
    /** Axis modes; any non-zero value selects the logarithmic map. */
    var logX: int
    var logY: int
    var granularityX: real
    var granularityY: real

    /** The current axis ranges and modes as a value. */
    function Scales(): Axes
      reads this
    {
      Axes(kit, minX, maxX, minY, maxY, logX, logY)
    }

    /** A grid whose maps do not divide by zero. */
    predicate Valid()
      reads this
    {
      Scales().Valid()
    }

    constructor(kit: Numerics)
      ensures this.kit == kit && Valid()
      ensures minX == 0.0 && maxX == 20000.0 && minY == -1.0 && maxY == 1.0
      ensures logX == 0 && logY == 0 && granularityX == 1.0 && granularityY == 1.0
    {
      this.kit := kit;
      minX := 0.0;
      maxX := 20000.0;
      minY := -1.0;
      maxY := 1.0;
      logX := 0;
      logY := 0;
      granularityX := 1.0;
      granularityY := 1.0;
    }

    /** `transformX(x)` on the current axes. */
    function TransformX(x: real): real
      requires Valid()
      reads this
    {
      Scales().MapX(x)
    }

    /** The linear map of `transformY` on the current axes. */
    function LinearY(y: real): real
      requires Valid()
      reads this
    {
      Scales().LinearY(y)
    }

    /** `transformY(y)` on the current axes. */
    function TransformY(y: real): real
      requires Valid()
      reads this
    {
      Scales().MapY(y)
    }

    /** Scaled back by the axis span, each map gives the distance from the
        axis minimum: `x - minX` (log2 distances on a logarithmic x axis) and,
        measured from the top, `y - minY`. */
    lemma ScaledBack(x: real, y: real)
      requires Valid()
      ensures logX == 0 ==> TransformX(x) * (maxX - minX) == x - minX
      ensures logX != 0 ==> TransformX(x) * (kit.log2(maxX) - kit.log2(minX)) == kit.log2(1.0 + x) - kit.log2(minX)
      ensures (1.0 - LinearY(y)) * (maxY - minY) == y - minY
    {
    }

    /** Back from the unit square on the linear axes. */
    function UntransformX(u: real): real
      reads this
    {
      minX + u * (maxX - minX)
    }

    function UntransformY(v: real): real
      reads this
    {
      minY + (1.0 - v) * (maxY - minY)
    }

    /** On linear axes the maps are undone by `UntransformX`/`UntransformY`. */
    lemma LinearRoundTrip(x: real, y: real)
      requires Valid() && logX == 0 && logY == 0
      ensures UntransformX(TransformX(x)) == x
      ensures UntransformY(TransformY(y)) == y
    {
      var dx, dy := maxX - minX, maxY - minY;
      var qx, qy := (x - minX) / dx, (y - minY) / dy;
      QuotientScaledBack(x - minX, dx);
      QuotientScaledBack(y - minY, dy);
      assert TransformX(x) == qx;
      assert UntransformX(qx) == minX + qx * dx;
      assert TransformY(y) == 1.0 - qy;
      assert UntransformY(1.0 - qy) == minY + qy * dy;
    }

    /** On a linear x axis `minX` goes to 0, `maxX` to 1, and the map keeps order
        when `maxX` is above `minX`. */
    lemma TransformXLinear(x1: real, x2: real)
      requires Valid() && logX == 0
      ensures TransformX(minX) == 0.0 && TransformX(maxX) == 1.0
      ensures minX < maxX && x1 <= x2 ==> TransformX(x1) <= TransformX(x2)
    {
      var d := maxX - minX;
      assert TransformX(minX) == 0.0 / d;
      assert TransformX(maxX) == d / d;
      Cancel(1.0, d);
      if minX < maxX && x1 <= x2 {
        assert TransformX(x2) - TransformX(x1) == (x2 - x1) / d;
        NonNegativeQuotient(x2 - x1, d);
      }
    }

    /** On a linear y axis `minY` goes to 1 and `maxY` to 0: the screen axis is
        inverted, so a larger value is drawn higher when `maxY` is above `minY`. */
    lemma TransformYLinear(y1: real, y2: real)
      requires Valid() && logY == 0
      ensures TransformY(minY) == 1.0 && TransformY(maxY) == 0.0
      ensures minY < maxY && y1 <= y2 ==> TransformY(y1) >= TransformY(y2)
    {
      var d := maxY - minY;
      assert TransformY(minY) == 1.0 - 0.0 / d;
      assert TransformY(maxY) == 1.0 - d / d;
      Cancel(1.0, d);
      if minY < maxY && y1 <= y2 {
        assert TransformY(y1) - TransformY(y2) == (y2 - y1) / d;
        NonNegativeQuotient(y2 - y1, d);
      }
    }

    /** `transformPoints(points)` as a value: even slots through `TransformX`,
        odd slots through `TransformY`. The loop runs to points.length / 2, so the
        last x of an odd-length buffer is mapped too. */
    function Transformed(points: seq<real>): (r: seq<real>)
      requires Valid()
      reads this
      ensures |r| == |points|
    {
      Scales().Mapped(points)
    }

    /** `transformPoints(points)`. */
    method TransformPoints(points: seq<real>) returns (result: seq<real>)
      requires Valid()
      ensures result == Transformed(points)
    {
      result := MapPoints(Scales(), points);
    }

    /** The plotted points of a buffer sampled at `sampleRate` (default: its
        length): point i is (TransformX(i · sampleRate / n), TransformY(samples[i])). */
    function SamplePoints(samples: seq<real>, sampleRate: Option<real>): (r: seq<real>)
      requires Valid()
      reads this
      ensures |r| == 2 * |samples|
    {
      Scales().Sampled(samples, sampleRate.GetOr(|samples| as real))
    }

    /** With the default rate the x input of point i is i itself. */
    lemma DefaultRateIsIndex(samples: seq<real>, i: nat)
      requires Valid() && i < |samples|
      ensures SamplePoints(samples, None)[2 * i] == TransformX(i as real)
      ensures SamplePoints(samples, None)[2 * i + 1] == TransformY(samples[i])
    {
      var n := |samples| as real;
      assert (2 * i) / 2 == i && (2 * i + 1) / 2 == i;
      assert SamplePoints(samples, None)[2 * i] == TransformX(SampleX(i, n, |samples|));
      Cancel(i as real, n);
      assert SampleX(i, n, |samples|) == i as real;
      assert SamplePoints(samples, None)[2 * i + 1] == TransformY(samples[(2 * i + 1) / 2]);
    }

    /** `samplesToPoints(samples, sampleRate?)`. */
    method SamplesToPoints(samples: seq<real>, sampleRate: Option<real>) returns (points: seq<real>)
      requires Valid()
      ensures points == SamplePoints(samples, sampleRate)
    {
      points := MapSamples(Scales(), samples, sampleRate.GetOr(|samples| as real));
    }
  }
}
