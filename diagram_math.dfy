/**
  Plot preparation: the SVG path of a point list and the bucketed min/max/average
  decimation of an interleaved (x, y) buffer whose x lies in [0, 1).
*/
module DiagramMath {
  import opened Wrappers
  import opened Numerics

  // ---------------------------------------------------------------------------
  // pointsToPath

  /** One segment of an SVG path: "M x,y" or "L x,y". */
  datatype PathCommand = MoveTo(x: real, y: real) | LineTo(x: real, y: real)

  /** `new Array(points.length / 2)` with a fractional length. */
  const InvalidArrayLength := "Invalid array length"

  /** The path of an interleaved point buffer scaled to `width` × `height`: the
      first point is moved to, every later one is drawn to. */
  function PathOf(points: seq<real>, width: real, height: real): (path: seq<PathCommand>)
    requires |points| % 2 == 0
    ensures |path| == |points| / 2
  {
    seq(|points| / 2, i requires 0 <= i < |points| / 2 =>
      if i == 0 then MoveTo(points[2 * i] * width, points[2 * i + 1] * height)
      else LineTo(points[2 * i] * width, points[2 * i + 1] * height))
  }

  /** The point buffer a path draws, divided back by the scale. */
  function Unscaled(path: seq<PathCommand>, width: real, height: real): (points: seq<real>)
    requires width != 0.0 && height != 0.0
    ensures |points| == 2 * |path|
  {
    seq(2 * |path|, k requires 0 <= k < 2 * |path| =>
      if k % 2 == 0 then path[k / 2].x / width else path[k / 2].y / height)
  }

  /** A path starts with its only move and draws every later point, and with a
      non-degenerate scale it gives back exactly the points it was made from. */
  lemma PathRoundTrip(points: seq<real>, width: real, height: real)
    requires |points| % 2 == 0 && width != 0.0 && height != 0.0
    ensures var path := PathOf(points, width, height);
      && (forall i :: 0 <= i < |path| ==> (path[i].MoveTo? <==> i == 0))
      && Unscaled(path, width, height) == points
  {
    var path := PathOf(points, width, height);
    forall k | 0 <= k < |points|
      ensures Unscaled(path, width, height)[k] == points[k]
    {
      if k % 2 == 0 {
        assert 2 * (k / 2) == k;
        assert path[k / 2].x == points[k] * width;
      } else {
        assert 2 * (k / 2) + 1 == k;
        assert path[k / 2].y == points[k] * height;
      }
    }
  }

  /** `pointsToPath(points, width, height)`: the segments before they are joined
      with spaces; an odd-length buffer makes the array allocation throw. */
  method PointsToPath(points: seq<real>, width: real, height: real) returns (r: Result<seq<PathCommand>>)
    ensures |points| % 2 == 1 <==> r.Err?
    ensures r.Err? ==> r.message == InvalidArrayLength
    ensures r.Ok? ==> r.value == PathOf(points, width, height)
  {
    if |points| % 2 == 1 {
      return Err(InvalidArrayLength);
    }
    var result := new PathCommand[|points| / 2](_ => MoveTo(0.0, 0.0));
    for i := 0 to result.Length
      invariant forall j :: 0 <= j < i ==> result[j] == PathOf(points, width, height)[j]
    {
      if i == 0 {
        result[i] := MoveTo(points[i * 2 + 0] * width, points[i * 2 + 1] * height);
      } else {
        result[i] := LineTo(points[i * 2 + 0] * width, points[i * 2 + 1] * height);
      }
    }
    r := Ok(result[..]);
  }

  // ---------------------------------------------------------------------------
  // decimatePoints: the specification

  /** The (x, y) pairs of an interleaved buffer. */
  function Pairs(samples: seq<real>): (ps: seq<(real, real)>)
    requires |samples| % 2 == 0
    ensures |ps| == |samples| / 2
  {
    seq(|samples| / 2, i requires 0 <= i < |samples| / 2 => (samples[2 * i], samples[2 * i + 1]))
  }

  /** Only points with 0 <= x < 1 are counted. */
  predicate Counted(x: real)
  {
    0.0 <= x < 1.0
  }

  /** The bucket of a counted point: floor(x · points). */
  function BucketIndex(x: real, points: nat): (b: nat)
    requires Counted(x) && points > 0
    ensures b < points
  {
    var v := x * points as real;
    assert 0.0 <= v < points as real by {
      assert points as real - v == (1.0 - x) * points as real;
    }
    v.Floor
  }

  predicate InBucket(x: real, points: nat, b: nat)
  {
    points > 0 && Counted(x) && BucketIndex(x, points) == b
  }

  /** One bucket of the three accumulators: `min` and `max` hold (x, y) of the
      extreme point so far (y starts at +∞ and -∞), `avg` holds x = b / points
      and the running sum of y, and the count. */
  datatype Bucket = Bucket(minX: Extended, minY: Extended, maxX: Extended, maxY: Extended, avgX: real, sum: real, count: nat)

  function Initial(b: nat, points: nat): Bucket
    requires points > 0
  {
    var x := b as real / points as real;
    Bucket(Finite(x), PosInf, Finite(x), NegInf, x, 0.0, 0)
  }

  /** A point added to its bucket: the minimum moves only to a strictly smaller
      y, the maximum only to a strictly larger one. */
  function Add(bk: Bucket, x: real, y: real): Bucket
  {
    var bk1 := if bk.minY.Above(y) then bk.(minX := Finite(x), minY := Finite(y)) else bk;
    var bk2 := if bk1.maxY.Below(y) then bk1.(maxX := Finite(x), maxY := Finite(y)) else bk1;
    bk2.(sum := bk2.sum + y, count := bk2.count + 1)
  }

  /** The buckets after the given pairs, added in order. */
  function Bucketed(pairs: seq<(real, real)>, points: nat): (bs: seq<Bucket>)
    requires points > 0
    ensures |bs| == points
  {
    if pairs == [] then seq(points, b requires 0 <= b < points => Initial(b, points))
    else
      var bs := Bucketed(pairs[..|pairs| - 1], points);
      var x, y := pairs[|pairs| - 1].0, pairs[|pairs| - 1].1;
      if Counted(x) then
        var b := BucketIndex(x, points);
        bs[b := Add(bs[b], x, y)]
      else bs
  }

  /** The indices of the buckets that received a point. */
  function NonEmpty(bs: seq<Bucket>): (ks: seq<nat>)
    ensures |ks| <= |bs|
  {
    if bs == [] then []
    else
      var init := NonEmpty(bs[..|bs| - 1]);
      init + (if bs[|bs| - 1].count > 0 then [|bs| - 1] else [])
  }

  /** The survivors are exactly the non-empty buckets, in increasing order. */
  lemma NonEmptyBuckets(bs: seq<Bucket>)
    ensures forall k :: 0 <= k < |NonEmpty(bs)| ==> NonEmpty(bs)[k] < |bs| && bs[NonEmpty(bs)[k]].count > 0
    ensures forall k, l :: 0 <= k < l < |NonEmpty(bs)| ==> NonEmpty(bs)[k] < NonEmpty(bs)[l]
    ensures forall b :: 0 <= b < |bs| && bs[b].count > 0 ==> b in NonEmpty(bs)
  {
    NonEmptySurvivors(bs);
    NonEmptyIncreasing(bs);
    NonEmptyComplete(bs);
  }

  /** Every survivor is a non-empty bucket. */
  lemma {:induction false} NonEmptySurvivors(bs: seq<Bucket>)
    ensures forall k :: 0 <= k < |NonEmpty(bs)| ==> NonEmpty(bs)[k] < |bs| && bs[NonEmpty(bs)[k]].count > 0
  {
    if bs != [] {
      var init := bs[..|bs| - 1];
      NonEmptySurvivors(init);
      forall k | 0 <= k < |NonEmpty(init)|
        ensures bs[NonEmpty(init)[k]] == init[NonEmpty(init)[k]]
      {
      }
    }
  }

  /** The survivors come in increasing bucket order. */
  lemma {:induction false} NonEmptyIncreasing(bs: seq<Bucket>)
    ensures forall k, l :: 0 <= k < l < |NonEmpty(bs)| ==> NonEmpty(bs)[k] < NonEmpty(bs)[l]
  {
    if bs != [] {
      var init := bs[..|bs| - 1];
      NonEmptyIncreasing(init);
      NonEmptySurvivors(init);
    }
  }

  /** Every non-empty bucket survives. */
  lemma {:induction false} NonEmptyComplete(bs: seq<Bucket>)
    ensures forall b :: 0 <= b < |bs| && bs[b].count > 0 ==> b in NonEmpty(bs)
  {
    if bs != [] {
      var init := bs[..|bs| - 1];
      NonEmptyComplete(init);
      assert forall b :: 0 <= b < |init| ==> init[b] == bs[b];
    }
  }

  /** The three outputs of a decimation. */
  datatype Decimation = Decimation(min: seq<Extended>, max: seq<Extended>, avg: seq<real>)

  /** The non-empty buckets side by side, in bucket order: (x, y) of their
      minimum, of their maximum, and (b / points, sum / count). */
  function Compacted(bs: seq<Bucket>): (d: Decimation)
    ensures |d.min| == |d.max| == |d.avg| == 2 * |NonEmpty(bs)|
  {
    if bs == [] then Decimation([], [], [])
    else
      var d := Compacted(bs[..|bs| - 1]);
      var bk := bs[|bs| - 1];
      if bk.count > 0 then
        Decimation(d.min + [bk.minX, bk.minY], d.max + [bk.maxX, bk.maxY], d.avg + [bk.avgX, bk.sum / bk.count as real])
      else d
  }

  /** Entry `k` of a decimation is the `k`-th non-empty bucket. */
  lemma {:induction false} CompactedEntries(bs: seq<Bucket>, k: nat)
    requires k < |NonEmpty(bs)| && NonEmpty(bs)[k] < |bs| && bs[NonEmpty(bs)[k]].count > 0
    ensures var d := Compacted(bs);
      var bk := bs[NonEmpty(bs)[k]];
      && d.min[2 * k] == bk.minX && d.min[2 * k + 1] == bk.minY
      && d.max[2 * k] == bk.maxX && d.max[2 * k + 1] == bk.maxY
      && d.avg[2 * k] == bk.avgX && d.avg[2 * k + 1] == bk.sum / bk.count as real
  {
    var init := bs[..|bs| - 1];
    var ks := NonEmpty(init);
    if k < |ks| {
      NonEmptyBuckets(init);
      CompactedEntries(init, k);
      assert NonEmpty(bs)[k] == ks[k];
    } else {
      assert NonEmpty(bs)[k] == |bs| - 1;
    }
  }

  /** `decimatePoints(samples, points)`. An empty input gives three empty
      buffers; with no buckets every write falls outside the buffers and the
      result is empty as well. */
  function Decimated(samples: seq<real>, points: nat): Decimation
    requires |samples| % 2 == 0
  {
    if |samples| == 0 || points == 0 then Decimation([], [], [])
    else Compacted(Bucketed(Pairs(samples), points))
  }

  // ---------------------------------------------------------------------------
  // decimatePoints: what a bucket holds

  /** The y values of the pairs in bucket `b`, in order. */
  function Members(pairs: seq<(real, real)>, points: nat, b: nat): (ys: seq<real>)
    ensures |ys| <= |pairs|
  {
    if pairs == [] then []
    else
      var p := pairs[|pairs| - 1];
      Members(pairs[..|pairs| - 1], points, b) + (if InBucket(p.0, points, b) then [p.1] else [])
  }

  /** A bucket counts and sums exactly its members, and keeps x = b / points. */
  lemma {:induction false} BucketTotals(pairs: seq<(real, real)>, points: nat, b: nat)
    requires points > 0 && b < points
    ensures var bk := Bucketed(pairs, points)[b];
      && bk.count == |Members(pairs, points, b)|
      && bk.sum == Sum(Members(pairs, points, b))
      && bk.avgX == b as real / points as real
  {
    if pairs != [] {
      var init := pairs[..|pairs| - 1];
      BucketTotals(init, points, b);
      var p := pairs[|pairs| - 1];
      var ms := Members(init, points, b);
      if InBucket(p.0, points, b) {
        assert (ms + [p.1])[..|ms|] == ms;
      } else {
        assert ms + [] == ms;
      }
    }
  }

  /** Pair `j` is the first point of bucket `b` with the smallest y. */
  predicate FirstMinimum(pairs: seq<(real, real)>, points: nat, b: nat, j: nat)
  {
    && j < |pairs| && InBucket(pairs[j].0, points, b)
    && (forall k :: 0 <= k < |pairs| && InBucket(pairs[k].0, points, b) ==> pairs[j].1 <= pairs[k].1)
    && (forall k :: 0 <= k < j && InBucket(pairs[k].0, points, b) ==> pairs[j].1 < pairs[k].1)
  }

  /** Pair `j` is the first point of bucket `b` with the largest y. */
  predicate FirstMaximum(pairs: seq<(real, real)>, points: nat, b: nat, j: nat)
  {
    && j < |pairs| && InBucket(pairs[j].0, points, b)
    && (forall k :: 0 <= k < |pairs| && InBucket(pairs[k].0, points, b) ==> pairs[j].1 >= pairs[k].1)
    && (forall k :: 0 <= k < j && InBucket(pairs[k].0, points, b) ==> pairs[j].1 > pairs[k].1)
  }

  predicate Empty(pairs: seq<(real, real)>, points: nat, b: nat)
  {
    forall k :: 0 <= k < |pairs| ==> !InBucket(pairs[k].0, points, b)
  }

  /** `bk` holds the minimum of bucket `b` over `pairs`: +∞ at x = b / points
      while the bucket is empty, and otherwise the first of its points with the
      smallest y. */
  ghost predicate MinimumOf(pairs: seq<(real, real)>, points: nat, b: nat, bk: Bucket)
    requires points > 0
  {
    && (Empty(pairs, points, b) ==> bk.minY == PosInf && bk.minX == Finite(b as real / points as real))
    && (!Empty(pairs, points, b) ==>
          bk.minX.Finite? && bk.minY.Finite?
          && exists j: nat :: FirstMinimum(pairs, points, b, j) && pairs[j] == (bk.minX.value, bk.minY.value))
  }

  /** `bk` holds the maximum of bucket `b` over `pairs`: -∞ at x = b / points
      while the bucket is empty, and otherwise the first of its points with the
      largest y. */
  ghost predicate MaximumOf(pairs: seq<(real, real)>, points: nat, b: nat, bk: Bucket)
    requires points > 0
  {
    && (Empty(pairs, points, b) ==> bk.maxY == NegInf && bk.maxX == Finite(b as real / points as real))
    && (!Empty(pairs, points, b) ==>
          bk.maxX.Finite? && bk.maxY.Finite?
          && exists j: nat :: FirstMaximum(pairs, points, b, j) && pairs[j] == (bk.maxX.value, bk.maxY.value))
  }

  /** Every bucket holds the minimum and the maximum of its points. */
  lemma {:induction false} BucketExtremes(pairs: seq<(real, real)>, points: nat, b: nat)
    requires points > 0 && b < points
    ensures MinimumOf(pairs, points, b, Bucketed(pairs, points)[b])
    ensures MaximumOf(pairs, points, b, Bucketed(pairs, points)[b])
  {
    if pairs != [] {
      var init := pairs[..|pairs| - 1];
      var bk := Bucketed(init, points)[b];
      var p := pairs[|pairs| - 1];
      BucketExtremes(init, points, b);
      BucketedLast(pairs, points, b);
      if InBucket(p.0, points, b) {
        MinimumAdded(pairs, points, b, bk);
        MaximumAdded(pairs, points, b, bk);
      } else {
        ExtremesSkipped(pairs, points, b, bk);
      }
    } else {
      assert Empty(pairs, points, b);
    }
  }

  /** The last pair changes bucket `b` only when it falls into it. */
  lemma BucketedLast(pairs: seq<(real, real)>, points: nat, b: nat)
    requires points > 0 && b < points && pairs != []
    ensures var bk := Bucketed(pairs[..|pairs| - 1], points)[b];
      var p := pairs[|pairs| - 1];
      Bucketed(pairs, points)[b] == if InBucket(p.0, points, b) then Add(bk, p.0, p.1) else bk
  {
  }

  /** A point outside bucket `b` leaves its extremes as they were. */
  lemma ExtremesSkipped(pairs: seq<(real, real)>, points: nat, b: nat, bk: Bucket)
    requires points > 0 && pairs != []
    requires !InBucket(pairs[|pairs| - 1].0, points, b)
    requires MinimumOf(pairs[..|pairs| - 1], points, b, bk) && MaximumOf(pairs[..|pairs| - 1], points, b, bk)
    ensures MinimumOf(pairs, points, b, bk) && MaximumOf(pairs, points, b, bk)
  {
    var init := pairs[..|pairs| - 1];
    assert forall k :: 0 <= k < |init| ==> init[k] == pairs[k];
    assert Empty(pairs, points, b) <==> Empty(init, points, b);
    if !Empty(init, points, b) {
      var j: nat :| FirstMinimum(init, points, b, j) && init[j] == (bk.minX.value, bk.minY.value);
      assert FirstMinimum(pairs, points, b, j);
      var j': nat :| FirstMaximum(init, points, b, j') && init[j'] == (bk.maxX.value, bk.maxY.value);
      assert FirstMaximum(pairs, points, b, j');
    }
  }

  /** A point of bucket `b` becomes its minimum exactly when it is strictly below it. */
  lemma MinimumAdded(pairs: seq<(real, real)>, points: nat, b: nat, bk: Bucket)
    requires points > 0 && pairs != []
    requires InBucket(pairs[|pairs| - 1].0, points, b)
    requires MinimumOf(pairs[..|pairs| - 1], points, b, bk)
    ensures MinimumOf(pairs, points, b, Add(bk, pairs[|pairs| - 1].0, pairs[|pairs| - 1].1))
  {
    var n := |pairs| - 1;
    var init := pairs[..n];
    var p := pairs[n];
    var nb := Add(bk, p.0, p.1);
    assert forall k :: 0 <= k < n ==> init[k] == pairs[k];
    assert !Empty(pairs, points, b);
    if Empty(init, points, b) {
      assert nb.minX == Finite(p.0) && nb.minY == Finite(p.1);
      assert FirstMinimum(pairs, points, b, n);
    } else {
      var j: nat :| FirstMinimum(init, points, b, j) && init[j] == (bk.minX.value, bk.minY.value);
      if p.1 < bk.minY.value {
        assert nb.minX == Finite(p.0) && nb.minY == Finite(p.1);
        assert FirstMinimum(pairs, points, b, n);
      } else {
        assert nb.minX == bk.minX && nb.minY == bk.minY;
        assert FirstMinimum(pairs, points, b, j);
      }
    }
  }

  /** A point of bucket `b` becomes its maximum exactly when it is strictly above it. */
  lemma MaximumAdded(pairs: seq<(real, real)>, points: nat, b: nat, bk: Bucket)
    requires points > 0 && pairs != []
    requires InBucket(pairs[|pairs| - 1].0, points, b)
    requires MaximumOf(pairs[..|pairs| - 1], points, b, bk)
    ensures MaximumOf(pairs, points, b, Add(bk, pairs[|pairs| - 1].0, pairs[|pairs| - 1].1))
  {
    var n := |pairs| - 1;
    var init := pairs[..n];
    var p := pairs[n];
    var nb := Add(bk, p.0, p.1);
    assert forall k :: 0 <= k < n ==> init[k] == pairs[k];
    assert !Empty(pairs, points, b);
    if Empty(init, points, b) {
      assert nb.maxX == Finite(p.0) && nb.maxY == Finite(p.1);
      assert FirstMaximum(pairs, points, b, n);
    } else {
      var j: nat :| FirstMaximum(init, points, b, j) && init[j] == (bk.maxX.value, bk.maxY.value);
      if p.1 > bk.maxY.value {
        assert nb.maxX == Finite(p.0) && nb.maxY == Finite(p.1);
        assert FirstMaximum(pairs, points, b, n);
      } else {
        assert nb.maxX == bk.maxX && nb.maxY == bk.maxY;
        assert FirstMaximum(pairs, points, b, j);
      }
    }
  }

  /** An empty bucket has no members. */
  lemma {:induction false} EmptyHasNoMembers(pairs: seq<(real, real)>, points: nat, b: nat)
    requires Empty(pairs, points, b)
    ensures Members(pairs, points, b) == []
  {
    if pairs != [] {
      var init := pairs[..|pairs| - 1];
      assert forall k :: 0 <= k < |init| ==> init[k] == pairs[k];
      EmptyHasNoMembers(init, points, b);
    }
  }

  /** Entry `k` of the decimation of a non-empty input: the `k`-th non-empty
      bucket `b`, in increasing order, whose `min` entry is the first of its
      points with the smallest y, whose `max` entry the first with the largest
      y, and whose `avg` entry is (b / points, mean of its y values). */
  lemma DecimatedEntry(samples: seq<real>, points: nat, k: nat)
    requires |samples| % 2 == 0 && |samples| > 0 && points > 0
    requires 2 * k < |Decimated(samples, points).min|
    ensures var pairs := Pairs(samples);
      var ks := NonEmpty(Bucketed(pairs, points));
      var d := Decimated(samples, points);
      var b := ks[k];
      var ys := Members(pairs, points, b);
      && b < points && (k > 0 ==> ks[k - 1] < b) && |ys| > 0
      && d.min[2 * k].Finite? && d.min[2 * k + 1].Finite?
      && (exists j: nat :: FirstMinimum(pairs, points, b, j) && pairs[j] == (d.min[2 * k].value, d.min[2 * k + 1].value))
      && d.max[2 * k].Finite? && d.max[2 * k + 1].Finite?
      && (exists j: nat :: FirstMaximum(pairs, points, b, j) && pairs[j] == (d.max[2 * k].value, d.max[2 * k + 1].value))
      && d.avg[2 * k] == b as real / points as real
      && d.avg[2 * k + 1] == Sum(ys) / |ys| as real
  {
    var pairs := Pairs(samples);
    var bs := Bucketed(pairs, points);
    var ks := NonEmpty(bs);
    NonEmptyBuckets(bs);
    var b := ks[k];
    CompactedEntries(bs, k);
    BucketTotals(pairs, points, b);
    BucketExtremes(pairs, points, b);
    if Empty(pairs, points, b) {
      EmptyHasNoMembers(pairs, points, b);
    }
  }

  // ---------------------------------------------------------------------------
  // decimatePoints: the loops

  /** Bucket `b` as the four typed arrays hold it. */
  function BucketAt(minS: seq<Extended>, maxS: seq<Extended>, avgS: seq<real>, countS: seq<nat>, b: nat): Bucket
    requires 2 * b + 1 < |minS| && 2 * b + 1 < |maxS| && 2 * b + 1 < |avgS| && b < |countS|
  {
    Bucket(minS[2 * b], minS[2 * b + 1], maxS[2 * b], maxS[2 * b + 1], avgS[2 * b], avgS[2 * b + 1], countS[b])
  }

  /** All buckets as the arrays hold them. */
  function BucketsAt(minS: seq<Extended>, maxS: seq<Extended>, avgS: seq<real>, countS: seq<nat>, points: nat): (bs: seq<Bucket>)
    requires |minS| == |maxS| == |avgS| == 2 * points && |countS| == points
    ensures |bs| == points && forall b :: 0 <= b < points ==> bs[b] == BucketAt(minS, maxS, avgS, countS, b)
  {
    seq(points, b requires 0 <= b < points => BucketAt(minS, maxS, avgS, countS, b))
  }

  /** The first loop: every bucket at its initial value. */
  method NewBuckets(points: nat) returns (min: array<Extended>, max: array<Extended>, avg: array<real>, count: array<nat>)
    requires points > 0
    ensures fresh(min) && fresh(max) && fresh(avg) && fresh(count) && min != max
    ensures min.Length == max.Length == avg.Length == 2 * points && count.Length == points
    ensures BucketsAt(min[..], max[..], avg[..], count[..], points) == Bucketed([], points)
  {
    min := new Extended[points * 2](_ => PosInf);
    max := new Extended[points * 2](_ => NegInf);
    avg := new real[points * 2](_ => 0.0);
    count := new nat[points](_ => 0);
    for i := 0 to points
      invariant forall b :: 0 <= b < i ==> BucketAt(min[..], max[..], avg[..], count[..], b) == Initial(b, points)
    {
      ghost var min0, max0, avg0, count0 := min[..], max[..], avg[..], count[..];
      var x := i as real / points as real;
      SetPair(min, i, Finite(x), PosInf);
      SetPair(max, i, Finite(x), NegInf);
      SetPair(avg, i, x, 0.0);
      count[i] := 0;
      InitStep(min0, max0, avg0, count0, points, i, min[..], max[..], avg[..], count[..]);
    }
  }

  /** Writes the x and y slots of pair `i`. The first loop interleaves these
      writes across the three arrays; grouping them per array leaves the same
      contents, since the arrays are distinct. */
  method SetPair<T>(a: array<T>, i: nat, x: T, y: T)
    requires 2 * i + 1 < a.Length
    modifies a
    ensures a[..] == old(a[..])[2 * i := x][2 * i + 1 := y]
  {
    a[i * 2 + 0] := x;
    a[i * 2 + 1] := y;
  }

  /** One round of the first loop: bucket `i` is written with its initial
      value and the buckets before it are untouched. */
  lemma InitStep(min0: seq<Extended>, max0: seq<Extended>, avg0: seq<real>, count0: seq<nat>, points: nat, i: nat,
                 min1: seq<Extended>, max1: seq<Extended>, avg1: seq<real>, count1: seq<nat>)
    requires i < points && |min0| == |max0| == |avg0| == 2 * points && |count0| == points
    requires forall b :: 0 <= b < i ==> BucketAt(min0, max0, avg0, count0, b) == Initial(b, points)
    requires min1 == min0[2 * i := Finite(i as real / points as real)][2 * i + 1 := PosInf]
    requires max1 == max0[2 * i := Finite(i as real / points as real)][2 * i + 1 := NegInf]
    requires avg1 == avg0[2 * i := i as real / points as real][2 * i + 1 := 0.0]
    requires count1 == count0[i := 0]
    ensures forall b :: 0 <= b <= i ==> BucketAt(min1, max1, avg1, count1, b) == Initial(b, points)
  {
    forall b | 0 <= b <= i
      ensures BucketAt(min1, max1, avg1, count1, b) == Initial(b, points)
    {
      if b < i {
        assert BucketAt(min1, max1, avg1, count1, b) == BucketAt(min0, max0, avg0, count0, b);
      }
    }
  }


  /** The accumulation step for one counted point. */
  method AddPoint(min: array<Extended>, max: array<Extended>, avg: array<real>, count: array<nat>,
                  points: nat, bucket: nat, x: real, y: real)
    requires min.Length == max.Length == avg.Length == 2 * points && count.Length == points && bucket < points
    requires min != max
    modifies min, max, avg, count
    ensures BucketsAt(min[..], max[..], avg[..], count[..], points)
         == old(var bs := BucketsAt(min[..], max[..], avg[..], count[..], points); bs[bucket := Add(bs[bucket], x, y)])
  {
    ghost var min0, max0, avg0, count0 := min[..], max[..], avg[..], count[..];
    if min[bucket * 2 + 1].Above(y) {
      SetPair(min, bucket, Finite(x), Finite(y));
    }
    if max[bucket * 2 + 1].Below(y) {
      SetPair(max, bucket, Finite(x), Finite(y));
    }
    avg[bucket * 2 + 1] := avg[bucket * 2 + 1] + y;
    count[bucket] := count[bucket] + 1;
    AddStep(min0, max0, avg0, count0, points, bucket, x, y, min[..], max[..], avg[..], count[..]);
  }

  /** The writes of one accumulation step, on the arrays' contents: bucket
      `bucket` becomes `Add` of itself and every other bucket is kept. */
  lemma AddStep(min0: seq<Extended>, max0: seq<Extended>, avg0: seq<real>, count0: seq<nat>,
                points: nat, bucket: nat, x: real, y: real,
                min1: seq<Extended>, max1: seq<Extended>, avg1: seq<real>, count1: seq<nat>)
    requires |min0| == |max0| == |avg0| == 2 * points && |count0| == points && bucket < points
    requires min1 == if min0[2 * bucket + 1].Above(y) then min0[2 * bucket := Finite(x)][2 * bucket + 1 := Finite(y)] else min0
    requires max1 == if max0[2 * bucket + 1].Below(y) then max0[2 * bucket := Finite(x)][2 * bucket + 1 := Finite(y)] else max0
    requires avg1 == avg0[2 * bucket + 1 := avg0[2 * bucket + 1] + y]
    requires count1 == count0[bucket := count0[bucket] + 1]
    ensures BucketsAt(min1, max1, avg1, count1, points)
         == BucketsAt(min0, max0, avg0, count0, points)[bucket := Add(BucketsAt(min0, max0, avg0, count0, points)[bucket], x, y)]
  {
    var before := BucketsAt(min0, max0, avg0, count0, points);
    var after := BucketsAt(min1, max1, avg1, count1, points);
    forall c | 0 <= c < points
      ensures after[c] == before[bucket := Add(before[bucket], x, y)][c]
    {
      assert after[c] == BucketAt(min1, max1, avg1, count1, c);
      assert before[c] == BucketAt(min0, max0, avg0, count0, c);
    }
  }


  /** The second loop: every counted pair added to its bucket, in order. */
  method Accumulate(samples: seq<real>, points: nat,
                    min: array<Extended>, max: array<Extended>, avg: array<real>, count: array<nat>)
    requires |samples| % 2 == 0 && points > 0
    requires min.Length == max.Length == avg.Length == 2 * points && count.Length == points && min != max
    requires BucketsAt(min[..], max[..], avg[..], count[..], points) == Bucketed([], points)
    modifies min, max, avg, count
    ensures BucketsAt(min[..], max[..], avg[..], count[..], points) == Bucketed(Pairs(samples), points)
  {
    ghost var pairs := Pairs(samples);
    assert pairs[..0] == [];
    for i := 0 to |samples| / 2
      invariant BucketsAt(min[..], max[..], avg[..], count[..], points) == Bucketed(pairs[..i], points)
    {
      assert pairs[..i + 1][..i] == pairs[..i];
      var x := samples[i * 2 + 0];
      var y := samples[i * 2 + 1];
      if x < 0.0 || x >= 1.0 {
        continue;
      }
      var bucket := BucketIndex(x, points);
      AddPoint(min, max, avg, count, points, bucket, x, y);
    }
    assert pairs[..|samples| / 2] == pairs;
  }

  /** One move of the third loop: bucket `from` written to slot `to`, its
      average's y divided by its count. */
  method MoveBucket(min: array<Extended>, max: array<Extended>, avg: array<real>, count: array<nat>, from: nat, to: nat)
    requires min.Length == max.Length == avg.Length == 2 * count.Length && min != max
    requires to <= from < count.Length && count[from] > 0
    modifies min, max, avg
    ensures min[..] == old(min[..])[2 * to := old(min[..])[2 * from]][2 * to + 1 := old(min[..])[2 * from + 1]]
    ensures max[..] == old(max[..])[2 * to := old(max[..])[2 * from]][2 * to + 1 := old(max[..])[2 * from + 1]]
    ensures avg[..] == old(avg[..])[2 * to := old(avg[..])[2 * from]][2 * to + 1 := old(avg[..])[2 * from + 1] / count[from] as real]
  {
    min[to * 2 + 0] := min[from * 2 + 0];
    min[to * 2 + 1] := min[from * 2 + 1];
    max[to * 2 + 0] := max[from * 2 + 0];
    max[to * 2 + 1] := max[from * 2 + 1];
    avg[to * 2 + 0] := avg[from * 2 + 0];
    avg[to * 2 + 1] := avg[from * 2 + 1] / count[from] as real;
  }

  /** A suffix that starts two slots later is the tail of the longer one. */
  lemma SuffixKept<T>(s: seq<T>, s0: seq<T>, i: nat)
    requires |s| == |s0| && 2 * i + 1 < |s| && s[2 * i..] == s0[2 * i..]
    ensures s[2 * i + 2..] == s0[2 * i + 2..] && s[2 * i] == s0[2 * i] && s[2 * i + 1] == s0[2 * i + 1]
  {
    assert s[2 * i + 2..] == s[2 * i..][2..];
    assert s0[2 * i + 2..] == s0[2 * i..][2..];
    assert s[2 * i] == s[2 * i..][0] && s[2 * i + 1] == s[2 * i..][1];
    assert s0[2 * i] == s0[2 * i..][0] && s0[2 * i + 1] == s0[2 * i..][1];
  }

  /** What the third loop keeps after `i` buckets: the first `n` survivors are
      compacted to the front and every slot of bucket `i` on is as it was. */
  predicate Compacting(minS: seq<Extended>, maxS: seq<Extended>, avgS: seq<real>,
                       min0: seq<Extended>, max0: seq<Extended>, avg0: seq<real>, bs: seq<Bucket>, i: nat, n: nat)
  {
    && n <= i <= |bs| && |minS| == |maxS| == |avgS| == |min0| == |max0| == |avg0| == 2 * |bs|
    && Decimation(minS[..2 * n], maxS[..2 * n], avgS[..2 * n]) == Compacted(bs[..i])
    && minS[2 * i..] == min0[2 * i..] && maxS[2 * i..] == max0[2 * i..] && avgS[2 * i..] == avg0[2 * i..]
  }

  /** One iteration of the third loop keeps `Compacting`. */
  lemma CompactStep(minS: seq<Extended>, maxS: seq<Extended>, avgS: seq<real>, countS: seq<nat>,
                    min0: seq<Extended>, max0: seq<Extended>, avg0: seq<real>, bs: seq<Bucket>, i: nat, n: nat)
    requires Compacting(minS, maxS, avgS, min0, max0, avg0, bs, i, n) && i < |bs| && |countS| == |bs|
    requires bs == BucketsAt(min0, max0, avg0, countS, |bs|)
    ensures countS[i] == 0 ==> Compacting(minS, maxS, avgS, min0, max0, avg0, bs, i + 1, n)
    ensures countS[i] > 0 ==> Compacting(
      minS[2 * n := minS[2 * i]][2 * n + 1 := minS[2 * i + 1]],
      maxS[2 * n := maxS[2 * i]][2 * n + 1 := maxS[2 * i + 1]],
      avgS[2 * n := avgS[2 * i]][2 * n + 1 := avgS[2 * i + 1] / countS[i] as real],
      min0, max0, avg0, bs, i + 1, n + 1)
  {
    assert bs[..i + 1][..i] == bs[..i];
    SuffixKept(minS, min0, i);
    SuffixKept(maxS, max0, i);
    SuffixKept(avgS, avg0, i);
    if countS[i] > 0 {
      CompactKeep(minS, maxS, avgS, countS, min0, max0, avg0, bs, i, n);
    }
  }

  /** A non-empty bucket is moved to slot pair `n`, its average's y divided by
      its count. */
  lemma CompactKeep(minS: seq<Extended>, maxS: seq<Extended>, avgS: seq<real>, countS: seq<nat>,
                    min0: seq<Extended>, max0: seq<Extended>, avg0: seq<real>, bs: seq<Bucket>, i: nat, n: nat)
    requires Compacting(minS, maxS, avgS, min0, max0, avg0, bs, i, n) && i < |bs| && |countS| == |bs|
    requires bs == BucketsAt(min0, max0, avg0, countS, |bs|)
    requires countS[i] > 0
    requires minS[2 * i + 2..] == min0[2 * i + 2..] && minS[2 * i] == min0[2 * i] && minS[2 * i + 1] == min0[2 * i + 1]
    requires maxS[2 * i + 2..] == max0[2 * i + 2..] && maxS[2 * i] == max0[2 * i] && maxS[2 * i + 1] == max0[2 * i + 1]
    requires avgS[2 * i + 2..] == avg0[2 * i + 2..] && avgS[2 * i] == avg0[2 * i] && avgS[2 * i + 1] == avg0[2 * i + 1]
    ensures Compacting(
      minS[2 * n := minS[2 * i]][2 * n + 1 := minS[2 * i + 1]],
      maxS[2 * n := maxS[2 * i]][2 * n + 1 := maxS[2 * i + 1]],
      avgS[2 * n := avgS[2 * i]][2 * n + 1 := avgS[2 * i + 1] / countS[i] as real],
      min0, max0, avg0, bs, i + 1, n + 1)
  {
    MovePair(minS, min0, n, i, minS[2 * i], minS[2 * i + 1]);
    MovePair(maxS, max0, n, i, maxS[2 * i], maxS[2 * i + 1]);
    MovePair(avgS, avg0, n, i, avgS[2 * i], avgS[2 * i + 1] / countS[i] as real);
    assert bs[i] == BucketAt(min0, max0, avg0, countS, i);
    CompactedKeeps(bs, i);
  }

  /** Moving pair `i` of `s` to pair `n`: the first `n + 1` pairs are the
      earlier `n` and the moved one, and what follows pair `i` is untouched. */
  lemma MovePair<T>(s: seq<T>, s0: seq<T>, n: nat, i: nat, a: T, b: T)
    requires n <= i && 2 * i + 1 < |s| && |s| == |s0| && s[2 * i..] == s0[2 * i..]
    ensures s[2 * n := a][2 * n + 1 := b][..2 * (n + 1)] == s[..2 * n] + [a, b]
    ensures s[2 * n := a][2 * n + 1 := b][2 * (i + 1)..] == s0[2 * (i + 1)..]
  {
    SuffixKept(s, s0, i);
    var t := s[2 * n := a][2 * n + 1 := b];
    assert t[..2 * n + 2] == s[..2 * n] + [a, b];
    assert t[2 * i + 2..] == s[2 * i + 2..];
  }

  /** A non-empty bucket adds its pair to the compacted prefix. */
  lemma CompactedKeeps(bs: seq<Bucket>, i: nat)
    requires i < |bs| && bs[i].count > 0
    ensures Compacted(bs[..i + 1]) == Decimation(
      Compacted(bs[..i]).min + [bs[i].minX, bs[i].minY],
      Compacted(bs[..i]).max + [bs[i].maxX, bs[i].maxY],
      Compacted(bs[..i]).avg + [bs[i].avgX, bs[i].sum / bs[i].count as real])
  {
    assert bs[..i + 1][..i] == bs[..i];
  }



  /** The third loop: the non-empty buckets moved to the front in place, the
      average's y divided by the count; returns how many there are. */
  method Compact(min: array<Extended>, max: array<Extended>, avg: array<real>, count: array<nat>, points: nat)
    returns (n: nat)
    requires min.Length == max.Length == avg.Length == 2 * points && count.Length == points && min != max
    modifies min, max, avg
    ensures 2 * n <= min.Length
    ensures Decimation(min[..2 * n], max[..2 * n], avg[..2 * n])
         == Compacted(old(BucketsAt(min[..], max[..], avg[..], count[..], points)))
  {
    ghost var bs := BucketsAt(min[..], max[..], avg[..], count[..], points);
    ghost var min0, max0, avg0 := min[..], max[..], avg[..];
    n := 0;
    assert bs[..0] == [];
    for i := 0 to count.Length
      invariant Compacting(min[..], max[..], avg[..], min0, max0, avg0, bs, i, n)
    {
      ghost var minS, maxS, avgS := min[..], max[..], avg[..];
      CompactStep(minS, maxS, avgS, count[..], min0, max0, avg0, bs, i, n);
      if count[i] > 0 {
        MoveBucket(min, max, avg, count, i, n);
        n := n + 1;
      }
    }
    assert bs[..points] == bs;
  }

  /** `decimatePoints(samples, points)`: fill every bucket, accumulate the
      counted points, then move the non-empty buckets to the front. */
  method DecimatePoints(samples: seq<real>, points: nat) returns (d: Decimation)
    requires |samples| % 2 == 0
    ensures d == Decimated(samples, points)
  {
    if |samples| == 0 || points == 0 {
      return Decimation([], [], []);
    }
    var min, max, avg, count := NewBuckets(points);
    Accumulate(samples, points, min, max, avg, count);
    var n := Compact(min, max, avg, count, points);
    d := Decimation(min[..2 * n], max[..2 * n], avg[..2 * n]);
  }
}
