/** Buffer alignment and ragged averaging (src/lib/vector.ts). */
module Vector {
  import opened Numerics

  datatype CopyBehavior = AlwaysCopy | CopyIfNecessary

  /** What `resize` holds: the first `size` samples of `data`, zero past its end. */
  function Resized(data: seq<real>, size: nat): (r: seq<real>)
    ensures |r| == size
    ensures forall i :: 0 <= i < size && i < |data| ==> r[i] == data[i]
    ensures forall i :: |data| <= i < size ==> r[i] == 0.0
  {
    if size <= |data| then data[..size] else data + Zeros(size - |data|)
  }

  /** Resizing is the identity on a buffer of the requested size. */
  lemma ResizedSameSize(data: seq<real>)
    ensures Resized(data, |data|) == data
  {
  }

  /** Padding then cutting back returns the original buffer. */
  lemma ResizedRoundTrip(data: seq<real>, size: nat)
    requires size >= |data|
    ensures Resized(Resized(data, size), |data|) == data
  {
    assert Resized(Resized(data, size), |data|) == Resized(data, size)[..|data|];
  }

  /** `resize(data, size, copyBehavior)`: the same array when the size already
      matches and no copy is asked for, otherwise a new array with the resized
      contents. */
  method Resize(data: array<real>, size: nat, copyBehavior: CopyBehavior) returns (r: array<real>)
    ensures r[..] == Resized(data[..], size)
    ensures data.Length == size && copyBehavior == CopyIfNecessary ==> r == data
    ensures !(data.Length == size && copyBehavior == CopyIfNecessary) ==> fresh(r)
  {
    if data.Length == size {
      if copyBehavior == AlwaysCopy {
        r := new real[size](_ => 0.0);
        CopyInto(data, r, size);
      } else {
        r := data;
      }
    } else if size <= data.Length {
      // data.subarray(0, size): a copy here, see README "Left out"
      r := new real[size](_ => 0.0);
      CopyInto(data, r, size);
    } else {
      r := new real[size](_ => 0.0);
      CopyInto(data, r, data.Length);
    }
    assert r[..] == Resized(data[..], size);
  }

  /** The element copy loop of `resize`: `result[i] = data[i]` for `i < n`. */
  method CopyInto(data: array<real>, result: array<real>, n: nat)
    requires n <= data.Length && n <= result.Length && data != result
    modifies result
    ensures result[..n] == data[..n]
    ensures result[n..] == old(result[n..])
  {
    for i := 0 to n
      invariant result[..i] == data[..i]
      invariant result[n..] == old(result[n..])
    {
      result[i] := data[i];
    }
  }

  /** Sum of column `i` over the buffers long enough to have one. */
  function ColumnSum(data: seq<seq<real>>, i: nat): real
  {
    if |data| == 0 then 0.0
    else ColumnSum(data[..|data| - 1], i) + (if |data[|data| - 1]| > i then data[|data| - 1][i] else 0.0)
  }

  /** Number of buffers longer than `i`. */
  function ColumnCount(data: seq<seq<real>>, i: nat): (n: nat)
    ensures n <= |data|
  {
    if |data| == 0 then 0
    else ColumnCount(data[..|data| - 1], i) + (if |data[|data| - 1]| > i then 1 else 0)
  }

  /** Column `i` has a contributor exactly when it is inside the longest buffer. */
  lemma {:induction false} ColumnCountPositive(data: seq<seq<real>>, i: nat)
    ensures ColumnCount(data, i) > 0 <==> i < MaxLength(data)
  {
    if |data| > 0 {
      ColumnCountPositive(data[..|data| - 1], i);
    }
  }

  /** Buffers all longer than `i` each contribute their `i`-th sample. */
  lemma {:induction false} ColumnOfCopies(data: seq<seq<real>>, v: seq<real>, i: nat)
    requires i < |v|
    requires forall k :: 0 <= k < |data| ==> data[k] == v
    ensures ColumnCount(data, i) == |data|
    ensures ColumnSum(data, i) == |data| as real * v[i]
  {
    if |data| > 0 {
      ColumnOfCopies(data[..|data| - 1], v, i);
    }
  }

  /** The mean `vectorAverage` computes for column `i`: the mean over exactly the
      buffers that reach it. */
  function RaggedMean(data: seq<seq<real>>, i: nat): real
    requires ColumnCount(data, i) > 0
  {
    ColumnSum(data, i) / ColumnCount(data, i) as real
  }

  /** The buffer `vectorAverage` returns. */
  function Averaged(data: seq<seq<real>>): (r: seq<real>)
    ensures |r| == MaxLength(data)
  {
    seq(MaxLength(data), i requires 0 <= i < MaxLength(data) =>
      ColumnCountPositive(data, i); RaggedMean(data, i))
  }

  /** `vectorAverage(...data)`: one entry per column of the longest buffer, each
      the mean of that column over the buffers long enough to have it. */
  method VectorAverage(data: seq<seq<real>>) returns (r: seq<real>)
    ensures |r| == MaxLength(data)
    ensures forall i :: 0 <= i < |r| ==> ColumnCount(data, i) > 0 && r[i] == RaggedMean(data, i)
    ensures r == Averaged(data)
  {
    var result := new real[MaxLength(data)](_ => 0.0);
    for i := 0 to result.Length
      invariant forall j :: 0 <= j < i ==> ColumnCount(data, j) > 0 && result[j] == RaggedMean(data, j)
      invariant forall j :: i <= j < result.Length ==> result[j] == 0.0
    {
      var n := 0;
      ghost var before := result[..];
      for k := 0 to |data|
        invariant result[i] == ColumnSum(data[..k], i)
        invariant n == ColumnCount(data[..k], i)
        invariant forall j :: 0 <= j < result.Length && j != i ==> result[j] == before[j]
      {
        ColumnStep(data, k, i);
        if |data[k]| > i {
          result[i] := result[i] + data[k][i];
          n := n + 1;
        }
      }
      assert data[..|data|] == data;
      ColumnCountPositive(data, i);
      result[i] := result[i] / n as real;
    }
    r := result[..];
  }

  /** One more buffer adds its `i`-th sample, if it has one, to column `i`. */
  lemma ColumnStep(data: seq<seq<real>>, k: nat, i: nat)
    requires k < |data|
    ensures ColumnSum(data[..k + 1], i) == ColumnSum(data[..k], i) + (if |data[k]| > i then data[k][i] else 0.0)
    ensures ColumnCount(data[..k + 1], i) == ColumnCount(data[..k], i) + (if |data[k]| > i then 1 else 0)
  {
    assert data[..k + 1][..k] == data[..k];
  }

  lemma MeanOfMultiple(total: real, n: real, x: real)
    requires n > 0.0 && total == n * x
    ensures total / n == x
  {
  }

  /** Buffers that are all copies of `v` are `|v|` long at most. */
  lemma {:induction false} MaxLengthOfCopies(data: seq<seq<real>>, v: seq<real>)
    requires |data| > 0
    requires forall k :: 0 <= k < |data| ==> data[k] == v
    ensures MaxLength(data) == |v|
  {
    var k :| 0 <= k < |data| && |data[k]| == MaxLength(data);
  }

  /** Averaging several copies of one buffer returns that buffer. */
  lemma {:induction false} AverageOfCopies(data: seq<seq<real>>, v: seq<real>, i: nat)
    requires |data| > 0 && i < |v|
    requires forall k :: 0 <= k < |data| ==> data[k] == v
    ensures MaxLength(data) == |v|
    ensures ColumnCount(data, i) > 0 && RaggedMean(data, i) == v[i]
  {
    MaxLengthOfCopies(data, v);
    ColumnOfCopies(data, v, i);
    MeanOfMultiple(ColumnSum(data, i), ColumnCount(data, i) as real, v[i]);
  }
}
