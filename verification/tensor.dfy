/** The few tensor primitives the network and the trainer use, on nested
    sequences of reals: `max(dim=1)`, rows of `eye` and their selection, `norm` over the
    last axis, and `view` (flatten and reshape). */
module Tensor {
  import opened Errors

  /** Index of a largest entry of a non-empty row, as `torch.max(·, 1)` returns
      for each row. Which maximum is chosen among equal ones is not part of the
      contract. */
  function ArgMax(row: seq<real>): (k: nat)
    requires |row| > 0
    ensures k < |row|
    ensures forall j :: 0 <= j < |row| ==> row[j] <= row[k]
  {
    if |row| == 1 then 0
    else
      var k' := ArgMax(row[..|row| - 1]);
      if row[|row| - 1] > row[k'] then |row| - 1 else k'
  }

  /** A row whose entry `k` is strictly larger than every other has `k` as its
      only maximiser, so any tie-breaking rule returns it. */
  lemma ArgMaxOfStrictMax(row: seq<real>, k: nat)
    requires k < |row|
    requires forall j :: 0 <= j < |row| && j != k ==> row[j] < row[k]
    ensures ArgMax(row) == k
  {
  }

  /** `torch.max(scores, 1)[1]`: the index of a largest score in every row. */
  function ArgMaxRows(rows: seq<seq<real>>): (idx: seq<nat>)
    requires forall b :: 0 <= b < |rows| ==> |rows[b]| > 0
    ensures |idx| == |rows|
    ensures forall b :: 0 <= b < |rows| ==> idx[b] < |rows[b]|
    ensures forall b :: 0 <= b < |rows| ==> forall k :: 0 <= k < |rows[b]| ==> rows[b][k] <= rows[b][idx[b]]
  {
    seq(|rows|, b requires 0 <= b < |rows| => ArgMax(rows[b]))
  }

  /** Row `i` of `torch.eye(n)`. */
  function IdentityRow(n: nat, i: nat): (row: seq<real>)
    ensures |row| == n
  {
    seq(n, j => if i == j then 1.0 else 0.0)
  }

  /** The position Python-style indexing `x[i]` reaches on an axis of length
      `n`: negative indices count from the end; anything outside [-n, n) is an
      IndexError. */
  function WrapIndex(i: int, n: nat): (r: Option<nat>)
    ensures r.Some? <==> -(n as int) <= i < n
    ensures r.Some? ==> r.value < n && (r.value == i || r.value == i + n)
  {
    if 0 <= i < n then Some(i)
    else if -(n as int) <= i < 0 then Some(i + n)
    else None
  }

  predicate InRange(labels: seq<int>, n: nat)
  {
    forall b :: 0 <= b < |labels| ==> -(n as int) <= labels[b] < n
  }

  /** The slot every in-range label reaches. */
  function Wrapped(labels: seq<int>, n: nat): (slots: seq<nat>)
    requires InRange(labels, n)
    ensures |slots| == |labels|
    ensures forall b :: 0 <= b < |labels| ==> slots[b] < n
  {
    seq(|labels|, b requires 0 <= b < |labels| => WrapIndex(labels[b], n).value)
  }

  /** `eye[labels]`: one-hot encoding of a batch of labels by selecting rows of
      the identity; fails with IndexError as soon as one label is out of range. */
  function OneHot(n: nat, labels: seq<int>): (r: Result<seq<seq<real>>>)
    ensures r.Ok? <==> InRange(labels, n)
    ensures r.Err? ==> r.error == IndexError
    ensures r.Ok? ==> |r.value| == |labels|
    ensures r.Ok? ==> forall b :: 0 <= b < |labels| ==> |r.value[b]| == n
    ensures r.Ok? ==> forall b, k :: 0 <= b < |labels| && 0 <= k < n ==>
              r.value[b][k] == if k == Wrapped(labels, n)[b] then 1.0 else 0.0
  {
    if InRange(labels, n) then
      var slots := Wrapped(labels, n);
      Ok(seq(|labels|, b requires 0 <= b < |labels| => IdentityRow(n, slots[b])))
    else
      Err(IndexError)
  }

  /** Encoding labels one-hot and decoding them again by argmax gives back every
      label in [0, n) unchanged, and a negative label as the slot it indexes. */
  lemma {:induction false} OneHotRoundTrip(n: nat, labels: seq<int>)
    requires InRange(labels, n)
    ensures OneHot(n, labels).Ok?
    ensures forall b :: 0 <= b < |labels| ==> |OneHot(n, labels).value[b]| > 0
    ensures ArgMaxRows(OneHot(n, labels).value) == Wrapped(labels, n)
    ensures forall b :: 0 <= b < |labels| && 0 <= labels[b] ==> ArgMaxRows(OneHot(n, labels).value)[b] == labels[b]
  {
    var rows := OneHot(n, labels).value;
    var slots := Wrapped(labels, n);
    forall b | 0 <= b < |labels|
      ensures ArgMax(rows[b]) == slots[b]
    {
      ArgMaxOfStrictMax(rows[b], slots[b]);
    }
  }

  /** Sum of squares of a vector; its norm is the non-negative root of it. */
  function SumSq(v: seq<real>): (r: real)
    ensures r >= 0.0
  {
    if v == [] then 0.0 else SumSq(v[..|v| - 1]) + v[|v| - 1] * v[|v| - 1]
  }

  /** `x` is `torch.norm(v)`: the Euclidean length of `v`. */
  predicate IsNorm(x: real, v: seq<real>)
  {
    x >= 0.0 && x * x == SumSq(v)
  }

  /** `view(·, -1)` of one sample: the rows laid end to end. */
  function Flatten(rows: seq<seq<real>>): seq<real>
  {
    if rows == [] then [] else rows[0] + Flatten(rows[1..])
  }

  lemma {:induction false} FlattenLength(rows: seq<seq<real>>, w: nat)
    requires forall k :: 0 <= k < |rows| ==> |rows[k]| == w
    ensures |Flatten(rows)| == |rows| * w
  {
    if rows != [] {
      FlattenLength(rows[1..], w);
      assert |rows| * w == w + (|rows| - 1) * w;
    }
  }

  /** Every row of width `w` lands at offset `k * w` of the flattened vector. */
  lemma {:induction false} FlattenAt(rows: seq<seq<real>>, w: nat, k: nat, d: nat)
    requires forall j :: 0 <= j < |rows| ==> |rows[j]| == w
    requires k < |rows| && d < w
    ensures k * w + d < |Flatten(rows)|
    ensures Flatten(rows)[k * w + d] == rows[k][d]
  {
    FlattenLength(rows, w);
    if k > 0 {
      FlattenAt(rows[1..], w, k - 1, d);
      FlattenLength(rows[1..], w);
      assert k * w + d == w + ((k - 1) * w + d);
    }
  }

  /** `count` consecutive slices of width `w`, the inverse of Flatten. */
  function Chunks(flat: seq<real>, count: nat, w: nat): (rows: seq<seq<real>>)
    requires |flat| == count * w
    ensures |rows| == count
    ensures forall k :: 0 <= k < count ==> |rows[k]| == w
    decreases count
  {
    if count == 0 then []
    else
      assert |flat| == w + (count - 1) * w;
      [flat[..w]] + Chunks(flat[w..], count - 1, w)
  }

  lemma {:induction false} FlattenChunks(flat: seq<real>, count: nat, w: nat)
    requires |flat| == count * w
    ensures Flatten(Chunks(flat, count, w)) == flat
    decreases count
  {
    if count > 0 {
      assert |flat| == w + (count - 1) * w;
      FlattenChunks(flat[w..], count - 1, w);
      assert Chunks(flat, count, w)[1..] == Chunks(flat[w..], count - 1, w);
    }
  }
}
