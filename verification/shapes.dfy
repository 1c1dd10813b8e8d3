/** Per-example shape rules of the Keras layers `DM.build` uses
    (`doc2vec/model/dm.py`). A shape leaves out the batch axis, so Keras's
    `axis=1` is axis 0 here. */
module Shapes {
  import opened Wrappers
  import Slots

  type Shape = seq<nat>

  datatype ShapeError =
    | ConcatMismatch(left: Shape, right: Shape)
    | UnevenSplit(length: nat, pieces: nat)
    | TooFewMergeInputs(count: nat)
    | MergeMismatch
    | SqueezeNotOne(shape: Shape)
    | DenseOnScalar

  /** `Embedding(input_dim, output_dim)` applied to an input of shape
      `input`: each index becomes a vector of `outputDim` numbers. */
  function EmbeddingShape(input: Shape, outputDim: nat): (r: Shape)
    ensures |r| == |input| + 1 && r[..|input|] == input && r[|input|] == outputDim
  {
    input + [outputDim]
  }

  /** `Concatenate(axis=1)`: ranks and all other axes must agree; the
      first axis adds up. */
  function ConcatShape(a: Shape, b: Shape): (r: Result<Shape, ShapeError>)
    ensures r.Success? <==> |a| > 0 && |b| > 0 && a[1..] == b[1..]
    ensures r.Success? ==> |r.value| == |a| && r.value[0] == a[0] + b[0] && r.value[1..] == a[1..]
  {
    if |a| == 0 || |b| == 0 || a[1..] != b[1..] then Failure(ConcatMismatch(a, b))
    else Success([a[0] + b[0]] + a[1..])
  }

  /** `tf.split(tensor, n, axis=1)`: `n` equal pieces along the first axis,
      which must be a multiple of `n`. */
  function SplitShape(s: Shape, n: nat): (r: Result<seq<Shape>, ShapeError>)
    ensures r.Success? <==> |s| > 0 && n > 0 && s[0] % n == 0
    ensures r.Success? ==>
              |r.value| == n && forall i | 0 <= i < n :: r.value[i] == [s[0] / n] + s[1..]
  {
    if |s| == 0 || n == 0 || s[0] % n != 0 then Failure(UnevenSplit(if |s| == 0 then 0 else s[0], n))
    else Success(seq(n, _ => [s[0] / n] + s[1..]))
  }

  /** The shape rule agrees with splitting actual slots: for a sequence of
      `s[0]` slots, `Slots.Split` succeeds exactly when `SplitShape` does,
      and each piece has as many slots as its shape's first axis says. */
  lemma SplitShapeMatchesSlots<T>(xs: seq<T>, rest: Shape, n: nat)
    ensures SplitShape([|xs|] + rest, n).Success? <==> Slots.Split(xs, n).Success?
    ensures Slots.Split(xs, n).Success? ==>
              forall i | 0 <= i < n :: |Slots.Split(xs, n).value[i]| == SplitShape([|xs|] + rest, n).value[i][0]
  {
  }

  /** `Average()` on the equal-shaped pieces `build` passes it: a merge
      layer needs at least two inputs and keeps their common shape. Keras
      also accepts shapes that broadcast against each other; this rule
      refuses any mismatch. */
  function AverageShape(shapes: seq<Shape>): (r: Result<Shape, ShapeError>)
    ensures r.Success? <==> |shapes| >= 2 && forall i | 0 <= i < |shapes| :: shapes[i] == shapes[0]
    ensures r.Success? ==> r.value == shapes[0]
    ensures |shapes| < 2 ==> r == Failure(TooFewMergeInputs(|shapes|))
  {
    if |shapes| < 2 then Failure(TooFewMergeInputs(|shapes|))
    else if exists i | 0 <= i < |shapes| :: shapes[i] != shapes[0] then Failure(MergeMismatch)
    else Success(shapes[0])
  }

  /** `tf.squeeze(tensor, axis=1)`: the first axis must have size 1 and is
      removed. */
  function SqueezeShape(s: Shape): (r: Result<Shape, ShapeError>)
    ensures r.Success? <==> |s| > 0 && s[0] == 1
    ensures r.Success? ==> [1] + r.value == s
  {
    if |s| == 0 || s[0] != 1 then Failure(SqueezeNotOne(s)) else Success(s[1..])
  }

  /** `Dense(units)`: the last axis becomes `units`. */
  function DenseShape(s: Shape, units: nat): (r: Result<Shape, ShapeError>)
    ensures r.Success? <==> |s| > 0
    ensures r.Success? ==> |r.value| == |s| && r.value[..|s| - 1] == s[..|s| - 1] && r.value[|s| - 1] == units
  {
    if |s| == 0 then Failure(DenseOnScalar) else Success(s[..|s| - 1] + [units])
  }
}
