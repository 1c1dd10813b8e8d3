/** The slot bookkeeping of the "distributed memory" fusion in `DM.build`
    (`doc2vec/model/dm.py`), over generic slots instead of float vectors:
    the embedded document and the embedded window are concatenated along
    the sequence axis and `tf.split` cuts the result back into pieces. */
module Slots {
  import opened Wrappers

  datatype SplitError = UnevenSplit(length: nat, pieces: nat)

  /** Concatenation of a list of pieces, in order. */
  function Flatten<T>(pieces: seq<seq<T>>): (r: seq<T>)
    decreases |pieces|
  {
    if |pieces| == 0 then [] else pieces[0] + Flatten(pieces[1..])
  }

  /** `xs` cut into `count` consecutive pieces of `size` slots each. */
  function Chunks<T>(xs: seq<T>, size: nat, count: nat): (r: seq<seq<T>>)
    requires |xs| == count * size
    ensures |r| == count
    ensures forall i | 0 <= i < count :: |r[i]| == size
    ensures Flatten(r) == xs
    decreases count
  {
    if count == 0 then []
    else
      assert |xs| == (count - 1) * size + size;
      var r := [xs[..size]] + Chunks(xs[size..], size, count - 1);
      assert r[1..] == Chunks(xs[size..], size, count - 1);
      r
  }

  /** `tf.split(tensor, n, axis=1)` along the slot axis: `n` pieces of equal
      length in order, or an error when the length is not a multiple of
      `n`. Concatenating the pieces restores the input. */
  function Split<T>(xs: seq<T>, n: nat): (r: Result<seq<seq<T>>, SplitError>)
    ensures r.Success? <==> n > 0 && |xs| % n == 0
    ensures r.Failure? ==> r.error == UnevenSplit(|xs|, n)
    ensures r.Success? ==> |r.value| == n
    ensures r.Success? ==> forall i | 0 <= i < n :: |r.value[i]| == |xs| / n
    ensures r.Success? ==> Flatten(r.value) == xs
  {
    if n == 0 || |xs| % n != 0 then Failure(UnevenSplit(|xs|, n))
    else
      var size := |xs| / n;
      assert |xs| == n * size;
      Success(Chunks(xs, size, n))
  }

  /** The fused sequence of `build`: the document slot first, then the
      window slots in order. */
  function Concatenate<T>(doc: T, window: seq<T>): (r: seq<T>)
    ensures |r| == |window| + 1
    ensures r[0] == doc && r[1..] == window
  {
    [doc] + window
  }

  /** Splitting the fused sequence into `window_size + 1` pieces succeeds
      and yields one single-slot piece per input: piece 0 holds the
      document, piece `i + 1` holds window slot `i`. */
  lemma FusionPieces<T>(doc: T, window: seq<T>)
    ensures Split(Concatenate(doc, window), |window| + 1).Success?
    ensures var pieces := Split(Concatenate(doc, window), |window| + 1).value;
      && |pieces| == |window| + 1
      && pieces[0] == [doc]
      && forall i | 0 <= i < |window| :: pieces[i + 1] == [window[i]]
  {
    var fused := Concatenate(doc, window);
    var n := |window| + 1;
    assert |fused| / n == 1;
    var pieces := Split(fused, n).value;
    SingletonPieces(fused, pieces);
  }

  /** Pieces of one slot each, that concatenate to `xs`, are its slots. */
  lemma {:induction false} SingletonPieces<T>(xs: seq<T>, pieces: seq<seq<T>>)
    requires |pieces| == |xs|
    requires forall i | 0 <= i < |pieces| :: |pieces[i]| == 1
    requires Flatten(pieces) == xs
    ensures forall i | 0 <= i < |xs| :: pieces[i] == [xs[i]]
    decreases |xs|
  {
    if |xs| > 0 {
      assert pieces[0] == [xs[0]];
      SingletonPieces(xs[1..], pieces[1..]);
      forall i | 0 <= i < |xs| ensures pieces[i] == [xs[i]] {
        if i > 0 {
          assert pieces[1..][i - 1] == pieces[i];
        }
      }
    }
  }
}
