/** The embedding-snapshot period rule of `SaveDocEmbeddings.on_epoch_end`
    (`doc2vec/model/dm.py`): at the end of epoch `e` a snapshot is written
    iff `e % period == 0`. Path templating is not part of this model. */
module Snapshots {

  function Abs(x: int): nat {
    if x < 0 then -x else x
  }

  /** Python's `%`: the remainder takes the sign of the divisor. */
  function PyMod(a: int, b: int): (r: int)
    requires b != 0
    ensures b > 0 ==> 0 <= r < b
    ensures b < 0 ==> b < r <= 0
    ensures r == 0 <==> a % Abs(b) == 0
  {
    if b > 0 then a % b
    else
      var m := a % -b;
      if m == 0 then 0 else m + b
  }

  /** The snapshot hook fires at the end of `epoch` (counted from 0, as
      Keras passes it) exactly when the period's magnitude divides the
      epoch: a negative period behaves like its absolute value. */
  predicate Fires(epoch: nat, period: int)
    requires period != 0
    ensures Fires(epoch, period) <==> epoch % Abs(period) == 0
    ensures Fires(epoch, period) <==> PyMod(epoch, -period) == 0
  {
    PyMod(epoch, period) == 0
  }

  /** The epochs among `0 .. epochs - 1` at which a snapshot is written,
      in increasing order. */
  function SnapshotEpochs(epochs: nat, period: int): (r: seq<nat>)
    requires period != 0
    ensures forall e: nat :: e in r <==> e < epochs && Fires(e, period)
    ensures forall i, j | 0 <= i < j < |r| :: r[i] < r[j]
    ensures epochs > 0 ==> |r| > 0 && r[0] == 0
    decreases epochs
  {
    if epochs == 0 then []
    else
      var earlier := SnapshotEpochs(epochs - 1, period);
      assert forall i | 0 <= i < |earlier| :: earlier[i] < epochs - 1 by {
        forall i | 0 <= i < |earlier| ensures earlier[i] < epochs - 1 {
          assert earlier[i] in earlier;
        }
      }
      if Fires(epochs - 1, period) then earlier + [epochs - 1] else earlier
  }

  lemma MulMono(a: int, b: int, q: nat)
    ensures a <= b ==> a * q <= b * q
  {
    assert (b - a) * q == b * q - a * q;
  }

  lemma DivUnique(x: int, q: int, d: int)
    requires q > 0 && d * q <= x < d * q + q
    ensures x / q == d
  {
    var d' := x / q;
    assert d' * q <= x < d' * q + q;
    MulMono(d' + 1, d, q);
    MulMono(d + 1, d', q);
    assert (d' + 1) * q == d' * q + q;
    assert (d + 1) * q == d * q + q;
  }

  /** The number of period-long blocks needed to cover `n` epochs: one for
      each epoch index that is a multiple of the period. */
  function Blocks(n: int, q: nat): nat
    requires q > 0
    decreases n
  {
    if n <= 0 then 0 else 1 + Blocks(n - q, q)
  }

  /** One more epoch adds one block exactly when the new epoch index is a
      multiple of the period. */
  lemma {:induction false} BlocksStep(m: nat, q: nat)
    requires q > 0
    ensures Blocks(m + 1, q) == Blocks(m, q) + (if m % q == 0 then 1 else 0)
    decreases m
  {
    if m < q {
      DivUnique(m, q, 0);
      assert Blocks(m + 1 - q, q) == 0;
    } else {
      BlocksStep(m - q, q);
      var d := (m - q) / q;
      DivUnique(m, q, d + 1);
    }
  }

  /** The block count is the ceiling of `n / q`. */
  lemma {:induction false} BlocksIsCeiling(n: nat, q: nat)
    requires q > 0
    ensures Blocks(n, q) == (n + q - 1) / q
    decreases n
  {
    if n == 0 {
      DivUnique(q - 1, q, 0);
    } else if n <= q {
      assert Blocks(n - q, q) == 0;
      DivUnique(n + q - 1, q, 1);
    } else {
      BlocksIsCeiling(n - q, q);
      var d := (n - q + q - 1) / q;
      assert d * q <= n - 1 < d * q + q;
      DivUnique(n + q - 1, q, d + 1);
    }
  }

  /** Over a run of `epochs` epochs the snapshot fires once per block of
      `|period|` epochs, the last block possibly partial. */
  lemma {:induction false} SnapshotCount(epochs: nat, period: int)
    requires period != 0
    ensures |SnapshotEpochs(epochs, period)| == Blocks(epochs, Abs(period))
    decreases epochs
  {
    if epochs > 0 {
      SnapshotCount(epochs - 1, period);
      BlocksStep(epochs - 1, Abs(period));
    }
  }

  /** The closed form: `ceil(epochs / |period|)` snapshots. */
  lemma SnapshotCountCeiling(epochs: nat, period: int)
    requires period != 0
    ensures |SnapshotEpochs(epochs, period)| == (epochs + Abs(period) - 1) / Abs(period)
  {
    SnapshotCount(epochs, period);
    BlocksIsCeiling(epochs, Abs(period));
  }

  /** Twelve epochs with period 5 snapshot at epochs 0, 5 and 10. */
  lemma TwelveEpochsPeriodFive()
    ensures SnapshotEpochs(12, 5) == [0, 5, 10]
  {
    var r := SnapshotEpochs(12, 5);
    SnapshotCount(12, 5);
    assert |r| == 3;
    forall i | 0 <= i < 3 ensures r[i] == 0 || r[i] == 5 || r[i] == 10 {
      assert r[i] in r;
    }
    assert r[0] < r[1] < r[2];
  }
}
