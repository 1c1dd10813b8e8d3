/** Which epoch-end hooks `DM.train` (`doc2vec/model/dm.py`) installs,
    decided from its optional arguments by Python truthiness. */
module Hooks {
  import opened Wrappers

  const DefaultNumEpochs: int := 250
  const DefaultStepsPerEpoch: int := 10000

  /** The arguments of `train` after `generator`; `None` is `Option.None`. */
  datatype TrainArgs = TrainArgs(
    stepsPerEpoch: int,
    epochs: int,
    earlyStoppingPatience: Option<int>,
    savePath: Option<string>,
    savePeriod: Option<int>,
    saveDocEmbeddingsPath: Option<string>,
    saveDocEmbeddingsPeriod: Option<int>)

  /** `train(generator)` with every other argument left at its default. */
  function DefaultTrainArgs(): TrainArgs {
    TrainArgs(DefaultStepsPerEpoch, DefaultNumEpochs, None, None, None, None, None)
  }

  /** The quantity `train`'s early stopping watches. */
  const MonitoredQuantity: string := "loss"

  /** The three callbacks `train` may construct, with the arguments it
      passes to each. */
  datatype Hook =
    | EarlyStopping(monitor: string, patience: int)
    | ModelCheckpoint(path: string, period: int)
    | SaveDocEmbeddings(path: string, period: int)

  /** Python truthiness of an optional int: `None` and `0` are false. */
  predicate IntTruthy(o: Option<int>) {
    o.Some? && o.value != 0
  }

  /** Python truthiness of an optional string: `None` and `''` are false. */
  predicate StrTruthy(o: Option<string>) {
    o.Some? && |o.value| > 0
  }

  /** The position each kind of hook takes in the callback list. */
  function Rank(h: Hook): nat {
    match h
    case EarlyStopping(_, _) => 0
    case ModelCheckpoint(_, _) => 1
    case SaveDocEmbeddings(_, _) => 2
  }

  /** The callback list `train` passes to `fit_generator`: early stopping iff
      the patience is truthy, a checkpoint iff both `save_path` and
      `save_period` are truthy, a snapshot iff both snapshot arguments are
      truthy; each at most once, always in that order, carrying the
      arguments it was built from (early stopping watches the loss). */
  function SelectHooks(args: TrainArgs): (hooks: seq<Hook>)
    ensures (exists i | 0 <= i < |hooks| :: hooks[i].EarlyStopping?) <==> IntTruthy(args.earlyStoppingPatience)
    ensures (exists i | 0 <= i < |hooks| :: hooks[i].ModelCheckpoint?) <==>
              StrTruthy(args.savePath) && IntTruthy(args.savePeriod)
    ensures (exists i | 0 <= i < |hooks| :: hooks[i].SaveDocEmbeddings?) <==>
              StrTruthy(args.saveDocEmbeddingsPath) && IntTruthy(args.saveDocEmbeddingsPeriod)
    ensures forall i | 0 <= i < |hooks| && hooks[i].EarlyStopping? ::
              && IntTruthy(args.earlyStoppingPatience)
              && hooks[i] == EarlyStopping(MonitoredQuantity, args.earlyStoppingPatience.value)
    ensures forall i | 0 <= i < |hooks| && hooks[i].ModelCheckpoint? ::
              && StrTruthy(args.savePath) && IntTruthy(args.savePeriod)
              && hooks[i] == ModelCheckpoint(args.savePath.value, args.savePeriod.value)
    ensures forall i | 0 <= i < |hooks| && hooks[i].SaveDocEmbeddings? ::
              && StrTruthy(args.saveDocEmbeddingsPath) && IntTruthy(args.saveDocEmbeddingsPeriod)
              && hooks[i] == SaveDocEmbeddings(args.saveDocEmbeddingsPath.value, args.saveDocEmbeddingsPeriod.value)
    ensures forall i, j | 0 <= i < j < |hooks| :: Rank(hooks[i]) < Rank(hooks[j])
  {
    var early :=
      if IntTruthy(args.earlyStoppingPatience) then [EarlyStopping(MonitoredQuantity, args.earlyStoppingPatience.value)] else [];
    var checkpoint :=
      if StrTruthy(args.savePath) && IntTruthy(args.savePeriod)
      then [ModelCheckpoint(args.savePath.value, args.savePeriod.value)] else [];
    var snapshot :=
      if StrTruthy(args.saveDocEmbeddingsPath) && IntTruthy(args.saveDocEmbeddingsPeriod)
      then [SaveDocEmbeddings(args.saveDocEmbeddingsPath.value, args.saveDocEmbeddingsPeriod.value)] else [];
    var hooks := early + checkpoint + snapshot;
    assert IntTruthy(args.earlyStoppingPatience) ==> hooks[0] == early[0];
    assert |checkpoint| == 1 ==> hooks[|early|] == checkpoint[0];
    assert |snapshot| == 1 ==> hooks[|early| + |checkpoint|] == snapshot[0];
    hooks
  }

  /** With every option at its default nothing is installed. */
  lemma DefaultsInstallNothing()
    ensures SelectHooks(DefaultTrainArgs()) == []
  {
  }

  /** A zero patience, an empty path or a zero period switches its hook
      off just as `None` does. */
  lemma FalsyValuesInstallNothing(steps: int, epochs: int)
    ensures SelectHooks(TrainArgs(steps, epochs, Some(0), Some(""), Some(5), Some("emb.h5"), Some(0))) == []
  {
  }

  /** Everything set: the list is early stopping, checkpoint, snapshot. */
  lemma AllSetOrder(args: TrainArgs)
    requires IntTruthy(args.earlyStoppingPatience)
    requires StrTruthy(args.savePath) && IntTruthy(args.savePeriod)
    requires StrTruthy(args.saveDocEmbeddingsPath) && IntTruthy(args.saveDocEmbeddingsPeriod)
    ensures |SelectHooks(args)| == 3
    ensures SelectHooks(args)[0].EarlyStopping?
    ensures SelectHooks(args)[1].ModelCheckpoint?
    ensures SelectHooks(args)[2].SaveDocEmbeddings?
  {
  }
}
