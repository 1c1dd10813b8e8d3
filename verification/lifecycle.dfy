/** The `DM` object of `doc2vec/model/dm.py` as an immutable state: the
    four configuration values stored by the constructor and the Keras model,
    absent until `build` or `load` supplies one. Weights and numerics are
    abstract: a model is its layer shapes and its compile configuration,
    and the document-embedding table is represented by its shape. The file
    system is a map from path to the file last written there, a saved
    model or an embeddings file. */
module Lifecycle {
  import opened Wrappers
  import opened Shapes
  import opened Architecture
  import opened Hooks
  import Snapshots

  datatype Config = Config(windowSize: nat, vocabSize: nat, numDocs: nat, embeddingSize: nat)

  /** What `compile` may be given: an SGD optimizer object, or another
      optimizer named by its Keras identifier (such as "adam"). */
  datatype Optimizer =
    | Sgd(lr: real, momentum: real, nesterov: bool)
    | Supplied(name: string)

  /** Python truthiness of the `optimizer` argument: `None` and the empty
      name are false, every optimizer object is true. */
  predicate OptimizerTruthy(o: Option<Optimizer>) {
    o.Some? && (o.value.Supplied? ==> |o.value.name| > 0)
  }

  datatype CompileConfig = CompileConfig(optimizer: Optimizer, loss: string, metrics: seq<string>)

  datatype KerasModel = KerasModel(graph: Graph, compiled: Option<CompileConfig>)

  datatype Dm = Dm(config: Config, model: Option<KerasModel>)

  datatype DmError =
    | NoModel
    | NotCompiled
    | BuildFailed(cause: ShapeError)
    | NoSavedModel(path: string)
    | CallbackRejectsArguments

  /** The optimizer `compile` picks when none is passed. */
  const DefaultOptimizer: Optimizer := Sgd(0.001, 0.9, true)

  /** The dataset name under which embedding files hold the table. */
  const DocEmbeddingsDataset: string := "doc_embeddings"

  /** A file on disk: a model written by `save`, or an embeddings file
      holding one named dataset with the table's shape. */
  datatype StoredFile =
    | ModelFile(model: KerasModel)
    | EmbeddingFile(dataset: string, table: Shape)

  type Files = map<string, StoredFile>

  /** `fit_generator` as `train` calls it: the hooks, steps and epochs. */
  datatype FitCall = FitCall(hooks: seq<Hook>, stepsPerEpoch: int, epochs: int)

  /** `DM(window_size, vocab_size, num_docs, embedding_size=300)`. */
  function Init(windowSize: nat, vocabSize: nat, numDocs: nat, embeddingSize: nat := DefaultEmbeddingSize)
    : (dm: Dm)
    ensures dm.config.windowSize == windowSize && dm.config.vocabSize == vocabSize
    ensures dm.config.numDocs == numDocs && dm.config.embeddingSize == embeddingSize
    ensures dm.model.None?
  {
    Dm(Config(windowSize, vocabSize, numDocs, embeddingSize), None)
  }

  /** `build`: a fresh, uncompiled model from the stored configuration,
      replacing whatever model was there; the configuration is untouched. */
  function Build(dm: Dm): (r: Result<Dm, DmError>)
    ensures r.Success? <==> dm.config.windowSize >= 1
    ensures r.Failure? ==> r.error == BuildFailed(TooFewMergeInputs(1))
    ensures r.Success? ==> r.value.config == dm.config
    ensures r.Success? ==>
              && r.value.model.Some?
              && r.value.model.value.compiled.None?
              && r.value.model.value.graph.docTable == [dm.config.numDocs, dm.config.embeddingSize]
              && r.value.model.value.graph.wordTable == [dm.config.vocabSize, dm.config.embeddingSize]
              && r.value.model.value.graph.output == [dm.config.vocabSize]
  {
    var c := dm.config;
    match BuildGraph(c.windowSize, c.vocabSize, c.numDocs, c.embeddingSize)
    case Failure(e) => Failure(BuildFailed(e))
    case Success(g) => Success(Dm(c, Some(KerasModel(g, None))))
  }

  /** `compile(optimizer=None)`: attaches the given optimizer, or the
      default SGD when the argument is falsy, with categorical cross-entropy
      loss and categorical accuracy; fails when there is no model. Nothing
      else changes. */
  function Compile(dm: Dm, optimizer: Option<Optimizer>): (r: Result<Dm, DmError>)
    ensures r.Failure? <==> dm.model.None?
    ensures r.Failure? ==> r.error == NoModel
    ensures r.Success? ==>
              && r.value.config == dm.config
              && r.value.model.Some?
              && r.value.model.value.graph == dm.model.value.graph
    ensures r.Success? && OptimizerTruthy(optimizer) ==>
              r.value.model.value.compiled == Some(CompileConfig(optimizer.value, "categorical_crossentropy", ["categorical_accuracy"]))
    ensures r.Success? && !OptimizerTruthy(optimizer) ==>
              r.value.model.value.compiled == Some(CompileConfig(Sgd(0.001, 0.9, true), "categorical_crossentropy", ["categorical_accuracy"]))
  {
    match dm.model
    case None => Failure(NoModel)
    case Some(m) =>
      var chosen := if OptimizerTruthy(optimizer) then optimizer.value else DefaultOptimizer;
      Success(Dm(dm.config, Some(m.(compiled := Some(CompileConfig(chosen, "categorical_crossentropy", ["categorical_accuracy"]))))))
  }

  /** The `doc_embeddings` property: the document-embedding table of the
      current model; fails when there is no model. */
  function DocEmbeddings(dm: Dm): (r: Result<Shape, DmError>)
    ensures r.Failure? <==> dm.model.None?
    ensures r.Failure? ==> r.error == NoModel
    ensures r.Success? ==> r.value == dm.model.value.graph.docTable
  {
    match dm.model
    case None => Failure(NoModel)
    case Some(m) => Success(m.graph.docTable)
  }

  /** `train(generator, ...)`: hands the selected hooks, the steps per
      epoch and the epoch count to `fit_generator`; fails when there is no
      model, and when the model was never compiled. */
  function Train(dm: Dm, args: TrainArgs): (r: Result<FitCall, DmError>)
    ensures r.Failure? <==> dm.model.None? || dm.model.value.compiled.None?
    ensures dm.model.None? ==> r == Failure(NoModel)
    ensures dm.model.Some? && dm.model.value.compiled.None? ==> r == Failure(NotCompiled)
    ensures r.Success? ==>
              && r.value.stepsPerEpoch == args.stepsPerEpoch
              && r.value.epochs == args.epochs
              && r.value.hooks == SelectHooks(args)
  {
    match dm.model
    case None => Failure(NoModel)
    case Some(m) =>
      if m.compiled.None? then Failure(NotCompiled)
      else Success(FitCall(SelectHooks(args), args.stepsPerEpoch, args.epochs))
  }

  /** `train` as `dm.py` is written: `SaveDocEmbeddings` defines no
      constructor, and the one it inherits from Keras's `Callback` takes no
      arguments, so building the snapshot hook from a path and a period
      raises before any model is touched; every other call behaves as
      `Train`. */
  function TrainAsWritten(dm: Dm, args: TrainArgs): (r: Result<FitCall, DmError>)
    ensures StrTruthy(args.saveDocEmbeddingsPath) && IntTruthy(args.saveDocEmbeddingsPeriod) ==>
              r == Failure(CallbackRejectsArguments)
    ensures !(StrTruthy(args.saveDocEmbeddingsPath) && IntTruthy(args.saveDocEmbeddingsPeriod)) ==>
              r == Train(dm, args)
  {
    if StrTruthy(args.saveDocEmbeddingsPath) && IntTruthy(args.saveDocEmbeddingsPeriod)
    then Failure(CallbackRejectsArguments)
    else Train(dm, args)
  }

  /** As written, asking for embedding snapshots always raises, even on a
      built and compiled model that `Train` would fit with a snapshot hook:
      no snapshot is ever written. */
  lemma SnapshotRequestRaisesAsWritten(dm: Dm, path: string)
    requires dm.config.windowSize >= 1 && |path| > 0
    ensures var compiled := Compile(Build(dm).value, None).value;
      var args := TrainArgs(DefaultStepsPerEpoch, 12, None, None, None, Some(path), Some(5));
      && TrainAsWritten(compiled, args) == Failure(CallbackRejectsArguments)
      && Train(compiled, args).Success?
  {
  }

  /** `save(path)`: writes the whole model (graph and compile state) to
      `path`, replacing whatever file was there and leaving every other file
      as it was; fails without a model. */
  function Save(dm: Dm, path: string, files: Files): (r: Result<Files, DmError>)
    ensures r.Failure? <==> dm.model.None?
    ensures r.Failure? ==> r.error == NoModel
    ensures r.Success? ==> path in r.value && r.value[path] == ModelFile(dm.model.value)
    ensures r.Success? ==> forall p | p in files && p != path :: p in r.value && r.value[p] == files[p]
    ensures r.Success? ==> r.value.Keys == files.Keys + {path}
  {
    match dm.model
    case None => Failure(NoModel)
    case Some(m) => Success(files[path := ModelFile(m)])
  }

  /** `load(path)`: replaces the model wholesale with the one stored at
      `path`; fails when nothing is there or the file there holds no model.
      The configuration is NOT updated from the loaded model. */
  function Load(dm: Dm, path: string, files: Files): (r: Result<Dm, DmError>)
    ensures r.Failure? <==> path !in files || !files[path].ModelFile?
    ensures r.Failure? ==> r.error == NoSavedModel(path)
    ensures r.Success? ==> r.value.config == dm.config && r.value.model == Some(files[path].model)
  {
    if path in files && files[path].ModelFile? then Success(Dm(dm.config, Some(files[path].model)))
    else Failure(NoSavedModel(path))
  }

  /** `_write_doc_embeddings(table, path)`: one dataset named
      "doc_embeddings" holding the table. Opening with mode 'w' truncates,
      so whatever file was at `path` (a saved model included) is gone. */
  function WriteDocEmbeddings(table: Shape, path: string, files: Files): (r: Files)
    ensures path in r && r[path] == EmbeddingFile(DocEmbeddingsDataset, table)
    ensures forall p | p in files && p != path :: p in r && r[p] == files[p]
    ensures r.Keys == files.Keys + {path}
  {
    files[path := EmbeddingFile(DocEmbeddingsDataset, table)]
  }

  /** `save_doc_embeddings(path)`: writes the current document-embedding
      table; fails without a model. */
  function SaveDocEmbeddings(dm: Dm, path: string, files: Files): (r: Result<Files, DmError>)
    ensures r.Failure? <==> dm.model.None?
    ensures r.Failure? ==> r.error == NoModel
    ensures r.Success? ==>
              && path in r.value
              && r.value[path] == EmbeddingFile(DocEmbeddingsDataset, dm.model.value.graph.docTable)
              && forall p | p in files && p != path :: p in r.value && r.value[p] == files[p]
    ensures r.Success? ==> r.value.Keys == files.Keys + {path}
  {
    match DocEmbeddings(dm)
    case Failure(e) => Failure(e)
    case Success(table) => Success(WriteDocEmbeddings(table, path, files))
  }

  /** The epochs, among the first `epochsRun`, at whose end the snapshot
      hook of a `fit_generator` call (hooks as `train` selects them: in
      order, at most one of each kind, nonzero periods) writes the
      embeddings, one write per epoch in increasing order: none without a
      snapshot hook, otherwise those its period rule selects (so
      `Snapshots.SnapshotCount` gives their number). */
  function SnapshotWrites(call: FitCall, epochsRun: nat): (r: seq<nat>)
    requires forall i | 0 <= i < |call.hooks| && call.hooks[i].SaveDocEmbeddings? :: call.hooks[i].period != 0
    requires forall i, j | 0 <= i < j < |call.hooks| :: Rank(call.hooks[i]) < Rank(call.hooks[j])
    ensures (forall i | 0 <= i < |call.hooks| :: !call.hooks[i].SaveDocEmbeddings?) ==> r == []
    ensures forall i | 0 <= i < |call.hooks| && call.hooks[i].SaveDocEmbeddings? ::
              forall e: nat :: e in r <==> e < epochsRun && Snapshots.Fires(e, call.hooks[i].period)
    ensures forall i, j | 0 <= i < j < |r| :: r[i] < r[j]
  {
    if exists i | 0 <= i < |call.hooks| :: call.hooks[i].SaveDocEmbeddings? then
      var i :| 0 <= i < |call.hooks| && call.hooks[i].SaveDocEmbeddings?;
      assert forall j | 0 <= j < |call.hooks| && call.hooks[j].SaveDocEmbeddings? :: j == i by {
        AtMostOneSnapshotHook(call.hooks);
      }
      Snapshots.SnapshotEpochs(epochsRun, call.hooks[i].period)
    else []
  }

  /** A run of `epochsRun` epochs with a snapshot hook writes once per
      block of `|period|` epochs, the last block possibly partial. */
  lemma SnapshotWriteCount(call: FitCall, epochsRun: nat, i: int)
    requires forall k | 0 <= k < |call.hooks| && call.hooks[k].SaveDocEmbeddings? :: call.hooks[k].period != 0
    requires forall k, l | 0 <= k < l < |call.hooks| :: Rank(call.hooks[k]) < Rank(call.hooks[l])
    requires 0 <= i < |call.hooks| && call.hooks[i].SaveDocEmbeddings?
    ensures |SnapshotWrites(call, epochsRun)| == Snapshots.Blocks(epochsRun, Snapshots.Abs(call.hooks[i].period))
  {
    AtMostOneSnapshotHook(call.hooks);
    Snapshots.SnapshotCount(epochsRun, call.hooks[i].period);
  }

  lemma AtMostOneSnapshotHook(hooks: seq<Hook>)
    requires forall i, j | 0 <= i < j < |hooks| :: Rank(hooks[i]) < Rank(hooks[j])
    ensures forall i, j | 0 <= i < |hooks| && 0 <= j < |hooks| && hooks[i].SaveDocEmbeddings? && hooks[j].SaveDocEmbeddings? :: i == j
  {
  }

  /** A freshly constructed `DM` holds no model, so every operation that
      needs one fails. */
  lemma FreshDmNeedsModel(windowSize: nat, vocabSize: nat, numDocs: nat, embeddingSize: nat,
                          optimizer: Option<Optimizer>, args: TrainArgs, path: string,
                          files: Files)
    ensures var dm := Init(windowSize, vocabSize, numDocs, embeddingSize);
      && DocEmbeddings(dm) == Failure(NoModel)
      && Compile(dm, optimizer) == Failure(NoModel)
      && Train(dm, args) == Failure(NoModel)
      && Save(dm, path, files) == Failure(NoModel)
      && SaveDocEmbeddings(dm, path, files) == Failure(NoModel)
  {
  }

  /** `build` depends on the configuration alone: whatever model was there
      before (built, compiled, loaded or none) is discarded. */
  lemma BuildDiscardsPriorModel(dm: Dm, other: Dm)
    requires dm.config == other.config
    ensures Build(dm) == Build(other)
  {
  }

  /** Building twice, or building after compiling, gives the same fresh,
      uncompiled model as building once. */
  lemma RebuildIsFresh(dm: Dm, optimizer: Option<Optimizer>)
    requires Build(dm).Success?
    ensures Build(Build(dm).value) == Build(dm)
    ensures Build(Compile(Build(dm).value, optimizer).value) == Build(dm)
  {
  }

  /** Saving a model and loading it into any `DM` gives that `DM` the
      saved model, so its document embeddings equal the saved ones. */
  lemma SaveLoadRoundTrip(dm: Dm, other: Dm, path: string, files: Files)
    requires dm.model.Some?
    ensures Save(dm, path, files).Success?
    ensures Load(other, path, Save(dm, path, files).value) == Success(Dm(other.config, dm.model))
    ensures DocEmbeddings(Load(other, path, Save(dm, path, files).value).value) == DocEmbeddings(dm)
  {
  }

  /** `load` keeps the constructor's configuration even when the loaded
      model was built from different values: `DM(8, 100, 10)` loading a
      model built as `DM(4, 50, 20, 16)` reports 20 x 16 embeddings while
      its stored `num_docs` is still 10. */
  lemma LoadKeepsStaleConfig(path: string)
    ensures var saved := Build(Init(4, 50, 20, 16)).value;
      var loaded := Load(Init(8, 100, 10), path, Save(saved, path, map[]).value).value;
      && loaded.config == Config(8, 100, 10, 300)
      && DocEmbeddings(loaded) == Success([20, 16])
  {
  }

  /** A falsy optimizer (the empty name) selects the default SGD, exactly
      as passing none does. */
  lemma FalsyOptimizerIsDefault(dm: Dm)
    ensures Compile(dm, Some(Supplied(""))) == Compile(dm, None)
    ensures Compile(dm, None) == Compile(dm, Some(DefaultOptimizer))
  {
  }

  /** Compiling again replaces the earlier compile configuration: only the
      last `compile` call matters. */
  lemma RecompileReplaces(dm: Dm, first: Option<Optimizer>, second: Option<Optimizer>)
    requires dm.model.Some?
    ensures Compile(Compile(dm, first).value, second) == Compile(dm, second)
  {
  }

  /** Saving the embeddings to the path the model was saved to overwrites
      the model file, so loading from that path afterwards fails. */
  lemma EmbeddingsOverwriteModel(dm: Dm, other: Dm, path: string, files: Files)
    requires dm.model.Some?
    ensures var saved := Save(dm, path, files).value;
      var overwritten := SaveDocEmbeddings(dm, path, saved).value;
      Load(other, path, overwritten) == Failure(NoSavedModel(path))
  {
  }

  /** The document-embedding table is `num_docs x embedding_size` after
      `build` and after `compile`. */
  lemma DocEmbeddingsShape(dm: Dm, optimizer: Option<Optimizer>)
    requires dm.config.windowSize >= 1
    ensures DocEmbeddings(Build(dm).value) == Success([dm.config.numDocs, dm.config.embeddingSize])
    ensures DocEmbeddings(Compile(Build(dm).value, optimizer).value)
            == Success([dm.config.numDocs, dm.config.embeddingSize])
  {
  }

  /** The file `save_doc_embeddings` writes holds exactly the table
      `doc_embeddings` returns at the moment of the call. */
  lemma SavedEmbeddingsMatch(dm: Dm, path: string, files: Files)
    requires dm.model.Some?
    ensures SaveDocEmbeddings(dm, path, files).Success?
    ensures SaveDocEmbeddings(dm, path, files).value[path]
            == EmbeddingFile(DocEmbeddingsDataset, DocEmbeddings(dm).value)
  {
  }

  /** Training a built and compiled model for 12 epochs with an embedding
      snapshot every 5 epochs writes snapshots after epochs 0, 5 and 10. */
  lemma TwelveEpochSnapshots(dm: Dm, path: string)
    requires dm.config.windowSize >= 1 && |path| > 0
    ensures var compiled := Compile(Build(dm).value, None).value;
      var call := Train(compiled, TrainArgs(DefaultStepsPerEpoch, 12, None, None, None, Some(path), Some(5)));
      && call.Success?
      && call.value.hooks == [Hooks.SaveDocEmbeddings(path, 5)]
      && SnapshotWrites(call.value, 12) == [0, 5, 10]
  {
    var args := TrainArgs(DefaultStepsPerEpoch, 12, None, None, None, Some(path), Some(5));
    var hooks := SelectHooks(args);
    assert hooks == [Hooks.SaveDocEmbeddings(path, 5)];
    Snapshots.TwelveEpochsPeriodFive();
  }
}
