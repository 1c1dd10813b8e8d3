# doc2vec (Distributed Memory) — a Dafny model of the corpus loader and the DM control logic

This project models the deterministic core of a small doc2vec trainer:

* **Document ids and corpus maps** (`doc2vec/data/doc.py`). A document's id is
  the leftmost maximal run of digits in its directory-joined path
  (`re.search(r'(\d+)', path)`), kept as a string. `docs_by_id` folds the
  directory listing into a map from id to file contents, later files
  overwriting earlier ones with the same id, and fails at the first path
  without a digit. `tokens_by_doc_id` maps the same keys to the tokenizer's
  output. The listing and the file contents are one abstract input
  (a sequence of name/contents entries); the tokenizer is a function
  parameter.
* **The DM model's control logic** (`doc2vec/model/dm.py`). The `DM` object
  is an immutable state: its four configuration values and an optional
  Keras model. `build` and `load` replace the model wholesale. `compile`
  attaches an optimizer and, when the argument is falsy, defaults to SGD
  with lr 0.001, momentum 0.9 and Nesterov on. `train` selects its epoch-end hooks from its optional
  arguments by Python truthiness, in the fixed order early stopping,
  checkpoint, embedding snapshot. The embedding snapshot fires at epoch `e`
  iff `e % period == 0`. The "distributed memory" fusion is modelled twice:
  over generic slots (the document slot first, then the window; split back
  into `window_size + 1` single-slot pieces) and as per-example Keras shape
  inference through every layer of `build`. Saved models and embedding
  files share one file system, a map from path to the file last written
  there.

Modules: `Wrappers` (Option/Result), `DocIds`, `Corpus`, `Snapshots`,
`Hooks`, `Slots`, `Shapes`, `Architecture` (the graph `build` creates) and
`Lifecycle` (the `DM` object).

Behaviour of the code worth noting:

* `load` keeps the constructor's configuration values, even when the loaded
  model was built from other values (`Lifecycle.LoadKeepsStaleConfig`).
* The code does not validate `window_size`. With `window_size` 0 the split
  yields one piece, and Keras's `Average` merge refuses a single input, so
  `build` fails (`Architecture.BuildGraph`).
* Epoch 0 always fires the snapshot, because the rule is `epoch % period == 0`
  with epochs counted from 0.
* Writing the embeddings to the path of a saved model truncates that file,
  so a later `load` from it fails (`Lifecycle.EmbeddingsOverwriteModel`).
* As written, `train` raises whenever embedding snapshots are requested
  (see Findings). The rest of the model uses the evidently intended hook.

## Model

| member | source | states |
|---|---|---|
| DocIds.MatchSpan | doc2vec/data/doc.py:19 | No match iff the path has no digit. Otherwise the returned span is the one and only span that is non-empty, all digits, has no digit before it and no digit right after it (both directions of the iff) |
| DocIds.FirstRunUnique | doc2vec/data/doc.py:19 | Leftmost greedy `\d+` matching can pick out at most one span |
| DocIds.DocId | doc2vec/data/doc.py:18-20 | Fails iff the path has no digit; the source raises there because the search returns None, and the model's error records the path. Otherwise the id is non-empty, all digits, and is the text of a leftmost, maximal digit run of the path |
| DocIds.DocIdIsFirstRun | doc2vec/data/doc.py:18-20 | Any span that is the leftmost maximal digit run determines the id exactly |
| DocIds.LeadingZerosKept | doc2vec/data/doc.py:18-20 | `doc_007.txt` gives "007" and `doc_7.txt` gives "7": two distinct keys |
| DocIds.FullPaths | doc2vec/data/doc.py:23-24 | One joined path per listed name, in listing order |
| DocIds.JoinParts | doc2vec/data/doc.py:24 | For a relative name, `os.path.join` gives exactly the directory, then a '/' when the directory is non-empty and does not end in one, then the name: prefix, separator, suffix and total length are all fixed |
| DocIds.Join | doc2vec/data/doc.py:24 | `os.path.join` of two parts. Its contract is stated by `DocIds.JoinAbsolute` (an absolute name discards the directory) and `DocIds.JoinParts` (a relative name is appended after the directory and a separator) |
| DocIds.JoinAbsolute | doc2vec/data/doc.py:24 | For a name starting with '/', `os.path.join` returns the name and discards the directory |
| DocIds.DirectoryDigitWins | doc2vec/data/doc.py:23-29 | When the directory holds a digit, every relative file in it gets the directory's own id, whatever the file name holds |
| DocIds.DigitFreeDirectoryKeepsId | doc2vec/data/doc.py:23-29 | When the directory holds no digit, every relative file name holding a digit keeps its own id after joining |
| DocIds.DirectoryDigitExample | doc2vec/data/doc.py:23-29 | `data2/doc_7.txt` gives the id "2" |
| DocIds.NoDigitNoId | doc2vec/data/doc.py:19 | A path without digits fails to produce an id |
| Corpus.ComprehensionFails | doc2vec/data/doc.py:29 | A dict comprehension with a raising key fails iff some key raises, with the error of the first one in order |
| Corpus.ComprehensionKeys | doc2vec/data/doc.py:29 | On success, the comprehension's keys are exactly the computed keys |
| Corpus.ComprehensionLastWins | doc2vec/data/doc.py:29 | On success, each key maps to the value of the last item carrying it |
| Corpus.DocsById | doc2vec/data/doc.py:27-29 | The comprehension of `docs_by_id` over the joined listing. Its contract is stated by `Corpus.DocsByIdFails`, `Corpus.DocsByIdKeys` and `Corpus.DocsByIdLastWins` |
| Corpus.DocsByIdFails | doc2vec/data/doc.py:27-29 | For a listing of readable files, `docs_by_id` fails iff some listed path has no digit, and the failure happens at the first such path in listing order (the model's error records that path) |
| Corpus.DocsByIdKeys | doc2vec/data/doc.py:27-29 | The key set is exactly the set of ids of the listed paths |
| Corpus.DocsByIdLastWins | doc2vec/data/doc.py:27-29 | Each id maps to the full contents of the last listed file with that id, so duplicates overwrite in listing order |
| Corpus.ThreeFileCorpus | doc2vec/data/doc.py:27-29 | In directory `corpus`, `doc_7.txt`, `doc_12.txt`, `doc_3.txt` load as keys "7", "12", "3", each mapped to its file's contents |
| Corpus.DuplicateIdOverwrites | doc2vec/data/doc.py:29 | Two files with id "5" in directory `corpus`: the later file's contents win |
| Corpus.TokensByDocId | doc2vec/data/doc.py:36-38 | Fails exactly when `docs_by_id` fails, with the same error. On success it has the same keys, each mapped to the tokenizer applied to that key's document |
| Corpus.TokensOfLastEntry | doc2vec/data/doc.py:32-38 | Each id's tokens are the tokenizer's output for the last listed file with that id |
| Snapshots.PyMod | doc2vec/model/dm.py:25 | Python's `%` takes the sign of the divisor, and it is zero exactly when the divisor's magnitude divides the epoch |
| Snapshots.Fires | doc2vec/model/dm.py:25-26 | The hook does not return early at epoch `e` exactly when `abs(period)` divides `e`; a period and its negation fire at the same epochs |
| Snapshots.SnapshotEpochs | doc2vec/model/dm.py:24-26 | The snapshot epochs of a run are exactly the epochs below the epoch count where `e % period == 0`, in increasing order. Epoch 0 is always among them |
| Snapshots.BlocksStep | doc2vec/model/dm.py:25 | Each further epoch adds one block exactly when its index is a multiple of the period |
| Snapshots.BlocksIsCeiling | doc2vec/model/dm.py:25 | The number of period-long blocks that cover `n` epochs is `ceil(n / period)` |
| Snapshots.SnapshotCount | doc2vec/model/dm.py:24-30 | Over `n` epochs the snapshot fires once per block of `abs(period)` epochs, the last block possibly partial |
| Snapshots.SnapshotCountCeiling | doc2vec/model/dm.py:24-30 | Over `n` epochs the snapshot fires `(n + abs(period) - 1) / abs(period)` times |
| Snapshots.TwelveEpochsPeriodFive | doc2vec/model/dm.py:24-30 | With 12 epochs and period 5, snapshots are written at epochs 0, 5 and 10 |
| Hooks.SelectHooks | doc2vec/model/dm.py:110-119 | Early stopping is installed iff the patience is truthy, watching the loss. A checkpoint is installed iff `save_path` and `save_period` are both truthy, and a snapshot iff both snapshot arguments are. Each hook carries the arguments `train` passes it, appears at most once, and the order is always early stop, checkpoint, snapshot |
| Hooks.DefaultsInstallNothing | doc2vec/model/dm.py:103-119 | With every optional argument at its default, no hook is installed |
| Hooks.FalsyValuesInstallNothing | doc2vec/model/dm.py:111-117 | A patience of 0, an empty path or a period of 0 switches its hook off, just as `None` does |
| Hooks.AllSetOrder | doc2vec/model/dm.py:110-119 | With everything set, the hooks are early stop, checkpoint, snapshot, in that order |
| Slots.Chunks | doc2vec/model/dm.py:45-49 | Cutting into `count` pieces of `size` slots gives `count` pieces of that size, which concatenate back to the input |
| Slots.Split | doc2vec/model/dm.py:45-49 | `tf.split` into `n` pieces succeeds iff `n > 0` and `n` divides the length. Each piece then has length/`n` slots, and concatenating the pieces restores the input |
| Slots.Concatenate | doc2vec/model/dm.py:86 | The fused sequence has `window_size + 1` slots: the document slot first, then the window slots in order |
| Slots.FusionPieces | doc2vec/model/dm.py:86-88 | Splitting the fused sequence yields exactly `window_size + 1` single-slot pieces. Piece 0 is the document, and piece `i + 1` is window slot `i` |
| Shapes.EmbeddingShape | doc2vec/model/dm.py:79-84 | An embedding lookup appends the embedding size as the new last axis |
| Shapes.ConcatShape | doc2vec/model/dm.py:86 | Concatenation along the sequence axis needs equal ranks and equal other axes, and adds the sequence lengths |
| Shapes.SplitShape | doc2vec/model/dm.py:87 | The split's shapes: `n` equal pieces iff `n` divides the sequence axis |
| Shapes.SplitShapeMatchesSlots | doc2vec/model/dm.py:45-49 | The shape rule for the split agrees with splitting actual slots, both in when it succeeds and in each piece's length |
| Shapes.AverageShape | doc2vec/model/dm.py:88 | On equal-shaped inputs, which is all `build` passes it, averaging needs at least two inputs and keeps their shape |
| Shapes.SqueezeShape | doc2vec/model/dm.py:52-56 | Squeezing axis 1 needs that axis to have size 1, and removes it |
| Shapes.DenseShape | doc2vec/model/dm.py:91 | The dense softmax layer replaces the last axis by the vocabulary size |
| Architecture.BuildGraph | doc2vec/model/dm.py:75-93 | Building succeeds iff `window_size >= 1`. On success the inputs are `[doc (1), window (window_size)]`, the tables are `num_docs x E` and `vocab_size x E`, and the fused sequence is `(window_size + 1) x E`. The split gives `window_size + 1` pieces of `1 x E`, the average and squeeze give `E`, and the output width is `vocab_size` |
| Lifecycle.Init | doc2vec/model/dm.py:61-69 | The constructor stores its four values unchanged (embedding size 300 by default) and holds no model |
| Lifecycle.Build | doc2vec/model/dm.py:75-93 | Replaces the model with a fresh, uncompiled one of the configured table and output shapes. The configuration is unchanged |
| Lifecycle.Compile | doc2vec/model/dm.py:95-101 | Fails iff there is no model. Otherwise it attaches the given optimizer when the argument is truthy, and SGD(0.001, 0.9, Nesterov) when it is `None` or an empty name, with categorical cross-entropy loss and categorical accuracy. The graph and the configuration stay as they were |
| Lifecycle.FalsyOptimizerIsDefault | doc2vec/model/dm.py:96-97 | `compile('')`, `compile()` and `compile(SGD(0.001, 0.9, nesterov=True))` have the same effect |
| Lifecycle.RecompileReplaces | doc2vec/model/dm.py:95-101 | Compiling twice is compiling once with the second optimizer: the last call wins |
| Lifecycle.DocEmbeddings | doc2vec/model/dm.py:71-73 | Fails iff there is no model. Otherwise it returns the model's document-embedding table |
| Lifecycle.Train | doc2vec/model/dm.py:103-127 | The intended `train`: fails without a model, or with an uncompiled one. Otherwise `fit_generator` receives the selected hooks and the given steps per epoch and epochs |
| Lifecycle.TrainAsWritten | doc2vec/model/dm.py:117-119 | `train` as written: raises whenever both snapshot arguments are truthy, and otherwise behaves as the intended `train` |
| Lifecycle.SnapshotRequestRaisesAsWritten | doc2vec/model/dm.py:117-121 | On a built and compiled model, a request for snapshots every 5 epochs raises as written, where the intended `train` proceeds to fit |
| Lifecycle.Save | doc2vec/model/dm.py:129-131 | Fails iff there is no model. Otherwise the file at `path` becomes the whole model, replacing what was there, and no other file changes |
| Lifecycle.Load | doc2vec/model/dm.py:136-138 | Fails iff nothing is stored at `path` or the file there holds no model. Otherwise the model becomes the stored one and the configuration is kept |
| Lifecycle.WriteDocEmbeddings | doc2vec/model/dm.py:39-42 | The file at `path`, whatever it held before, becomes one dataset named "doc_embeddings" holding the table. Other files are unchanged |
| Lifecycle.SaveDocEmbeddings | doc2vec/model/dm.py:133-134 | Fails iff there is no model, and then with `NoModel`. Otherwise it writes the current document-embedding table under "doc_embeddings" at `path`, and every other file is unchanged, with no file added |
| Lifecycle.SnapshotWrites | doc2vec/model/dm.py:22-30 | Without a snapshot hook nothing is written. With one, one write happens at each epoch its period rule selects, in increasing epoch order, and nowhere else. Each selected epoch is written exactly once, so `Lifecycle.SnapshotWriteCount` gives the number of writes |
| Lifecycle.SnapshotWriteCount | doc2vec/model/dm.py:22-30 | With a snapshot hook, a run of `n` epochs writes once per block of `abs(period)` epochs: `ceil(n / abs(period))` writes |
| Lifecycle.FreshDmNeedsModel | doc2vec/model/dm.py:61-73 | On a freshly constructed DM, `doc_embeddings`, `compile`, `train`, `save` and `save_doc_embeddings` all fail for lack of a model |
| Lifecycle.BuildDiscardsPriorModel | doc2vec/model/dm.py:93 | `build`'s result depends on the configuration only. Any earlier model is discarded |
| Lifecycle.RebuildIsFresh | doc2vec/model/dm.py:75-101 | A second `build`, even after `compile`, gives the same fresh, uncompiled model as the first |
| Lifecycle.SaveLoadRoundTrip | doc2vec/model/dm.py:129-138 | Loading what `save` wrote gives any DM the saved model, so `doc_embeddings` agree |
| Lifecycle.EmbeddingsOverwriteModel | doc2vec/model/dm.py:129-138 | After `save(p)` and then `save_doc_embeddings(p)`, `load(p)` fails: the embeddings write truncated the model file |
| Lifecycle.LoadKeepsStaleConfig | doc2vec/model/dm.py:136-138 | After loading a model built from other values, the DM keeps its own configuration while `doc_embeddings` reports the loaded model's table |
| Lifecycle.DocEmbeddingsShape | doc2vec/model/dm.py:71-101 | After `build`, and after `compile`, the document-embedding table is `num_docs x embedding_size` |
| Lifecycle.SavedEmbeddingsMatch | doc2vec/model/dm.py:133-134 | The saved embedding file holds exactly the table `doc_embeddings` returns at the time of the call |
| Lifecycle.TwelveEpochSnapshots | doc2vec/model/dm.py:103-127 | Training for 12 epochs with snapshot period 5 installs only the snapshot hook, which writes after epochs 0, 5 and 10 |

## Left out

- File I/O: `os.listdir` and `open(...).read()` become the abstract listing of name/contents entries, in whatever order the caller supplies.
- Corpus.DocsById: every modelled entry is a readable file with its contents. In the source, `os.listdir` also lists subdirectories, and a file can fail to open or decode; `_read` (doc.py:13-15) then raises and `docs_by_id` fails. The model does not cover those failures, so `Corpus.DocsByIdFails` describes readable listings only.
- Corpus.DocsByIdFails: its "fails iff some path has no digit" holds for listings of readable files only. An unreadable entry also makes the source fail.
- `nltk.download('punkt')` and `word_tokenize`: the tokenizer is a function parameter, and downloading is a side effect with no modelled result.
- Logging calls: they have no effect on results.
- DocIds.DocId: `\d` is restricted to the ASCII digits '0'..'9'. Python 3 also matches the other Unicode decimal digits, so a path whose first digit is, say, an Arabic-Indic digit gets a different id in the source.
- DocIds.Join: models `os.path.join` for two string parts on POSIX. Other path types and separators are not modelled.
- Keras and TensorFlow numerics: `fit_generator`, gradient updates, softmax values, the numeric `Average`, and the history `train` returns are not modelled. The fusion is modelled by slot order and shapes; the document table is represented by its shape, not its values.
- Lifecycle.Train: returns the `fit_generator` call it would make (hooks, steps, epochs), not a training history. The failure for an uncompiled model is Keras's own check, assumed here.
- Shapes.AverageShape: Keras merge layers refuse fewer than two inputs. This is library behaviour, not shown in the repository, and it is assumed here. Keras also accepts inputs whose shapes broadcast against each other (axes of size 1). The model requires equal shapes instead, which is all `build` produces, so it refuses some inputs Keras accepts. Keras's `input_length` consistency check on `Embedding` is not modelled.
- `EarlyStopping` and `ModelCheckpoint` internals (loss tracking, patience counting, checkpoint periods and file naming): library code. Only their selection and arguments are modelled.
- `_doc_embeddings_from_model`'s positional `layers[2]` lookup depends on Keras graph topology. The model returns the document table directly.
- h5py and Keras file formats: the file system is a map from path to the file last written there, either a model or an embeddings file. File contents beyond that distinction are not modelled. Write failures are not modelled, so every write succeeds.
- Snapshot path templating: `.format({'epoch': epoch})` passes a dict positionally, so an `{epoch}` template would fail. Only the period rule is modelled.
- Importing `dm.py`: it imports `CallBack` but subclasses `Callback`, so the module does not import as written. The model assumes the evidently intended `Callback` import; a failing import has no behaviour to model.
- Lifecycle.Train: models the evidently intended `SaveDocEmbeddings` constructor that stores a path and a period. As written, `dm.py:118` passes arguments to the inherited no-argument constructor and raises `TypeError`, so `train` with both snapshot arguments never reaches `fit_generator`. `Lifecycle.TrainAsWritten` models that behaviour.
- Lifecycle.SnapshotWrites: models the intended hook, whose period is the one `train` passed it. As written, the hook is never constructed (`dm.py:118`), and `on_epoch_end` reads `self.params['period']` and `self.params['path']`, which nothing in this code sets. So no snapshot is written as written.
- Lifecycle.Init: configuration values are natural numbers. Negative sizes, which the source passes on to Keras unchecked, are not modelled.
- Concurrency, generator prefetching and early-stopping termination timing are not modelled. `Lifecycle.SnapshotWrites` takes the number of epochs actually run as a parameter.

## Findings

| source | as written | input that shows it | evidently intended | confidence | as-written member | corrected member |
|---|---|---|---|---|---|---|
| doc2vec/model/dm.py:117-119 | `SaveDocEmbeddings(save_doc_embeddings_path, period=...)` calls a class with no constructor of its own, and Keras's `Callback.__init__` accepts no arguments, so `train` raises `TypeError` | `train(gen, epochs=12, save_doc_embeddings_path='e.h5', save_doc_embeddings_period=5)` on a built and compiled model | the hook stores the path and period and writes a snapshot at epochs 0, 5 and 10 | high; not executed | Lifecycle.TrainAsWritten, Lifecycle.SnapshotRequestRaisesAsWritten | Lifecycle.Train, Lifecycle.TwelveEpochSnapshots |
