/** The layer graph `DM.build` constructs (`doc2vec/model/dm.py`), as the
    shapes of its inputs, weight tables and intermediate tensors. */
module Architecture {
  import opened Wrappers
  import opened Shapes

  const DefaultEmbeddingSize: nat := 300

  /** The built model: inputs in the order `Model(inputs=[doc_input,
      sequence_input])` lists them, the two embedding tables, the fused
      sequence, its split pieces, their average, the squeezed vector, the
      softmax layer's kernel and the output. */
  datatype Graph = Graph(
    inputs: seq<Shape>,
    docTable: Shape,
    wordTable: Shape,
    fused: Shape,
    pieces: seq<Shape>,
    averaged: Shape,
    squeezed: Shape,
    denseKernel: Shape,
    output: Shape)

  /** The body of `build`, layer by layer. Every layer's shape rule holds
      once the window has at least one word; with an empty window the
      split yields a single piece and the `Average` merge refuses it. */
  function BuildGraph(windowSize: nat, vocabSize: nat, numDocs: nat, embeddingSize: nat)
    : (r: Result<Graph, ShapeError>)
    ensures r.Success? <==> windowSize >= 1
    ensures r.Failure? ==> r.error == TooFewMergeInputs(1)
    ensures r.Success? ==>
              && r.value.inputs == [[1], [windowSize]]
              && r.value.docTable == [numDocs, embeddingSize]
              && r.value.wordTable == [vocabSize, embeddingSize]
              && r.value.denseKernel == [embeddingSize, vocabSize]
    ensures r.Success? ==>
              && r.value.fused == [windowSize + 1, embeddingSize]
              && |r.value.pieces| == windowSize + 1
              && (forall i | 0 <= i < |r.value.pieces| :: r.value.pieces[i] == [1, embeddingSize])
              && r.value.averaged == [1, embeddingSize]
              && r.value.squeezed == [embeddingSize]
              && r.value.output == [vocabSize]
  {
    var sequenceInput: Shape := [windowSize];
    var docInput: Shape := [1];
    var embeddedSequence := EmbeddingShape(sequenceInput, embeddingSize);
    var embeddedDoc := EmbeddingShape(docInput, embeddingSize);
    var embedded := ConcatShape(embeddedDoc, embeddedSequence).value;
    assert embedded == [windowSize + 1, embeddingSize];
    var split := SplitShape(embedded, windowSize + 1).value;
    match AverageShape(split)
    case Failure(e) => Failure(e)
    case Success(averaged) =>
      var squeezed := SqueezeShape(averaged).value;
      var softmax := DenseShape(squeezed, vocabSize).value;
      Success(Graph([docInput, sequenceInput], [numDocs, embeddingSize], [vocabSize, embeddingSize],
                    embedded, split, averaged, squeezed, [embeddingSize, vocabSize], softmax))
  }
}
