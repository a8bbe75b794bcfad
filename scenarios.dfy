/** The unit tests' scenarios, replayed against the contracts alone. */
module Scenarios {
  import opened Results
  import opened Activation
  import opened Neurons
  import opened Layers

  /** The builder and feed tests: `draws` stands for the random source. */
  method NeuronScenario(draws: seq<(real, real)>)
    requires |draws| >= 10 && Uniform(draws)
  {
    var refused := Builder.New(0, draws);
    assert refused == Failure(IllegalArgument);

    var ten := Builder.New(10, draws);
    var builderA := ten.value;
    var outcome := builderA.WithActivationFunction(None);
    assert outcome.Fail?;
    outcome := builderA.WithInputWeights(None);
    assert outcome.Fail?;
    outcome := builderA.WithInputWeights(Some([]));
    assert outcome.Fail?;
    outcome := builderA.WithInputWeights(Some([0.25, 0.5, 0.75]));
    var a := builderA.Build();
    assert a.inputWeights == [0.25, 0.5, 0.75] && a.activationFunction == DEFAULT_ACTIVATION;

    var level := a.Feed([1.0, 0.5]);
    assert level == Failure(IllegalArgument);

    var five := Builder.New(5, draws);
    var builderB := five.value;
    outcome := builderB.WithInputWeights(Some([1.0 / 3.0, 2.0 / 3.0]));
    outcome := builderB.WithActivationFunction(Some(BinaryStep(1.0, 5.0, 1.3)));
    builderB.WithBias(1.0);
    var b := builderB.Build();
    FeedExamples();
    level := b.Feed([1.0, 0.5]);
    assert level == Success(5.0);
    level := b.Feed([0.5, 0.0]);
    assert level == Success(1.0);
  }

  /** The layer test: two neurons given two copies of one three-weight vector. */
  method LayerScenario(draws: seq<(real, real)>)
    requires |draws| >= 5 && Uniform(draws)
  {
    var layer := new Layer();
    var five := Builder.New(5, draws);
    var builder := five.value;
    var outcome := builder.WithInputWeights(Some([1.0 / 3.0, 2.0 / 3.0]));
    var neuronA := builder.Build();
    var neuronB := builder.Build();
    var added := layer.Add(neuronA);
    added := layer.Add(neuronB);
    assert layer.neurons == [neuronA, neuronB];

    var v := [0.25, 0.5, 0.75];
    ghost var beforeA, beforeB := neuronA.inputWeights, neuronB.inputWeights;
    outcome := layer.SetInputWeightsForAll([Some(v), Some(v)]);
    assert outcome == Pass;
    DistinctNeuronsPrefixUpdated(layer.neurons, [Some(v), Some(v)], 2, 0, beforeA);
    DistinctNeuronsPrefixUpdated(layer.neurons, [Some(v), Some(v)], 2, 1, beforeB);
    assert neuronA.inputWeights == v && neuronB.inputWeights == v;

    outcome := layer.SetInputWeightsForAll([Some(v)]);
    assert outcome == Fail(InsufficientWeightVectors);
    outcome := layer.SetInputWeightsForAll([Some(v), Some(v), Some(v)]);
    assert outcome == Fail(TooManyWeightVectors);
  }
}
