/** The artificial neuron and the builder through which every neuron is made. */
module Neurons {
  import opened Results
  import opened Activation

  /** The builder's default activation function, as the code constructs it:
      BinaryStepFunction(0.5, 1, 0), i.e. 0.5 at or below a threshold of 0 and 1 above it. */
  const DEFAULT_ACTIVATION: ActivationFunction := BinaryStep(0.5, 1.0, 0.0)

  /** The builder's default bias. */
  const DEFAULT_BIAS: real := 1.0

  /** A weight list is accepted when it is not null and holds at least one weight. */
  predicate AcceptableWeights(w: Option<seq<real>>)
  {
    w.Some? && |w.value| >= 1
  }

  /** Pairs of draws of the random source, each in [0, 1). */
  predicate Uniform(draws: seq<(real, real)>)
  {
    forall i :: 0 <= i < |draws| ==> 0.0 <= draws[i].0 < 1.0 && 0.0 <= draws[i].1 < 1.0
  }

  /** The first n default weights: each one is the first draw of a pair minus the second. */
  function DrawnWeights(draws: seq<(real, real)>, n: nat): (w: seq<real>)
    requires n <= |draws| && Uniform(draws)
    ensures |w| == n
    ensures forall i :: 0 <= i < n ==> -1.0 < w[i] < 1.0
  {
    seq(n, i requires 0 <= i < n => draws[i].0 - draws[i].1)
  }

  /** The element-wise products of inputs and weights. */
  function Weighted(inputs: seq<real>, weights: seq<real>): (s: seq<real>)
    requires |inputs| == |weights|
    ensures |s| == |inputs|
    ensures forall i :: 0 <= i < |s| ==> s[i] == inputs[i] * weights[i]
  {
    if inputs == [] then [] else [inputs[0] * weights[0]] + Weighted(inputs[1..], weights[1..])
  }

  /** The weighted sum of the inputs, the textbook reference for a neuron's net input. */
  function Dot(inputs: seq<real>, weights: seq<real>): real
    requires |inputs| == |weights|
  {
    if inputs == [] then 0.0 else inputs[0] * weights[0] + Dot(inputs[1..], weights[1..])
  }

  lemma {:induction false} WeightedSum(inputs: seq<real>, weights: seq<real>)
    requires |inputs| == |weights|
    ensures Sum(Weighted(inputs, weights)) == Dot(inputs, weights)
  {
    if inputs != [] {
      WeightedSum(inputs[1..], weights[1..]);
    }
  }

  /** What feed returns for a neuron with these weights, bias and activation function:
      a length mismatch is an illegal argument; otherwise the activation function sees
      the weighted inputs followed by the bias as one extra trailing value. */
  function Output(weights: seq<real>, bias: real, f: ActivationFunction, inputs: seq<real>): (r: Result<real>)
    ensures r.Failure? <==> |inputs| != |weights|
    ensures r.Failure? ==> r.error == IllegalArgument
  {
    if |inputs| != |weights| then Failure(IllegalArgument)
    else Success(Compute(f, Weighted(inputs, weights) + [bias]))
  }

  /** A binary step neuron fires exactly when the weighted sum plus the bias exceeds the threshold. */
  lemma OutputFires(weights: seq<real>, bias: real, f: ActivationFunction, inputs: seq<real>)
    requires |inputs| == |weights|
    ensures Output(weights, bias, f, inputs)
         == Success(if Dot(inputs, weights) + bias > f.threshold then f.valueIfGreater else f.valueIfLess)
  {
    WeightedSum(inputs, weights);
    SumAppend(Weighted(inputs, weights), [bias]);
  }

  /** The neuron of the unit tests: weights 1/3 and 2/3, bias 1, BinaryStepFunction(1.0, 5.0, 1.3). */
  lemma FeedExamples()
    ensures Output([1.0 / 3.0, 2.0 / 3.0], 1.0, BinaryStep(1.0, 5.0, 1.3), [1.0, 0.5]) == Success(5.0)
    ensures Output([1.0 / 3.0, 2.0 / 3.0], 1.0, BinaryStep(1.0, 5.0, 1.3), [0.5, 0.0]) == Success(1.0)
    ensures Output([0.25, 0.5, 0.75], 1.0, DEFAULT_ACTIVATION, [1.0, 0.5]) == Failure(IllegalArgument)
  {
    OutputFires([1.0 / 3.0, 2.0 / 3.0], 1.0, BinaryStep(1.0, 5.0, 1.3), [1.0, 0.5]);
    OutputFires([1.0 / 3.0, 2.0 / 3.0], 1.0, BinaryStep(1.0, 5.0, 1.3), [0.5, 0.0]);
  }

  /** The default activation never yields 0: it gives 1 above a sum of 0 and 0.5 otherwise. */
  lemma DefaultActivationOutputs(input: seq<real>)
    ensures Compute(DEFAULT_ACTIVATION, input) == if Sum(input) > 0.0 then 1.0 else 0.5
  {
  }

  class Neuron {
    var inputWeights: seq<real>
    var activationFunction: ActivationFunction
    var bias: real

    /** Every neuron holds at least one weight. */
    predicate Valid()
      reads this
    {
      |inputWeights| >= 1
    }

    /** The private constructor: the neuron takes the builder's three fields. */
    constructor (b: Builder)
      requires b.Valid()
      ensures Valid()
      ensures inputWeights == b.inputWeights
      ensures activationFunction == b.activationFunction
      ensures bias == b.bias
    {
      inputWeights := b.inputWeights;
      activationFunction := b.activationFunction;
      bias := b.bias;
    }

    /** feed: checks the input count, weighs the inputs one by one, appends the bias
        and hands the list to the activation function. It changes nothing. */
    method Feed(inputs: seq<real>) returns (r: Result<real>)
      ensures r == Output(inputWeights, bias, activationFunction, inputs)
    {
      if |inputs| != |inputWeights| {
        return Failure(IllegalArgument);
      }
      var weightedInputs: seq<real> := [];
      for i := 0 to |inputs|
        invariant |weightedInputs| == i
        invariant forall k :: 0 <= k < i ==> weightedInputs[k] == inputs[k] * inputWeights[k]
      {
        weightedInputs := weightedInputs + [inputs[i] * inputWeights[i]];
      }
      assert weightedInputs == Weighted(inputs, inputWeights);
      var level := Evaluate(activationFunction, weightedInputs + [bias]);
      r := Success(level);
    }

    /** setInputWeights: a null or empty list is refused and the weights stay as they were. */
    method SetInputWeights(w: Option<seq<real>>) returns (r: Outcome)
      modifies this`inputWeights
      ensures r.Pass? <==> AcceptableWeights(w)
      ensures r.Fail? ==> r.error == IllegalArgument
      ensures inputWeights == if r.Pass? then w.value else old(inputWeights)
      ensures old(Valid()) ==> Valid()
    {
      if w.None? {
        return Fail(IllegalArgument);
      } else if |w.value| < 1 {
        return Fail(IllegalArgument);
      }
      inputWeights := w.value;
      r := Pass;
    }
  }

  class Builder {
    var inputWeights: seq<real>
    var activationFunction: ActivationFunction
    var bias: real

    /** The builder always holds at least one weight. */
    predicate Valid()
      reads this
    {
      |inputWeights| >= 1
    }

    /** Builder(numberOfWeights) once the count is known to be positive: one weight
        per pair of draws, the default activation function and the default bias. */
    constructor (numberOfWeights: nat, draws: seq<(real, real)>)
      requires 1 <= numberOfWeights <= |draws| && Uniform(draws)
      ensures Valid()
      ensures inputWeights == DrawnWeights(draws, numberOfWeights)
      ensures activationFunction == DEFAULT_ACTIVATION && bias == DEFAULT_BIAS
    {
      var weights: seq<real> := [];
      for i := 0 to numberOfWeights
        invariant |weights| == i
        invariant forall k :: 0 <= k < i ==> weights[k] == draws[k].0 - draws[k].1
      {
        weights := weights + [draws[i].0 - draws[i].1];
      }
      inputWeights := weights;
      activationFunction := DEFAULT_ACTIVATION;
      bias := DEFAULT_BIAS;
    }

    /** Builder(numberOfWeights): fewer than one weight is an illegal argument. */
    static method New(numberOfWeights: int, draws: seq<(real, real)>) returns (r: Result<Builder>)
      requires numberOfWeights <= |draws| && Uniform(draws)
      ensures r.Failure? <==> numberOfWeights < 1
      ensures r.Failure? ==> r.error == IllegalArgument
      ensures r.Success? ==> fresh(r.value) && r.value.Valid()
      ensures r.Success? ==> r.value.inputWeights == DrawnWeights(draws, numberOfWeights)
      ensures r.Success? ==> r.value.activationFunction == DEFAULT_ACTIVATION && r.value.bias == DEFAULT_BIAS
    {
      if numberOfWeights < 1 {
        return Failure(IllegalArgument);
      }
      var b := new Builder(numberOfWeights, draws);
      r := Success(b);
    }

    /** inputWeights(w): a null or empty list is refused; any other replaces the weights,
        whatever their former count. */
    method WithInputWeights(w: Option<seq<real>>) returns (r: Outcome)
      modifies this`inputWeights
      ensures r.Pass? <==> AcceptableWeights(w)
      ensures r.Fail? ==> r.error == IllegalArgument
      ensures inputWeights == if r.Pass? then w.value else old(inputWeights)
      ensures old(Valid()) ==> Valid()
    {
      if w.None? || |w.value| < 1 {
        return Fail(IllegalArgument);
      }
      inputWeights := w.value;
      r := Pass;
    }

    /** activationFunction(f): a null function is refused. */
    method WithActivationFunction(f: Option<ActivationFunction>) returns (r: Outcome)
      modifies this`activationFunction
      ensures r.Pass? <==> f.Some?
      ensures r.Fail? ==> r.error == IllegalArgument
      ensures activationFunction == if f.Some? then f.value else old(activationFunction)
    {
      if f.None? {
        return Fail(IllegalArgument);
      }
      activationFunction := f.value;
      r := Pass;
    }

    /** bias(b): always accepted. */
    method WithBias(b: real)
      modifies this`bias
      ensures bias == b
    {
      bias := b;
    }

    /** build: a new neuron holding the builder's current fields. */
    method Build() returns (n: Neuron)
      requires Valid()
      ensures fresh(n) && n.Valid()
      ensures n.inputWeights == inputWeights
      ensures n.activationFunction == activationFunction
      ensures n.bias == bias
    {
      n := new Neuron(this);
    }
  }
}
