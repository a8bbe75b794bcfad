# Artificial neuron, builder and layer — a Dafny model

This project models the core of a small Java library for feed-forward artificial
neurons (package `rogel.io.ai.ann`):

- **Activation functions** (`activation.dfy`, module `Activation`). The one-method
  `ActivationFunction` interface and its only implementation, `BinaryStepFunction`.
  The function is a datatype with the single variant
  `BinaryStep(valueIfLess, valueIfGreater, threshold)`, whose fields follow the Java
  constructor's argument order. `compute` sums its inputs and returns
  `valueIfGreater` when the sum is strictly above the threshold, otherwise
  `valueIfLess`. `Compute` is the specification. `Evaluate` is the accumulating loop,
  proved equal to it.
- **Neurons and their builder** (`neurons.dfy`, module `Neurons`). `Neuron` and
  `Builder` are classes whose three fields (weights, activation function, bias) the
  methods update in place.
  - `feed` checks the input count, then weighs the inputs one by one. It appends the
    bias as one extra trailing value and hands that list to the activation function.
  - The pure function `Output` states what `feed` returns. `OutputFires` proves that a
    binary-step neuron fires exactly when the weighted sum plus the bias exceeds the
    threshold.
  - The builder refuses fewer than one weight, a null or empty weight list, and a null
    activation function. So every built neuron holds at least one weight (`Valid`).
- **Layers** (`layers.dfy`, module `Layers`). `Layer` holds an ordered `seq` of neuron
  references and supports the list operations the core uses.
  - `setInputWeightsForAll` first compares counts: "too many" vectors or "insufficient"
    vectors change nothing.
  - It then assigns the vectors in lockstep through each neuron's `setInputWeights`,
    with no rollback. At the first refused vector, the neurons before it keep their
    new weights.
  - Neurons are shared references, and the same neuron may stand at several positions.
    The model states this exactly: a neuron ends with the vector of the LAST position
    it holds among those assigned (`LastIndexBefore`, `WeightsAfter`).
  - For a layer without repeated neurons, `DistinctNeuronsPrefixUpdated` gives the
    plain reading: the updated prefix takes its own vectors, and the rest keep theirs.
- `results.dfy` (module `Results`) holds the error kinds, `Result`, `Outcome`, and
  `Option`, which stands for a Java reference that may be null.
- `scenarios.dfy` (module `Scenarios`) replays the two JUnit test classes against the
  contracts alone.

Java `double` is modelled as `real`. The random source used by the builder is a
parameter: a sequence of pairs of draws, each in [0, 1). Each weight is the first draw
of its pair minus the second, as `nextDouble() - nextDouble()` computes it.

The code and its comments disagree in two places, and the model follows the code:

- The builder's default activation function is `new BinaryStepFunction(0.5, 1, 0)`
  (ArtificialNeuron.java line 135). With the constructor's parameter order
  (`valueIfLess, valueIfGreater, threshold`), this gives 0.5 at or below a sum of 0,
  and 1 above it. The comment just above it describes 0/1 values with a 0.5
  threshold. `DefaultActivationOutputs` states the behaviour the code has.
- The Javadoc of `BinaryStepFunction`'s constructor lists `valueIfGreater` before
  `valueIfLess`, but the signature takes `valueIfLess` first.
  `BinaryStepArgumentOrder` follows the signature.

Each default weight is the difference of two values in [0, 1), so it lies strictly
between -1 and 1. `DrawnWeights` states this strict bound.

## Model

| member | source | states |
|---|---|---|
| `Activation.SumAppend` | src/rogel/io/ai/ann/activationfunctions/BinaryStepFunction.java:37-41 | the sum of a concatenation is the sum of the parts, which lets the front-to-back accumulation stand for the sum |
| `Activation.Compute` | src/rogel/io/ai/ann/activationfunctions/BinaryStepFunction.java:36-44 | the output is always one of the two configured values, with no ordering between them; when they differ, it is `valueIfGreater` exactly when the sum of the inputs is strictly above the threshold |
| `Activation.Evaluate` | src/rogel/io/ai/ann/activationfunctions/BinaryStepFunction.java:36-44 | the accumulating loop followed by the strict comparison returns what `Compute` specifies; it changes nothing |
| `Activation.ComputeAtThreshold` | src/rogel/io/ai/ann/activationfunctions/BinaryStepFunction.java:43 | a sum equal to the threshold gives the "less" value, because the comparison is strict |
| `Activation.ComputeOnEmpty` | src/rogel/io/ai/ann/activationfunctions/BinaryStepFunction.java:37-43 | an empty input sums to 0, so it gives the "greater" value exactly when 0 exceeds the threshold |
| `Activation.BinaryStepArgumentOrder` | src/rogel/io/ai/ann/activationfunctions/BinaryStepFunction.java:29-51 | `BinaryStepFunction(a, b, c)` returns `a` at or below threshold `c`, `b` above it, and `getThreshold` answers `c` |
| `Neurons.Weighted` | src/rogel/io/ai/ann/ArtificialNeuron.java:38-42 | the weighted inputs have one element per input, and element i is `inputs[i] * weights[i]` |
| `Neurons.WeightedSum` | src/rogel/io/ai/ann/ArtificialNeuron.java:38-42 | the weighted inputs sum to the dot product of inputs and weights |
| `Neurons.Output` | src/rogel/io/ai/ann/ArtificialNeuron.java:30-47 | feed fails with an illegal argument exactly when the input count differs from the weight count |
| `Neurons.OutputFires` | src/rogel/io/ai/ann/ArtificialNeuron.java:30-47 | with matching lengths, feed returns `valueIfGreater` exactly when the dot product plus the bias exceeds the threshold, and `valueIfLess` otherwise: the bias enters the sum as one extra input |
| `Neurons.FeedExamples` | src/rogel/io/ai/ann/test/ArtificialNeuronTest.java:80-119 | weights 1/3, 2/3, bias 1, `BinaryStepFunction(1.0, 5.0, 1.3)`: inputs (1, 0.5) give 5.0 and (0.5, 0) give 1.0; two inputs to a three-weight neuron are refused |
| `Neurons.DefaultActivationOutputs` | src/rogel/io/ai/ann/ArtificialNeuron.java:133-135 | the default activation gives 1 when the sum is above 0 and 0.5 otherwise (never 0) |
| `Neurons.DrawnWeights` | src/rogel/io/ai/ann/ArtificialNeuron.java:124-131 | n default weights, each the difference of two draws in [0, 1) and so strictly between -1 and 1 |
| `Neurons.Neuron.constructor` | src/rogel/io/ai/ann/ArtificialNeuron.java:97-101 | the new neuron holds exactly the builder's weights, activation function and bias, and has at least one weight |
| `Neurons.Neuron.Feed` | src/rogel/io/ai/ann/ArtificialNeuron.java:30-48 | the length check, the weighing loop, the trailing bias and the activation call together return `Output` of the neuron's fields; feed modifies nothing |
| `Neurons.Neuron.SetInputWeights` | src/rogel/io/ai/ann/ArtificialNeuron.java:58-67 | a null or empty list is refused and leaves the weights as they were; otherwise the weights become the list; bias and activation function are untouched; the neuron stays valid |
| `Neurons.Builder.constructor` | src/rogel/io/ai/ann/ArtificialNeuron.java:118-139 | for a positive count n, the builder holds n drawn weights, the default activation `BinaryStep(0.5, 1, 0)` and bias 1.0 |
| `Neurons.Builder.New` | src/rogel/io/ai/ann/ArtificialNeuron.java:118-122 | `Builder(n)` fails with an illegal argument exactly when n < 1; otherwise it yields a fresh builder with the defaults above |
| `Neurons.Builder.WithInputWeights` | src/rogel/io/ai/ann/ArtificialNeuron.java:146-153 | a null or empty list is refused and changes nothing; any other list replaces the weights, whatever their former count |
| `Neurons.Builder.WithActivationFunction` | src/rogel/io/ai/ann/ArtificialNeuron.java:160-167 | a null function is refused and changes nothing; otherwise it replaces the activation function |
| `Neurons.Builder.WithBias` | src/rogel/io/ai/ann/ArtificialNeuron.java:173-176 | the bias is replaced unconditionally |
| `Neurons.Builder.Build` | src/rogel/io/ai/ann/ArtificialNeuron.java:181-183 | a fresh neuron whose three fields equal the builder's current ones, hence with at least one weight |
| `Layers.LastIndexBefore` | src/rogel/io/ai/ann/ArtificialNeuralNetLayer.java:61-66 | the position found is before k and holds the given neuron, or is -1 |
| `Layers.LastIndexBeforeIsLast` | src/rogel/io/ai/ann/ArtificialNeuralNetLayer.java:61-66 | no later position before k holds that neuron, so the last assignment to a shared neuron is the one that counts |
| `Layers.FirstRejected` | src/rogel/io/ai/ann/ArtificialNeuralNetLayer.java:64-66 | every vector before the returned position is accepted by `setInputWeights` (non-null, non-empty) and the vector at it, if any, is refused |
| `Layers.AssignNext` | src/rogel/io/ai/ann/ArtificialNeuralNetLayer.java:64-66 | one more assignment, to position k, changes exactly the neurons that are the object at position k |
| `Layers.WeightsAfterValid` | src/rogel/io/ai/ann/ArtificialNeuralNetLayer.java:64-66 | the assignments never leave a neuron with an empty weight list |
| `Layers.DistinctNeuronsPrefixUpdated` | src/rogel/io/ai/ann/ArtificialNeuralNetLayer.java:61-66 | without repeated neurons, the first k neurons hold their own vectors and the others keep their old weights |
| `Layers.LaterAssignmentWins` | src/rogel/io/ai/ann/ArtificialNeuralNetLayer.java:61-66 | one neuron standing at both positions of a layer ends with the second vector |
| `Layers.Layer.constructor` | src/rogel/io/ai/ann/ArtificialNeuralNetLayer.java:42-44 | the no-argument constructor gives an empty layer, and no builder is involved |
| `Layers.Layer.New` | src/rogel/io/ai/ann/ArtificialNeuralNetLayer.java:28-37 | construction fails exactly when neurons are requested with fewer than one weight each; otherwise the layer holds max(n, 0) fresh, distinct, default neurons in creation order, neuron i weighted from its own draws |
| `Layers.Layer.SetInputWeightsForAll` | src/rogel/io/ai/ann/ArtificialNeuralNetLayer.java:51-67 | "too great" when there are more vectors than neurons and "insufficient" when fewer, changing nothing; otherwise the vectors are assigned in order up to the first refused one, which raises an illegal argument with no rollback; the list, its order, every bias and every activation function are unchanged, and valid neurons stay valid |
| `Layers.Layer.Add` | src/rogel/io/ai/ann/ArtificialNeuralNetLayer.java:82-85 | appends at the end and returns true |
| `Layers.Layer.Get` | src/rogel/io/ai/ann/ArtificialNeuralNetLayer.java:117-120 | returns the neuron at the position, or an index-out-of-bounds failure exactly when the position is outside the list |
| `Layers.Layer.Set` | src/rogel/io/ai/ann/ArtificialNeuralNetLayer.java:172-175 | replaces only the given position and returns the neuron it held; an out-of-range position fails and changes nothing |
| `Layers.Layer.Remove` | src/rogel/io/ai/ann/ArtificialNeuralNetLayer.java:157-160 | removes the given position, closing the gap, and returns the neuron it held; an out-of-range position fails and changes nothing |
| `Layers.Layer.Size` | src/rogel/io/ai/ann/ArtificialNeuralNetLayer.java:177-180 | the number of neurons in the layer |

## Left out

- Random weight generation (`new Random(System.nanoTime())`) is nondeterministic. The draws are a caller-supplied sequence of pairs, each value in [0, 1).
- IEEE-754 rounding: `double` is modelled as `real`, so the sums are exact.
- `toString` of the neuron and the layer: this is diagnostic text that depends on Java's number formatting.
- The rest of the `List` surface of the layer (`add(int, e)`, `addAll`, `clear`, `contains`, `containsAll`, `indexOf`, `isEmpty`, iterators, `lastIndexOf`, `remove(Object)`, `removeAll`, `retainAll`, `subList`, `toArray`). These only forward to `java.util.LinkedList`, and several rely on Java object equality.
- Exception message text. Errors are values of `Results.Error`. Only the kinds are kept: illegal argument, "too great" and "insufficient" weight-vector counts, and index out of bounds.
- Aliasing of weight lists. `setInputWeights` and `Builder.inputWeights` store the caller's list by reference. Here a weight list is a `seq` value, so a later change to the caller's list cannot reach a neuron. Aliasing of neurons themselves is modelled.
- Neurons.Builder.WithInputWeights, Neurons.Builder.WithActivationFunction, Neurons.Builder.WithBias: they return an outcome instead of the builder itself, so call chaining is not modelled. On a refusal, the exception ends the chain in Java; here the caller receives `Fail`.
- `ArtificialNeuron.getInputWeights` is the field `inputWeights` itself, and `BinaryStepFunction.getThreshold` is the datatype field `threshold`. Neither has its own member.
