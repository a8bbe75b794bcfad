/** A layer: an ordered list of neurons, with bulk weight assignment. */
module Layers {
  import opened Results
  import opened Activation
  import opened Neurons

  /** The last position before k at which neuron n stands in ns, or -1 if none. */
  function LastIndexBefore(ns: seq<Neuron>, n: Neuron, k: nat): (j: int)
    requires k <= |ns|
    ensures -1 <= j < k
    ensures 0 <= j ==> ns[j] == n
  {
    if k == 0 then -1
    else if ns[k - 1] == n then k - 1
    else LastIndexBefore(ns, n, k - 1)
  }

  /** No position between the one LastIndexBefore finds and k holds n. */
  lemma {:induction false} LastIndexBeforeIsLast(ns: seq<Neuron>, n: Neuron, k: nat, m: nat)
    requires k <= |ns| && LastIndexBefore(ns, n, k) < m < k
    ensures ns[m] != n
  {
    if ns[k - 1] != n && m < k - 1 {
      LastIndexBeforeIsLast(ns, n, k - 1, m);
    }
  }

  /** The position of the first weight vector that setInputWeights refuses, or |ws| if none. */
  function FirstRejected(ws: seq<Option<seq<real>>>): (k: nat)
    ensures k <= |ws|
    ensures forall m :: 0 <= m < k ==> AcceptableWeights(ws[m])
    ensures k < |ws| ==> !AcceptableWeights(ws[k])
  {
    if ws == [] || !AcceptableWeights(ws[0]) then 0 else 1 + FirstRejected(ws[1..])
  }

  /** How many assignments setInputWeightsForAll carries out on a layer of the given size:
      none when the counts differ, otherwise those before the first refused vector. */
  function UpdatedCount(ws: seq<Option<seq<real>>>, size: nat): nat
  {
    if |ws| == size then FirstRejected(ws) else 0
  }

  /** The weights neuron ns[i] holds once the first k vectors of ws have been assigned,
      in order, to ns[0], ..., ns[k-1], given the weights it held before. A neuron that
      stands at several positions keeps the vector of the last of them. */
  function WeightsAfter(ns: seq<Neuron>, ws: seq<Option<seq<real>>>, k: nat, i: nat, before: seq<real>): seq<real>
    requires k <= |ns| && k <= FirstRejected(ws) && i < |ns|
  {
    var j := LastIndexBefore(ns, ns[i], k);
    if j < 0 then before else assert AcceptableWeights(ws[j]); ws[j].value
  }

  /** One more assignment, to ns[k], changes exactly the neurons that are ns[k]. */
  lemma AssignNext(ns: seq<Neuron>, ws: seq<Option<seq<real>>>, k: nat, i: nat, before: seq<real>)
    requires k < |ns| && k < FirstRejected(ws) && i < |ns|
    ensures WeightsAfter(ns, ws, k + 1, i, before)
         == if ns[i] == ns[k] then ws[k].value else WeightsAfter(ns, ws, k, i, before)
  {
  }

  /** Assignment keeps every neuron's weight list non-empty. */
  lemma WeightsAfterValid(ns: seq<Neuron>, ws: seq<Option<seq<real>>>, k: nat, i: nat, before: seq<real>)
    requires k <= |ns| && k <= FirstRejected(ws) && i < |ns|
    requires |before| >= 1
    ensures |WeightsAfter(ns, ws, k, i, before)| >= 1
  {
  }

  /** With no neuron repeated, the first k neurons take their own vectors and the rest keep theirs. */
  lemma DistinctNeuronsPrefixUpdated(ns: seq<Neuron>, ws: seq<Option<seq<real>>>, k: nat, i: nat, before: seq<real>)
    requires k <= |ns| && k <= FirstRejected(ws) && i < |ns|
    requires forall a, b :: 0 <= a < b < |ns| ==> ns[a] != ns[b]
    ensures WeightsAfter(ns, ws, k, i, before) == if i < k then ws[i].value else before
  {
    if i < k {
      if LastIndexBefore(ns, ns[i], k) < i {
        LastIndexBeforeIsLast(ns, ns[i], k, i);
      }
    }
  }

  /** The same neuron at two positions: the later assignment wins. */
  lemma LaterAssignmentWins(n: Neuron, v: seq<real>, w: seq<real>, before: seq<real>)
    requires |v| >= 1 && |w| >= 1
    ensures WeightsAfter([n, n], [Some(v), Some(w)], 2, 0, before) == w
    ensures WeightsAfter([n, n], [Some(v), Some(w)], 2, 1, before) == w
  {
  }

  class Layer {
    var neurons: seq<Neuron>

    /** The no-argument constructor: an empty layer, built without any builder. */
    constructor ()
      ensures neurons == []
    {
      neurons := [];
    }

    /** The sized constructor: numberOfNeurons default neurons with
        numberOfInputWeightsPerNeuron weights each, in creation order. Neuron i draws
        its weights from draws[i]. The builder refuses fewer than one weight, but only
        if it is invoked at all. */
    static method New(numberOfNeurons: int, numberOfInputWeightsPerNeuron: int, draws: seq<seq<(real, real)>>)
      returns (r: Result<Layer>)
      requires numberOfNeurons <= |draws|
      requires forall i :: 0 <= i < |draws| ==> numberOfInputWeightsPerNeuron <= |draws[i]| && Uniform(draws[i])
      ensures r.Failure? <==> numberOfNeurons > 0 && numberOfInputWeightsPerNeuron < 1
      ensures r.Failure? ==> r.error == IllegalArgument
      ensures r.Success? ==> fresh(r.value) && |r.value.neurons| == if numberOfNeurons > 0 then numberOfNeurons else 0
      ensures r.Success? ==> forall i :: 0 <= i < |r.value.neurons| ==>
                fresh(r.value.neurons[i]) && r.value.neurons[i].Valid()
                && r.value.neurons[i].inputWeights == DrawnWeights(draws[i], numberOfInputWeightsPerNeuron)
                && r.value.neurons[i].activationFunction == DEFAULT_ACTIVATION
                && r.value.neurons[i].bias == DEFAULT_BIAS
      ensures r.Success? ==> forall a, b :: 0 <= a < b < |r.value.neurons| ==> r.value.neurons[a] != r.value.neurons[b]
    {
      var created: seq<Neuron> := [];
      var i := 0;
      while i < numberOfNeurons
        invariant 0 <= i && |created| == i
        invariant i > 0 ==> i <= numberOfNeurons && numberOfInputWeightsPerNeuron >= 1
        invariant forall m :: 0 <= m < i ==>
                    fresh(created[m]) && created[m].Valid()
                    && created[m].inputWeights == DrawnWeights(draws[m], numberOfInputWeightsPerNeuron)
                    && created[m].activationFunction == DEFAULT_ACTIVATION
                    && created[m].bias == DEFAULT_BIAS
        invariant forall a, b :: 0 <= a < b < i ==> created[a] != created[b]
      {
        var builder := Builder.New(numberOfInputWeightsPerNeuron, draws[i]);
        if builder.Failure? {
          return Failure(builder.error);
        }
        var neuron := builder.value.Build();
        created := created + [neuron];
        i := i + 1;
      }
      var layer := new Layer();
      layer.neurons := created;
      r := Success(layer);
    }

    /** setInputWeightsForAll: the vector count must equal the neuron count ("too great" or
        "insufficient" otherwise, and nothing changes). The vectors are then assigned in
        order with no rollback: at the first refused vector the exception propagates and
        the neurons before it keep their new weights. Only weights change, and every
        neuron that held at least one weight still does. */
    method SetInputWeightsForAll(layerInputWeights: seq<Option<seq<real>>>) returns (r: Outcome)
      modifies neurons
      ensures neurons == old(neurons)
      ensures |layerInputWeights| > |neurons| ==> r == Fail(TooManyWeightVectors)
      ensures |layerInputWeights| < |neurons| ==> r == Fail(InsufficientWeightVectors)
      ensures |layerInputWeights| == |neurons| ==>
                r == if FirstRejected(layerInputWeights) == |neurons| then Pass else Fail(IllegalArgument)
      ensures forall i :: 0 <= i < |neurons| ==>
                neurons[i].inputWeights
                == WeightsAfter(neurons, layerInputWeights, UpdatedCount(layerInputWeights, |neurons|), i,
                                old(neurons[i].inputWeights))
      ensures forall i :: 0 <= i < |neurons| ==>
                neurons[i].bias == old(neurons[i].bias)
                && neurons[i].activationFunction == old(neurons[i].activationFunction)
      ensures forall i :: 0 <= i < |neurons| && old(neurons[i].Valid()) ==> neurons[i].Valid()
    {
      if |layerInputWeights| > |neurons| {
        return Fail(TooManyWeightVectors);
      } else if |layerInputWeights| < |neurons| {
        return Fail(InsufficientWeightVectors);
      }
      var i := 0;
      r := Pass;
      while i < |neurons|
        invariant 0 <= i <= |neurons|
        invariant i <= FirstRejected(layerInputWeights)
        invariant forall n {:trigger WeightsAfter(neurons, layerInputWeights, i, n, old(neurons[n].inputWeights))}
                    :: 0 <= n < |neurons| ==>
                    neurons[n].inputWeights
                    == WeightsAfter(neurons, layerInputWeights, i, n, old(neurons[n].inputWeights))
        invariant forall n :: 0 <= n < |neurons| ==>
                    neurons[n].bias == old(neurons[n].bias)
                    && neurons[n].activationFunction == old(neurons[n].activationFunction)
        invariant r == Pass
      {
        r := neurons[i].SetInputWeights(layerInputWeights[i]);
        if r.Fail? {
          break;
        }
        assert AcceptableWeights(layerInputWeights[i]);
        assert i + 1 <= FirstRejected(layerInputWeights);
        forall n | 0 <= n < |neurons|
          ensures neurons[n].inputWeights
               == WeightsAfter(neurons, layerInputWeights, i + 1, n, old(neurons[n].inputWeights))
        {
          AssignNext(neurons, layerInputWeights, i, n, old(neurons[n].inputWeights));
        }
        i := i + 1;
      }
      assert FirstRejected(layerInputWeights) == i;
      forall n | 0 <= n < |neurons| && old(neurons[n].Valid())
        ensures neurons[n].Valid()
      {
        WeightsAfterValid(neurons, layerInputWeights, i, n, old(neurons[n].inputWeights));
      }
    }

    /** add(e): appends at the end and reports a change. */
    method Add(e: Neuron) returns (changed: bool)
      modifies this
      ensures neurons == old(neurons) + [e]
      ensures changed
    {
      neurons := neurons + [e];
      changed := true;
    }

    /** get(index). */
    method Get(index: int) returns (r: Result<Neuron>)
      ensures r.Success? <==> 0 <= index < |neurons|
      ensures r.Success? ==> r.value == neurons[index]
      ensures r.Failure? ==> r.error == IndexOutOfBounds
    {
      if 0 <= index < |neurons| {
        r := Success(neurons[index]);
      } else {
        r := Failure(IndexOutOfBounds);
      }
    }

    /** set(index, element): replaces one position and returns the neuron it held. */
    method Set(index: int, element: Neuron) returns (r: Result<Neuron>)
      modifies this
      ensures r.Success? <==> 0 <= index < |old(neurons)|
      ensures r.Success? ==> r.value == old(neurons)[index] && neurons == old(neurons)[index := element]
      ensures r.Failure? ==> r.error == IndexOutOfBounds && neurons == old(neurons)
    {
      if 0 <= index < |neurons| {
        r := Success(neurons[index]);
        neurons := neurons[index := element];
      } else {
        r := Failure(IndexOutOfBounds);
      }
    }

    /** remove(index): removes one position, closing the gap, and returns the neuron it held. */
    method Remove(index: int) returns (r: Result<Neuron>)
      modifies this
      ensures r.Success? <==> 0 <= index < |old(neurons)|
      ensures r.Success? ==> r.value == old(neurons)[index] && neurons == old(neurons)[..index] + old(neurons)[index + 1..]
      ensures r.Failure? ==> r.error == IndexOutOfBounds && neurons == old(neurons)
    {
      if 0 <= index < |neurons| {
        r := Success(neurons[index]);
        neurons := neurons[..index] + neurons[index + 1..];
      } else {
        r := Failure(IndexOutOfBounds);
      }
    }

    /** size(). */
    method Size() returns (n: nat)
      ensures n == |neurons|
    {
      n := |neurons|;
    }
  }
}
