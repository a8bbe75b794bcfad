/** The activation-function interface and its one implementation, the binary step function. */
module Activation {

  /** An activation function. The source declares a one-method interface whose only
      implementation is BinaryStepFunction; here each implementation is a variant.
      The fields follow the constructor's argument order: the value returned when the
      inputs do not exceed the threshold, the value returned when they do, and the
      threshold. "Less" and "greater" are labels: nothing orders the two values. */
  datatype ActivationFunction = BinaryStep(valueIfLess: real, valueIfGreater: real, threshold: real)

  /** The sum of the inputs; the empty list sums to 0. */
  function Sum(s: seq<real>): real
  {
    if s == [] then 0.0 else s[0] + Sum(s[1..])
  }

  lemma {:induction false} SumAppend(a: seq<real>, b: seq<real>)
    ensures Sum(a + b) == Sum(a) + Sum(b)
  {
    if a == [] {
      assert a + b == b;
    } else {
      assert (a + b)[1..] == a[1..] + b;
      SumAppend(a[1..], b);
    }
  }

  /** What compute returns for a list of inputs. */
  function Compute(f: ActivationFunction, input: seq<real>): (r: real)
    ensures r == f.valueIfLess || r == f.valueIfGreater
    ensures f.valueIfLess != f.valueIfGreater ==> (r == f.valueIfGreater <==> Sum(input) > f.threshold)
  {
    match f
    case BinaryStep(low, high, threshold) => if Sum(input) > threshold then high else low
  }

  /** compute as the source runs it: accumulate the sum front to back, then compare. */
  method Evaluate(f: ActivationFunction, input: seq<real>) returns (r: real)
    ensures r == Compute(f, input)
  {
    var sum := 0.0;
    for i := 0 to |input|
      invariant sum == Sum(input[..i])
    {
      assert input[..i + 1] == input[..i] + [input[i]];
      SumAppend(input[..i], [input[i]]);
      sum := sum + input[i];
    }
    assert input[..|input|] == input;
    r := if sum > f.threshold then f.valueIfGreater else f.valueIfLess;
  }

  /** The comparison is strict: a sum equal to the threshold gives the "less" value. */
  lemma ComputeAtThreshold(f: ActivationFunction, input: seq<real>)
    requires Sum(input) == f.threshold
    ensures Compute(f, input) == f.valueIfLess
  {
  }

  /** An empty input sums to 0. */
  lemma ComputeOnEmpty(f: ActivationFunction)
    ensures Compute(f, []) == if 0.0 > f.threshold then f.valueIfGreater else f.valueIfLess
  {
  }

  /** BinaryStepFunction(a, b, c): a is returned at or below the threshold, b above it,
      and the threshold (what getThreshold answers) is c. */
  lemma BinaryStepArgumentOrder(a: real, b: real, c: real, input: seq<real>)
    ensures BinaryStep(a, b, c).threshold == c
    ensures Sum(input) > c ==> Compute(BinaryStep(a, b, c), input) == b
    ensures Sum(input) <= c ==> Compute(BinaryStep(a, b, c), input) == a
  {
  }
}
