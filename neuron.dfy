/** Model of neural/NeuronUnit.go: the neuron record, its random initialisation,
    and the single-neuron perceptron (prediction, update rule, training loop and
    accuracy). Go passes a *NeuronUnit; here each operation takes the
    neuron value and returns the updated one. */
module Neuron {
  import Util
  import Patterns
  import Transfer

  datatype NeuronUnit = NeuronUnit(
    weights: seq<real>,
    bias: real,
    learningRate: real,
    value: real,
    delta: real)

  /** RandomNeuronInit: `dim` weights; the weight values, bias, learning rate,
      value and delta all come from the random source and are arbitrary. */
  method RandomNeuronInit(dim: nat) returns (neuron: NeuronUnit)
    ensures |neuron.weights| == dim
  {
    var weights := Util.Zeros(dim);
    var index := 0;
    while index < dim
      invariant 0 <= index <= dim
      invariant |weights| == dim
    {
      var drawn: real := *;
      weights := weights[index := drawn];
      index := index + 1;
    }
    var bias: real, learningRate: real, value: real, delta: real := *, *, *, *;
    neuron := NeuronUnit(weights, bias, learningRate, value, delta);
  }

  // ------------------------------------------------------------------
  // Prediction

  /** Predict: 1 when the scalar product (with its -1 sentinel on a length
      mismatch) plus the bias is non-negative, 0 otherwise. */
  function Predict(neuron: NeuronUnit, pattern: Patterns.Pattern): (r: real)
    ensures r == 0.0 || r == 1.0
    ensures r == 1.0 <==> Util.ScalarValue(neuron.weights, pattern.features) + neuron.bias >= 0.0
  {
    if Util.ScalarValue(neuron.weights, pattern.features) + neuron.bias < 0.0 then 0.0 else 1.0
  }

  /** The perceptron's prediction is the step transfer function of its activation. */
  lemma {:induction false} PredictIsHeaviside(neuron: NeuronUnit, pattern: Patterns.Pattern)
    ensures Predict(neuron, pattern) ==
      Transfer.HeavisideTransfer(Util.ScalarValue(neuron.weights, pattern.features) + neuron.bias)
  {
  }

  // ------------------------------------------------------------------
  // Update rule

  /** The neuron after one application of the perceptron rule. */
  function Updated(neuron: NeuronUnit, pattern: Patterns.Pattern): (r: NeuronUnit)
    requires |pattern.features| >= |neuron.weights|
    ensures |r.weights| == |neuron.weights|
    ensures r.learningRate == neuron.learningRate && r.value == neuron.value && r.delta == neuron.delta
  {
    var err := pattern.singleExpectation - Predict(neuron, pattern);
    neuron.(
      bias := neuron.bias + neuron.learningRate * err,
      weights := seq(|neuron.weights|, i requires 0 <= i < |neuron.weights| =>
        neuron.weights[i] + neuron.learningRate * err * pattern.features[i]))
  }

  /** A pattern the neuron already classifies correctly changes nothing. */
  lemma {:induction false} UpdatedWhenCorrect(neuron: NeuronUnit, pattern: Patterns.Pattern)
    requires |pattern.features| >= |neuron.weights|
    requires Predict(neuron, pattern) == pattern.singleExpectation
    ensures Updated(neuron, pattern) == neuron
  {
    var u := Updated(neuron, pattern);
    assert u.weights == neuron.weights;
  }

  /** UpdateWeights: err = label - prediction; bias += rate * err and
      weights[i] += rate * err * features[i]; returns the error before and
      the error of the updated neuron. */
  method UpdateWeights(neuron: NeuronUnit, pattern: Patterns.Pattern)
    returns (updated: NeuronUnit, prevError: real, postError: real)
    requires |pattern.features| >= |neuron.weights|
    ensures prevError == pattern.singleExpectation - Predict(neuron, pattern)
    ensures updated.bias == neuron.bias + neuron.learningRate * prevError
    ensures |updated.weights| == |neuron.weights|
    ensures forall i :: 0 <= i < |neuron.weights| ==>
      updated.weights[i] == neuron.weights[i] + neuron.learningRate * prevError * pattern.features[i]
    ensures updated.learningRate == neuron.learningRate
    ensures updated.value == neuron.value && updated.delta == neuron.delta
    ensures postError == pattern.singleExpectation - Predict(updated, pattern)
    ensures prevError == 0.0 ==> updated == neuron && postError == 0.0
    ensures updated == Updated(neuron, pattern)
  {
    var predictedValue := Predict(neuron, pattern);
    prevError := pattern.singleExpectation - predictedValue;
    updated := neuron.(bias := neuron.bias + neuron.learningRate * prevError);
    var index := 0;
    while index < |updated.weights|
      invariant 0 <= index <= |updated.weights| == |neuron.weights|
      invariant updated.bias == neuron.bias + neuron.learningRate * prevError
      invariant updated.learningRate == neuron.learningRate
      invariant updated.value == neuron.value && updated.delta == neuron.delta
      invariant forall i :: 0 <= i < index ==>
        updated.weights[i] == neuron.weights[i] + neuron.learningRate * prevError * pattern.features[i]
      invariant forall i :: index <= i < |neuron.weights| ==> updated.weights[i] == neuron.weights[i]
    {
      updated := updated.(weights := updated.weights[index :=
        updated.weights[index] + updated.learningRate * prevError * pattern.features[index]]);
      index := index + 1;
    }
    ghost var target := Updated(neuron, pattern);
    assert forall i :: 0 <= i < |neuron.weights| ==> updated.weights[i] == target.weights[i];
    assert updated.weights == target.weights;
    assert updated == target;
    if prevError == 0.0 {
      UpdatedWhenCorrect(neuron, pattern);
    }
    predictedValue := Predict(updated, pattern);
    postError := pattern.singleExpectation - predictedValue;
  }

  // ------------------------------------------------------------------
  // Training

  ghost predicate FeaturesCover(patterns: seq<Patterns.Pattern>, dim: nat)
  {
    forall i :: 0 <= i < |patterns| ==> |patterns[i].features| >= dim
  }

  /** One pass of the update rule over the patterns, in order. */
  function TrainPass(neuron: NeuronUnit, patterns: seq<Patterns.Pattern>): (r: NeuronUnit)
    requires FeaturesCover(patterns, |neuron.weights|)
    ensures |r.weights| == |neuron.weights|
    ensures r.learningRate == neuron.learningRate && r.value == neuron.value && r.delta == neuron.delta
  {
    if patterns == [] then neuron
    else Updated(TrainPass(neuron, patterns[..|patterns| - 1]), patterns[|patterns| - 1])
  }

  /** `epochs` passes (none when epochs <= 0). */
  function Train(neuron: NeuronUnit, patterns: seq<Patterns.Pattern>, epochs: int): (r: NeuronUnit)
    requires FeaturesCover(patterns, |neuron.weights|)
    ensures |r.weights| == |neuron.weights|
    ensures r.learningRate == neuron.learningRate && r.value == neuron.value && r.delta == neuron.delta
    decreases epochs
  {
    if epochs <= 0 then neuron else TrainPass(Train(neuron, patterns, epochs - 1), patterns)
  }

  /** The neuron training starts from: with init == 1, zero weights as long as
      the first pattern's features and a zero bias. */
  function TrainStart(neuron: NeuronUnit, patterns: seq<Patterns.Pattern>, init: int): NeuronUnit
    requires init == 1 ==> |patterns| > 0
  {
    if init == 1 then neuron.(weights := Util.Zeros(|patterns[0].features|), bias := 0.0) else neuron
  }

  /** A pass over patterns that the neuron already classifies correctly is a no-op. */
  lemma {:induction false} TrainPassFixpoint(neuron: NeuronUnit, patterns: seq<Patterns.Pattern>)
    requires FeaturesCover(patterns, |neuron.weights|)
    requires forall i :: 0 <= i < |patterns| ==> Predict(neuron, patterns[i]) == patterns[i].singleExpectation
    ensures TrainPass(neuron, patterns) == neuron
  {
    if patterns != [] {
      TrainPassFixpoint(neuron, patterns[..|patterns| - 1]);
      UpdatedWhenCorrect(neuron, patterns[|patterns| - 1]);
    }
  }

  /** Once every pattern is classified correctly, further epochs change nothing. */
  lemma {:induction false} TrainFixpoint(neuron: NeuronUnit, patterns: seq<Patterns.Pattern>, epochs: int)
    requires FeaturesCover(patterns, |neuron.weights|)
    requires forall i :: 0 <= i < |patterns| ==> Predict(neuron, patterns[i]) == patterns[i].singleExpectation
    ensures Train(neuron, patterns, epochs) == neuron
    decreases epochs
  {
    if epochs > 0 {
      TrainFixpoint(neuron, patterns, epochs - 1);
      TrainPassFixpoint(neuron, patterns);
    }
  }

  /** TrainNeuron: optional reset (init == 1), then exactly `epochs` passes, each
      applying UpdateWeights to every pattern in order. */
  method TrainNeuron(neuron: NeuronUnit, patterns: seq<Patterns.Pattern>, epochs: int, init: int)
    returns (trained: NeuronUnit)
    requires init == 1 ==> |patterns| > 0
    requires FeaturesCover(patterns, |TrainStart(neuron, patterns, init).weights|)
    ensures trained == Train(TrainStart(neuron, patterns, init), patterns, epochs)
    ensures epochs <= 0 ==> trained == TrainStart(neuron, patterns, init)
    ensures init == 1 ==> |trained.weights| == |patterns[0].features|
    ensures init != 1 ==> |trained.weights| == |neuron.weights|
    ensures trained.learningRate == neuron.learningRate
    ensures trained.value == neuron.value && trained.delta == neuron.delta
  {
    trained := neuron;
    if init == 1 {
      trained := trained.(weights := Util.Zeros(|patterns[0].features|), bias := 0.0);
    }
    ghost var start := trained;
    assert start == TrainStart(neuron, patterns, init);
    var epoch := 0;
    while epoch < epochs
      invariant 0 <= epoch && (epochs > 0 ==> epoch <= epochs)
      invariant epochs <= 0 ==> epoch == 0
      invariant trained == Train(start, patterns, epoch)
    {
      ghost var before := trained;
      var j := 0;
      while j < |patterns|
        invariant 0 <= j <= |patterns|
        invariant trained == TrainPass(before, patterns[..j])
      {
        assert patterns[..j + 1][..j] == patterns[..j];
        var prevError, postError;
        trained, prevError, postError := UpdateWeights(trained, patterns[j]);
        j := j + 1;
      }
      assert patterns[..j] == patterns;
      epoch := epoch + 1;
    }
  }

  // ------------------------------------------------------------------
  // Accuracy

  /** Number of positions k < n where a and b agree. */
  function CountEqual(a: seq<real>, b: seq<real>, n: nat): (r: nat)
    requires n <= |a| && n <= |b|
    ensures r <= n
  {
    if n == 0 then 0 else CountEqual(a, b, n - 1) + (if a[n - 1] == b[n - 1] then 1 else 0)
  }

  /** CountEqual is the size of the set of agreeing positions. */
  lemma {:induction false} CountEqualIsCardinality(a: seq<real>, b: seq<real>, n: nat)
    requires n <= |a| && n <= |b|
    ensures CountEqual(a, b, n) == |set k | 0 <= k < n && a[k] == b[k]|
  {
    if n > 0 {
      CountEqualIsCardinality(a, b, n - 1);
      var before := set k | 0 <= k < n - 1 && a[k] == b[k];
      var now := set k | 0 <= k < n && a[k] == b[k];
      if a[n - 1] == b[n - 1] {
        assert now == before + {n - 1};
      } else {
        assert now == before;
      }
    }
  }

  /** The value Accuracy returns: the (-1, -1.0) sentinel on different lengths;
      otherwise the count of equal positions and count / length * 100, which is
      NaN (0/0) for two empty inputs. */
  function AccuracyScore(actual: seq<real>, predicted: seq<real>): (int, Util.Float)
  {
    var sentinel: (int, Util.Float) := (-1, Util.Finite(-1.0));
    if |actual| != |predicted| then sentinel
    else
      var correct := CountEqual(actual, predicted, |actual|);
      (correct, if |actual| == 0 then Util.NaN
                else Util.Finite(correct as real / |actual| as real * 100.0))
  }

  /** On equal lengths the percentage lies in [0, 100], and is 100 exactly when
      the inputs agree everywhere. */
  lemma {:induction false} AccuracyScoreBounds(actual: seq<real>, predicted: seq<real>)
    requires |actual| == |predicted| > 0
    ensures AccuracyScore(actual, predicted).1.Finite?
    ensures 0.0 <= AccuracyScore(actual, predicted).1.value <= 100.0
    ensures AccuracyScore(actual, predicted).1.value == 100.0 <==> actual == predicted
  {
    var n := |actual|;
    CountEqualFull(actual, predicted, n);
    PercentageBounds(CountEqual(actual, predicted, n), n);
    if CountEqual(actual, predicted, n) == n {
      assert actual == predicted;
    }
  }

  /** All n positions agree exactly when the count reaches n. */
  lemma {:induction false} CountEqualFull(a: seq<real>, b: seq<real>, n: nat)
    requires n <= |a| && n <= |b|
    ensures CountEqual(a, b, n) == n <==> forall k :: 0 <= k < n ==> a[k] == b[k]
  {
    if n > 0 {
      CountEqualFull(a, b, n - 1);
    }
  }

  /** c / n * 100 lies in [0, 100] for c <= n, and is 100 exactly when c == n. */
  lemma {:induction false} PercentageBounds(c: nat, n: nat)
    requires 0 < n && c <= n
    ensures 0.0 <= c as real / n as real * 100.0 <= 100.0
    ensures c as real / n as real * 100.0 == 100.0 <==> c == n
  {
    var q := c as real / n as real;
    assert q * n as real == c as real;
    assert (1.0 - q) * n as real == n as real - c as real;
    if q == 1.0 {
      assert c as real == n as real;
    }
  }

  /** The documented example: two of four labels agree, 50 percent. */
  lemma {:induction false} AccuracyExample()
    ensures AccuracyScore([1.0, 0.0, 1.0, 1.0], [1.0, 1.0, 1.0, 0.0]) == (2, Util.Finite(50.0))
  {
    var a, b := [1.0, 0.0, 1.0, 1.0], [1.0, 1.0, 1.0, 0.0];
    assert CountEqual(a, b, 1) == 1;
    assert CountEqual(a, b, 2) == 1;
    assert CountEqual(a, b, 3) == 2;
    assert CountEqual(a, b, 4) == 2;
  }

  /** Accuracy: the sentinel on different lengths, else the count of equal
      positions and its percentage. */
  method Accuracy(actual: seq<real>, predicted: seq<real>) returns (correct: int, percentage: Util.Float)
    ensures |actual| != |predicted| ==> correct == -1 && percentage == Util.Finite(-1.0)
    ensures |actual| == |predicted| ==> 0 <= correct <= |actual|
    ensures (correct, percentage) == AccuracyScore(actual, predicted)
  {
    if |actual| != |predicted| {
      return -1, Util.Finite(-1.0);
    }
    correct := 0;
    var index := 0;
    while index < |actual|
      invariant 0 <= index <= |actual|
      invariant correct == CountEqual(actual, predicted, index)
    {
      if actual[index] == predicted[index] {
        correct := correct + 1;
      }
      index := index + 1;
    }
    if |actual| == 0 {
      percentage := Util.NaN;
    } else {
      percentage := Util.Finite(correct as real / |actual| as real * 100.0);
    }
  }
}
