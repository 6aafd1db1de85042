/** Model of neural/MutiLayerNetwork.go: the layered network, its construction,
    the forward pass (plain and Elman-recurrent), the backward pass and the two
    epoch drivers. The network is an object whose `layers` the passes update in
    place; the transfer function and its derivative are parameters of type
    `real -> real`. */
module Network {
  import Util
  import Neuron
  import Patterns
  import Layer

  type Layers = seq<Layer.NeuralLayer>

  // ------------------------------------------------------------------
  // Shape

  /** Every layer's recorded length is its number of units, and every unit of a
      layer after the first has (at least) one weight per unit of the layer
      before it. Layer 0 units' weights are never read. */
  ghost predicate WellFormed(ls: Layers)
  {
    (forall t :: 0 <= t < |ls| ==> ls[t].length == |ls[t].units|) &&
    (forall t, j :: 1 <= t < |ls| && 0 <= j < |ls[t].units| ==>
      |ls[t].units[j].weights| >= ls[t - 1].length)
  }

  /** Two units that agree in everything but their output value. */
  predicate SameParameters(u: Neuron.NeuronUnit, v: Neuron.NeuronUnit)
  {
    u.weights == v.weights && u.bias == v.bias && u.learningRate == v.learningRate && u.delta == v.delta
  }

  /** Two networks of the same shape whose units differ at most in their values. */
  ghost predicate OnlyValuesDiffer(a: Layers, b: Layers)
  {
    |a| == |b| &&
    forall t :: 0 <= t < |a| ==>
      a[t].length == b[t].length && |a[t].units| == |b[t].units| &&
      forall j :: 0 <= j < |a[t].units| ==> SameParameters(a[t].units[j], b[t].units[j])
  }

  /** Two networks equal in parameters and in every layer's values are equal. */
  lemma {:induction false} SameValuesSameLayers(a: Layers, b: Layers)
    requires OnlyValuesDiffer(a, b)
    requires forall t :: 0 <= t < |a| ==> Layer.Values(a[t]) == Layer.Values(b[t])
    ensures a == b
  {
    forall t | 0 <= t < |a|
      ensures a[t] == b[t]
    {
      forall j | 0 <= j < |a[t].units|
        ensures a[t].units[j] == b[t].units[j]
      {
        assert Layer.Values(a[t])[j] == Layer.Values(b[t])[j];
      }
      assert a[t].units == b[t].units;
    }
  }

  /** The network with one unit's value replaced. */
  function SetValue(ls: Layers, t: nat, j: nat, v: real): (r: Layers)
    requires t < |ls| && j < |ls[t].units|
    ensures |r| == |ls|
    ensures forall s :: 0 <= s < |ls| && s != t ==> r[s] == ls[s]
    ensures r[t].length == ls[t].length && |r[t].units| == |ls[t].units|
    ensures forall c :: 0 <= c < |ls[t].units| && c != j ==> r[t].units[c] == ls[t].units[c]
    ensures r[t].units[j] == ls[t].units[j].(value := v)
  {
    ls[t := ls[t].(units := ls[t].units[j := ls[t].units[j].(value := v)])]
  }

  /** A unit's delta: the error it receives times tfd of its value. */
  function Delta(errorValue: real, tfd: real -> real, value: real): real
  {
    errorValue * tfd(value)
  }

  /** The unit with its delta replaced. */
  function WithDelta(u: Neuron.NeuronUnit, d: real): Neuron.NeuronUnit
  {
    u.(delta := d)
  }

  /** The network with one unit replaced. */
  function SetUnit(ls: Layers, t: nat, j: nat, u: Neuron.NeuronUnit): (r: Layers)
    requires t < |ls| && j < |ls[t].units|
    ensures |r| == |ls|
    ensures forall s :: 0 <= s < |ls| && s != t ==> r[s] == ls[s]
    ensures r[t].length == ls[t].length && |r[t].units| == |ls[t].units|
    ensures forall c :: 0 <= c < |ls[t].units| && c != j ==> r[t].units[c] == ls[t].units[c]
    ensures r[t].units[j] == u
  {
    ls[t := ls[t].(units := ls[t].units[j := u])]
  }

  // ------------------------------------------------------------------
  // Forward pass: what each slot receives

  /** The optional trailing argument of Execute selects Elman mode when its first
      element is 1. */
  function Recurrent(options: seq<int>): bool
  {
    |options| > 0 && options[0] == 1
  }

  /** In Elman mode the hidden layer must be wide enough to fill every context
      slot of the input layer (the copy indexes it at slot - F). */
  ghost predicate ContextFits(ls: Layers, width: nat, recurrent: bool)
    requires |ls| >= 1
  {
    recurrent && |ls| > 1 && ls[1].length > 0 ==> ls[0].length - width <= ls[1].length
  }

  /** What Execute needs of the network and the input: at least one layer, no
      more features than input units, and room for the context copy. */
  ghost predicate CanExecute(ls: Layers, features: seq<real>, recurrent: bool)
  {
    WellFormed(ls) && |ls| >= 1 && |features| <= ls[0].length &&
    ContextFits(ls, |features|, recurrent)
  }

  /** tf(sum of weights[k] * inputs[k] for k < n, plus the bias). */
  function Activation(tf: real -> real, u: Neuron.NeuronUnit, inputs: seq<real>, n: nat): real
    requires n <= |u.weights| && n <= |inputs|
  {
    tf(Util.Dot(u.weights, inputs, n) + u.bias)
  }

  /** Input-layer values after the fill: the features, then 0.5 in every
      remaining (context) slot. */
  function InputFill(features: seq<real>, width: nat): (r: seq<real>)
    requires |features| <= width
    ensures |r| == width
  {
    seq(width, k requires 0 <= k < width => if k < |features| then features[k] else 0.5)
  }

  /** Input-layer values after the Elman copy: slot F + c holds hidden value c. */
  function ContextCopied(v0: seq<real>, f: nat, hidden: seq<real>): (r: seq<real>)
    requires f <= |v0| && |v0| - f <= |hidden|
    ensures |r| == |v0|
  {
    seq(|v0|, k requires 0 <= k < |v0| => if k < f then v0[k] else hidden[k - f])
  }

  /** The input-layer values hidden unit j reads in Elman mode. Unit 0 reads the
      filled input `v0`; unit j > 0 reads, in context slot F + c, the value hidden
      unit c had when the copy after unit j - 1 ran: the new value for c < j and
      the value from before this pass (`before`) for c >= j. */
  function Seen(v0: seq<real>, f: nat, before: seq<real>, after: seq<real>, j: nat): (r: seq<real>)
    requires f <= |v0|
    requires j > 0 ==> |v0| - f <= |before| && |v0| - f <= |after|
    ensures |r| == |v0|
  {
    seq(|v0|, k requires 0 <= k < |v0| =>
      if k < f || j == 0 then v0[k] else if k - f < j then after[k - f] else before[k - f])
  }

  /** Seen(.., j) depends only on the first j new hidden values. */
  lemma {:induction false} SeenPrefix(v0: seq<real>, f: nat, before: seq<real>, a: seq<real>, b: seq<real>, j: nat)
    requires f <= |v0|
    requires j > 0 ==> |v0| - f <= |before| && |v0| - f <= |a| && |v0| - f <= |b|
    requires forall c :: 0 <= c < j && c < |a| && c < |b| ==> a[c] == b[c]
    ensures Seen(v0, f, before, a, j) == Seen(v0, f, before, b, j)
  {
  }

  /** Every unit of `layer` holds tf(its weights against `prev`'s values + bias). */
  ghost predicate LayerComputed(tf: real -> real, layer: Layer.NeuralLayer, prev: Layer.NeuralLayer)
    requires prev.length == |prev.units|
    requires forall j :: 0 <= j < |layer.units| ==> |layer.units[j].weights| >= prev.length
  {
    forall j :: 0 <= j < |layer.units| ==>
      layer.units[j].value == Activation(tf, layer.units[j], Layer.Values(prev), prev.length)
  }

  /** Elman mode: hidden unit j holds tf(its weights against what it saw + bias). */
  ghost predicate HiddenComputed(tf: real -> real, v0: seq<real>, f: nat, before: seq<real>,
                                 hidden: Layer.NeuralLayer)
    requires f <= |v0| && |before| == |hidden.units|
    requires |hidden.units| > 0 ==> |v0| - f <= |hidden.units|
    requires forall j :: 0 <= j < |hidden.units| ==> |hidden.units[j].weights| >= |v0|
  {
    forall j :: 0 <= j < |hidden.units| ==>
      hidden.units[j].value ==
        Activation(tf, hidden.units[j], Seen(v0, f, before, Layer.Values(hidden), j), |v0|)
  }

  /** The forward pass from `before` to `after` of Execute(input, options):
      only values change; the input layer holds the features and 0.5 in its
      context slots (in Elman mode: a copy of the hidden layer); every later layer
      is computed from the final values of the layer before it, except the hidden
      layer in Elman mode, whose units see the context as it stood when they ran. */
  ghost predicate Forwarded(before: Layers, after: Layers, features: seq<real>, recurrent: bool,
                            tf: real -> real)
  {
    CanExecute(before, features, recurrent) && WellFormed(after) && OnlyValuesDiffer(before, after) &&
    var fill := InputFill(features, before[0].length);
    var copied := recurrent && |after| > 1 && after[1].length > 0;
    (Layer.Values(after[0]) == if copied then ContextCopied(fill, |features|, Layer.Values(after[1])) else fill) &&
    (forall t :: 1 <= t < |after| && !(recurrent && t == 1) ==> LayerComputed(tf, after[t], after[t - 1])) &&
    (recurrent && |after| > 1 ==>
      HiddenComputed(tf, fill, |features|, Layer.Values(before[1]), after[1]))
  }

  lemma {:induction false} OnlyValuesDifferSymmetric(a: Layers, b: Layers)
    requires OnlyValuesDiffer(a, b)
    ensures OnlyValuesDiffer(b, a)
  {
  }

  lemma {:induction false} OnlyValuesDifferTransitive(a: Layers, b: Layers, c: Layers)
    requires OnlyValuesDiffer(a, b) && OnlyValuesDiffer(b, c)
    ensures OnlyValuesDiffer(a, c)
  {
  }

  /** Two hidden layers with the same parameters, computed in Elman mode from the
      same input and the same earlier hidden values, agree on their first n units. */
  lemma {:induction false} HiddenUnique(tf: real -> real, v0: seq<real>, f: nat, before: seq<real>,
                                        h1: Layer.NeuralLayer, h2: Layer.NeuralLayer, n: nat)
    requires f <= |v0| && |before| == |h1.units| == |h2.units|
    requires |h1.units| > 0 ==> |v0| - f <= |h1.units|
    requires forall j :: 0 <= j < |h1.units| ==> |h1.units[j].weights| >= |v0|
    requires forall j :: 0 <= j < |h1.units| ==> |h2.units[j].weights| >= |v0|
    requires forall j :: 0 <= j < |h1.units| ==> SameParameters(h1.units[j], h2.units[j])
    requires HiddenComputed(tf, v0, f, before, h1) && HiddenComputed(tf, v0, f, before, h2)
    requires n <= |h1.units|
    ensures forall c :: 0 <= c < n ==> h1.units[c].value == h2.units[c].value
  {
    if n > 0 {
      HiddenUnique(tf, v0, f, before, h1, h2, n - 1);
      SeenPrefix(v0, f, before, Layer.Values(h1), Layer.Values(h2), n - 1);
    }
  }

  /** Two layers with the same parameters computed from equal previous values agree. */
  lemma {:induction false} LayerUnique(tf: real -> real, l1: Layer.NeuralLayer, p1: Layer.NeuralLayer,
                    l2: Layer.NeuralLayer, p2: Layer.NeuralLayer)
    requires p1.length == |p1.units| && p2.length == |p2.units| && p1.length == p2.length
    requires |l1.units| == |l2.units|
    requires forall j :: 0 <= j < |l1.units| ==> |l1.units[j].weights| >= p1.length
    requires forall j :: 0 <= j < |l2.units| ==> |l2.units[j].weights| >= p2.length
    requires forall j :: 0 <= j < |l1.units| ==> SameParameters(l1.units[j], l2.units[j])
    requires LayerComputed(tf, l1, p1) && LayerComputed(tf, l2, p2)
    requires Layer.Values(p1) == Layer.Values(p2)
    ensures Layer.Values(l1) == Layer.Values(l2)
  {
    forall j | 0 <= j < |l1.units|
      ensures Layer.Values(l1)[j] == Layer.Values(l2)[j]
    {
      assert l1.units[j].value == Activation(tf, l1.units[j], Layer.Values(p1), p1.length);
      assert l2.units[j].value == Activation(tf, l2.units[j], Layer.Values(p2), p2.length);
    }
  }

  /** Layer by layer: the values a forward pass leaves are determined. */
  lemma {:induction false} ForwardedLayerUnique(b1: Layers, b2: Layers, a1: Layers, a2: Layers,
                                                features: seq<real>, recurrent: bool, tf: real -> real, t: nat)
    requires Forwarded(b1, a1, features, recurrent, tf) && Forwarded(b2, a2, features, recurrent, tf)
    requires OnlyValuesDiffer(a1, a2)
    requires recurrent && |b1| > 1 ==> Layer.Values(b1[1]) == Layer.Values(b2[1])
    requires t < |a1|
    ensures Layer.Values(a1[t]) == Layer.Values(a2[t])
    decreases t
  {
    var fill := InputFill(features, b1[0].length);
    if recurrent && |a1| > 1 {
      HiddenUnique(tf, fill, |features|, Layer.Values(b1[1]), a1[1], a2[1], |a1[1].units|);
      assert Layer.Values(a1[1]) == Layer.Values(a2[1]);
    }
    if t >= 1 && !(recurrent && t == 1) {
      ForwardedLayerUnique(b1, b2, a1, a2, features, recurrent, tf, t - 1);
      LayerUnique(tf, a1[t], a1[t - 1], a2[t], a2[t - 1]);
    }
  }

  /** The forward pass is a function of the parameters, the features and (in
      Elman mode only) the hidden values left by the previous pass: outside Elman
      mode, executing the same input twice gives the same network and output. */
  lemma {:induction false} ForwardedUnique(b1: Layers, b2: Layers, a1: Layers, a2: Layers,
                        features: seq<real>, recurrent: bool, tf: real -> real)
    requires Forwarded(b1, a1, features, recurrent, tf) && Forwarded(b2, a2, features, recurrent, tf)
    requires OnlyValuesDiffer(b1, b2)
    requires recurrent && |b1| > 1 ==> Layer.Values(b1[1]) == Layer.Values(b2[1])
    ensures a1 == a2
  {
    OnlyValuesDifferSymmetric(b1, a1);
    OnlyValuesDifferTransitive(a1, b1, b2);
    OnlyValuesDifferTransitive(a1, b2, a2);
    forall t | 0 <= t < |a1|
      ensures Layer.Values(a1[t]) == Layer.Values(a2[t])
    {
      ForwardedLayerUnique(b1, b2, a1, a2, features, recurrent, tf, t);
    }
    SameValuesSameLayers(a1, a2);
  }

  /** Loop invariant of the Elman hidden-layer loop after j units, from the
      network `start` it began with: only values changed, and only those of the
      input and hidden layers; units c >= j are untouched; units c < j hold what
      they computed from the context they saw; the context holds the current
      hidden values once a unit has run. */
  ghost predicate HiddenProgress(tf: real -> real, start: Layers, ls: Layers, f: nat, j: nat)
  {
    WellFormed(start) && WellFormed(ls) && OnlyValuesDiffer(start, ls) && |ls| > 1 &&
    f <= ls[0].length && (ls[1].length > 0 ==> ls[0].length - f <= ls[1].length) &&
    j <= ls[1].length &&
    (forall t :: 2 <= t < |ls| ==> ls[t] == start[t]) &&
    (forall c :: j <= c < ls[1].length ==> ls[1].units[c] == start[1].units[c]) &&
    (forall c :: 0 <= c < j ==>
      ls[1].units[c].value ==
        Activation(tf, ls[1].units[c], Seen(Layer.Values(start[0]), f, Layer.Values(start[1]), Layer.Values(ls[1]), c), ls[0].length)) &&
    Layer.Values(ls[0]) == if j == 0 then Layer.Values(start[0]) else ContextCopied(Layer.Values(start[0]), f, Layer.Values(ls[1]))
  }

  /** The input values hidden unit j reads during ComputeHidden are Seen(.., j). */
  lemma {:induction false} HiddenSeen(tf: real -> real, start: Layers, ls: Layers, f: nat, j: nat)
    requires HiddenProgress(tf, start, ls, f, j) && j < ls[1].length
    ensures Layer.Values(ls[0]) == Seen(Layer.Values(start[0]), f, Layer.Values(start[1]), Layer.Values(ls[1]), j)
  {
  }

  /** After unit j is computed (ls0 to ls1) and the context copied (ls1 to ls2),
      HiddenProgress covers unit j too. */
  lemma {:induction false} HiddenStep(tf: real -> real, start: Layers, ls0: Layers, ls1: Layers, ls2: Layers, f: nat, j: nat)
    requires HiddenProgress(tf, start, ls0, f, j) && j < ls0[1].length
    requires ls1 == SetValue(ls0, 1, j, Activation(tf, ls0[1].units[j], Layer.Values(ls0[0]), ls0[0].length))
    requires WellFormed(ls2) && OnlyValuesDiffer(ls1, ls2)
    requires forall t :: 1 <= t < |ls2| ==> ls2[t] == ls1[t]
    requires Layer.Values(ls2[0]) == ContextCopied(Layer.Values(ls1[0]), f, Layer.Values(ls2[1]))
    ensures HiddenProgress(tf, start, ls2, f, j + 1)
  {
    OnlyValuesDifferTransitive(ls0, ls1, ls2);
    OnlyValuesDifferTransitive(start, ls0, ls2);
    HiddenStepValues(tf, start, ls0, ls2[1], f, j);
    assert ContextCopied(Layer.Values(ls1[0]), f, Layer.Values(ls2[1])) ==
      ContextCopied(Layer.Values(start[0]), f, Layer.Values(ls2[1]));
  }

  /** The hidden units computed so far, unit j now included, hold tf of what they saw. */
  lemma {:induction false} HiddenStepValues(tf: real -> real, start: Layers, ls0: Layers, hidden: Layer.NeuralLayer, f: nat, j: nat)
    requires HiddenProgress(tf, start, ls0, f, j) && j < ls0[1].length
    requires hidden == SetValue(ls0, 1, j, Activation(tf, ls0[1].units[j], Layer.Values(ls0[0]), ls0[0].length))[1]
    ensures forall c :: 0 <= c < j + 1 ==>
      hidden.units[c].value ==
        Activation(tf, hidden.units[c], Seen(Layer.Values(start[0]), f, Layer.Values(start[1]), Layer.Values(hidden), c), ls0[0].length)
  {
    forall c | 0 <= c < j + 1
      ensures hidden.units[c].value ==
        Activation(tf, hidden.units[c], Seen(Layer.Values(start[0]), f, Layer.Values(start[1]), Layer.Values(hidden), c), ls0[0].length)
    {
      HiddenStepValueAt(tf, start, ls0, hidden, f, j, c);
    }
  }

  lemma {:induction false} HiddenStepValueAt(tf: real -> real, start: Layers, ls0: Layers, hidden: Layer.NeuralLayer,
                                             f: nat, j: nat, c: nat)
    requires HiddenProgress(tf, start, ls0, f, j) && j < ls0[1].length && c <= j
    requires hidden == SetValue(ls0, 1, j, Activation(tf, ls0[1].units[j], Layer.Values(ls0[0]), ls0[0].length))[1]
    ensures hidden.units[c].value ==
      Activation(tf, hidden.units[c], Seen(Layer.Values(start[0]), f, Layer.Values(start[1]), Layer.Values(hidden), c), ls0[0].length)
  {
    var v0, before := Layer.Values(start[0]), Layer.Values(start[1]);
    var current, updated := Layer.Values(ls0[1]), Layer.Values(hidden);
    HiddenSeen(tf, start, ls0, f, j);
    SeenPrefix(v0, f, before, updated, current, c);
    assert SameParameters(hidden.units[c], ls0[1].units[c]);
  }

  /** Progress of FillInput: input units below i hold their fill value. */
  ghost predicate FillUpTo(before: Layers, cur: Layers, features: seq<real>, i: nat)
  {
    WellFormed(cur) && OnlyValuesDiffer(before, cur) && |cur| >= 1 && |features| <= cur[0].length &&
    i <= cur[0].length && (forall t :: 1 <= t < |cur| ==> cur[t] == before[t]) &&
    forall k :: 0 <= k < i ==> cur[0].units[k].value == if k < |features| then features[k] else 0.5
  }

  lemma {:induction false} FillStep(before: Layers, cur: Layers, next: Layers, features: seq<real>, i: nat, v: real)
    requires FillUpTo(before, cur, features, i) && i < cur[0].length
    requires v == if i < |features| then features[i] else 0.5
    requires next == SetValue(cur, 0, i, v)
    ensures FillUpTo(before, next, features, i + 1)
  {
    SetValueFrame(cur, next, 0, i, v);
    OnlyValuesDifferTransitive(before, cur, next);
    forall k | 0 <= k < i
      ensures next[0].units[k] == cur[0].units[k]
    {
    }
  }

  lemma {:induction false} FillDone(before: Layers, cur: Layers, features: seq<real>)
    requires |cur| >= 1 && FillUpTo(before, cur, features, |cur[0].units|)
    ensures Layer.Values(cur[0]) == InputFill(features, |cur[0].units|)
  {
  }

  /** Progress of ComputeLayer: units below j of layer i are computed; nothing
      else has changed. */
  ghost predicate LayerUpTo(before: Layers, cur: Layers, i: nat, j: nat, tf: real -> real)
  {
    WellFormed(cur) && OnlyValuesDiffer(before, cur) && 1 <= i < |cur| && j <= cur[i].length &&
    (forall t :: 0 <= t < |cur| && t != i ==> cur[t] == before[t]) &&
    forall c :: 0 <= c < j ==>
      cur[i].units[c].value == Activation(tf, cur[i].units[c], Layer.Values(cur[i - 1]), cur[i - 1].length)
  }

  lemma {:induction false} LayerUpToStep(before: Layers, cur: Layers, next: Layers, i: nat, j: nat, tf: real -> real)
    requires LayerUpTo(before, cur, i, j, tf) && j < cur[i].length
    requires next == SetValue(cur, i, j, Activation(tf, cur[i].units[j], Layer.Values(cur[i - 1]), cur[i - 1].length))
    ensures LayerUpTo(before, next, i, j + 1, tf)
  {
    SetValueFrame(cur, next, i, j, Activation(tf, cur[i].units[j], Layer.Values(cur[i - 1]), cur[i - 1].length));
    OnlyValuesDifferTransitive(before, cur, next);
    assert next[i - 1] == cur[i - 1];
    forall c | 0 <= c < j
      ensures next[i].units[c] == cur[i].units[c]
    {
    }
  }

  /** Setting one unit's value keeps the shape and the parameters. */
  lemma {:induction false} SetValueFrame(b: Layers, next: Layers, t: nat, j: nat, v: real)
    requires WellFormed(b) && t < |b| && j < |b[t].units|
    requires next == SetValue(b, t, j, v)
    ensures WellFormed(next) && OnlyValuesDiffer(b, next)
  {
    forall s, k | 1 <= s < |next| && 0 <= k < |next[s].units|
      ensures |next[s].units[k].weights| >= next[s - 1].length
    {
      assert next[s - 1].length == b[s - 1].length;
      if s != t {
        assert next[s] == b[s];
      } else if k != j {
        assert next[s].units[k] == b[s].units[k];
      }
    }
    forall s | 0 <= s < |b|
      ensures b[s].length == next[s].length && |b[s].units| == |next[s].units|
      ensures forall k :: 0 <= k < |b[s].units| ==> SameParameters(b[s].units[k], next[s].units[k])
    {
      if s != t {
        assert next[s] == b[s];
      }
    }
  }

  /** Progress of Execute's layer loop: the input is filled, layers 1 .. i - 1
      are computed, and the rest are as they were. */
  ghost predicate ForwardUpTo(before: Layers, cur: Layers, features: seq<real>, recurrent: bool,
                              tf: real -> real, i: nat)
  {
    CanExecute(before, features, recurrent) && WellFormed(cur) && OnlyValuesDiffer(before, cur) &&
    1 <= i <= |cur| && (forall t :: i <= t < |cur| ==> cur[t] == before[t]) &&
    var fill := InputFill(features, before[0].length);
    (Layer.Values(cur[0]) ==
      if recurrent && i > 1 && cur[1].length > 0 then ContextCopied(fill, |features|, Layer.Values(cur[1])) else fill) &&
    (forall t :: 1 <= t < i && !(recurrent && t == 1) ==> LayerComputed(tf, cur[t], cur[t - 1])) &&
    (recurrent && i > 1 ==> HiddenComputed(tf, fill, |features|, Layer.Values(before[1]), cur[1]))
  }

  /** Layer i computed outside Elman mode (cur to next). */
  lemma {:induction false} ForwardLayerStep(before: Layers, cur: Layers, next: Layers, features: seq<real>, recurrent: bool,
                         tf: real -> real, i: nat)
    requires ForwardUpTo(before, cur, features, recurrent, tf, i) && i < |cur| && !(i == 1 && recurrent)
    requires WellFormed(next) && OnlyValuesDiffer(cur, next)
    requires forall t :: 0 <= t < |cur| && t != i ==> next[t] == cur[t]
    requires LayerComputed(tf, next[i], next[i - 1])
    ensures ForwardUpTo(before, next, features, recurrent, tf, i + 1)
  {
    OnlyValuesDifferTransitive(before, cur, next);
    assert next[0] == cur[0];
    if recurrent && i > 1 {
      assert next[1] == cur[1];
    }
    LayersComputedKept(cur, next, recurrent, tf, i);
  }

  /** Layers below i, untouched by the step, stay computed. */
  lemma {:induction false} LayersComputedKept(cur: Layers, next: Layers, recurrent: bool, tf: real -> real, i: nat)
    requires WellFormed(cur) && WellFormed(next) && i < |cur| == |next|
    requires forall t :: 0 <= t < i ==> next[t] == cur[t]
    requires forall t :: 1 <= t < i && !(recurrent && t == 1) ==> LayerComputed(tf, cur[t], cur[t - 1])
    ensures forall t :: 1 <= t < i && !(recurrent && t == 1) ==> LayerComputed(tf, next[t], next[t - 1])
  {
    forall t | 1 <= t < i && !(recurrent && t == 1)
      ensures LayerComputed(tf, next[t], next[t - 1])
    {
      assert next[t] == cur[t] && next[t - 1] == cur[t - 1];
    }
  }

  /** The hidden layer computed in Elman mode (cur to next). */
  lemma {:induction false} ForwardHiddenStep(before: Layers, cur: Layers, next: Layers, features: seq<real>, tf: real -> real)
    requires ForwardUpTo(before, cur, features, true, tf, 1) && 1 < |cur|
    requires WellFormed(next) && OnlyValuesDiffer(cur, next)
    requires forall t :: 2 <= t < |next| ==> next[t] == cur[t]
    requires HiddenComputed(tf, Layer.Values(cur[0]), |features|, Layer.Values(cur[1]), next[1])
    requires Layer.Values(next[0]) ==
      (if next[1].length > 0 then ContextCopied(Layer.Values(cur[0]), |features|, Layer.Values(next[1]))
       else Layer.Values(cur[0]))
    ensures ForwardUpTo(before, next, features, true, tf, 2)
  {
    OnlyValuesDifferTransitive(before, cur, next);
  }

  /** When the layer loop ends the network is Forwarded. */
  lemma {:induction false} ForwardDone(before: Layers, cur: Layers, features: seq<real>, recurrent: bool, tf: real -> real)
    requires ForwardUpTo(before, cur, features, recurrent, tf, |cur|)
    ensures Forwarded(before, cur, features, recurrent, tf)
  {
  }

  // ------------------------------------------------------------------
  // Backward pass: what each delta, weight and bias receives

  /** Same number of layers, lengths, units, weights per unit and unit learning
      rates: what the backward pass never changes. */
  ghost predicate SameShape(a: Layers, b: Layers)
  {
    |a| == |b| &&
    forall t :: 0 <= t < |a| ==>
      a[t].length == b[t].length && |a[t].units| == |b[t].units| &&
      forall j :: 0 <= j < |a[t].units| ==>
        |a[t].units[j].weights| == |b[t].units[j].weights| &&
        a[t].units[j].learningRate == b[t].units[j].learningRate
  }

  /** The network `params` with the unit values of `vals`. */
  function WithValues(params: Layers, vals: Layers): (r: Layers)
    requires |vals| == |params|
    requires forall t :: 0 <= t < |params| ==> |vals[t].units| == |params[t].units|
    ensures |r| == |params|
    ensures forall t :: 0 <= t < |params| ==> r[t].length == params[t].length && |r[t].units| == |params[t].units|
    ensures forall t, j :: 0 <= t < |params| && 0 <= j < |params[t].units| ==>
      r[t].units[j] == params[t].units[j].(value := vals[t].units[j].value)
  {
    seq(|params|, t requires 0 <= t < |params| =>
      params[t].(units := seq(|params[t].units|, j requires 0 <= j < |params[t].units| =>
        params[t].units[j].(value := vals[t].units[j].value))))
  }

  /** Sum over k < n of next[k].delta * weightsOf[k].weights[j]: the error that
      layer i + 1 sends back to unit j of layer i. */
  function DeltaSum(next: seq<Neuron.NeuronUnit>, weightsOf: seq<Neuron.NeuronUnit>, j: nat, n: nat): real
    requires n <= |next| && n <= |weightsOf|
    requires forall k :: 0 <= k < n ==> j < |weightsOf[k].weights|
  {
    if n == 0 then 0.0
    else DeltaSum(next, weightsOf, j, n - 1) + next[n - 1].delta * weightsOf[n - 1].weights[j]
  }

  /** DeltaSum reads only the deltas of `next` and weight j of `weightsOf`. */
  lemma {:induction false} DeltaSumFrame(n1: seq<Neuron.NeuronUnit>, w1: seq<Neuron.NeuronUnit>,
                                         n2: seq<Neuron.NeuronUnit>, w2: seq<Neuron.NeuronUnit>, j: nat, n: nat)
    requires n <= |n1| && n <= |w1| && n <= |n2| && n <= |w2|
    requires forall k :: 0 <= k < n ==> j < |w1[k].weights| && w2[k].weights == w1[k].weights
    requires forall k :: 0 <= k < n ==> n1[k].delta == n2[k].delta
    ensures DeltaSum(n1, w1, j, n) == DeltaSum(n2, w2, j, n)
  {
    if n > 0 {
      DeltaSumFrame(n1, w1, n2, w2, j, n - 1);
    }
  }

  /** With no error arriving from the next layer, none is sent back. */
  lemma {:induction false} DeltaSumZero(next: seq<Neuron.NeuronUnit>, weightsOf: seq<Neuron.NeuronUnit>, j: nat, n: nat)
    requires n <= |next| && n <= |weightsOf|
    requires forall k :: 0 <= k < n ==> j < |weightsOf[k].weights|
    requires forall k :: 0 <= k < n ==> next[k].delta == 0.0
    ensures DeltaSum(next, weightsOf, j, n) == 0.0
  {
    if n > 0 {
      DeltaSumZero(next, weightsOf, j, n - 1);
    }
  }

  /** The backward pass keeps the shape of a well-formed network. */
  ghost predicate Reshaped(before: Layers, after: Layers)
  {
    WellFormed(before) && WellFormed(after) && SameShape(before, after) && |before| >= 1
  }

  /** Output layer (lines 161-164): delta = (expected - output) * tfd(output). */
  ghost predicate OutputDeltas(after: Layers, expected: seq<real>, tfd: real -> real)
    requires |after| >= 1 && |expected| == |after[|after| - 1].units|
  {
    var layer := after[|after| - 1];
    forall j :: 0 <= j < |layer.units| ==>
      layer.units[j].delta == (expected[j] - layer.units[j].value) * tfd(layer.units[j].value)
  }

  /** Layer t < last (lines 168-174): delta = DeltaSum * tfd(value), from the new
      deltas of layer t + 1 and its weights as they were before the update. */
  ghost predicate HiddenDeltas(before: Layers, after: Layers, t: nat, tfd: real -> real)
    requires Reshaped(before, after) && t + 1 < |after|
  {
    forall j :: 0 <= j < |after[t].units| ==>
      after[t].units[j].delta ==
        DeltaSum(after[t + 1].units, before[t + 1].units, j, |after[t + 1].units|) * tfd(after[t].units[j].value)
  }

  /** Weight update of layer t >= 1 (lines 175-180): weight k of unit j grows by
      lr * delta_j * value_k of layer t - 1, for each k below that layer's length,
      and the bias by lr * delta_j; any further weights stay. */
  ghost predicate WeightsUpdated(before: Layers, after: Layers, t: nat, lr: real)
    requires Reshaped(before, after) && 1 <= t < |after|
  {
    forall j :: 0 <= j < |after[t].units| ==>
      after[t].units[j].bias == before[t].units[j].bias + lr * after[t].units[j].delta &&
      forall k :: 0 <= k < |after[t].units[j].weights| ==>
        after[t].units[j].weights[k] ==
          if k < |after[t - 1].units|
          then before[t].units[j].weights[k] + lr * after[t].units[j].delta * after[t - 1].units[k].value
          else before[t].units[j].weights[k]
  }

  /** Layer 0's weights and biases are never updated. */
  ghost predicate InputParametersKept(before: Layers, after: Layers)
    requires Reshaped(before, after)
  {
    forall j :: 0 <= j < |after[0].units| ==>
      after[0].units[j].weights == before[0].units[j].weights && after[0].units[j].bias == before[0].units[j].bias
  }

  /** The effect of BackPropagate(input, expected, options) from `before` to
      `after`: the values are those of the forward pass; the last layer carries
      the output deltas and every earlier layer the back-propagated ones; every
      layer after the first has its weights and biases updated once; layer 0's
      weights and biases stay. */
  ghost predicate BackPropagated(before: Layers, after: Layers, features: seq<real>, expected: seq<real>,
                                 recurrent: bool, tf: real -> real, tfd: real -> real, lr: real)
  {
    CanExecute(before, features, recurrent) && Reshaped(before, after) &&
    |expected| == before[|before| - 1].length &&
    Forwarded(before, WithValues(before, after), features, recurrent, tf) &&
    OutputDeltas(after, expected, tfd) &&
    (forall t :: 0 <= t < |after| - 1 ==> HiddenDeltas(before, after, t, tfd)) &&
    InputParametersKept(before, after) &&
    (forall t :: 1 <= t < |after| ==> WeightsUpdated(before, after, t, lr))
  }

  /** Weights after one update: weight k < n grows by rate * delta * prev[k]. */
  function UpdatedWeights(w: seq<real>, rate: real, delta: real, prev: seq<real>, n: nat): (r: seq<real>)
    requires n <= |w| && n <= |prev|
    ensures |r| == |w|
  {
    seq(|w|, k requires 0 <= k < |w| => if k < n then w[k] + rate * delta * prev[k] else w[k])
  }

  /** Two rows of units with the same deltas and values. */
  predicate SameDeltaValues(a: seq<Neuron.NeuronUnit>, b: seq<Neuron.NeuronUnit>)
  {
    |a| == |b| && forall k :: 0 <= k < |a| ==> a[k].delta == b[k].delta && a[k].value == b[k].value
  }

  /** Every unit of `cur` holds the value of its counterpart in `mid`. */
  ghost predicate ValuesOf(mid: Layers, cur: Layers)
  {
    |mid| == |cur| &&
    forall t :: 0 <= t < |cur| ==>
      |mid[t].units| == |cur[t].units| &&
      forall j :: 0 <= j < |cur[t].units| ==> cur[t].units[j].value == mid[t].units[j].value
  }

  /** The layers from i + 1 up to the one below the output carry their
      back-propagated deltas. */
  ghost predicate DeltasAbove(before: Layers, cur: Layers, tfd: real -> real, i: int)
    requires Reshaped(before, cur)
  {
    forall t :: i + 1 <= t < |cur| - 1 && 0 <= t ==> HiddenDeltas(before, cur, t, tfd)
  }

  /** The layers from i + 2 up carry their updated weights. */
  ghost predicate WeightsAbove(before: Layers, cur: Layers, lr: real, i: int)
    requires Reshaped(before, cur)
  {
    forall t :: i + 2 <= t < |cur| && 1 <= t ==> WeightsUpdated(before, cur, t, lr)
  }

  /** The layers up to m keep their weights and biases. */
  ghost predicate KeptUpTo(before: Layers, cur: Layers, m: int)
    requires Reshaped(before, cur)
  {
    forall t, j :: 0 <= t <= m && t < |cur| && 0 <= j < |cur[t].units| ==>
      cur[t].units[j].weights == before[t].units[j].weights && cur[t].units[j].bias == before[t].units[j].bias
  }

  /** Loop invariant of BackPropagate's layer loop at layer i (from before the
      pass over i): the values are those of the forward result `mid`; the output
      deltas are set; layers above i carry their back-propagated deltas; layers
      above i + 1 carry their updated weights; layers up to i + 1 keep their
      weights and biases. */
  ghost predicate BackwardProgress(before: Layers, mid: Layers, cur: Layers, expected: seq<real>,
                                   tfd: real -> real, lr: real, i: int)
  {
    Reshaped(before, cur) && WellFormed(mid) && OnlyValuesDiffer(before, mid) &&
    |expected| == |cur[|cur| - 1].units| && -1 <= i <= |cur| - 2 &&
    ValuesOf(mid, cur) && OutputDeltas(cur, expected, tfd) &&
    DeltasAbove(before, cur, tfd, i) && WeightsAbove(before, cur, lr, i) && KeptUpTo(before, cur, i + 1)
  }

  /** `b` is `a` with the output deltas set from `out` (lines 161-164). */
  ghost predicate OutputSet(a: Layers, b: Layers, expected: seq<real>, out: seq<real>, tfd: real -> real)
    requires |a| >= 1 && |expected| == |out| == |a[|a| - 1].units|
  {
    var last := |a| - 1;
    |b| == |a| && (forall t :: 0 <= t < last ==> b[t] == a[t]) &&
    b[last].length == a[last].length && |b[last].units| == |a[last].units| &&
    forall j :: 0 <= j < |b[last].units| ==>
      b[last].units[j] == a[last].units[j].(delta := (expected[j] - out[j]) * tfd(out[j]))
  }

  /** `b` is `a` with the deltas of layer i set from layer i + 1 (lines 168-174). */
  ghost predicate DeltasSet(a: Layers, b: Layers, i: nat, tfd: real -> real)
    requires WellFormed(a) && i + 1 < |a|
  {
    |b| == |a| && (forall t :: 0 <= t < |a| && t != i ==> b[t] == a[t]) &&
    b[i].length == a[i].length && |b[i].units| == |a[i].units| &&
    forall j :: 0 <= j < |b[i].units| ==> b[i].units[j] == HiddenDelta(a, i, j, tfd)
  }

  /** Progress of SetHiddenDeltas: units below j of layer i have their new delta. */
  ghost predicate DeltasUpTo(a: Layers, b: Layers, i: nat, j: nat, tfd: real -> real)
    requires WellFormed(a) && i + 1 < |a|
  {
    |b| == |a| && (forall t :: 0 <= t < |a| && t != i ==> b[t] == a[t]) &&
    b[i].length == a[i].length && |b[i].units| == |a[i].units| && WellFormed(b) && j <= |a[i].units| &&
    (forall c :: 0 <= c < j ==> b[i].units[c] == HiddenDelta(a, i, c, tfd)) &&
    forall c :: j <= c < |b[i].units| ==> b[i].units[c] == a[i].units[c]
  }

  /** The unit SetHiddenDeltas writes at step j is HiddenDelta(a, i, j, tfd). */
  lemma {:induction false} DeltaWritten(a: Layers, b: Layers, i: nat, j: nat, e: real, tfd: real -> real)
    requires WellFormed(a) && i + 1 < |a| && DeltasUpTo(a, b, i, j, tfd) && j < |a[i].units|
    requires e == DeltaSum(b[i + 1].units, b[i + 1].units, j, b[i + 1].length)
    ensures WithDelta(b[i].units[j], Delta(e, tfd, b[i].units[j].value)) == HiddenDelta(a, i, j, tfd)
  {
    assert b[i + 1] == a[i + 1];
    assert b[i].units[j] == a[i].units[j];
  }

  lemma {:induction false} DeltasUpToStep(a: Layers, b: Layers, next: Layers, i: nat, j: nat, tfd: real -> real)
    requires WellFormed(a) && i + 1 < |a| && DeltasUpTo(a, b, i, j, tfd) && j < |a[i].units|
    requires next == SetUnit(b, i, j, HiddenDelta(a, i, j, tfd))
    ensures DeltasUpTo(a, next, i, j + 1, tfd)
  {
    SetUnitFrame(b, next, i, j, HiddenDelta(a, i, j, tfd));
    forall c | 0 <= c < j
      ensures next[i].units[c] == HiddenDelta(a, i, c, tfd)
    {
      assert next[i].units[c] == b[i].units[c];
    }
    forall c | j + 1 <= c < |next[i].units|
      ensures next[i].units[c] == a[i].units[c]
    {
      assert next[i].units[c] == b[i].units[c];
    }
  }

  /** Replacing one unit by one with the same weights keeps the shape and every other unit. */
  lemma {:induction false} SetUnitFrame(b: Layers, next: Layers, i: nat, j: nat, u: Neuron.NeuronUnit)
    requires WellFormed(b) && i < |b| && j < |b[i].units| && u.weights == b[i].units[j].weights
    requires next == SetUnit(b, i, j, u)
    ensures WellFormed(next) && |next| == |b|
    ensures forall t :: 0 <= t < |b| && t != i ==> next[t] == b[t]
    ensures next[i].length == b[i].length && |next[i].units| == |b[i].units|
    ensures forall c :: 0 <= c < |b[i].units| && c != j ==> next[i].units[c] == b[i].units[c]
    ensures next[i].units[j] == u
  {
    forall t, k | 1 <= t < |next| && 0 <= k < |next[t].units|
      ensures |next[t].units[k].weights| >= next[t - 1].length
    {
      assert next[t - 1].length == b[t - 1].length;
      if t != i {
        assert next[t] == b[t];
      } else if k != j {
        assert next[t].units[k] == b[t].units[k];
      }
    }
  }

  lemma {:induction false} DeltasUpToDone(a: Layers, b: Layers, i: nat, tfd: real -> real)
    requires WellFormed(a) && i + 1 < |a| && DeltasUpTo(a, b, i, |a[i].units|, tfd)
    ensures DeltasSet(a, b, i, tfd) && WellFormed(b)
  {
  }

  /** Unit j of layer i with delta = (error from layer i + 1) * tfd(value) (lines 168-174). */
  ghost function HiddenDelta(a: Layers, i: nat, j: nat, tfd: real -> real): Neuron.NeuronUnit
    requires WellFormed(a) && i + 1 < |a| && j < |a[i].units|
  {
    a[i].units[j].(delta := DeltaSum(a[i + 1].units, a[i + 1].units, j, a[i + 1].length) * tfd(a[i].units[j].value))
  }

  /** `b` is `a` with the weights and biases of layer t updated (lines 175-180). */
  ghost predicate WeightsSet(a: Layers, b: Layers, t: nat, lr: real)
    requires WellFormed(a) && 1 <= t < |a|
  {
    |b| == |a| && (forall s :: 0 <= s < |a| && s != t ==> b[s] == a[s]) &&
    b[t].length == a[t].length && |b[t].units| == |a[t].units| &&
    forall j :: 0 <= j < |b[t].units| ==>
      b[t].units[j] == a[t].units[j].(
        weights := UpdatedWeights(a[t].units[j].weights, lr, a[t].units[j].delta, Layer.Values(a[t - 1]), a[t - 1].length),
        bias := a[t].units[j].bias + lr * a[t].units[j].delta)
  }

  /** Unit c of layer t after its weight and bias update (lines 176-179). */
  ghost function WeightUpdated(a: Layers, t: nat, c: nat, lr: real): Neuron.NeuronUnit
    requires WellFormed(a) && 1 <= t < |a| && c < |a[t].units|
  {
    a[t].units[c].(
      weights := UpdatedWeights(a[t].units[c].weights, lr, a[t].units[c].delta, Layer.Values(a[t - 1]), a[t - 1].length),
      bias := a[t].units[c].bias + lr * a[t].units[c].delta)
  }

  /** Progress of UpdateLayerWeights: units below j of layer t are updated. */
  ghost predicate WeightsUpTo(a: Layers, b: Layers, t: nat, j: nat, lr: real)
    requires WellFormed(a) && 1 <= t < |a|
  {
    |b| == |a| && (forall s :: 0 <= s < |a| && s != t ==> b[s] == a[s]) &&
    b[t].length == a[t].length && |b[t].units| == |a[t].units| && WellFormed(b) && j <= |a[t].units| &&
    (forall c :: 0 <= c < j ==> b[t].units[c] == WeightUpdated(a, t, c, lr)) &&
    forall c :: j <= c < |b[t].units| ==> b[t].units[c] == a[t].units[c]
  }

  lemma {:induction false} WeightsUpToStep(a: Layers, b: Layers, next: Layers, t: nat, j: nat, lr: real)
    requires WellFormed(a) && 1 <= t < |a| && WeightsUpTo(a, b, t, j, lr) && j < |a[t].units|
    requires next == SetUnit(b, t, j, WeightUpdated(a, t, j, lr))
    ensures WeightsUpTo(a, next, t, j + 1, lr)
  {
    forall s, k | 1 <= s < |next| && 0 <= k < |next[s].units|
      ensures |next[s].units[k].weights| >= next[s - 1].length
    {
      assert next[s - 1].length == b[s - 1].length;
      if s == t && k == j {
        assert |next[s].units[k].weights| == |a[t].units[j].weights|;
      } else {
        assert next[s].units[k] == b[s].units[k];
      }
    }
    forall c | 0 <= c < j
      ensures next[t].units[c] == WeightUpdated(a, t, c, lr)
    {
      assert next[t].units[c] == b[t].units[c];
    }
    forall c | j + 1 <= c < |next[t].units|
      ensures next[t].units[c] == a[t].units[c]
    {
      assert next[t].units[c] == b[t].units[c];
    }
  }

  lemma {:induction false} WeightsUpToDone(a: Layers, b: Layers, t: nat, lr: real)
    requires WellFormed(a) && 1 <= t < |a| && WeightsUpTo(a, b, t, |a[t].units|, lr)
    ensures WeightsSet(a, b, t, lr)
  {
    forall c | 0 <= c < |b[t].units|
      ensures b[t].units[c] == WeightUpdated(a, t, c, lr)
    {
    }
  }

  /** The start of the layer loop: right after the forward pass and the output deltas. */
  lemma {:induction false} BackwardStart(before: Layers, mid: Layers, cur: Layers, expected: seq<real>,
                      out: seq<real>, tfd: real -> real, lr: real)
    requires WellFormed(before) && |before| >= 1 && WellFormed(mid) && OnlyValuesDiffer(before, mid)
    requires |expected| == before[|before| - 1].length && out == Layer.Values(mid[|mid| - 1])
    requires OutputSet(mid, cur, expected, out, tfd)
    ensures BackwardProgress(before, mid, cur, expected, tfd, lr, |cur| - 2)
  {
    var last := |cur| - 1;
    forall t, j | 0 <= t < |cur| && 0 <= j < |cur[t].units|
      ensures SameParameters(cur[t].units[j], mid[t].units[j]) || t == last
      ensures cur[t].units[j].value == mid[t].units[j].value
      ensures cur[t].units[j].weights == before[t].units[j].weights
      ensures cur[t].units[j].bias == before[t].units[j].bias
      ensures cur[t].units[j].learningRate == before[t].units[j].learningRate
    {
      assert SameParameters(before[t].units[j], mid[t].units[j]);
    }
    assert forall t :: 0 <= t < |cur| ==> cur[t].length == mid[t].length && |cur[t].units| == |mid[t].units|;
    assert WellFormed(cur);
    assert SameShape(before, cur);
    assert OutputDeltas(cur, expected, tfd);
  }

  /** The values, shape, output deltas and kept weights survive one loop step. */
  lemma {:induction false} StepKeeps(before: Layers, mid: Layers, c0: Layers, c1: Layers, c2: Layers, expected: seq<real>,
                  tfd: real -> real, lr: real, i: nat)
    requires Reshaped(before, c0) && i + 1 < |c0| && |expected| == |c0[|c0| - 1].units|
    requires ValuesOf(mid, c0) && OutputDeltas(c0, expected, tfd) && KeptUpTo(before, c0, i + 1)
    requires DeltasSet(c0, c1, i, tfd) && WellFormed(c1) && WeightsSet(c1, c2, i + 1, lr)
    ensures Reshaped(before, c2) && |expected| == |c2[|c2| - 1].units|
    ensures ValuesOf(mid, c2) && OutputDeltas(c2, expected, tfd) && KeptUpTo(before, c2, i)
  {
    StepUnits(c0, c1, c2, tfd, lr, i);
    assert SameShape(before, c2);
    var last := |c2| - 1;
    assert SameDeltaValues(c2[last].units, c0[last].units);
  }

  /** What one step changes: values never; deltas only in layer i; weights and
      biases only in layer i + 1. */
  lemma {:induction false} StepUnits(c0: Layers, c1: Layers, c2: Layers, tfd: real -> real, lr: real, i: nat)
    requires WellFormed(c0) && i + 1 < |c0|
    requires DeltasSet(c0, c1, i, tfd) && WellFormed(c1) && WeightsSet(c1, c2, i + 1, lr)
    ensures WellFormed(c2) && SameShape(c0, c2)
    ensures forall t :: 0 <= t < |c2| && t != i ==> SameDeltaValues(c2[t].units, c0[t].units)
    ensures forall t, j :: 0 <= t < |c2| && 0 <= j < |c2[t].units| ==> c2[t].units[j].value == c0[t].units[j].value
    ensures forall t, j :: 0 <= t < |c2| && t != i + 1 && 0 <= j < |c2[t].units| ==>
      c2[t].units[j].weights == c0[t].units[j].weights && c2[t].units[j].bias == c0[t].units[j].bias
  {
    forall t | 0 <= t < |c2|
      ensures |c2[t].units| == |c0[t].units| && forall j :: 0 <= j < |c2[t].units| ==>
        c2[t].units[j].value == c0[t].units[j].value &&
        (t != i ==> c2[t].units[j].delta == c0[t].units[j].delta) &&
        (t != i + 1 ==> c2[t].units[j].weights == c0[t].units[j].weights && c2[t].units[j].bias == c0[t].units[j].bias)
    {
      if t != i && t != i + 1 {
        assert c2[t] == c0[t];
      } else if t == i {
        assert c2[t] == c1[t];
      } else {
        assert c1[t] == c0[t];
      }
    }
  }

  /** After the step the deltas of layer i are the back-propagated ones, and those
      of the layers above stay. */
  lemma {:induction false} StepDeltas(before: Layers, c0: Layers, c1: Layers, c2: Layers, tfd: real -> real, lr: real, i: nat)
    requires Reshaped(before, c0) && i + 1 < |c0|
    requires DeltasAbove(before, c0, tfd, i) && KeptUpTo(before, c0, i + 1)
    requires DeltasSet(c0, c1, i, tfd) && WellFormed(c1) && WeightsSet(c1, c2, i + 1, lr)
    requires Reshaped(before, c2)
    ensures DeltasAbove(before, c2, tfd, i - 1)
  {
    StepDeltasAt(before, c0, c1, c2, tfd, lr, i);
    forall t | i + 1 <= t < |c2| - 1
      ensures HiddenDeltas(before, c2, t, tfd)
    {
      assert HiddenDeltas(before, c0, t, tfd);
      assert SameDeltaValues(c2[t].units, c0[t].units) && SameDeltaValues(c2[t + 1].units, c0[t + 1].units);
      StepDeltasAbove(before, c0, c2, tfd, t);
    }
  }

  /** Layer i's new deltas, read against layer i + 1's weights before their update. */
  lemma {:induction false} StepDeltasAt(before: Layers, c0: Layers, c1: Layers, c2: Layers, tfd: real -> real, lr: real, i: nat)
    requires Reshaped(before, c0) && i + 1 < |c0| && KeptUpTo(before, c0, i + 1)
    requires DeltasSet(c0, c1, i, tfd) && WellFormed(c1) && WeightsSet(c1, c2, i + 1, lr)
    requires Reshaped(before, c2)
    ensures HiddenDeltas(before, c2, i, tfd)
  {
    var n := i + 1;
    forall j | 0 <= j < |c2[i].units|
      ensures c2[i].units[j].delta ==
        DeltaSum(c2[n].units, before[n].units, j, |c2[n].units|) * tfd(c2[i].units[j].value)
    {
      DeltaSumFrame(c0[n].units, c0[n].units, c2[n].units, before[n].units, j, c0[n].length);
    }
  }

  /** A layer above the step, with its deltas and values and those of the layer
      above it unchanged, keeps its back-propagated deltas. */
  lemma {:induction false} StepDeltasAbove(before: Layers, c0: Layers, c2: Layers, tfd: real -> real, t: nat)
    requires Reshaped(before, c0) && Reshaped(before, c2) && t + 1 < |c0|
    requires HiddenDeltas(before, c0, t, tfd)
    requires SameDeltaValues(c2[t].units, c0[t].units) && SameDeltaValues(c2[t + 1].units, c0[t + 1].units)
    ensures HiddenDeltas(before, c2, t, tfd)
  {
    var n := t + 1;
    forall j | 0 <= j < |c2[t].units|
      ensures DeltaSum(c2[n].units, before[n].units, j, |c2[n].units|) ==
              DeltaSum(c0[n].units, before[n].units, j, |c0[n].units|)
    {
      DeltaSumFrame(c2[n].units, before[n].units, c0[n].units, before[n].units, j, |c2[n].units|);
    }
  }

  /** After the step layer i + 1 carries its updated weights, and the layers above
      keep theirs. */
  lemma {:induction false} StepWeights(before: Layers, c0: Layers, c1: Layers, c2: Layers, tfd: real -> real, lr: real, i: nat)
    requires Reshaped(before, c0) && i + 1 < |c0|
    requires WeightsAbove(before, c0, lr, i) && KeptUpTo(before, c0, i + 1)
    requires DeltasSet(c0, c1, i, tfd) && WellFormed(c1) && WeightsSet(c1, c2, i + 1, lr)
    requires Reshaped(before, c2)
    ensures WeightsAbove(before, c2, lr, i - 1)
  {
    StepWeightsAt(before, c0, c1, c2, tfd, lr, i);
    forall t | i + 2 <= t < |c2|
      ensures WeightsUpdated(before, c2, t, lr)
    {
      assert WeightsUpdated(before, c0, t, lr);
      assert c2[t] == c0[t] && SameDeltaValues(c2[t - 1].units, c0[t - 1].units);
      StepWeightsAbove(before, c0, c2, lr, t);
    }
  }

  /** Layer i + 1's weights and biases after the step are the updated ones. */
  lemma {:induction false} StepWeightsAt(before: Layers, c0: Layers, c1: Layers, c2: Layers, tfd: real -> real, lr: real, i: nat)
    requires Reshaped(before, c0) && i + 1 < |c0| && KeptUpTo(before, c0, i + 1)
    requires DeltasSet(c0, c1, i, tfd) && WellFormed(c1) && WeightsSet(c1, c2, i + 1, lr)
    requires Reshaped(before, c2)
    ensures WeightsUpdated(before, c2, i + 1, lr)
  {
    var n := i + 1;
    forall j | 0 <= j < |c2[n].units|
      ensures c2[n].units[j].bias == before[n].units[j].bias + lr * c2[n].units[j].delta
      ensures forall k :: 0 <= k < |c2[n].units[j].weights| ==>
        c2[n].units[j].weights[k] ==
          if k < |c2[i].units|
          then before[n].units[j].weights[k] + lr * c2[n].units[j].delta * c2[i].units[k].value
          else before[n].units[j].weights[k]
    {
      assert c1[n].units[j] == c0[n].units[j];
    }
  }

  /** A layer above the step, unchanged and over an unchanged layer of values,
      keeps its updated weights. */
  lemma {:induction false} StepWeightsAbove(before: Layers, c0: Layers, c2: Layers, lr: real, t: nat)
    requires Reshaped(before, c0) && Reshaped(before, c2) && 1 <= t < |c0|
    requires WeightsUpdated(before, c0, t, lr)
    requires c2[t] == c0[t] && SameDeltaValues(c2[t - 1].units, c0[t - 1].units)
    ensures WeightsUpdated(before, c2, t, lr)
  {
  }

  /** The end of the layer loop gives the whole effect of BackPropagate. */
  lemma {:induction false} BackwardDone(before: Layers, mid: Layers, cur: Layers, features: seq<real>, expected: seq<real>,
                     recurrent: bool, tf: real -> real, tfd: real -> real, lr: real)
    requires Forwarded(before, mid, features, recurrent, tf)
    requires |expected| == before[|before| - 1].length
    requires BackwardProgress(before, mid, cur, expected, tfd, lr, -1)
    ensures BackPropagated(before, cur, features, expected, recurrent, tf, tfd, lr)
    ensures Layer.Values(cur[|cur| - 1]) == Layer.Values(mid[|mid| - 1])
  {
    var reassembled := WithValues(before, cur);
    OnlyValuesDifferSymmetric(before, mid);
    assert OnlyValuesDiffer(reassembled, mid);
    forall t | 0 <= t < |reassembled|
      ensures Layer.Values(reassembled[t]) == Layer.Values(mid[t])
    {
    }
    SameValuesSameLayers(reassembled, mid);
  }

  // ------------------------------------------------------------------
  // Properties of one back-propagation step

  /** One step keeps the network's shape, so every input it could run on it can
      still run on. */
  lemma {:induction false} BackPropagatedKeepsShape(before: Layers, after: Layers, features: seq<real>, expected: seq<real>,
                                 recurrent: bool, tf: real -> real, tfd: real -> real, lr: real,
                                 other: seq<real>, otherRecurrent: bool)
    requires BackPropagated(before, after, features, expected, recurrent, tf, tfd, lr)
    requires CanExecute(before, other, otherRecurrent)
    ensures SameShape(before, after) && WellFormed(after)
    ensures CanExecute(after, other, otherRecurrent)
  {
  }

  /** The deltas two results of the same step give to layer t and above agree. */
  lemma {:induction false} DeltasAgree(before: Layers, a1: Layers, a2: Layers, expected: seq<real>,
                                       tfd: real -> real, lr: real, t: nat)
    requires Reshaped(before, a1) && Reshaped(before, a2) && t < |a1|
    requires |expected| == |a1[|a1| - 1].units|
    requires forall s, j :: 0 <= s < |a1| && 0 <= j < |a1[s].units| ==> a1[s].units[j].value == a2[s].units[j].value
    requires OutputDeltas(a1, expected, tfd) && OutputDeltas(a2, expected, tfd)
    requires forall s :: 0 <= s < |a1| - 1 ==> HiddenDeltas(before, a1, s, tfd) && HiddenDeltas(before, a2, s, tfd)
    decreases |a1| - t
    ensures forall j :: 0 <= j < |a1[t].units| ==> a1[t].units[j].delta == a2[t].units[j].delta
  {
    if t < |a1| - 1 {
      DeltasAgree(before, a1, a2, expected, tfd, lr, t + 1);
      var n := t + 1;
      assert HiddenDeltas(before, a1, t, tfd) && HiddenDeltas(before, a2, t, tfd);
      assert |a2[n].units| == |a1[n].units|;
      forall j | 0 <= j < |a1[t].units|
        ensures a1[t].units[j].delta == a2[t].units[j].delta
      {
        DeltaSumFrame(a1[n].units, before[n].units, a2[n].units, before[n].units, j, |a1[n].units|);
      }
    }
  }

  /** Two results of the same step agree on every value (the forward pass is
      unique). */
  lemma {:induction false} BackPropagatedSameValues(before: Layers, a1: Layers, a2: Layers, features: seq<real>, expected: seq<real>,
                                 recurrent: bool, tf: real -> real, tfd: real -> real, lr: real)
    requires BackPropagated(before, a1, features, expected, recurrent, tf, tfd, lr)
    requires BackPropagated(before, a2, features, expected, recurrent, tf, tfd, lr)
    ensures forall s, j :: 0 <= s < |a1| && 0 <= j < |a1[s].units| ==> a1[s].units[j].value == a2[s].units[j].value
  {
    var w1, w2 := WithValues(before, a1), WithValues(before, a2);
    ForwardedUnique(before, before, w1, w2, features, recurrent, tf);
    forall s, j | 0 <= s < |a1| && 0 <= j < |a1[s].units|
      ensures a1[s].units[j].value == a2[s].units[j].value
    {
      assert w1[s].units[j] == w2[s].units[j];
    }
  }

  /** Units agreeing in value and delta agree in their updated parameters too. */
  lemma {:induction false} LayerAgrees(before: Layers, a1: Layers, a2: Layers, lr: real, t: nat)
    requires Reshaped(before, a1) && Reshaped(before, a2) && t < |a1|
    requires forall s, j :: 0 <= s < |a1| && 0 <= j < |a1[s].units| ==> a1[s].units[j].value == a2[s].units[j].value
    requires forall j :: 0 <= j < |a1[t].units| ==> a1[t].units[j].delta == a2[t].units[j].delta
    requires InputParametersKept(before, a1) && InputParametersKept(before, a2)
    requires t >= 1 ==> WeightsUpdated(before, a1, t, lr) && WeightsUpdated(before, a2, t, lr)
    ensures a1[t] == a2[t]
  {
    forall j | 0 <= j < |a1[t].units|
      ensures a1[t].units[j] == a2[t].units[j]
    {
      if t >= 1 {
        var p := t - 1;
        var w1, w2 := a1[t].units[j].weights, a2[t].units[j].weights;
        assert |w1| == |before[t].units[j].weights| == |w2|;
        assert |a1[p].units| == |a2[p].units|;
        forall k | 0 <= k < |w1|
          ensures w1[k] == w2[k]
        {
          if k < |a1[p].units| {
            assert a1[p].units[k].value == a2[p].units[k].value;
          }
        }
        assert w1 == w2;
      }
    }
    assert a1[t].units == a2[t].units;
  }

  /** BackPropagate is deterministic: from the same network and the same
      arguments, the resulting network is unique. */
  lemma {:induction false} BackPropagatedUnique(before: Layers, a1: Layers, a2: Layers, features: seq<real>, expected: seq<real>,
                             recurrent: bool, tf: real -> real, tfd: real -> real, lr: real)
    requires BackPropagated(before, a1, features, expected, recurrent, tf, tfd, lr)
    requires BackPropagated(before, a2, features, expected, recurrent, tf, tfd, lr)
    ensures a1 == a2
  {
    BackPropagatedSameValues(before, a1, a2, features, expected, recurrent, tf, tfd, lr);
    forall t | 0 <= t < |a1|
      ensures a1[t] == a2[t]
    {
      DeltasAgree(before, a1, a2, expected, tfd, lr, t);
      LayerAgrees(before, a1, a2, lr, t);
    }
  }

  /** With no output error every delta is 0 (downwards from layer t). */
  lemma {:induction false} DeltasZeroAtTarget(before: Layers, after: Layers, expected: seq<real>,
                                              tfd: real -> real, t: nat)
    requires Reshaped(before, after) && t < |after|
    requires |expected| == |after[|after| - 1].units| && Layer.Values(after[|after| - 1]) == expected
    requires OutputDeltas(after, expected, tfd)
    requires forall s :: 0 <= s < |after| - 1 ==> HiddenDeltas(before, after, s, tfd)
    decreases |after| - t
    ensures forall j :: 0 <= j < |after[t].units| ==> after[t].units[j].delta == 0.0
  {
    if t == |after| - 1 {
      forall j | 0 <= j < |after[t].units|
        ensures after[t].units[j].delta == 0.0
      {
        assert Layer.Values(after[t])[j] == expected[j];
      }
    } else {
      DeltasZeroAtTarget(before, after, expected, tfd, t + 1);
      var n := t + 1;
      assert HiddenDeltas(before, after, t, tfd);
      forall j | 0 <= j < |after[t].units|
        ensures after[t].units[j].delta == 0.0
      {
        DeltaSumZero(after[n].units, before[n].units, j, |after[n].units|);
      }
    }
  }

  /** A network whose forward pass already yields the expectation is a fixpoint
      of BackPropagate: all deltas are 0 and no weight or bias moves. */
  lemma {:induction false} BackPropagatedAtTarget(before: Layers, after: Layers, features: seq<real>, expected: seq<real>,
                               recurrent: bool, tf: real -> real, tfd: real -> real, lr: real)
    requires BackPropagated(before, after, features, expected, recurrent, tf, tfd, lr)
    requires Layer.Values(after[|after| - 1]) == expected
    ensures forall t, j :: 0 <= t < |after| && 0 <= j < |after[t].units| ==>
      after[t].units[j].delta == 0.0 &&
      after[t].units[j].weights == before[t].units[j].weights && after[t].units[j].bias == before[t].units[j].bias
  {
    forall t, j | 0 <= t < |after| && 0 <= j < |after[t].units|
      ensures after[t].units[j].delta == 0.0
      ensures after[t].units[j].weights == before[t].units[j].weights
      ensures after[t].units[j].bias == before[t].units[j].bias
    {
      DeltasZeroAtTarget(before, after, expected, tfd, t);
      if t >= 1 {
        assert WeightsUpdated(before, after, t, lr);
      }
    }
  }

  /** Sum of |a[i] - b[i]| for i < n. */
  function AbsSum(a: seq<real>, b: seq<real>, n: nat): real
    requires n <= |a| && n <= |b|
  {
    if n == 0 then 0.0
    else AbsSum(a, b, n - 1) + (if a[n - 1] - b[n - 1] < 0.0 then b[n - 1] - a[n - 1] else a[n - 1] - b[n - 1])
  }

  /** BackPropagate's result (lines 182-185): the mean absolute difference
      between output and expectation; 0/0, that is NaN, for an empty expectation. */
  function MeanAbsError(output: seq<real>, expected: seq<real>): Util.Float
    requires |expected| <= |output|
  {
    if |expected| == 0 then Util.NaN
    else Util.Finite(AbsSum(output, expected, |expected|) / |expected| as real)
  }

  /** AbsSum is non-negative, and zero exactly when the prefixes agree. */
  lemma {:induction false} AbsSumZero(a: seq<real>, b: seq<real>, n: nat)
    requires n <= |a| && n <= |b|
    ensures AbsSum(a, b, n) >= 0.0
    ensures AbsSum(a, b, n) == 0.0 <==> forall i :: 0 <= i < n ==> a[i] == b[i]
  {
    if n > 0 {
      AbsSumZero(a, b, n - 1);
    }
  }

  /** The mean error is non-negative, and zero exactly when the output equals
      the expectation. */
  lemma {:induction false} MeanAbsErrorZero(output: seq<real>, expected: seq<real>)
    requires |expected| == |output| > 0
    ensures MeanAbsError(output, expected).Finite?
    ensures MeanAbsError(output, expected).value >= 0.0
    ensures MeanAbsError(output, expected).value == 0.0 <==> output == expected
  {
    var n := |expected|;
    AbsSumZero(output, expected, n);
    var m := AbsSum(output, expected, n) / n as real;
    assert m * n as real == AbsSum(output, expected, n);
    if output != expected {
      var i :| 0 <= i < n && output[i] != expected[i];
    }
  }

  // ------------------------------------------------------------------
  // Options forwarded by BackPropagate

  /** BackPropagate as written (lines 154-158) passes options[0] on both
      branches: with no options the index is out of range (None). */
  function AsWrittenForwardedOptions(options: seq<int>): (r: Util.Option<seq<int>>)
    ensures r.None? <==> |options| == 0
    ensures r.Some? ==> r.value == [options[0]]
  {
    if |options| == 1 then Util.Some([options[0]])
    else if |options| == 0 then Util.None
    else Util.Some([options[0]])
  }

  /** MLPTrain calls BackPropagate with no options (line 198): as written that
      call fails. */
  lemma {:induction false} AsWrittenMLPTrainCallFails()
    ensures AsWrittenForwardedOptions([]).None?
  {
  }

  /** The forwarding evidently intended: options[0] when one is given, nothing
      (a plain forward pass) otherwise. */
  function ForwardedOptions(options: seq<int>): (r: seq<int>)
    ensures Recurrent(r) == Recurrent(options)
    ensures |options| > 0 ==> r == [options[0]]
    ensures |options| == 0 ==> r == []
  {
    if |options| > 0 then [options[0]] else []
  }

  /** Wherever the code as written does not fail, the corrected forwarding
      passes the same options. */
  lemma {:induction false} ForwardedOptionsAgree(options: seq<int>)
    requires |options| > 0
    ensures AsWrittenForwardedOptions(options) == Util.Some(ForwardedOptions(options))
  {
  }

  /** Sum of weights[k] * inputs[k] for k < n, as Execute accumulates it. */
  method WeightedSum(weights: seq<real>, inputs: seq<real>, n: nat) returns (sum: real)
    requires n <= |weights| && n <= |inputs|
    ensures sum == Util.Dot(weights, inputs, n)
  {
    sum := 0.0;
    var k := 0;
    while k < n
      invariant 0 <= k <= n
      invariant sum == Util.Dot(weights, inputs, k)
    {
      sum := sum + weights[k] * inputs[k];
      k := k + 1;
    }
  }

  // ------------------------------------------------------------------
  // The network

  class MultiLayerNetwork {
    var layers: Layers
    const learningRate: real
    const transfer: real -> real
    const transferDerivative: real -> real

    /** PrepareMLPNet: one layer per entry of `sizes`, layer t with sizes[t]
        units, each unit of layer t >= 1 with one weight per unit of layer t - 1
        and the units of layer 0 with none; the rate and the transfer pair are
        stored as given. */
    constructor PrepareMLPNet(sizes: seq<nat>, rate: real, tf: real -> real, tfd: real -> real)
      ensures |layers| == |sizes|
      ensures forall t :: 0 <= t < |sizes| ==> layers[t].length == sizes[t] && |layers[t].units| == sizes[t]
      ensures forall t, j :: 0 <= t < |sizes| && 0 <= j < sizes[t] ==>
        |layers[t].units[j].weights| == if t == 0 then 0 else sizes[t - 1]
      ensures WellFormed(layers)
      ensures learningRate == rate && transfer == tf && transferDerivative == tfd
    {
      learningRate := rate;
      transfer := tf;
      transferDerivative := tfd;
      var built := seq(|sizes|, _ => Layer.NeuralLayer([], 0));
      var t := 0;
      while t < |sizes|
        invariant 0 <= t <= |sizes|
        invariant |built| == |sizes|
        invariant forall s :: 0 <= s < t ==> built[s].length == sizes[s] && |built[s].units| == sizes[s]
        invariant forall s, j :: 0 <= s < t && 0 <= j < sizes[s] ==>
          |built[s].units[j].weights| == if s == 0 then 0 else sizes[s - 1]
      {
        var layer;
        if t != 0 {
          layer := Layer.PrepareLayer(sizes[t], sizes[t - 1]);
        } else {
          layer := Layer.PrepareLayer(sizes[t], 0);
        }
        built := built[t := layer];
        t := t + 1;
      }
      layers := built;
    }

    /** Lines 88-94 of Execute: the features into the first input units, 0.5
        into the rest; nothing else changes. */
    method FillInput(features: seq<real>)
      requires WellFormed(layers) && |layers| >= 1 && |features| <= layers[0].length
      modifies this
      ensures WellFormed(layers) && OnlyValuesDiffer(old(layers), layers)
      ensures forall t :: 1 <= t < |layers| ==> layers[t] == old(layers)[t]
      ensures Layer.Values(layers[0]) == InputFill(features, layers[0].length)
    {
      var i := 0;
      while i < |features|
        invariant i <= |features| && FillUpTo(old(layers), layers, features, i)
      {
        ghost var cur := layers;
        layers := SetValue(layers, 0, i, features[i]);
        FillStep(old(layers), cur, layers, features, i, features[i]);
        i := i + 1;
      }
      while i < layers[0].length
        invariant |features| <= i && FillUpTo(old(layers), layers, features, i)
        decreases layers[0].length - i
      {
        ghost var cur := layers;
        layers := SetValue(layers, 0, i, 0.5);
        FillStep(old(layers), cur, layers, features, i, 0.5);
        i := i + 1;
      }
      FillDone(old(layers), layers, features);
    }

    /** Lines 114-126 of Execute: context slot F + c of the input layer receives
        the current value of hidden unit c. */
    method CopyContext(f: nat)
      requires WellFormed(layers) && |layers| > 1
      requires f <= layers[0].length && layers[0].length - f <= layers[1].length
      modifies this
      ensures WellFormed(layers) && OnlyValuesDiffer(old(layers), layers)
      ensures forall t :: 1 <= t < |layers| ==> layers[t] == old(layers)[t]
      ensures Layer.Values(layers[0]) == ContextCopied(Layer.Values(old(layers)[0]), f, Layer.Values(layers[1]))
    {
      var c := f;
      while c < layers[0].length
        invariant WellFormed(layers) && OnlyValuesDiffer(old(layers), layers)
        invariant f <= c <= layers[0].length
        invariant forall t :: 1 <= t < |layers| ==> layers[t] == old(layers)[t]
        invariant forall k :: 0 <= k < layers[0].length ==>
          layers[0].units[k].value == if f <= k < c then layers[1].units[k - f].value else old(layers)[0].units[k].value
      {
        ghost var cur := layers;
        layers := SetValue(layers, 0, c, layers[1].units[c - f].value);
        SetValueFrame(cur, layers, 0, c, cur[1].units[c - f].value);
        OnlyValuesDifferTransitive(old(layers), cur, layers);
        c := c + 1;
      }
    }
  
    /** Lines 99-112 of Execute: unit j of layer i gets tf(its weights against
        the current values of layer i - 1, plus its bias). */
    method ComputeUnit(i: nat, j: nat)
      requires WellFormed(layers) && 1 <= i < |layers| && j < layers[i].length
      modifies this
      ensures layers == SetValue(old(layers), i, j,
        Activation(transfer, old(layers)[i].units[j], Layer.Values(old(layers)[i - 1]), old(layers)[i - 1].length))
    {
      var unit := layers[i].units[j];
      var sum := WeightedSum(unit.weights, Layer.Values(layers[i - 1]), layers[i - 1].length);
      layers := SetValue(layers, i, j, transfer(sum + unit.bias));
    }

    /** One iteration i of Execute's layer loop (lines 98-137) outside Elman
        mode: every unit of layer i is computed from layer i - 1. */
    method ComputeLayer(i: nat)
      requires WellFormed(layers) && 1 <= i < |layers|
      modifies this
      ensures WellFormed(layers) && OnlyValuesDiffer(old(layers), layers)
      ensures forall t :: 0 <= t < |layers| && t != i ==> layers[t] == old(layers)[t]
      ensures LayerComputed(transfer, layers[i], layers[i - 1])
    {
      var j := 0;
      while j < layers[i].length
        invariant LayerUpTo(old(layers), layers, i, j, transfer)
        decreases layers[i].length - j
      {
        ghost var cur := layers;
        ComputeUnit(i, j);
        LayerUpToStep(old(layers), cur, layers, i, j, transfer);
        j := j + 1;
      }
    }

    /** Iteration i == 1 of Execute's layer loop in Elman mode: after every hidden
        unit the context slots are refreshed from the hidden layer (lines 113-127),
        so unit j sees the hidden values as they stood after unit j - 1. */
    method ComputeHidden(f: nat)
      requires WellFormed(layers) && |layers| > 1
      requires f <= layers[0].length
      requires layers[1].length > 0 ==> layers[0].length - f <= layers[1].length
      modifies this
      ensures WellFormed(layers) && OnlyValuesDiffer(old(layers), layers)
      ensures forall t :: 2 <= t < |layers| ==> layers[t] == old(layers)[t]
      ensures HiddenComputed(transfer, Layer.Values(old(layers)[0]), f, Layer.Values(old(layers)[1]), layers[1])
      ensures Layer.Values(layers[0]) ==
        (if layers[1].length > 0
         then ContextCopied(Layer.Values(old(layers)[0]), f, Layer.Values(layers[1]))
         else Layer.Values(old(layers)[0]))
    {
      var j := 0;
      while j < layers[1].length
        invariant HiddenProgress(transfer, old(layers), layers, f, j)
      {
        ComputeHiddenUnit(f, j, old(layers));
        j := j + 1;
      }
    }

    /** One hidden unit in Elman mode, then the context copy (lines 99-127). */
    method ComputeHiddenUnit(f: nat, j: nat, ghost start: Layers)
      requires HiddenProgress(transfer, start, layers, f, j) && j < layers[1].length
      modifies this
      ensures HiddenProgress(transfer, start, layers, f, j + 1)
    {
      ghost var ls0 := layers;
      ComputeUnit(1, j);
      ghost var ls1 := layers;
      CopyContext(f);
      HiddenStep(transfer, start, ls0, ls1, layers, f, j);
    }

    /** One iteration i of Execute's layer loop (lines 98-137): the hidden layer
        in Elman mode, every other layer computed from the one before it. */
    method ForwardLayer(i: nat, ghost before: Layers, features: seq<real>, recurrent: bool)
      requires ForwardUpTo(before, layers, features, recurrent, transfer, i) && i < |layers|
      modifies this
      ensures ForwardUpTo(before, layers, features, recurrent, transfer, i + 1)
    {
      ghost var cur := layers;
      if i == 1 && recurrent {
        ComputeHidden(|features|);
        ForwardHiddenStep(before, cur, layers, features, transfer);
      } else {
        ComputeLayer(i);
        ForwardLayerStep(before, cur, layers, features, recurrent, transfer, i);
      }
    }

    /** Execute: the forward pass. Afterwards the network is `Forwarded` from its
        state before the call, and the output lists the last layer's values. */
    method Execute(input: Patterns.Pattern, options: seq<int>) returns (output: seq<real>)
      requires CanExecute(layers, input.features, Recurrent(options))
      modifies this
      ensures Forwarded(old(layers), layers, input.features, Recurrent(options), transfer)
      ensures |output| == layers[|layers| - 1].length
      ensures output == Layer.Values(layers[|layers| - 1])
    {
      var recurrent := Recurrent(options);
      FillInput(input.features);
      var i := 1;
      while i < |layers|
        invariant ForwardUpTo(old(layers), layers, input.features, recurrent, transfer, i)
        decreases |layers| - i
      {
        ForwardLayer(i, old(layers), input.features, recurrent);
        i := i + 1;
      }
      ForwardDone(old(layers), layers, input.features, recurrent, transfer);
      var last := layers[|layers| - 1];
      output := Util.Zeros(last.length);
      var k := 0;
      while k < last.length
        invariant 0 <= k <= last.length
        invariant |output| == last.length
        invariant forall c :: 0 <= c < k ==> output[c] == last.units[c].value
      {
        output := output[k := last.units[k].value];
        k := k + 1;
      }
    }
  
    /** Lines 161-164: delta of output unit j = (expected[j] - out[j]) * tfd(out[j]). */
    method SetOutputDeltas(expected: seq<real>, out: seq<real>)
      requires WellFormed(layers) && |layers| >= 1
      requires |expected| == layers[|layers| - 1].length
      requires out == Layer.Values(layers[|layers| - 1])
      modifies this
      ensures OutputSet(old(layers), layers, expected, out, transferDerivative)
    {
      var last := |layers| - 1;
      var i := 0;
      while i < layers[last].length
        invariant |layers| == |old(layers)| && 0 <= i <= layers[last].length
        invariant forall t :: 0 <= t < last ==> layers[t] == old(layers)[t]
        invariant layers[last].length == old(layers)[last].length
        invariant |layers[last].units| == |old(layers)[last].units|
        invariant forall j :: 0 <= j < |layers[last].units| ==>
          layers[last].units[j] ==
            if j < i then old(layers)[last].units[j].(delta := (expected[j] - out[j]) * transferDerivative(out[j]))
            else old(layers)[last].units[j]
      {
        var errorValue := expected[i] - out[i];
        layers := SetUnit(layers, last, i, layers[last].units[i].(delta := errorValue * transferDerivative(out[i])));
        i := i + 1;
      }
    }

    /** Lines 170-172: the error layer i + 1 sends back to unit j of layer i. */
    method BackSum(i: nat, j: nat) returns (errorValue: real)
      requires WellFormed(layers) && i + 1 < |layers| && j < layers[i].length
      ensures errorValue == DeltaSum(layers[i + 1].units, layers[i + 1].units, j, layers[i + 1].length)
    {
      errorValue := 0.0;
      var k := 0;
      while k < layers[i + 1].length
        invariant 0 <= k <= layers[i + 1].length
        invariant errorValue == DeltaSum(layers[i + 1].units, layers[i + 1].units, j, k)
      {
        errorValue := errorValue + layers[i + 1].units[k].delta * layers[i + 1].units[k].weights[j];
        k := k + 1;
      }
    }

    /** Lines 168-174: every unit of layer i gets delta = BackSum * tfd(value). */
    method SetHiddenDeltas(i: nat)
      requires WellFormed(layers) && i + 1 < |layers|
      modifies this
      ensures DeltasSet(old(layers), layers, i, transferDerivative)
      ensures WellFormed(layers)
    {
      var j := 0;
      while j < layers[i].length
        invariant DeltasUpTo(old(layers), layers, i, j, transferDerivative)
        invariant 0 <= j <= layers[i].length
      {
        var errorValue := BackSum(i, j);
        var next := SetUnit(layers, i, j, WithDelta(layers[i].units[j], Delta(errorValue, transferDerivative, layers[i].units[j].value)));
        DeltaWritten(old(layers), layers, i, j, errorValue, transferDerivative);
        DeltasUpToStep(old(layers), layers, next, i, j, transferDerivative);
        layers := next;
        j := j + 1;
      }
      DeltasUpToDone(old(layers), layers, i, transferDerivative);
    }

    /** Lines 176-179 for one unit j of layer t (t = i + 1 in the source): weight
        k grows by rate * delta_j * value_k of layer t - 1 for k below that
        layer's length, then the bias by rate * delta_j. */
    method UpdateUnitWeights(t: nat, j: nat)
      requires WellFormed(layers) && 1 <= t < |layers| && j < layers[t].length
      modifies this
      ensures layers == SetUnit(old(layers), t, j, old(layers)[t].units[j].(
        weights := UpdatedWeights(old(layers)[t].units[j].weights, learningRate,
          old(layers)[t].units[j].delta, Layer.Values(old(layers)[t - 1]), old(layers)[t - 1].length),
        bias := old(layers)[t].units[j].bias + learningRate * old(layers)[t].units[j].delta))
    {
      var unit := layers[t].units[j];
      ghost var prev := Layer.Values(layers[t - 1]);
      var k := 0;
      while k < layers[t - 1].length
        invariant 0 <= k <= layers[t - 1].length
        invariant |unit.weights| == |old(layers)[t].units[j].weights|
        invariant unit == old(layers)[t].units[j].(weights := unit.weights)
        invariant forall c :: 0 <= c < |unit.weights| ==>
          unit.weights[c] ==
            if c < k then old(layers)[t].units[j].weights[c] + learningRate * unit.delta * prev[c]
            else old(layers)[t].units[j].weights[c]
      {
        unit := unit.(weights := unit.weights[k := unit.weights[k] + learningRate * unit.delta * layers[t - 1].units[k].value]);
        k := k + 1;
      }
      ghost var target := UpdatedWeights(old(layers)[t].units[j].weights, learningRate,
        old(layers)[t].units[j].delta, prev, old(layers)[t - 1].length);
      forall c | 0 <= c < |unit.weights|
        ensures unit.weights[c] == target[c]
      {
      }
      assert unit.weights == target;
      unit := unit.(bias := unit.bias + learningRate * unit.delta);
      assert layers == old(layers);
      assert unit == old(layers)[t].units[j].(weights := target,
        bias := old(layers)[t].units[j].bias + learningRate * old(layers)[t].units[j].delta);
      layers := SetUnit(layers, t, j, unit);
    }

    /** Lines 175-180: the weight update of every unit of layer t (t = i + 1 in
        the source). */
    method UpdateLayerWeights(t: nat)
      requires WellFormed(layers) && 1 <= t < |layers|
      modifies this
      ensures WeightsSet(old(layers), layers, t, learningRate)
    {
      var j := 0;
      while j < layers[t].length
        invariant WeightsUpTo(old(layers), layers, t, j, learningRate)
      {
        ghost var pre := layers;
        assert pre[t - 1] == old(layers)[t - 1] && pre[t].units[j] == old(layers)[t].units[j];
        assert WeightUpdated(old(layers), t, j, learningRate) == WeightUpdated(pre, t, j, learningRate);
        UpdateUnitWeights(t, j);
        WeightsUpToStep(old(layers), pre, layers, t, j, learningRate);
        j := j + 1;
      }
      WeightsUpToDone(old(layers), layers, t, learningRate);
    }
  
    /** One iteration of BackPropagate's layer loop (lines 168-180): deltas of
        layer i from layer i + 1, then the weight update of layer i + 1. */
    method BackwardStep(i: nat, ghost before: Layers, ghost mid: Layers, ghost expected: seq<real>)
      requires BackwardProgress(before, mid, layers, expected, transferDerivative, learningRate, i)
      modifies this
      ensures BackwardProgress(before, mid, layers, expected, transferDerivative, learningRate, i - 1)
    {
      ghost var c0 := layers;
      SetHiddenDeltas(i);
      ghost var c1 := layers;
      UpdateLayerWeights(i + 1);
      ghost var c2 := layers;
      StepKeeps(before, mid, c0, c1, c2, expected, transferDerivative, learningRate, i);
      StepDeltas(before, c0, c1, c2, transferDerivative, learningRate, i);
      StepWeights(before, c0, c1, c2, transferDerivative, learningRate, i);
    }

    /** Lines 159-180: the output deltas, then the layer loop from the top down. */
    method BackwardPass(ghost before: Layers, expected: seq<real>, out: seq<real>)
      requires WellFormed(before) && |before| >= 1 && WellFormed(layers) && OnlyValuesDiffer(before, layers)
      requires |expected| == before[|before| - 1].length && out == Layer.Values(layers[|layers| - 1])
      modifies this
      ensures BackwardProgress(before, old(layers), layers, expected, transferDerivative, learningRate, -1)
    {
      ghost var mid := layers;
      SetOutputDeltas(expected, out);
      BackwardStart(before, mid, layers, expected, out, transferDerivative, learningRate);
      BackwardLayers(before, mid, expected);
    }

    /** The layer loop of BackPropagate (lines 166-181), from the layer below the
        output down to layer 0. */
    method BackwardLayers(ghost before: Layers, ghost mid: Layers, ghost expected: seq<real>)
      requires BackwardProgress(before, mid, layers, expected, transferDerivative, learningRate, |layers| - 2)
      modifies this
      ensures BackwardProgress(before, mid, layers, expected, transferDerivative, learningRate, -1)
    {
      var i := |layers| - 2;
      while i >= 0
        invariant BackwardProgress(before, mid, layers, expected, transferDerivative, learningRate, i)
      {
        BackwardStep(i, before, mid, expected);
        i := i - 1;
      }
    }

    /** BackPropagate: a forward pass (with the options forwarded as evidently
        intended), then the deltas from the output layer backwards, each layer's
        deltas computed before the weights they depend on are updated. Returns
        the mean absolute output error. */
    method BackPropagate(input: Patterns.Pattern, expected: seq<real>, options: seq<int>)
      returns (deltaError: Util.Float)
      requires CanExecute(layers, input.features, Recurrent(options))
      requires |expected| == layers[|layers| - 1].length
      modifies this
      ensures BackPropagated(old(layers), layers, input.features, expected, Recurrent(options),
                             transfer, transferDerivative, learningRate)
      ensures deltaError == MeanAbsError(Layer.Values(layers[|layers| - 1]), expected)
    {
      var newExpectedOutput := Execute(input, ForwardedOptions(options));
      ghost var mid := layers;
      BackwardPass(old(layers), expected, newExpectedOutput);
      BackwardDone(old(layers), mid, layers, input.features, expected,
                   Recurrent(options), transfer, transferDerivative, learningRate);
      deltaError := MeanError(newExpectedOutput, expected);
    }
  }

  /** Lines 182-185: the mean of |output[i] - expected[i]| (NaN for no outputs). */
  method MeanError(output: seq<real>, expected: seq<real>) returns (deltaError: Util.Float)
    requires |expected| <= |output|
    ensures deltaError == MeanAbsError(output, expected)
  {
    var sum := 0.0;
    var i := 0;
    while i < |expected|
      invariant 0 <= i <= |expected|
      invariant sum == AbsSum(output, expected, i)
    {
      var d := output[i] - expected[i];
      sum := sum + (if d < 0.0 then expected[i] - output[i] else d);
      i := i + 1;
    }
    if |expected| == 0 {
      deltaError := Util.NaN;
    } else {
      deltaError := Util.Finite(sum / |expected| as real);
    }
  }

  // ------------------------------------------------------------------
  // Construction of the recurrent network and the training loops

  /** PrepareElmanNet: the network of PrepareMLPNet with the three layers
      input, hidden and output; Elman mode later copies the hidden values into
      the input units after the features. */
  method PrepareElmanNet(inputLayer: nat, hiddenLayer: nat, outputLayer: nat, rate: real,
                         tf: real -> real, tfd: real -> real) returns (rnn: MultiLayerNetwork)
    ensures fresh(rnn)
    ensures |rnn.layers| == 3 && WellFormed(rnn.layers)
    ensures rnn.layers[0].length == inputLayer && rnn.layers[1].length == hiddenLayer &&
            rnn.layers[2].length == outputLayer
    ensures forall j :: 0 <= j < hiddenLayer ==> |rnn.layers[1].units[j].weights| == inputLayer
    ensures forall j :: 0 <= j < outputLayer ==> |rnn.layers[2].units[j].weights| == hiddenLayer
    ensures rnn.learningRate == rate && rnn.transfer == tf && rnn.transferDerivative == tfd
  {
    rnn := new MultiLayerNetwork.PrepareMLPNet([inputLayer, hiddenLayer, outputLayer], rate, tf, tfd);
  }

  /** The number of passes the training loops make over the patterns: they
      count epochs from 0 and stop after the first pass whose epoch exceeds
      `epochs`, so there is always at least one. */
  function Passes(epochs: int): (r: nat)
    ensures r >= 1 && r - 1 > epochs
    ensures r == 1 || r - 2 <= epochs
  {
    if epochs < 0 then 1 else epochs + 2
  }

  /** The expectation MLPTrain builds for a class: 1 at the class index, 0 elsewhere. */
  function OneHot(n: nat, index: int): (r: seq<real>)
    ensures |r| == n
  {
    seq(n, i requires 0 <= i < n => if i == index then 1.0 else 0.0)
  }

  /** A one-hot vector of an index in range has exactly that position set. */
  lemma {:induction false} OneHotIndex(n: nat, index: int, i: nat)
    requires 0 <= index < n && i < n
    ensures OneHot(n, index)[i] == 1.0 <==> i == index
  {
  }

  lemma {:induction false} SameShapeTransitive(a: Layers, b: Layers, c: Layers)
    requires SameShape(a, b) && SameShape(b, c)
    ensures SameShape(a, c)
  {
  }

  lemma {:induction false} OnlyValuesDifferSameShape(a: Layers, b: Layers)
    requires OnlyValuesDiffer(a, b)
    ensures SameShape(a, b)
  {
  }

  /** Without the Elman copy a forward pass depends on the parameters only: the
      values a network held before it do not matter. */
  lemma {:induction false} ForwardedFromParameters(params: Layers, pre: Layers, after: Layers, features: seq<real>,
                                tf: real -> real)
    requires WellFormed(params) && OnlyValuesDiffer(params, pre)
    requires Forwarded(pre, after, features, false, tf)
    ensures Forwarded(params, after, features, false, tf)
  {
    OnlyValuesDifferTransitive(params, pre, after);
  }

  /** A well-formed network of the same shape as `start` runs every input `start` runs. */
  lemma {:induction false} CanExecuteKept(start: Layers, cur: Layers, features: seq<real>, recurrent: bool)
    requires CanExecute(start, features, recurrent) && WellFormed(cur) && SameShape(start, cur)
    ensures CanExecute(cur, features, recurrent)
  {
  }

  /** One pass of MLPTrain: state k + 1 is state k after BackPropagate on
      pattern k, without options, towards the one-hot vector of its class index. */
  ghost predicate MLPPass(trace: seq<Layers>, patterns: seq<Patterns.Pattern>, classes: nat,
                          tf: real -> real, tfd: real -> real, lr: real)
  {
    |trace| == |patterns| + 1 &&
    forall k :: 0 <= k < |patterns| ==>
      BackPropagated(trace[k], trace[k + 1], patterns[k].features,
                     OneHot(classes, Util.Trunc(patterns[k].singleExpectation)), false, tf, tfd, lr)
  }

  /** What MLPTrain asks of its arguments: the class count is the output
      width, every class index addresses an output unit, and the network runs
      every pattern. */
  ghost predicate MLPTrainable(ls: Layers, patterns: seq<Patterns.Pattern>, classes: nat)
  {
    WellFormed(ls) && |ls| >= 1 && classes == ls[|ls| - 1].length &&
    forall k :: 0 <= k < |patterns| ==>
      CanExecute(ls, patterns[k].features, false) && 0 <= Util.Trunc(patterns[k].singleExpectation) < classes
  }

  /** A run of MLPTrain as a whole: Passes(epochs) passes, each an MLPPass,
      chained from `before` to `after`. */
  ghost predicate MLPTrained(passes: seq<seq<Layers>>, before: Layers, after: Layers, patterns: seq<Patterns.Pattern>,
                             classes: nat, epochs: int, tf: real -> real, tfd: real -> real, lr: real)
  {
    |passes| == Passes(epochs) &&
    (forall e :: 0 <= e < |passes| ==> MLPPass(passes[e], patterns, classes, tf, tfd, lr)) &&
    passes[0][0] == before && passes[|passes| - 1][|patterns|] == after &&
    forall e :: 0 <= e < |passes| - 1 ==> passes[e][|patterns|] == passes[e + 1][0]
  }

  /** MLPTrainable only looks at the shape, so training keeps it. */
  lemma {:induction false} MLPTrainableKept(start: Layers, cur: Layers, patterns: seq<Patterns.Pattern>, classes: nat)
    requires MLPTrainable(start, patterns, classes) && WellFormed(cur) && SameShape(start, cur)
    ensures MLPTrainable(cur, patterns, classes)
  {
    forall k | 0 <= k < |patterns|
      ensures CanExecute(cur, patterns[k].features, false)
    {
      CanExecuteKept(start, cur, patterns[k].features, false);
    }
  }

  /** One iteration of MLPTrain's inner loop (lines 194-199): the output buffer
      is cleared, the class index set to 1, and BackPropagate called with it. */
  method MLPTrainStep(mlp: MultiLayerNetwork, pattern: Patterns.Pattern, output: seq<real>, ghost start: Layers)
    returns (expected: seq<real>)
    requires CanExecute(start, pattern.features, false) && |start| >= 1
    requires |output| == start[|start| - 1].length && 0 <= Util.Trunc(pattern.singleExpectation) < |output|
    requires WellFormed(mlp.layers) && SameShape(start, mlp.layers)
    modifies mlp
    ensures expected == OneHot(|output|, Util.Trunc(pattern.singleExpectation))
    ensures BackPropagated(old(mlp.layers), mlp.layers, pattern.features, expected, false,
                           mlp.transfer, mlp.transferDerivative, mlp.learningRate)
    ensures WellFormed(mlp.layers) && SameShape(start, mlp.layers)
  {
    expected := output;
    var io := 0;
    while io < |expected|
      invariant 0 <= io <= |expected| == |output|
      invariant forall c :: 0 <= c < io ==> expected[c] == 0.0
    {
      expected := expected[io := 0.0];
      io := io + 1;
    }
    var index := Util.Trunc(pattern.singleExpectation);
    expected := expected[index := 1.0];
    assert expected == OneHot(|output|, index);
    CanExecuteKept(start, mlp.layers, pattern.features, false);
    var _ := mlp.BackPropagate(pattern, expected, []);
    BackPropagatedKeepsShape(old(mlp.layers), mlp.layers, pattern.features, expected, false,
                             mlp.transfer, mlp.transferDerivative, mlp.learningRate, pattern.features, false);
    SameShapeTransitive(start, old(mlp.layers), mlp.layers);
  }

  /** The inner loop of MLPTrain (lines 193-200): one BackPropagate per
      pattern, in order, through a shared output buffer. */
  method MLPTrainPass(mlp: MultiLayerNetwork, patterns: seq<Patterns.Pattern>, output: seq<real>,
                      ghost start: Layers)
    returns (ghost trace: seq<Layers>)
    requires MLPTrainable(start, patterns, |output|) && WellFormed(mlp.layers) && SameShape(start, mlp.layers)
    modifies mlp
    ensures MLPPass(trace, patterns, |output|, mlp.transfer, mlp.transferDerivative, mlp.learningRate)
    ensures trace[0] == old(mlp.layers) && trace[|patterns|] == mlp.layers
    ensures WellFormed(mlp.layers) && SameShape(start, mlp.layers)
  {
    var buffer := output;
    trace := [mlp.layers];
    var k := 0;
    while k < |patterns|
      invariant 0 <= k <= |patterns| && |trace| == k + 1 && |buffer| == |output|
      invariant trace[0] == old(mlp.layers) && trace[k] == mlp.layers
      invariant WellFormed(mlp.layers) && SameShape(start, mlp.layers)
      invariant forall c :: 0 <= c < k ==>
        BackPropagated(trace[c], trace[c + 1], patterns[c].features,
                       OneHot(|output|, Util.Trunc(patterns[c].singleExpectation)), false,
                       mlp.transfer, mlp.transferDerivative, mlp.learningRate)
    {
      buffer := MLPTrainStep(mlp, patterns[k], buffer, start);
      trace := trace + [mlp.layers];
      k := k + 1;
    }
  }

  /** MLPTrain (lines 189-214): Passes(epochs) passes over all patterns in
      order, each pass continuing from the network the previous one left. */
  method MLPTrain(mlp: MultiLayerNetwork, patterns: seq<Patterns.Pattern>, mapped: seq<string>, epochs: int)
    returns (ghost passes: seq<seq<Layers>>)
    requires MLPTrainable(mlp.layers, patterns, |mapped|)
    modifies mlp
    ensures |passes| == Passes(epochs)
    ensures forall e :: 0 <= e < |passes| ==> |passes[e]| == |patterns| + 1
    ensures forall e :: 0 <= e < |passes| ==>
      MLPPass(passes[e], patterns, |mapped|, mlp.transfer, mlp.transferDerivative, mlp.learningRate)
    ensures passes[0][0] == old(mlp.layers)
    ensures forall e :: 0 <= e < |passes| - 1 ==> passes[e][|patterns|] == passes[e + 1][0]
    ensures passes[|passes| - 1][|patterns|] == mlp.layers
    ensures MLPTrained(passes, old(mlp.layers), mlp.layers, patterns, |mapped|, epochs,
                       mlp.transfer, mlp.transferDerivative, mlp.learningRate)
    ensures WellFormed(mlp.layers) && SameShape(old(mlp.layers), mlp.layers)
  {
    ghost var start := mlp.layers;
    var epoch := 0;
    var output := Util.Zeros(|mapped|);
    passes := [];
    while true
      invariant 0 <= epoch && (epoch == 0 || epoch <= epochs + 1) && |passes| == epoch
      invariant WellFormed(mlp.layers) && SameShape(start, mlp.layers)
      invariant forall e :: 0 <= e < |passes| ==>
        MLPPass(passes[e], patterns, |mapped|, mlp.transfer, mlp.transferDerivative, mlp.learningRate)
      invariant |passes| > 0 ==> passes[0][0] == start && passes[|passes| - 1][|patterns|] == mlp.layers
      invariant epoch == 0 ==> mlp.layers == start
      invariant forall e :: 0 <= e < |passes| - 1 ==> passes[e][|patterns|] == passes[e + 1][0]
      decreases epochs - epoch
    {
      var trace := MLPTrainPass(mlp, patterns, output, start);
      passes := passes + [trace];
      if epoch > epochs {
        break;
      }
      epoch := epoch + 1;
    }
  }

  /** One pattern of ElmanTrain: BackPropagate in Elman mode towards the
      pattern's multi-valued expectation gives `backed`; when the pattern is
      the watched one, the monitoring forward pass runs on top of it. */
  ghost predicate ElmanStep(s: Layers, backed: Layers, next: Layers, p: Patterns.Pattern, watched: bool,
                            tf: real -> real, tfd: real -> real, lr: real)
  {
    BackPropagated(s, backed, p.features, p.multipleExpectation, true, tf, tfd, lr) &&
    if watched then Forwarded(backed, next, p.features, true, tf) else next == backed
  }

  /** One pass of ElmanTrain over all patterns; `watch` is the index of the
      monitored pattern, or -1 when the pass is not monitored. */
  ghost predicate ElmanPass(trace: seq<Layers>, backed: seq<Layers>, patterns: seq<Patterns.Pattern>, watch: int,
                            tf: real -> real, tfd: real -> real, lr: real)
  {
    |trace| == |patterns| + 1 && |backed| == |patterns| &&
    forall k :: 0 <= k < |patterns| ==>
      ElmanStep(trace[k], backed[k], trace[k + 1], patterns[k], k == watch, tf, tfd, lr)
  }

  /** Passes 0 .. |passes| - 1 of ElmanTrain: pass e drew picks[e], is an
      ElmanPass watching Watched(e, picks[e]), and starts where pass e - 1 ended. */
  ghost predicate ElmanPasses(passes: seq<seq<Layers>>, backeds: seq<seq<Layers>>, picks: seq<nat>,
                              patterns: seq<Patterns.Pattern>, tf: real -> real, tfd: real -> real, lr: real)
  {
    |passes| == |backeds| == |picks| &&
    (forall e :: 0 <= e < |picks| ==> picks[e] < |patterns|) &&
    (forall e :: 0 <= e < |passes| ==> ElmanPass(passes[e], backeds[e], patterns, Watched(e, picks[e]), tf, tfd, lr)) &&
    forall e :: 0 <= e < |passes| - 1 ==> passes[e][|patterns|] == passes[e + 1][0]
  }

  lemma {:induction false} ElmanPassesExtendSteps(passes: seq<seq<Layers>>, backeds: seq<seq<Layers>>, picks: seq<nat>,
                               trace: seq<Layers>, backed: seq<Layers>, pick: nat,
                               patterns: seq<Patterns.Pattern>, tf: real -> real, tfd: real -> real, lr: real)
    requires |passes| == |backeds| == |picks|
    requires forall e :: 0 <= e < |passes| ==> ElmanPass(passes[e], backeds[e], patterns, Watched(e, picks[e]), tf, tfd, lr)
    requires ElmanPass(trace, backed, patterns, Watched(|passes|, pick), tf, tfd, lr)
    ensures forall e :: 0 <= e < |passes| + 1 ==>
      ElmanPass((passes + [trace])[e], (backeds + [backed])[e], patterns, Watched(e, (picks + [pick])[e]), tf, tfd, lr)
  {
    var passes', backeds', picks' := passes + [trace], backeds + [backed], picks + [pick];
    forall e | 0 <= e < |passes'|
      ensures ElmanPass(passes'[e], backeds'[e], patterns, Watched(e, picks'[e]), tf, tfd, lr)
    {
      if e < |passes| {
        ElmanPassKept(passes, backeds, picks, trace, backed, pick, e, patterns, tf, tfd, lr);
      } else {
        assert e == |passes|;
        assert passes'[e] == trace && backeds'[e] == backed && picks'[e] == pick;
      }
    }
  }

  lemma {:induction false} ElmanPassKept(passes: seq<seq<Layers>>, backeds: seq<seq<Layers>>, picks: seq<nat>,
                      trace: seq<Layers>, backed: seq<Layers>, pick: nat, e: nat,
                      patterns: seq<Patterns.Pattern>, tf: real -> real, tfd: real -> real, lr: real)
    requires e < |passes| == |backeds| == |picks|
    requires ElmanPass(passes[e], backeds[e], patterns, Watched(e, picks[e]), tf, tfd, lr)
    ensures ElmanPass((passes + [trace])[e], (backeds + [backed])[e], patterns, Watched(e, (picks + [pick])[e]), tf, tfd, lr)
  {
    assert (passes + [trace])[e] == passes[e];
    assert (backeds + [backed])[e] == backeds[e];
    assert (picks + [pick])[e] == picks[e];
  }

  lemma {:induction false} ElmanPassesExtend(passes: seq<seq<Layers>>, backeds: seq<seq<Layers>>, picks: seq<nat>,
                          trace: seq<Layers>, backed: seq<Layers>, pick: nat,
                          patterns: seq<Patterns.Pattern>, tf: real -> real, tfd: real -> real, lr: real)
    requires ElmanPasses(passes, backeds, picks, patterns, tf, tfd, lr) && pick < |patterns|
    requires ElmanPass(trace, backed, patterns, Watched(|passes|, pick), tf, tfd, lr)
    requires |passes| > 0 ==> passes[|passes| - 1][|patterns|] == trace[0]
    ensures ElmanPasses(passes + [trace], backeds + [backed], picks + [pick], patterns, tf, tfd, lr)
  {
    var passes', picks' := passes + [trace], picks + [pick];
    ElmanPassesExtendSteps(passes, backeds, picks, trace, backed, pick, patterns, tf, tfd, lr);
    forall e | 0 <= e < |picks'|
      ensures picks'[e] < |patterns|
    {
      if e < |picks| {
        assert picks'[e] == picks[e];
      }
    }
    forall e | 0 <= e < |passes'| - 1
      ensures passes'[e][|patterns|] == passes'[e + 1][0]
    {
      if e < |passes| - 1 {
        assert passes'[e] == passes[e] && passes'[e + 1] == passes[e + 1];
      }
    }
  }

  /** The pattern index monitored in the pass of epoch `epoch` when the random
      pick is `pick`: the pick on every hundredth epoch, none (-1) otherwise. */
  function Watched(epoch: nat, pick: nat): (r: int)
    ensures r == -1 || r == pick
    ensures r == pick <==> epoch % 100 == 0
  {
    if epoch % 100 == 0 then pick else -1
  }

  /** What ElmanTrain asks: at least one pattern (the random pick draws from
      [0, N)), every pattern runnable in Elman mode, and every multi-valued
      expectation as wide as the output layer. */
  ghost predicate ElmanTrainable(ls: Layers, patterns: seq<Patterns.Pattern>)
  {
    |patterns| > 0 && WellFormed(ls) && |ls| >= 1 &&
    forall k :: 0 <= k < |patterns| ==>
      CanExecute(ls, patterns[k].features, true) && |patterns[k].multipleExpectation| == ls[|ls| - 1].length
  }

  /** One iteration of ElmanTrain's inner loop (lines 221-249): BackPropagate
      in Elman mode, then, for the watched pattern, the monitoring Execute. */
  method ElmanTrainStep(mlp: MultiLayerNetwork, pattern: Patterns.Pattern, watched: bool, ghost start: Layers)
    returns (ghost backed: Layers)
    requires CanExecute(start, pattern.features, true) && |pattern.multipleExpectation| == start[|start| - 1].length
    requires WellFormed(mlp.layers) && SameShape(start, mlp.layers)
    modifies mlp
    ensures ElmanStep(old(mlp.layers), backed, mlp.layers, pattern, watched,
                      mlp.transfer, mlp.transferDerivative, mlp.learningRate)
    ensures WellFormed(mlp.layers) && SameShape(start, mlp.layers)
  {
    CanExecuteKept(start, mlp.layers, pattern.features, true);
    var _ := mlp.BackPropagate(pattern, pattern.multipleExpectation, [1]);
    backed := mlp.layers;
    BackPropagatedKeepsShape(old(mlp.layers), backed, pattern.features, pattern.multipleExpectation, true,
                             mlp.transfer, mlp.transferDerivative, mlp.learningRate, pattern.features, true);
    SameShapeTransitive(start, old(mlp.layers), backed);
    if watched {
      CanExecuteKept(start, backed, pattern.features, true);
      var _ := mlp.Execute(pattern, [1]);
      OnlyValuesDifferSameShape(backed, mlp.layers);
      SameShapeTransitive(start, backed, mlp.layers);
    }
  }

  /** The inner loop of ElmanTrain (lines 220-250) for one pass. */
  method ElmanTrainPass(mlp: MultiLayerNetwork, patterns: seq<Patterns.Pattern>, epoch: nat, pIR: nat,
                        ghost start: Layers)
    returns (ghost trace: seq<Layers>, ghost backed: seq<Layers>)
    requires ElmanTrainable(start, patterns) && WellFormed(mlp.layers) && SameShape(start, mlp.layers)
    modifies mlp
    ensures ElmanPass(trace, backed, patterns, Watched(epoch, pIR),
                      mlp.transfer, mlp.transferDerivative, mlp.learningRate)
    ensures trace[0] == old(mlp.layers) && trace[|patterns|] == mlp.layers
    ensures WellFormed(mlp.layers) && SameShape(start, mlp.layers)
  {
    ghost var watch := Watched(epoch, pIR);
    trace, backed := [mlp.layers], [];
    var pI := 0;
    while pI < |patterns|
      invariant 0 <= pI <= |patterns| && |trace| == pI + 1 && |backed| == pI
      invariant trace[0] == old(mlp.layers) && trace[pI] == mlp.layers
      invariant WellFormed(mlp.layers) && SameShape(start, mlp.layers)
      invariant forall c :: 0 <= c < pI ==>
        ElmanStep(trace[c], backed[c], trace[c + 1], patterns[c], c == watch,
                  mlp.transfer, mlp.transferDerivative, mlp.learningRate)
    {
      var b := ElmanTrainStep(mlp, patterns[pI], epoch % 100 == 0 && pI == pIR, start);
      backed := backed + [b];
      trace := trace + [mlp.layers];
      pI := pI + 1;
    }
  }

  /** ElmanTrain (lines 216-265): Passes(epochs) passes over all patterns in
      Elman mode; each pass draws one pattern index at random, and on every
      hundredth epoch that pattern's output is recomputed for monitoring. */
  method ElmanTrain(mlp: MultiLayerNetwork, patterns: seq<Patterns.Pattern>, epochs: int)
    returns (ghost passes: seq<seq<Layers>>, ghost backeds: seq<seq<Layers>>, ghost picks: seq<nat>)
    requires ElmanTrainable(mlp.layers, patterns)
    modifies mlp
    ensures |passes| == |backeds| == |picks| == Passes(epochs)
    ensures forall e :: 0 <= e < |picks| ==> picks[e] < |patterns|
    ensures forall e :: 0 <= e < |passes| ==> |passes[e]| == |patterns| + 1
    ensures forall e :: 0 <= e < |passes| ==>
      ElmanPass(passes[e], backeds[e], patterns, Watched(e, picks[e]),
                mlp.transfer, mlp.transferDerivative, mlp.learningRate)
    ensures passes[0][0] == old(mlp.layers)
    ensures forall e :: 0 <= e < |passes| - 1 ==> passes[e][|patterns|] == passes[e + 1][0]
    ensures passes[|passes| - 1][|patterns|] == mlp.layers
    ensures WellFormed(mlp.layers) && SameShape(old(mlp.layers), mlp.layers)
  {
    ghost var start := mlp.layers;
    var epoch := 0;
    passes, backeds, picks := [], [], [];
    while true
      invariant 0 <= epoch && (epoch == 0 || epoch <= epochs + 1)
      invariant |passes| == epoch
      invariant WellFormed(mlp.layers) && SameShape(start, mlp.layers)
      invariant ElmanPasses(passes, backeds, picks, patterns, mlp.transfer, mlp.transferDerivative, mlp.learningRate)
      invariant |passes| > 0 ==> passes[0][0] == start && passes[|passes| - 1][|patterns|] == mlp.layers
      invariant epoch == 0 ==> mlp.layers == start
      decreases epochs - epoch
    {
      var pIR: nat :| pIR < |patterns|;
      var trace, backed := ElmanTrainPass(mlp, patterns, epoch, pIR, start);
      ElmanPassesExtend(passes, backeds, picks, trace, backed, pIR, patterns,
                        mlp.transfer, mlp.transferDerivative, mlp.learningRate);
      passes, backeds, picks := passes + [trace], backeds + [backed], picks + [pIR];
      if epoch > epochs {
        break;
      }
      epoch := epoch + 1;
    }
  }
}
