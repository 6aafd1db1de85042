/** Model of neural/NeuralLayer.go: a layer is a list of neuron units together
    with its recorded length. */
module Layer {
  import Neuron

  datatype NeuralLayer = NeuralLayer(units: seq<Neuron.NeuronUnit>, length: int)

  /** The current output values of the units of a layer, in order. */
  function Values(layer: NeuralLayer): (r: seq<real>)
    ensures |r| == |layer.units|
  {
    seq(|layer.units|, k requires 0 <= k < |layer.units| => layer.units[k].value)
  }

  /** PrepareLayer: `n` freshly initialised units, each with one weight per unit
      of the previous layer; the recorded length is `n`. */
  method PrepareLayer(n: nat, prev: nat) returns (layer: NeuralLayer)
    ensures layer.length == n
    ensures |layer.units| == n
    ensures forall j :: 0 <= j < n ==> |layer.units[j].weights| == prev
    ensures prev == 0 ==> forall j :: 0 <= j < n ==> layer.units[j].weights == []
  {
    var units := seq(n, _ => Neuron.NeuronUnit([], 0.0, 0.0, 0.0, 0.0));
    var i := 0;
    while i < n
      invariant 0 <= i <= n
      invariant |units| == n
      invariant forall j :: 0 <= j < i ==> |units[j].weights| == prev
    {
      var unit := Neuron.RandomNeuronInit(prev);
      units := units[i := unit];
      i := i + 1;
    }
    layer := NeuralLayer(units, n);
  }
}
