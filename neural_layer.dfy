/** The perceptron layer of neural_network/NeuralLayer.py:8-39 and its
    biased subclass (lines 87-91). The weight matrix and the bias vector are
    arrays that `learn` updates in place; `feed` and `get_delta` read them
    and change nothing. The arithmetic they perform is the one of LayerMath. */
module NeuralLayers {
  import opened Activations
  import opened LayerMath

  /** Bound of the uniform draw that initialises the weights. */
  const InitBound: real := 0.001

  /** A draw lies in [-0.001, 0.001), the interval np.random.uniform samples. */
  predicate InInitRange(v: real)
  {
    -InitBound <= v < InitBound
  }

  class NeuralLayer {
    /** Row i holds the weights from every input to output neuron i. */
    var weights: array2<real>
    var biases: array<real>
    const activation: real -> real
    const activationDeriv: real -> real
    const size: nat
    const inSize: nat

    /** The shapes the constructor establishes: weights (size, inSize) and
        biases of length size. */
    ghost predicate Valid()
      reads this
    {
      weights.Length0 == size && weights.Length1 == inSize && biases.Length == size
    }

    /** The weight array as a matrix value. */
    function Weights(): (m: Matrix)
      reads this, weights
      ensures IsMatrix(m, weights.Length0, weights.Length1)
      ensures forall i, j :: 0 <= i < weights.Length0 && 0 <= j < weights.Length1 ==> m[i][j] == weights[i, j]
    {
      seq(weights.Length0, i reads this, weights requires 0 <= i < weights.Length0 =>
        seq(weights.Length1, j reads this, weights requires 0 <= i < weights.Length0 && 0 <= j < weights.Length1 => weights[i, j]))
    }

    /** The bias array as a vector value. */
    function Biases(): (b: Vector)
      reads this, biases
      ensures |b| == biases.Length && forall i :: 0 <= i < |b| ==> b[i] == biases[i]
    {
      biases[..]
    }

    /** `__init__`: each weight is drawn from [-0.001, 0.001), read here from
        `draw`. The biases become a fresh zero vector unless a subclass has
        already set them, which `preset` stands for; a preset array is kept,
        the same array with the same contents. */
    constructor (inSize: nat, outSize: nat, activation: real -> real, activationDeriv: real -> real,
                 draw: (nat, nat) -> real, preset: array?<real>)
      requires forall i, j :: InInitRange(draw(i, j))
      requires preset != null ==> preset.Length == outSize
      ensures Valid()
      ensures size == outSize && this.inSize == inSize
      ensures this.activation == activation && this.activationDeriv == activationDeriv
      ensures fresh(weights)
      ensures forall i, j :: 0 <= i < outSize && 0 <= j < inSize ==> weights[i, j] == draw(i, j)
      ensures forall i, j :: 0 <= i < outSize && 0 <= j < inSize ==> InInitRange(weights[i, j])
      ensures preset == null ==> fresh(biases) && Biases() == Zeros(outSize)
      ensures preset != null ==> biases == preset && Biases() == old(preset[..])
    {
      weights := new real[outSize, inSize]((i, j) requires 0 <= i && 0 <= j => draw(i, j));
      if preset == null {
        biases := new real[outSize](_ => 0.0);
      } else {
        biases := preset;
      }
      this.activation := activation;
      this.activationDeriv := activationDeriv;
      size := outSize;
      this.inSize := inSize;
    }

    /** `feed`: activation(W x + b) for every column x of the batch. */
    function Feed(xs: seq<Vector>): (ys: seq<Vector>)
      reads this, weights, biases
      requires Valid()
      requires forall c :: 0 <= c < |xs| ==> |xs[c]| == inSize
      ensures |ys| == |xs| && forall c :: 0 <= c < |ys| ==> |ys[c]| == size
      ensures forall c, i :: 0 <= c < |xs| && 0 <= i < size ==>
                ys[c][i] == activation(Dot(Weights()[i], xs[c]) + biases[i])
    {
      LayerMath.Feed(Weights(), Biases(), activation, xs)
    }

    /** `get_delta`: the delta of the next layer pulled back through that
        layer's weights and multiplied by this layer's derivative at its
        recorded output. */
    function GetDelta(result: Vector, lastDelta: Vector, lastWeights: Matrix): (r: Vector)
      requires IsMatrix(lastWeights, |lastDelta|, |result|)
      ensures |r| == |result|
      ensures forall j :: 0 <= j < |r| ==>
                r[j] == Dot(Column(lastWeights, j), lastDelta) * activationDeriv(result[j])
    {
      LayerMath.GetDelta(activationDeriv, result, lastDelta, lastWeights)
    }

    /** `learn`: weights += lr * outer(delta, result), in place; the biases
        and the shapes stay as they were. */
    method Learn(result: Vector, delta: Vector, lr: real)
      requires Valid() && |delta| == size && |result| == inSize
      modifies weights
      ensures Valid()
      ensures Weights() == OuterUpdate(old(Weights()), lr, delta, result)
      ensures forall i, j :: 0 <= i < size && 0 <= j < inSize ==>
                weights[i, j] == old(weights[i, j]) + lr * delta[i] * result[j]
      ensures Biases() == old(Biases())
    {
      ghost var w := Weights();
      forall i, j | 0 <= i < weights.Length0 && 0 <= j < weights.Length1 {
        weights[i, j] := weights[i, j] + lr * delta[i] * result[j];
      }
      OuterUpdateByEntries(w, Weights(), lr, delta, result);
    }
  }

  /** `BiasedNeuralLayer`: a NeuralLayer whose `learn` also moves the biases.
      The subclass is written as a wrapper around the layer it extends. */
  class BiasedNeuralLayer {
    const layer: NeuralLayer

    ghost predicate Valid()
      reads this, layer
    {
      layer.Valid()
    }

    /** The inherited `__init__`. */
    constructor (inSize: nat, outSize: nat, activation: real -> real, activationDeriv: real -> real,
                 draw: (nat, nat) -> real, preset: array?<real>)
      requires forall i, j :: InInitRange(draw(i, j))
      requires preset != null ==> preset.Length == outSize
      ensures Valid() && fresh(layer)
      ensures layer.size == outSize && layer.inSize == inSize
      ensures layer.activation == activation && layer.activationDeriv == activationDeriv
      ensures fresh(layer.weights)
      ensures forall i, j :: 0 <= i < outSize && 0 <= j < inSize ==> layer.weights[i, j] == draw(i, j)
      ensures preset == null ==> fresh(layer.biases) && layer.Biases() == Zeros(outSize)
      ensures preset != null ==> layer.biases == preset && layer.Biases() == old(preset[..])
    {
      layer := new NeuralLayer(inSize, outSize, activation, activationDeriv, draw, preset);
    }

    /** `learn`: the weight update of NeuralLayer, then biases += lr * delta. */
    method Learn(result: Vector, delta: Vector, lr: real)
      requires Valid() && |delta| == layer.size && |result| == layer.inSize
      modifies layer.weights, layer.biases
      ensures Valid()
      ensures layer.Weights() == OuterUpdate(old(layer.Weights()), lr, delta, result)
      ensures layer.Biases() == BiasUpdate(old(layer.Biases()), lr, delta)
    {
      layer.Learn(result, delta, lr);
      ghost var w := layer.Weights();
      ghost var b := layer.Biases();
      forall i | 0 <= i < layer.biases.Length {
        layer.biases[i] := layer.biases[i] + lr * delta[i];
      }
      assert layer.Weights() == w;
      assert layer.Biases() == BiasUpdate(b, lr, delta);
    }
  }
}
