/** The network of `sann.py` as the object its functions mutate: the nested
    list of node dictionaries is the field `layers`, and `forward_pass`,
    `clean_ann`, `backpropagate` and `train` update it in place. Each method
    is proved against the function of SannNetwork or SannBackprop that says
    what the source computes. */
module SannAnn {
  import opened Common
  import opened SannNetwork
  import opened SannBackprop

  class Ann {
    /** One list of nodes per non-input layer. */
    var layers: seq<Layer>

    constructor (ls: seq<Layer>)
      ensures layers == ls
    {
      layers := ls;
    }

    /** `forward_pass(ann, inputs)`: returns the outputs of the last layer and
        stores in every node the value it produced. */
    method ForwardPass(sigma: Logistic, inputs: seq<real>) returns (outputs: seq<real>)
      modifies this
      ensures layers == ForwardCache(sigma, old(layers), inputs)
      ensures outputs == Forward(sigma, old(layers), inputs)
    {
      ghost var ls := layers;
      outputs := inputs;
      var i := 0;
      while i < |layers|
        invariant 0 <= i <= |layers| == |ls|
        invariant forall p :: 0 <= p < i ==> layers[p] == ForwardCache(sigma, ls, inputs)[p]
        invariant forall p :: i <= p < |ls| ==> layers[p] == ls[p]
        invariant outputs == Forward(sigma, ls[..i], inputs)
      {
        assert ls[..i + 1][..i] == ls[..i];
        var newOutputs := CacheOutputs(sigma, i, outputs);
        outputs := newOutputs;
        i := i + 1;
      }
      assert ls[..i] == ls;
    }

    /** The inner loop of `forward_pass` over the nodes of layer `i`. */
    method CacheOutputs(sigma: Logistic, i: nat, xs: seq<real>) returns (ys: seq<real>)
      requires i < |layers|
      modifies this
      ensures layers == old(layers)[i := CacheLayer(sigma, old(layers)[i], xs)]
      ensures ys == LayerOutputs(sigma, old(layers)[i], xs)
    {
      ghost var layer := layers[i];
      ys := [];
      var j := 0;
      while j < |layers[i]|
        invariant |layers| == |old(layers)| && i < |layers|
        invariant forall p :: 0 <= p < |layers| && p != i ==> layers[p] == old(layers)[p]
        invariant 0 <= j <= |layers[i]| == |layer|
        invariant forall q :: 0 <= q < j ==> layers[i][q] == CacheLayer(sigma, layer, xs)[q]
        invariant forall q :: j <= q < |layer| ==> layers[i][q] == layer[q]
        invariant ys == LayerOutputs(sigma, layer, xs)[..j]
      {
        var node := layers[i][j];
        var activation := SumInputs(Zip(xs, node.weights));
        var out := sigma(activation, node.bias);
        layers := layers[i := layers[i][j := node.(output := Some(out))]];
        ys := ys + [out];
        j := j + 1;
      }
      assert layers[i] == CacheLayer(sigma, layer, xs);
      assert layers == old(layers)[i := CacheLayer(sigma, layer, xs)];
    }

    /** `clean_ann(ann)`: deletes every `output` key and returns the same network. */
    method Clean() returns (r: Ann)
      modifies this
      ensures r == this
      ensures layers == Cleaned(old(layers))
    {
      ghost var ls := layers;
      var i := 0;
      while i < |layers|
        invariant 0 <= i <= |layers| == |ls|
        invariant forall p :: 0 <= p < i ==> layers[p] == Cleaned(ls)[p]
        invariant forall p :: i <= p < |ls| ==> layers[p] == ls[p]
      {
        ghost var before := layers;
        var j := 0;
        while j < |layers[i]|
          invariant |layers| == |ls| && 0 <= j <= |layers[i]| == |ls[i]|
          invariant forall p :: 0 <= p < |ls| && p != i ==> layers[p] == before[p]
          invariant forall q :: 0 <= q < j ==> layers[i][q] == ls[i][q].(output := None)
          invariant forall q :: j <= q < |ls[i]| ==> layers[i][q] == ls[i][q]
        {
          if layers[i][j].output.Some? {
            layers := layers[i := layers[i][j := layers[i][j].(output := None)]];
          }
          j := j + 1;
        }
        assert layers[i] == Cleaned(ls)[i];
        i := i + 1;
      }
      assert layers == Cleaned(ls);
      r := this;
    }

    /** `backpropagate(ann, inputs, expected_outputs, learning_rate)`: a
        forward pass, then each layer from the last down is updated with the
        current errors, and the errors for the layer below are computed from
        the layer just updated. Returns the same network. */
    method Backpropagate(sigma: Logistic, inputs: seq<real>, expected: seq<real>, rate: real) returns (r: Ann)
      requires Fits(layers, inputs) && Covers(layers, expected)
      modifies this
      ensures r == this
      ensures layers == Backprop(sigma, old(layers), inputs, expected, rate)
    {
      ghost var ls := layers;
      var finalOutputs := ForwardPass(sigma, inputs);
      var outputErrors := OutputErrors(expected, finalOutputs);
      PartlyUpdatedEnds(sigma, ls, inputs, expected, rate);
      PropagateDown(inputs, outputErrors, rate);
      r := this;
    }

    /** The loop of `backpropagate` over the layers, from the last down, on
        the network the forward pass left. */
    method PropagateDown(inputs: seq<real>, outputErrors: seq<real>, rate: real)
      requires Fits(layers, inputs) && Covers(layers, outputErrors)
      modifies this
      ensures layers == PartlyUpdated(old(layers), inputs, outputErrors, rate, 0)
    {
      ghost var c := layers;
      assert PartlyUpdated(c, inputs, outputErrors, rate, |c|) == c;
      var currentErrors := outputErrors;
      var i := |layers|;
      while i > 0
        invariant 0 <= i <= |c|
        invariant layers == PartlyUpdated(c, inputs, outputErrors, rate, i)
        invariant i > 0 ==> currentErrors == ErrorsAt(c, inputs, outputErrors, rate, i - 1)
      {
        currentErrors := UpdateLayerBelow(c, inputs, outputErrors, rate, i, currentErrors);
        i := i - 1;
      }
    }

    /** One pass of that loop: update layer `i - 1` with the current errors
        and, unless it is the first layer, compute the errors below it. */
    method UpdateLayerBelow(ghost c: seq<Layer>, inputs: seq<real>, outputErrors: seq<real>, rate: real,
                            i: nat, currentErrors: seq<real>) returns (next: seq<real>)
      requires Fits(c, inputs) && Covers(c, outputErrors) && 0 < i <= |c|
      requires layers == PartlyUpdated(c, inputs, outputErrors, rate, i)
      requires currentErrors == ErrorsAt(c, inputs, outputErrors, rate, i - 1)
      modifies this
      ensures layers == PartlyUpdated(c, inputs, outputErrors, rate, i - 1)
      ensures i > 1 ==> next == ErrorsAt(c, inputs, outputErrors, rate, i - 2)
    {
      var k := i - 1;
      PartlyUpdatedStep(c, inputs, outputErrors, rate, i);
      var layerInputs := if k == 0 then inputs else Outputs(layers[k - 1]);
      assert layerInputs == LayerInput(c, inputs, k);
      UpdateLayerInPlace(k, currentErrors, layerInputs, rate);
      next := currentErrors;
      if k > 0 {
        ErrorsAtStep(c, inputs, outputErrors, rate, k);
        next := ErrorsBelow(layers[k], currentErrors, |layers[k - 1]|);
      }
    }

    /** The loop of `backpropagate` over the nodes `j` of layer `k`: the
        weights and the bias of each node move along its gradient. */
    method UpdateLayerInPlace(k: nat, errs: seq<real>, lin: seq<real>, rate: real)
      requires k < |layers| && |errs| >= |layers[k]|
      requires Narrow(layers[k], |lin|)
      modifies this
      ensures layers == old(layers)[k := UpdateLayer(old(layers)[k], errs, lin, rate)]
    {
      ghost var layer := layers[k];
      var j := 0;
      while j < |layers[k]|
        invariant |layers| == |old(layers)| && k < |layers|
        invariant forall p :: 0 <= p < |layers| && p != k ==> layers[p] == old(layers)[p]
        invariant 0 <= j <= |layers[k]| == |layer|
        invariant forall q :: 0 <= q < j ==> layers[k][q] == UpdateLayer(layer, errs, lin, rate)[q]
        invariant forall q :: j <= q < |layer| ==> layers[k][q] == layer[q]
      {
        var node := layers[k][j];
        var gradient := Gradient(node, errs[j]);
        var w := UpdatedWeights(node.weights, gradient, lin, rate);
        UpdateLayerAt(layer, errs, lin, rate, j);
        layers := layers[k := layers[k][j := Node(w, node.bias + rate * gradient, node.output)]];
        j := j + 1;
      }
      assert layers[k] == UpdateLayer(layer, errs, lin, rate);
      assert layers == old(layers)[k := UpdateLayer(layer, errs, lin, rate)];
    }

    /** `train(ann, training_data, epochs, learning_rate)`: each epoch
        backpropagates every sample in order and then cleans the network. */
    method Train(sigma: Logistic, data: seq<Sample>, epochs: nat, rate: real) returns (r: Ann)
      requires Trainable(layers, data)
      modifies this
      ensures r == this
      ensures layers == Trained(sigma, old(layers), data, epochs, rate)
    {
      ghost var ls := layers;
      var e := 0;
      while e < epochs
        invariant 0 <= e <= epochs
        invariant layers == Trained(sigma, ls, data, e, rate)
      {
        TrainableSameShape(ls, layers, data);
        RunEpoch(sigma, data, rate);
        var same := Clean();
        e := e + 1;
      }
      r := this;
    }

    /** The inner loop of `train`: one `backpropagate` per sample, in order. */
    method RunEpoch(sigma: Logistic, data: seq<Sample>, rate: real)
      requires Trainable(layers, data)
      modifies this
      ensures layers == RunAll(sigma, old(layers), data, rate)
    {
      ghost var start := layers;
      var d := 0;
      while d < |data|
        invariant 0 <= d <= |data|
        invariant Trainable(start, data[..d])
        invariant layers == RunAll(sigma, start, data[..d], rate)
      {
        RunAllStep(sigma, start, data, d, rate);
        var same := Backpropagate(sigma, data[d].inputs, data[d].expected, rate);
        d := d + 1;
      }
      assert data[..d] == data;
    }
  }

  /** The innermost loop of `backpropagate`: `weights[k] += rate * gradient * inputs[k]`. */
  method UpdatedWeights(weights: seq<real>, gradient: real, lin: seq<real>, rate: real) returns (w: seq<real>)
    requires |weights| <= |lin|
    ensures w == Shifted(weights, gradient, lin, rate)
  {
    w := weights;
    var m := 0;
    while m < |w|
      invariant 0 <= m <= |w| == |weights|
      invariant forall q :: 0 <= q < m ==> w[q] == weights[q] + rate * gradient * lin[q]
      invariant forall q :: m <= q < |w| ==> w[q] == weights[q]
    {
      w := w[m := w[m] + rate * gradient * lin[m]];
      m := m + 1;
    }
    assert forall q :: 0 <= q < |w| ==> w[q] == Shifted(weights, gradient, lin, rate)[q];
  }

  /** The loop of `backpropagate` that computes the errors of the layer below
      from the layer just updated, one entry per node below. */
  method ErrorsBelow(layer: Layer, errs: seq<real>, width: nat) returns (e: seq<real>)
    requires |layer| <= |errs| && Wide(layer, width)
    ensures e == PrevErrors(layer, errs, width)
  {
    e := [];
    var p := 0;
    while p < width
      invariant 0 <= p <= width
      invariant e == PrevErrors(layer, errs, width)[..p]
    {
      var error := ErrorSum(layer, errs, p, |layer|);
      e := e + [error];
      p := p + 1;
    }
  }

  /** `create_ann(layers)` for the draws `u`: ValueError for fewer than two
      layer sizes, otherwise a fresh network of the created shape. */
  method CreateAnn(sizes: seq<nat>, u: Uniform) returns (r: Result<Ann>)
    ensures r.ValueError? <==> |sizes| < 2
    ensures r.ValueError? ==> r.message == "ANN must have at least two layers (input and output)."
    ensures r.Ok? ==> fresh(r.value) && r.value.layers == Created(sizes, u)
  {
    if |sizes| < 2 {
      return ValueError("ANN must have at least two layers (input and output).");
    }
    var ann: seq<Layer> := [];
    var i := 1;
    while i < |sizes|
      invariant 1 <= i <= |sizes|
      invariant ann == Created(sizes, u)[..i - 1]
    {
      var layer: Layer := [];
      var j := 0;
      while j < sizes[i]
        invariant 0 <= j <= sizes[i]
        invariant layer == CreatedLayer(i - 1, sizes[i - 1], sizes[i], u)[..j]
      {
        var fanIn := sizes[i - 1];
        var weights := seq(fanIn, k requires 0 <= k < fanIn => u(i - 1, j, k));
        layer := layer + [Node(weights, u(i - 1, j, fanIn), None)];
        j := j + 1;
      }
      assert layer == CreatedLayer(i - 1, sizes[i - 1], sizes[i], u);
      ann := ann + [layer];
      i := i + 1;
    }
    assert ann == Created(sizes, u);
    var a := new Ann(ann);
    return Ok(a);
  }
}
