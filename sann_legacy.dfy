/** The older library `src/sann.py`: a node is a bare list of weights with
    no bias, the forward pass caches nothing, `tlu` fires only above the
    threshold, and `backpropagate` works only for a network of one layer. */
module SannLegacy {
  import opened Common
  import N = SannNetwork
  import B = SannBackprop
  import A = SannAnn

  /** The weights of each node of one layer. */
  type Layer = seq<seq<real>>

  /** `tlu` of `src/sann.py`: fires only when the activation exceeds the threshold. */
  function Tlu(a: real, t: real): (r: int)
    ensures r == 0 || r == 1
    ensures r == 1 <==> a > t
  {
    if a > t then 1 else 0
  }

  /** The two threshold units disagree exactly at the threshold itself. */
  lemma TluDiffersAtThreshold(a: real, t: real)
    ensures Tlu(a, t) != N.Tlu(a, t) <==> a == t
    ensures a == t ==> Tlu(a, t) == 0 && N.Tlu(a, t) == 1
  {
  }

  /** The outputs of one layer: `sigmoid(sum_inputs(zip(xs, w)))`, threshold 0. */
  function LayerOutputs(sigma: N.Logistic, layer: Layer, xs: seq<real>): (r: seq<real>)
    ensures |r| == |layer|
    ensures forall j :: 0 <= j < |r| ==> 0.0 < r[j] < 1.0
  {
    seq(|layer|, j requires 0 <= j < |layer| => sigma(N.SumInputs(N.Zip(xs, layer[j])), 0.0))
  }

  /** What `forward_pass` returns: the last layer's outputs, or the inputs
      themselves for an empty network. */
  function Forward(sigma: N.Logistic, ls: seq<Layer>, xs: seq<real>): (r: seq<real>)
    ensures ls == [] ==> r == xs
    ensures ls != [] ==> |r| == |ls[|ls| - 1]|
    ensures ls != [] ==> forall k :: 0 <= k < |r| ==> 0.0 < r[k] < 1.0
  {
    if ls == [] then xs
    else LayerOutputs(sigma, ls[|ls| - 1], Forward(sigma, ls[..|ls| - 1], xs))
  }

  /** The same network with node dictionaries of bias 0, as `sann.py` has them. */
  function Biased(ls: seq<Layer>): (r: seq<N.Layer>)
    ensures |r| == |ls|
    ensures forall i :: 0 <= i < |ls| ==> |r[i]| == |ls[i]|
  {
    seq(|ls|, i requires 0 <= i < |ls| =>
      seq(|ls[i]|, j requires 0 <= j < |ls[i]| => N.Node(ls[i][j], 0.0, None)))
  }

  /** The old forward pass is the new one on nodes whose bias is 0. */
  lemma {:induction false} ForwardIsZeroBias(sigma: N.Logistic, ls: seq<Layer>, xs: seq<real>)
    ensures Forward(sigma, ls, xs) == N.Forward(sigma, Biased(ls), xs)
  {
    if ls != [] {
      var n := |ls| - 1;
      ForwardIsZeroBias(sigma, ls[..n], xs);
      assert Biased(ls)[..n] == Biased(ls[..n]);
      var ys := Forward(sigma, ls[..n], xs);
      assert LayerOutputs(sigma, ls[n], ys) == N.LayerOutputs(sigma, Biased(ls)[n], ys);
    }
  }

  /** Layer `i` holds `sizes[i + 1]` nodes of `sizes[i]` weights each. */
  predicate Shaped(ls: seq<Layer>, sizes: seq<nat>)
  {
    && |ls| + 1 == |sizes|
    && (forall i :: 0 <= i < |ls| ==> |ls[i]| == sizes[i + 1])
    && (forall i, j :: 0 <= i < |ls| && 0 <= j < |ls[i]| ==> |ls[i][j]| == sizes[i])
  }

  /** Node layer `i` as `create_ann` draws it: `width` nodes of `fanIn` weights. */
  function CreatedLayer(i: nat, fanIn: nat, width: nat, u: N.Uniform): (l: Layer)
    ensures |l| == width
    ensures forall j :: 0 <= j < width ==> |l[j]| == fanIn
    ensures forall j, k :: 0 <= j < width && 0 <= k < fanIn ==> -1.0 <= l[j][k] <= 1.0
  {
    seq(width, j requires 0 <= j < width => seq(fanIn, k requires 0 <= k < fanIn => u(i, j, k)))
  }

  /** The network `create_ann(sizes)` returns for the draws `u`. */
  function Created(sizes: seq<nat>, u: N.Uniform): (r: seq<Layer>)
    requires |sizes| >= 2
    ensures Shaped(r, sizes)
    ensures forall i, j, k :: 0 <= i < |r| && 0 <= j < |r[i]| && 0 <= k < |r[i][j]| ==>
              -1.0 <= r[i][j][k] <= 1.0
  {
    seq(|sizes| - 1, i requires 0 <= i < |sizes| - 1 => CreatedLayer(i, sizes[i], sizes[i + 1], u))
  }

  /** The conditions under which `backpropagate` runs to its end: at most one
      layer (a deeper network multiplies by a list and raises TypeError), and
      for that layer an expected value per node, an input per weight, at
      least one node (the final error list reads `layer[0]`) and no node with
      fewer weights than the first. */
  predicate Trainable(ls: seq<Layer>, inputs: seq<real>, expected: seq<real>)
  {
    && |ls| <= 1
    && (|ls| == 1 ==>
          && 0 < |ls[0]| <= |expected|
          && forall j :: 0 <= j < |ls[0]| ==> |ls[0][0]| <= |ls[0][j]| <= |inputs|)
  }

  /** The network after `backpropagate`: in the one layer, weight `k` of node
      `j` moves by `rate * o * (1 - o) * (expected[j] - o) * inputs[k]`,
      where `o` is the node's output on `inputs`. */
  function Updated(sigma: N.Logistic, ls: seq<Layer>, inputs: seq<real>, expected: seq<real>, rate: real): (r: seq<Layer>)
    requires Trainable(ls, inputs, expected)
    ensures |r| == |ls|
  {
    if ls == [] then ls
    else
      var out := Forward(sigma, ls, inputs);
      var errs := B.OutputErrors(expected, out);
      [seq(|ls[0]|, j requires 0 <= j < |ls[0]| => B.Shifted(ls[0][j], B.Delta(out[j], errs[j]), inputs, rate))]
  }

  lemma UpdatedKeepsShape(sigma: N.Logistic, ls: seq<Layer>, inputs: seq<real>, expected: seq<real>, rate: real)
    requires Trainable(ls, inputs, expected)
    ensures var r := Updated(sigma, ls, inputs, expected, rate);
      && |r| == |ls|
      && (forall i :: 0 <= i < |ls| ==> |r[i]| == |ls[i]|)
      && (forall i, j :: 0 <= i < |ls| && 0 <= j < |ls[i]| ==> |r[i][j]| == |ls[i][j]|)
  {
  }

  /** The update rule spelled out for node `j`, weight `k`. */
  lemma UpdateRule(sigma: N.Logistic, ls: seq<Layer>, inputs: seq<real>, expected: seq<real>, rate: real, j: nat, k: nat)
    requires Trainable(ls, inputs, expected) && |ls| == 1 && j < |ls[0]| && k < |ls[0][j]|
    ensures
      var o := Forward(sigma, ls, inputs)[j];
      Updated(sigma, ls, inputs, expected, rate)[0][j][k] ==
        ls[0][j][k] + rate * (o * (1.0 - o) * (expected[j] - o)) * inputs[k]
  {
  }

  /** When every output already matches its expected value, no weight moves. */
  lemma UpdatedZeroError(sigma: N.Logistic, ls: seq<Layer>, inputs: seq<real>, expected: seq<real>, rate: real)
    requires Trainable(ls, inputs, expected)
    requires Forward(sigma, ls, inputs) <= expected
    ensures Updated(sigma, ls, inputs, expected, rate) == ls
  {
    if ls != [] {
      var r := Updated(sigma, ls, inputs, expected, rate);
      forall j | 0 <= j < |ls[0]|
        ensures r[0][j] == ls[0][j]
      {
        var out := Forward(sigma, ls, inputs);
        assert B.OutputErrors(expected, out)[j] == 0.0;
        assert B.Delta(out[j], 0.0) == 0.0;
        assert forall k :: 0 <= k < |ls[0][j]| ==> r[0][j][k] == ls[0][j][k];
      }
      assert r[0] == ls[0];
      assert r == [r[0]] && ls == [ls[0]];
    }
  }

  /** The nested list `src/sann.py`'s functions pass around and mutate. */
  class Ann {
    /** The weights of every node, one list of nodes per non-input layer. */
    var layers: seq<Layer>

    constructor (ls: seq<Layer>)
      ensures layers == ls
    {
      layers := ls;
    }

    /** `forward_pass(ann, inputs)`; unlike `sann.py` it writes nothing back. */
    method ForwardPass(sigma: N.Logistic, inputs: seq<real>) returns (outputs: seq<real>)
      ensures outputs == Forward(sigma, layers, inputs)
    {
      outputs := inputs;
      var i := 0;
      while i < |layers|
        invariant 0 <= i <= |layers|
        invariant outputs == Forward(sigma, layers[..i], inputs)
      {
        assert layers[..i + 1][..i] == layers[..i];
        var newOutputs := [];
        var j := 0;
        while j < |layers[i]|
          invariant 0 <= j <= |layers[i]|
          invariant newOutputs == LayerOutputs(sigma, layers[i], outputs)[..j]
        {
          var activation := N.SumInputs(N.Zip(outputs, layers[i][j]));
          newOutputs := newOutputs + [sigma(activation, 0.0)];
          j := j + 1;
        }
        outputs := newOutputs;
        i := i + 1;
      }
      assert layers[..i] == layers;
    }

    /** `backpropagate(ann, inputs, expected_outputs, learning_rate)`: updates
        every weight in place and returns the same network. The error list
        the loop computes after the update is never read again. */
    method Backpropagate(sigma: N.Logistic, inputs: seq<real>, expected: seq<real>, rate: real) returns (r: Ann)
      requires Trainable(layers, inputs, expected)
      modifies this
      ensures r == this
      ensures layers == Updated(sigma, old(layers), inputs, expected, rate)
    {
      var actual := ForwardPass(sigma, inputs);
      var outputErrors := B.OutputErrors(expected, actual);
      if |layers| == 1 {
        // The loop over `reversed(range(len(ann)))` visits layer 0 only.
        ghost var layer := layers[0];
        var j := 0;
        while j < |layers[0]|
          invariant |layers| == 1 && |layers[0]| == |layer|
          invariant 0 <= j <= |layer|
          invariant forall q :: 0 <= q < j ==>
                      layers[0][q] == B.Shifted(layer[q], B.Delta(actual[q], outputErrors[q]), inputs, rate)
          invariant forall q :: j <= q < |layer| ==> layers[0][q] == layer[q]
        {
          var gradient := actual[j] * (1.0 - actual[j]) * outputErrors[j];
          assert gradient == B.Delta(actual[j], outputErrors[j]);
          var w := A.UpdatedWeights(layers[0][j], gradient, inputs, rate);
          layers := [layers[0][j := w]];
          j := j + 1;
        }
        assert layers[0] == Updated(sigma, old(layers), inputs, expected, rate)[0];
      }
      r := this;
    }
  }

  /** `create_ann(layers)` for the draws `u`: ValueError for fewer than two
      layer sizes, otherwise a fresh network of the created shape. */
  method CreateAnn(sizes: seq<nat>, u: N.Uniform) returns (r: Result<Ann>)
    ensures r.ValueError? <==> |sizes| < 2
    ensures r.ValueError? ==> r.message == "ANN must have at least two layers (input and output)."
    ensures r.Ok? ==> fresh(r.value) && r.value.layers == Created(sizes, u)
  {
    if |sizes| < 2 {
      return ValueError("ANN must have at least two layers (input and output).");
    }
    var ann: seq<Layer> := [];
    var i := 1;
    while i < |sizes|
      invariant 1 <= i <= |sizes|
      invariant ann == Created(sizes, u)[..i - 1]
    {
      var layer: Layer := [];
      var j := 0;
      while j < sizes[i]
        invariant 0 <= j <= sizes[i]
        invariant layer == CreatedLayer(i - 1, sizes[i - 1], sizes[i], u)[..j]
      {
        var fanIn := sizes[i - 1];
        var weights := seq(fanIn, k requires 0 <= k < fanIn => u(i - 1, j, k));
        layer := layer + [weights];
        j := j + 1;
      }
      assert layer == CreatedLayer(i - 1, sizes[i - 1], sizes[i], u);
      ann := ann + [layer];
      i := i + 1;
    }
    assert ann == Created(sizes, u);
    var a := new Ann(ann);
    return Ok(a);
  }
}
