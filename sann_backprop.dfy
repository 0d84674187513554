/** Backpropagation and the training loop of `sann.py`, as functions on
    network values, with the properties the source promises of them. */
module SannBackprop {
  import opened Common
  import opened SannNetwork

  /** The shape `backpropagate` needs to run without an IndexError: a node of
      the first layer reads at most `|inputs|` inputs, and every later node has
      one weight per node of the layer before. */
  predicate Fits(ls: seq<Layer>, inputs: seq<real>)
  {
    && (|ls| > 0 ==> forall j :: 0 <= j < |ls[0]| ==> |ls[0][j].weights| <= |inputs|)
    && (forall i, j :: 0 < i < |ls| && 0 <= j < |ls[i]| ==> |ls[i][j].weights| == |ls[i - 1]|)
  }

  /** `expected_outputs` covers every node of the output layer. */
  predicate Covers(ls: seq<Layer>, expected: seq<real>)
  {
    ls != [] ==> |expected| >= |ls[|ls| - 1]|
  }

  lemma FitsSameShape(a: seq<Layer>, b: seq<Layer>, inputs: seq<real>, expected: seq<real>)
    requires SameShape(a, b) && Fits(a, inputs) && Covers(a, expected)
    ensures Fits(b, inputs) && Covers(b, expected)
  {
  }

  /** The gradient `out * (1 - out) * err` of a node with output `out`. */
  function Delta(out: real, err: real): real
  {
    out * (1.0 - out) * err
  }

  /** The gradient of a node, from its stored output. */
  function Gradient(n: Node, err: real): real
  {
    Delta(Stored(n), err)
  }

  /** `weights[k] + rate * g * inputs[k]` for every weight `k`. */
  function Shifted(weights: seq<real>, g: real, lin: seq<real>, rate: real): (r: seq<real>)
    requires |weights| <= |lin|
    ensures |r| == |weights|
  {
    seq(|weights|, k requires 0 <= k < |weights| => weights[k] + rate * g * lin[k])
  }

  /** One node after the update of weights and bias. */
  function UpdateNode(n: Node, err: real, lin: seq<real>, rate: real): (m: Node)
    requires |n.weights| <= |lin|
    ensures |m.weights| == |n.weights| && m.output == n.output
  {
    var g := Gradient(n, err);
    Node(Shifted(n.weights, g, lin, rate), n.bias + rate * g, n.output)
  }

  /** No node of the layer has more than `width` weights. */
  predicate Narrow(layer: Layer, width: nat)
  {
    forall j :: 0 <= j < |layer| ==> |layer[j].weights| <= width
  }

  /** One layer after the update, node `j` taking error `errs[j]`. */
  function UpdateLayer(layer: Layer, errs: seq<real>, lin: seq<real>, rate: real): (r: Layer)
    requires |errs| >= |layer|
    requires Narrow(layer, |lin|)
    ensures |r| == |layer|
    ensures forall j :: 0 <= j < |r| ==> |r[j].weights| == |layer[j].weights| && r[j].output == layer[j].output
  {
    seq(|layer|, j requires 0 <= j < |layer| => UpdateNode(layer[j], errs[j], lin, rate))
  }

  /** The sum, over the first `n` nodes `k` of the layer, of
      `gradient_k * weight[k][p]`, added up from the left as `sum` does. */
  function ErrorSum(layer: Layer, errs: seq<real>, p: nat, n: nat): real
    requires n <= |layer| <= |errs|
    requires forall k :: 0 <= k < n ==> p < |layer[k].weights|
  {
    if n == 0 then 0.0
    else ErrorSum(layer, errs, p, n - 1) + Gradient(layer[n - 1], errs[n - 1]) * layer[n - 1].weights[p]
  }

  /** Every node of the layer has at least `width` weights. */
  predicate Wide(layer: Layer, width: nat)
  {
    forall k :: 0 <= k < |layer| ==> width <= |layer[k].weights|
  }

  /** The error vector handed to the layer below, one entry per node below. */
  function PrevErrors(layer: Layer, errs: seq<real>, width: nat): (r: seq<real>)
    requires |layer| <= |errs| && Wide(layer, width)
    ensures |r| == width
  {
    seq(width, p requires 0 <= p < width => ErrorSum(layer, errs, p, |layer|))
  }

  /** The inputs of node layer `i`: the raw inputs for the first layer, the
      stored outputs of the layer below otherwise. */
  function LayerInput(c: seq<Layer>, inputs: seq<real>, i: nat): (r: seq<real>)
    requires i < |c|
  {
    if i == 0 then inputs else Outputs(c[i - 1])
  }

  /** `[expected - actual for expected, actual in zip(expected, actual)]`. */
  function OutputErrors(expected: seq<real>, actual: seq<real>): (r: seq<real>)
    ensures |r| == if |expected| <= |actual| then |expected| else |actual|
  {
    var n := if |expected| <= |actual| then |expected| else |actual|;
    seq(n, j requires 0 <= j < n => expected[j] - actual[j])
  }

  /** The error vector `current_errors` holds when the loop over the cached
      network `c` reaches layer `i`: `e0` at the output layer, and below it the
      errors computed from the layer above AFTER that layer was updated. */
  function ErrorsAt(c: seq<Layer>, inputs: seq<real>, e0: seq<real>, rate: real, i: nat): (r: seq<real>)
    requires Fits(c, inputs) && Covers(c, e0) && i < |c|
    ensures |r| >= |c[i]|
    decreases |c| - i
  {
    if i == |c| - 1 then e0
    else
      var above := ErrorsAt(c, inputs, e0, rate, i + 1);
      PrevErrors(UpdateLayer(c[i + 1], above, LayerInput(c, inputs, i + 1), rate), above, |c[i]|)
  }

  /** Layer `i` of the cached network `c` once the loop has updated it. */
  function UpdatedAt(c: seq<Layer>, inputs: seq<real>, e0: seq<real>, rate: real, i: nat): (r: Layer)
    requires Fits(c, inputs) && Covers(c, e0) && i < |c|
    ensures |r| == |c[i]|
    ensures forall j :: 0 <= j < |r| ==> |r[j].weights| == |c[i][j].weights| && r[j].output == c[i][j].output
  {
    UpdateLayer(c[i], ErrorsAt(c, inputs, e0, rate, i), LayerInput(c, inputs, i), rate)
  }

  /** The network `backpropagate(ann, inputs, expected, rate)` leaves: the
      forward pass caches every output, then each layer from the last down is
      updated with the error vector that reaches it. */
  function Backprop(sigma: Logistic, ls: seq<Layer>, inputs: seq<real>, expected: seq<real>, rate: real): (r: seq<Layer>)
    requires Fits(ls, inputs) && Covers(ls, expected)
    ensures SameShape(r, ls)
  {
    ForwardCacheKeepsParams(sigma, ls, inputs);
    var c := ForwardCache(sigma, ls, inputs);
    var e0 := OutputErrors(expected, Forward(sigma, ls, inputs));
    FitsSameShape(ls, c, inputs, e0);
    seq(|c|, i requires 0 <= i < |c| => UpdatedAt(c, inputs, e0, rate, i))
  }

  /** The network part-way down the loop of `backpropagate`: the layers below
      `i` as the forward pass left them, the layers from `i` up updated. */
  function PartlyUpdated(c: seq<Layer>, inputs: seq<real>, e0: seq<real>, rate: real, i: nat): (r: seq<Layer>)
    requires Fits(c, inputs) && Covers(c, e0) && i <= |c|
    ensures |r| == |c|
  {
    seq(|c|, p requires 0 <= p < |c| => if p < i then c[p] else UpdatedAt(c, inputs, e0, rate, p))
  }

  /** One step down: layer `i - 1` is updated, nothing else changes. */
  lemma PartlyUpdatedStep(c: seq<Layer>, inputs: seq<real>, e0: seq<real>, rate: real, i: nat)
    requires Fits(c, inputs) && Covers(c, e0) && 0 < i <= |c|
    ensures PartlyUpdated(c, inputs, e0, rate, i)[i - 1] == c[i - 1]
    ensures i >= 2 ==> PartlyUpdated(c, inputs, e0, rate, i)[i - 2] == c[i - 2]
    ensures PartlyUpdated(c, inputs, e0, rate, i - 1)
            == PartlyUpdated(c, inputs, e0, rate, i)[i - 1 := UpdatedAt(c, inputs, e0, rate, i - 1)]
    ensures Narrow(c[i - 1], |LayerInput(c, inputs, i - 1)|)
  {
  }

  /** Before the loop nothing is updated; after it, the result is `Backprop`. */
  lemma PartlyUpdatedEnds(sigma: Logistic, ls: seq<Layer>, inputs: seq<real>, expected: seq<real>, rate: real)
    requires Fits(ls, inputs) && Covers(ls, expected)
    ensures
      var c := ForwardCache(sigma, ls, inputs);
      var e0 := OutputErrors(expected, Forward(sigma, ls, inputs));
      && Fits(c, inputs) && Covers(c, e0)
      && PartlyUpdated(c, inputs, e0, rate, |c|) == c
      && PartlyUpdated(c, inputs, e0, rate, 0) == Backprop(sigma, ls, inputs, expected, rate)
  {
    ForwardCacheKeepsParams(sigma, ls, inputs);
    var c := ForwardCache(sigma, ls, inputs);
    var e0 := OutputErrors(expected, Forward(sigma, ls, inputs));
    FitsSameShape(ls, c, inputs, e0);
    assert PartlyUpdated(c, inputs, e0, rate, |c|) == c;
  }

  /** The error vector that reaches node layer `i` during `backpropagate`. */
  function Errors(sigma: Logistic, ls: seq<Layer>, inputs: seq<real>, expected: seq<real>, rate: real, i: nat): (r: seq<real>)
    requires Fits(ls, inputs) && Covers(ls, expected) && i < |ls|
    ensures |r| >= |ls[i]|
  {
    ForwardCacheKeepsParams(sigma, ls, inputs);
    var c := ForwardCache(sigma, ls, inputs);
    var e0 := OutputErrors(expected, Forward(sigma, ls, inputs));
    FitsSameShape(ls, c, inputs, e0);
    ErrorsAt(c, inputs, e0, rate, i)
  }

  // ---------------------------------------------------------------------
  // Properties of backpropagate

  /** The inputs of layer `i` during backpropagation are what the first `i`
      layers compute in the forward pass. */
  lemma LayerInputIsForward(sigma: Logistic, ls: seq<Layer>, inputs: seq<real>, i: nat)
    requires i < |ls|
    ensures LayerInput(ForwardCache(sigma, ls, inputs), inputs, i) == Forward(sigma, ls[..i], inputs)
  {
    if i > 0 {
      ForwardCacheOutputs(sigma, ls, inputs, i - 1);
    }
  }

  /** Layer `i` of the result, and the errors reaching it, in terms of the
      network as the forward pass left it. */
  lemma BackpropAt(sigma: Logistic, ls: seq<Layer>, inputs: seq<real>, expected: seq<real>, rate: real, i: nat)
    requires Fits(ls, inputs) && Covers(ls, expected) && i < |ls|
    ensures
      var c := ForwardCache(sigma, ls, inputs);
      var e0 := OutputErrors(expected, Forward(sigma, ls, inputs));
      && Fits(c, inputs) && Covers(c, e0)
      && Backprop(sigma, ls, inputs, expected, rate)[i] == UpdatedAt(c, inputs, e0, rate, i)
      && Errors(sigma, ls, inputs, expected, rate, i) == ErrorsAt(c, inputs, e0, rate, i)
  {
    ForwardCacheKeepsParams(sigma, ls, inputs);
    FitsSameShape(ls, ForwardCache(sigma, ls, inputs), inputs, OutputErrors(expected, Forward(sigma, ls, inputs)));
  }

  /** The update rule of one node: weight `k` gains
      `rate * out * (1 - out) * err * input_k` and the bias gains
      `rate * out * (1 - out) * err`, where `out` is the node's stored output. */
  lemma UpdateRule(n: Node, err: real, lin: seq<real>, rate: real)
    requires |n.weights| <= |lin|
    ensures
      var m := UpdateNode(n, err, lin, rate);
      && m.output == n.output
      && |m.weights| == |n.weights|
      && (forall k :: 0 <= k < |n.weights| ==> m.weights[k] == n.weights[k] + rate * Delta(Stored(n), err) * lin[k])
      && m.bias == n.bias + rate * Delta(Stored(n), err)
  {
  }

  /** The inputs of layer `i` are wide enough for its nodes' weights. */
  lemma InputWidth(sigma: Logistic, ls: seq<Layer>, inputs: seq<real>, i: nat, j: nat)
    requires Fits(ls, inputs) && i < |ls| && j < |ls[i]|
    ensures |ls[i][j].weights| <= |Forward(sigma, ls[..i], inputs)|
  {
    if i > 0 {
      assert ls[..i][i - 1] == ls[i - 1];
    }
  }

  /** Node `j` of layer `i` after `backpropagate` is the original node, with
      the output the forward pass gave it, updated by the rule above with the
      error that reaches it and the outputs of the layer below as inputs. */
  lemma BackpropNode(sigma: Logistic, ls: seq<Layer>, inputs: seq<real>, expected: seq<real>, rate: real, i: nat, j: nat)
    requires Fits(ls, inputs) && Covers(ls, expected)
    requires i < |ls| && j < |ls[i]|
    ensures |Forward(sigma, ls[..i + 1], inputs)| == |ls[i]|
    ensures |ls[i][j].weights| <= |Forward(sigma, ls[..i], inputs)|
    ensures |Backprop(sigma, ls, inputs, expected, rate)[i]| == |ls[i]|
    ensures Backprop(sigma, ls, inputs, expected, rate)[i][j]
            == UpdateNode(ls[i][j].(output := Some(Forward(sigma, ls[..i + 1], inputs)[j])),
                          Errors(sigma, ls, inputs, expected, rate, i)[j],
                          Forward(sigma, ls[..i], inputs), rate)
  {
    InputWidth(sigma, ls, inputs, i, j);
    var c := ForwardCache(sigma, ls, inputs);
    var e0 := OutputErrors(expected, Forward(sigma, ls, inputs));
    var x := Forward(sigma, ls[..i], inputs);
    assert Fits(c, inputs) && Covers(c, e0) by {
      BackpropAt(sigma, ls, inputs, expected, rate, i);
    }
    var err := ErrorsAt(c, inputs, e0, rate, i);
    assert Backprop(sigma, ls, inputs, expected, rate)[i][j] == UpdatedAt(c, inputs, e0, rate, i)[j]
        && Errors(sigma, ls, inputs, expected, rate, i) == err by {
      BackpropAt(sigma, ls, inputs, expected, rate, i);
    }
    assert LayerInput(c, inputs, i) == x by {
      LayerInputIsForward(sigma, ls, inputs, i);
    }
    assert c[i][j] == ls[i][j].(output := Some(Forward(sigma, ls[..i + 1], inputs)[j])) by {
      CachedNode(sigma, ls, inputs, i, j);
    }
    UpdatedAtNode(c, inputs, e0, rate, i, j);
  }

  lemma UpdateLayerAt(layer: Layer, errs: seq<real>, lin: seq<real>, rate: real, j: nat)
    requires |errs| >= |layer| && j < |layer|
    requires Narrow(layer, |lin|)
    ensures UpdateLayer(layer, errs, lin, rate)[j] == UpdateNode(layer[j], errs[j], lin, rate)
  {
  }

  lemma UpdatedAtNode(c: seq<Layer>, inputs: seq<real>, e0: seq<real>, rate: real, i: nat, j: nat)
    requires Fits(c, inputs) && Covers(c, e0) && i < |c| && j < |c[i]|
    ensures |c[i][j].weights| <= |LayerInput(c, inputs, i)|
    ensures UpdatedAt(c, inputs, e0, rate, i)[j]
            == UpdateNode(c[i][j], ErrorsAt(c, inputs, e0, rate, i)[j], LayerInput(c, inputs, i), rate)
  {
    UpdateLayerAt(c[i], ErrorsAt(c, inputs, e0, rate, i), LayerInput(c, inputs, i), rate, j);
  }

  /** What node `j` of layer `i` holds after the forward pass. */
  lemma CachedNode(sigma: Logistic, ls: seq<Layer>, inputs: seq<real>, i: nat, j: nat)
    requires i < |ls| && j < |ls[i]|
    ensures j < |Forward(sigma, ls[..i + 1], inputs)| && j < |ForwardCache(sigma, ls, inputs)[i]|
    ensures ForwardCache(sigma, ls, inputs)[i][j] == ls[i][j].(output := Some(Forward(sigma, ls[..i + 1], inputs)[j]))
  {
    ForwardCacheKeepsParams(sigma, ls, inputs);
    ForwardCacheOutputs(sigma, ls, inputs, i);
    var c := ForwardCache(sigma, ls, inputs);
    assert Stored(c[i][j]) == Outputs(c[i])[j];
  }

  /** The errors at the output layer are `expected - actual`, and the errors
      handed to layer `i` are computed from layer `i + 1` AS UPDATED: the
      weights of the upper layer change before the error below is summed. */
  lemma BackpropErrorOrder(sigma: Logistic, ls: seq<Layer>, inputs: seq<real>, expected: seq<real>, rate: real, i: nat)
    requires Fits(ls, inputs) && Covers(ls, expected)
    requires i + 1 < |ls|
    ensures Errors(sigma, ls, inputs, expected, rate, |ls| - 1) == OutputErrors(expected, Forward(sigma, ls, inputs))
    ensures
      var r := Backprop(sigma, ls, inputs, expected, rate);
      && Wide(r[i + 1], |ls[i]|)
      && Errors(sigma, ls, inputs, expected, rate, i)
         == PrevErrors(r[i + 1], Errors(sigma, ls, inputs, expected, rate, i + 1), |ls[i]|)
  {
    BackpropAt(sigma, ls, inputs, expected, rate, i);
    BackpropAt(sigma, ls, inputs, expected, rate, i + 1);
    BackpropAt(sigma, ls, inputs, expected, rate, |ls| - 1);
    var c := ForwardCache(sigma, ls, inputs);
    var e0 := OutputErrors(expected, Forward(sigma, ls, inputs));
    ForwardCacheKeepsParams(sigma, ls, inputs);
    ErrorsAtStep(c, inputs, e0, rate, i + 1);
  }

  /** One step of the loop down the layers: the errors for layer `k - 1`
      come from layer `k` as updated. */
  lemma ErrorsAtStep(c: seq<Layer>, inputs: seq<real>, e0: seq<real>, rate: real, k: nat)
    requires Fits(c, inputs) && Covers(c, e0) && 0 < k < |c|
    ensures |UpdatedAt(c, inputs, e0, rate, k)| <= |ErrorsAt(c, inputs, e0, rate, k)|
    ensures Wide(UpdatedAt(c, inputs, e0, rate, k), |c[k - 1]|)
    ensures ErrorsAt(c, inputs, e0, rate, k - 1)
            == PrevErrors(UpdatedAt(c, inputs, e0, rate, k), ErrorsAt(c, inputs, e0, rate, k), |c[k - 1]|)
  {
  }

  predicate AllZero(s: seq<real>)
  {
    forall k :: 0 <= k < |s| ==> s[k] == 0.0
  }

  lemma {:induction false} ErrorSumZero(layer: Layer, errs: seq<real>, p: nat, n: nat)
    requires n <= |layer| <= |errs| && AllZero(errs)
    requires forall k :: 0 <= k < n ==> p < |layer[k].weights|
    ensures ErrorSum(layer, errs, p, n) == 0.0
  {
    if n > 0 {
      ErrorSumZero(layer, errs, p, n - 1);
    }
  }

  lemma UpdateLayerZero(layer: Layer, errs: seq<real>, lin: seq<real>, rate: real)
    requires |errs| >= |layer| && AllZero(errs)
    requires Narrow(layer, |lin|)
    ensures UpdateLayer(layer, errs, lin, rate) == layer
  {
    var r := UpdateLayer(layer, errs, lin, rate);
    forall j | 0 <= j < |layer|
      ensures r[j] == layer[j]
    {
      assert Gradient(layer[j], errs[j]) == 0.0;
      assert r[j].weights == layer[j].weights;
    }
  }

  lemma {:induction false} ErrorsAtZero(c: seq<Layer>, inputs: seq<real>, e0: seq<real>, rate: real, i: nat)
    requires Fits(c, inputs) && Covers(c, e0) && i < |c| && AllZero(e0)
    ensures AllZero(ErrorsAt(c, inputs, e0, rate, i))
    ensures UpdatedAt(c, inputs, e0, rate, i) == c[i]
    decreases |c| - i
  {
    if i < |c| - 1 {
      ErrorsAtZero(c, inputs, e0, rate, i + 1);
      var above := ErrorsAt(c, inputs, e0, rate, i + 1);
      UpdateLayerZero(c[i + 1], above, LayerInput(c, inputs, i + 1), rate);
      forall p | 0 <= p < |c[i]|
        ensures ErrorsAt(c, inputs, e0, rate, i)[p] == 0.0
      {
        ErrorSumZero(c[i + 1], above, p, |c[i + 1]|);
      }
    }
    UpdateLayerZero(c[i], ErrorsAt(c, inputs, e0, rate, i), LayerInput(c, inputs, i), rate);
  }

  /** When the expected outputs are what the network already produces, every
      propagated error is zero and no weight or bias changes: the only effect
      of `backpropagate` is the forward pass's cache. */
  lemma BackpropZeroError(sigma: Logistic, ls: seq<Layer>, inputs: seq<real>, expected: seq<real>, rate: real)
    requires Fits(ls, inputs) && Covers(ls, expected)
    requires Forward(sigma, ls, inputs) <= expected
    ensures Backprop(sigma, ls, inputs, expected, rate) == ForwardCache(sigma, ls, inputs)
    ensures SameParams(Backprop(sigma, ls, inputs, expected, rate), ls)
  {
    var c := ForwardCache(sigma, ls, inputs);
    var out := Forward(sigma, ls, inputs);
    var e0 := OutputErrors(expected, out);
    assert AllZero(e0) by {
      forall k | 0 <= k < |e0| ensures e0[k] == 0.0 {
        assert expected[k] == out[k];
      }
    }
    var r := Backprop(sigma, ls, inputs, expected, rate);
    forall i | 0 <= i < |c|
      ensures r[i] == c[i]
    {
      BackpropAt(sigma, ls, inputs, expected, rate, i);
      ErrorsAtZero(c, inputs, e0, rate, i);
    }
    assert r == c;
    ForwardCacheKeepsParams(sigma, ls, inputs);
  }

  /** `backpropagate` never looks at the cache it is given: the forward pass
      overwrites every output before any is read. */
  lemma BackpropIgnoresCache(sigma: Logistic, a: seq<Layer>, b: seq<Layer>, inputs: seq<real>, expected: seq<real>, rate: real)
    requires SameParams(a, b) && Fits(a, inputs) && Covers(a, expected)
    ensures Fits(b, inputs) && Covers(b, expected)
    ensures Backprop(sigma, a, inputs, expected, rate) == Backprop(sigma, b, inputs, expected, rate)
  {
    ForwardIgnoresCache(sigma, a, b, inputs);
    ForwardCacheIgnoresCache(sigma, a, b, inputs);
  }

  // ---------------------------------------------------------------------
  // The training loop

  /** One `(inputs, expected_outputs)` pair of the training data. */
  datatype Sample = Sample(inputs: seq<real>, expected: seq<real>)

  /** Every sample can be backpropagated through the network. */
  predicate Trainable(ls: seq<Layer>, data: seq<Sample>)
  {
    forall s :: s in data ==> Fits(ls, s.inputs) && Covers(ls, s.expected)
  }

  /** The network after `backpropagate` has run once per sample, in order. */
  function RunAll(sigma: Logistic, ls: seq<Layer>, data: seq<Sample>, rate: real): (r: seq<Layer>)
    requires Trainable(ls, data)
    ensures SameShape(r, ls)
    decreases |data|
  {
    if data == [] then ls
    else
      var n := |data| - 1;
      var before := RunAll(sigma, ls, data[..n], rate);
      FitsSameShape(ls, before, data[n].inputs, data[n].expected);
      Backprop(sigma, before, data[n].inputs, data[n].expected, rate)
  }

  /** The network `train(ann, data, epochs, rate)` returns: each epoch runs
      the samples in order and ends with `clean_ann`. */
  function Trained(sigma: Logistic, ls: seq<Layer>, data: seq<Sample>, epochs: nat, rate: real): (r: seq<Layer>)
    requires Trainable(ls, data)
    ensures SameShape(r, ls)
    ensures epochs == 0 ==> r == ls
    ensures epochs > 0 ==> NoCache(r)
  {
    if epochs == 0 then ls
    else
      var before := Trained(sigma, ls, data, epochs - 1, rate);
      assert Trainable(before, data) by {
        forall s | s in data ensures Fits(before, s.inputs) && Covers(before, s.expected) {
          FitsSameShape(ls, before, s.inputs, s.expected);
        }
      }
      CleanedKeepsParams(RunAll(sigma, before, data, rate));
      Cleaned(RunAll(sigma, before, data, rate))
  }

  /** The samples in the order `train` hands them to `backpropagate`. */
  function Schedule(data: seq<Sample>, epochs: nat): (r: seq<Sample>)
    ensures forall s :: s in r ==> s in data
  {
    if epochs == 0 then [] else Schedule(data, epochs - 1) + data
  }

  /** Block `l` of width `w` of a sequence. */
  function Block(s: seq<Sample>, l: nat, w: nat): seq<Sample>
    requires (l + 1) * w <= |s|
  {
    s[l * w .. (l + 1) * w]
  }

  lemma MulMono(a: nat, b: nat, w: nat)
    requires a <= b
    ensures a * w <= b * w
  {
  }

  /** The schedule is `epochs` copies of the data, one after the other. */
  lemma {:induction false} ScheduleLayout(data: seq<Sample>, epochs: nat)
    ensures |Schedule(data, epochs)| == epochs * |data|
    ensures forall l: nat :: l < epochs ==>
              (l + 1) * |data| <= |Schedule(data, epochs)| && Block(Schedule(data, epochs), l, |data|) == data
  {
    if epochs > 0 {
      ScheduleLayout(data, epochs - 1);
      var w := |data|;
      var p := Schedule(data, epochs - 1);
      assert epochs * w == (epochs - 1) * w + w;
      forall l: nat | l < epochs
        ensures (l + 1) * w <= |Schedule(data, epochs)| && Block(Schedule(data, epochs), l, w) == data
      {
        MulMono(l + 1, epochs, w);
        if l < epochs - 1 {
          MulMono(l + 1, epochs - 1, w);
          assert Block(Schedule(data, epochs), l, w) == Block(p, l, w);
        } else {
          assert l * w == |p|;
        }
      }
    }
  }

  lemma TrainableSub(ls: seq<Layer>, a: seq<Sample>, b: seq<Sample>)
    requires Trainable(ls, b) && forall s :: s in a ==> s in b
    ensures Trainable(ls, a)
  {
  }

  lemma TrainableSameShape(a: seq<Layer>, b: seq<Layer>, data: seq<Sample>)
    requires SameShape(a, b) && Trainable(a, data)
    ensures Trainable(b, data)
  {
    forall s | s in data ensures Fits(b, s.inputs) && Covers(b, s.expected) {
      FitsSameShape(a, b, s.inputs, s.expected);
    }
  }

  lemma {:induction false} RunAllConcat(sigma: Logistic, ls: seq<Layer>, a: seq<Sample>, b: seq<Sample>, rate: real)
    requires Trainable(ls, a) && Trainable(ls, b)
    ensures Trainable(ls, a + b) && Trainable(RunAll(sigma, ls, a, rate), b)
    ensures RunAll(sigma, ls, a + b, rate) == RunAll(sigma, RunAll(sigma, ls, a, rate), b, rate)
    decreases |b|
  {
    TrainableSameShape(ls, RunAll(sigma, ls, a, rate), b);
    if b != [] {
      var n := |b| - 1;
      assert (a + b)[..|a + b| - 1] == a + b[..n];
      assert (a + b)[|a + b| - 1] == b[n];
      TrainableSub(ls, b[..n], b);
      RunAllConcat(sigma, ls, a, b[..n], rate);
    } else {
      assert a + b == a;
    }
  }

  lemma {:induction false} RunAllIgnoresCache(sigma: Logistic, a: seq<Layer>, b: seq<Layer>, data: seq<Sample>, rate: real)
    requires SameParams(a, b) && Trainable(a, data) && data != []
    ensures Trainable(b, data)
    ensures RunAll(sigma, a, data, rate) == RunAll(sigma, b, data, rate)
    decreases |data|
  {
    forall s | s in data ensures Fits(b, s.inputs) && Covers(b, s.expected) {
      FitsSameShape(a, b, s.inputs, s.expected);
    }
    var n := |data| - 1;
    if n > 0 {
      RunAllIgnoresCache(sigma, a, b, data[..n], rate);
    } else {
      BackpropIgnoresCache(sigma, a, b, data[n].inputs, data[n].expected, rate);
    }
  }

  /** Running one more sample is one more `backpropagate`. */
  lemma RunAllStep(sigma: Logistic, ls: seq<Layer>, data: seq<Sample>, d: nat, rate: real)
    requires Trainable(ls, data) && d < |data|
    ensures Trainable(ls, data[..d]) && Trainable(ls, data[..d + 1])
    ensures Fits(RunAll(sigma, ls, data[..d], rate), data[d].inputs)
    ensures Covers(RunAll(sigma, ls, data[..d], rate), data[d].expected)
    ensures RunAll(sigma, ls, data[..d + 1], rate)
            == Backprop(sigma, RunAll(sigma, ls, data[..d], rate), data[d].inputs, data[d].expected, rate)
  {
    assert data[..d + 1][..d] == data[..d];
    FitsSameShape(ls, RunAll(sigma, ls, data[..d], rate), data[d].inputs, data[d].expected);
  }

  /** Training for `epochs >= 1` epochs is one run of `backpropagate` over
      the data repeated `epochs` times, in order, followed by one clean: the
      cleans between epochs have no effect on the weights. */
  lemma {:induction false} TrainedIsSchedule(sigma: Logistic, ls: seq<Layer>, data: seq<Sample>, epochs: nat, rate: real)
    requires Trainable(ls, data) && epochs > 0
    ensures Trainable(ls, Schedule(data, epochs))
    ensures Trained(sigma, ls, data, epochs, rate) == Cleaned(RunAll(sigma, ls, Schedule(data, epochs), rate))
  {
    var s := Schedule(data, epochs);
    TrainableSub(ls, s, data);
    if epochs == 1 {
      assert Schedule(data, 0) == [];
      assert s == [] + data == data;
    } else {
      TrainedIsSchedule(sigma, ls, data, epochs - 1, rate);
      var p := Schedule(data, epochs - 1);
      var x := RunAll(sigma, ls, p, rate);
      var before := Trained(sigma, ls, data, epochs - 1, rate);
      assert before == Cleaned(x);
      RunAllConcat(sigma, ls, p, data, rate);
      CleanedKeepsParams(x);
      if data == [] {
        assert s == p;
        CleanIdempotent(x);
      } else {
        forall q | q in data ensures Fits(x, q.inputs) && Covers(x, q.expected) {
          FitsSameShape(ls, x, q.inputs, q.expected);
        }
        RunAllIgnoresCache(sigma, x, Cleaned(x), data, rate);
      }
    }
  }
}
