/** The network model of `sann.py`: nodes, layers, activation functions,
    the forward pass and the cleaning of cached outputs, as values.
    The class in module SannAnn updates a network in place; its methods are
    proved against the functions here. */
module SannNetwork {
  import opened Common

  /** `sigmoid(a, t)` with the default shape `r = 0.5`. The exponential is not
      modelled: any function whose values lie strictly between 0 and 1 will do. */
  type Logistic = f: (real, real) -> real | forall a: real, t: real :: 0.0 < f(a, t) < 1.0
    witness (a: real, t: real) => 0.5

  /** The draws of `random.uniform(-1, 1)` made while building a network:
      `u(i, j, k)` is weight `k` of node `j` of node layer `i`, and
      `u(i, j, n)` with `n` the fan-in of the layer is that node's bias. */
  type Uniform = f: (nat, nat, nat) -> real | forall i: nat, j: nat, k: nat :: -1.0 <= f(i, j, k) <= 1.0
    witness (i: nat, j: nat, k: nat) => 0.0

  /** A node dictionary: its incoming weights, its bias, and the `output` key
      that a forward pass adds (None when the key is absent). */
  datatype Node = Node(weights: seq<real>, bias: real, output: Option<real>)

  type Layer = seq<Node>

  /** Python's `zip`, which stops at the shorter list. */
  function Zip(xs: seq<real>, ws: seq<real>): (r: seq<(real, real)>)
    ensures |r| == if |xs| <= |ws| then |xs| else |ws|
    ensures forall k :: 0 <= k < |r| ==> r[k] == (xs[k], ws[k])
  {
    if xs == [] || ws == [] then [] else [(xs[0], ws[0])] + Zip(xs[1..], ws[1..])
  }

  /** `sum_inputs`: the sum of `x * w` over the pairs. */
  function SumInputs(pairs: seq<(real, real)>): real
  {
    if pairs == [] then 0.0 else pairs[0].0 * pairs[0].1 + SumInputs(pairs[1..])
  }

  /** Python's `sum` over `[x * w for x, w in pairs]`: it adds the products
      from the left, starting at 0. */
  function LeftSum(pairs: seq<(real, real)>): real
    decreases |pairs|
  {
    if pairs == [] then 0.0
    else LeftSum(pairs[..|pairs| - 1]) + pairs[|pairs| - 1].0 * pairs[|pairs| - 1].1
  }

  /** Appending a pair adds its product at the end. */
  lemma {:induction false} SumInputsSnoc(pairs: seq<(real, real)>, x: (real, real))
    ensures SumInputs(pairs + [x]) == SumInputs(pairs) + x.0 * x.1
  {
    if pairs != [] {
      assert (pairs + [x])[1..] == pairs[1..] + [x];
      SumInputsSnoc(pairs[1..], x);
    }
  }

  /** `SumInputs` is the dot product `sum_inputs` computes with `sum`. */
  lemma {:induction false} SumInputsIsLeftSum(pairs: seq<(real, real)>)
    ensures SumInputs(pairs) == LeftSum(pairs)
    decreases |pairs|
  {
    if pairs != [] {
      var front := pairs[..|pairs| - 1];
      SumInputsIsLeftSum(front);
      assert pairs == front + [pairs[|pairs| - 1]];
      SumInputsSnoc(front, pairs[|pairs| - 1]);
    }
  }

  /** `tlu` of `sann.py`: fires when the activation reaches the threshold. */
  function Tlu(a: real, t: real): (r: int)
    ensures r == 0 || r == 1
    ensures r == 1 <==> a >= t
  {
    if a >= t then 1 else 0
  }

  /** The value a node produces from the previous layer's outputs. */
  function Activate(sigma: Logistic, n: Node, xs: seq<real>): (out: real)
    ensures 0.0 < out < 1.0
  {
    sigma(SumInputs(Zip(xs, n.weights)), n.bias)
  }

  /** The outputs of one layer for the given inputs. */
  function LayerOutputs(sigma: Logistic, layer: Layer, xs: seq<real>): (r: seq<real>)
    ensures |r| == |layer|
    ensures forall j :: 0 <= j < |r| ==> 0.0 < r[j] < 1.0
  {
    seq(|layer|, j requires 0 <= j < |layer| => Activate(sigma, layer[j], xs))
  }

  /** One layer after the forward pass has stored each node's output. */
  function CacheLayer(sigma: Logistic, layer: Layer, xs: seq<real>): (r: Layer)
    ensures |r| == |layer|
    ensures forall j :: 0 <= j < |r| ==>
              r[j].weights == layer[j].weights && r[j].bias == layer[j].bias && r[j].output.Some?
  {
    seq(|layer|, j requires 0 <= j < |layer| => layer[j].(output := Some(Activate(sigma, layer[j], xs))))
  }

  /** The list `forward_pass` returns: the outputs of the last layer, or the
      inputs themselves for a network without layers. */
  function Forward(sigma: Logistic, ls: seq<Layer>, xs: seq<real>): (r: seq<real>)
    ensures ls == [] ==> r == xs
    ensures ls != [] ==> |r| == |ls[|ls| - 1]|
    ensures ls != [] ==> forall k :: 0 <= k < |r| ==> 0.0 < r[k] < 1.0
  {
    if ls == [] then xs
    else LayerOutputs(sigma, ls[|ls| - 1], Forward(sigma, ls[..|ls| - 1], xs))
  }

  /** The network after `forward_pass`: every node's `output` overwritten
      with what the node computes from the outputs of the layers below it. */
  function ForwardCache(sigma: Logistic, ls: seq<Layer>, xs: seq<real>): (r: seq<Layer>)
    ensures |r| == |ls|
  {
    seq(|ls|, i requires 0 <= i < |ls| => CacheLayer(sigma, ls[i], Forward(sigma, ls[..i], xs)))
  }

  /** The value a node has stored under `output` (0 when it has none). */
  function Stored(n: Node): real
  {
    match n.output
    case Some(v) => v
    case None => 0.0
  }

  /** `[node["output"] for node in layer]`. */
  function Outputs(layer: Layer): (r: seq<real>)
    ensures |r| == |layer|
  {
    seq(|layer|, j requires 0 <= j < |layer| => Stored(layer[j]))
  }

  /** The network after `clean_ann`: no node keeps an `output` key. */
  function Cleaned(ls: seq<Layer>): (r: seq<Layer>)
  {
    seq(|ls|, i requires 0 <= i < |ls| =>
      seq(|ls[i]|, j requires 0 <= j < |ls[i]| => ls[i][j].(output := None)))
  }

  /** Same number of layers, of nodes per layer and of weights per node. */
  predicate SameShape(a: seq<Layer>, b: seq<Layer>)
  {
    && |a| == |b|
    && (forall i :: 0 <= i < |a| ==> |a[i]| == |b[i]|)
    && (forall i, j :: 0 <= i < |a| && 0 <= j < |a[i]| ==> |a[i][j].weights| == |b[i][j].weights|)
  }

  /** Same shape, same weights and same biases; the cached outputs may differ. */
  predicate SameParams(a: seq<Layer>, b: seq<Layer>)
  {
    && SameShape(a, b)
    && (forall i, j :: 0 <= i < |a| && 0 <= j < |a[i]| ==>
          a[i][j].weights == b[i][j].weights && a[i][j].bias == b[i][j].bias)
  }

  /** Every node holds an `output` key. */
  predicate AllCached(ls: seq<Layer>)
  {
    forall i, j :: 0 <= i < |ls| && 0 <= j < |ls[i]| ==> ls[i][j].output.Some?
  }

  /** No node holds an `output` key. */
  predicate NoCache(ls: seq<Layer>)
  {
    forall i, j :: 0 <= i < |ls| && 0 <= j < |ls[i]| ==> ls[i][j].output.None?
  }

  /** The shape `create_ann(sizes)` builds: one layer per size after the
      first, layer `i` holding `sizes[i + 1]` nodes of `sizes[i]` weights. */
  predicate Shaped(ls: seq<Layer>, sizes: seq<nat>)
  {
    && |ls| + 1 == |sizes|
    && (forall i :: 0 <= i < |ls| ==> |ls[i]| == sizes[i + 1])
    && (forall i, j :: 0 <= i < |ls| && 0 <= j < |ls[i]| ==> |ls[i][j].weights| == sizes[i])
  }

  /** Node `j` of node layer `i`, with fan-in `fanIn`, as `create_ann` draws it. */
  function CreatedNode(i: nat, j: nat, fanIn: nat, u: Uniform): (n: Node)
    ensures |n.weights| == fanIn && n.output.None?
    ensures forall k :: 0 <= k < fanIn ==> -1.0 <= n.weights[k] <= 1.0
    ensures -1.0 <= n.bias <= 1.0
  {
    Node(seq(fanIn, k requires 0 <= k < fanIn => u(i, j, k)), u(i, j, fanIn), None)
  }

  /** Node layer `i`: `width` nodes of `fanIn` weights each. */
  function CreatedLayer(i: nat, fanIn: nat, width: nat, u: Uniform): (l: Layer)
    ensures |l| == width
    ensures forall j :: 0 <= j < width ==> l[j] == CreatedNode(i, j, fanIn, u)
    // Every node has `fanIn` weights, no stored output, and parameters in [-1, 1].
    ensures forall j :: 0 <= j < width ==>
              |l[j].weights| == fanIn && l[j].output.None? && -1.0 <= l[j].bias <= 1.0
    ensures forall j, k :: 0 <= j < width && 0 <= k < fanIn ==> -1.0 <= l[j].weights[k] <= 1.0
  {
    seq(width, j requires 0 <= j < width => CreatedNode(i, j, fanIn, u))
  }

  /** The network `create_ann(sizes)` returns for the draws `u`. */
  function Created(sizes: seq<nat>, u: Uniform): (r: seq<Layer>)
    requires |sizes| >= 2
    ensures Shaped(r, sizes) && NoCache(r)
    ensures forall i, j, k :: 0 <= i < |r| && 0 <= j < |r[i]| && 0 <= k < |r[i][j].weights| ==>
              -1.0 <= r[i][j].weights[k] <= 1.0
    ensures forall i, j :: 0 <= i < |r| && 0 <= j < |r[i]| ==> -1.0 <= r[i][j].bias <= 1.0
  {
    seq(|sizes| - 1, i requires 0 <= i < |sizes| - 1 => CreatedLayer(i, sizes[i], sizes[i + 1], u))
  }

  // ---------------------------------------------------------------------
  // Properties of the forward pass and of cleaning

  lemma ForwardCacheKeepsParams(sigma: Logistic, ls: seq<Layer>, xs: seq<real>)
    ensures SameParams(ForwardCache(sigma, ls, xs), ls)
    ensures AllCached(ForwardCache(sigma, ls, xs))
  {
  }

  /** What layer `i` stores after a forward pass is exactly what the first
      `i + 1` layers compute; for the last layer, the list the pass returns. */
  lemma ForwardCacheOutputs(sigma: Logistic, ls: seq<Layer>, xs: seq<real>, i: nat)
    requires i < |ls|
    ensures Outputs(ForwardCache(sigma, ls, xs)[i]) == Forward(sigma, ls[..i + 1], xs)
  {
    assert ls[..i + 1][..i] == ls[..i];
    var c := CacheLayer(sigma, ls[i], Forward(sigma, ls[..i], xs));
    assert Outputs(c) == LayerOutputs(sigma, ls[i], Forward(sigma, ls[..i], xs));
  }

  lemma ForwardReturnsLastOutputs(sigma: Logistic, ls: seq<Layer>, xs: seq<real>)
    requires ls != []
    ensures Outputs(ForwardCache(sigma, ls, xs)[|ls| - 1]) == Forward(sigma, ls, xs)
  {
    ForwardCacheOutputs(sigma, ls, xs, |ls| - 1);
    assert ls[..|ls|] == ls;
  }

  /** The forward pass reads only weights and biases, so a stale or missing
      cache has no effect on it. */
  lemma {:induction false} ForwardIgnoresCache(sigma: Logistic, a: seq<Layer>, b: seq<Layer>, xs: seq<real>)
    requires SameParams(a, b)
    ensures Forward(sigma, a, xs) == Forward(sigma, b, xs)
  {
    if a != [] {
      var n := |a| - 1;
      ForwardIgnoresCache(sigma, a[..n], b[..n], xs);
      var ys := Forward(sigma, a[..n], xs);
      assert LayerOutputs(sigma, a[n], ys) == LayerOutputs(sigma, b[n], ys);
    }
  }

  /** Nor does it affect what the forward pass stores. */
  lemma ForwardCacheIgnoresCache(sigma: Logistic, a: seq<Layer>, b: seq<Layer>, xs: seq<real>)
    requires SameParams(a, b)
    ensures ForwardCache(sigma, a, xs) == ForwardCache(sigma, b, xs)
  {
    forall i | 0 <= i < |a|
      ensures ForwardCache(sigma, a, xs)[i] == ForwardCache(sigma, b, xs)[i]
    {
      ForwardIgnoresCache(sigma, a[..i], b[..i], xs);
      var ys := Forward(sigma, a[..i], xs);
      assert CacheLayer(sigma, a[i], ys) == CacheLayer(sigma, b[i], ys);
    }
  }

  lemma CleanedKeepsParams(ls: seq<Layer>)
    ensures SameParams(Cleaned(ls), ls) && NoCache(Cleaned(ls))
  {
  }

  lemma CleanIdempotent(ls: seq<Layer>)
    ensures Cleaned(Cleaned(ls)) == Cleaned(ls)
  {
    assert forall i :: 0 <= i < |ls| ==> Cleaned(Cleaned(ls))[i] == Cleaned(ls)[i];
  }

  /** On a cleaned network, cleaning again changes nothing. */
  lemma CleanedFixesNoCache(ls: seq<Layer>)
    requires NoCache(ls)
    ensures Cleaned(ls) == ls
  {
    assert forall i :: 0 <= i < |ls| ==> Cleaned(ls)[i] == ls[i];
  }
}
