# prakNN layer core in Dafny

This project models two parts of the prakNN recurrent network trainer and
proves properties of them.

- **LayerCache** (`layer_cache.dfy`, module `LayerCaches`). This is the
  per-timestep record of one layer's input, output and loss. The records are
  linked into a chain by `predecessor`/`successor` pointers. The class keeps
  its seven fields and its three splice methods, `InsertBefore`, `InsertAfter`
  and `Remove`. Each method is framed field by field, so every data field and
  boundary flag is left untouched by construction. The postconditions give
  the exact new pointers, including the cases where a node is spliced next to
  itself. Two scenario methods build chains by repeated insertion:
  `BuildByInsertBefore` proves that the forward walk visits the nodes in
  insertion order; `BuildByInsertAfter` proves that the forward walk visits
  them in order and the backward walk in reverse order.
  Both also prove that no node's data changes.
- **NeuralLayer / BiasedNeuralLayer** (`neural_layer.dfy`, module
  `NeuralLayers`). A layer keeps its weight matrix as an `array2<real>` and
  its biases as an `array<real>`:
  - `Learn` updates the weights in place;
  - the biased layer's `Learn` also updates the biases in place;
  - `Feed` and `GetDelta` are functions that read the layer and change
    nothing.
- **The arithmetic behind the layers** (`layer_math.dfy`, module `LayerMath`)
  over exact reals:
  - the affine map and activation of `feed`;
  - the Wᵀ·δ pull-back of `get_delta`;
  - the outer-product update of `learn`.

  The lemmas beside these functions cover three things:
  - linearity and adjointness;
  - the exact effect of one learning step on the layer's output;
  - undoing and composing steps.
- **The activations** (`activations.dfy`, module `Activations`):
  - the linear activation and its derivative;
  - the clip step of the sigmoid;
  - the sigmoid and tanh derivatives, which are written in terms of the
    activation's output.

A matrix is a sequence of rows. A batch of inputs to `feed` is the sequence
of its columns. Reals are exact.

`insert_after` is not simply the mirror image of `insert_before`:
- it never updates the old successor's `predecessor` pointer, which stays
  whatever it was (the node the insertion was made on, in a doubly-linked
  chain);
- so after an insertion in the middle of a chain, the chain is no longer
  doubly linked (`InsertAfterInterior`);
- appending at the tail, where there is no old successor, does keep it doubly
  linked (`BuildByInsertAfter`).

The model follows the code here and does not correct it.

## Model

| member | source | states |
|---|---|---|
| LayerCaches.LayerCache.constructor | neural_network/LayerCache.py:7-19 | a fresh cache has no input, output or loss, no predecessor or successor, and both boundary flags false |
| LayerCaches.LayerCache.InsertBefore | neural_network/LayerCache.py:21-26 | requires an existing predecessor p. Afterwards this node's predecessor is the cache, p's successor is the cache, and the cache links back to p and forward to this node. The successor of this node changes only when p or the cache is this node itself. No data field or flag of any node changes |
| LayerCaches.LayerCache.InsertAfter | neural_network/LayerCache.py:28-32 | needs no precondition. Afterwards this node's successor is the cache, and the cache points back to this node and forward to the old successor s. s itself is untouched: its predecessor is whatever it was before (this node, in a doubly-linked chain), not the cache. No data field or flag changes |
| LayerCaches.LayerCache.Remove | neural_network/LayerCache.py:34-37 | requires both neighbours. Afterwards the old predecessor and the old successor point at each other, the removed node keeps both of its own pointers, and its data is unchanged |
| LayerCaches.InsertBeforeThenRemove | neural_network/LayerCache.py:21-37 | inserting c before a node and then removing c gives the old predecessor and the node back their links to each other; c keeps its stale pointers. The old predecessor's own predecessor, when it is neither the node nor c, is unchanged, and no data of the node, c or the old predecessor changes |
| LayerCaches.InsertBeforeLast | neural_network/LayerCache.py:21-26 | inserting a new node before the last node of a doubly-linked chain yields the chain with that node in front of the last node, still doubly linked. The chain's first node keeps its predecessor and the last node keeps its successor |
| LayerCaches.BuildByInsertBefore | neural_network/LayerCache.py:21-26 | repeated insertion before the tail of [head, tail] gives the doubly-linked chain [head] + cs + [tail], and following successors from the head visits the nodes in insertion order. The head keeps its predecessor and the tail keeps its successor. No node's data or flags change |
| LayerCaches.BuildByInsertAfter | neural_network/LayerCache.py:28-32 | repeated insertion after the last node, starting from a node with no successor, gives a doubly-linked chain. The last node has no successor and the first node keeps its predecessor. The forward walk from the first node visits the nodes in insertion order and stops at the last one, however many steps it is given. The backward walk from the last node visits them in reverse, and when the first node had no predecessor it stops there too. No node's data or flags change |
| LayerCaches.InsertAfterInterior | neural_network/LayerCache.py:28-32 | inserting c after a in a chain a, b gives the forward chain a, c, b, but b's predecessor is still a and a's successor is no longer b, so the chain is not doubly linked. The data of a, b and c is unchanged |
| LayerCaches.WalkForwardVisits | neural_network/LayerCache.py:15-17 | following successors from the head of a forward-linked sequence visits exactly its nodes in order; with more steps than nodes the walk still stops at the last node when that node has no successor |
| LayerCaches.WalkBackwardVisits | neural_network/LayerCache.py:15-17 | following predecessors from the last node of a backward-linked sequence visits its nodes in reverse order; with more steps the walk still stops at the first node when that node has no predecessor |
| Activations.Linear | neural_network/NeuralLayer.py:61-63 | the linear activation returns its input unchanged |
| Activations.LinearDeriv | neural_network/NeuralLayer.py:65-67 | the derivative of the linear activation is the constant 1 |
| Activations.Clip | neural_network/NeuralLayer.py:71 | every input lands in [-500, 500], inputs in that interval are unchanged, and inputs beyond a bound are sent to that bound |
| Activations.Sigmoid | neural_network/NeuralLayer.py:70-72 | for a positive exponential, the sigmoid of the clipped input lies strictly between 0 and 1 |
| Activations.SigmoidDeriv | neural_network/NeuralLayer.py:75-76 | for an output y in [0, 1], the derivative (1 - y) * y lies in [0, 1/4] |
| Activations.TanhDeriv | neural_network/NeuralLayer.py:83-84 | for an output y in [-1, 1], the derivative 1 - y^2 lies in [0, 1] |
| Activations.SigmoidDerivMatchesInputSpace | neural_network/NeuralLayer.py:70-76 | the output-space derivative at the sigmoid's output equals the input-space derivative e / (1 + e)^2 at the clipped input |
| Activations.TanhDerivMatchesInputSpace | neural_network/NeuralLayer.py:79-84 | with t = exp(-2x) and tanh x = (1 - t) / (1 + t), the output-space derivative equals the input-space derivative 4t / (1 + t)^2 |
| LayerMath.FeedColumn | neural_network/NeuralLayer.py:26-28 | output i of one input column is the activation of row i of W dotted with x, plus bias i |
| LayerMath.Feed | neural_network/NeuralLayer.py:26-28 | one output column per input column, each of the layer's size; entry (c, i) is the activation of row i · column c plus bias i, so the bias is added to every column |
| LayerMath.GetDelta | neural_network/NeuralLayer.py:35-39 | the result has one entry per entry of `result`; entry j is (Σ_i d[i] * W[i][j]) * deriv(result[j]) |
| LayerMath.OuterUpdate | neural_network/NeuralLayer.py:30-33 | the update keeps the shape of W and changes row i by lr * delta[i] times `result` |
| LayerMath.BiasUpdate | neural_network/NeuralLayer.py:89-91 | bias i moves by lr * delta[i] and the length is kept |
| LayerMath.FeedSigmoidInUnit | neural_network/NeuralLayer.py:26-28 | for a positive exponential, the sigmoid is a valid activation for a layer, and every output of feed with it lies strictly between 0 and 1 |
| LayerMath.FeedLinearIsAffine | neural_network/NeuralLayer.py:26-28 | with the linear activation, a column of feed is exactly W x + b |
| LayerMath.FeedLinearZeroBias | neural_network/NeuralLayer.py:26-28 | with the linear activation and zero biases, feed of a batch is the matrix product W X, column by column |
| LayerMath.FeedSuperposition | neural_network/NeuralLayer.py:26-28 | with the linear activation and zero biases, feed is additive in its input |
| LayerMath.FeedIdentityFixedPoint | neural_network/NeuralLayer.py:26-28 | a linear layer with identity weights and zero biases returns its input unchanged |
| LayerMath.GetDeltaLinearIsTranspose | neural_network/NeuralLayer.py:35-39 | with the linear derivative, get_delta is Wᵀ d |
| LayerMath.TransposeAdjoint | neural_network/NeuralLayer.py:35-39 | Wᵀ is the adjoint of W: <Wᵀ d, x> == <d, W x> |
| LayerMath.GetDeltaIsAdjointOfFeed | neural_network/NeuralLayer.py:35-39 | with the linear derivative, <get_delta(d), x> == <d, W x> for every x of the layer's input width: get_delta pulls d back through the linear part of feed |
| LayerMath.OuterUpdateByEntries | neural_network/NeuralLayer.py:30-33 | a matrix is the learn update of W if and only if its entry (i, j) is W[i][j] + lr * delta[i] * result[j] for every i, j |
| LayerMath.UpdatedRowDot | neural_network/NeuralLayer.py:30-33 | after the update, row i dotted with any x is the old row dotted with x plus lr * delta[i] * <result, x> |
| LayerMath.RowAfterLearn | neural_network/NeuralLayer.py:30-33 | when the update uses the layer's input x as `result`, output i on x moves by exactly lr * delta[i] * <x, x> |
| LayerMath.RowAfterBiasedLearn | neural_network/NeuralLayer.py:89-91 | with the bias update as well, output i on x moves by exactly lr * delta[i] * (<x, x> + 1) |
| LayerMath.OuterUpdateUndo | neural_network/NeuralLayer.py:30-33 | a weight update with rate -lr undoes one with rate lr |
| LayerMath.OuterUpdateCompose | neural_network/NeuralLayer.py:30-33 | two weight updates along the same delta and result with rates lr1 and lr2 equal one update with rate lr1 + lr2 |
| LayerMath.BiasUpdateUndo | neural_network/NeuralLayer.py:89-91 | a bias update with rate -lr undoes one with rate lr |
| LayerMath.DotSelfNonNegative | neural_network/NeuralLayer.py:30-33 | <x, x> is never negative, the quantity q that scales every learning step along x |
| LayerMath.ExactRate | neural_network/NeuralLayer.py:30-33 | for a non-zero input x, the rate 1 / <x, x> is positive and makes the step factor 0, so one step at that rate puts the output on x on target |
| LayerMath.ErrorAfterStep | neural_network/NeuralLayer.py:30-33 | scalar identity used by StepScalesRowError: if the output z moves to z + lr * (t - z) * q, the error t - z is multiplied by 1 - lr * q |
| LayerMath.StepFactorInside | neural_network/NeuralLayer.py:30-33 | the step factor 1 - lr * q lies strictly inside (-1, 1) exactly when 0 < lr * q < 2 |
| LayerMath.StepScalesRowError | neural_network/NeuralLayer.py:30-33 | for row i of W with bias b_i, input x and target t: learn on (x, delta_i = t - z) with z the old output makes the new error exactly the old error times 1 - lr * <x, x> |
| LayerMath.StepReducesRowError | neural_network/NeuralLayer.py:30-33 | for the same step and an output not yet on target, when 0 < lr * <x, x> < 2 the squared error (t - z')^2 of the new output is strictly less than the old (t - z)^2 |
| LayerMath.SquaredErrorShrinks | neural_network/NeuralLayer.py:30-33 | scalar core of StepReducesRowError: an error multiplied by a factor strictly inside (-1, 1) has a strictly smaller squared error |
| LayerMath.GradientStepExample | neural_network/NeuralLayer.py:26-33 | worked example: zero weights, input [1, 1], target 1 and rate 0.1 give delta 1, new weights [[0.1, 0.1]] and new output 0.2 |
| NeuralLayers.NeuralLayer.constructor | neural_network/NeuralLayer.py:10-24 | the weights are a fresh (out_size, in_size) array. Each entry is the draw for its position, so it lies in [-0.001, 0.001). size and in_size are the given sizes, and the activation and its derivative are the given functions. The biases are a fresh zero vector of length out_size unless preset, in which case they are the same preset array with the same contents |
| NeuralLayers.NeuralLayer.Feed | neural_network/NeuralLayer.py:26-28 | reads the layer and changes nothing; one column of `size` outputs per input column, output (c, i) being activation(row i of the weights · column c + bias i) |
| NeuralLayers.NeuralLayer.GetDelta | neural_network/NeuralLayer.py:35-39 | reads no mutable state; entry j is (Σ_i d[i] * W'[i][j]) times the layer's derivative at result[j], for the next layer's delta d and weights W' |
| NeuralLayers.NeuralLayer.Learn | neural_network/NeuralLayer.py:30-33 | in place, weights[i, j] becomes old weights[i, j] + lr * delta[i] * result[j], which makes the weight matrix the OuterUpdate of the old one; the shapes and the biases are unchanged |
| NeuralLayers.BiasedNeuralLayer.constructor | neural_network/NeuralLayer.py:10-24 | the inherited construction, with the same shapes, draws and bias default |
| NeuralLayers.BiasedNeuralLayer.Learn | neural_network/NeuralLayer.py:89-91 | the weight update of NeuralLayer.Learn, then biases[i] becomes old biases[i] + lr * delta[i]; the shapes are kept |

## Left out

- `save`, `load` and `visualize` (neural_network/NeuralLayer.py:41-59): these do filesystem I/O through numpy and image export, and `KTimage` is not part of this model.
- lstm_network/util.py (`Logger`, `get_status_function`): these are logging and status-string formatting. The `Logger.debug` calls in the constructor and in `get_delta` have no effect on the computation.
- The random draw of `np.random.uniform` (neural_network/NeuralLayer.py:15): the constructor takes the draw as a function parameter, and its precondition keeps every entry in [-0.001, 0.001). No distribution is modelled.
- The forward exponential and tanh (neural_network/NeuralLayer.py:72, 80): `Sigmoid` takes the exponential as a parameter, and a layer takes its activation as a `real -> real` value. The forward `activation_tanh` has no member of its own.
- Floating point: all arithmetic is on exact reals, so numpy's rounding, overflow and float64 casts are not modelled.
- Shape errors: mismatched shapes appear as preconditions (for example, a preset bias must have length out_size), not as runtime errors. `np.atleast_2d` in `get_delta` is the identity on the matrices of this model.
- Feed: a 1-D input of shape (in_size,) is not modelled, since a batch is always a sequence of columns. For such an input numpy raises nothing: `np.dot(W, x)` has shape (out_size,) and `np.atleast_2d(b).T` has shape (out_size, 1), so the sum broadcasts to an (out_size, out_size) matrix whose entry (i, j) is activation((W x)[j] + b[i]).
- GetDelta: `result` is a flat vector only. For a column `result` of shape (n, 1), the sigmoid and tanh derivatives return an (n, 1) array, and numpy broadcasts the (n,) pull-back against it to an (n, n) matrix with entry (i, j) = (Wᵀd)[j] * deriv(result[i]). The linear derivative returns the scalar 1 and gives the flat Wᵀd.
- InsertBefore and InsertAfter: a `None` cache is excluded by the non-null parameter type. In the code `insert_before(None)` raises AttributeError at neural_network/LayerCache.py:23, and `insert_after(None)` raises it at line 30, both before anything is assigned.
- Batches in `learn`: `np.outer` flattens its arguments, so `Learn` takes `result` and `delta` as flat vectors.
- Inheritance: `BiasedNeuralLayer` wraps a `NeuralLayer` in a `layer` field instead of subclassing it.
- The `hasattr(self, 'biases')` test: a bias vector already set by a subclass is passed to the constructor as `preset`. No subclass of this model sets one.
- RowAfterLearn: the effect of a learning step on the layer's output is stated one output row at a time, not for the whole output vector at once.
- RowAfterBiasedLearn: the same holds for this lemma, also one output row at a time.
- StepReducesRowError: the squared loss is shown to drop for one output on one training pair, with delta_i = t - z and the pair's input as `result`. It is not shown for the sum over all outputs, nor for the biased layer's step.
- StepScalesRowError: likewise stated for one output row.
- ErrorAfterStep: a scalar identity on free reals. StepScalesRowError ties it to a layer row and a learn step.
- SquaredErrorShrinks: a scalar fact on free reals. StepReducesRowError ties it to a layer row and a learn step.
- Calls outside an operation's precondition. These end in an exception in the code after a partial update, and the model does not describe them:
  - `insert_before` on a node with no predecessor first runs neural_network/LayerCache.py:23-24, so the cache's predecessor becomes None and its successor becomes this node. It then raises AttributeError at line 25. `InsertBefore` requires a predecessor instead.
  - `remove` on a node that has a predecessor but no successor runs line 36, so the predecessor's successor becomes None. It then raises AttributeError at line 37.
  - `remove` on a node with no predecessor raises at line 36 and changes nothing.
  - `Remove` requires both neighbours to exist, so it covers none of these cases.
- The chain invariant that a non-boundary node has both neighbours set: the boundary flags are kept as data. No splice reads or sets them, just as in the code.
