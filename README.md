# LSTM layer (single timestep) in Dafny

This project models the CPU path of the single-timestep LSTM layer `LstmLayer`, defined in
`src/caffe/layers/lstm_layer.cpp`. The model is stated and proved in Dafny.

## Scalar helpers

- **`Activations`** covers `sigmoid`, `sigmoid_diff`, the clamped `tanh` and `tanh_diff`, over `real`.
- The exponential is a parameter of type `Exponential`. This is any total `real -> real` function that is positive everywhere and equal to one at zero.

## Gate buffer and cell

**`LstmCell`** is the value-level description of one step.

- **The gate buffer.** It holds four contiguous `num × channels` slices, in this order:
  1. input gate;
  2. forget gate;
  3. output gate;
  4. input value.

  `Offset` gives where each slice starts, and `GateOfPos` gives which slice a position lies in.
- **Per-element forward equations.**
  - `MemoryUpdate` is `prev · forget + ig · iv`.
  - `HiddenOutput` is `memory · og`.
- **Per-element backward quantities** are taken from the stored buffers:
  - `GateDiffs` are the activation derivatives;
  - `TotalStateGrads` is `hiddenDiff · og + memoryDiff`;
  - `PrevStateGrads` is `tot · forget`;
  - `LocalGrad` is the four `dldg` vectors.
- **Proved independently of the buffers:**
  - these local gradients are the chain rule of the cell equations;
  - `StepObjective` is affine in every gate value and in the previous state, with exactly those slopes.

## Linear-algebra primitives

**`MathFunctions`** gives reference definitions of the helpers the layer calls:

- `caffe_cpu_gemm`: `C = alpha · op(A) · op(B) + beta · C` on a row-major block;
- `caffe_mul` and `caffe_add`: elementwise, and the output may alias an input;
- `caffe_set`.

The gemm is a loop over a dot product, and it is proved against `Dot`.

## The layer

**`LstmLayer`** is a class that carries the layer's state:

- the shape fields `channels_`, `input_data_size_`, `num_`, `M_`, `N_`, `K_`;
- the four weight blobs and their diffs;
- the four scratch buffers;
- `LayerSetUp` as its constructor, and `Reshape`, `Forward` and `Backward` as methods that update the arrays in place.

Blobs are flat row-major `array<real>`. The bottoms and tops are arrays that the caller passes in. The nested element loops of `Forward_cpu` and `Backward_cpu` are `while` loops with invariants, and the model keeps the order in which the source walks the elements (`idx = i + n · channels`).

## Notes on the code

- `LayerSetUp` does not check `num_cells > 0`, so zero cells are accepted. The model accepts them too: every loop then does nothing.
- `Reshape` sizes every buffer with the `num_` saved by `LayerSetUp`, not with the current bottom, so the batch size cannot change after setup. In the model, `num` is fixed at construction.

## Model

| member | source | states |
|---|---|---|
| Activations.Sigmoid | src/caffe/layers/lstm_layer.cpp:8-11 | `1 / (1 + exp(-x))` lies strictly between 0 and 1 |
| Activations.SigmoidDiff | src/caffe/layers/lstm_layer.cpp:13-16 | `g · (1 - g)` is in (0, 1/4] for every g in (0, 1) |
| Activations.Tanh | src/caffe/layers/lstm_layer.cpp:18-22 | exactly 1 for x >= 5 and exactly -1 for x <= -5; always in [-1, 1]; strictly inside (-1, 1) if and only if \|x\| < 5 |
| Activations.TanhRatioBounds | src/caffe/layers/lstm_layer.cpp:21 | the unclamped branch `(e - 1) / (e + 1)` lies strictly inside (-1, 1) for every positive e |
| Activations.TanhDiff | src/caffe/layers/lstm_layer.cpp:24-27 | `1 - v · v` is in [0, 1] for every v in [-1, 1] |
| Activations.ActivationsAtZero | src/caffe/layers/lstm_layer.cpp:8-22 | sigmoid(0) = 1/2 and tanh(0) = 0 |
| Activations.SigmoidDiffOfOutput | src/caffe/layers/lstm_layer.cpp:8-16 | the derivative taken from the stored sigmoid output equals `exp(-x) / (1 + exp(-x))^2` at the pre-activation |
| Activations.TanhDiffOfOutput | src/caffe/layers/lstm_layer.cpp:18-27 | the derivative taken from the stored tanh output equals `4 exp(2x) / (exp(2x) + 1)^2` inside the clamp, and 0 on the clamped branches |
| Activations.TanhViaSigmoid | src/caffe/layers/lstm_layer.cpp:8-22 | inside the clamp, tanh equals `2 · sigmoid(2x) - 1`, under the hypothesis `exp(-2x) · exp(2x) = 1` (the abstract exponential is not assumed multiplicative) |
| LstmCell.Offset | src/caffe/layers/lstm_layer.cpp:110-113 | every gate slice `[k · S, k · S + S)` lies inside the `4 · S` gate buffer |
| LstmCell.GateOfPos | src/caffe/layers/lstm_layer.cpp:110-113 | every buffer position lies in the slice of the gate it is assigned to |
| LstmCell.SlicesPartition | src/caffe/layers/lstm_layer.cpp:110-113 | position q of gate g's slice is in the buffer and belongs to g alone, so the four slices are pairwise disjoint |
| LstmCell.Activation | src/caffe/layers/lstm_layer.cpp:131-134 | the three gates take a value in (0, 1) and the input value a value in [-1, 1] |
| LstmCell.ActivationDiff | src/caffe/layers/lstm_layer.cpp:177-180 | the gate derivative is in (0, 1/4] and the input-value derivative in [0, 1], over the range of activated values |
| LstmCell.ActivationDiffOfOutput | src/caffe/layers/lstm_layer.cpp:177-180 | the derivative computed from the stored activated value is the derivative at the pre-activation projection |
| LstmCell.CellAt | src/caffe/layers/lstm_layer.cpp:131-134 | the four values the element loop reads at `idx`, one from each slice; a definition without a contract of its own, whose layout `CellAtSlices` states |
| LstmCell.CellAtSlices | src/caffe/layers/lstm_layer.cpp:110-113 | each gate of the cell at q is element q of that gate's own slice, at `Offset(g, S) + q` |
| LstmCell.ActivateCell | src/caffe/layers/lstm_layer.cpp:131-134 | the four activations of one element are activated values, each the activation of its own gate |
| LstmCell.ActivatedGatesCell | src/caffe/layers/lstm_layer.cpp:128-134 | element q of the activated buffer is element q of the projections, activated |
| LstmCell.PartlyActivatedStep | src/caffe/layers/lstm_layer.cpp:128-134 | one iteration of the element loop activates the four positions of element idx and leaves every other position as it was |
| LstmCell.PendingCell | src/caffe/layers/lstm_layer.cpp:131-134 | before iteration idx, element idx of every slice still holds its projection |
| LstmCell.PendingCellValues | src/caffe/layers/lstm_layer.cpp:131-134 | the four values the iteration reads are element idx of the projections |
| LstmCell.FullyActivated | src/caffe/layers/lstm_layer.cpp:128-140 | after the whole loop every position holds its activated value |
| LstmCell.MemoryUpdate | src/caffe/layers/lstm_layer.cpp:136-137 | the new memory `prev · forget + ig · iv`; a definition without a contract of its own, bounded by `MemoryBound` and differentiated by `ObjectiveAffineInPrev` |
| LstmCell.HiddenOutput | src/caffe/layers/lstm_layer.cpp:138 | the new hidden state `memory · og`; a definition without a contract of its own, bounded by `HiddenBound` |
| LstmCell.CellBounds | src/caffe/layers/lstm_layer.cpp:136-138 | with activated gates, the memory grows in magnitude by less than 1 per step, and the hidden state is no larger in magnitude than the memory |
| LstmCell.MemoryBound | src/caffe/layers/lstm_layer.cpp:136-137 | `\|prev · forget + ig · iv\| < \|prev\| + 1` for activated gates |
| LstmCell.HiddenBound | src/caffe/layers/lstm_layer.cpp:138 | `\|memory · og\| <= \|memory\|` for an output gate in (0, 1) |
| LstmCell.ObjectiveAffineInGate | src/caffe/layers/lstm_layer.cpp:204-232 | moving one activated gate value by h moves the step objective by exactly h times that gate's sensitivity, so the sensitivity is the exact partial derivative |
| LstmCell.ObjectiveAffineInPrev | src/caffe/layers/lstm_layer.cpp:196-200 | moving the previous memory by h moves the step objective by exactly h · tot · forget, the gradient the layer writes for the previous state |
| LstmCell.TotalStateGrad | src/caffe/layers/lstm_layer.cpp:197-198 | `hiddenDiff · og + memoryDiff`, the total gradient reaching the memory state; a definition without a contract of its own; the gate sensitivities that `ObjectiveAffineInGate` proves exact, and the slope in `ObjectiveAffineInPrev`, are built from it |
| LstmCell.LocalGradIsChainRule | src/caffe/layers/lstm_layer.cpp:204-232 | where the memory top is the one Forward produced, each gate's `dldg` element is that gate's sensitivity times its activation derivative, i.e. the chain rule |
| LstmCell.ChainRuleInputValue | src/caffe/layers/lstm_layer.cpp:204-205 | `tot · (ig · tanh_diff(iv))` is the input value's sensitivity `tot · ig` times its activation derivative |
| LstmCell.ChainRuleInputGate | src/caffe/layers/lstm_layer.cpp:213-214 | `tot · (sigmoid_diff(ig) · iv)` is the input gate's sensitivity `tot · iv` times its activation derivative |
| LstmCell.ChainRuleForgetGate | src/caffe/layers/lstm_layer.cpp:222-223 | `tot · (sigmoid_diff(fg) · prev)` is the forget gate's sensitivity `tot · prev` times its activation derivative |
| LstmCell.ChainRuleOutputGate | src/caffe/layers/lstm_layer.cpp:231-232 | `hiddenDiff · (sigmoid_diff(og) · memory)` uses the hidden-state gradient, not the total state gradient, and when memory is `prev · fg + ig · iv` it is the output gate's sensitivity times its activation derivative |
| MathFunctions.FlatIndexInRange | src/caffe/layers/lstm_layer.cpp:128-130 | every loop index `i + n · channels` with n < num and i < channels is below `num · channels` |
| MathFunctions.FlatCovers | src/caffe/layers/lstm_layer.cpp:206-238 | every position of a `rows × cols` buffer is the flat index of its row and column |
| MathFunctions.FlatInverse | src/caffe/layers/lstm_layer.cpp:206-238 | the row and column of a flat index are recovered by division and remainder |
| MathFunctions.DotZeroRight | src/caffe/layers/lstm_layer.cpp:115-126 | a product with an all-zero right operand is zero |
| MathFunctions.DotProduct | src/caffe/layers/lstm_layer.cpp:115-126 | the inner loop of the reference gemm computes `sum_l op(A)[i, l] · op(B)[l, j]` |
| MathFunctions.Gemm | src/caffe/layers/lstm_layer.cpp:115-126 | every element of the `M × N` block at the output offset becomes `alpha · Dot + beta · old`, and no element outside the block changes |
| MathFunctions.GemmRow | src/caffe/layers/lstm_layer.cpp:115-126 | one row of the gemm block is computed, and nothing outside that row changes |
| MathFunctions.Mul | src/caffe/layers/lstm_layer.cpp:204-205 | `y[p] = a[aOff + p] · b[bOff + p]` for p < n, reading the old values even when y aliases an operand; nothing else in y changes |
| MathFunctions.Add | src/caffe/layers/lstm_layer.cpp:198 | `y[p] = a[p] + b[p]` for p < n, also when y aliases an operand; nothing else in y changes |
| MathFunctions.Set | src/caffe/layers/lstm_layer.cpp:146-151 | the first n elements become alpha, and the rest are unchanged |
| LstmLayer.LstmLayer.LayerSetUp | src/caffe/layers/lstm_layer.cpp:29-77 | `channels = num_cells`; `inputSize = channels · width · height` of the data bottom; `num` is its batch; `M, N, K = num, channels, inputSize`; the four weight blobs are new, distinct, `channels × inputSize` and hold the fillers' values; the diffs have the same size |
| LstmLayer.LstmLayer.Valid | src/caffe/layers/lstm_layer.cpp:49-56 | the invariant LayerSetUp establishes: `M, N, K = num, channels, inputSize`, the weight blobs and their diffs are `channels × inputSize`, and all owned arrays are distinct; a predicate without a contract of its own |
| LstmLayer.LstmLayer.WeightOf | src/caffe/layers/lstm_layer.cpp:100-103 | `blobs_[0..3]` by gate: the input value, input gate, forget gate and output gate weights; a definition without a contract of its own |
| LstmLayer.LstmLayer.Reshape | src/caffe/layers/lstm_layer.cpp:79-92 | the gate data and gate diff buffers become `num × 4·channels`; the total-state and `dldg` buffers and the two tops become `num × channels`; every buffer is new and distinct from the others; the shapes and weights are unchanged |
| LstmLayer.LstmLayer.Ready | src/caffe/layers/lstm_layer.cpp:86-89 | Valid, and the scratch buffers have the sizes Reshape gives them; a predicate without a contract of its own |
| LstmLayer.LstmLayer.Forward | src/caffe/layers/lstm_layer.cpp:94-141 | every slice element is the activation of the projection `input_n · W_g,i`; every element's gates are activated values; `memory = prev · fg + ig · iv` and `hidden = memory · og` element by element; only the gate buffer and the two tops change |
| LstmLayer.LstmLayer.ForwardZeroWeights | src/caffe/layers/lstm_layer.cpp:115-138 | with four all-zero weight blobs, Forward leaves `memory = prev · 1/2` and `hidden = memory · 1/2` at every element |
| LstmLayer.LstmLayer.Project | src/caffe/layers/lstm_layer.cpp:108-126 | each gate slice holds the gemm NoTrans/Trans projection `input · W_g^T` |
| LstmLayer.LstmLayer.Backward | src/caffe/layers/lstm_layer.cpp:143-239 | the gate diffs are the activation derivatives of the stored gates; tot is `hiddenDiff · og + memoryDiff`; the previous-state diff is `tot · fg`; each weight diff is exactly `dldg_g^T · input`; the input diff is exactly the sum of the four `dldg_g · W_g`; `dldg` ends holding the output gate's local gradient |
| LstmLayer.LstmLayer.BackwardIsRepeatable | src/caffe/layers/lstm_layer.cpp:146-238 | a second Backward on the same data leaves the input, previous-state and four weight diffs exactly as the first left them, because every gradient is zeroed or overwritten before it is accumulated |
| LstmLayer.NewBlob | src/caffe/layers/lstm_layer.cpp:54-73 | a new blob, holding the filler's values |
| LstmLayer.NewWeightBlobs | src/caffe/layers/lstm_layer.cpp:53-73 | four new, pairwise distinct blobs, each holding its filler's values |
| LstmLayer.NewBlobs | src/caffe/layers/lstm_layer.cpp:86-91 | four new, pairwise distinct blobs of the requested size |
| LstmLayer.ActivateAndCombine | src/caffe/layers/lstm_layer.cpp:128-140 | the buffer becomes the activated projections; every element's memory and hidden tops come from its own activated gates |
| LstmLayer.ActivateElement | src/caffe/layers/lstm_layer.cpp:130-138 | iteration idx activates element idx of the four slices and writes `memory[idx]` and `hidden[idx]`; no other top element changes |
| LstmLayer.WriteElement | src/caffe/layers/lstm_layer.cpp:131-138 | the four activated values go to element idx of their slices; memory and hidden get their update; no other top element changes |
| LstmLayer.ZeroWeightsGate | src/caffe/layers/lstm_layer.cpp:115-134 | with an all-zero weight blob, the gate opens to 1/2, or the input value to 0 |
| LstmLayer.ZeroWeightsCell | src/caffe/layers/lstm_layer.cpp:115-134 | with all four weight blobs zero, every element's activated gates are `(1/2, 1/2, 1/2, 0)` |
| LstmLayer.GateDerivatives | src/caffe/layers/lstm_layer.cpp:174-182 | every position of the gate diff buffer is its gate's activation derivative, taken from the stored activated value |
| LstmLayer.DiffElement | src/caffe/layers/lstm_layer.cpp:176-180 | iteration idx extends that fact to element idx of all four slices |
| LstmLayer.StateGradients | src/caffe/layers/lstm_layer.cpp:196-200 | tot is `hiddenDiff · og + memoryDiff`, and the previous-state diff is `tot · fg` |
| LstmLayer.TotalGradient | src/caffe/layers/lstm_layer.cpp:196-198 | the mul, then the in-place add, leave `hiddenDiff · og + memoryDiff` in tot |
| LstmLayer.BackwardPass | src/caffe/layers/lstm_layer.cpp:146-238 | on explicit buffers: the backward results above, stated elementwise |
| LstmLayer.BackpropGates | src/caffe/layers/lstm_layer.cpp:204-238 | from a zeroed input diff, the four gate blocks leave each weight diff at `grad_g^T · input`, and the input diff at the sum of the four `grad_g · W_g` |
| LstmLayer.BackpropGate | src/caffe/layers/lstm_layer.cpp:204-211 | one gate block: `dldg = scale · (left · right)`; the weight diff is overwritten with `dldg^T · input`; `dldg · W` is added onto the input diff |
| LstmLayer.ScaledProduct | src/caffe/layers/lstm_layer.cpp:204-205 | the two muls of a gate block, the second in place, leave `scale · (left · right)` in `dldg` |

`GateDiffs`, `TotalStateGrads`, `PrevStateGrads`, `ScaledProducts`, `LocalGrad`, `WeightGrads`, `InputGrads`, `ActivatedGates`, `WeightGrad`, `PullBack` and `Dot` are reference definitions, and their contracts only spell out one element. The methods and lemmas listed above relate these definitions to the source's loops and to the cell equations.

Some members are proof helpers and model no line of the source: `CellGates.With` replaces one gate value, `ArrayMatches` and `ArrayMatchesFlat` turn elementwise agreement of an array with a sequence into equality, and `HalfOpen` does the arithmetic of half-open gates.

## Left out

- **Floating point.** Arithmetic is over `real`, so the model has no rounding, no overflow of `exp(2x)` and no NaN.
- **The exponential** is abstract. The model assumes only that it is positive and that `exp(0) = 1`. Differentiating `exp` is not expressible, so a finite-difference gradient check is replaced by `ObjectiveAffineInGate` and `ObjectiveAffineInPrev`: these state the exact derivative of the step objective, which is affine in each variable.
- **Fillers.** Building the fillers and calling `Fill` are random initialisation. The filled values are `LayerSetUp` parameters instead.
- **Parameter checks.** Reading the protobuf parameters and the `CHECK`s on them and on the bottom and top counts are left out. The counts are implicit in the method signatures.
- **Blob internals** are left out: device synchronisation, four-dimensional shapes, and `param_propagate_down_`.
- **The GPU stub** and the class instantiation macros are left out.
- **`propagate_down`** is ignored by `Backward_cpu`, and the model ignores it too.
- **Blob sizes.** The bottoms and tops must have exactly the sizes the layer addresses. The source does not check them: a larger blob would also work there.
- LstmLayer.LstmLayer.Reshape: Caffe reshapes a blob in place and keeps its storage when the element count does not change. The model allocates new arrays and does not state their contents.
- LstmLayer.LstmLayer.LayerSetUp: the model makes the weight diffs the right size but does not state their initial contents. `Backward` zeroes them before it writes them.
- **Integer width.** The source's `int` index arithmetic (`idx = i + n * channels_`, `channels_ * num_ * k`) is modelled with unbounded `nat`, so the model has no wrap-around on very large blobs.
- **Top diffs.** The model does not write the diffs of the tops. The source reads them only.
