/**
 * The single-timestep LSTM layer: four weight blobs set up once, scratch
 * buffers sized by Reshape, a forward pass that projects the input into a
 * shared gate buffer and combines the activated gates with the previous
 * memory state, and a backward pass that forms the gradients of the input,
 * the previous memory state and the four weight blobs.
 *
 * Blobs are flat row-major arrays. The layer owns its weights, the weight
 * diffs and four scratch buffers; the bottoms and tops are arrays the caller
 * passes in, none of them owned by the layer.
 */
module LstmLayer {
  import opened MathFunctions
  import opened Activations
  import opened LstmCell

  class LstmLayer {
    /** `channels_`: the number of memory cells. */
    const channels: nat
    /** `input_data_size_`: channels · width · height of the data bottom. */
    const inputSize: nat
    /** `num_`: the batch size of the data bottom at setup. */
    const num: nat
    /** The gemm shape `M_ × N_ × K_` of the forward projections. */
    const M: nat
    const N: nat
    const K: nat

    /** The four weight blobs (blobs_[0..3]), each `channels × inputSize`, and their diffs. */
    const inputWeight: array<real>
    const inputGateWeight: array<real>
    const forgetGateWeight: array<real>
    const outputGateWeight: array<real>
    const inputWeightDiff: array<real>
    const inputGateWeightDiff: array<real>
    const forgetGateWeightDiff: array<real>
    const outputGateWeightDiff: array<real>

    /** Scratch buffers: the gates and their derivatives (`num × 4·channels`), the total state gradient and `dldg` (`num × channels`). */
    var gatesData: array<real>
    var gatesDiff: array<real>
    var totDiff: array<real>
    var dldg: array<real>

    /** The number of elements in one gate slice and in each state blob. */
    function Cells(): nat
    {
      num * channels
    }

    /** The weight blob that projects the input onto gate g. */
    function WeightOf(g: Gate): array<real>
    {
      match g
      case InputValue => inputWeight
      case InputGate => inputGateWeight
      case ForgetGate => forgetGateWeight
      case OutputGate => outputGateWeight
    }

    /** Every array the layer owns. */
    function Repr(): set<object>
      reads this
    {
      {inputWeight, inputGateWeight, forgetGateWeight, outputGateWeight,
       inputWeightDiff, inputGateWeightDiff, forgetGateWeightDiff, outputGateWeightDiff,
       gatesData, gatesDiff, totDiff, dldg}
    }

    /** The shape facts LayerSetUp establishes, and the owned arrays are distinct. */
    predicate Valid()
      reads this
    {
      && M == num && N == channels && K == inputSize
      && inputWeight.Length == inputGateWeight.Length == forgetGateWeight.Length
         == outputGateWeight.Length == channels * inputSize
      && inputWeightDiff.Length == inputGateWeightDiff.Length == forgetGateWeightDiff.Length
         == outputGateWeightDiff.Length == channels * inputSize
      && inputWeight !in {inputGateWeight, forgetGateWeight, outputGateWeight,
                          inputWeightDiff, inputGateWeightDiff, forgetGateWeightDiff, outputGateWeightDiff,
                          gatesData, gatesDiff, totDiff, dldg}
      && inputGateWeight !in {forgetGateWeight, outputGateWeight,
                              inputWeightDiff, inputGateWeightDiff, forgetGateWeightDiff, outputGateWeightDiff,
                              gatesData, gatesDiff, totDiff, dldg}
      && forgetGateWeight !in {outputGateWeight,
                               inputWeightDiff, inputGateWeightDiff, forgetGateWeightDiff, outputGateWeightDiff,
                               gatesData, gatesDiff, totDiff, dldg}
      && outputGateWeight !in {inputWeightDiff, inputGateWeightDiff, forgetGateWeightDiff, outputGateWeightDiff,
                               gatesData, gatesDiff, totDiff, dldg}
      && inputWeightDiff !in {inputGateWeightDiff, forgetGateWeightDiff, outputGateWeightDiff,
                              gatesData, gatesDiff, totDiff, dldg}
      && inputGateWeightDiff !in {forgetGateWeightDiff, outputGateWeightDiff, gatesData, gatesDiff, totDiff, dldg}
      && forgetGateWeightDiff !in {outputGateWeightDiff, gatesData, gatesDiff, totDiff, dldg}
      && outputGateWeightDiff !in {gatesData, gatesDiff, totDiff, dldg}
      && gatesData !in {gatesDiff, totDiff, dldg}
      && gatesDiff !in {totDiff, dldg}
      && totDiff != dldg
    }

    /** Valid, and the scratch buffers have the sizes Reshape gives them. */
    predicate Ready()
      reads this
    {
      && Valid()
      && gatesData.Length == 4 * Cells() && gatesDiff.Length == 4 * Cells()
      && totDiff.Length == Cells() && dldg.Length == Cells()
    }

    /**
     * LayerSetUp: the cell count comes from the layer parameter, the input
     * size and the batch size from the data bottom; the four weight blobs
     * are `channels × inputSize` and hold what the four fillers produce.
     */
    constructor LayerSetUp(numCells: nat, bottomNum: nat, bottomChannels: nat, bottomHeight: nat, bottomWidth: nat,
                           inputFill: seq<real>, inputGateFill: seq<real>,
                           forgetGateFill: seq<real>, outputGateFill: seq<real>)
      requires |inputFill| == |inputGateFill| == |forgetGateFill| == |outputGateFill|
               == numCells * (bottomChannels * bottomWidth * bottomHeight)
      ensures Valid()
      ensures channels == numCells && inputSize == bottomChannels * bottomWidth * bottomHeight && num == bottomNum
      ensures inputWeight[..] == inputFill && inputGateWeight[..] == inputGateFill
      ensures forgetGateWeight[..] == forgetGateFill && outputGateWeight[..] == outputGateFill
      ensures fresh(inputWeight) && fresh(inputGateWeight) && fresh(forgetGateWeight) && fresh(outputGateWeight)
      ensures fresh(inputWeightDiff) && fresh(inputGateWeightDiff) && fresh(forgetGateWeightDiff) && fresh(outputGateWeightDiff)
      ensures fresh(gatesData) && fresh(gatesDiff) && fresh(totDiff) && fresh(dldg)
    {
      var cells, size := numCells, bottomChannels * bottomWidth * bottomHeight;
      channels, inputSize, num := cells, size, bottomNum;
      M, N, K := bottomNum, cells, size;
      var wIV, wIG, wFG, wOG := NewWeightBlobs(inputFill, inputGateFill, forgetGateFill, outputGateFill);
      var dIV, dIG, dFG, dOG := NewBlobs(cells * size);
      var gData, gDiff, tDiff, lDiff := NewBlobs(0);
      inputWeight, inputGateWeight, forgetGateWeight, outputGateWeight := wIV, wIG, wFG, wOG;
      inputWeightDiff, inputGateWeightDiff, forgetGateWeightDiff, outputGateWeightDiff := dIV, dIG, dFG, dOG;
      gatesData, gatesDiff, totDiff, dldg := gData, gDiff, tDiff, lDiff;
    }

    /**
     * Reshape: the gate data and gate diff buffers become `num × 4·channels`,
     * the total-state-gradient and `dldg` buffers `num × channels`, and the
     * two tops (returned) `num × channels`. Shapes and weights are unchanged.
     */
    method Reshape() returns (hidden: array<real>, memory: array<real>)
      requires Valid()
      modifies this
      ensures Ready()
      ensures gatesData.Length == gatesDiff.Length == num * (4 * channels)
      ensures totDiff.Length == dldg.Length == num * channels
      ensures fresh(gatesData) && fresh(gatesDiff) && fresh(totDiff) && fresh(dldg)
      ensures fresh(hidden) && fresh(memory) && hidden != memory
      ensures hidden !in Repr() && memory !in Repr()
      ensures hidden.Length == num * channels && memory.Length == num * channels
    {
      var gData := new real[num * (4 * channels)];
      var gDiff := new real[num * (4 * channels)];
      var tDiff, lDiff;
      tDiff, lDiff, hidden, memory := NewBlobs(num * channels);
      gatesData, gatesDiff, totDiff, dldg := gData, gDiff, tDiff, lDiff;
    }

    /**
     * Forward_cpu. Each gate slice of the gate buffer receives the projection
     * `input · W_g^T` (gemm NoTrans/Trans, beta 0) and is then overwritten by
     * its activation; the memory top becomes `prev · forget + ig · iv` and the
     * hidden top `memory · og`, element by element. Nothing else changes.
     */
    method Forward(exp: Exponential, input: array<real>, prev: array<real>,
                   hidden: array<real>, memory: array<real>)
      requires Ready()
      requires input.Length == num * inputSize && prev.Length == num * channels
      requires hidden.Length == num * channels && memory.Length == num * channels
      requires input !in Repr() && prev !in Repr() && hidden !in Repr() && memory !in Repr()
      requires hidden != memory && hidden !in {input, prev} && memory !in {input, prev}
      modifies gatesData, hidden, memory
      ensures forall g, n, i :: 0 <= n < num && 0 <= i < channels ==>
        gatesData[Offset(g, Cells()) + Flat(n, i, num, channels)]
          == Activation(g, exp, Dot(NoTrans, Trans, input[..], WeightOf(g)[..], num, channels, inputSize, n, i, inputSize))
      ensures forall q :: 0 <= q < Cells() ==> Activated(CellAt(gatesData[..], Cells(), q))
      ensures forall q :: 0 <= q < Cells() ==> memory[q] == MemoryUpdate(prev[q], CellAt(gatesData[..], Cells(), q))
      ensures forall q :: 0 <= q < Cells() ==> hidden[q] == HiddenOutput(memory[q], CellAt(gatesData[..], Cells(), q))
    {
      Project(input);
      ghost var pre := gatesData[..];
      ActivateAndCombine(exp, num, channels, Cells(), gatesData, prev, hidden, memory);
      forall g, n, i | 0 <= n < num && 0 <= i < channels
        ensures gatesData[Offset(g, Cells()) + Flat(n, i, num, channels)]
          == Activation(g, exp, pre[Offset(g, Cells()) + Flat(n, i, num, channels)])
      {
        SlicesPartition(g, Cells(), Flat(n, i, num, channels));
      }
      forall q | 0 <= q < Cells()
        ensures Activated(CellAt(gatesData[..], Cells(), q))
      {
        ActivatedGatesCell(exp, pre, Cells(), q);
      }
    }

    /**
     * Forward with four all-zero weight blobs: every gate opens half-way and
     * the input value is zero, so the memory top is half the previous memory
     * and the hidden top half the memory top.
     */
    method ForwardZeroWeights(exp: Exponential, input: array<real>, prev: array<real>,
                              hidden: array<real>, memory: array<real>)
      requires Ready()
      requires input.Length == num * inputSize && prev.Length == num * channels
      requires hidden.Length == num * channels && memory.Length == num * channels
      requires input !in Repr() && prev !in Repr() && hidden !in Repr() && memory !in Repr()
      requires hidden != memory && hidden !in {input, prev} && memory !in {input, prev}
      requires forall p :: 0 <= p < channels * inputSize ==>
        inputWeight[p] == 0.0 && inputGateWeight[p] == 0.0 && forgetGateWeight[p] == 0.0 && outputGateWeight[p] == 0.0
      modifies gatesData, hidden, memory
      ensures forall q :: 0 <= q < Cells() ==> memory[q] == prev[q] * 0.5 && hidden[q] == memory[q] * 0.5
    {
      Forward(exp, input, prev, hidden, memory);
      ghost var gates, x := gatesData[..], input[..];
      ghost var vIV, vIG, vFG, vOG := inputWeight[..], inputGateWeight[..], forgetGateWeight[..], outputGateWeight[..];
      forall q | 0 <= q < Cells()
        ensures memory[q] == prev[q] * 0.5 && hidden[q] == memory[q] * 0.5
      {
        FlatCovers(q, num, channels);
        var n, i := q / channels, q % channels;
        ZeroWeightsCell(exp, gates, x, vIV, vIG, vFG, vOG, num, channels, inputSize, n, i);
        HalfOpen(prev[q], CellAt(gates, Cells(), q));
      }
    }

    /**
     * The four projections of Forward_cpu: gemm NoTrans/Trans with beta 0
     * writes `input · W_g^T` into the slice of gate g, in the order input
     * value, input gate, forget gate, output gate.
     */
    method Project(input: array<real>)
      requires Ready()
      requires input.Length == num * inputSize && input !in Repr()
      modifies gatesData
      ensures forall g, n, i :: 0 <= n < num && 0 <= i < channels ==>
        gatesData[Offset(g, Cells()) + Flat(n, i, num, channels)]
          == Dot(NoTrans, Trans, input[..], WeightOf(g)[..], num, channels, inputSize, n, i, inputSize)
    {
      var S := num * channels;
      var inputGates, forgetGates, outputGates, inputValues :=
        Offset(InputGate, S), Offset(ForgetGate, S), Offset(OutputGate, S), Offset(InputValue, S);
      assert gatesData.Length == 4 * S;
      Gemm(NoTrans, Trans, M, N, K, 1.0, input, inputWeight, 0.0, gatesData, inputValues);
      Gemm(NoTrans, Trans, M, N, K, 1.0, input, inputGateWeight, 0.0, gatesData, inputGates);
      Gemm(NoTrans, Trans, M, N, K, 1.0, input, forgetGateWeight, 0.0, gatesData, forgetGates);
      Gemm(NoTrans, Trans, M, N, K, 1.0, input, outputGateWeight, 0.0, gatesData, outputGates);
    }

    /**
     * Backward_cpu. The bottom diffs and the weight diffs are zeroed; the gate
     * derivative buffer receives each gate's activation derivative, taken from
     * its activated value; the total state gradient `memoryDiff + og · hiddenDiff`
     * and the previous-state gradient `tot · fg` are formed; then, gate by gate
     * (input value, input gate, forget gate, output gate), the local gradient
     * goes into `dldg`, the weight diff becomes `dldg^T · input` and
     * `dldg · W_g` is added onto the input diff.
     */
    method Backward(input: array<real>, prev: array<real>, hiddenDiff: array<real>,
                    memory: array<real>, memoryDiff: array<real>,
                    inputDiff: array<real>, prevDiff: array<real>)
      requires Ready()
      requires input.Length == num * inputSize && inputDiff.Length == num * inputSize
      requires prev.Length == num * channels && prevDiff.Length == num * channels
      requires hiddenDiff.Length == num * channels
      requires memory.Length == num * channels && memoryDiff.Length == num * channels
      requires input !in Repr() && prev !in Repr() && hiddenDiff !in Repr() && memory !in Repr()
      requires memoryDiff !in Repr() && inputDiff !in Repr() && prevDiff !in Repr()
      requires inputDiff !in {input, prev, hiddenDiff, memory, memoryDiff, prevDiff}
      requires prevDiff !in {input, prev, hiddenDiff, memory, memoryDiff}
      modifies gatesDiff, totDiff, dldg, inputDiff, prevDiff
      modifies inputWeightDiff, inputGateWeightDiff, forgetGateWeightDiff, outputGateWeightDiff
      ensures gatesDiff[..] == GateDiffs(gatesData[..], Cells())
      ensures totDiff[..] == TotalStateGrads(gatesData[..], hiddenDiff[..], memoryDiff[..], Cells())
      ensures prevDiff[..] == PrevStateGrads(gatesData[..], hiddenDiff[..], memoryDiff[..], Cells())
      ensures inputWeightDiff[..] == WeightGrads(LocalGrad(InputValue, gatesData[..], hiddenDiff[..], memoryDiff[..], prev[..], memory[..], Cells()),
                                                 input[..], num, channels, inputSize)
      ensures inputGateWeightDiff[..] == WeightGrads(LocalGrad(InputGate, gatesData[..], hiddenDiff[..], memoryDiff[..], prev[..], memory[..], Cells()),
                                                     input[..], num, channels, inputSize)
      ensures forgetGateWeightDiff[..] == WeightGrads(LocalGrad(ForgetGate, gatesData[..], hiddenDiff[..], memoryDiff[..], prev[..], memory[..], Cells()),
                                                      input[..], num, channels, inputSize)
      ensures outputGateWeightDiff[..] == WeightGrads(LocalGrad(OutputGate, gatesData[..], hiddenDiff[..], memoryDiff[..], prev[..], memory[..], Cells()),
                                                      input[..], num, channels, inputSize)
      ensures inputDiff[..]
           == InputGrads(LocalGrad(InputValue, gatesData[..], hiddenDiff[..], memoryDiff[..], prev[..], memory[..], Cells()),
                         LocalGrad(InputGate, gatesData[..], hiddenDiff[..], memoryDiff[..], prev[..], memory[..], Cells()),
                         LocalGrad(ForgetGate, gatesData[..], hiddenDiff[..], memoryDiff[..], prev[..], memory[..], Cells()),
                         LocalGrad(OutputGate, gatesData[..], hiddenDiff[..], memoryDiff[..], prev[..], memory[..], Cells()),
                         inputWeight[..], inputGateWeight[..], forgetGateWeight[..], outputGateWeight[..],
                         num, channels, inputSize)
      ensures dldg[..] == LocalGrad(OutputGate, gatesData[..], hiddenDiff[..], memoryDiff[..], prev[..], memory[..], Cells())
    {
      ghost var gates, hd, md, pv, mem := gatesData[..], hiddenDiff[..], memoryDiff[..], prev[..], memory[..];
      ghost var x, vIV, vIG, vFG, vOG := input[..], inputWeight[..], inputGateWeight[..], forgetGateWeight[..], outputGateWeight[..];
      BackwardPass(num, channels, inputSize, gatesData, gatesDiff, totDiff, dldg,
                   input, prev, hiddenDiff, memory, memoryDiff, inputDiff, prevDiff,
                   inputWeight, inputGateWeight, forgetGateWeight, outputGateWeight,
                   inputWeightDiff, inputGateWeightDiff, forgetGateWeightDiff, outputGateWeightDiff,
                   gates, hd, md, pv, mem, x, vIV, vIG, vFG, vOG);
      ArrayMatches(gatesData, gates);
      ArrayMatches(hiddenDiff, hd);
      ArrayMatches(memoryDiff, md);
      ArrayMatches(prev, pv);
      ArrayMatches(memory, mem);
      ArrayMatches(input, x);
      ArrayMatches(inputWeight, vIV);
      ArrayMatches(inputGateWeight, vIG);
      ArrayMatches(forgetGateWeight, vFG);
      ArrayMatches(outputGateWeight, vOG);
      ArrayMatches(gatesDiff, GateDiffs(gates, Cells()));
      ArrayMatches(totDiff, TotalStateGrads(gates, hd, md, Cells()));
      ArrayMatches(prevDiff, PrevStateGrads(gates, hd, md, Cells()));
      ArrayMatches(dldg, LocalGrad(OutputGate, gates, hd, md, pv, mem, Cells()));
      ghost var gIV, gIG, gFG, gOG := LocalGrad(InputValue, gates, hd, md, pv, mem, Cells()), LocalGrad(InputGate, gates, hd, md, pv, mem, Cells()),
                                      LocalGrad(ForgetGate, gates, hd, md, pv, mem, Cells()), LocalGrad(OutputGate, gates, hd, md, pv, mem, Cells());
      ArrayMatchesFlat(inputWeightDiff, WeightGrads(gIV, x, num, channels, inputSize), channels, inputSize);
      ArrayMatchesFlat(inputGateWeightDiff, WeightGrads(gIG, x, num, channels, inputSize), channels, inputSize);
      ArrayMatchesFlat(forgetGateWeightDiff, WeightGrads(gFG, x, num, channels, inputSize), channels, inputSize);
      ArrayMatchesFlat(outputGateWeightDiff, WeightGrads(gOG, x, num, channels, inputSize), channels, inputSize);
      ArrayMatchesFlat(inputDiff, InputGrads(gIV, gIG, gFG, gOG, vIV, vIG, vFG, vOG, num, channels, inputSize), num, inputSize);
    }

    /**
     * Backward overwrites every gradient it produces rather than adding onto
     * an earlier one: running it a second time on the same data leaves the
     * bottom diffs and the four weight diffs exactly as the first run left
     * them. The results of the first run are returned.
     */
    method BackwardIsRepeatable(input: array<real>, prev: array<real>, hiddenDiff: array<real>,
                                memory: array<real>, memoryDiff: array<real>,
                                inputDiff: array<real>, prevDiff: array<real>)
      returns (inputDiff1: seq<real>, prevDiff1: seq<real>,
               inputWeightDiff1: seq<real>, inputGateWeightDiff1: seq<real>,
               forgetGateWeightDiff1: seq<real>, outputGateWeightDiff1: seq<real>)
      requires Ready()
      requires input.Length == num * inputSize && inputDiff.Length == num * inputSize
      requires prev.Length == num * channels && prevDiff.Length == num * channels
      requires hiddenDiff.Length == num * channels
      requires memory.Length == num * channels && memoryDiff.Length == num * channels
      requires input !in Repr() && prev !in Repr() && hiddenDiff !in Repr() && memory !in Repr()
      requires memoryDiff !in Repr() && inputDiff !in Repr() && prevDiff !in Repr()
      requires inputDiff !in {input, prev, hiddenDiff, memory, memoryDiff, prevDiff}
      requires prevDiff !in {input, prev, hiddenDiff, memory, memoryDiff}
      modifies gatesDiff, totDiff, dldg, inputDiff, prevDiff
      modifies inputWeightDiff, inputGateWeightDiff, forgetGateWeightDiff, outputGateWeightDiff
      ensures inputDiff[..] == inputDiff1 && prevDiff[..] == prevDiff1
      ensures inputWeightDiff[..] == inputWeightDiff1 && inputGateWeightDiff[..] == inputGateWeightDiff1
      ensures forgetGateWeightDiff[..] == forgetGateWeightDiff1 && outputGateWeightDiff[..] == outputGateWeightDiff1
    {
      Backward(input, prev, hiddenDiff, memory, memoryDiff, inputDiff, prevDiff);
      inputDiff1, prevDiff1 := inputDiff[..], prevDiff[..];
      inputWeightDiff1, inputGateWeightDiff1 := inputWeightDiff[..], inputGateWeightDiff[..];
      forgetGateWeightDiff1, outputGateWeightDiff1 := forgetGateWeightDiff[..], outputGateWeightDiff[..];
      Backward(input, prev, hiddenDiff, memory, memoryDiff, inputDiff, prevDiff);
    }
  }

  /** A new blob holding the values a filler produced. */
  method NewBlob(fill: seq<real>) returns (a: array<real>)
    ensures fresh(a) && a.Length == |fill| && forall i :: 0 <= i < |fill| ==> a[i] == fill[i]
  {
    a := new real[|fill|](i requires 0 <= i < |fill| => fill[i]);
  }

  /** Four new, distinct weight blobs holding what the four fillers produced. */
  method NewWeightBlobs(f1: seq<real>, f2: seq<real>, f3: seq<real>, f4: seq<real>)
    returns (a1: array<real>, a2: array<real>, a3: array<real>, a4: array<real>)
    ensures fresh(a1) && fresh(a2) && fresh(a3) && fresh(a4)
    ensures a1 != a2 && a1 != a3 && a1 != a4 && a2 != a3 && a2 != a4 && a3 != a4
    ensures a1[..] == f1 && a2[..] == f2 && a3[..] == f3 && a4[..] == f4
  {
    a1 := NewBlob(f1);
    a2 := NewBlob(f2);
    a3 := NewBlob(f3);
    a4 := NewBlob(f4);
    ArrayMatches(a1, f1);
    ArrayMatches(a2, f2);
    ArrayMatches(a3, f3);
    ArrayMatches(a4, f4);
  }

  /** Four new, distinct blobs of n elements each. */
  method NewBlobs(n: nat) returns (a1: array<real>, a2: array<real>, a3: array<real>, a4: array<real>)
    ensures fresh(a1) && fresh(a2) && fresh(a3) && fresh(a4)
    ensures a1 != a2 && a1 != a3 && a1 != a4 && a2 != a3 && a2 != a4 && a3 != a4
    ensures a1.Length == n && a2.Length == n && a3.Length == n && a4.Length == n
  {
    a1 := new real[n];
    a2 := new real[n];
    a3 := new real[n];
    a4 := new real[n];
  }

  /**
   * The element loop of Forward_cpu: every gate value is replaced by its
   * activation, then the memory and hidden tops are formed from the
   * activated gates of the same element.
   */
  method ActivateAndCombine(exp: Exponential, num: nat, channels: nat, S: nat, gatesData: array<real>,
                            prev: array<real>, hidden: array<real>, memory: array<real>)
    requires S == num * channels && gatesData.Length == 4 * S
    requires prev.Length == S && hidden.Length == S && memory.Length == S
    requires gatesData !in {prev, hidden, memory} && hidden != memory && hidden != prev && memory != prev
    modifies gatesData, hidden, memory
    ensures gatesData[..] == ActivatedGates(exp, old(gatesData[..]), S)
    ensures forall q :: 0 <= q < S ==> memory[q] == MemoryUpdate(prev[q], CellAt(gatesData[..], S, q))
    ensures forall q :: 0 <= q < S ==> hidden[q] == HiddenOutput(memory[q], CellAt(gatesData[..], S, q))
  {
    ghost var pre := gatesData[..];
    ghost var act := ActivatedGates(exp, pre, S);
    ghost var done := 0;
    var n := 0;
    while n < num
      invariant n <= num && done == n * channels <= S
      invariant forall p :: 0 <= p < 4 * S ==> gatesData[p] == PartlyActivated(pre, act, S, done, p)
      invariant forall q :: 0 <= q < done ==> memory[q] == MemoryUpdate(prev[q], CellAt(act, S, q))
      invariant forall q :: 0 <= q < done ==> hidden[q] == HiddenOutput(memory[q], CellAt(act, S, q))
    {
      var i := 0;
      while i < channels
        invariant i <= channels && done == n * channels + i <= S
        invariant forall p :: 0 <= p < 4 * S ==> gatesData[p] == PartlyActivated(pre, act, S, done, p)
        invariant forall q :: 0 <= q < done ==> memory[q] == MemoryUpdate(prev[q], CellAt(act, S, q))
        invariant forall q :: 0 <= q < done ==> hidden[q] == HiddenOutput(memory[q], CellAt(act, S, q))
      {
        var idx := i + n * channels;
        FlatIndexInRange(n, i, num, channels);
        ActivateElement(exp, S, gatesData, prev, hidden, memory, idx, pre, act);
        i, done := i + 1, done + 1;
      }
      assert (n + 1) * channels == n * channels + channels;
      MulMonotone(n + 1, num, channels);
      n := n + 1;
    }
    forall p | 0 <= p < 4 * S
      ensures gatesData[p] == act[p]
    {
      FullyActivated(pre, act, S, p);
    }
    assert gatesData[..] == act;
  }

  /**
   * One iteration of the element loop of Forward_cpu at `idx == i + n · channels`,
   * where S is the slice length: the four gate values of element idx are
   * activated, then written back together with the memory and hidden update.
   */
  method ActivateElement(exp: Exponential, S: nat, gatesData: array<real>,
                         prev: array<real>, hidden: array<real>, memory: array<real>, idx: nat, ghost pre: seq<real>, ghost act: seq<real>)
    requires gatesData.Length == 4 * S && |pre| == 4 * S && idx < S
    requires act == ActivatedGates(exp, pre, S)
    requires prev.Length == S && hidden.Length == S && memory.Length == S
    requires gatesData !in {prev, hidden, memory} && hidden != memory && hidden != prev && memory != prev
    requires forall p :: 0 <= p < 4 * S ==> gatesData[p] == PartlyActivated(pre, act, S, idx, p)
    modifies gatesData, hidden, memory
    ensures forall p :: 0 <= p < 4 * S ==> gatesData[p] == PartlyActivated(pre, act, S, idx + 1, p)
    ensures memory[idx] == MemoryUpdate(prev[idx], CellAt(act, S, idx))
    ensures hidden[idx] == HiddenOutput(memory[idx], CellAt(act, S, idx))
    ensures forall q :: 0 <= q < S && q != idx ==> memory[q] == old(memory[q]) && hidden[q] == old(hidden[q])
  {
    var inputGates, forgetGates, outputGates, inputValues :=
      Offset(InputGate, S), Offset(ForgetGate, S), Offset(OutputGate, S), Offset(InputValue, S);
    var preCell := CellGates(gatesData[inputGates + idx], gatesData[forgetGates + idx],
                             gatesData[outputGates + idx], gatesData[inputValues + idx]);
    PendingCellValues(pre, act, S, idx, preCell.ig, preCell.fg, preCell.og, preCell.iv);
    var cell := ActivateCell(exp, preCell);
    ActivatedGatesCell(exp, pre, S, idx);
    WriteElement(S, gatesData, prev, hidden, memory, idx, cell, pre, act);
  }

  /**
   * One iteration of the element loop of Forward_cpu at `idx == i + n · channels`,
   * where S is the slice length: element idx of the four slices receives the
   * activated values in `cell`, then memory and hidden receive their update.
   */
  method WriteElement(S: nat, gatesData: array<real>, prev: array<real>, hidden: array<real>, memory: array<real>,
                      idx: nat, cell: CellGates, ghost pre: seq<real>, ghost act: seq<real>)
    requires gatesData.Length == 4 * S && |pre| == 4 * S && |act| == 4 * S && idx < S
    requires prev.Length == S && hidden.Length == S && memory.Length == S
    requires gatesData !in {prev, hidden, memory} && hidden != memory && hidden != prev && memory != prev
    requires cell == CellAt(act, S, idx)
    requires forall p :: 0 <= p < 4 * S ==> gatesData[p] == PartlyActivated(pre, act, S, idx, p)
    modifies gatesData, hidden, memory
    ensures forall p :: 0 <= p < 4 * S ==> gatesData[p] == PartlyActivated(pre, act, S, idx + 1, p)
    ensures memory[idx] == MemoryUpdate(prev[idx], cell)
    ensures hidden[idx] == HiddenOutput(memory[idx], cell)
    ensures forall q :: 0 <= q < S && q != idx ==> memory[q] == old(memory[q]) && hidden[q] == old(hidden[q])
  {
    gatesData[Offset(InputGate, S) + idx] := cell.ig;
    gatesData[Offset(ForgetGate, S) + idx] := cell.fg;
    gatesData[Offset(OutputGate, S) + idx] := cell.og;
    gatesData[Offset(InputValue, S) + idx] := cell.iv;
    memory[idx] := MemoryUpdate(prev[idx], cell);
    hidden[idx] := HiddenOutput(memory[idx], cell);
    forall p | 0 <= p < 4 * S
      ensures gatesData[p] == PartlyActivated(pre, act, S, idx + 1, p)
    {
      PartlyActivatedStep(pre, act, S, idx, p);
    }
  }

  /**
   * With an all-zero weight blob the projection onto its gate is zero, so
   * the gate opens half-way and the input value is zero.
   */
  lemma ZeroWeightsGate(exp: Exponential, g: Gate, input: seq<real>, W: seq<real>,
                        num: nat, channels: nat, inputSize: nat, n: nat, i: nat)
    requires n < num && i < channels && |input| == num * inputSize && |W| == channels * inputSize
    requires forall p :: 0 <= p < |W| ==> W[p] == 0.0
    ensures Activation(g, exp, Dot(NoTrans, Trans, input, W, num, channels, inputSize, n, i, inputSize))
         == if g == InputValue then 0.0 else 0.5
  {
    DotZeroRight(NoTrans, Trans, input, W, num, channels, inputSize, n, i, inputSize);
    ActivationsAtZero(exp);
  }

  /**
   * With four all-zero weight blobs, an element whose gates are the
   * activated projections has its three gates half open and a zero input
   * value.
   */
  lemma ZeroWeightsCell(exp: Exponential, gates: seq<real>, input: seq<real>,
                        wIV: seq<real>, wIG: seq<real>, wFG: seq<real>, wOG: seq<real>,
                        num: nat, channels: nat, inputSize: nat, n: nat, i: nat)
    requires n < num && i < channels && |gates| == 4 * (num * channels) && |input| == num * inputSize
    requires |wIV| == |wIG| == |wFG| == |wOG| == channels * inputSize
    requires forall p :: 0 <= p < |wIV| ==> wIV[p] == 0.0 && wIG[p] == 0.0 && wFG[p] == 0.0 && wOG[p] == 0.0
    requires gates[Offset(InputGate, num * channels) + Flat(n, i, num, channels)]
          == Activation(InputGate, exp, Dot(NoTrans, Trans, input, wIG, num, channels, inputSize, n, i, inputSize))
    requires gates[Offset(ForgetGate, num * channels) + Flat(n, i, num, channels)]
          == Activation(ForgetGate, exp, Dot(NoTrans, Trans, input, wFG, num, channels, inputSize, n, i, inputSize))
    requires gates[Offset(OutputGate, num * channels) + Flat(n, i, num, channels)]
          == Activation(OutputGate, exp, Dot(NoTrans, Trans, input, wOG, num, channels, inputSize, n, i, inputSize))
    requires gates[Offset(InputValue, num * channels) + Flat(n, i, num, channels)]
          == Activation(InputValue, exp, Dot(NoTrans, Trans, input, wIV, num, channels, inputSize, n, i, inputSize))
    ensures CellAt(gates, num * channels, Flat(n, i, num, channels)) == CellGates(0.5, 0.5, 0.5, 0.0)
  {
    ZeroWeightsGate(exp, InputGate, input, wIG, num, channels, inputSize, n, i);
    ZeroWeightsGate(exp, ForgetGate, input, wFG, num, channels, inputSize, n, i);
    ZeroWeightsGate(exp, OutputGate, input, wOG, num, channels, inputSize, n, i);
    ZeroWeightsGate(exp, InputValue, input, wIV, num, channels, inputSize, n, i);
  }

  /** Half-open gates and a zero input value halve the memory, and the output gate halves it again. */
  lemma HalfOpen(prev: real, c: CellGates)
    requires c == CellGates(0.5, 0.5, 0.5, 0.0)
    ensures MemoryUpdate(prev, c) == prev * 0.5 && HiddenOutput(MemoryUpdate(prev, c), c) == MemoryUpdate(prev, c) * 0.5
  {
  }

  /** Element (c, l) of the weight gradient `grad^T · input`, with grad `num × channels` and input `num × inputSize`. */
  function WeightGrad(grad: seq<real>, input: seq<real>, num: nat, channels: nat, inputSize: nat, c: nat, l: nat): real
    requires c < channels && l < inputSize && |grad| == num * channels && |input| == num * inputSize
  {
    MulCommutes(num, channels);
    Dot(Trans, NoTrans, grad, input, channels, inputSize, num, c, l, num)
  }

  /** Element (n, l) of `grad · W`, the gradient passed back to the input, with W `channels × inputSize`. */
  function PullBack(grad: seq<real>, W: seq<real>, num: nat, channels: nat, inputSize: nat, n: nat, l: nat): real
    requires n < num && l < inputSize && |grad| == num * channels && |W| == channels * inputSize
  {
    Dot(NoTrans, NoTrans, grad, W, num, inputSize, channels, n, l, channels)
  }

  /** The whole weight gradient `grad^T · input`, a `channels × inputSize` matrix. */
  function WeightGrads(grad: seq<real>, input: seq<real>, num: nat, channels: nat, inputSize: nat): (w: seq<real>)
    requires |grad| == num * channels && |input| == num * inputSize
    ensures |w| == channels * inputSize
    ensures forall c, l :: 0 <= c < channels && 0 <= l < inputSize ==>
      w[Flat(c, l, channels, inputSize)] == WeightGrad(grad, input, num, channels, inputSize, c, l)
  {
    FlatInverses(channels, inputSize);
    seq(channels * inputSize, p requires 0 <= p < channels * inputSize =>
      FlatCovers(p, channels, inputSize);
      WeightGrad(grad, input, num, channels, inputSize, p / inputSize, p % inputSize))
  }

  /**
   * The whole input gradient, a `num × inputSize` matrix: the sum of the four
   * gates' `grad · W` in the order input value, input gate, forget gate,
   * output gate.
   */
  function InputGrads(gIV: seq<real>, gIG: seq<real>, gFG: seq<real>, gOG: seq<real>,
                      wIV: seq<real>, wIG: seq<real>, wFG: seq<real>, wOG: seq<real>,
                      num: nat, channels: nat, inputSize: nat): (d: seq<real>)
    requires |gIV| == |gIG| == |gFG| == |gOG| == num * channels
    requires |wIV| == |wIG| == |wFG| == |wOG| == channels * inputSize
    ensures |d| == num * inputSize
    ensures forall n, l :: 0 <= n < num && 0 <= l < inputSize ==>
      d[Flat(n, l, num, inputSize)]
        == PullBack(gIV, wIV, num, channels, inputSize, n, l) + PullBack(gIG, wIG, num, channels, inputSize, n, l)
         + PullBack(gFG, wFG, num, channels, inputSize, n, l) + PullBack(gOG, wOG, num, channels, inputSize, n, l)
  {
    FlatInverses(num, inputSize);
    seq(num * inputSize, p requires 0 <= p < num * inputSize =>
      FlatCovers(p, num, inputSize);
      var n, l := p / inputSize, p % inputSize;
      PullBack(gIV, wIV, num, channels, inputSize, n, l) + PullBack(gIG, wIG, num, channels, inputSize, n, l)
      + PullBack(gFG, wFG, num, channels, inputSize, n, l) + PullBack(gOG, wOG, num, channels, inputSize, n, l))
  }

  lemma MulCommutes(a: nat, b: nat)
    ensures a * b == b * a
  {
  }

  /**
   * The gate derivative loop of Backward_cpu: every position of the gate
   * derivative buffer receives the derivative of its gate's activation,
   * taken from the activated value in the gate buffer.
   */
  method GateDerivatives(num: nat, channels: nat, S: nat, gatesData: array<real>, gatesDiff: array<real>)
    requires S == num * channels && gatesData.Length == 4 * S && gatesDiff.Length == 4 * S
    requires gatesData != gatesDiff
    modifies gatesDiff
    ensures forall p :: 0 <= p < 4 * S ==> gatesDiff[p] == ActivationDiff(GateOfPos(p, S), gatesData[p])
  {
    ghost var done := 0;
    var n := 0;
    while n < num
      invariant n <= num && done == n * channels <= S
      invariant forall p :: 0 <= p < 4 * S && p - Offset(GateOfPos(p, S), S) < done ==>
        gatesDiff[p] == ActivationDiff(GateOfPos(p, S), gatesData[p])
    {
      var i := 0;
      while i < channels
        invariant i <= channels && done == n * channels + i <= S
        invariant forall p :: 0 <= p < 4 * S && p - Offset(GateOfPos(p, S), S) < done ==>
          gatesDiff[p] == ActivationDiff(GateOfPos(p, S), gatesData[p])
      {
        var idx := i + n * channels;
        FlatIndexInRange(n, i, num, channels);
        DiffElement(S, gatesData, gatesDiff, idx);
        i, done := i + 1, done + 1;
      }
      assert (n + 1) * channels == n * channels + channels;
      MulMonotone(n + 1, num, channels);
      n := n + 1;
    }
  }

  /** One iteration of the gate derivative loop, at `idx == i + n · channels`. */
  method DiffElement(S: nat, gatesData: array<real>, gatesDiff: array<real>, idx: nat)
    requires gatesData.Length == 4 * S && gatesDiff.Length == 4 * S && gatesData != gatesDiff && idx < S
    requires forall p :: 0 <= p < 4 * S && p - Offset(GateOfPos(p, S), S) < idx ==>
      gatesDiff[p] == ActivationDiff(GateOfPos(p, S), gatesData[p])
    modifies gatesDiff
    ensures forall p :: 0 <= p < 4 * S && p - Offset(GateOfPos(p, S), S) < idx + 1 ==>
      gatesDiff[p] == ActivationDiff(GateOfPos(p, S), gatesData[p])
  {
    var inputGates, forgetGates, outputGates, inputValues :=
      Offset(InputGate, S), Offset(ForgetGate, S), Offset(OutputGate, S), Offset(InputValue, S);
    gatesDiff[inputGates + idx] := SigmoidDiff(gatesData[inputGates + idx]);
    gatesDiff[forgetGates + idx] := SigmoidDiff(gatesData[forgetGates + idx]);
    gatesDiff[outputGates + idx] := SigmoidDiff(gatesData[outputGates + idx]);
    gatesDiff[inputValues + idx] := TanhDiff(gatesData[inputValues + idx]);
  }

  /**
   * The state gradients of Backward_cpu: `tot = memoryDiff + og · hiddenDiff`
   * (a mul into the scratch buffer, then an add in place), and the
   * previous-state gradient `tot · fg`. The ghost sequences are the contents
   * of the three buffers that are only read.
   */
  method StateGradients(S: nat, gatesData: array<real>, hiddenDiff: array<real>, memoryDiff: array<real>,
                        totDiff: array<real>, prevDiff: array<real>,
                        ghost gates: seq<real>, ghost hd: seq<real>, ghost md: seq<real>)
    requires totDiff.Length == S && prevDiff.Length == S
    requires gatesData.Length == |gates| == 4 * S && forall p :: 0 <= p < 4 * S ==> gatesData[p] == gates[p]
    requires hiddenDiff.Length == |hd| == S && forall q :: 0 <= q < S ==> hiddenDiff[q] == hd[q]
    requires memoryDiff.Length == |md| == S && forall q :: 0 <= q < S ==> memoryDiff[q] == md[q]
    requires totDiff !in {gatesData, hiddenDiff, memoryDiff, prevDiff}
    requires prevDiff !in {gatesData, hiddenDiff, memoryDiff}
    modifies totDiff, prevDiff
    ensures forall q :: 0 <= q < S ==> totDiff[q] == TotalStateGrads(gates, hd, md, S)[q]
    ensures forall q :: 0 <= q < S ==> prevDiff[q] == PrevStateGrads(gates, hd, md, S)[q]
  {
    TotalGradient(S, gatesData, hiddenDiff, memoryDiff, totDiff, gates, hd, md);
    Mul(S, totDiff, 0, gatesData, Offset(ForgetGate, S), prevDiff);
    forall q | 0 <= q < S
      ensures prevDiff[q] == PrevStateGrads(gates, hd, md, S)[q]
    {
      assert prevDiff[q] == totDiff[q] * gates[S + q];
    }
  }

  /** The first half of StateGradients: `tot = og · hiddenDiff`, then `tot = memoryDiff + tot`. */
  method TotalGradient(S: nat, gatesData: array<real>, hiddenDiff: array<real>, memoryDiff: array<real>,
                       totDiff: array<real>, ghost gates: seq<real>, ghost hd: seq<real>, ghost md: seq<real>)
    requires totDiff.Length == S
    requires gatesData.Length == |gates| == 4 * S && forall p :: 0 <= p < 4 * S ==> gatesData[p] == gates[p]
    requires hiddenDiff.Length == |hd| == S && forall q :: 0 <= q < S ==> hiddenDiff[q] == hd[q]
    requires memoryDiff.Length == |md| == S && forall q :: 0 <= q < S ==> memoryDiff[q] == md[q]
    requires totDiff !in {gatesData, hiddenDiff, memoryDiff}
    modifies totDiff
    ensures forall q :: 0 <= q < S ==> totDiff[q] == TotalStateGrads(gates, hd, md, S)[q]
  {
    Mul(S, gatesData, Offset(OutputGate, S), hiddenDiff, 0, totDiff);
    Add(S, memoryDiff, totDiff, totDiff);
    forall q | 0 <= q < S
      ensures totDiff[q] == TotalStateGrads(gates, hd, md, S)[q]
    {
      var c := CellAt(gates, S, q);
      assert totDiff[q] == md[q] + c.og * hd[q];
    }
  }

  /**
   * The body of Backward_cpu on explicit buffers: S is the number of cells,
   * `num · channels`; the weight blobs are `wIV`, `wIG`, `wFG`, `wOG` and
   * their diffs `dIV`, `dIG`, `dFG`, `dOG`. The ghost sequences are the
   * contents of the buffers that are only read.
   */
  method BackwardPass(num: nat, channels: nat, inputSize: nat,
                      gatesData: array<real>, gatesDiff: array<real>, totDiff: array<real>, dldg: array<real>,
                      input: array<real>, prev: array<real>, hiddenDiff: array<real>,
                      memory: array<real>, memoryDiff: array<real>, inputDiff: array<real>, prevDiff: array<real>,
                      wIV: array<real>, wIG: array<real>, wFG: array<real>, wOG: array<real>,
                      dIV: array<real>, dIG: array<real>, dFG: array<real>, dOG: array<real>,
                      ghost gates: seq<real>, ghost hd: seq<real>, ghost md: seq<real>, ghost pv: seq<real>, ghost mem: seq<real>,
                      ghost x: seq<real>, ghost vIV: seq<real>, ghost vIG: seq<real>, ghost vFG: seq<real>, ghost vOG: seq<real>)
    requires gatesDiff.Length == 4 * (num * channels)
    requires totDiff.Length == num * channels && dldg.Length == num * channels
    requires inputDiff.Length == num * inputSize && prevDiff.Length == num * channels
    requires dIV.Length == channels * inputSize && dIG.Length == channels * inputSize
    requires dFG.Length == channels * inputSize && dOG.Length == channels * inputSize
    requires gatesData.Length == |gates| == 4 * (num * channels) && forall p :: 0 <= p < |gates| ==> gatesData[p] == gates[p]
    requires hiddenDiff.Length == |hd| == num * channels && forall q :: 0 <= q < |hd| ==> hiddenDiff[q] == hd[q]
    requires memoryDiff.Length == |md| == num * channels && forall q :: 0 <= q < |md| ==> memoryDiff[q] == md[q]
    requires prev.Length == |pv| == num * channels && forall q :: 0 <= q < |pv| ==> prev[q] == pv[q]
    requires memory.Length == |mem| == num * channels && forall q :: 0 <= q < |mem| ==> memory[q] == mem[q]
    requires input.Length == |x| == num * inputSize && forall p :: 0 <= p < |x| ==> input[p] == x[p]
    requires wIV.Length == |vIV| == channels * inputSize && forall p :: 0 <= p < |vIV| ==> wIV[p] == vIV[p]
    requires wIG.Length == |vIG| == channels * inputSize && forall p :: 0 <= p < |vIG| ==> wIG[p] == vIG[p]
    requires wFG.Length == |vFG| == channels * inputSize && forall p :: 0 <= p < |vFG| ==> wFG[p] == vFG[p]
    requires wOG.Length == |vOG| == channels * inputSize && forall p :: 0 <= p < |vOG| ==> wOG[p] == vOG[p]
    requires gatesDiff !in {gatesData, input, prev, hiddenDiff, memory, memoryDiff, wIV, wIG, wFG, wOG}
    requires totDiff !in {gatesData, gatesDiff, input, prev, hiddenDiff, memory, memoryDiff, wIV, wIG, wFG, wOG}
    requires prevDiff !in {gatesData, gatesDiff, totDiff, input, prev, hiddenDiff, memory, memoryDiff, wIV, wIG, wFG, wOG}
    requires dldg !in {gatesData, gatesDiff, totDiff, prevDiff, input, prev, hiddenDiff, memory, memoryDiff, wIV, wIG, wFG, wOG}
    requires inputDiff !in {gatesData, gatesDiff, totDiff, prevDiff, dldg, input, prev, hiddenDiff, memory, memoryDiff, wIV, wIG, wFG, wOG}
    requires dIV !in {gatesData, gatesDiff, totDiff, prevDiff, dldg, inputDiff, input, prev, hiddenDiff, memory, memoryDiff, wIV, wIG, wFG, wOG}
    requires dIG !in {gatesData, gatesDiff, totDiff, prevDiff, dldg, inputDiff, dIV, input, prev, hiddenDiff, memory, memoryDiff, wIV, wIG, wFG, wOG}
    requires dFG !in {gatesData, gatesDiff, totDiff, prevDiff, dldg, inputDiff, dIV, dIG, input, prev, hiddenDiff, memory, memoryDiff, wIV, wIG, wFG, wOG}
    requires dOG !in {gatesData, gatesDiff, totDiff, prevDiff, dldg, inputDiff, dIV, dIG, dFG, input, prev, hiddenDiff, memory, memoryDiff, wIV, wIG, wFG, wOG}
    modifies gatesDiff, totDiff, dldg, inputDiff, prevDiff, dIV, dIG, dFG, dOG
    ensures forall p :: 0 <= p < 4 * (num * channels) ==> gatesDiff[p] == GateDiffs(gates, num * channels)[p]
    ensures forall q :: 0 <= q < num * channels ==> totDiff[q] == TotalStateGrads(gates, hd, md, num * channels)[q]
    ensures forall q :: 0 <= q < num * channels ==> prevDiff[q] == PrevStateGrads(gates, hd, md, num * channels)[q]
    ensures forall c, l :: 0 <= c < channels && 0 <= l < inputSize ==>
      dIV[Flat(c, l, channels, inputSize)] == WeightGrad(LocalGrad(InputValue, gates, hd, md, pv, mem, num * channels), x, num, channels, inputSize, c, l)
    ensures forall c, l :: 0 <= c < channels && 0 <= l < inputSize ==>
      dIG[Flat(c, l, channels, inputSize)] == WeightGrad(LocalGrad(InputGate, gates, hd, md, pv, mem, num * channels), x, num, channels, inputSize, c, l)
    ensures forall c, l :: 0 <= c < channels && 0 <= l < inputSize ==>
      dFG[Flat(c, l, channels, inputSize)] == WeightGrad(LocalGrad(ForgetGate, gates, hd, md, pv, mem, num * channels), x, num, channels, inputSize, c, l)
    ensures forall c, l :: 0 <= c < channels && 0 <= l < inputSize ==>
      dOG[Flat(c, l, channels, inputSize)] == WeightGrad(LocalGrad(OutputGate, gates, hd, md, pv, mem, num * channels), x, num, channels, inputSize, c, l)
    ensures forall n, l :: 0 <= n < num && 0 <= l < inputSize ==>
      inputDiff[Flat(n, l, num, inputSize)]
        == PullBack(LocalGrad(InputValue, gates, hd, md, pv, mem, num * channels), vIV, num, channels, inputSize, n, l)
         + PullBack(LocalGrad(InputGate, gates, hd, md, pv, mem, num * channels), vIG, num, channels, inputSize, n, l)
         + PullBack(LocalGrad(ForgetGate, gates, hd, md, pv, mem, num * channels), vFG, num, channels, inputSize, n, l)
         + PullBack(LocalGrad(OutputGate, gates, hd, md, pv, mem, num * channels), vOG, num, channels, inputSize, n, l)
    ensures forall q :: 0 <= q < num * channels ==> dldg[q] == LocalGrad(OutputGate, gates, hd, md, pv, mem, num * channels)[q]
  {
    var S := num * channels;
    Set(inputDiff.Length, 0.0, inputDiff);
    Set(prevDiff.Length, 0.0, prevDiff);
    Set(dIV.Length, 0.0, dIV);
    Set(dIG.Length, 0.0, dIG);
    Set(dFG.Length, 0.0, dFG);
    Set(dOG.Length, 0.0, dOG);
    GateDerivatives(num, channels, S, gatesData, gatesDiff);
    StateGradients(S, gatesData, hiddenDiff, memoryDiff, totDiff, prevDiff, gates, hd, md);
    ghost var diffs, tot := GateDiffs(gates, S), TotalStateGrads(gates, hd, md, S);
    BackpropGates(num, channels, inputSize, S, gatesData, gatesDiff, totDiff, hiddenDiff, prev, memory, dldg, input,
                  wIV, wIG, wFG, wOG, dIV, dIG, dFG, dOG, inputDiff,
                  gates, diffs, tot, hd, pv, mem, x, vIV, vIG, vFG, vOG,
                  LocalGrad(InputValue, gates, hd, md, pv, mem, S), LocalGrad(InputGate, gates, hd, md, pv, mem, S),
                  LocalGrad(ForgetGate, gates, hd, md, pv, mem, S), LocalGrad(OutputGate, gates, hd, md, pv, mem, S));
  }

  /**
   * The four gate blocks of Backward_cpu, in the order input value, input
   * gate, forget gate, output gate, onto an input diff that starts at zero.
   * The local gradients are given by the buffers they are formed from.
   */
  method BackpropGates(num: nat, channels: nat, inputSize: nat, S: nat,
                       gatesData: array<real>, gatesDiff: array<real>, totDiff: array<real>,
                       hiddenDiff: array<real>, prev: array<real>, memory: array<real>,
                       dldg: array<real>, input: array<real>,
                       wIV: array<real>, wIG: array<real>, wFG: array<real>, wOG: array<real>,
                       dIV: array<real>, dIG: array<real>, dFG: array<real>, dOG: array<real>,
                       inputDiff: array<real>,
                       ghost gates: seq<real>, ghost diffs: seq<real>, ghost tot: seq<real>,
                       ghost hd: seq<real>, ghost pv: seq<real>, ghost mem: seq<real>,
                       ghost x: seq<real>, ghost vIV: seq<real>, ghost vIG: seq<real>, ghost vFG: seq<real>, ghost vOG: seq<real>,
                       ghost gIV: seq<real>, ghost gIG: seq<real>, ghost gFG: seq<real>, ghost gOG: seq<real>)
    requires S == num * channels && gatesData.Length == 4 * S && gatesDiff.Length == 4 * S
    requires totDiff.Length == S && hiddenDiff.Length == S && prev.Length == S && memory.Length == S && dldg.Length == S
    requires input.Length == num * inputSize && inputDiff.Length == num * inputSize
    requires wIV.Length == channels * inputSize && wIG.Length == channels * inputSize
    requires wFG.Length == channels * inputSize && wOG.Length == channels * inputSize
    requires dIV.Length == channels * inputSize && dIG.Length == channels * inputSize
    requires dFG.Length == channels * inputSize && dOG.Length == channels * inputSize
    requires dldg !in {gatesData, gatesDiff, totDiff, hiddenDiff, prev, memory, input, wIV, wIG, wFG, wOG, dIV, dIG, dFG, dOG, inputDiff}
    requires inputDiff !in {gatesData, gatesDiff, totDiff, hiddenDiff, prev, memory, input, wIV, wIG, wFG, wOG, dIV, dIG, dFG, dOG}
    requires dIV !in {gatesData, gatesDiff, totDiff, hiddenDiff, prev, memory, input, wIV, wIG, wFG, wOG, dIG, dFG, dOG}
    requires dIG !in {gatesData, gatesDiff, totDiff, hiddenDiff, prev, memory, input, wIV, wIG, wFG, wOG, dFG, dOG}
    requires dFG !in {gatesData, gatesDiff, totDiff, hiddenDiff, prev, memory, input, wIV, wIG, wFG, wOG, dOG}
    requires dOG !in {gatesData, gatesDiff, totDiff, hiddenDiff, prev, memory, input, wIV, wIG, wFG, wOG}
    requires |gates| == 4 * S && forall p :: 0 <= p < 4 * S ==> gatesData[p] == gates[p]
    requires |diffs| == 4 * S && forall p :: 0 <= p < 4 * S ==> gatesDiff[p] == diffs[p]
    requires |tot| == S && forall q :: 0 <= q < S ==> totDiff[q] == tot[q]
    requires |hd| == S && forall q :: 0 <= q < S ==> hiddenDiff[q] == hd[q]
    requires |pv| == S && forall q :: 0 <= q < S ==> prev[q] == pv[q]
    requires |mem| == S && forall q :: 0 <= q < S ==> memory[q] == mem[q]
    requires |x| == input.Length && forall p :: 0 <= p < |x| ==> input[p] == x[p]
    requires |vIV| == wIV.Length && forall p :: 0 <= p < |vIV| ==> wIV[p] == vIV[p]
    requires |vIG| == wIG.Length && forall p :: 0 <= p < |vIG| ==> wIG[p] == vIG[p]
    requires |vFG| == wFG.Length && forall p :: 0 <= p < |vFG| ==> wFG[p] == vFG[p]
    requires |vOG| == wOG.Length && forall p :: 0 <= p < |vOG| ==> wOG[p] == vOG[p]
    requires gIV == ScaledProducts(tot, gates, Offset(InputGate, S), diffs, Offset(InputValue, S), S)
    requires gIG == ScaledProducts(tot, diffs, Offset(InputGate, S), gates, Offset(InputValue, S), S)
    requires gFG == ScaledProducts(tot, diffs, Offset(ForgetGate, S), pv, 0, S)
    requires gOG == ScaledProducts(hd, diffs, Offset(OutputGate, S), mem, 0, S)
    requires forall p :: 0 <= p < inputDiff.Length ==> inputDiff[p] == 0.0
    modifies dldg, dIV, dIG, dFG, dOG, inputDiff
    ensures forall q :: 0 <= q < S ==> dldg[q] == gOG[q]
    ensures forall c, l :: 0 <= c < channels && 0 <= l < inputSize ==>
      dIV[Flat(c, l, channels, inputSize)] == WeightGrad(gIV, x, num, channels, inputSize, c, l)
    ensures forall c, l :: 0 <= c < channels && 0 <= l < inputSize ==>
      dIG[Flat(c, l, channels, inputSize)] == WeightGrad(gIG, x, num, channels, inputSize, c, l)
    ensures forall c, l :: 0 <= c < channels && 0 <= l < inputSize ==>
      dFG[Flat(c, l, channels, inputSize)] == WeightGrad(gFG, x, num, channels, inputSize, c, l)
    ensures forall c, l :: 0 <= c < channels && 0 <= l < inputSize ==>
      dOG[Flat(c, l, channels, inputSize)] == WeightGrad(gOG, x, num, channels, inputSize, c, l)
    ensures forall n, l :: 0 <= n < num && 0 <= l < inputSize ==>
      inputDiff[Flat(n, l, num, inputSize)]
        == PullBack(gIV, vIV, num, channels, inputSize, n, l) + PullBack(gIG, vIG, num, channels, inputSize, n, l)
         + PullBack(gFG, vFG, num, channels, inputSize, n, l) + PullBack(gOG, vOG, num, channels, inputSize, n, l)
  {
    BackpropGate(num, channels, inputSize, S, gatesData, Offset(InputGate, S), gatesDiff, Offset(InputValue, S),
                 totDiff, dldg, input, wIV, dIV, inputDiff, gIV, gates, diffs, tot, x, vIV);
    BackpropGate(num, channels, inputSize, S, gatesDiff, Offset(InputGate, S), gatesData, Offset(InputValue, S),
                 totDiff, dldg, input, wIG, dIG, inputDiff, gIG, diffs, gates, tot, x, vIG);
    BackpropGate(num, channels, inputSize, S, gatesDiff, Offset(ForgetGate, S), prev, 0,
                 totDiff, dldg, input, wFG, dFG, inputDiff, gFG, diffs, pv, tot, x, vFG);
    BackpropGate(num, channels, inputSize, S, gatesDiff, Offset(OutputGate, S), memory, 0,
                 hiddenDiff, dldg, input, wOG, dOG, inputDiff, gOG, diffs, mem, hd, x, vOG);
  }

  /**
   * One gate block of Backward_cpu: `dldg = scale · (left · right)` element by
   * element (two muls), the weight diff becomes `dldg^T · input` (gemm
   * Trans/NoTrans, beta 0) and `dldg · W` is added onto the input diff (gemm
   * NoTrans/NoTrans, beta 1).
   */
  method BackpropGate(num: nat, channels: nat, inputSize: nat, S: nat,
                      left: array<real>, leftOff: nat, right: array<real>, rightOff: nat, scale: array<real>,
                      dldg: array<real>, input: array<real>, W: array<real>, Wdiff: array<real>, inputDiff: array<real>,
                      ghost grad: seq<real>, ghost l: seq<real>, ghost r: seq<real>, ghost sc: seq<real>,
                      ghost x: seq<real>, ghost w: seq<real>)
    requires S == num * channels && dldg.Length == S && scale.Length == S
    requires leftOff + S <= left.Length && rightOff + S <= right.Length
    requires input.Length == num * inputSize && inputDiff.Length == num * inputSize
    requires W.Length == channels * inputSize && Wdiff.Length == channels * inputSize
    requires dldg !in {left, right, scale, input, W, Wdiff, inputDiff}
    requires Wdiff !in {input, W, inputDiff, left, right, scale}
    requires inputDiff !in {input, W, left, right, scale}
    requires |l| == left.Length && forall p :: 0 <= p < |l| ==> left[p] == l[p]
    requires |r| == right.Length && forall p :: 0 <= p < |r| ==> right[p] == r[p]
    requires |sc| == S && forall q :: 0 <= q < S ==> scale[q] == sc[q]
    requires grad == ScaledProducts(sc, l, leftOff, r, rightOff, S)
    requires |x| == input.Length && forall p :: 0 <= p < |x| ==> input[p] == x[p]
    requires |w| == W.Length && forall p :: 0 <= p < |w| ==> W[p] == w[p]
    modifies dldg, Wdiff, inputDiff
    ensures forall q :: 0 <= q < S ==> dldg[q] == grad[q]
    ensures forall c, l :: 0 <= c < channels && 0 <= l < inputSize ==>
      Wdiff[Flat(c, l, channels, inputSize)] == WeightGrad(grad, x, num, channels, inputSize, c, l)
    ensures forall n, l :: 0 <= n < num && 0 <= l < inputSize ==>
      inputDiff[Flat(n, l, num, inputSize)]
        == old(inputDiff[Flat(n, l, num, inputSize)]) + PullBack(grad, w, num, channels, inputSize, n, l)
  {
    assert forall q :: 0 <= q < S ==> grad[q] == scale[q] * (left[leftOff + q] * right[rightOff + q]);
    ScaledProduct(S, left, leftOff, right, rightOff, scale, dldg, grad);
    MulCommutes(num, channels);
    ArrayMatches(input, x);
    Gemm(Trans, NoTrans, channels, inputSize, num, 1.0, dldg, input, 0.0, Wdiff, 0);
    ArrayMatches(dldg, grad);
    ArrayMatches(W, w);
    Gemm(NoTrans, NoTrans, num, inputSize, channels, 1.0, dldg, W, 1.0, inputDiff, 0);
  }

  /** The two muls of a gate block: `dldg = left · right`, then `dldg = scale · dldg`. */
  method ScaledProduct(S: nat, left: array<real>, leftOff: nat, right: array<real>, rightOff: nat,
                       scale: array<real>, dldg: array<real>, ghost grad: seq<real>)
    requires dldg.Length == S && scale.Length == S
    requires leftOff + S <= left.Length && rightOff + S <= right.Length
    requires dldg !in {left, right, scale}
    requires |grad| == S && forall q :: 0 <= q < S ==> grad[q] == scale[q] * (left[leftOff + q] * right[rightOff + q])
    modifies dldg
    ensures forall q :: 0 <= q < S ==> dldg[q] == grad[q]
  {
    Mul(S, left, leftOff, right, rightOff, dldg);
    assert forall q :: 0 <= q < S ==> dldg[q] == left[leftOff + q] * right[rightOff + q];
    Mul(S, scale, 0, dldg, 0, dldg);
  }
}
