/**
 * The value-level description of one LSTM step, independent of how the layer
 * stores it: the four gates, where each gate's slice lives in the shared gate
 * buffer, the cell equations the forward pass evaluates per element, and the
 * local gradients the backward pass computes per element.
 */
module LstmCell {
  import opened Activations

  /**
   * The four gate blocks. The gate buffer holds them in this order, each a
   * `num × channels` slice: input gate, forget gate, output gate, input value.
   */
  datatype Gate = InputGate | ForgetGate | OutputGate | InputValue

  /** Start of a gate's slice in a gate buffer whose slices hold S elements each. */
  function Offset(g: Gate, S: nat): (o: nat)
    ensures o + S <= 4 * S
  {
    match g
    case InputGate => 0
    case ForgetGate => S
    case OutputGate => 2 * S
    case InputValue => 3 * S
  }

  /** The gate whose slice holds position p of the gate buffer. */
  function GateOfPos(p: nat, S: nat): (g: Gate)
    requires p < 4 * S
    ensures Offset(g, S) <= p < Offset(g, S) + S
  {
    if p < S then InputGate
    else if p < 2 * S then ForgetGate
    else if p < 3 * S then OutputGate
    else InputValue
  }

  /** The four slices partition the buffer: the slice of g holds exactly g's positions. */
  lemma SlicesPartition(g: Gate, S: nat, q: nat)
    requires q < S
    ensures Offset(g, S) + q < 4 * S
    ensures GateOfPos(Offset(g, S) + q, S) == g
  {
  }

  /** The three gates squash with the sigmoid, the input value with tanh. */
  function Activation(g: Gate, exp: Exponential, x: real): (y: real)
    ensures g != InputValue ==> 0.0 < y < 1.0
    ensures g == InputValue ==> -1.0 <= y <= 1.0
  {
    if g == InputValue then Tanh(exp, x) else Sigmoid(exp, x)
  }

  /** The derivative of a gate's activation, taken from the activated value. */
  function ActivationDiff(g: Gate, y: real): (d: real)
    ensures g != InputValue && 0.0 < y < 1.0 ==> 0.0 < d <= 0.25
    ensures g == InputValue && -1.0 <= y <= 1.0 ==> 0.0 <= d <= 1.0
  {
    if g == InputValue then TanhDiff(y) else SigmoidDiff(y)
  }

  /** The derivative from the stored output equals the derivative in the pre-activation. */
  lemma ActivationDiffOfOutput(g: Gate, exp: Exponential, x: real)
    ensures g != InputValue ==>
      ActivationDiff(g, Activation(g, exp, x)) == exp(-x) / ((1.0 + exp(-x)) * (1.0 + exp(-x)))
    ensures g == InputValue && Abs(x) < 5.0 ==>
      ActivationDiff(g, Activation(g, exp, x)) == 4.0 * exp(2.0 * x) / ((exp(2.0 * x) + 1.0) * (exp(2.0 * x) + 1.0))
    ensures g == InputValue && Abs(x) >= 5.0 ==> ActivationDiff(g, Activation(g, exp, x)) == 0.0
  {
    if g == InputValue {
      TanhDiffOfOutput(exp, x);
    } else {
      SigmoidDiffOfOutput(exp, x);
    }
  }

  // ---------------------------------------------------------------------
  // The cell equations of one element

  /** The activated gate values of one element. */
  datatype CellGates = CellGates(ig: real, fg: real, og: real, iv: real)
  {
    function Get(g: Gate): real
    {
      match g
      case InputGate => ig
      case ForgetGate => fg
      case OutputGate => og
      case InputValue => iv
    }

    function With(g: Gate, v: real): (c: CellGates)
      ensures c.Get(g) == v
      ensures forall h :: h != g ==> c.Get(h) == Get(h)
    {
      match g
      case InputGate => this.(ig := v)
      case ForgetGate => this.(fg := v)
      case OutputGate => this.(og := v)
      case InputValue => this.(iv := v)
    }
  }

  /** The element of gate g at position q of each slice of a gate buffer. */
  function CellAt(gates: seq<real>, S: nat, q: nat): (c: CellGates)
    requires |gates| == 4 * S && q < S
  {
    CellGates(gates[q], gates[S + q], gates[2 * S + q], gates[3 * S + q])
  }

  /** Each gate of the cell at q is element q of that gate's own slice. */
  lemma CellAtSlices(gates: seq<real>, S: nat, q: nat)
    requires |gates| == 4 * S && q < S
    ensures forall g :: CellAt(gates, S, q).Get(g) == gates[Offset(g, S) + q]
  {
    forall g
      ensures CellAt(gates, S, q).Get(g) == gates[Offset(g, S) + q]
    {
      SlicesPartition(g, S, q);
    }
  }

  /** Activated values: the three gates in (0, 1), the input value in [-1, 1]. */
  predicate Activated(c: CellGates)
  {
    0.0 < c.ig < 1.0 && 0.0 < c.fg < 1.0 && 0.0 < c.og < 1.0 && -1.0 <= c.iv <= 1.0
  }

  /** The four gate values of one element, activated: sigmoid on the three gates, tanh on the input value. */
  function ActivateCell(exp: Exponential, c: CellGates): (a: CellGates)
    ensures Activated(a)
    ensures forall g :: a.Get(g) == Activation(g, exp, c.Get(g))
  {
    CellGates(Sigmoid(exp, c.ig), Sigmoid(exp, c.fg), Sigmoid(exp, c.og), Tanh(exp, c.iv))
  }

  /** The whole gate buffer activated: every position by the activation of the slice it lies in. */
  function ActivatedGates(exp: Exponential, pre: seq<real>, S: nat): (a: seq<real>)
    requires |pre| == 4 * S
    ensures |a| == 4 * S
    ensures forall p :: 0 <= p < 4 * S ==> a[p] == Activation(GateOfPos(p, S), exp, pre[p])
  {
    seq(4 * S, p requires 0 <= p < 4 * S => Activation(GateOfPos(p, S), exp, pre[p]))
  }

  /** Element q of the activated buffer is element q of the buffer, activated. */
  lemma ActivatedGatesCell(exp: Exponential, pre: seq<real>, S: nat, q: nat)
    requires |pre| == 4 * S && q < S
    ensures CellAt(ActivatedGates(exp, pre, S), S, q) == ActivateCell(exp, CellAt(pre, S, q))
  {
    var a := ActivatedGates(exp, pre, S);
    forall g
      ensures a[Offset(g, S) + q] == Activation(g, exp, pre[Offset(g, S) + q])
    {
      SlicesPartition(g, S, q);
    }
  }

  /**
   * Position p of the gate buffer part-way through the forward element loop:
   * the first `done` elements of every slice hold their activated value from
   * `act`, the rest still hold the pre-activation from `pre`.
   */
  function PartlyActivated(pre: seq<real>, act: seq<real>, S: nat, done: nat, p: nat): real
    requires |pre| == 4 * S && |act| == 4 * S && p < 4 * S
  {
    if p - Offset(GateOfPos(p, S), S) < done then act[p] else pre[p]
  }

  /** One step of the element loop activates element `done` of each of the four slices and nothing else. */
  lemma PartlyActivatedStep(pre: seq<real>, act: seq<real>, S: nat, done: nat, p: nat)
    requires |pre| == 4 * S && |act| == 4 * S && done < S && p < 4 * S
    ensures PartlyActivated(pre, act, S, done + 1, p) ==
      if p == done || p == S + done || p == 2 * S + done || p == 3 * S + done then act[p]
      else PartlyActivated(pre, act, S, done, p)
  {
  }

  /** Before step `done`, element `done` of every slice still holds its pre-activation. */
  lemma PendingCell(pre: seq<real>, act: seq<real>, S: nat, done: nat, g: Gate)
    requires |pre| == 4 * S && |act| == 4 * S && done < S
    ensures Offset(g, S) + done < 4 * S
    ensures PartlyActivated(pre, act, S, done, Offset(g, S) + done) == pre[Offset(g, S) + done]
  {
    SlicesPartition(g, S, done);
  }

  /** Before step `done`, the four values of element `done` in the buffer form its pre-activation cell. */
  lemma PendingCellValues(pre: seq<real>, act: seq<real>, S: nat, done: nat, ig: real, fg: real, og: real, iv: real)
    requires |pre| == 4 * S && |act| == 4 * S && done < S
    requires ig == PartlyActivated(pre, act, S, done, Offset(InputGate, S) + done)
    requires fg == PartlyActivated(pre, act, S, done, Offset(ForgetGate, S) + done)
    requires og == PartlyActivated(pre, act, S, done, Offset(OutputGate, S) + done)
    requires iv == PartlyActivated(pre, act, S, done, Offset(InputValue, S) + done)
    ensures CellGates(ig, fg, og, iv) == CellAt(pre, S, done)
  {
    PendingCell(pre, act, S, done, InputGate);
    PendingCell(pre, act, S, done, ForgetGate);
    PendingCell(pre, act, S, done, OutputGate);
    PendingCell(pre, act, S, done, InputValue);
  }

  /** After all S steps every position holds its activated value. */
  lemma FullyActivated(pre: seq<real>, act: seq<real>, S: nat, p: nat)
    requires |pre| == 4 * S && |act| == 4 * S && p < 4 * S
    ensures PartlyActivated(pre, act, S, S, p) == act[p]
  {
  }

  /** The new memory state: the forgotten old state plus the gated input value. */
  function MemoryUpdate(prev: real, c: CellGates): real
  {
    prev * c.fg + c.ig * c.iv
  }

  /** The new hidden state: the memory state passed through the output gate. */
  function HiddenOutput(mem: real, c: CellGates): real
  {
    mem * c.og
  }

  /** Scaling by a factor in [0, 1] does not increase magnitude. */
  lemma ScaleShrinks(a: real, f: real)
    requires 0.0 <= f <= 1.0
    ensures Abs(a * f) <= Abs(a)
  {
    var g := 1.0 - f;
    assert a == a * f + a * g;
    if a >= 0.0 {
      assert a * f >= 0.0 && a * g >= 0.0;
    } else {
      assert a * f <= 0.0 && a * g <= 0.0;
    }
  }

  lemma Triangle(a: real, b: real)
    ensures Abs(a + b) <= Abs(a) + Abs(b)
  {
  }

  /**
   * With activated gates the memory state moves by less than one per step and
   * the hidden state is never larger in magnitude than the memory state.
   */
  lemma CellBounds(prev: real, c: CellGates)
    requires Activated(c)
    ensures Abs(MemoryUpdate(prev, c)) < Abs(prev) + 1.0
    ensures Abs(HiddenOutput(MemoryUpdate(prev, c), c)) <= Abs(MemoryUpdate(prev, c))
  {
    MemoryBound(prev, c);
    HiddenBound(MemoryUpdate(prev, c), c);
  }

  lemma MemoryBound(prev: real, c: CellGates)
    requires Activated(c)
    ensures Abs(MemoryUpdate(prev, c)) < Abs(prev) + 1.0
  {
    assert MemoryUpdate(prev, c) == prev * c.fg + c.ig * c.iv;
    ScaleShrinks(prev, c.fg);
    GatedBelowOne(c.ig, c.iv);
    SumBound(prev * c.fg, c.ig * c.iv, Abs(prev));
  }

  lemma HiddenBound(m: real, c: CellGates)
    requires Activated(c)
    ensures Abs(HiddenOutput(m, c)) <= Abs(m)
  {
    assert HiddenOutput(m, c) == m * c.og;
    ScaleShrinks(m, c.og);
  }

  /** A sum of a term bounded by a and a term of magnitude below one stays below a + 1. */
  lemma SumBound(u: real, w: real, a: real)
    requires Abs(u) <= a && Abs(w) < 1.0
    ensures Abs(u + w) < a + 1.0
  {
    Triangle(u, w);
  }

  /** A gate value in (0, 1) times a value in [-1, 1] lies strictly inside (-1, 1). */
  lemma GatedBelowOne(ig: real, iv: real)
    requires 0.0 < ig < 1.0 && -1.0 <= iv <= 1.0
    ensures Abs(ig * iv) < 1.0
  {
    var a := Abs(iv);
    assert Abs(ig * iv) == ig * a by {
      if iv < 0.0 { assert ig * iv == -(ig * a); }
    }
    assert ig * a <= ig * 1.0;
  }

  // ---------------------------------------------------------------------
  // The local gradients of one element

  /**
   * The first-order quantity the backward pass differentiates for one element:
   * the incoming hidden-state and memory-state gradients paired with the two
   * outputs of the step.
   */
  function StepObjective(hd: real, md: real, prev: real, c: CellGates): real
  {
    hd * HiddenOutput(MemoryUpdate(prev, c), c) + md * MemoryUpdate(prev, c)
  }

  /** The total gradient reaching the memory state: through the hidden state and directly. */
  function TotalStateGrad(hd: real, md: real, c: CellGates): real
  {
    hd * c.og + md
  }

  /** The sensitivity of the step objective to one activated gate value. */
  function GateSensitivity(g: Gate, hd: real, md: real, prev: real, c: CellGates): real
  {
    match g
    case InputGate => TotalStateGrad(hd, md, c) * c.iv
    case ForgetGate => TotalStateGrad(hd, md, c) * prev
    case OutputGate => hd * MemoryUpdate(prev, c)
    case InputValue => TotalStateGrad(hd, md, c) * c.ig
  }

  /**
   * The step objective is affine in each activated gate value separately, so
   * the sensitivity is its exact partial derivative: moving one gate by h
   * moves the objective by h times the sensitivity.
   */
  lemma ObjectiveAffineInGate(g: Gate, hd: real, md: real, prev: real, c: CellGates, h: real)
    ensures StepObjective(hd, md, prev, c.With(g, c.Get(g) + h))
         == StepObjective(hd, md, prev, c) + h * GateSensitivity(g, hd, md, prev, c)
  {
    var d := c.With(g, c.Get(g) + h);
    match g
    case InputGate =>
      assert MemoryUpdate(prev, d) == MemoryUpdate(prev, c) + h * c.iv;
    case ForgetGate =>
      assert MemoryUpdate(prev, d) == MemoryUpdate(prev, c) + h * prev;
    case OutputGate =>
      assert MemoryUpdate(prev, d) == MemoryUpdate(prev, c);
    case InputValue =>
      assert MemoryUpdate(prev, d) == MemoryUpdate(prev, c) + h * c.ig;
  }

  /** Likewise in the previous memory state, whose sensitivity is the total state gradient times the forget gate. */
  lemma ObjectiveAffineInPrev(hd: real, md: real, prev: real, c: CellGates, h: real)
    ensures StepObjective(hd, md, prev + h, c)
         == StepObjective(hd, md, prev, c) + h * (TotalStateGrad(hd, md, c) * c.fg)
  {
    assert MemoryUpdate(prev + h, c) == MemoryUpdate(prev, c) + h * c.fg;
  }

  /** The gate derivative buffer of the backward pass: each gate's activation derivative, taken from its activated value. */
  function GateDiffs(gates: seq<real>, S: nat): (d: seq<real>)
    requires |gates| == 4 * S
    ensures |d| == 4 * S
    ensures forall p :: 0 <= p < 4 * S ==> d[p] == ActivationDiff(GateOfPos(p, S), gates[p])
  {
    seq(4 * S, p requires 0 <= p < 4 * S => ActivationDiff(GateOfPos(p, S), gates[p]))
  }

  /** The total state gradient `hd · og + md` of every element. */
  function TotalStateGrads(gates: seq<real>, hd: seq<real>, md: seq<real>, S: nat): (t: seq<real>)
    requires |gates| == 4 * S && |hd| == S && |md| == S
    ensures |t| == S
    ensures forall q :: 0 <= q < S ==> t[q] == TotalStateGrad(hd[q], md[q], CellAt(gates, S, q))
  {
    seq(S, q requires 0 <= q < S => TotalStateGrad(hd[q], md[q], CellAt(gates, S, q)))
  }

  /** The gradient reaching the previous memory state of every element: the total state gradient times the forget gate. */
  function PrevStateGrads(gates: seq<real>, hd: seq<real>, md: seq<real>, S: nat): (t: seq<real>)
    requires |gates| == 4 * S && |hd| == S && |md| == S
    ensures |t| == S
    ensures forall q :: 0 <= q < S ==> t[q] == TotalStateGrad(hd[q], md[q], CellAt(gates, S, q)) * CellAt(gates, S, q).fg
  {
    seq(S, q requires 0 <= q < S => TotalStateGrad(hd[q], md[q], CellAt(gates, S, q)) * CellAt(gates, S, q).fg)
  }

  /**
   * `scale[q] · (left[leftOff + q] · right[rightOff + q])` for every q < S:
   * a scaling vector times the elementwise product of two slices.
   */
  function ScaledProducts(scale: seq<real>, left: seq<real>, leftOff: nat, right: seq<real>, rightOff: nat, S: nat): (d: seq<real>)
    requires |scale| == S && leftOff + S <= |left| && rightOff + S <= |right|
    ensures |d| == S
    ensures forall q :: 0 <= q < S ==> d[q] == scale[q] * (left[leftOff + q] * right[rightOff + q])
  {
    seq(S, q requires 0 <= q < S => scale[q] * (left[leftOff + q] * right[rightOff + q]))
  }

  /**
   * The local gradient the backward pass forms for gate g, from its buffers
   * and in its order of evaluation: the scaling vector (the total state
   * gradient, or the hidden-state gradient for the output gate) times the
   * product of a gate slice and its partner.
   */
  function LocalGrad(g: Gate, gates: seq<real>, hd: seq<real>, md: seq<real>,
                     prev: seq<real>, mem: seq<real>, S: nat): (d: seq<real>)
    requires |gates| == 4 * S && |hd| == S && |md| == S && |prev| == S && |mem| == S
    ensures |d| == S
  {
    var diffs, tot := GateDiffs(gates, S), TotalStateGrads(gates, hd, md, S);
    match g
    case InputValue => ScaledProducts(tot, gates, Offset(InputGate, S), diffs, Offset(InputValue, S), S)
    case InputGate => ScaledProducts(tot, diffs, Offset(InputGate, S), gates, Offset(InputValue, S), S)
    case ForgetGate => ScaledProducts(tot, diffs, Offset(ForgetGate, S), prev, 0, S)
    case OutputGate => ScaledProducts(hd, diffs, Offset(OutputGate, S), mem, 0, S)
  }

  /**
   * Where the memory state is the one the forward pass produced, the local
   * gradient is the chain rule: the gate's sensitivity times the derivative
   * of its activation.
   */
  lemma LocalGradIsChainRule(g: Gate, gates: seq<real>, hd: seq<real>, md: seq<real>,
                              prev: seq<real>, mem: seq<real>, S: nat, q: nat)
    requires |gates| == 4 * S && |hd| == S && |md| == S && |prev| == S && |mem| == S
    requires q < S
    requires mem[q] == MemoryUpdate(prev[q], CellAt(gates, S, q))
    ensures LocalGrad(g, gates, hd, md, prev, mem, S)[q]
         == GateSensitivity(g, hd[q], md[q], prev[q], CellAt(gates, S, q)) * ActivationDiff(g, gates[Offset(g, S) + q])
  {
    match g
    case InputValue => ChainRuleInputValue(g, gates, hd, md, prev, mem, S, q);
    case InputGate => ChainRuleInputGate(g, gates, hd, md, prev, mem, S, q);
    case ForgetGate => ChainRuleForgetGate(g, gates, hd, md, prev, mem, S, q);
    case OutputGate => ChainRuleOutputGate(g, gates, hd, md, prev, mem, S, q);
  }

  lemma ChainRuleInputValue(g: Gate, gates: seq<real>, hd: seq<real>, md: seq<real>,
                              prev: seq<real>, mem: seq<real>, S: nat, q: nat)
    requires |gates| == 4 * S && |hd| == S && |md| == S && |prev| == S && |mem| == S
    requires q < S && g == InputValue
    ensures LocalGrad(g, gates, hd, md, prev, mem, S)[q]
         == GateSensitivity(g, hd[q], md[q], prev[q], CellAt(gates, S, q)) * ActivationDiff(g, gates[Offset(g, S) + q])
  {
    var c, diffs, tot := CellAt(gates, S, q), GateDiffs(gates, S), TotalStateGrads(gates, hd, md, S);
    var d := ActivationDiff(g, gates[Offset(g, S) + q]);
    SlicesPartition(g, S, q);
    SlicesPartition(InputGate, S, q);
    assert LocalGrad(g, gates, hd, md, prev, mem, S)[q] == tot[q] * (gates[Offset(InputGate, S) + q] * diffs[Offset(InputValue, S) + q]);
    assert tot[q] == TotalStateGrad(hd[q], md[q], c);
    assert diffs[Offset(InputValue, S) + q] == d;
    assert gates[Offset(InputGate, S) + q] == c.ig;
    Reassociate(TotalStateGrad(hd[q], md[q], c), c.ig, d);
  }

  lemma ChainRuleInputGate(g: Gate, gates: seq<real>, hd: seq<real>, md: seq<real>,
                              prev: seq<real>, mem: seq<real>, S: nat, q: nat)
    requires |gates| == 4 * S && |hd| == S && |md| == S && |prev| == S && |mem| == S
    requires q < S && g == InputGate
    ensures LocalGrad(g, gates, hd, md, prev, mem, S)[q]
         == GateSensitivity(g, hd[q], md[q], prev[q], CellAt(gates, S, q)) * ActivationDiff(g, gates[Offset(g, S) + q])
  {
    var c, diffs, tot := CellAt(gates, S, q), GateDiffs(gates, S), TotalStateGrads(gates, hd, md, S);
    var d := ActivationDiff(g, gates[Offset(g, S) + q]);
    SlicesPartition(g, S, q);
    SlicesPartition(InputValue, S, q);
    assert LocalGrad(g, gates, hd, md, prev, mem, S)[q] == tot[q] * (diffs[Offset(InputGate, S) + q] * gates[Offset(InputValue, S) + q]);
    assert tot[q] == TotalStateGrad(hd[q], md[q], c);
    assert diffs[Offset(InputGate, S) + q] == d;
    assert gates[Offset(InputValue, S) + q] == c.iv;
    Reassociate(TotalStateGrad(hd[q], md[q], c), c.iv, d);
  }

  lemma ChainRuleForgetGate(g: Gate, gates: seq<real>, hd: seq<real>, md: seq<real>,
                              prev: seq<real>, mem: seq<real>, S: nat, q: nat)
    requires |gates| == 4 * S && |hd| == S && |md| == S && |prev| == S && |mem| == S
    requires q < S && g == ForgetGate
    ensures LocalGrad(g, gates, hd, md, prev, mem, S)[q]
         == GateSensitivity(g, hd[q], md[q], prev[q], CellAt(gates, S, q)) * ActivationDiff(g, gates[Offset(g, S) + q])
  {
    var c, diffs, tot := CellAt(gates, S, q), GateDiffs(gates, S), TotalStateGrads(gates, hd, md, S);
    var d := ActivationDiff(g, gates[Offset(g, S) + q]);
    SlicesPartition(g, S, q);
    assert LocalGrad(g, gates, hd, md, prev, mem, S)[q] == tot[q] * (diffs[Offset(ForgetGate, S) + q] * prev[q]);
    assert tot[q] == TotalStateGrad(hd[q], md[q], c);
    assert diffs[Offset(ForgetGate, S) + q] == d;
    Reassociate(TotalStateGrad(hd[q], md[q], c), prev[q], d);
  }

  lemma ChainRuleOutputGate(g: Gate, gates: seq<real>, hd: seq<real>, md: seq<real>,
                              prev: seq<real>, mem: seq<real>, S: nat, q: nat)
    requires |gates| == 4 * S && |hd| == S && |md| == S && |prev| == S && |mem| == S
    requires q < S && g == OutputGate
    requires mem[q] == MemoryUpdate(prev[q], CellAt(gates, S, q))
    ensures LocalGrad(g, gates, hd, md, prev, mem, S)[q]
         == GateSensitivity(g, hd[q], md[q], prev[q], CellAt(gates, S, q)) * ActivationDiff(g, gates[Offset(g, S) + q])
  {
    var c, diffs, tot := CellAt(gates, S, q), GateDiffs(gates, S), TotalStateGrads(gates, hd, md, S);
    var d := ActivationDiff(g, gates[Offset(g, S) + q]);
    SlicesPartition(g, S, q);
    assert LocalGrad(g, gates, hd, md, prev, mem, S)[q] == hd[q] * (diffs[Offset(OutputGate, S) + q] * mem[q]);
    assert diffs[Offset(OutputGate, S) + q] == d;
    Reassociate(hd[q], mem[q], d);
  }

  lemma Reassociate(a: real, b: real, d: real)
    ensures a * (b * d) == (a * b) * d && a * (d * b) == (a * b) * d
  {
  }
}
