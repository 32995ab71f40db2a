/** The single-step GRU cell, forward and backward, written as closed-form
    values of its inputs. The layer's `ForwardOneStep` and `BpOneStep`
    methods compute the same values step by step in the layer's buffers and
    are proved equal to these functions. */
module GruCell {
  import opened Linalg
  import opened Gate

  /** The activation operators and their derivatives, taken as given:
      `sigmoidGrad` and `tanhGrad` are applied to the activated value, as
      `op::sigmoid_grad` and `op::tanh_grad` are. */
  datatype Activations = Activations(
    sigmoid: real -> real,
    tanh: real -> real,
    sigmoidGrad: real -> real,
    tanhGrad: real -> real)

  /** The six parameters, each the 2-D plane `[0][0]` of a 1 x 1 x rows x cols
      parameter node: input-to-gate `wg`, hidden-to-gate `ug`, gate bias
      `bg`, input-to-candidate `wc`, hidden-to-candidate `uc`, candidate
      bias `bc`. The same type holds their gradients. */
  datatype Weights = Weights(wg: Mat, ug: Mat, bg: Mat, wc: Mat, uc: Mat, bc: Mat)

  predicate WeightsShaped(w: Weights, dInput: nat, dMem: nat) {
    && IsMat(w.wg, dInput, 2 * dMem)
    && IsMat(w.ug, dMem, 2 * dMem)
    && IsMat(w.bg, 1, 2 * dMem)
    && IsMat(w.wc, dInput, dMem)
    && IsMat(w.uc, dMem, dMem)
    && IsMat(w.bc, 1, dMem)
  }

  function ZeroWeights(dInput: nat, dMem: nat): (w: Weights)
    ensures WeightsShaped(w, dInput, dMem)
  {
    Weights(ZeroMat(dInput, 2 * dMem), ZeroMat(dMem, 2 * dMem), ZeroMat(1, 2 * dMem),
            ZeroMat(dInput, dMem), ZeroMat(dMem, dMem), ZeroMat(1, dMem))
  }

  /** What one forward step writes: the gate row `g` (reset half, then
      update half), the candidate `c` and the new hidden state `h`. */
  datatype StepOut = StepOut(g: Vec, c: Vec, h: Vec)

  /** One forward step from the previous hidden state `preH` and the input
      row `x`:
        g = sigmoid(x . W_g + preH . U_g), r = g[0, d), z = g[d, 2d)
        c = tanh(x . W_c + (r * preH) . U_c)
        h = z * preH + (1 - z) * c
      No bias is added. */
  function ForwardStep(act: Activations, w: Weights, dMem: nat, preH: Vec, x: Vec): (o: StepOut)
    ensures |o.g| == 2 * dMem && |o.c| == dMem && |o.h| == dMem
  {
    var g := GateRow(act, w, dMem, preH, x);
    var c := CandidateRow(act, w, dMem, Read(g, ResetView(dMem)), preH, x);
    StepOut(g, c, Interpolate(Read(g, UpdateView(dMem)), preH, c))
  }

  /** sigmoid(x . W_g + preH . U_g) */
  function GateRow(act: Activations, w: Weights, dMem: nat, preH: Vec, x: Vec): (g: Vec)
    ensures |g| == 2 * dMem
  {
    VMap(act.sigmoid, VAdd(VecMat(x, w.wg, 2 * dMem), VecMat(preH, w.ug, 2 * dMem)))
  }

  /** tanh(x . W_c + (r * preH) . U_c) */
  function CandidateRow(act: Activations, w: Weights, dMem: nat, r: Vec, preH: Vec, x: Vec): (c: Vec)
    ensures |c| == dMem
  {
    VMap(act.tanh, VAdd(VecMat(x, w.wc, dMem), VecMat(VMul(r, preH), w.uc, dMem)))
  }

  /** z * preH + (1 - z) * c */
  function Interpolate(z: Vec, preH: Vec, c: Vec): (h: Vec)
    ensures |h| == |z|
  {
    VAdd(VMul(z, preH), VMul(OneMinus(z), c))
  }

  /** Read on the gate row itself: the candidate uses the first d_mem gate
      entries as the reset gate, and the new hidden state interpolates
      between `preH` and `c` with the last d_mem gate entries. */
  lemma ForwardStepGateOrder(act: Activations, w: Weights, dMem: nat, preH: Vec, x: Vec)
    ensures var o := ForwardStep(act, w, dMem, preH, x);
      && o.c == CandidateRow(act, w, dMem, o.g[..dMem], preH, x)
      && o.h == Interpolate(o.g[dMem..], preH, o.c)
  {
    var o := ForwardStep(act, w, dMem, preH, x);
    assert o.c == CandidateRow(act, w, dMem, Read(o.g, ResetView(dMem)), preH, x);
    assert o.h == Interpolate(Read(o.g, UpdateView(dMem)), preH, o.c);
    ReadViews(o.g, dMem);
  }

  lemma InterpolateAt(z: Vec, preH: Vec, c: Vec, k: nat)
    requires k < |z| == |preH| == |c|
    ensures Interpolate(z, preH, c)[k] == z[k] * preH[k] + (1.0 - z[k]) * c[k]
  {
  }

  /** The bias parameters play no part in the forward step. */
  lemma ForwardStepIgnoresBias(act: Activations, w: Weights, dMem: nat, preH: Vec, x: Vec, bg: Mat, bc: Mat)
    ensures ForwardStep(act, w.(bg := bg, bc := bc), dMem, preH, x) == ForwardStep(act, w, dMem, preH, x)
  {
  }

  /** With all weights zero and a zero previous state, every gate is
      sigmoid(0) and every candidate entry tanh(0), whatever the input; when
      tanh(0) = 0 the new hidden state is all zero. */
  lemma ZeroWeightForward(act: Activations, dInput: nat, dMem: nat, x: Vec)
    ensures var o := ForwardStep(act, ZeroWeights(dInput, dMem), dMem, Zeros(dMem), x);
      && (forall k :: 0 <= k < 2 * dMem ==> o.g[k] == act.sigmoid(0.0))
      && (forall k :: 0 <= k < dMem ==> o.c[k] == act.tanh(0.0))
      && (act.tanh(0.0) == 0.0 ==> o.h == Zeros(dMem))
  {
    var w := ZeroWeights(dInput, dMem);
    var o := ForwardStep(act, w, dMem, Zeros(dMem), x);
    VecMatZero(x, dInput, 2 * dMem);
    VecMatZero(Zeros(dMem), dMem, 2 * dMem);
    VecMatZero(x, dInput, dMem);
    var r := Read(o.g, ResetView(dMem));
    VecMatZero(VMul(r, Zeros(dMem)), dMem, dMem);
    assert forall k :: 0 <= k < 2 * dMem ==> o.g[k] == act.sigmoid(0.0 + 0.0);
    assert forall k :: 0 <= k < dMem ==> o.c[k] == act.tanh(0.0 + 0.0);
    if act.tanh(0.0) == 0.0 {
      assert forall k :: 0 <= k < dMem ==> o.h[k] == 0.0;
    }
  }

  /** What one backward step produces: the candidate gradient row `cEr`
      (after tanh_grad), the gate gradient row `gEr` (reset half, then
      update half, after sigmoid_grad), and the amounts added into the
      previous hidden state's gradient, the input's gradient and four of
      the six parameter gradients. */
  datatype BpOut = BpOut(
    cEr: Vec, gEr: Vec,
    dPreH: Vec, dX: Vec,
    dWg: Mat, dUg: Mat, dWc: Mat, dUc: Mat)

  /** The parameter gradients after one step adds its four products; the
      bias gradients are not touched. */
  function AddGrads(dw: Weights, o: BpOut): (r: Weights)
    ensures r.bg == dw.bg && r.bc == dw.bc
  {
    dw.(wg := MatAdd(dw.wg, o.dWg), ug := MatAdd(dw.ug, o.dUg),
        wc := MatAdd(dw.wc, o.dWc), uc := MatAdd(dw.uc, o.dUc))
  }

  /** Entrywise sum of two sets of parameters (or gradients). */
  function AddWeights(a: Weights, b: Weights): (r: Weights)
    ensures |r.wg| == |a.wg| && |r.uc| == |a.uc|
  {
    Weights(MatAdd(a.wg, b.wg), MatAdd(a.ug, b.ug), MatAdd(a.bg, b.bg),
            MatAdd(a.wc, b.wc), MatAdd(a.uc, b.uc), MatAdd(a.bc, b.bc))
  }

  /** The candidate gradient row: `cEr0 + curHEr * (1 - z)`, then scaled
      by tanh_grad(c). */
  function CandidateEr(act: Activations, curHEr: Vec, z: Vec, c: Vec, cEr0: Vec): (r: Vec)
    ensures |r| == |cEr0|
  {
    VMul(VAdd(cEr0, VMul(curHEr, OneMinus(z))), VMap(act.tanhGrad, c))
  }

  /** The gate gradient row: the reset half `back * preH`, the update half
      `zEr0 + curHEr * preH + curHEr * (-1 * c)`, each scaled by
      sigmoid_grad of its gate. */
  function GateEr(act: Activations, back: Vec, curHEr: Vec, preH: Vec, c: Vec,
                  r: Vec, z: Vec, zEr0: Vec): (e: Vec)
    ensures |e| == |back| + |zEr0|
  {
    VMul(VMul(back, preH), VMap(act.sigmoidGrad, r))
      + VMul(VAdd(VAdd(zEr0, VMul(curHEr, preH)), VMul(curHEr, VScale(-1.0, c))), VMap(act.sigmoidGrad, z))
  }

  /** The backward step by the chain rule through `ForwardStep`, given the
      gradient `curHEr` of the new hidden state, the cached forward values
      (`preH`, `x`, `g`, `c`) and the candidate and gate gradient rows as
      they were on entry (`cEr0`, `gEr0`, zero in every call the layer
      makes):
        cEr  = (cEr0 + curHEr * (1 - z)) * tanh_grad(c)
        back = cEr . U_c^T
        gEr  = [back * preH * sigmoid_grad(r),
                (gEr0[d, 2d) + curHEr * preH + curHEr * (-1 * c)) * sigmoid_grad(z)]
        dPreH = curHEr * z + r * back + gEr . U_g^T
        dX    = cEr . W_c^T + gEr . W_g^T
        dW_g = x^T . gEr, dU_g = preH^T . gEr, dW_c = x^T . cEr, dU_c = (r * preH)^T . cEr */
  function BackwardStep(act: Activations, w: Weights, dMem: nat,
                  curHEr: Vec, preH: Vec, x: Vec, g: Vec, c: Vec, cEr0: Vec, gEr0: Vec): (o: BpOut)
    ensures |o.cEr| == |cEr0| && |o.gEr| == |w.uc| + dMem
    ensures |o.dPreH| == |curHEr| && |o.dX| == |w.wc|
    ensures IsMat(o.dWg, |x|, |w.uc| + dMem) && IsMat(o.dUg, |preH|, |w.uc| + dMem)
    ensures IsMat(o.dWc, |x|, |cEr0|) && IsMat(o.dUc, dMem, |cEr0|)
  {
    var r := Read(g, ResetView(dMem));
    var z := Read(g, UpdateView(dMem));
    var cEr := CandidateEr(act, curHEr, z, c, cEr0);
    var back := VecMatT(cEr, w.uc);
    var gEr := GateEr(act, back, curHEr, preH, c, r, z, Read(gEr0, UpdateView(dMem)));
    BpOut(cEr, gEr,
          VAdd(VAdd(VMul(curHEr, z), VMul(r, back)), VecMatT(gEr, w.ug)),
          VAdd(VecMatT(cEr, w.wc), VecMatT(gEr, w.wg)),
          Outer(x, gEr), Outer(preH, gEr), Outer(x, cEr), Outer(VMul(r, preH), cEr))
  }

  /** The reset half of the gate gradient row is assigned, not added to:
      what that half held on entry has no effect on the step, while the
      update half is accumulated into. */
  lemma BackwardStepResetAssigned(act: Activations, w: Weights, dMem: nat,
                                  curHEr: Vec, preH: Vec, x: Vec, g: Vec, c: Vec, cEr0: Vec,
                                  gEr0: Vec, gEr1: Vec)
    requires |gEr0| == 2 * dMem && |gEr1| == 2 * dMem && gEr0[dMem..] == gEr1[dMem..]
    ensures BackwardStep(act, w, dMem, curHEr, preH, x, g, c, cEr0, gEr0)
         == BackwardStep(act, w, dMem, curHEr, preH, x, g, c, cEr0, gEr1)
  {
    ReadViews(gEr0, dMem);
    ReadViews(gEr1, dMem);
  }

  /** The update half of the gate gradient row, before sigmoid_grad, is
      its entry value plus `curHEr * preH - curHEr * c`; after it, entry
      `k` is that value times sigmoid_grad of the update gate. */
  lemma BackwardStepUpdateHalf(act: Activations, w: Weights, dMem: nat,
                               curHEr: Vec, preH: Vec, x: Vec, g: Vec, c: Vec, cEr0: Vec, gEr0: Vec, k: nat)
    requires |w.uc| == dMem && |g| == 2 * dMem && |gEr0| == 2 * dMem
    requires |curHEr| == dMem && |preH| == dMem && |c| == dMem && k < dMem
    ensures var o := BackwardStep(act, w, dMem, curHEr, preH, x, g, c, cEr0, gEr0);
      o.gEr[dMem + k] == ((gEr0[dMem + k] + curHEr[k] * preH[k]) + curHEr[k] * (-1.0 * c[k]))
                         * act.sigmoidGrad(g[dMem + k])
  {
    var o := BackwardStep(act, w, dMem, curHEr, preH, x, g, c, cEr0, gEr0);
    var r := Read(g, ResetView(dMem));
    var z := Read(g, UpdateView(dMem));
    var zEr0 := Read(gEr0, UpdateView(dMem));
    var back := VecMatT(CandidateEr(act, curHEr, z, c, cEr0), w.uc);
    assert o.gEr == GateEr(act, back, curHEr, preH, c, r, z, zEr0);
    assert |VMul(VMul(back, preH), VMap(act.sigmoidGrad, r))| == dMem;
    assert zEr0[k] == gEr0[dMem + k] && z[k] == g[dMem + k];
  }

  lemma {:induction false} DotZerosLeft(n: nat, b: Vec)
    ensures Dot(Zeros(n), b) == 0.0
    decreases n
  {
    if n > 0 {
      assert Zeros(n)[..n - 1] == Zeros(n - 1);
      DotZerosLeft(n - 1, b);
    }
  }

  lemma VecMatTZeros(n: nat, m: Mat)
    ensures VecMatT(Zeros(n), m) == Zeros(|m|)
  {
    forall i | 0 <= i < |m| ensures VecMatT(Zeros(n), m)[i] == 0.0 {
      DotZerosLeft(n, m[i]);
    }
  }

  /** No gradient in, no gradient out: when the hidden-state gradient and
      the entry values of the candidate and gate gradient rows are zero, the
      step adds nothing anywhere and leaves both rows zero. */
  lemma CandidateErZeroIn(act: Activations, dMem: nat, z: Vec, c: Vec)
    ensures CandidateEr(act, Zeros(dMem), z, c, Zeros(dMem)) == Zeros(dMem)
  {
    var zero := Zeros(dMem);
    VMulZeroLeft(zero, OneMinus(z));
    VAddZeros(dMem, dMem);
    VMulZeroLeft(zero, VMap(act.tanhGrad, c));
  }

  lemma GateErZeroIn(act: Activations, dMem: nat, preH: Vec, c: Vec, r: Vec, z: Vec)
    ensures GateEr(act, Zeros(dMem), Zeros(dMem), preH, c, r, z, Zeros(dMem)) == Zeros(2 * dMem)
  {
    var zero := Zeros(dMem);
    VMulZeroLeft(zero, preH);
    VMulZeroLeft(zero, VScale(-1.0, c));
    VAddZeros(dMem, dMem);
    VMulZeroLeft(zero, VMap(act.sigmoidGrad, r));
    VMulZeroLeft(zero, VMap(act.sigmoidGrad, z));
    assert zero + zero == Zeros(2 * dMem);
  }

  lemma BackwardStepZeroIn(act: Activations, w: Weights, dInput: nat, dMem: nat,
                     preH: Vec, x: Vec, g: Vec, c: Vec)
    requires WeightsShaped(w, dInput, dMem)
    ensures var o := BackwardStep(act, w, dMem, Zeros(dMem), preH, x, g, c, Zeros(dMem), Zeros(2 * dMem));
      && o.cEr == Zeros(dMem) && o.gEr == Zeros(2 * dMem)
      && o.dPreH == Zeros(dMem) && o.dX == Zeros(dInput)
      && o.dWg == ZeroMat(|x|, 2 * dMem) && o.dUg == ZeroMat(|preH|, 2 * dMem)
      && o.dWc == ZeroMat(|x|, dMem) && o.dUc == ZeroMat(dMem, dMem)
  {
    var zero := Zeros(dMem);
    var r := Read(g, ResetView(dMem));
    var z := Read(g, UpdateView(dMem));
    CandidateErZeroIn(act, dMem, z, c);
    VecMatTZeros(dMem, w.uc);
    ReadZeros(2 * dMem, UpdateView(dMem));
    GateErZeroIn(act, dMem, preH, c, r, z);
    VecMatTZeros(2 * dMem, w.ug);
    VecMatTZeros(2 * dMem, w.wg);
    VecMatTZeros(dMem, w.wc);
    VMulZeroLeft(zero, z);
    VMulZeroRight(r, zero);
    VAddZeros(dMem, dMem);
    VAddZeros(dInput, dInput);
    OuterZeroRight(x, 2 * dMem);
    OuterZeroRight(preH, 2 * dMem);
    OuterZeroRight(x, dMem);
    OuterZeroRight(VMul(r, preH), dMem);
  }
}
