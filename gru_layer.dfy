/** `GruLayer`: one bottom node, one top node, six parameters and the cache
    buffers `c`, `g`, `c_er`, `g_er`, with the forward and backward passes
    over every (batch, seq) timeline of valid length `len`. The six
    parameter nodes are held through their [0][0] planes, the only part the
    layer reads (`w`) and adds gradients into (`dw`). */
module Layers {
  import opened Linalg
  import opened Outcomes
  import opened Gate
  import opened GruCell
  import opened Timeline
  import opened BackwardTimeline
  import opened Tensors
  import opened Nodes

  /** The settings `SetupLayer` reads: `d_mem`, absent when it was not
      configured, and `reverse`. */
  datatype Settings = Settings(dMem: Option<nat>, reverse: bool)

  /** The shapes `SetupLayer` gives the six parameters, each padded with
      two leading axes of size 1. */
  function ParamShapes(dInput: nat, dMem: nat): (s: seq<Shape4>)
    ensures |s| == 6
  {
    [Shape4(1, 1, dInput, 2 * dMem), Shape4(1, 1, dMem, 2 * dMem), Shape4(1, 1, 1, 2 * dMem),
     Shape4(1, 1, dInput, dMem), Shape4(1, 1, dMem, dMem), Shape4(1, 1, 1, dMem)]
  }

  /** Every row of `m` has `width` entries. */
  predicate RowsWidth(m: Mat, width: nat) {
    forall k :: 0 <= k < |m| ==> |m[k]| == width
  }

  /** Rows `lo` onwards of the three buffers hold the steps `steps`, in
      order. */
  predicate HoldsFrom(g: Mat, c: Mat, out: Mat, steps: seq<StepOut>, lo: nat) {
    && lo + |steps| == |g| == |c| == |out|
    && forall k :: 0 <= k < |steps| ==>
         g[lo + k] == steps[k].g && c[lo + k] == steps[k].c && out[lo + k] == steps[k].h
  }

  /** The first `|steps|` rows of the three buffers hold the steps. */
  predicate HoldsUpTo(g: Mat, c: Mat, out: Mat, steps: seq<StepOut>) {
    && |steps| <= |g| && |g| == |c| == |out|
    && forall k :: 0 <= k < |steps| ==>
         g[k] == steps[k].g && c[k] == steps[k].c && out[k] == steps[k].h
  }

  lemma HoldsUpToSnoc(g: Mat, c: Mat, out: Mat, steps: seq<StepOut>, o: StepOut)
    requires HoldsUpTo(g, c, out, steps) && |steps| < |g|
    ensures var row := |steps|;
      HoldsUpTo(SetRow(g, row, o.g), SetRow(c, row, o.c), SetRow(out, row, o.h), steps + [o])
  {
  }

  lemma HoldsFromCons(g: Mat, c: Mat, out: Mat, steps: seq<StepOut>, row: nat, o: StepOut)
    requires HoldsFrom(g, c, out, steps, row + 1)
    ensures HoldsFrom(SetRow(g, row, o.g), SetRow(c, row, o.c), SetRow(out, row, o.h), [o] + steps, row)
  {
    var steps' := [o] + steps;
    var g', c', out' := SetRow(g, row, o.g), SetRow(c, row, o.c), SetRow(out, row, o.h);
    forall k | 0 <= k < |steps'|
      ensures g'[row + k] == steps'[k].g && c'[row + k] == steps'[k].c && out'[row + k] == steps'[k].h
    {
      if k > 0 {
        assert steps'[k] == steps[k - 1] && row + k == (row + 1) + (k - 1);
      }
    }
  }

  /** One iteration of the right-to-left driver: the step at `row`, from
      the hidden state of the row after it (or `h0` at the last row),
      extends both the recurrence and the rows the buffers hold. */
  lemma Right2LeftRow(cell: Timeline.Cell, h0: Vec, xs: Mat, row: nat, steps: seq<StepOut>,
                      g: Mat, c: Mat, out: Mat, o: StepOut)
    requires row < |xs| && steps == Right2Left(cell, h0, xs[row + 1..])
    requires HoldsFrom(g, c, out, steps, row + 1)
    requires o == cell(if row == |xs| - 1 then h0 else out[row + 1], xs[row])
    ensures [o] + steps == Right2Left(cell, h0, xs[row..])
    ensures HoldsFrom(SetRow(g, row, o.g), SetRow(c, row, o.c), SetRow(out, row, o.h), [o] + steps, row)
  {
    if row < |xs| - 1 {
      assert out[row + 1] == out[(row + 1) + 0];
    }
    Right2LeftExtend(cell, h0, xs, row);
    HoldsFromCons(g, c, out, steps, row, o);
  }

  /** Buffers holding all of a run of steps are its projections. */
  lemma HoldsAll(g: Mat, c: Mat, out: Mat, steps: seq<StepOut>)
    requires HoldsFrom(g, c, out, steps, 0) || (HoldsUpTo(g, c, out, steps) && |steps| == |g|)
    ensures g == Gs(steps) && c == Cs(steps) && out == Hs(steps)
  {
    if HoldsFrom(g, c, out, steps, 0) {
      assert forall k :: 0 <= k < |steps| ==> g[k] == g[0 + k] && c[k] == c[0 + k] && out[k] == out[0 + k];
    }
  }

  /** `length` has one entry per (batch, seq) pair, none above `maxLen`. */
  predicate LengthsShaped(length: seq<seq<int>>, d0: nat, d1: nat, maxLen: nat) {
    |length| == d0 && forall b :: 0 <= b < d0 ==>
      |length[b]| == d1 && forall s :: 0 <= s < d1 ==> length[b][s] <= maxLen
  }

  /** Every valid length is non-negative: the condition under which
      `Forward` and `Backprop` finish. */
  predicate LengthsValid(length: seq<seq<int>>) {
    forall b, s :: 0 <= b < |length| && 0 <= s < |length[b]| ==> length[b][s] >= 0
  }

  /** Pair (i, j) comes before pair (b, s) in the batch-major order of the
      two loops. */
  predicate Before(i: int, j: int, b: int, s: int) {
    i < b || (i == b && j < s)
  }

  /** Plane (b, s) of `t`, or no rows outside of `t`. */
  function Plane(t: Tensor4, b: int, s: int): Mat {
    if 0 <= b < |t| && 0 <= s < |t[b]| then t[b][s] else []
  }

  /** The leading `len` rows of `m` (`Slice(0, len)`), or all of them when
      `len` is out of range. */
  function Lead(m: Mat, len: int): (r: Mat)
    ensures 0 <= len <= |m| ==> r == m[..len]
  {
    if 0 <= len <= |m| then m[..len] else m
  }

  /** The valid length of pair (b, s), 0 outside of `length` or when
      negative. */
  function PairLen(length: seq<seq<int>>, b: int, s: int): nat {
    if 0 <= b < |length| && 0 <= s < |length[b]| && length[b][s] >= 0 then length[b][s] else 0
  }

  /** What `Backprop` reads: the top data, the top diff as it was on entry,
      `c`, `g`, the bottom data, the bottom diff as it was on entry, and the
      valid lengths. */
  datatype BackInput = BackInput(
    hs: Tensor4, hEr: Tensor4, cs: Tensor4, gs: Tensor4, xs: Tensor4, xEr: Tensor4,
    length: seq<seq<int>>)

  function PairCache(inp: BackInput, b: int, s: int): Cache {
    var len := PairLen(inp.length, b, s);
    Cache(Lead(Plane(inp.hs, b, s), len), Lead(Plane(inp.cs, b, s), len),
          Lead(Plane(inp.gs, b, s), len), Lead(Plane(inp.xs, b, s), len))
  }

  /** The gradient rows of pair (b, s) when its turn comes: its own top and
      bottom diff rows, and `c_er` and `g_er` rows zeroed at the start. */
  function PairGrads(inp: BackInput, b: int, s: int, dMem: nat): Grads {
    var len := PairLen(inp.length, b, s);
    Grads(Lead(Plane(inp.hEr, b, s), len), ZeroMat(len, dMem), ZeroMat(len, 2 * dMem),
          Lead(Plane(inp.xEr, b, s), len))
  }

  lemma LeadZeroMat(rows: nat, cols: nat, len: nat)
    requires len <= rows
    ensures Lead(ZeroMat(rows, cols), len) == ZeroMat(len, cols)
  {
  }

  lemma OverlayShaped(base: Mat, rows: Mat, n: nat, cols: nat)
    requires IsMat(base, n, cols) && |rows| <= n && RowsWidth(rows, cols)
    ensures IsMat(Overlay(base, rows), n, cols)
  {
  }

  lemma LeadWidth(m: Mat, len: nat, n: nat, cols: nat)
    requires IsMat(m, n, cols) && len <= n
    ensures |Lead(m, len)| == len && RowsWidth(Lead(m, len), cols)
  {
  }

  /** What the passes read of the layer: the context of every step
      (activations, weights, d_mem, `begin_h`), the direction and
      d_input. */
  datatype LayerConfig = LayerConfig(ctx: Ctx, reverse: bool, dInput: nat)

  /** The forward steps of one timeline: its first `len` input rows run
      in the configured direction from `begin_h`. */
  function Steps(cfg: LayerConfig, x: Mat, len: int): (st: seq<StepOut>)
    requires 0 <= len <= |x|
    ensures |st| == len
  {
    Timeline.Timeline(GruStep(cfg.ctx.act, cfg.ctx.w, cfg.ctx.dMem), cfg.reverse, cfg.ctx.beginH, x[..len])
  }

  /** The planes of a pair after `Forward`: its valid length is
      non-negative and fits, and the leading rows of the top data, `c` and
      `g` hold its timeline over zero rows. */
  predicate PairDone(cfg: LayerConfig, x: Mat, len: int, rows: nat, hP: Mat, cP: Mat, gP: Mat) {
    && 0 <= len <= rows && len <= |x|
    && var st := Steps(cfg, x, len);
    && hP == Overlay(ZeroMat(rows, cfg.ctx.dMem), Hs(st))
    && cP == Overlay(ZeroMat(rows, cfg.ctx.dMem), Cs(st))
    && gP == Overlay(ZeroMat(rows, 2 * cfg.ctx.dMem), Gs(st))
  }

  /** Length masking: the rows of a finished pair at or beyond its valid
      length are zero in the top data, `c` and `g`, and every row below it
      holds the timeline's step. */
  lemma ForwardMasksPadding(cfg: LayerConfig, x: Mat, len: int, rows: nat, hP: Mat, cP: Mat, gP: Mat, k: nat)
    requires PairDone(cfg, x, len, rows, hP, cP, gP) && k < rows
    ensures k >= len ==> hP[k] == Zeros(cfg.ctx.dMem) && cP[k] == Zeros(cfg.ctx.dMem) && gP[k] == Zeros(2 * cfg.ctx.dMem)
    ensures k < len ==>
      var st := Steps(cfg, x, len);
      hP[k] == st[k].h && cP[k] == st[k].c && gP[k] == st[k].g
  {
  }

  /** The planes of a pair before its turn: all zero. */
  predicate PairZero(dMem: nat, rows: nat, hP: Mat, cP: Mat, gP: Mat) {
    hP == ZeroMat(rows, dMem) && cP == ZeroMat(rows, dMem) && gP == ZeroMat(rows, 2 * dMem)
  }

  lemma PairDoneFromZero(cfg: LayerConfig, x: Mat, len: int, rows: nat, hP: Mat, cP: Mat, gP: Mat,
                         gQ: Mat, cQ: Mat, hQ: Mat)
    requires PairZero(cfg.ctx.dMem, rows, hP, cP, gP) && 0 <= len <= rows && len <= |x|
    requires var st := Steps(cfg, x, len);
      gQ == Overlay(gP, Gs(st)) && cQ == Overlay(cP, Cs(st)) && hQ == Overlay(hP, Hs(st))
    ensures PairDone(cfg, x, len, rows, hQ, cQ, gQ)
    ensures IsMat(hQ, rows, cfg.ctx.dMem) && IsMat(cQ, rows, cfg.ctx.dMem) && IsMat(gQ, rows, 2 * cfg.ctx.dMem)
  {
    TimelineWidths(cfg.ctx.act, cfg.ctx.w, cfg.ctx.dMem, cfg.reverse, cfg.ctx.beginH, x[..len]);
  }

  /** The planes of pair (i, j) while `Forward`'s loops are at pair
      (b, s): done when it comes earlier in loop order, zero otherwise. */
  predicate FwdAt(cfg: LayerConfig, xData: Tensor4, length: seq<seq<int>>, sb: Shape4, b: int, s: int,
                  hT: Tensor4, cT: Tensor4, gT: Tensor4, i: int, j: int)
    requires 0 <= i < |xData| && 0 <= j < |xData[i]| && 0 <= i < |length| && 0 <= j < |length[i]|
    requires 0 <= i < |hT| && 0 <= j < |hT[i]| && 0 <= i < |cT| && 0 <= j < |cT[i]|
    requires 0 <= i < |gT| && 0 <= j < |gT[i]|
  {
    if Before(i, j, b, s) then PairDone(cfg, xData[i][j], length[i][j], sb.d2, hT[i][j], cT[i][j], gT[i][j])
    else PairZero(cfg.ctx.dMem, sb.d2, hT[i][j], cT[i][j], gT[i][j])
  }

  /** The top data, `c` and `g` while `Forward`'s loops are at pair
      (b, s), for a bottom of shape `sb`. */
  predicate FwdDone(cfg: LayerConfig, xData: Tensor4, length: seq<seq<int>>, sb: Shape4, b: int, s: int,
                    hT: Tensor4, cT: Tensor4, gT: Tensor4) {
    var dMem := cfg.ctx.dMem;
    && Shaped4(xData, sb) && LengthsShaped(length, sb.d0, sb.d1, sb.d2)
    && Shaped4(hT, Shape4(sb.d0, sb.d1, sb.d2, dMem)) && Shaped4(cT, Shape4(sb.d0, sb.d1, sb.d2, dMem))
    && Shaped4(gT, Shape4(sb.d0, sb.d1, sb.d2, 2 * dMem))
    && forall i, j :: 0 <= i < sb.d0 && 0 <= j < sb.d1 ==> FwdAt(cfg, xData, length, sb, b, s, hT, cT, gT, i, j)
  }

  lemma FwdDoneStart(cfg: LayerConfig, xData: Tensor4, length: seq<seq<int>>, sb: Shape4)
    requires Shaped4(xData, sb) && LengthsShaped(length, sb.d0, sb.d1, sb.d2)
    ensures var dMem := cfg.ctx.dMem;
      FwdDone(cfg, xData, length, sb, 0, 0, Zeros4(Shape4(sb.d0, sb.d1, sb.d2, dMem)),
              Zeros4(Shape4(sb.d0, sb.d1, sb.d2, dMem)), Zeros4(Shape4(sb.d0, sb.d1, sb.d2, 2 * dMem)))
  {
  }

  /** Pair (b, s) done: the loops move on to the next pair. */
  lemma FwdDoneStep(cfg: LayerConfig, xData: Tensor4, length: seq<seq<int>>, sb: Shape4, b: nat, s: nat,
                    hT: Tensor4, cT: Tensor4, gT: Tensor4, hP: Mat, cP: Mat, gP: Mat)
    requires b < sb.d0 && s < sb.d1 && FwdDone(cfg, xData, length, sb, b, s, hT, cT, gT)
    requires IsMat(hP, sb.d2, cfg.ctx.dMem) && IsMat(cP, sb.d2, cfg.ctx.dMem) && IsMat(gP, sb.d2, 2 * cfg.ctx.dMem)
    requires PairDone(cfg, xData[b][s], length[b][s], sb.d2, hP, cP, gP)
    ensures FwdDone(cfg, xData, length, sb, b, s + 1, SetPlane(hT, b, s, hP), SetPlane(cT, b, s, cP), SetPlane(gT, b, s, gP))
  {
    var dMem := cfg.ctx.dMem;
    SetPlaneShaped(hT, Shape4(sb.d0, sb.d1, sb.d2, dMem), b, s, hP);
    SetPlaneShaped(cT, Shape4(sb.d0, sb.d1, sb.d2, dMem), b, s, cP);
    SetPlaneShaped(gT, Shape4(sb.d0, sb.d1, sb.d2, 2 * dMem), b, s, gP);
    var hU, cU, gU := SetPlane(hT, b, s, hP), SetPlane(cT, b, s, cP), SetPlane(gT, b, s, gP);
    var next := s + 1;
    forall i, j | 0 <= i < sb.d0 && 0 <= j < sb.d1
      ensures FwdAt(cfg, xData, length, sb, b, next, hU, cU, gU, i, j)
    {
      if i != b || j != s {
        assert FwdAt(cfg, xData, length, sb, b, s, hT, cT, gT, i, j);
      }
    }
  }

  lemma FwdDoneNextBatch(cfg: LayerConfig, xData: Tensor4, length: seq<seq<int>>, sb: Shape4, b: nat,
                         hT: Tensor4, cT: Tensor4, gT: Tensor4)
    requires FwdDone(cfg, xData, length, sb, b, sb.d1, hT, cT, gT)
    ensures FwdDone(cfg, xData, length, sb, b + 1, 0, hT, cT, gT)
  {
    var next := b + 1;
    forall i, j | 0 <= i < sb.d0 && 0 <= j < sb.d1
      ensures FwdAt(cfg, xData, length, sb, next, 0, hT, cT, gT, i, j)
    {
      assert FwdAt(cfg, xData, length, sb, b, sb.d1, hT, cT, gT, i, j);
    }
  }

  lemma FwdDoneAll(cfg: LayerConfig, xData: Tensor4, length: seq<seq<int>>, sb: Shape4,
                   hT: Tensor4, cT: Tensor4, gT: Tensor4)
    requires FwdDone(cfg, xData, length, sb, sb.d0, 0, hT, cT, gT)
    ensures forall b, s :: 0 <= b < sb.d0 && 0 <= s < sb.d1 ==>
      PairDone(cfg, xData[b][s], length[b][s], sb.d2, hT[b][s], cT[b][s], gT[b][s])
  {
    forall b, s | 0 <= b < sb.d0 && 0 <= s < sb.d1
      ensures PairDone(cfg, xData[b][s], length[b][s], sb.d2, hT[b][s], cT[b][s], gT[b][s])
    {
      assert FwdAt(cfg, xData, length, sb, sb.d0, 0, hT, cT, gT, b, s);
    }
  }

  /** The backward pass over pair (b, s), its schedule run from the
      pair's initial gradient rows with the shared buffers at `acc`. */
  function PairRun(cfg: LayerConfig, inp: BackInput, b: int, s: int, acc: Acc): BackState {
    Run(cfg.ctx, PairCache(inp, b, s), BackState(PairGrads(inp, b, s, cfg.ctx.dMem), acc),
        Schedule(cfg.reverse, PairLen(inp.length, b, s)))
  }

  /** The shared buffers after one pair's backward pass, as a function of
      the pair and of the buffers before it. */
  function PairAcc(cfg: LayerConfig, inp: BackInput): (int, int, Acc) -> Acc {
    (b: int, s: int, acc: Acc) => PairRun(cfg, inp, b, s, acc).acc
  }

  /** `run` is the pairs' backward pass on the shared buffers. */
  ghost predicate IsPairAcc(cfg: LayerConfig, inp: BackInput, run: (int, int, Acc) -> Acc) {
    forall b: int, s: int, acc: Acc {:trigger PairRun(cfg, inp, b, s, acc)} ::
      run(b, s, acc) == PairRun(cfg, inp, b, s, acc).acc
  }

  lemma PairAccIs(cfg: LayerConfig, inp: BackInput)
    ensures IsPairAcc(cfg, inp, PairAcc(cfg, inp))
  {
  }

  /** The shared buffers after every pair before (b, s) in the order of
      `Backprop`'s loops, with `cols` pairs per batch entry, from `acc0`,
      each pair going through `run`. */
  function AccBefore(run: (int, int, Acc) -> Acc, cols: nat, acc0: Acc, b: nat, s: nat): Acc
    requires s <= cols
    decreases b, s
  {
    if s == 0 then (if b == 0 then acc0 else AccBefore(run, cols, acc0, b - 1, cols))
    else run(b, s - 1, AccBefore(run, cols, acc0, b, s - 1))
  }

  /** The gradient planes of a pair after its turn: its valid length is
      non-negative and fits, and the leading rows hold what its schedule
      leaves, over the rows it does not reach. */
  predicate BackPairDone(cfg: LayerConfig, inp: BackInput, b: int, s: int, rows: nat,
                         hP: Mat, cP: Mat, gP: Mat, xP: Mat) {
    var dMem := cfg.ctx.dMem;
    var r := PairRun(cfg, inp, b, s, ZeroAcc(cfg.dInput, dMem)).gr;
    && 0 <= b < |inp.length| && 0 <= s < |inp.length[b]| && 0 <= inp.length[b][s] <= rows
    && hP == Overlay(Plane(inp.hEr, b, s), r.hEr) && cP == Overlay(ZeroMat(rows, dMem), r.cEr)
    && gP == Overlay(ZeroMat(rows, 2 * dMem), r.gEr) && xP == Overlay(Plane(inp.xEr, b, s), r.xEr)
  }

  /** The gradient planes of a pair before its turn. */
  predicate BackPairInit(dMem: nat, inp: BackInput, b: int, s: int, rows: nat,
                         hP: Mat, cP: Mat, gP: Mat, xP: Mat) {
    && hP == Plane(inp.hEr, b, s) && cP == ZeroMat(rows, dMem)
    && gP == ZeroMat(rows, 2 * dMem) && xP == Plane(inp.xEr, b, s)
  }

  /** A pair's turn, from the driver's result to the model's: the planes
      the driver leaves are those of `BackPairDone`, and the shared buffers
      move from `accB` by the pair's backward pass. */
  lemma PairDoneFromInit(cfg: LayerConfig, inp: BackInput, b: nat, s: nat, rows: nat,
                         hP: Mat, cP: Mat, gP: Mat, xP: Mat,
                         accB: Acc, accA: Acc, hE: Mat, cE: Mat, gE: Mat, xE: Mat)
    requires b < |inp.length| && s < |inp.length[b]| && 0 <= inp.length[b][s] <= rows
    requires b < |inp.hs| && s < |inp.hs[b]| && b < |inp.cs| && s < |inp.cs[b]|
    requires b < |inp.gs| && s < |inp.gs[b]| && b < |inp.xs| && s < |inp.xs[b]|
    requires b < |inp.hEr| && s < |inp.hEr[b]| && b < |inp.xEr| && s < |inp.xEr[b]|
    requires BackPairInit(cfg.ctx.dMem, inp, b, s, rows, hP, cP, gP, xP)
    requires var len := inp.length[b][s];
      var r := Run(cfg.ctx, Cache(Lead(inp.hs[b][s], len), Lead(inp.cs[b][s], len),
                                  Lead(inp.gs[b][s], len), Lead(inp.xs[b][s], len)),
                   BackState(Grads(Lead(hP, len), Lead(cP, len), Lead(gP, len), Lead(xP, len)), accB),
                   Schedule(cfg.reverse, len));
      && hE == Overlay(hP, r.gr.hEr) && cE == Overlay(cP, r.gr.cEr)
      && gE == Overlay(gP, r.gr.gEr) && xE == Overlay(xP, r.gr.xEr)
      && accA == r.acc
    ensures BackPairDone(cfg, inp, b, s, rows, hE, cE, gE, xE)
    ensures accA == PairRun(cfg, inp, b, s, accB).acc
  {
    var len: nat := inp.length[b][s];
    var dMem := cfg.ctx.dMem;
    LeadZeroMat(rows, dMem, len);
    LeadZeroMat(rows, 2 * dMem, len);
    assert PairGrads(inp, b, s, dMem) == Grads(Lead(hP, len), Lead(cP, len), Lead(gP, len), Lead(xP, len));
    RunGradsIgnoreAcc(cfg.ctx, PairCache(inp, b, s), PairGrads(inp, b, s, dMem), accB, ZeroAcc(cfg.dInput, dMem),
                      Schedule(cfg.reverse, len));
  }

  /** The first `n` valid lengths of a batch entry are non-negative. */
  predicate NonNegUpTo(row: seq<int>, n: int) {
    forall j :: 0 <= j < n && j < |row| ==> row[j] >= 0
  }

  lemma NonNegUpToSnoc(row: seq<int>, n: nat)
    requires n < |row| && NonNegUpTo(row, n) && row[n] >= 0
    ensures NonNegUpTo(row, n + 1)
  {
  }

  /** The valid lengths of the first `n` batch entries are non-negative. */
  predicate NonNegBatches(length: seq<seq<int>>, n: int) {
    forall i :: 0 <= i < n && i < |length| ==> NonNegUpTo(length[i], |length[i]|)
  }

  lemma NonNegBatchesSnoc(length: seq<seq<int>>, n: nat)
    requires n < |length| && NonNegBatches(length, n) && NonNegUpTo(length[n], |length[n]|)
    ensures NonNegBatches(length, n + 1)
  {
  }

  lemma NonNegBatchesValid(length: seq<seq<int>>)
    requires NonNegBatches(length, |length|)
    ensures LengthsValid(length)
  {
    forall b, s | 0 <= b < |length| && 0 <= s < |length[b]| ensures length[b][s] >= 0 {
      assert NonNegUpTo(length[b], |length[b]|);
    }
  }

  /** A negative length in one batch entry makes the lengths invalid. */
  lemma NegativeLength(length: seq<seq<int>>, n: nat)
    requires n < |length| && !NonNegUpTo(length[n], |length[n]|)
    ensures !LengthsValid(length)
  {
    var j :| 0 <= j < |length[n]| && length[n][j] < 0;
  }

  /** Pair (i, j) while `Backprop`'s loops stand before pair (b, s): done
      when it comes before, untouched otherwise. */
  predicate PairAt(cfg: LayerConfig, inp: BackInput, sb: Shape4, b: int, s: int,
                   hT: Tensor4, cT: Tensor4, gT: Tensor4, xT: Tensor4, i: int, j: int)
    requires 0 <= i < |hT| && 0 <= j < |hT[i]| && 0 <= i < |cT| && 0 <= j < |cT[i]|
    requires 0 <= i < |gT| && 0 <= j < |gT[i]| && 0 <= i < |xT| && 0 <= j < |xT[i]|
  {
    if Before(i, j, b, s) then BackPairDone(cfg, inp, i, j, sb.d2, hT[i][j], cT[i][j], gT[i][j], xT[i][j])
    else BackPairInit(cfg.ctx.dMem, inp, i, j, sb.d2, hT[i][j], cT[i][j], gT[i][j], xT[i][j])
  }

  /** The gradient planes while `Backprop`'s loops stand before pair
      (b, s): the pairs before it are done, the others untouched. */
  predicate PairsDone(cfg: LayerConfig, inp: BackInput, sb: Shape4, b: int, s: int,
                      hT: Tensor4, cT: Tensor4, gT: Tensor4, xT: Tensor4) {
    var dMem := cfg.ctx.dMem;
    && Shaped4(hT, Shape4(sb.d0, sb.d1, sb.d2, dMem)) && Shaped4(cT, Shape4(sb.d0, sb.d1, sb.d2, dMem))
    && Shaped4(gT, Shape4(sb.d0, sb.d1, sb.d2, 2 * dMem)) && Shaped4(xT, Shape4(sb.d0, sb.d1, sb.d2, cfg.dInput))
    && forall i, j :: 0 <= i < sb.d0 && 0 <= j < sb.d1 ==> PairAt(cfg, inp, sb, b, s, hT, cT, gT, xT, i, j)
  }

  /** At the end every pair is done. */
  lemma PairsDoneAll(cfg: LayerConfig, inp: BackInput, sb: Shape4, hT: Tensor4, cT: Tensor4, gT: Tensor4, xT: Tensor4)
    requires PairsDone(cfg, inp, sb, sb.d0, 0, hT, cT, gT, xT)
    ensures forall b, s :: 0 <= b < sb.d0 && 0 <= s < sb.d1 ==>
      BackPairDone(cfg, inp, b, s, sb.d2, hT[b][s], cT[b][s], gT[b][s], xT[b][s])
  {
    forall b, s | 0 <= b < sb.d0 && 0 <= s < sb.d1
      ensures BackPairDone(cfg, inp, b, s, sb.d2, hT[b][s], cT[b][s], gT[b][s], xT[b][s])
    {
      assert PairAt(cfg, inp, sb, sb.d0, 0, hT, cT, gT, xT, b, s);
    }
  }

  /** At the start no pair is done. */
  lemma PairsDoneStart(cfg: LayerConfig, inp: BackInput, sb: Shape4, hT: Tensor4, xT: Tensor4)
    requires Shaped4(hT, Shape4(sb.d0, sb.d1, sb.d2, cfg.ctx.dMem)) && Shaped4(xT, Shape4(sb.d0, sb.d1, sb.d2, cfg.dInput))
    requires forall b, s :: 0 <= b < sb.d0 && 0 <= s < sb.d1 ==> hT[b][s] == Plane(inp.hEr, b, s) && xT[b][s] == Plane(inp.xEr, b, s)
    ensures PairsDone(cfg, inp, sb, 0, 0, hT, Zeros4(Shape4(sb.d0, sb.d1, sb.d2, cfg.ctx.dMem)),
                      Zeros4(Shape4(sb.d0, sb.d1, sb.d2, 2 * cfg.ctx.dMem)), xT)
  {
  }

  /** Pair (b, s) done: the loops stand before the next pair. */
  lemma PairsDoneStep(cfg: LayerConfig, inp: BackInput, sb: Shape4, b: nat, s: nat,
                      hT: Tensor4, cT: Tensor4, gT: Tensor4, xT: Tensor4, hP: Mat, cP: Mat, gP: Mat, xP: Mat)
    requires b < sb.d0 && s < sb.d1 && PairsDone(cfg, inp, sb, b, s, hT, cT, gT, xT)
    requires IsMat(hP, sb.d2, cfg.ctx.dMem) && IsMat(cP, sb.d2, cfg.ctx.dMem)
    requires IsMat(gP, sb.d2, 2 * cfg.ctx.dMem) && IsMat(xP, sb.d2, cfg.dInput)
    requires BackPairDone(cfg, inp, b, s, sb.d2, hP, cP, gP, xP)
    ensures PairsDone(cfg, inp, sb, b, s + 1, SetPlane(hT, b, s, hP), SetPlane(cT, b, s, cP),
                      SetPlane(gT, b, s, gP), SetPlane(xT, b, s, xP))
  {
    var dMem := cfg.ctx.dMem;
    SetPlaneShaped(hT, Shape4(sb.d0, sb.d1, sb.d2, dMem), b, s, hP);
    SetPlaneShaped(cT, Shape4(sb.d0, sb.d1, sb.d2, dMem), b, s, cP);
    SetPlaneShaped(gT, Shape4(sb.d0, sb.d1, sb.d2, 2 * dMem), b, s, gP);
    SetPlaneShaped(xT, Shape4(sb.d0, sb.d1, sb.d2, cfg.dInput), b, s, xP);
    var hU, cU, gU, xU := SetPlane(hT, b, s, hP), SetPlane(cT, b, s, cP), SetPlane(gT, b, s, gP), SetPlane(xT, b, s, xP);
    var next := s + 1;
    forall i, j | 0 <= i < sb.d0 && 0 <= j < sb.d1
      ensures PairAt(cfg, inp, sb, b, next, hU, cU, gU, xU, i, j)
    {
      if i != b || j != s {
        assert PairAt(cfg, inp, sb, b, s, hT, cT, gT, xT, i, j);
      }
    }
  }

  /** The end of a batch entry's pairs is the start of the next entry's. */
  lemma PairsDoneNextBatch(cfg: LayerConfig, inp: BackInput, sb: Shape4, b: nat,
                           hT: Tensor4, cT: Tensor4, gT: Tensor4, xT: Tensor4)
    requires PairsDone(cfg, inp, sb, b, sb.d1, hT, cT, gT, xT)
    ensures PairsDone(cfg, inp, sb, b + 1, 0, hT, cT, gT, xT)
  {
    var next := b + 1;
    forall i, j | 0 <= i < sb.d0 && 0 <= j < sb.d1
      ensures PairAt(cfg, inp, sb, next, 0, hT, cT, gT, xT, i, j)
    {
      assert PairAt(cfg, inp, sb, b, sb.d1, hT, cT, gT, xT, i, j);
    }
  }

  /** What pair (b, s) alone adds into `begin_h_er` and the parameter
      gradients: its backward pass on buffers that start at zero. */
  function PairContribution(cfg: LayerConfig, inp: BackInput): (int, int) -> Acc {
    (b: int, s: int) => PairRun(cfg, inp, b, s, ZeroAcc(cfg.dInput, cfg.ctx.dMem)).acc
  }

  /** The sum, from `zero`, of `contrib` over every pair before (b, s) in
      the order of `Backprop`'s loops, with `cols` pairs per batch entry. */
  function SumBefore(contrib: (int, int) -> Acc, cols: nat, zero: Acc, b: nat, s: nat): Acc
    requires s <= cols
    decreases b, s
  {
    if s == 0 then (if b == 0 then zero else SumBefore(contrib, cols, zero, b - 1, cols))
    else AddAcc(SumBefore(contrib, cols, zero, b, s - 1), contrib(b, s - 1))
  }

  lemma AddAccShaped(a: Acc, b: Acc, dInput: nat, dMem: nat)
    requires AccShaped(a, dInput, dMem)
    ensures AccShaped(AddAcc(a, b), dInput, dMem)
  {
    MatAddShape(a.dw.wg, b.dw.wg, dInput, 2 * dMem);
    MatAddShape(a.dw.ug, b.dw.ug, dMem, 2 * dMem);
    MatAddShape(a.dw.bg, b.dw.bg, 1, 2 * dMem);
    MatAddShape(a.dw.wc, b.dw.wc, dInput, dMem);
    MatAddShape(a.dw.uc, b.dw.uc, dMem, dMem);
    MatAddShape(a.dw.bc, b.dw.bc, 1, dMem);
  }

  lemma AddAccAssoc(a: Acc, b: Acc, c: Acc, dInput: nat, dMem: nat)
    requires AccShaped(a, dInput, dMem) && AccShaped(b, dInput, dMem)
    ensures AddAcc(AddAcc(a, b), c) == AddAcc(a, AddAcc(b, c))
  {
    VAddAssoc(a.beginHEr, b.beginHEr, c.beginHEr);
    MatAddAssoc(a.dw.wg, b.dw.wg, c.dw.wg, dInput, 2 * dMem);
    MatAddAssoc(a.dw.ug, b.dw.ug, c.dw.ug, dMem, 2 * dMem);
    MatAddAssoc(a.dw.bg, b.dw.bg, c.dw.bg, 1, 2 * dMem);
    MatAddAssoc(a.dw.wc, b.dw.wc, c.dw.wc, dInput, dMem);
    MatAddAssoc(a.dw.uc, b.dw.uc, c.dw.uc, dMem, dMem);
    MatAddAssoc(a.dw.bc, b.dw.bc, c.dw.bc, 1, dMem);
  }

  /** `run` adds `contrib(b, s)` to whatever shaped buffers it is given. */
  ghost predicate AddsContribution(run: (int, int, Acc) -> Acc, contrib: (int, int) -> Acc, dInput: nat, dMem: nat) {
    forall b: int, s: int, acc: Acc {:trigger run(b, s, acc)} ::
      AccShaped(acc, dInput, dMem) ==> run(b, s, acc) == AddAcc(acc, contrib(b, s))
  }

  /** Every contribution is shaped like the shared buffers. */
  ghost predicate ContributionsShaped(contrib: (int, int) -> Acc, dInput: nat, dMem: nat) {
    forall b: int, s: int {:trigger contrib(b, s)} :: AccShaped(contrib(b, s), dInput, dMem)
  }

  /** A pair's backward pass adds its own contribution to whatever the
      shared buffers held, and that contribution is shaped. */
  lemma PairAccAddsContribution(cfg: LayerConfig, inp: BackInput)
    ensures AddsContribution(PairAcc(cfg, inp), PairContribution(cfg, inp), cfg.dInput, cfg.ctx.dMem)
    ensures ContributionsShaped(PairContribution(cfg, inp), cfg.dInput, cfg.ctx.dMem)
  {
    var dInput, dMem := cfg.dInput, cfg.ctx.dMem;
    forall b: int, s: int, acc: Acc | AccShaped(acc, dInput, dMem)
      ensures PairAcc(cfg, inp)(b, s, acc) == AddAcc(acc, PairContribution(cfg, inp)(b, s))
    {
      RunAccAdditive(cfg.ctx, PairCache(inp, b, s), BackState(PairGrads(inp, b, s, dMem), acc),
                     Schedule(cfg.reverse, PairLen(inp.length, b, s)), dInput);
    }
    forall b: int, s: int ensures AccShaped(PairContribution(cfg, inp)(b, s), dInput, dMem) {
      RunAccShaped(cfg.ctx, PairCache(inp, b, s), BackState(PairGrads(inp, b, s, dMem), ZeroAcc(dInput, dMem)),
                   Schedule(cfg.reverse, PairLen(inp.length, b, s)), dInput);
    }
  }

  /** The sum of shaped contributions from shaped buffers is shaped. */
  lemma {:induction false} SumBeforeShaped(contrib: (int, int) -> Acc, cols: nat, zero: Acc, b: nat, s: nat,
                                           dInput: nat, dMem: nat)
    requires s <= cols && AccShaped(zero, dInput, dMem) && ContributionsShaped(contrib, dInput, dMem)
    ensures AccShaped(SumBefore(contrib, cols, zero, b, s), dInput, dMem)
    decreases b, s
  {
    if s == 0 {
      if b > 0 {
        SumBeforeShaped(contrib, cols, zero, b - 1, cols, dInput, dMem);
      }
    } else {
      SumBeforeShaped(contrib, cols, zero, b, s - 1, dInput, dMem);
      AddAccShaped(SumBefore(contrib, cols, zero, b, s - 1), contrib(b, s - 1), dInput, dMem);
    }
  }

  /** Accumulation across pairs is strictly additive: when every pair adds
      its own contribution, the buffers after the pairs before (b, s) hold
      their values on entry plus the sum of those contributions. */
  lemma {:induction false} AccBeforeIsSum(run: (int, int, Acc) -> Acc, contrib: (int, int) -> Acc,
                                          cols: nat, acc0: Acc, b: nat, s: nat, dInput: nat, dMem: nat)
    requires s <= cols && AccShaped(acc0, dInput, dMem)
    requires AddsContribution(run, contrib, dInput, dMem) && ContributionsShaped(contrib, dInput, dMem)
    ensures AccBefore(run, cols, acc0, b, s) == AddAcc(acc0, SumBefore(contrib, cols, ZeroAcc(dInput, dMem), b, s))
    decreases b, s
  {
    var zero := ZeroAcc(dInput, dMem);
    if s == 0 {
      if b == 0 {
        AddZeroAcc(acc0, dInput, dMem);
      } else {
        AccBeforeIsSum(run, contrib, cols, acc0, b - 1, cols, dInput, dMem);
      }
    } else {
      var sum := SumBefore(contrib, cols, zero, b, s - 1);
      AccBeforeIsSum(run, contrib, cols, acc0, b, s - 1, dInput, dMem);
      SumBeforeShaped(contrib, cols, zero, b, s - 1, dInput, dMem);
      AddAccShaped(acc0, sum, dInput, dMem);
      assert run(b, s - 1, AddAcc(acc0, sum)) == AddAcc(AddAcc(acc0, sum), contrib(b, s - 1));
      AddAccAssoc(acc0, sum, contrib(b, s - 1), dInput, dMem);
    }
  }

  /** `run` leaves the bias gradients as it finds them. */
  ghost predicate KeepsBias(run: (int, int, Acc) -> Acc) {
    forall b: int, s: int, acc: Acc {:trigger run(b, s, acc)} ::
      run(b, s, acc).dw.bg == acc.dw.bg && run(b, s, acc).dw.bc == acc.dw.bc
  }

  /** No pair's backward pass touches the bias gradients. */
  lemma PairAccKeepsBias(cfg: LayerConfig, inp: BackInput)
    ensures KeepsBias(PairAcc(cfg, inp))
  {
    forall b: int, s: int, acc: Acc
      ensures PairAcc(cfg, inp)(b, s, acc).dw.bg == acc.dw.bg && PairAcc(cfg, inp)(b, s, acc).dw.bc == acc.dw.bc
    {
      RunKeepsBias(cfg.ctx, PairCache(inp, b, s), BackState(PairGrads(inp, b, s, cfg.ctx.dMem), acc),
                   Schedule(cfg.reverse, PairLen(inp.length, b, s)));
    }
  }

  /** `Backprop`'s loops leave the bias gradients as they found them. */
  lemma {:induction false} AccBeforeKeepsBias(run: (int, int, Acc) -> Acc, cols: nat, acc0: Acc, b: nat, s: nat)
    requires s <= cols && KeepsBias(run)
    ensures AccBefore(run, cols, acc0, b, s).dw.bg == acc0.dw.bg
    ensures AccBefore(run, cols, acc0, b, s).dw.bc == acc0.dw.bc
    decreases b, s
  {
    if s == 0 {
      if b > 0 {
        AccBeforeKeepsBias(run, cols, acc0, b - 1, cols);
      }
    } else {
      AccBeforeKeepsBias(run, cols, acc0, b, s - 1);
      var before := AccBefore(run, cols, acc0, b, s - 1);
      assert run(b, s - 1, before).dw.bg == before.dw.bg;
    }
  }

  /** What `Backprop` leaves in `begin_h_er` and the parameter gradients
      (the fold over all pairs, from `begin_h_er` zero and the gradients
      `dw0` it found) is `dw0` plus the sum over the pairs of what each pair
      alone contributes, so no pair's gradient is lost or counted twice; and
      the two bias gradients keep the values they had. */
  lemma BackpropGradientsAreSums(cfg: LayerConfig, inp: BackInput, sb: Shape4, dw0: Weights)
    requires WeightsShaped(dw0, cfg.dInput, cfg.ctx.dMem)
    ensures var total := SumBefore(PairContribution(cfg, inp), sb.d1, ZeroAcc(cfg.dInput, cfg.ctx.dMem), sb.d0, 0);
      AccBefore(PairAcc(cfg, inp), sb.d1, Acc(Zeros(cfg.ctx.dMem), dw0), sb.d0, 0)
        == AddAcc(Acc(Zeros(cfg.ctx.dMem), dw0), total)
    ensures var after := AccBefore(PairAcc(cfg, inp), sb.d1, Acc(Zeros(cfg.ctx.dMem), dw0), sb.d0, 0);
      after.dw.bg == dw0.bg && after.dw.bc == dw0.bc
  {
    PairAccKeepsBias(cfg, inp);
    AccBeforeKeepsBias(PairAcc(cfg, inp), sb.d1, Acc(Zeros(cfg.ctx.dMem), dw0), sb.d0, 0);
    PairAccAddsContribution(cfg, inp);
    AccBeforeIsSum(PairAcc(cfg, inp), PairContribution(cfg, inp), sb.d1, Acc(Zeros(cfg.ctx.dMem), dw0),
                   sb.d0, 0, cfg.dInput, cfg.ctx.dMem);
  }

  class GruLayer {
    const act: Activations
    var dMem: nat
    var dInput: nat
    var reverse: bool
    var beginH: Vec
    var beginHEr: Vec
    var paramShapes: seq<Shape4>
    var w: Weights
    var dw: Weights
    var c: Tensor4
    var g: Tensor4
    var cEr: Tensor4
    var gEr: Tensor4

    /** After setup: `begin_h` and `begin_h_er` are d_mem wide, `begin_h`
        is zero, and the parameters and their gradients have their
        shapes. */
    predicate Ready()
      reads this
    {
      && beginH == Zeros(dMem) && |beginHEr| == dMem
      && WeightsShaped(w, dInput, dMem) && WeightsShaped(dw, dInput, dMem)
    }

    /** The cell every forward step of this layer runs. */
    function Cell(): Timeline.Cell
      reads this`w, this`dMem
    {
      GruStep(act, w, dMem)
    }

    function Context(): Ctx
      reads this`w, this`dMem, this`beginH
    {
      Ctx(act, w, dMem, beginH)
    }

    /** The configuration the passes read. */
    function Config(): LayerConfig
      reads this`w, this`dMem, this`beginH, this`reverse, this`dInput
    {
      LayerConfig(Context(), reverse, dInput)
    }

    /** The shapes `Forward` and `Backprop` rely on, as `Reshape` leaves
        them: the bottom has d_input columns, the top shares its first
        three dimensions and has d_mem columns, `c` and `c_er` are shaped as
        the top, `g` and `g_er` have 2 * d_mem columns, and every valid
        length fits in the rows of a plane. */
    predicate Fits(bottom: Node, top: Node)
      reads this, bottom, top
    {
      var sb := bottom.dataShape;
      var sOut := Shape4(sb.d0, sb.d1, sb.d2, dMem);
      var sGate := Shape4(sb.d0, sb.d1, sb.d2, 2 * dMem);
      && bottom.Valid() && top.Valid() && Ready()
      && sb.d3 == dInput && top.dataShape == sOut
      && Shaped4(c, sOut) && Shaped4(cEr, sOut) && Shaped4(g, sGate) && Shaped4(gEr, sGate)
      && LengthsShaped(bottom.length, sb.d0, sb.d1, sb.d2)
    }

    constructor (act0: Activations)
      ensures act == act0 && dMem == 0 && dInput == 0 && !reverse
    {
      act := act0;
      dMem, dInput, reverse := 0, 0, false;
      beginH, beginHEr := [], [];
      paramShapes := [];
      w := ZeroWeights(0, 0);
      dw := ZeroWeights(0, 0);
      c, g, cEr, gEr := [], [], [], [];
    }

    /** `SetupLayer`: exactly one bottom node, exactly one top node and a
        configured `d_mem`, checked in that order; then `d_input` is the
        last dimension of the bottom data, `begin_h` and `begin_h_er` are
        zero rows of width d_mem, and the six parameters get their shapes,
        zero gradients and the values `initial` their initializers
        produce. */
    method SetupLayer(settings: Settings, bottom: seq<Node>, top: seq<Node>, initial: Weights)
      returns (res: Outcome)
      requires |bottom| == 1 && settings.dMem.Some? ==>
        WeightsShaped(initial, bottom[0].dataShape.d3, settings.dMem.value)
      modifies this
      ensures res.Abort? <==> |bottom| != 1 || |top| != 1 || settings.dMem.None?
      ensures |bottom| != 1 ==> res == Abort(BottomSizeProblem)
      ensures |bottom| == 1 && |top| != 1 ==> res == Abort(TopSizeProblem)
      ensures |bottom| == 1 && |top| == 1 && settings.dMem.None? ==> res == Abort(SettingProblem)
      ensures res.Abort? ==> unchanged(this)
      ensures res.Pass? ==>
        && dMem == settings.dMem.value && dInput == bottom[0].dataShape.d3 && reverse == settings.reverse
        && beginH == Zeros(dMem) && beginHEr == Zeros(dMem)
        && paramShapes == ParamShapes(dInput, dMem)
        && w == initial && dw == ZeroWeights(dInput, dMem)
        && Ready()
      ensures c == old(c) && g == old(g) && cEr == old(cEr) && gEr == old(gEr)
    {
      if |bottom| != 1 {
        return Abort(BottomSizeProblem);
      }
      if |top| != 1 {
        return Abort(TopSizeProblem);
      }
      if settings.dMem.None? {
        return Abort(SettingProblem);
      }
      dMem := settings.dMem.value;
      dInput := bottom[0].dataShape.d3;
      reverse := settings.reverse;
      beginH := Zeros(dMem);
      beginHEr := Zeros(dMem);
      paramShapes := ParamShapes(dInput, dMem);
      dw := ZeroWeights(dInput, dMem);
      w := initial;
      res := Pass;
    }

    /** `Reshape`: with bottom shape (s0, s1, s2, s3), the top node is
        resized with zero fill to (s0, s1, s2, d_mem), `c` and `c_er` are
        zero tensors of that shape and `g` and `g_er` of shape
        (s0, s1, s2, 2 * d_mem). */
    method Reshape(bottom: seq<Node>, top: seq<Node>) returns (res: Outcome)
      requires |top| == 1 ==> top[0].Valid()
      modifies this, set n | n in top
      ensures res.Abort? <==> |bottom| != 1 || |top| != 1
      ensures |bottom| != 1 ==> res == Abort(BottomSizeProblem)
      ensures |bottom| == 1 && |top| != 1 ==> res == Abort(TopSizeProblem)
      ensures res.Pass? ==>
        var s := old(bottom[0].dataShape);
        var shapeOut := Shape4(s.d0, s.d1, s.d2, dMem);
        var shapeGate := Shape4(s.d0, s.d1, s.d2, 2 * dMem);
        && top[0].dataShape == shapeOut && top[0].data == Zeros4(shapeOut)
        && (top[0].needDiff ==> top[0].diffShape == shapeOut && top[0].diff == Zeros4(shapeOut))
        && top[0].Valid()
        && c == Zeros4(shapeOut) && cEr == Zeros4(shapeOut)
        && g == Zeros4(shapeGate) && gEr == Zeros4(shapeGate)
      ensures res.Pass? ==>
        var t := top[0];
        && t.length == old(t.length) && t.idx == old(t.idx) && t.needDiff == old(t.needDiff)
        && t.mustContiguous == old(t.mustContiguous)
        && t.initedData == old(t.initedData) && t.initedDiff == old(t.initedDiff)
        && t.updater == old(t.updater) && t.initializer == old(t.initializer)
        && (!t.needDiff ==> t.diff == old(t.diff) && t.diffShape == old(t.diffShape))
      ensures res.Abort? ==>
        unchanged(set n | n in top) && c == old(c) && g == old(g) && cEr == old(cEr) && gEr == old(gEr)
      ensures dMem == old(dMem) && dInput == old(dInput) && reverse == old(reverse)
      ensures beginH == old(beginH) && beginHEr == old(beginHEr) && w == old(w) && dw == old(dw)
      ensures paramShapes == old(paramShapes)
    {
      if |bottom| != 1 {
        return Abort(BottomSizeProblem);
      }
      if |top| != 1 {
        return Abort(TopSizeProblem);
      }
      var shapeIn := bottom[0].dataShape;
      var shapeOut := Shape4(shapeIn.d0, shapeIn.d1, shapeIn.d2, dMem);
      var shapeGate := Shape4(shapeIn.d0, shapeIn.d1, shapeIn.d2, 2 * dMem);
      var _ := top[0].Resize(shapeOut, true);
      c := Zeros4(shapeOut);
      g := Zeros4(shapeGate);
      cEr := Zeros4(shapeOut);
      gEr := Zeros4(shapeGate);
      res := Pass;
    }

    /** `ForwardOneStep`: the gate row, then the candidate, then the new
        hidden state, computed in the order and through the views the
        source uses; the result is the closed-form step. */
    method ForwardOneStep(preH: Vec, x: Vec) returns (curG: Vec, curC: Vec, curH: Vec)
      ensures StepOut(curG, curC, curH) == ForwardStep(act, w, dMem, preH, x)
    {
      curG := VecMat(x, w.wg, 2 * dMem);
      curG := VAdd(curG, VecMat(preH, w.ug, 2 * dMem));
      curG := VMap(act.sigmoid, curG);
      var views := SplitGate([curG], dMem);
      var r := Read(curG, views.value.r);
      var z := Read(curG, views.value.z);

      curC := VecMat(x, w.wc, dMem);
      var rMulPreH := VMul(r, preH);
      curC := VAdd(curC, VecMat(rMulPreH, w.uc, dMem));
      curC := VMap(act.tanh, curC);

      curH := VAdd(VMul(z, preH), VMul(OneMinus(z), curC));
    }

    /** `BpOneStep`: the statements of the source in their order, the gate
        gradient row written through its two views. The rows it returns are
        the new `cur_c_er`, `cur_g_er`, `pre_h_er` and `x_er`; the amounts
        added to `pre_h_er`, `x_er` and the four weight gradients, and the
        two rows it leaves, are those of the chain-rule step. */
    method BpOneStep(curHEr: Vec, preH: Vec, x: Vec, curG: Vec, curC: Vec,
                     curCEr: Vec, curGEr: Vec, preHEr: Vec, xEr: Vec)
      returns (cE: Vec, gE: Vec, pe: Vec, xe: Vec)
      requires Ready()
      requires |curHEr| == dMem && |preHEr| == dMem && |xEr| == dInput
      requires |curCEr| == dMem && |curGEr| == 2 * dMem
      modifies this`dw
      ensures Ready()
      ensures var o := BackwardStep(act, w, dMem, curHEr, preH, x, curG, curC, curCEr, curGEr);
        && cE == o.cEr && gE == o.gEr
        && pe == VAdd(preHEr, o.dPreH) && xe == VAdd(xEr, o.dX)
        && dw == AddGrads(old(dw), o)
    {
      var views := SplitGate([curG], dMem);
      var rv, zv := views.value.r, views.value.z;
      var r, z := Read(curG, rv), Read(curG, zv);
      GateViewsDisjoint(dMem);
      ghost var dw0 := dw;

      pe := VAdd(preHEr, VMul(curHEr, z));
      cE := VAdd(curCEr, VMul(curHEr, OneMinus(z)));
      gE := curGEr;
      gE := Write(gE, zv, VAdd(Read(gE, zv), VMul(curHEr, preH)));
      gE := Write(gE, zv, VAdd(Read(gE, zv), VMul(curHEr, VScale(-1.0, curC))));
      ghost var zAcc := Read(gE, zv);
      ReadWriteSame(Write(curGEr, zv, VAdd(Read(curGEr, zv), VMul(curHEr, preH))), zv,
                    VAdd(VAdd(Read(curGEr, zv), VMul(curHEr, preH)), VMul(curHEr, VScale(-1.0, curC))));
      ReadWriteSame(curGEr, zv, VAdd(Read(curGEr, zv), VMul(curHEr, preH)));

      cE := VMul(cE, VMap(act.tanhGrad, curC));
      xe := VAdd(xEr, VecMatT(cE, w.wc));
      dw := dw.(wc := MatAdd(dw.wc, Outer(x, cE)));
      var back := VecMatT(cE, w.uc);
      ghost var beforeR := gE;
      gE := Write(gE, rv, back);
      ReadWriteSame(beforeR, rv, back);
      ReadWriteOther(beforeR, rv, zv, back);
      beforeR := gE;
      gE := Write(gE, rv, VMul(Read(gE, rv), preH));
      ReadWriteSame(beforeR, rv, VMul(back, preH));
      ReadWriteOther(beforeR, rv, zv, VMul(back, preH));

      var tmp := VecMatT(cE, w.uc);
      pe := VAdd(pe, VMul(r, tmp));
      var rMulPreH := VMul(r, preH);
      dw := dw.(uc := MatAdd(dw.uc, Outer(rMulPreH, cE)));

      ghost var beforeZ := gE;
      var zErScaled := VMul(Read(gE, zv), VMap(act.sigmoidGrad, z));
      gE := Write(gE, zv, zErScaled);
      ReadWriteSame(beforeZ, zv, zErScaled);
      ReadWriteOther(beforeZ, zv, rv, zErScaled);
      ghost var beforeRs := gE;
      var rErScaled := VMul(Read(gE, rv), VMap(act.sigmoidGrad, r));
      gE := Write(gE, rv, rErScaled);
      ReadWriteSame(beforeRs, rv, rErScaled);
      ReadWriteOther(beforeRs, rv, zv, rErScaled);
      SplitCovers(gE, dMem);
      assert gE == rErScaled + zErScaled;

      xe := VAdd(xe, VecMatT(gE, w.wg));
      pe := VAdd(pe, VecMatT(gE, w.ug));
      dw := dw.(wg := MatAdd(dw.wg, Outer(x, gE)), ug := MatAdd(dw.ug, Outer(preH, gE)));

      VAddAssoc(preHEr, VMul(curHEr, z), VMul(r, back));
      VAddAssoc(preHEr, VAdd(VMul(curHEr, z), VMul(r, back)), VecMatT(gE, w.ug));
      VAddAssoc(xEr, VecMatT(cE, w.wc), VecMatT(gE, w.wg));
      MatAddShape(dw0.wg, Outer(x, gE), dInput, 2 * dMem);
      MatAddShape(dw0.ug, Outer(preH, gE), dMem, 2 * dMem);
      MatAddShape(dw0.wc, Outer(x, cE), dInput, dMem);
      MatAddShape(dw0.uc, Outer(rMulPreH, cE), dMem, dMem);
    }

    /** `ForwardLeft2Right`: rows 0 up to the end, row 0 from `begin_h` and
        every later row from the hidden state just written to the row
        before it. Every row of `g`, `c` and `out` is overwritten, with the
        rows of the left-to-right recurrence. */
    method ForwardLeft2Right(xs: Mat, g0: Mat, c0: Mat, out0: Mat) returns (g: Mat, c: Mat, out: Mat)
      requires |g0| == |xs| && |c0| == |xs| && |out0| == |xs|
      ensures var steps := Left2Right(Cell(), beginH, xs);
        g == Gs(steps) && c == Cs(steps) && out == Hs(steps)
    {
      g, c, out := g0, c0, out0;
      var cell, h0 := Cell(), beginH;
      ghost var steps: seq<StepOut> := [];
      var row := 0;
      while row < |xs|
        invariant 0 <= row <= |xs| && |steps| == row
        invariant steps == Left2Right(cell, h0, xs[..row])
        invariant HoldsUpTo(g, c, out, steps) && |g| == |xs|
      {
        var preH := if row == 0 then h0 else out[row - 1];
        assert preH == PrevH(h0, steps, row);
        var gr, cr, hr := ForwardOneStep(preH, xs[row]);
        Left2RightExtend(cell, h0, xs, row);
        HoldsUpToSnoc(g, c, out, steps, StepOut(gr, cr, hr));
        g, c, out := SetRow(g, row, gr), SetRow(c, row, cr), SetRow(out, row, hr);
        steps := steps + [StepOut(gr, cr, hr)];
        row := row + 1;
      }
      assert xs[..|xs|] == xs;
      HoldsAll(g, c, out, steps);
    }

    /** `ForwardRight2Left`: rows from the end down to 0, the last row from
        `begin_h` and every earlier row from the hidden state just written
        to the row after it; the rows of the right-to-left recurrence. */
    method ForwardRight2Left(xs: Mat, g0: Mat, c0: Mat, out0: Mat) returns (g: Mat, c: Mat, out: Mat)
      requires |g0| == |xs| && |c0| == |xs| && |out0| == |xs|
      ensures var steps := Right2Left(Cell(), beginH, xs);
        g == Gs(steps) && c == Cs(steps) && out == Hs(steps)
    {
      g, c, out := g0, c0, out0;
      var cell, h0 := Cell(), beginH;
      ghost var steps: seq<StepOut> := [];
      var next: nat := |xs|;
      while next > 0
        invariant next <= |xs|
        invariant steps == Right2Left(cell, h0, xs[next..])
        invariant HoldsFrom(g, c, out, steps, next)
      {
        var row := next - 1;
        var preH := if row == |xs| - 1 then h0 else out[row + 1];
        var gr, cr, hr := ForwardOneStep(preH, xs[row]);
        assert StepOut(gr, cr, hr) == cell(preH, xs[row]);
        Right2LeftRow(cell, h0, xs, row, steps, g, c, out, StepOut(gr, cr, hr));
        g, c, out := SetRow(g, row, gr), SetRow(c, row, cr), SetRow(out, row, hr);
        steps := [StepOut(gr, cr, hr)] + steps;
        next := row;
      }
      assert xs[0..] == xs;
      HoldsAll(g, c, out, steps);
    }

    /** The body of `Forward`'s loops for one pair: the driver of the
        configured direction run on the leading `len` rows
        (`Slice(0, len)`) of the input and of the three planes it writes;
        the rows from `len` on are kept. */
    method ForwardPair(x: Mat, len: nat, gP: Mat, cP: Mat, hP: Mat) returns (gQ: Mat, cQ: Mat, hQ: Mat)
      requires len <= |x| && len <= |gP| && len <= |cP| && len <= |hP|
      ensures var st := Steps(Config(), x, len);
        gQ == Overlay(gP, Gs(st)) && cQ == Overlay(cP, Cs(st)) && hQ == Overlay(hP, Hs(st))
    {
      var gs, cs, hs;
      if !reverse {
        gs, cs, hs := ForwardLeft2Right(x[..len], gP[..len], cP[..len], hP[..len]);
      } else {
        gs, cs, hs := ForwardRight2Left(x[..len], gP[..len], cP[..len], hP[..len]);
      }
      gQ, cQ, hQ := Overlay(gP, gs), Overlay(cP, cs), Overlay(hP, hs);
    }

    /** `Forward`: the top takes the bottom's lengths; the top data, `c`,
        `g`, `c_er` and `g_er` are zeroed; then every (batch, seq) pair, in
        order, checks its length and runs its timeline. It finishes exactly
        when no length is negative, and then the leading `len` rows of each
        plane of the top data, `c` and `g` hold the timeline's hidden
        states, candidates and gate rows, the other rows are zero, and
        `c_er` and `g_er` are zero. */
    method Forward(bottom: Node, top: Node) returns (res: Outcome)
      requires bottom != top && Fits(bottom, top)
      modifies this`c, this`g, this`cEr, this`gEr, top`data, top`length
      ensures top.length == bottom.length
      ensures res.Pass? <==> LengthsValid(bottom.length)
      ensures res.Abort? ==> res == Abort(SequenceLengthError)
      ensures res.Pass? ==>
        var sb := bottom.dataShape;
        && Fits(bottom, top)
        && cEr == Zeros4(Shape4(sb.d0, sb.d1, sb.d2, dMem))
        && gEr == Zeros4(Shape4(sb.d0, sb.d1, sb.d2, 2 * dMem))
        && forall b, s :: 0 <= b < sb.d0 && 0 <= s < sb.d1 ==>
             var st := Steps(Config(), bottom.data[b][s], bottom.length[b][s]);
             && top.data[b][s] == Overlay(ZeroMat(sb.d2, dMem), Hs(st))
             && c[b][s] == Overlay(ZeroMat(sb.d2, dMem), Cs(st))
             && g[b][s] == Overlay(ZeroMat(sb.d2, 2 * dMem), Gs(st))
    {
      var sb := bottom.dataShape;
      top.length := bottom.length;
      cEr, gEr := Zeros4(Shape4(sb.d0, sb.d1, sb.d2, dMem)), Zeros4(Shape4(sb.d0, sb.d1, sb.d2, 2 * dMem));
      var ok, topData, cs, gs := ForwardPairs(bottom.data, bottom.length, sb);
      top.data, c, g := topData, cs, gs;
      res := if ok then Pass else Abort(SequenceLengthError);
    }

    /** The two loops of `Forward` over the pairs of a bottom of shape
        `sb`, on zeroed planes: each pair checks its length and runs its
        timeline. They stop at the first negative length; when there is
        none, every pair is done. */
    method ForwardPairs(xData: Tensor4, length: seq<seq<int>>, sb: Shape4)
      returns (ok: bool, topData: Tensor4, cs: Tensor4, gs: Tensor4)
      requires Shaped4(xData, sb) && LengthsShaped(length, sb.d0, sb.d1, sb.d2)
      ensures ok <==> LengthsValid(length)
      ensures Shaped4(topData, Shape4(sb.d0, sb.d1, sb.d2, dMem)) && Shaped4(cs, Shape4(sb.d0, sb.d1, sb.d2, dMem))
      ensures Shaped4(gs, Shape4(sb.d0, sb.d1, sb.d2, 2 * dMem))
      ensures ok ==> forall b, s :: 0 <= b < sb.d0 && 0 <= s < sb.d1 ==>
        PairDone(Config(), xData[b][s], length[b][s], sb.d2, topData[b][s], cs[b][s], gs[b][s])
    {
      var sOut := Shape4(sb.d0, sb.d1, sb.d2, dMem);
      topData, cs, gs := Zeros4(sOut), Zeros4(sOut), Zeros4(Shape4(sb.d0, sb.d1, sb.d2, 2 * dMem));
      FwdDoneStart(Config(), xData, length, sb);
      var b := 0;
      while b < sb.d0
        invariant 0 <= b <= sb.d0
        invariant NonNegBatches(length, b)
        invariant FwdDone(Config(), xData, length, sb, b, 0, topData, cs, gs)
      {
        ok, topData, cs, gs := ForwardBatch(xData, length, sb, b, topData, cs, gs);
        if !ok {
          NegativeLength(length, b);
          return;
        }
        NonNegBatchesSnoc(length, b);
        FwdDoneNextBatch(Config(), xData, length, sb, b, topData, cs, gs);
        b := b + 1;
      }
      NonNegBatchesValid(length);
      FwdDoneAll(Config(), xData, length, sb, topData, cs, gs);
      ok := true;
    }

    /** The inner loop of `Forward` for batch entry `b`: its pairs in
        order, stopping at the first negative length. */
    method ForwardBatch(xData: Tensor4, length: seq<seq<int>>, sb: Shape4, b: nat,
                        topData0: Tensor4, cs0: Tensor4, gs0: Tensor4)
      returns (ok: bool, topData: Tensor4, cs: Tensor4, gs: Tensor4)
      requires b < sb.d0 && FwdDone(Config(), xData, length, sb, b, 0, topData0, cs0, gs0)
      ensures ok <==> NonNegUpTo(length[b], sb.d1)
      ensures Shaped4(topData, Shape4(sb.d0, sb.d1, sb.d2, dMem)) && Shaped4(cs, Shape4(sb.d0, sb.d1, sb.d2, dMem))
      ensures Shaped4(gs, Shape4(sb.d0, sb.d1, sb.d2, 2 * dMem))
      ensures ok ==> FwdDone(Config(), xData, length, sb, b, sb.d1, topData, cs, gs)
    {
      topData, cs, gs := topData0, cs0, gs0;
      var s := 0;
      while s < sb.d1
        invariant 0 <= s <= sb.d1
        invariant NonNegUpTo(length[b], s)
        invariant FwdDone(Config(), xData, length, sb, b, s, topData, cs, gs)
      {
        var len := length[b][s];
        if len < 0 {
          return false, topData, cs, gs;
        }
        assert FwdAt(Config(), xData, length, sb, b, s, topData, cs, gs, b, s);
        var gP, cP, hP := ForwardPair(xData[b][s], len, gs[b][s], cs[b][s], topData[b][s]);
        PairDoneFromZero(Config(), xData[b][s], len, sb.d2, topData[b][s], cs[b][s], gs[b][s], gP, cP, hP);
        FwdDoneStep(Config(), xData, length, sb, b, s, topData, cs, gs, hP, cP, gP);
        topData, cs, gs := SetPlane(topData, b, s, hP), SetPlane(cs, b, s, cP), SetPlane(gs, b, s, gP);
        NonNegUpToSnoc(length[b], s);
        s := s + 1;
      }
      ok := true;
    }

    /** The body of both backward drivers for one visit: `pre_h` and
        `pre_h_er` are `begin_h` and `begin_h_er` for the slot `Begin` and
        row `k` of the top data and the top diff for `Neighbour(k)`; then
        `BpOneStep` on the visited row, its result rows written back. The
        new gradient rows and buffers are one backward step. */
    method BpVisit(cache: Cache, ghost step: Step, hE: Mat, cE: Mat, gE: Mat, xE: Mat, v: Visit)
      returns (hE': Mat, cE': Mat, gE': Mat, xE': Mat)
      requires Ready() && IsLayerStep(Context(), cache, step)
      requires var len := |cache.hs|;
        && |cache.cs| == len && |cache.gs| == len && |cache.xs| == len
        && |hE| == len && |cE| == len && |gE| == len && |xE| == len
        && v.row < len && (v.pre.Neighbour? ==> v.pre.k < len)
      requires RowsWidth(hE, dMem) && RowsWidth(cE, dMem) && RowsWidth(gE, 2 * dMem) && RowsWidth(xE, dInput)
      modifies this`beginHEr, this`dw
      ensures Ready()
      ensures RowsWidth(hE', dMem) && RowsWidth(cE', dMem) && RowsWidth(gE', 2 * dMem) && RowsWidth(xE', dInput)
      ensures BackState(Grads(hE', cE', gE', xE'), Acc(beginHEr, dw))
        == BackStep(Context(), cache, BackState(Grads(hE, cE, gE, xE), Acc(old(beginHEr), old(dw))), v)
      ensures BackState(Grads(hE', cE', gE', xE'), Acc(beginHEr, dw))
        == step(BackState(Grads(hE, cE, gE, xE), Acc(old(beginHEr), old(dw))), v)
    {
      ghost var gr := Grads(hE, cE, gE, xE);
      ghost var acc := Acc(beginHEr, dw);
      var row := v.row;
      var preH, preHEr;
      match v.pre {
        case Begin =>
          preH, preHEr := beginH, beginHEr;
        case Neighbour(k) =>
          preH, preHEr := cache.hs[k], hE[k];
      }
      ghost var o := StepAt(Context(), cache, gr, v);
      var ce, ge, pe, xe := BpOneStep(hE[row], preH, cache.xs[row], cache.gs[row], cache.cs[row],
                                      cE[row], gE[row], preHEr, xE[row]);
      BackStepIs(Context(), cache, gr, acc, v, o);
      hE' := hE;
      match v.pre {
        case Begin =>
          beginHEr := pe;
        case Neighbour(k) =>
          hE' := SetRow(hE, k, pe);
      }
      cE', gE', xE' := SetRow(cE, row, ce), SetRow(gE, row, ge), SetRow(xE, row, xe);
    }

    /** `BackpropForLeft2RightLstm` on the `len` rows of one timeline: rows
        `len - 1` down to 0, each through `BpOneStep`, with `pre_h` and
        `pre_h_er` the row before it in the top data and the top diff, or
        `begin_h` and `begin_h_er` at row 0. The gradient rows it returns
        and the buffers it adds into are those of the left schedule. */
    method BackpropForLeft2RightLstm(ghost step: Step, topData: Mat, topDiff: Mat, cP: Mat, cErP: Mat,
                                     gP: Mat, gErP: Mat, bottomData: Mat, bottomDiff: Mat)
      returns (hE: Mat, cE: Mat, gE: Mat, xE: Mat)
      requires Ready() && IsLayerStep(Context(), Cache(topData, cP, gP, bottomData), step)
      requires |topDiff| == |topData| && |cP| == |topData| && |cErP| == |topData| && |gP| == |topData|
      requires |gErP| == |topData| && |bottomData| == |topData| && |bottomDiff| == |topData|
      requires RowsWidth(topDiff, dMem) && RowsWidth(cErP, dMem) && RowsWidth(gErP, 2 * dMem)
      requires RowsWidth(bottomDiff, dInput)
      modifies this`beginHEr, this`dw
      ensures Ready()
      ensures RowsWidth(hE, dMem) && RowsWidth(cE, dMem) && RowsWidth(gE, 2 * dMem) && RowsWidth(xE, dInput)
      ensures Fold(step, BackState(Grads(topDiff, cErP, gErP, bottomDiff), Acc(old(beginHEr), old(dw))),
                  LeftSchedule(|topData|))
        == BackState(Grads(hE, cE, gE, xE), Acc(beginHEr, dw))
    {
      ghost var ctx := Context();
      var cache := Cache(topData, cP, gP, bottomData);
      ghost var st0 := BackState(Grads(topDiff, cErP, gErP, bottomDiff), Acc(beginHEr, dw));
      var len := |topData|;
      ghost var sched := LeftSchedule(len);
      hE, cE, gE, xE := topDiff, cErP, gErP, bottomDiff;
      var row := len - 1;
      ghost var i := 0;
      while row >= 0
        invariant -1 <= row < len && i == len - 1 - row
        invariant Ready() && Context() == ctx
        invariant |hE| == len && |cE| == len && |gE| == len && |xE| == len
        invariant RowsWidth(hE, dMem) && RowsWidth(cE, dMem) && RowsWidth(gE, 2 * dMem) && RowsWidth(xE, dInput)
        invariant Fold(step, st0, sched[..i]) == BackState(Grads(hE, cE, gE, xE), Acc(beginHEr, dw))
        decreases row
      {
        var v := Visit(row, if row == 0 then Begin else Neighbour(row - 1));
        assert sched[i] == v;
        FoldSnoc(step, st0, sched, i);
        hE, cE, gE, xE := BpVisit(cache, step, hE, cE, gE, xE, v);
        row, i := row - 1, i + 1;
      }
      assert i == len && sched[..i] == sched;
      assert st0 == BackState(Grads(topDiff, cErP, gErP, bottomDiff), Acc(old(beginHEr), old(dw)));
    }

    /** `BackpropForRight2LeftLstm`: rows 0 up to `len - 1`, with `pre_h`
        and `pre_h_er` the row after it, or `begin_h` and `begin_h_er` at the
        last row; the right schedule. */
    method BackpropForRight2LeftLstm(ghost step: Step, topData: Mat, topDiff: Mat, cP: Mat, cErP: Mat,
                                     gP: Mat, gErP: Mat, bottomData: Mat, bottomDiff: Mat)
      returns (hE: Mat, cE: Mat, gE: Mat, xE: Mat)
      requires Ready() && IsLayerStep(Context(), Cache(topData, cP, gP, bottomData), step)
      requires |topDiff| == |topData| && |cP| == |topData| && |cErP| == |topData| && |gP| == |topData|
      requires |gErP| == |topData| && |bottomData| == |topData| && |bottomDiff| == |topData|
      requires RowsWidth(topDiff, dMem) && RowsWidth(cErP, dMem) && RowsWidth(gErP, 2 * dMem)
      requires RowsWidth(bottomDiff, dInput)
      modifies this`beginHEr, this`dw
      ensures Ready()
      ensures RowsWidth(hE, dMem) && RowsWidth(cE, dMem) && RowsWidth(gE, 2 * dMem) && RowsWidth(xE, dInput)
      ensures Fold(step, BackState(Grads(topDiff, cErP, gErP, bottomDiff), Acc(old(beginHEr), old(dw))),
                  RightSchedule(|topData|))
        == BackState(Grads(hE, cE, gE, xE), Acc(beginHEr, dw))
    {
      ghost var ctx := Context();
      var cache := Cache(topData, cP, gP, bottomData);
      ghost var st0 := BackState(Grads(topDiff, cErP, gErP, bottomDiff), Acc(beginHEr, dw));
      var len := |topData|;
      ghost var sched := RightSchedule(len);
      hE, cE, gE, xE := topDiff, cErP, gErP, bottomDiff;
      var row := 0;
      while row < len
        invariant 0 <= row <= len && Ready() && Context() == ctx
        invariant |hE| == len && |cE| == len && |gE| == len && |xE| == len
        invariant RowsWidth(hE, dMem) && RowsWidth(cE, dMem) && RowsWidth(gE, 2 * dMem) && RowsWidth(xE, dInput)
        invariant Fold(step, st0, sched[..row]) == BackState(Grads(hE, cE, gE, xE), Acc(beginHEr, dw))
      {
        var v := Visit(row, if row == len - 1 then Begin else Neighbour(row + 1));
        assert sched[row] == v;
        FoldSnoc(step, st0, sched, row);
        hE, cE, gE, xE := BpVisit(cache, step, hE, cE, gE, xE, v);
        row := row + 1;
      }
      assert sched[..len] == sched;
      assert st0 == BackState(Grads(topDiff, cErP, gErP, bottomDiff), Acc(old(beginHEr), old(dw)));
    }

    /** The body of `Backprop`'s loops for one pair: the driver of the
        configured direction on the leading `len` rows of the eight planes;
        the rows from `len` on are kept. */
    method BackpropPair(hs: Mat, hEr: Mat, cs: Mat, cEr0: Mat, gs: Mat, gEr0: Mat, xs: Mat, xEr: Mat,
                        len: nat, rows: nat)
      returns (hE: Mat, cE: Mat, gE: Mat, xE: Mat)
      requires Ready() && len <= rows
      requires IsMat(hs, rows, dMem) && IsMat(hEr, rows, dMem) && IsMat(cs, rows, dMem) && IsMat(cEr0, rows, dMem)
      requires IsMat(gs, rows, 2 * dMem) && IsMat(gEr0, rows, 2 * dMem)
      requires IsMat(xs, rows, dInput) && IsMat(xEr, rows, dInput)
      modifies this`beginHEr, this`dw
      ensures Ready()
      ensures IsMat(hE, rows, dMem) && IsMat(cE, rows, dMem) && IsMat(gE, rows, 2 * dMem) && IsMat(xE, rows, dInput)
      ensures var r := Run(Context(), Cache(Lead(hs, len), Lead(cs, len), Lead(gs, len), Lead(xs, len)),
                           BackState(Grads(Lead(hEr, len), Lead(cEr0, len), Lead(gEr0, len), Lead(xEr, len)),
                                     Acc(old(beginHEr), old(dw))),
                           Schedule(reverse, len));
        && hE == Overlay(hEr, r.gr.hEr) && cE == Overlay(cEr0, r.gr.cEr)
        && gE == Overlay(gEr0, r.gr.gEr) && xE == Overlay(xEr, r.gr.xEr)
        && Acc(beginHEr, dw) == r.acc
    {
      LeadWidth(hs, len, rows, dMem);
      LeadWidth(hEr, len, rows, dMem);
      LeadWidth(cs, len, rows, dMem);
      LeadWidth(cEr0, len, rows, dMem);
      LeadWidth(gs, len, rows, 2 * dMem);
      LeadWidth(gEr0, len, rows, 2 * dMem);
      LeadWidth(xs, len, rows, dInput);
      LeadWidth(xEr, len, rows, dInput);
      ghost var cache := Cache(hs[..len], cs[..len], gs[..len], xs[..len]);
      ghost var st := BackState(Grads(hEr[..len], cEr0[..len], gEr0[..len], xEr[..len]), Acc(beginHEr, dw));
      ghost var step := LayerStep(Context(), cache);
      LayerStepIs(Context(), cache);
      FoldIsRun(Context(), cache, step, st, Schedule(reverse, len));
      var he, ce, ge, xe;
      if !reverse {
        he, ce, ge, xe := BackpropForLeft2RightLstm(step, hs[..len], hEr[..len], cs[..len], cEr0[..len],
                                                    gs[..len], gEr0[..len], xs[..len], xEr[..len]);
      } else {
        he, ce, ge, xe := BackpropForRight2LeftLstm(step, hs[..len], hEr[..len], cs[..len], cEr0[..len],
                                                    gs[..len], gEr0[..len], xs[..len], xEr[..len]);
      }
      OverlayShaped(hEr, he, rows, dMem);
      OverlayShaped(cEr0, ce, rows, dMem);
      OverlayShaped(gEr0, ge, rows, 2 * dMem);
      OverlayShaped(xEr, xe, rows, dInput);
      hE, cE, gE, xE := Overlay(hEr, he), Overlay(cEr0, ce), Overlay(gEr0, ge), Overlay(xEr, xe);
    }

    /** `Backprop`: `begin_h_er`, `g_er` and `c_er` are zeroed (the
        parameter gradients and the bottom diff are not); then every
        (batch, seq) pair, in order, checks its length and runs the backward
        pass over its timeline. It finishes exactly when no length is
        negative, and then each pair's gradient planes are what its
        schedule leaves, independently of the other pairs, while
        `begin_h_er` and the parameter gradients hold the fold of all pairs'
        backward passes, in order, over their values on entry (with
        `begin_h_er` zero). */
    method Backprop(bottom: Node, top: Node) returns (res: Outcome)
      requires bottom != top && Fits(bottom, top)
      requires top.diffShape == top.dataShape && bottom.diffShape == bottom.dataShape
      modifies this`beginHEr, this`dw, this`cEr, this`gEr, top`diff, bottom`diff
      ensures res.Pass? <==> LengthsValid(bottom.length)
      ensures res.Abort? ==> res == Abort(SequenceLengthError)
      ensures res.Pass? ==>
        var sb := bottom.dataShape;
        var inp := BackInput(top.data, old(top.diff), c, g, bottom.data, old(bottom.diff), bottom.length);
        && Fits(bottom, top)
        && Acc(beginHEr, dw) == AccBefore(PairAcc(Config(), inp), sb.d1, Acc(Zeros(dMem), old(dw)), sb.d0, 0)
        && forall b, s :: 0 <= b < sb.d0 && 0 <= s < sb.d1 ==>
             BackPairDone(Config(), inp, b, s, sb.d2, top.diff[b][s], cEr[b][s], gEr[b][s], bottom.diff[b][s])
    {
      var sb := bottom.dataShape;
      var inp := BackInput(top.data, top.diff, c, g, bottom.data, bottom.diff, bottom.length);
      PairAccIs(Config(), inp);
      beginHEr := Zeros(dMem);
      var ok, topDiff, cErT, gErT, bottomDiff := BackpropPairs(inp, PairAcc(Config(), inp), sb);
      top.diff, bottom.diff, cEr, gEr := topDiff, bottomDiff, cErT, gErT;
      if ok {
        PairsDoneAll(Config(), inp, sb, top.diff, cEr, gEr, bottom.diff);
      }
      res := if ok then Pass else Abort(SequenceLengthError);
    }

    /** The inputs of `Backprop` for a bottom of shape `sb`: the top data,
        `c`, `g`, the bottom data and the two diffs, each of its shape, and
        valid lengths that fit. */
    predicate InputShaped(inp: BackInput, sb: Shape4)
      reads this`dMem, this`dInput
    {
      && Shaped4(inp.hs, Shape4(sb.d0, sb.d1, sb.d2, dMem)) && Shaped4(inp.hEr, Shape4(sb.d0, sb.d1, sb.d2, dMem))
      && Shaped4(inp.cs, Shape4(sb.d0, sb.d1, sb.d2, dMem)) && Shaped4(inp.gs, Shape4(sb.d0, sb.d1, sb.d2, 2 * dMem))
      && Shaped4(inp.xs, Shape4(sb.d0, sb.d1, sb.d2, dInput)) && Shaped4(inp.xEr, Shape4(sb.d0, sb.d1, sb.d2, dInput))
      && LengthsShaped(inp.length, sb.d0, sb.d1, sb.d2)
    }

    /** The two loops of `Backprop` over the pairs of a bottom of shape
        `sb`, on zeroed `c_er` and `g_er` planes: each pair checks its
        length and runs its backward pass (`run` on the shared buffers).
        They stop at the first negative length; when there is none, every
        pair is done and the shared buffers have gone through every pair's
        pass in order. */
    method BackpropPairs(inp: BackInput, ghost run: (int, int, Acc) -> Acc, sb: Shape4)
      returns (ok: bool, topDiff: Tensor4, cErT: Tensor4, gErT: Tensor4, bottomDiff: Tensor4)
      requires Ready() && InputShaped(inp, sb) && IsPairAcc(Config(), inp, run)
      modifies this`beginHEr, this`dw
      ensures Ready()
      ensures ok <==> LengthsValid(inp.length)
      ensures Shaped4(topDiff, Shape4(sb.d0, sb.d1, sb.d2, dMem)) && Shaped4(cErT, Shape4(sb.d0, sb.d1, sb.d2, dMem))
      ensures Shaped4(gErT, Shape4(sb.d0, sb.d1, sb.d2, 2 * dMem))
      ensures Shaped4(bottomDiff, Shape4(sb.d0, sb.d1, sb.d2, dInput))
      ensures ok ==>
        && Acc(beginHEr, dw) == AccBefore(run, sb.d1, Acc(old(beginHEr), old(dw)), sb.d0, 0)
        && PairsDone(Config(), inp, sb, sb.d0, 0, topDiff, cErT, gErT, bottomDiff)
    {
      var sOut := Shape4(sb.d0, sb.d1, sb.d2, dMem);
      var sGate := Shape4(sb.d0, sb.d1, sb.d2, 2 * dMem);
      topDiff, bottomDiff := inp.hEr, inp.xEr;
      gErT, cErT := Zeros4(sGate), Zeros4(sOut);
      ghost var acc0 := Acc(beginHEr, dw);
      PairsDoneStart(Config(), inp, sb, topDiff, bottomDiff);
      var b := 0;
      while b < sb.d0
        invariant 0 <= b <= sb.d0 && Ready()
        invariant NonNegBatches(inp.length, b)
        invariant Acc(beginHEr, dw) == AccBefore(run, sb.d1, acc0, b, 0)
        invariant PairsDone(Config(), inp, sb, b, 0, topDiff, cErT, gErT, bottomDiff)
      {
        ok, topDiff, cErT, gErT, bottomDiff := BackpropBatch(inp, run, acc0, sb, b, topDiff, cErT, gErT, bottomDiff);
        if !ok {
          NegativeLength(inp.length, b);
          return;
        }
        NonNegBatchesSnoc(inp.length, b);
        PairsDoneNextBatch(Config(), inp, sb, b, topDiff, cErT, gErT, bottomDiff);
        b := b + 1;
      }
      NonNegBatchesValid(inp.length);
      ok := true;
    }

    /** The inner loop of `Backprop` for batch entry `b`: its pairs in
        order, stopping at the first negative length. */
    method BackpropBatch(inp: BackInput, ghost run: (int, int, Acc) -> Acc, ghost acc0: Acc, sb: Shape4, b: nat,
                         topDiff0: Tensor4, cErT0: Tensor4, gErT0: Tensor4, bottomDiff0: Tensor4)
      returns (ok: bool, topDiff: Tensor4, cErT: Tensor4, gErT: Tensor4, bottomDiff: Tensor4)
      requires Ready() && b < sb.d0 && InputShaped(inp, sb) && IsPairAcc(Config(), inp, run)
      requires Acc(beginHEr, dw) == AccBefore(run, sb.d1, acc0, b, 0)
      requires PairsDone(Config(), inp, sb, b, 0, topDiff0, cErT0, gErT0, bottomDiff0)
      modifies this`beginHEr, this`dw
      ensures Ready()
      ensures ok <==> NonNegUpTo(inp.length[b], sb.d1)
      ensures Shaped4(topDiff, Shape4(sb.d0, sb.d1, sb.d2, dMem)) && Shaped4(cErT, Shape4(sb.d0, sb.d1, sb.d2, dMem))
      ensures Shaped4(gErT, Shape4(sb.d0, sb.d1, sb.d2, 2 * dMem))
      ensures Shaped4(bottomDiff, Shape4(sb.d0, sb.d1, sb.d2, dInput))
      ensures ok ==> Acc(beginHEr, dw) == AccBefore(run, sb.d1, acc0, b, sb.d1)
      ensures ok ==> PairsDone(Config(), inp, sb, b, sb.d1, topDiff, cErT, gErT, bottomDiff)
    {
      topDiff, cErT, gErT, bottomDiff := topDiff0, cErT0, gErT0, bottomDiff0;
      var s := 0;
      while s < sb.d1
        invariant 0 <= s <= sb.d1 && Ready()
        invariant NonNegUpTo(inp.length[b], s)
        invariant Acc(beginHEr, dw) == AccBefore(run, sb.d1, acc0, b, s)
        invariant PairsDone(Config(), inp, sb, b, s, topDiff, cErT, gErT, bottomDiff)
      {
        var len := inp.length[b][s];
        if len < 0 {
          return false, topDiff, cErT, gErT, bottomDiff;
        }
        topDiff, cErT, gErT, bottomDiff := BackpropStep(inp, run, sb, b, s, len, topDiff, cErT, gErT, bottomDiff);
        NonNegUpToSnoc(inp.length[b], s);
        s := s + 1;
      }
      ok := true;
    }

    /** The body of `Backprop`'s inner loop for pair (b, s) of valid
        length `len`: its backward pass, the planes it leaves written back.
        The shared buffers go through the pair's pass. */
    method BackpropStep(inp: BackInput, ghost run: (int, int, Acc) -> Acc, sb: Shape4, b: nat, s: nat, len: nat,
                        topDiff0: Tensor4, cErT0: Tensor4, gErT0: Tensor4, bottomDiff0: Tensor4)
      returns (topDiff: Tensor4, cErT: Tensor4, gErT: Tensor4, bottomDiff: Tensor4)
      requires Ready() && b < sb.d0 && s < sb.d1 && InputShaped(inp, sb) && IsPairAcc(Config(), inp, run)
      requires inp.length[b][s] == len
      requires PairsDone(Config(), inp, sb, b, s, topDiff0, cErT0, gErT0, bottomDiff0)
      modifies this`beginHEr, this`dw
      ensures Ready()
      ensures Acc(beginHEr, dw) == run(b, s, Acc(old(beginHEr), old(dw)))
      ensures PairsDone(Config(), inp, sb, b, s + 1, topDiff, cErT, gErT, bottomDiff)
    {
      ghost var accB := Acc(beginHEr, dw);
      assert PairAt(Config(), inp, sb, b, s, topDiff0, cErT0, gErT0, bottomDiff0, b, s);
      var he, ce, ge, xe := BackpropPair(inp.hs[b][s], topDiff0[b][s], inp.cs[b][s], cErT0[b][s],
                                         inp.gs[b][s], gErT0[b][s], inp.xs[b][s], bottomDiff0[b][s],
                                         len, sb.d2);
      PairDoneFromInit(Config(), inp, b, s, sb.d2, topDiff0[b][s], cErT0[b][s], gErT0[b][s], bottomDiff0[b][s],
                       accB, Acc(beginHEr, dw), he, ce, ge, xe);
      PairsDoneStep(Config(), inp, sb, b, s, topDiff0, cErT0, gErT0, bottomDiff0, he, ce, ge, xe);
      topDiff, cErT := SetPlane(topDiff0, b, s, he), SetPlane(cErT0, b, s, ce);
      gErT, bottomDiff := SetPlane(gErT0, b, s, ge), SetPlane(bottomDiff0, b, s, xe);
    }
  }
}
