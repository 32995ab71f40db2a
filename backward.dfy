/** The backward pass over one (batch, seq) timeline, as values. A driver
    visits the rows of the timeline in a fixed order, the SCHEDULE; each
    visit runs one backward step on a row and adds the gradient it finds
    for the previous hidden state either into a neighbouring row of the
    top diff or, at the first row of the forward order, into `begin_h_er`.
    The properties are proved once for any schedule and then for the two
    schedules the layer uses. */
module BackwardTimeline {
  import opened Linalg
  import opened Gate
  import opened GruCell

  /** What every step of a layer shares: the activations, the weights,
      d_mem and `begin_h`. */
  datatype Ctx = Ctx(act: Activations, w: Weights, dMem: nat, beginH: Vec)

  /** The forward values of one timeline: top data `hs`, candidates `cs`,
      gate rows `gs` and bottom data `xs`. Backward only reads them. */
  datatype Cache = Cache(hs: Mat, cs: Mat, gs: Mat, xs: Mat)

  /** The gradient rows of one timeline: top diff `hEr`, `c_er`, `g_er`
      and bottom diff `xEr`. */
  datatype Grads = Grads(hEr: Mat, cEr: Mat, gEr: Mat, xEr: Mat)

  /** The buffers every timeline of a batch adds into: `begin_h_er` and the
      parameter gradients. */
  datatype Acc = Acc(beginHEr: Vec, dw: Weights)

  datatype BackState = BackState(gr: Grads, acc: Acc)

  /** Where a step finds `pre_h` and `pre_h_er`: `begin_h` and
      `begin_h_er`, or row `k` of the top data and of the top diff. */
  datatype Slot = Begin | Neighbour(k: nat)

  /** One visit: the row stepped back through and its predecessor slot. */
  datatype Visit = Visit(row: nat, pre: Slot)

  function ZeroAcc(dInput: nat, dMem: nat): Acc {
    Acc(Zeros(dMem), ZeroWeights(dInput, dMem))
  }

  predicate AccShaped(a: Acc, dInput: nat, dMem: nat) {
    |a.beginHEr| == dMem && WeightsShaped(a.dw, dInput, dMem)
  }

  function AddAcc(a: Acc, b: Acc): Acc {
    Acc(VAdd(a.beginHEr, b.beginHEr), AddWeights(a.dw, b.dw))
  }

  function PreH(ctx: Ctx, cache: Cache, slot: Slot): Vec {
    match slot
    case Begin => ctx.beginH
    case Neighbour(k) => Row(cache.hs, k)
  }

  /** The step `BpOneStep` runs for a visit, on the gradient rows as they
      are when the visit starts. */
  function StepAt(ctx: Ctx, cache: Cache, gr: Grads, v: Visit): BpOut {
    BackwardStep(ctx.act, ctx.w, ctx.dMem, Row(gr.hEr, v.row), PreH(ctx, cache, v.pre),
                 Row(cache.xs, v.row), Row(cache.gs, v.row), Row(cache.cs, v.row),
                 Row(gr.cEr, v.row), Row(gr.gEr, v.row))
  }

  /** The gradient rows after a visit: the candidate and gate rows of the
      visited row are replaced, its bottom diff row and the predecessor's
      top diff row are added to. */
  function ApplyGrads(gr: Grads, v: Visit, o: BpOut): (r: Grads)
    ensures |r.hEr| == |gr.hEr| && |r.cEr| == |gr.cEr| && |r.gEr| == |gr.gEr| && |r.xEr| == |gr.xEr|
  {
    Grads(match v.pre
          case Begin => gr.hEr
          case Neighbour(k) => SetRow(gr.hEr, k, VAdd(Row(gr.hEr, k), o.dPreH)),
          SetRow(gr.cEr, v.row, o.cEr),
          SetRow(gr.gEr, v.row, o.gEr),
          SetRow(gr.xEr, v.row, VAdd(Row(gr.xEr, v.row), o.dX)))
  }

  /** The shared buffers after a visit: `begin_h_er` is added to when the
      predecessor is the initial state, the four weight gradients always. */
  function ApplyAcc(acc: Acc, v: Visit, o: BpOut): Acc {
    Acc(if v.pre.Begin? then VAdd(acc.beginHEr, o.dPreH) else acc.beginHEr,
        AddGrads(acc.dw, o))
  }

  function BackStep(ctx: Ctx, cache: Cache, st: BackState, v: Visit): (r: BackState)
    ensures |r.gr.hEr| == |st.gr.hEr| && |r.gr.cEr| == |st.gr.cEr|
    ensures |r.gr.gEr| == |st.gr.gEr| && |r.gr.xEr| == |st.gr.xEr|
  {
    var o := StepAt(ctx, cache, st.gr, v);
    BackState(ApplyGrads(st.gr, v, o), ApplyAcc(st.acc, v, o))
  }

  /** One visit as a function of the state. The drivers' loops are folds
      of any such function; the layer's is `LayerStep`. */
  type Step = (BackState, Visit) -> BackState

  /** The state after the visits of `sched`, in order, each through
      `step`. */
  function Fold(step: Step, st: BackState, sched: seq<Visit>): BackState
    decreases |sched|
  {
    if |sched| == 0 then st else step(Fold(step, st, sched[..|sched| - 1]), sched[|sched| - 1])
  }

  /** One more visit: the state after visits `..i + 1` is one step on the
      state after visits `..i`. */
  lemma FoldSnoc(step: Step, st: BackState, sched: seq<Visit>, i: nat)
    requires i < |sched|
    ensures Fold(step, st, sched[..i + 1]) == step(Fold(step, st, sched[..i]), sched[i])
  {
    assert sched[..i + 1][..i] == sched[..i];
  }

  function LayerStep(ctx: Ctx, cache: Cache): Step {
    (st: BackState, v: Visit) => BackStep(ctx, cache, st, v)
  }

  /** `step` is the layer's backward step on every state and visit. */
  ghost predicate IsLayerStep(ctx: Ctx, cache: Cache, step: Step) {
    forall st: BackState, v: Visit {:trigger BackStep(ctx, cache, st, v)} :: step(st, v) == BackStep(ctx, cache, st, v)
  }

  lemma LayerStepIs(ctx: Ctx, cache: Cache)
    ensures IsLayerStep(ctx, cache, LayerStep(ctx, cache))
  {
  }

  /** The layer's backward pass: its steps over the visits of `sched`. */
  function Run(ctx: Ctx, cache: Cache, st: BackState, sched: seq<Visit>): (r: BackState)
    ensures |r.gr.hEr| == |st.gr.hEr| && |r.gr.cEr| == |st.gr.cEr|
    ensures |r.gr.gEr| == |st.gr.gEr| && |r.gr.xEr| == |st.gr.xEr|
  {
    FoldLengths(ctx, cache, st, sched);
    Fold(LayerStep(ctx, cache), st, sched)
  }

  lemma {:induction false} FoldLengths(ctx: Ctx, cache: Cache, st: BackState, sched: seq<Visit>)
    ensures var r := Fold(LayerStep(ctx, cache), st, sched);
      && |r.gr.hEr| == |st.gr.hEr| && |r.gr.cEr| == |st.gr.cEr|
      && |r.gr.gEr| == |st.gr.gEr| && |r.gr.xEr| == |st.gr.xEr|
    decreases |sched|
  {
    if |sched| > 0 {
      FoldLengths(ctx, cache, st, sched[..|sched| - 1]);
    }
  }

  /** One more visit of a schedule: the state after visits `..i + 1` is
      one backward step on the state after visits `..i`. */
  lemma RunSnoc(ctx: Ctx, cache: Cache, st: BackState, sched: seq<Visit>, i: nat)
    requires i < |sched|
    ensures Run(ctx, cache, st, sched[..i + 1]) == BackStep(ctx, cache, Run(ctx, cache, st, sched[..i]), sched[i])
  {
    FoldSnoc(LayerStep(ctx, cache), st, sched, i);
  }

  /** The last visit of a schedule: one backward step on the state the
      visits before it leave. */
  lemma RunLast(ctx: Ctx, cache: Cache, st: BackState, sched: seq<Visit>)
    requires |sched| > 0
    ensures Run(ctx, cache, st, sched)
      == BackStep(ctx, cache, Run(ctx, cache, st, sched[..|sched| - 1]), sched[|sched| - 1])
  {
  }

  /** A fold of any function that is the layer's step is the layer's
      backward pass. */
  lemma FoldIsRun(ctx: Ctx, cache: Cache, step: Step, st: BackState, sched: seq<Visit>)
    requires IsLayerStep(ctx, cache, step)
    ensures Fold(step, st, sched) == Run(ctx, cache, st, sched)
    decreases |sched|
  {
    if |sched| > 0 {
      FoldIsRun(ctx, cache, step, st, sched[..|sched| - 1]);
      assert Fold(step, st, sched) == step(Fold(step, st, sched[..|sched| - 1]), sched[|sched| - 1]);
      RunLast(ctx, cache, st, sched);
    }
  }

  /** A visit, given the step it runs. */
  lemma BackStepIs(ctx: Ctx, cache: Cache, gr: Grads, acc: Acc, v: Visit, o: BpOut)
    requires o == StepAt(ctx, cache, gr, v)
    ensures BackStep(ctx, cache, BackState(gr, acc), v) == BackState(ApplyGrads(gr, v, o), ApplyAcc(acc, v, o))
  {
  }

  /** `BackpropForLeft2RightLstm`: rows `len - 1` down to 0, each feeding
      the row before it, row 0 feeding `begin_h_er`. */
  function LeftSchedule(len: nat): (s: seq<Visit>)
    ensures |s| == len
  {
    seq(len, i requires 0 <= i < len =>
      var t := len - 1 - i;
      Visit(t, if t == 0 then Begin else Neighbour(t - 1)))
  }

  /** `BackpropForRight2LeftLstm`: rows 0 up to `len - 1`, each feeding the
      row after it, the last row feeding `begin_h_er`. */
  function RightSchedule(len: nat): (s: seq<Visit>)
    ensures |s| == len
  {
    seq(len, i requires 0 <= i < len => Visit(i, if i == len - 1 then Begin else Neighbour(i + 1)))
  }

  function Schedule(reverse: bool, len: nat): (s: seq<Visit>)
    ensures |s| == len
  {
    if reverse then RightSchedule(len) else LeftSchedule(len)
  }

  // ---------------------------------------------------------------------
  // Properties of any schedule

  /** A row no visit names, neither as the row stepped through nor as the
      predecessor, keeps its top diff, `c_er`, `g_er` and bottom diff. */
  predicate Names(v: Visit, j: int) {
    v.row == j || (v.pre.Neighbour? && v.pre.k == j)
  }

  predicate Untouched(sched: seq<Visit>, j: int) {
    forall i :: 0 <= i < |sched| ==> !Names(sched[i], j)
  }

  lemma {:induction false} RunUntouched(ctx: Ctx, cache: Cache, st: BackState, sched: seq<Visit>, j: int)
    requires Untouched(sched, j)
    ensures var r := Run(ctx, cache, st, sched);
      && Row(r.gr.hEr, j) == Row(st.gr.hEr, j) && Row(r.gr.cEr, j) == Row(st.gr.cEr, j)
      && Row(r.gr.gEr, j) == Row(st.gr.gEr, j) && Row(r.gr.xEr, j) == Row(st.gr.xEr, j)
    decreases |sched|
  {
    if |sched| > 0 {
      var n := |sched| - 1;
      assert Untouched(sched[..n], j) by {
        forall i | 0 <= i < n ensures !Names(sched[..n][i], j) {
          assert sched[..n][i] == sched[i];
        }
      }
      RunUntouched(ctx, cache, st, sched[..n], j);
      RunLast(ctx, cache, st, sched);
      assert !Names(sched[n], j);
    }
  }

  /** The gradient rows a schedule leaves do not depend on what the shared
      buffers held: a step reads only the gradient rows. */
  lemma {:induction false} RunGradsIgnoreAcc(ctx: Ctx, cache: Cache, gr: Grads, a: Acc, b: Acc, sched: seq<Visit>)
    ensures Run(ctx, cache, BackState(gr, a), sched).gr == Run(ctx, cache, BackState(gr, b), sched).gr
    decreases |sched|
  {
    if |sched| > 0 {
      RunGradsIgnoreAcc(ctx, cache, gr, a, b, sched[..|sched| - 1]);
      RunLast(ctx, cache, BackState(gr, a), sched);
      RunLast(ctx, cache, BackState(gr, b), sched);
    }
  }

  /** No visit of any schedule touches the two bias gradients. */
  lemma {:induction false} RunKeepsBias(ctx: Ctx, cache: Cache, st: BackState, sched: seq<Visit>)
    ensures Run(ctx, cache, st, sched).acc.dw.bg == st.acc.dw.bg
    ensures Run(ctx, cache, st, sched).acc.dw.bc == st.acc.dw.bc
    decreases |sched|
  {
    if |sched| > 0 {
      RunKeepsBias(ctx, cache, st, sched[..|sched| - 1]);
      RunLast(ctx, cache, st, sched);
    }
  }

  lemma ApplyAccShaped(acc: Acc, v: Visit, o: BpOut, dInput: nat, dMem: nat)
    requires AccShaped(acc, dInput, dMem)
    ensures AccShaped(ApplyAcc(acc, v, o), dInput, dMem)
  {
    MatAddShape(acc.dw.wg, o.dWg, dInput, 2 * dMem);
    MatAddShape(acc.dw.ug, o.dUg, dMem, 2 * dMem);
    MatAddShape(acc.dw.wc, o.dWc, dInput, dMem);
    MatAddShape(acc.dw.uc, o.dUc, dMem, dMem);
  }

  /** One visit adds into a sum of two buffers as it adds into the second. */
  lemma ApplyAccAdd(a: Acc, b: Acc, v: Visit, o: BpOut, dInput: nat, dMem: nat)
    requires AccShaped(a, dInput, dMem) && AccShaped(b, dInput, dMem)
    ensures ApplyAcc(AddAcc(a, b), v, o) == AddAcc(a, ApplyAcc(b, v, o))
  {
    if v.pre.Begin? {
      VAddAssoc(a.beginHEr, b.beginHEr, o.dPreH);
    }
    MatAddAssoc(a.dw.wg, b.dw.wg, o.dWg, dInput, 2 * dMem);
    MatAddAssoc(a.dw.ug, b.dw.ug, o.dUg, dMem, 2 * dMem);
    MatAddAssoc(a.dw.wc, b.dw.wc, o.dWc, dInput, dMem);
    MatAddAssoc(a.dw.uc, b.dw.uc, o.dUc, dMem, dMem);
  }

  lemma AddZeroAcc(a: Acc, dInput: nat, dMem: nat)
    requires AccShaped(a, dInput, dMem)
    ensures AddAcc(a, ZeroAcc(dInput, dMem)) == a
  {
    VAddZerosRight(a.beginHEr, dMem);
    MatAddZerosRight(a.dw.wg, dInput, 2 * dMem);
    MatAddZerosRight(a.dw.ug, dMem, 2 * dMem);
    MatAddZerosRight(a.dw.bg, 1, 2 * dMem);
    MatAddZerosRight(a.dw.wc, dInput, dMem);
    MatAddZerosRight(a.dw.uc, dMem, dMem);
    MatAddZerosRight(a.dw.bc, 1, dMem);
  }

  /** The timeline's contribution to the shared buffers: what a schedule
      adds to buffers that start at zero. */
  function Contribution(ctx: Ctx, cache: Cache, gr: Grads, sched: seq<Visit>, dInput: nat): Acc {
    Run(ctx, cache, BackState(gr, ZeroAcc(dInput, ctx.dMem)), sched).acc
  }

  /** `step` keeps the shared buffers shaped. */
  ghost predicate StepKeepsShape(step: Step, dInput: nat, dMem: nat) {
    forall st: BackState, v: Visit {:trigger step(st, v)} ::
      AccShaped(st.acc, dInput, dMem) ==> AccShaped(step(st, v).acc, dInput, dMem)
  }

  lemma {:induction false} FoldAccShaped(step: Step, st: BackState, sched: seq<Visit>, dInput: nat, dMem: nat)
    requires StepKeepsShape(step, dInput, dMem) && AccShaped(st.acc, dInput, dMem)
    ensures AccShaped(Fold(step, st, sched).acc, dInput, dMem)
    decreases |sched|
  {
    if |sched| > 0 {
      FoldAccShaped(step, st, sched[..|sched| - 1], dInput, dMem);
    }
  }

  /** The shared buffers stay shaped through any schedule. */
  lemma RunAccShaped(ctx: Ctx, cache: Cache, st: BackState, sched: seq<Visit>, dInput: nat)
    requires AccShaped(st.acc, dInput, ctx.dMem)
    ensures AccShaped(Run(ctx, cache, st, sched).acc, dInput, ctx.dMem)
  {
    var step := LayerStep(ctx, cache);
    forall s: BackState, v: Visit | AccShaped(s.acc, dInput, ctx.dMem)
      ensures AccShaped(step(s, v).acc, dInput, ctx.dMem)
    {
      BackStepAccShaped(ctx, cache, s, v, dInput);
    }
    FoldAccShaped(step, st, sched, dInput, ctx.dMem);
  }

  lemma BackStepAccShaped(ctx: Ctx, cache: Cache, st: BackState, v: Visit, dInput: nat)
    requires AccShaped(st.acc, dInput, ctx.dMem)
    ensures AccShaped(BackStep(ctx, cache, st, v).acc, dInput, ctx.dMem)
  {
    ApplyAccShaped(st.acc, v, StepAt(ctx, cache, st.gr, v), dInput, ctx.dMem);
  }

  /** Accumulation is additive: a schedule leaves the shared buffers at
      what they held plus the timeline's contribution, which depends only
      on the timeline's own rows. */
  lemma {:induction false} RunAccAdditive(ctx: Ctx, cache: Cache, st: BackState, sched: seq<Visit>, dInput: nat)
    requires AccShaped(st.acc, dInput, ctx.dMem)
    ensures Run(ctx, cache, st, sched).acc == AddAcc(st.acc, Contribution(ctx, cache, st.gr, sched, dInput))
    decreases |sched|
  {
    var zero := ZeroAcc(dInput, ctx.dMem);
    if |sched| == 0 {
      AddZeroAcc(st.acc, dInput, ctx.dMem);
    } else {
      var n := |sched| - 1;
      var mid := Run(ctx, cache, st, sched[..n]);
      var midZ := Run(ctx, cache, BackState(st.gr, zero), sched[..n]);
      RunAccAdditive(ctx, cache, st, sched[..n], dInput);
      RunLast(ctx, cache, st, sched);
      RunLast(ctx, cache, BackState(st.gr, zero), sched);
      RunGradsIgnoreAcc(ctx, cache, st.gr, st.acc, zero, sched[..n]);
      assert mid.gr == midZ.gr;
      RunAccShaped(ctx, cache, BackState(st.gr, zero), sched[..n], dInput);
      var o := StepAt(ctx, cache, mid.gr, sched[n]);
      ApplyAccAdd(st.acc, midZ.acc, sched[n], o, dInput, ctx.dMem);
    }
  }

  // ---------------------------------------------------------------------
  // The two schedules

  /** A visit whose predecessor is row `j`, when no earlier visit named
      `j`, leaves in row `j` of the top diff its external gradient plus the
      gradient the visit found for the previous hidden state. */
  lemma {:induction false} RunFeeds(ctx: Ctx, cache: Cache, st: BackState, sched: seq<Visit>, i: nat, j: nat)
    requires i < |sched| && sched[i].pre == Neighbour(j) && j < |st.gr.hEr|
    requires Untouched(sched[..i], j)
    ensures Row(Run(ctx, cache, st, sched[..i + 1]).gr.hEr, j)
      == VAdd(Row(st.gr.hEr, j), StepAt(ctx, cache, Run(ctx, cache, st, sched[..i]).gr, sched[i]).dPreH)
  {
    var mid := Run(ctx, cache, st, sched[..i]);
    RunUntouched(ctx, cache, st, sched[..i], j);
    assert sched[..i + 1][..i] == sched[..i];
    var o := StepAt(ctx, cache, mid.gr, sched[i]);
    assert Run(ctx, cache, st, sched[..i + 1]) == BackStep(ctx, cache, mid, sched[i]);
    assert ApplyGrads(mid.gr, sched[i], o).hEr == SetRow(mid.gr.hEr, j, VAdd(Row(mid.gr.hEr, j), o.dPreH));
  }

  /** Left to right: row `t` is visited before row `t - 1` and feeds it;
      when row `t - 1` is stepped through, its top diff row holds the
      external gradient plus what the step at row `t` added, and nothing
      else has touched it. */
  lemma LeftScheduleFeeds(ctx: Ctx, cache: Cache, st: BackState, len: nat, t: nat)
    requires 1 <= t < len && len <= |st.gr.hEr|
    ensures var s := LeftSchedule(len);
      var i := len - 1 - t;
      s[i] == Visit(t, Neighbour(t - 1)) && s[i + 1].row == t - 1
    ensures var s := LeftSchedule(len);
      var i := len - 1 - t;
      Row(Run(ctx, cache, st, s[..i + 1]).gr.hEr, t - 1)
        == VAdd(Row(st.gr.hEr, t - 1), StepAt(ctx, cache, Run(ctx, cache, st, s[..i]).gr, s[i]).dPreH)
  {
    var s := LeftSchedule(len);
    var i := len - 1 - t;
    assert Untouched(s[..i], t - 1) by {
      forall j | 0 <= j < i ensures !Names(s[..i][j], t - 1) {
        assert s[..i][j] == s[j];
      }
    }
    assert s[i] == Visit(t, Neighbour(t - 1));
    assert s[i + 1].row == t - 1;
    RunFeeds(ctx, cache, st, s, i, t - 1);
  }

  /** Right to left: row `t` is visited before row `t + 1` and feeds it;
      when row `t + 1` is stepped through, its top diff row holds the
      external gradient plus what the step at row `t` added. */
  lemma RightScheduleFeeds(ctx: Ctx, cache: Cache, st: BackState, len: nat, t: nat)
    requires t + 1 < len && len <= |st.gr.hEr|
    ensures var s := RightSchedule(len);
      s[t] == Visit(t, Neighbour(t + 1)) && s[t + 1].row == t + 1
    ensures var s := RightSchedule(len);
      Row(Run(ctx, cache, st, s[..t + 1]).gr.hEr, t + 1)
        == VAdd(Row(st.gr.hEr, t + 1), StepAt(ctx, cache, Run(ctx, cache, st, s[..t]).gr, s[t]).dPreH)
  {
    var s := RightSchedule(len);
    assert Untouched(s[..t], t + 1) by {
      forall j | 0 <= j < t ensures !Names(s[..t][j], t + 1) {
        assert s[..t][j] == s[j];
      }
    }
    RunFeeds(ctx, cache, st, s, t, t + 1);
  }

  /** Each schedule visits every row below `len` exactly once and names no
      row at or beyond `len`, so those rows keep their gradients. */
  lemma ScheduleRows(reverse: bool, len: nat, j: int)
    requires j < 0 || j >= len
    ensures Untouched(Schedule(reverse, len), j)
  {
  }

  lemma ScheduleVisitsOnce(reverse: bool, len: nat, j: nat)
    requires j < len
    ensures var s := Schedule(reverse, len);
      exists i :: 0 <= i < len && s[i].row == j && forall i' :: 0 <= i' < len && i' != i ==> s[i'].row != j
  {
    var s := Schedule(reverse, len);
    var i := if reverse then j else len - 1 - j;
    assert s[i].row == j;
  }

  /** Exactly one visit feeds `begin_h_er`: the last one, at the row the
      forward pass started from. */
  lemma ScheduleBeginOnce(reverse: bool, len: nat, i: nat)
    requires i < len
    ensures var s := Schedule(reverse, len);
      s[i].pre.Begin? <==> i == len - 1
    ensures var s := Schedule(reverse, len);
      i == len - 1 ==> s[i].row == if reverse then len - 1 else 0
  {
  }
}
