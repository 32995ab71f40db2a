/** One (batch, seq) timeline of valid length `len`, as values: the
    forward recurrences in either direction and the backward passes that
    run opposite to them. The layer's driver methods are proved to compute
    exactly these values in its buffers. */
module Timeline {
  import opened Linalg
  import opened Gate
  import opened GruCell

  function Reverse<T>(s: seq<T>): (r: seq<T>)
    ensures |r| == |s|
    ensures forall i :: 0 <= i < |s| ==> r[i] == s[|s| - 1 - i]
  {
    if |s| == 0 then [] else Reverse(s[1..]) + [s[0]]
  }

  lemma ReverseSnoc<T>(a: seq<T>, x: T)
    ensures Reverse(a + [x]) == [x] + Reverse(a)
  {
  }

  lemma ReverseInvolutive<T>(a: seq<T>)
    ensures Reverse(Reverse(a)) == a
  {
  }

  // ---------------------------------------------------------------------
  // Forward

  /** One forward step as a function of (pre_h, x); the recurrences below
      only combine steps, so they are stated for any cell. */
  type Cell = (Vec, Vec) -> StepOut

  /** The layer's cell: `ForwardOneStep` with fixed weights. */
  function GruStep(act: Activations, w: Weights, dMem: nat): Cell {
    (preH: Vec, x: Vec) => ForwardStep(act, w, dMem, preH, x)
  }

  /** `ForwardLeft2Right` over the rows `xs`: row 0 starts from `h0`
      (`begin_h`), every later row from the hidden state of the row before
      it. Defined on prefixes, the order in which the rows are computed. */
  function Left2Right(cell: Cell, h0: Vec, xs: Mat): (out: seq<StepOut>)
    ensures |out| == |xs|
    decreases |xs|
  {
    if |xs| == 0 then []
    else
      var prev := Left2Right(cell, h0, xs[..|xs| - 1]);
      prev + [cell(if |prev| == 0 then h0 else prev[|prev| - 1].h, xs[|xs| - 1])]
  }

  /** `ForwardRight2Left` over the rows `xs`: the last row starts from
      `h0`, every earlier row from the hidden state of the row after it.
      Defined on suffixes, the order in which the rows are computed. */
  function Right2Left(cell: Cell, h0: Vec, xs: Mat): (out: seq<StepOut>)
    ensures |out| == |xs|
    decreases |xs|
  {
    if |xs| == 0 then []
    else
      var next := Right2Left(cell, h0, xs[1..]);
      [cell(if |next| == 0 then h0 else next[0].h, xs[0])] + next
  }

  /** The hidden-state, candidate and gate rows of a run of steps: what
      the drivers leave in the top data, `c` and `g`. */
  function Hs(out: seq<StepOut>): (m: Mat)
    ensures |m| == |out| && forall k :: 0 <= k < |out| ==> m[k] == out[k].h
  {
    seq(|out|, k requires 0 <= k < |out| => out[k].h)
  }

  function Cs(out: seq<StepOut>): (m: Mat)
    ensures |m| == |out| && forall k :: 0 <= k < |out| ==> m[k] == out[k].c
  {
    seq(|out|, k requires 0 <= k < |out| => out[k].c)
  }

  function Gs(out: seq<StepOut>): (m: Mat)
    ensures |m| == |out| && forall k :: 0 <= k < |out| ==> m[k] == out[k].g
  {
    seq(|out|, k requires 0 <= k < |out| => out[k].g)
  }

  /** One more row left to right: the step from the hidden state of the
      last row so far (or `h0`) appended to the rows so far. */
  lemma Left2RightExtend(cell: Cell, h0: Vec, xs: Mat, row: nat)
    requires row < |xs|
    ensures var prev := Left2Right(cell, h0, xs[..row]);
      Left2Right(cell, h0, xs[..row + 1]) == prev + [cell(PrevH(h0, prev, row), xs[row])]
  {
    assert xs[..row + 1][..row] == xs[..row];
  }

  /** One more row right to left: the step from the hidden state of the
      first row so far (or `h0`) prepended to the rows so far. */
  lemma Right2LeftExtend(cell: Cell, h0: Vec, xs: Mat, row: nat)
    requires row < |xs|
    ensures var next := Right2Left(cell, h0, xs[row + 1..]);
      Right2Left(cell, h0, xs[row..]) == [cell(if |next| == 0 then h0 else next[0].h, xs[row])] + next
  {
    assert xs[row..][1..] == xs[row + 1..];
  }

  /** The direction the layer was configured with (`reverse`). */
  function Timeline(cell: Cell, reverse: bool, h0: Vec, xs: Mat): (out: seq<StepOut>)
    ensures |out| == |xs|
  {
    if reverse then Right2Left(cell, h0, xs) else Left2Right(cell, h0, xs)
  }

  /** The hidden state row `k` starts from when running left to right. */
  function PrevH(h0: Vec, out: seq<StepOut>, k: int): Vec {
    if 0 < k <= |out| then out[k - 1].h else h0
  }

  /** The hidden state row `k` starts from when running right to left. */
  function NextH(h0: Vec, out: seq<StepOut>, k: int): Vec {
    if 0 <= k < |out| - 1 then out[k + 1].h else h0
  }

  /** Every row is the step from its predecessor's hidden state, and row 0
      the step from `h0`. */
  predicate ChainedLeft(cell: Cell, h0: Vec, xs: Mat, out: seq<StepOut>) {
    |out| == |xs| && forall k {:trigger xs[k]} :: 0 <= k < |xs| ==> out[k] == cell(PrevH(h0, out, k), xs[k])
  }

  /** Every row is the step from its successor's hidden state, and the last
      row the step from `h0`. */
  predicate ChainedRight(cell: Cell, h0: Vec, xs: Mat, out: seq<StepOut>) {
    |out| == |xs| && forall k {:trigger xs[k]} :: 0 <= k < |xs| ==> out[k] == cell(NextH(h0, out, k), xs[k])
  }

  /** `Left2Right` satisfies the left chain equations ... */
  lemma {:induction false} Left2RightChained(cell: Cell, h0: Vec, xs: Mat)
    ensures ChainedLeft(cell, h0, xs, Left2Right(cell, h0, xs))
    decreases |xs|
  {
    if |xs| > 0 {
      var n := |xs| - 1;
      var pre := Left2Right(cell, h0, xs[..n]);
      var out := Left2Right(cell, h0, xs);
      Left2RightChained(cell, h0, xs[..n]);
      forall k | 0 <= k < |xs| ensures out[k] == cell(PrevH(h0, out, k), xs[k]) {
        if k < n {
          assert out[k] == pre[k] && xs[k] == xs[..n][k];
          assert PrevH(h0, out, k) == PrevH(h0, pre, k);
        }
      }
    }
  }

  /** ... and is the only row sequence that does. */
  lemma {:induction false} Left2RightUnique(cell: Cell, h0: Vec, xs: Mat, out: seq<StepOut>)
    requires ChainedLeft(cell, h0, xs, out)
    ensures out == Left2Right(cell, h0, xs)
    decreases |xs|
  {
    if |xs| > 0 {
      var n := |xs| - 1;
      var ys, pre := xs[..n], out[..n];
      forall k | 0 <= k < n ensures pre[k] == cell(PrevH(h0, pre, k), ys[k]) {
        assert ys[k] == xs[k];
        assert PrevH(h0, out, k) == PrevH(h0, pre, k);
      }
      Left2RightUnique(cell, h0, ys, pre);
      assert xs == ys + [xs[n]];
      Left2RightSnoc(cell, h0, ys, xs[n]);
      assert PrevH(h0, out, n) == PrevH(h0, pre, n);
      assert out == pre + [out[n]];
    }
  }

  /** `Right2Left` satisfies the right chain equations. */
  lemma {:induction false} Right2LeftChained(cell: Cell, h0: Vec, xs: Mat)
    ensures ChainedRight(cell, h0, xs, Right2Left(cell, h0, xs))
    decreases |xs|
  {
    if |xs| > 0 {
      var next := Right2Left(cell, h0, xs[1..]);
      var out := Right2Left(cell, h0, xs);
      Right2LeftChained(cell, h0, xs[1..]);
      forall k | 0 <= k < |xs| ensures out[k] == cell(NextH(h0, out, k), xs[k]) {
        if k > 0 {
          assert out[k] == next[k - 1] && xs[k] == xs[1..][k - 1];
          assert NextH(h0, out, k) == NextH(h0, next, k - 1);
        }
      }
    }
  }

  /** Appending one input row appends the step from the last hidden state. */
  lemma Left2RightSnoc(cell: Cell, h0: Vec, ys: Mat, x: Vec)
    ensures var prev := Left2Right(cell, h0, ys);
      Left2Right(cell, h0, ys + [x]) == prev + [cell(PrevH(h0, prev, |prev|), x)]
  {
    assert (ys + [x])[..|ys|] == ys;
  }

  /** Reversing a non-empty sequence puts its head last. */
  lemma ReverseCons<T>(xs: seq<T>)
    requires |xs| > 0
    ensures Reverse(xs) == Reverse(xs[1..]) + [xs[0]]
  {
  }

  /** The first entry of a reversal is the last entry of the original. */
  lemma ReverseHead(prev: seq<StepOut>, next: seq<StepOut>)
    requires next == Reverse(prev)
    ensures (if |next| == 0 then [] else [next[0].h]) == (if |prev| == 0 then [] else [prev[|prev| - 1].h])
  {
  }

  /** Direction symmetry: running right to left equals the row-reverse of
      running left to right over the row-reversed input. */
  lemma {:induction false} DirectionSymmetry(cell: Cell, h0: Vec, xs: Mat)
    ensures Right2Left(cell, h0, xs) == Reverse(Left2Right(cell, h0, Reverse(xs)))
    decreases |xs|
  {
    if |xs| > 0 {
      var rest := xs[1..];
      var prev := Left2Right(cell, h0, Reverse(rest));
      var next := Right2Left(cell, h0, rest);
      DirectionSymmetry(cell, h0, rest);
      ReverseHead(prev, next);
      var first := cell(PrevH(h0, prev, |prev|), xs[0]);
      assert Right2Left(cell, h0, xs) == [first] + next;
      ReverseCons(xs);
      Left2RightSnoc(cell, h0, Reverse(rest), xs[0]);
      ReverseSnoc(prev, first);
    }
  }

  /** Every step of a layer timeline has a gate row of 2 * d_mem entries
      and candidate and hidden rows of d_mem entries. */
  lemma TimelineWidths(act: Activations, w: Weights, dMem: nat, reverse: bool, h0: Vec, xs: Mat)
    ensures var out := Timeline(GruStep(act, w, dMem), reverse, h0, xs);
      forall k :: 0 <= k < |out| ==> |out[k].g| == 2 * dMem && |out[k].c| == dMem && |out[k].h| == dMem
  {
    var cell := GruStep(act, w, dMem);
    var out := Timeline(cell, reverse, h0, xs);
    if reverse {
      Right2LeftChained(cell, h0, xs);
      assert forall k :: 0 <= k < |out| ==> out[k] == ForwardStep(act, w, dMem, NextH(h0, out, k), xs[k]);
    } else {
      Left2RightChained(cell, h0, xs);
      assert forall k :: 0 <= k < |out| ==> out[k] == ForwardStep(act, w, dMem, PrevH(h0, out, k), xs[k]);
    }
  }
}
