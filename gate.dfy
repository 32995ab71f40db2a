/** The fused gate row of width 2 * d_mem and its two views: the reset gate
    `r` over columns [0, d_mem) and the update gate `z` over columns
    [d_mem, 2 * d_mem). A view is an index range into the row, not a copy:
    reading a view reads the row, and writing a view writes the row. */
module Gate {
  import opened Linalg
  import opened Outcomes

  /** The columns [lo, lo + width) of a single row. */
  datatype View = View(lo: nat, width: nat)

  function ResetView(dMem: nat): View { View(0, dMem) }

  function UpdateView(dMem: nat): View { View(dMem, dMem) }

  datatype Split = Split(r: View, z: View)

  /** The entries of `row` seen through `v`. */
  function Read(row: Vec, v: View): (r: Vec)
    ensures |r| == v.width
  {
    seq(v.width, k => At(row, v.lo + k))
  }

  /** `row` after assigning `vals` through the view `v`; the rest of the
      row is kept. */
  function Write(row: Vec, v: View, vals: Vec): (r: Vec)
    ensures |r| == |row|
  {
    seq(|row|, i requires 0 <= i < |row| =>
      if v.lo <= i < v.lo + v.width then At(vals, i - v.lo) else row[i])
  }

  /** `SplitGate(g, r, z)`: `g` must be exactly one row; `r` and `z` then
      alias its first and second halves. */
  function SplitGate(g: Mat, dMem: nat): (res: Result<Split>)
    ensures res.Fail? <==> |g| != 1
    ensures res.Fail? ==> res.error == GateProblem
    ensures res.Ok? ==> res.value.r == ResetView(dMem) && res.value.z == UpdateView(dMem)
    ensures res.Ok? ==> res.value.r.width == dMem && res.value.z.width == dMem
    ensures res.Ok? ==>
      (forall k :: 0 <= k < dMem ==>
         Read(g[0], res.value.r)[k] == At(g[0], k) &&
         Read(g[0], res.value.z)[k] == At(g[0], dMem + k))
  {
    if |g| != 1 then Fail(GateProblem)
    else Ok(Split(ResetView(dMem), UpdateView(dMem)))
  }

  predicate Disjoint(u: View, v: View) {
    u.lo + u.width <= v.lo || v.lo + v.width <= u.lo
  }

  lemma ReadWriteSame(row: Vec, v: View, vals: Vec)
    requires v.lo + v.width <= |row| && |vals| == v.width
    ensures Read(Write(row, v, vals), v) == vals
  {
    var w := Write(row, v, vals);
    forall k | 0 <= k < v.width ensures Read(w, v)[k] == vals[k] {
      assert Read(w, v)[k] == At(w, v.lo + k);
      assert w[v.lo + k] == At(vals, k);
    }
  }

  lemma ReadWriteOther(row: Vec, v: View, u: View, vals: Vec)
    requires Disjoint(u, v)
    ensures Read(Write(row, v, vals), u) == Read(row, u)
  {
    var w := Write(row, v, vals);
    forall k | 0 <= k < u.width ensures Read(w, u)[k] == Read(row, u)[k] {
      var i := u.lo + k;
      assert Read(w, u)[k] == At(w, i) && Read(row, u)[k] == At(row, i);
      if i < |row| {
        assert !(v.lo <= i < v.lo + v.width);
        assert w[i] == row[i];
      }
    }
  }

  /** The reset and update views do not overlap, so a write through one of
      them leaves the other unchanged. */
  lemma GateViewsDisjoint(dMem: nat)
    ensures Disjoint(ResetView(dMem), UpdateView(dMem))
    ensures Disjoint(UpdateView(dMem), ResetView(dMem))
  {
  }

  lemma ReadZeros(n: nat, v: View)
    ensures Read(Zeros(n), v) == Zeros(v.width)
  {
    forall k | 0 <= k < v.width ensures Read(Zeros(n), v)[k] == 0.0 {
      assert Read(Zeros(n), v)[k] == At(Zeros(n), v.lo + k);
    }
  }

  /** The reset view reads the first d_mem entries, the update view the
      next d_mem. */
  lemma ReadViews(row: Vec, dMem: nat)
    requires |row| == 2 * dMem
    ensures Read(row, ResetView(dMem)) == row[..dMem]
    ensures Read(row, UpdateView(dMem)) == row[dMem..]
  {
    forall k | 0 <= k < dMem ensures Read(row, ResetView(dMem))[k] == row[k] {
      assert Read(row, ResetView(dMem))[k] == At(row, k);
    }
    forall k | 0 <= k < dMem ensures Read(row, UpdateView(dMem))[k] == row[dMem + k] {
      assert Read(row, UpdateView(dMem))[k] == At(row, dMem + k);
    }
  }

  /** The two views cover the gate row exactly: the row is its reset half
      followed by its update half. */
  lemma SplitCovers(row: Vec, dMem: nat)
    requires |row| == 2 * dMem
    ensures row == Read(row, ResetView(dMem)) + Read(row, UpdateView(dMem))
  {
    var both := Read(row, ResetView(dMem)) + Read(row, UpdateView(dMem));
    forall i | 0 <= i < |row| ensures both[i] == row[i] {
      if i < dMem {
        assert both[i] == Read(row, ResetView(dMem))[i] == At(row, i);
      } else {
        assert both[i] == Read(row, UpdateView(dMem))[i - dMem] == At(row, dMem + (i - dMem));
      }
    }
  }

  /** Writing `a` through the reset view and `b` through the update view
      makes the row `a + b`, whatever it held before. */
  lemma WriteBoth(row: Vec, dMem: nat, a: Vec, b: Vec)
    requires |row| == 2 * dMem && |a| == dMem && |b| == dMem
    ensures Write(Write(row, UpdateView(dMem), b), ResetView(dMem), a) == a + b
  {
    var w := Write(Write(row, UpdateView(dMem), b), ResetView(dMem), a);
    var w1 := Write(row, UpdateView(dMem), b);
    forall i | 0 <= i < |row| ensures w[i] == (a + b)[i] {
      if i < dMem {
        assert w[i] == At(a, i) == a[i];
      } else {
        assert w[i] == w1[i] == At(b, i - dMem) == b[i - dMem];
      }
    }
  }
}
