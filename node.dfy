/** `Node`: a 4-D data tensor, its gradient `diff` and an index tensor, with
    the shape bookkeeping and flags of src/layer/node.h. The initializer and
    the updater are collaborators whose behaviour is not part of this
    model; a node holds them as functions and only the dispatch to them is
    modelled. */
module Nodes {
  import opened Linalg
  import opened Tensors
  import opened Outcomes

  /** `initializer_->DoInitialize`: fills a tensor. */
  datatype Initializer = Initializer(fill: Tensor4 -> Tensor4)

  /** An updater: `is_sparse`, `Update(data, diff)` and
      `UpdateSparse(data, diff, idx)`. The tensors are handed over as
      shallow views, so an updater may write each of them: each function
      gives the new contents of every tensor it is handed. */
  datatype Updater = Updater(
    isSparse: bool,
    update: (Tensor4, Tensor4) -> (Tensor4, Tensor4),
    updateSparse: (Tensor4, Tensor4, Tensor4) -> (Tensor4, Tensor4, Tensor4))

  /** Which path `Update` took. */
  datatype UpdatePath = Dense | Sparse

  /** Which case of `Resize` applied. */
  datatype ResizeCase = Kept | ZeroFilled | Reshaped

  class Node {
    var data: Tensor4
    var diff: Tensor4
    var idx: Tensor4
    var dataShape: Shape4
    var diffShape: Shape4
    /** The valid length of every (batch, seq) timeline. node.h does not
        declare it, but the GRU layer reads and writes `node->length`. */
    var length: seq<seq<int>>
    var mustContiguous: bool
    var initedData: bool
    var initedDiff: bool
    var needDiff: bool
    var updater: Option<Updater>
    var initializer: Option<Initializer>

    /** The tensors have the shapes recorded for them. */
    predicate Valid()
      reads this
    {
      Shaped4(data, dataShape) && Shaped4(diff, diffShape)
    }

    /** `Node(need_diff_)`: both shapes (0,0,0,0), both inited flags false,
        not contiguous. */
    constructor (needDiff0: bool)
      ensures Valid()
      ensures dataShape == Shape4(0, 0, 0, 0) && diffShape == Shape4(0, 0, 0, 0)
      ensures !initedData && !initedDiff && !mustContiguous && needDiff == needDiff0
      ensures updater.None? && initializer.None?
    {
      data := [];
      diff := [];
      idx := [];
      dataShape := Shape4(0, 0, 0, 0);
      diffShape := Shape4(0, 0, 0, 0);
      length := [];
      mustContiguous := false;
      initedData := false;
      initedDiff := false;
      needDiff := needDiff0;
      updater := None;
      initializer := None;
    }

    /** `is_mat`: the node holds one row per batch entry. */
    predicate IsMat()
      reads this
    {
      dataShape.d1 == 1 && dataShape.d2 == 1
    }

    /** `AllocSpace`: data always gets new storage of its shape and is
        marked allocated; diff does too exactly when the node needs a
        gradient. New storage is uninitialised, so its contents are not
        fixed here. */
    method AllocSpace()
      modifies this
      ensures initedData && initedDiff == (old(initedDiff) || needDiff)
      ensures Shaped4(data, dataShape)
      ensures needDiff ==> Shaped4(diff, diffShape)
      ensures !needDiff ==> diff == old(diff)
      ensures idx == old(idx) && dataShape == old(dataShape) && diffShape == old(diffShape)
      ensures length == old(length) && needDiff == old(needDiff) && mustContiguous == old(mustContiguous)
      ensures updater == old(updater) && initializer == old(initializer)
    {
      assert Shaped4(Zeros4(dataShape), dataShape);
      var d: Tensor4 :| Shaped4(d, dataShape);
      data := d;
      initedData := true;
      if needDiff {
        assert Shaped4(Zeros4(diffShape), diffShape);
        var e: Tensor4 :| Shaped4(e, diffShape);
        diff := e;
        initedDiff := true;
      }
    }

    /** `Resize(new_size, init)`:
        - the same shape and no `init`: nothing changes;
        - `init`: data takes the new shape filled with zeros, and so does
          diff when the node needs a gradient;
        - otherwise: data (and diff when needed) take the new shape with
          contents this model does not fix. */
    method Resize(newShape: Shape4, init: bool) returns (which: ResizeCase)
      requires Valid()
      modifies this
      ensures Valid()
      ensures which == Kept <==> newShape == old(dataShape) && !init
      ensures which == ZeroFilled <==> init
      ensures which == Kept ==> data == old(data) && dataShape == old(dataShape)
      ensures which != Kept ==> dataShape == newShape
      ensures which == ZeroFilled ==> data == Zeros4(newShape)
      ensures which == Kept || !needDiff ==> diff == old(diff) && diffShape == old(diffShape)
      ensures which != Kept && needDiff ==> diffShape == newShape
      ensures which == ZeroFilled && needDiff ==> diff == Zeros4(newShape)
      ensures idx == old(idx) && length == old(length) && needDiff == old(needDiff)
      ensures initedData == old(initedData) && initedDiff == old(initedDiff)
      ensures mustContiguous == old(mustContiguous)
      ensures updater == old(updater) && initializer == old(initializer)
    {
      if newShape == dataShape && !init {
        which := Kept;
      } else if init {
        data, dataShape := Zeros4(newShape), newShape;
        if needDiff {
          diff, diffShape := Zeros4(newShape), newShape;
        }
        which := ZeroFilled;
      } else {
        assert Shaped4(Zeros4(newShape), newShape);
        var d: Tensor4 :| Shaped4(d, newShape);
        data, dataShape := d, newShape;
        if needDiff {
          var e: Tensor4 :| Shaped4(e, newShape);
          diff, diffShape := e, newShape;
        }
        which := Reshaped;
      }
    }

    /** `Resize(d1, d2, d3, d4, init)`: the same as resizing to
        `Shape4(d1, d2, d3, d4)`. */
    method Resize4(d1: nat, d2: nat, d3: nat, d4: nat, init: bool) returns (which: ResizeCase)
      requires Valid()
      modifies this
      ensures Valid()
      ensures which == Kept <==> Shape4(d1, d2, d3, d4) == old(dataShape) && !init
      ensures which == ZeroFilled <==> init
      ensures which == Kept ==> data == old(data) && dataShape == old(dataShape)
      ensures which != Kept ==> dataShape == Shape4(d1, d2, d3, d4)
      ensures which == ZeroFilled ==> data == Zeros4(Shape4(d1, d2, d3, d4))
      ensures which == Kept || !needDiff ==> diff == old(diff) && diffShape == old(diffShape)
      ensures which != Kept && needDiff ==> diffShape == Shape4(d1, d2, d3, d4)
      ensures which == ZeroFilled && needDiff ==> diff == Zeros4(Shape4(d1, d2, d3, d4))
      ensures idx == old(idx) && length == old(length) && needDiff == old(needDiff)
      ensures initedData == old(initedData) && initedDiff == old(initedDiff)
      ensures mustContiguous == old(mustContiguous)
      ensures updater == old(updater) && initializer == old(initializer)
    {
      which := Resize(Shape4(d1, d2, d3, d4), init);
    }

    /** `data_d1`: the product of the four data dimensions, accumulated one
        dimension at a time, and the data laid out as one row of that
        length. */
    method DataD1() returns (ymax: nat, flat: Vec)
      requires Valid()
      ensures ymax == Size(dataShape)
      ensures |flat| == ymax && flat == Flatten(data)
    {
      ymax := ProductOfDims(dataShape, 0);
      flat := Flatten(data);
      FlattenLength(data, dataShape);
    }

    /** `diff_d1`: the same for the gradient. */
    method DiffD1() returns (ymax: nat, flat: Vec)
      requires Valid()
      ensures ymax == Size(diffShape)
      ensures |flat| == ymax && flat == Flatten(diff)
    {
      ymax := ProductOfDims(diffShape, 0);
      flat := Flatten(diff);
      FlattenLength(diff, diffShape);
    }

    /** `data_d3`: shape (s0, s1, s2 * s3), each (batch, seq) plane laid out
        as one row. */
    method DataD3() returns (ymax: nat, view: Tensor3)
      requires Valid()
      ensures ymax == dataShape.d2 * dataShape.d3
      ensures Shaped3(view, dataShape.d0, dataShape.d1, ymax)
      ensures view == FlattenPlanes(data)
    {
      ymax := ProductOfDims(dataShape, 2);
      view := FlattenPlanes(data);
      FlattenPlanesShape(data, dataShape);
    }

    /** `diff_d3`: the same for the gradient. */
    method DiffD3() returns (ymax: nat, view: Tensor3)
      requires Valid()
      ensures ymax == diffShape.d2 * diffShape.d3
      ensures Shaped3(view, diffShape.d0, diffShape.d1, ymax)
      ensures view == FlattenPlanes(diff)
    {
      ymax := ProductOfDims(diffShape, 2);
      view := FlattenPlanes(diff);
      FlattenPlanesShape(diff, diffShape);
    }

    /** `Init(init_diff)`: the initializer fills data, and diff only when
        asked to. */
    method Init(initDiff: bool)
      requires initializer.Some?
      modifies this
      ensures data == old(initializer.value.fill(data))
      ensures diff == if initDiff then old(initializer.value.fill(diff)) else old(diff)
      ensures idx == old(idx) && dataShape == old(dataShape) && diffShape == old(diffShape)
      ensures length == old(length) && needDiff == old(needDiff) && mustContiguous == old(mustContiguous)
      ensures initedData == old(initedData) && initedDiff == old(initedDiff)
      ensures updater == old(updater) && initializer == old(initializer)
    {
      data := initializer.value.fill(data);
      if initDiff {
        diff := initializer.value.fill(diff);
      }
    }

    /** `Update()`: the sparse update (which is also handed `idx`) exactly
        when the updater is sparse, the dense one otherwise; the tensors
        handed over take the contents the updater gives. */
    method Update() returns (path: UpdatePath)
      requires updater.Some?
      modifies this
      ensures path == Sparse <==> old(updater.value.isSparse)
      ensures path == Sparse ==> (data, diff, idx) == old(updater.value.updateSparse(data, diff, idx))
      ensures path == Dense ==> (data, diff) == old(updater.value.update(data, diff)) && idx == old(idx)
      ensures dataShape == old(dataShape) && diffShape == old(diffShape)
      ensures length == old(length) && needDiff == old(needDiff) && mustContiguous == old(mustContiguous)
      ensures initedData == old(initedData) && initedDiff == old(initedDiff)
      ensures updater == old(updater) && initializer == old(initializer)
    {
      var u := updater.value;
      if u.isSparse {
        var r := u.updateSparse(data, diff, idx);
        data, diff, idx := r.0, r.1, r.2;
        path := Sparse;
      } else {
        var r := u.update(data, diff);
        data, diff := r.0, r.1;
        path := Dense;
      }
    }
  }

  /** A node for which `is_mat` holds has one (batch, seq) plane per batch
      entry, holding a single row, so its `data_d3` view is one row of
      size(3) entries per batch entry. */
  lemma IsMatOneRow(n: Node)
    requires n.Valid() && n.IsMat()
    ensures Shaped3(FlattenPlanes(n.data), n.dataShape.d0, 1, n.dataShape.d3)
    ensures forall b :: 0 <= b < n.dataShape.d0 ==> FlattenPlanes(n.data)[b][0] == n.data[b][0][0]
  {
    FlattenPlanesShape(n.data, n.dataShape);
    forall b | 0 <= b < n.dataShape.d0 ensures FlattenPlanes(n.data)[b][0] == n.data[b][0][0] {
      var m := n.data[b][0];
      assert m[..0] == [];
      assert Concat(m) == Concat(m[..0]) + m[0];
    }
  }

  /** The `ymax` loop of `data_d1` (from dimension 0) and `data_d3` (from
      dimension 2): multiply the dimensions `lo` to 3 into 1. */
  method ProductOfDims(s: Shape4, lo: nat) returns (ymax: nat)
    requires lo <= 4
    ensures ymax == DimProduct(s, lo, 4)
    ensures lo == 0 ==> ymax == Size(s)
    ensures lo == 2 ==> ymax == s.d2 * s.d3
  {
    ymax := 1;
    var i := lo;
    while i < 4
      invariant lo <= i <= 4
      invariant ymax == DimProduct(s, lo, i)
      decreases 4 - i
    {
      ymax := ymax * Dim(s, i);
      i := i + 1;
    }
    DimProductSize(s);
  }

  /** The product of all four dimensions is the tensor's size, and that of
      the last two the row length of `data_d3`. */
  lemma DimProductSize(s: Shape4)
    ensures DimProduct(s, 0, 4) == Size(s)
    ensures DimProduct(s, 2, 4) == s.d2 * s.d3
  {
    var a, b, c, d := s.d0, s.d1, s.d2, s.d3;
    assert DimProduct(s, 0, 2) == a * b;
    assert DimProduct(s, 0, 4) == ((a * b) * c) * d;
    assert DimProduct(s, 2, 4) == c * d;
    calc {
      ((a * b) * c) * d;
      == { MulAssoc(a * b, c, d); }
      (a * b) * (c * d);
      == { MulAssoc(a, b, c * d); }
      a * (b * (c * d));
    }
  }

  lemma MulAssoc(a: nat, b: nat, c: nat)
    ensures (a * b) * c == a * (b * c)
  {
  }
}
