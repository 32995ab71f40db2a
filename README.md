# GRU layer of textnet, modelled in Dafny

This project models the gated recurrent unit (GRU) layer of textnet,
`GruLayer` in `src/layer/common/gru_layer-inl.hpp`, together with the `Node`
tensor holder of `src/layer/node.h` that the layer reads and writes.

The layer runs on a 4-D bottom tensor of shape (batch, seq, time, d_input).
Each (batch, seq) pair is one timeline. Its valid length comes from the
bottom node's `length` table, and the rows from that length on are padding.
For each timeline, `Forward` runs a GRU recurrence from the all-zero
`begin_h`. It goes left to right, or right to left when `reverse` is set.
The recurrence writes the hidden states into the top node and keeps the
gate rows `g` (reset half, then update half) and the candidates `c` for
the backward pass. `Backprop` walks each timeline in the opposite order.
It adds into the top diff, the bottom diff, `begin_h_er` and the four
weight gradients. The bias gradients stay untouched.

Modules:

- `Outcomes`: the error conditions of the layer (`Error`), `Result`,
  `Outcome` and `Option`.
- `Linalg`: rows and matrices over `real`, with the products the layer
  uses (`dot(x, W)`, `dot(e, W.T())`, `dot(a.T(), b)`).
- `Gate`: `SplitGate`, the two views of a gate row. The reset half is
  `[0, d_mem)` and the update half is `[d_mem, 2 d_mem)`.
- `GruCell`: the parameters, one forward step (`ForwardOneStep`) and one
  backward step (`BpOneStep`) as functions.
- `Timeline`: the left-to-right and right-to-left recurrences over one
  timeline, and the symmetry between them.
- `BackwardTimeline`: the order of visits of the two backward drivers, and
  the fold of backward steps over that order.
- `Tensors`: 4-D shapes and tensors, plane updates and the flattenings
  behind `data_d1` and `data_d3`.
- `Nodes`: the `Node` class.
- `Layers`: the `GruLayer` class. Its methods follow the source statement by
  statement and are proved against the functions above.

The activations (sigmoid, tanh and their derivatives) are the four fields
of `Activations`: arbitrary functions of type `real -> real`. Every
property proved here holds for any choice of them.

## Model

| member | source | states |
|---|---|---|
| `Gate.SplitGate` | src/layer/common/gru_layer-inl.hpp:362-366 | fails with the gate problem exactly when the gate tensor does not have one row; otherwise `r` reads columns `0..d_mem` and `z` reads columns `d_mem..2 d_mem` of that row |
| `Gate.ReadWriteSame` | src/layer/common/gru_layer-inl.hpp:362-366 | writing through a view and reading back through it gives the written values, so an update through `r` or `z` changes the gate row |
| `Gate.ReadWriteOther` | src/layer/common/gru_layer-inl.hpp:362-366 | writing through one view leaves what a disjoint view reads unchanged |
| `Gate.GateViewsDisjoint` | src/layer/common/gru_layer-inl.hpp:362-366 | the reset and update views do not overlap |
| `Gate.SplitCovers` | src/layer/common/gru_layer-inl.hpp:362-366 | a gate row is exactly its reset half followed by its update half |
| `Gate.WriteBoth` | src/layer/common/gru_layer-inl.hpp:362-366 | writing both halves of a gate row replaces it entirely |
| `GruCell.ForwardStepGateOrder` | src/layer/common/gru_layer-inl.hpp:217-236 | the candidate is computed from the reset half of the step's own gate row, and the hidden state is interpolated with its update half |
| `GruCell.InterpolateAt` | src/layer/common/gru_layer-inl.hpp:236 | each entry of the new hidden state is `z*pre_h + (1-z)*c` |
| `GruCell.ForwardStepIgnoresBias` | src/layer/common/gru_layer-inl.hpp:213-235 | the step's output does not depend on `b_g` or `b_c` |
| `GruCell.ZeroWeightForward` | src/layer/common/gru_layer-inl.hpp:217-236 | with all-zero weights and a zero `pre_h`, every gate entry is `sigmoid(0)`, every candidate is `tanh(0)`, and the hidden state is zero when `tanh(0) = 0` |
| `GruCell.AddGrads` | src/layer/common/gru_layer-inl.hpp:249-258 | adding a step's gradients into the parameter diffs leaves the bias diffs unchanged |
| `GruCell.BackwardStepResetAssigned` | src/layer/common/gru_layer-inl.hpp:272-273 | the reset half of the incoming gate-gradient row does not affect the step, because it is assigned, not accumulated |
| `GruCell.BackwardStepUpdateHalf` | src/layer/common/gru_layer-inl.hpp:264-267 | each update-half entry of the gate gradient is the incoming entry plus `cur_h_er*pre_h` plus `cur_h_er*(-c)`, times `sigmoid_grad` of the update gate |
| `GruCell.BackwardStepZeroIn` | src/layer/common/gru_layer-inl.hpp:262-288 | a zero `cur_h_er` with zero incoming `c_er` and `g_er` gives zero gradients everywhere |
| `Timeline.Left2RightChained` | src/layer/common/gru_layer-inl.hpp:291-309 | in the left-to-right recurrence, row 0 is stepped from `begin_h` and every later row from the previous row's hidden state |
| `Timeline.Left2RightUnique` | src/layer/common/gru_layer-inl.hpp:291-309 | any sequence of rows chained that way equals the left-to-right recurrence |
| `Timeline.Right2LeftChained` | src/layer/common/gru_layer-inl.hpp:310-328 | in the right-to-left recurrence, the last row is stepped from `begin_h` and every earlier row from the next row's hidden state |
| `Timeline.DirectionSymmetry` | src/layer/common/gru_layer-inl.hpp:291-328 | running right to left equals reversing the input, running left to right, and reversing the output |
| `Timeline.TimelineWidths` | src/layer/common/gru_layer-inl.hpp:206-237 | every gate row has 2 d_mem entries, and every candidate and hidden state has d_mem |
| `BackwardTimeline.LeftScheduleFeeds` | src/layer/common/gru_layer-inl.hpp:379-409 | in the left-to-right backward pass, row t is visited just before row t-1, and its step adds its `pre_h_er` into row t-1 of the top diff before row t-1 is processed |
| `BackwardTimeline.RightScheduleFeeds` | src/layer/common/gru_layer-inl.hpp:410-440 | in the right-to-left backward pass, row t is visited just before row t+1, and its step adds into row t+1 of the top diff before it is processed |
| `BackwardTimeline.ScheduleVisitsOnce` | src/layer/common/gru_layer-inl.hpp:386-418 | each row below the valid length is visited exactly once |
| `BackwardTimeline.ScheduleBeginOnce` | src/layer/common/gru_layer-inl.hpp:387-419 | only the last visit uses `begin_h`/`begin_h_er`: row 0 for left-to-right, row len-1 for right-to-left |
| `BackwardTimeline.ScheduleRows` | src/layer/common/gru_layer-inl.hpp:459-477 | rows at or beyond the valid length are neither visited nor fed |
| `BackwardTimeline.RunUntouched` | src/layer/common/gru_layer-inl.hpp:459-477 | a row that no visit names keeps its gradient rows |
| `BackwardTimeline.RunGradsIgnoreAcc` | src/layer/common/gru_layer-inl.hpp:379-440 | the gradient rows a timeline's pass produces do not depend on the shared `begin_h_er` and parameter diffs |
| `BackwardTimeline.RunKeepsBias` | src/layer/common/gru_layer-inl.hpp:249-258 | a whole backward pass leaves the bias diffs unchanged |
| `BackwardTimeline.RunAccShaped` | src/layer/common/gru_layer-inl.hpp:283-288 | a backward pass keeps `begin_h_er` and the parameter diffs at their shapes |
| `BackwardTimeline.RunAccAdditive` | src/layer/common/gru_layer-inl.hpp:283-288 | a backward pass adds a fixed contribution to `begin_h_er` and the parameter diffs, whatever they held before |
| `Layers.ForwardMasksPadding` | src/layer/common/gru_layer-inl.hpp:337-353 | after `Forward`, rows of a timeline at or beyond its valid length are zero in the top data, `c` and `g`, and rows below it hold the recurrence |
| `Layers.PairAccAddsContribution` | src/layer/common/gru_layer-inl.hpp:455-479 | each pair's backward pass adds that pair's own contribution to the shared diffs |
| `Layers.AccBeforeIsSum` | src/layer/common/gru_layer-inl.hpp:455-479 | folding additive passes over the pairs in loop order gives the starting value plus the sum of the pairs' contributions |
| `Layers.AccBeforeKeepsBias` | src/layer/common/gru_layer-inl.hpp:455-479 | folding bias-preserving passes over all pairs keeps the bias diffs |
| `Layers.BackpropGradientsAreSums` | src/layer/common/gru_layer-inl.hpp:443-479 | after `Backprop`, `begin_h_er` and the parameter diffs are their values on entry (with `begin_h_er` zero) plus the sum of every pair's independent contribution, and the bias diffs are unchanged |
| `Layers.NegativeLength` | src/layer/common/gru_layer-inl.hpp:342 | one negative length makes the lengths invalid |
| `Layers.GruLayer.constructor` | src/layer/common/gru_layer-inl.hpp:18 | a new layer holds the given activations; its sizes start at d_mem = d_input = 0 and it is not reversed until `SetupLayer` |
| `Layers.GruLayer.SetupLayer` | src/layer/common/gru_layer-inl.hpp:62-95 | checks bottom count, top count and `d_mem`, in that order, with the matching error; on success it sets `d_input` from the bottom, zero `begin_h`/`begin_h_er`, the six parameter shapes and zero gradients; on failure nothing changes |
| `Layers.GruLayer.Reshape` | src/layer/common/gru_layer-inl.hpp:167-181 | checks the node counts; the top is resized to (s0, s1, s2, d_mem) with zero fill, `c`/`c_er` are zeros of that shape and `g`/`g_er` of (s0, s1, s2, 2 d_mem); the top keeps its lengths, `idx`, flags, updater and initializer, and its diff when it needs no gradient; the parameters are not changed; on a count error nothing changes |
| `Layers.GruLayer.ForwardOneStep` | src/layer/common/gru_layer-inl.hpp:206-237 | the statement-by-statement step through the gate views equals the closed-form forward step |
| `Layers.GruLayer.BpOneStep` | src/layer/common/gru_layer-inl.hpp:239-289 | the in-place statements equal the chain-rule step: the new `c_er` and `g_er` rows, the amounts added to `pre_h_er`, `x_er` and the four weight diffs |
| `Layers.GruLayer.ForwardLeft2Right` | src/layer/common/gru_layer-inl.hpp:291-309 | the loop fills `g`, `c` and the output with the left-to-right recurrence from `begin_h` |
| `Layers.GruLayer.ForwardRight2Left` | src/layer/common/gru_layer-inl.hpp:310-328 | the descending loop fills them with the right-to-left recurrence |
| `Layers.GruLayer.ForwardPair` | src/layer/common/gru_layer-inl.hpp:343-353 | the driver of the configured direction runs on the first `len` rows (`Slice(0, len)`), and the other rows are kept |
| `Layers.GruLayer.ForwardBatch` | src/layer/common/gru_layer-inl.hpp:341-354 | the inner loop over one batch entry stops exactly at its first negative length, and until then runs every pair of that entry in order |
| `Layers.GruLayer.ForwardPairs` | src/layer/common/gru_layer-inl.hpp:339-355 | the loops finish exactly when no length is negative, and then every pair holds its timeline over zero rows |
| `Layers.GruLayer.Forward` | src/layer/common/gru_layer-inl.hpp:330-359 | the top's lengths are copied from the bottom; it passes exactly when no length is negative, else fails with the sequence-length error; on success the top data, `c` and `g` hold each timeline over zero padding, `c_er` and `g_er` are zero, and the shapes are kept |
| `Layers.GruLayer.BpVisit` | src/layer/common/gru_layer-inl.hpp:387-407 | one driver iteration (choose `pre_h`/`pre_h_er`, call `BpOneStep`, write back) is one backward step |
| `Layers.GruLayer.BackpropForLeft2RightLstm` | src/layer/common/gru_layer-inl.hpp:379-409 | the descending loop performs the left schedule's steps in order |
| `Layers.GruLayer.BackpropForRight2LeftLstm` | src/layer/common/gru_layer-inl.hpp:410-440 | the ascending loop performs the right schedule's steps in order |
| `Layers.GruLayer.BackpropPair` | src/layer/common/gru_layer-inl.hpp:459-477 | the driver of the configured direction runs on the first `len` rows of the eight planes, and the other rows are kept |
| `Layers.GruLayer.BackpropStep` | src/layer/common/gru_layer-inl.hpp:457-477 | one pair's backward pass on the shared diffs; its gradient planes are written back |
| `Layers.GruLayer.BackpropBatch` | src/layer/common/gru_layer-inl.hpp:456-478 | the inner loop over one batch entry stops exactly at its first negative length |
| `Layers.GruLayer.BackpropPairs` | src/layer/common/gru_layer-inl.hpp:455-479 | the loops finish exactly when no length is negative; the shared diffs are then folded through every pair in order |
| `Layers.GruLayer.Backprop` | src/layer/common/gru_layer-inl.hpp:443-490 | zeroes `begin_h_er`, `g_er` and `c_er` (not the parameter diffs or the bottom diff); passes exactly when no length is negative; each pair's gradient planes are its own backward pass over zero padding, and the shared diffs are the fold over all pairs |
| `Nodes.Node.constructor` | src/layer/node.h:33-38 | both shapes (0,0,0,0), not contiguous, neither tensor allocated, `need_diff` as given |
| `Nodes.IsMatOneRow` | src/layer/node.h:48-50 | a node for which `is_mat` holds has a `data_d3` view with one row of size(3) entries per batch entry |
| `Nodes.Node.AllocSpace` | src/layer/node.h:61-78 | data always gets new storage of its shape and is marked allocated; diff does too exactly when the node needs a gradient and is kept otherwise; the new contents are not fixed; shapes, `idx`, `length` and the other flags are kept |
| `Nodes.Node.Resize` | src/layer/node.h:93-103 | same shape without `init`: nothing changes; with `init`: zero-filled data (and diff when needed) of the new shape; otherwise: the new shape with unspecified contents |
| `Nodes.Node.Resize4` | src/layer/node.h:80-91 | the same as `Resize` to `Shape4(d1, d2, d3, d4)` |
| `Nodes.ProductOfDims` | src/layer/node.h:106-110 | the `ymax` loop gives the product of dimensions `lo` to 3: the tensor's size from 0, `s2*s3` from 2 |
| `Nodes.DimProductSize` | src/layer/node.h:126-131 | the product of all four dimensions is the size, and that of the last two is the `data_d3` row length |
| `Nodes.Node.DataD1` | src/layer/node.h:105-113 | `ymax` is the size of the data, and the 1-D view is the data flattened row-major, of that length |
| `Nodes.Node.DiffD1` | src/layer/node.h:115-123 | the same for the diff |
| `Nodes.Node.DataD3` | src/layer/node.h:125-134 | the 3-D view has shape (s0, s1, s2*s3), each plane flattened into one row |
| `Nodes.Node.DiffD3` | src/layer/node.h:136-145 | the same for the diff |
| `Tensors.FlattenIndex` | src/layer/node.h:105-113 | entry (i, j, k, l) sits at the row-major offset of the flat view |
| `Tensors.FlattenPlanesIndex` | src/layer/node.h:125-134 | entry (i, j, k, l) sits at column `k*s3 + l` of plane (i, j) in the 3-D view |
| `Nodes.Node.Init` | src/layer/node.h:147-152 | the initializer fills data, and fills diff only when asked |
| `Nodes.Node.Update` | src/layer/node.h:154-160 | the sparse update runs exactly when the updater is sparse, otherwise the dense one; the tensors handed to it (data and diff, and `idx` for the sparse one) take the contents it gives, and the rest of the node is kept |

## Left out

- Floating point: all values are `real`. Rounding, NaN and infinity are not
  modelled, so neither is the `checkNan` debugging helper.
- Sigmoid, tanh and their gradients are parameters (`Activations`). No
  property depends on their values.
- Layers.GruLayer.SetupLayer: the initial parameter values come in as the
  argument `initial` instead of from the fillers (`Initializer`) and the
  random generator. Checking the `w_g_filler` and the other filler and
  updater settings, `Require`'s defaults, and the base-class
  `Layer::SetupLayer` are not part of this model. `d_mem` is a `nat`, so a
  negative configured value is not modelled.
- The commented-out bias, gradient clipping, norm and parameter-loading code
  is not modelled. It is dead in the source, so `b_g` and `b_c` have shapes
  but are never read or written.
- The layer constructor's `layer_type` is not modelled. The source leaves
  `d_mem`, `d_input` and `reverse` uninitialised until `SetupLayer`; the
  model starts them at 0 and false.
- Reshape's `show_info` printing and `PrintShape` are not modelled.
- Nodes.Node.Resize: when the shape changes without `init`, the new contents
  are left unspecified, because mshadow does not define them either.
- Nodes.Node.AllocSpace: the new storage is given the node's shape with
  unspecified contents, because mshadow leaves it uninitialised. Memory
  addresses, stride padding and the contiguity assertion are not
  modelled.
- Nodes.Node.Update: the updater's functions are assumed to keep the
  shapes of the tensors they write, as writes through a shallow tensor
  do; the model keeps the recorded shapes and does not re-check them.
- `FreeSpace`, `data_mat`/`diff_mat` (`FlatTo2D`), `node_name`,
  `node_index` and the device type `xpu` are not modelled.
- `Nodes.Node` has a `length` field. node.h does not declare it, but the
  layer reads `bottom[0]->length` and writes `top[0]->length`.
- Initializer and updater behaviour: they are functions held by the node.
  Only the dispatch in `Init` and `Update` is modelled.
- Update in place: the tensors are `seq` values that the methods reassign.
  `Slice(0, len)` is modelled by copying the leading rows out and
  overlaying the result back (`Lead`, `Overlay`). The views of `SplitGate`
  are modelled explicitly by index ranges (`Read`/`Write`), so the aliasing
  that matters inside `BpOneStep` is captured, but pointer aliasing between
  tensors is not.
- Layers.GruLayer.Forward: when a negative length aborts the pass, the
  contract states only the error. The source aborts the whole process
  there (`utils::Assert`), so the planes already written are left
  unspecified. The same holds for Layers.GruLayer.Backprop.
- Integer widths: `index_t` (unsigned) and `int` lengths are unbounded
  integers. Overflow of the shape products in `data_d1`/`data_d3` is not
  modelled.
- `BpOneStep`, `Forward` and `Backprop` require `Fits`. It holds the
  shapes that `Reshape` establishes, and three assumptions that nothing
  in the layer establishes or checks:
  - the bottom's last dimension equals `d_input`, which `SetupLayer` read
    from the bottom it was given;
  - the bottom's length table has one entry per (batch, seq) pair;
  - no length exceeds the rows of a plane (`LengthsShaped`). A longer
    length would make `Slice(0, len)` reach past the plane in the source;
    the model does not cover that case.
  A mismatch in any of these is undefined behaviour of mshadow.
- `Backprop` zeroes only `begin_h_er`, `g_er` and `c_er`
  (src/layer/common/gru_layer-inl.hpp:454). It adds into the parameter
  diffs and the bottom diff, so a caller must zero those before each
  backward pass (`Layers.BackpropGradientsAreSums` states the sums).
