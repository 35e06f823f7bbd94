# NeuralNetwork: the tensor engine and the autograd graph, in Dafny

This project models two parts of the NeuralNetwork library and proves
properties of them.

1. **The rank-5 tensor engine.** This is `Tensor<T>` in `tensor.h`.
   - A tensor is a shape of five axes (sample, frame, width, height, channel) and a flat row-major buffer.
   - Every operation allocates a fresh output and fills it with loops. Elementwise and scalar arithmetic, reduce_sum/reduce_mean, transpose, permute, reshape, slice, matmul, rotate180, padding, clipping, conv2d/conv3d, pooling, upsampling, kronecker, eye/ones/zeros, find_min/find_max and the piecewise-linear activation helpers are all here.
2. **The autograd graph.** This is `graph.h`.
   - The nodes: placeholders, variables and operations.
   - The Operation constructor, which registers the new node as a consumer of each input.
   - `add_weight` and `build`, with their weight shapes.
   - The `compute` bodies of the operation catalogue and the loss deltas.
   - `Graph::collect`, the post-order walk.
   - `Session` and `Session::run`, the forward pass.

## How the model is built

- **Elements are real numbers.** Floating-point rounding, infinities and NaN are not modelled.
- **Shapes.** `Shape` is a 5-tuple of ints, valid when all five are positive. `Size` is their product. `Offset` is row-major linearisation, with stride 1 on the channel axis. `Decode` is its inverse.
- **Tensors are values.** The engine deep-copies tensors and every operation returns a fresh one, so `Tensor` is a datatype of a shape and a `seq<real>` buffer.
- **Reads.** `Get` reads the buffer at the linear index of a subscript, as `Tensor::at` does. Subscripts are not checked against the axes; only the linear index must lie inside the buffer. Preconditions such as `Poolable`, `Convolvable`, `Multipliable`, `Sliceable` and `Rotatable` say that every read of an operation lands in its buffer. Anything else is undefined behaviour in the engine.
- **Loops and specifications.** Each loop of the engine is a `method` over a local `array<real>`. It is proved equal to a specification function, and the properties are lemmas about that function.
  - `foreach_assign`'s five nested loops are one loop over the linear index. `Shapes.OffsetLexOrder` shows that the nested order is the linear order.
  - An operation that is a single `foreach_assign` of a lambda is a specification function built with `Tensors.Build`. `Tensors.ForeachAssign` is the loop behind it.
- **The graph is an arena.** Nodes form a `seq<Node>`, and the address of a node is its index in it.
  - `Nodes.Arena` is a class whose methods append nodes and push consumers and weights.
  - `Collecting.Graph` holds the three lists that `collect` fills.
  - `Sessions.Session` owns a `Graph` and runs over an `Arena`.
  - The facts about the walk of `run` hold whatever an operation's compute does. The session functions and lemmas therefore take the compute function as a parameter. `Sessions.Session.Run` calls `Operations.Compute`.
- **Cached outputs.** A node's cached output is an `Option<Tensor>`. `None` means the node holds no valid tensor. That covers three cases:
  - a node never set (the empty default tensor);
  - a compute whose reads would leave a buffer;
  - a compute whose numerics are not modelled (sigmoid, softmax, MSE and cross-entropy).

What the source does that the model reproduces:

- A binary `+ - * /` of two tensors takes the RIGHT operand's shape. It pins the right operand to 0 only on the first axis where the shapes differ.
- `FullConnected` computes `x.matmul(w).add(b)`, so the output takes the bias's shape `(1,1,1,1,n)`. Only sample 0 of `x` reaches it (`Operations.FullConnectedBuildFits`).
- The pooling fold starts from the top-left cell of the window and then folds that cell in again. For max and min this is harmless. For avg_pooling the top-left cell counts twice (`Pooling.AvgPoolingCountsCornerTwice`).
- `rotate180` reads `(h-1-l, w-1-k)`. That mirrors each frame across its anti-diagonal. It stays in bounds only for square frames, and twice is the identity there (`Layout.RotateTwice`).
- `Conv3D::compute` calls `conv2d`, so a Conv3D node keeps the input's frames.
- `Convolution::build` and `FullConnected::build` call `addWeight`. This is read as `add_weight`. Nothing in the graph code calls `build`, so `Nodes.Arena.Build` is a separate operation.
- `add_weight` does not register the operation as the new variable's consumer.
- `collect` keeps no visited set. A node reached along k paths is filed k times (`Collecting.CollectCounts`).
- `run` walks only the operations list. Placeholders and variables never get an output from it, and the feed dictionary is never read (`Sessions.RunComputesGraph`, `Sessions.RunIgnoresFeed`).
- `layers::minpooling` builds a MaxPooling node (see Findings).

In the graph's `compute` bodies, matmul and conv2d use the corrected definitions from the Findings table. Those are `Products.MatMul` and `Convolution.Conv(…, Intended, …)`. The as-written loops are modelled and proved beside them.

## Model

| member | source | states |
|---|---|---|
| Shapes.Shape.Size | NeuralNetwork/NeuralNetwork/tensor.h:232 | the element count of a valid shape is at least 1 |
| Shapes.Shape.Offset | NeuralNetwork/NeuralNetwork/tensor.h:248-253 | the linear index of a subscript inside a valid shape lies in 0 .. size-1 |
| Shapes.Shape.Decode | NeuralNetwork/NeuralNetwork/tensor.h:248-253 | every linear index below the size is the offset of a subscript inside the shape |
| Shapes.DecodeOffset | NeuralNetwork/NeuralNetwork/tensor.h:248-253 | decoding the offset of a subscript gives that subscript back |
| Shapes.OffsetInjective | NeuralNetwork/NeuralNetwork/tensor.h:248-253 | two subscripts inside a shape with one offset are equal, so foreach_assign writes each cell once |
| Shapes.OffsetLexOrder | NeuralNetwork/NeuralNetwork/tensor.h:235-247 | the order of the five nested foreach loops is the order of the linear index |
| Tensors.Build | NeuralNetwork/NeuralNetwork/tensor.h:248-253 | the tensor foreach_assign fills has the given shape and holds f(ix) at every subscript ix |
| Tensors.ForeachAssign | NeuralNetwork/NeuralNetwork/tensor.h:235-253 | the nested-loop fill of a fresh tensor leaves exactly Build(s, f) |
| Tensors.Fill | NeuralNetwork/NeuralNetwork/tensor.h:263-269 | the tensor foreach_elem_assign fills holds g(i) at buffer cell i |
| Tensors.ForeachElemAssign | NeuralNetwork/NeuralNetwork/tensor.h:263-269 | the loop over the buffer leaves exactly Fill(s, g) |
| Tensors.Map | NeuralNetwork/NeuralNetwork/tensor.h:148-155 | __foreach_elem_assign_ keeps the shape and applies f to every cell, by buffer index and by subscript |
| Tensors.MapMap | NeuralNetwork/NeuralNetwork/tensor.h:148-155 | mapping f and then g is mapping their composition |
| Tensors.Zeros | NeuralNetwork/NeuralNetwork/tensor.h:780-786 | a tensor of the shape holding 0 at every subscript |
| Tensors.Ones | NeuralNetwork/NeuralNetwork/tensor.h:773-779 | a tensor of the shape holding 1 at every subscript |
| Tensors.Eye | NeuralNetwork/NeuralNetwork/tensor.h:787-795 | shape (1,1,1,n,n), 1 where height equals channel and 0 elsewhere |
| Tensors.FindMin | NeuralNetwork/NeuralNetwork/tensor.h:422-430 | the result is an element of the buffer and no element is smaller |
| Tensors.FindMax | NeuralNetwork/NeuralNetwork/tensor.h:431-439 | the result is an element of the buffer and no element is larger |
| Elementwise.Relu | NeuralNetwork/NeuralNetwork/tensor.h:42 | __relu_ is the larger of x and 0: non-negative, at least x, and either x or 0 |
| Elementwise.ReluGrad | NeuralNetwork/NeuralNetwork/tensor.h:45 | __relu_grad_ is 1 exactly where the rectifier is positive, and 0 elsewhere |
| Elementwise.ClippedRelu | NeuralNetwork/NeuralNetwork/tensor.h:48-58 | from threshold up the clipped rectifier is the smaller of x and max_value; below both threshold and max_value it is negative_slop times (x - threshold); with a non-negative slope and max_value it never exceeds max_value |
| Elementwise.ClippedReluGrad | NeuralNetwork/NeuralNetwork/tensor.h:61-71 | the gradient is 0, 1 or negative_slop: 0 at or above max_value, 1 from threshold up to max_value |
| Elementwise.ReluGradIsSlope | NeuralNetwork/NeuralNetwork/tensor.h:41-45 | on each piece __relu_ is linear with the slope __relu_grad_ returns |
| Elementwise.ClippedReluGradIsSlope | NeuralNetwork/NeuralNetwork/tensor.h:47-71 | on each piece the clipped, leaky __relu_ is linear with the slope its __relu_grad_ returns |
| Elementwise.ClippedReluGeneralises | NeuralNetwork/NeuralNetwork/tensor.h:41-58 | below the ceiling, with threshold 0 and slope 0, the clipped rectifier and its gradient are the plain ones |
| Elementwise.ReluTensor | NeuralNetwork/NeuralNetwork/tensor.h:674-678 | relu() keeps the shape, and every cell is non-negative and either the input cell or 0 |
| Elementwise.ReluIdempotent | NeuralNetwork/NeuralNetwork/tensor.h:674-678 | relu() applied twice equals relu() once |
| Elementwise.ClippedReluTensor | NeuralNetwork/NeuralNetwork/tensor.h:679-683 | cells at or above max_value become max_value; cells from threshold up to max_value are kept |
| Elementwise.Hinge | NeuralNetwork/NeuralNetwork/tensor.h:684-689 | hinge(t) keeps the shape and every cell is non-negative |
| Elementwise.HingeIsRelu | NeuralNetwork/NeuralNetwork/tensor.h:684-689 | hinge(t) is the rectifier of 1 - t*x |
| Elementwise.Neg | NeuralNetwork/NeuralNetwork/tensor.h:697-701 | neg() keeps the shape and negates every cell |
| Elementwise.NegNeg | NeuralNetwork/NeuralNetwork/tensor.h:697-701 | neg() is its own inverse |
| Elementwise.ScalarRight | NeuralNetwork/NeuralNetwork/tensor.h:402-405 | tensor op scalar keeps the shape and combines every cell with the scalar on the right |
| Elementwise.ScalarLeft | NeuralNetwork/NeuralNetwork/tensor.h:843-869 | scalar op tensor keeps the shape and combines the scalar on the left with every cell |
| Elementwise.ScalarSidesCommute | NeuralNetwork/NeuralNetwork/tensor.h:402-404 | adding or multiplying by a scalar gives the same tensor on either side |
| Elementwise.ScalarInverse | NeuralNetwork/NeuralNetwork/tensor.h:402-405 | subtracting undoes adding a scalar; dividing by a non-zero scalar undoes multiplying by it |
| Elementwise.FirstDifferingAxis | NeuralNetwork/NeuralNetwork/tensor.h:107-113 | -1 exactly when the shapes are equal; otherwise the shapes differ there and agree on every earlier axis |
| Elementwise.Combined | NeuralNetwork/NeuralNetwork/tensor.h:104-147 | the output has the right operand's shape; with equal shapes each cell combines the two cells at that subscript; otherwise the right operand is read with only the first differing axis pinned to 0 |
| Elementwise.Combine | NeuralNetwork/NeuralNetwork/tensor.h:104-147 | the axis search loop and the fill compute exactly Combined |
| Elementwise.CombinableReads | NeuralNetwork/NeuralNetwork/tensor.h:114-145 | every left-operand read of the fill lands in the left buffer |
| Elementwise.AddCommutes | NeuralNetwork/NeuralNetwork/tensor.h:408-410 | A + B equals B + A for tensors of one shape |
| Elementwise.AddScalarShifts | NeuralNetwork/NeuralNetwork/tensor.h:402-410 | (A + k) + B equals (A + B) + k |
| Elementwise.SubUndoesAdd | NeuralNetwork/NeuralNetwork/tensor.h:408-413 | (A + B) - B equals A |
| Elementwise.BroadcastKeepsRightShape | NeuralNetwork/NeuralNetwork/tensor.h:114-118 | with a one-sample right operand whose shape differs first in samples, the output has one sample and combines the left operand's first sample with it |
| Elementwise.BroadcastIgnoresLaterSamples | NeuralNetwork/NeuralNetwork/tensor.h:114-145 | in that broadcast case the result depends only on the left operand's cells inside the right operand's one-sample box: left operands that agree there give the same tensor |
| Layout.Transpose | NeuralNetwork/NeuralNetwork/tensor.h:308-316 | height and channel lengths swap, and the output at the swapped subscript holds the input cell |
| Layout.TransposeTwice | NeuralNetwork/NeuralNetwork/tensor.h:308-316 | transposing twice gives the tensor back |
| Layout.TransposeIsPermute | NeuralNetwork/NeuralNetwork/tensor.h:308-336 | Transpose equals permute by order (0,1,2,4,3) |
| Layout.SubsInside | NeuralNetwork/NeuralNetwork/tensor.h:325-333 | whatever the order, permute reads only cells inside its input |
| Layout.SubsOfPermutation | NeuralNetwork/NeuralNetwork/tensor.h:325-333 | for a permutation, entry order[p] of the subscript read is entry p of the output subscript |
| Layout.Permute | NeuralNetwork/NeuralNetwork/tensor.h:317-336 | output axis p has the length of input axis order[p], and each output cell holds the input cell at the subs built by the source |
| Layout.Inverse | NeuralNetwork/NeuralNetwork/tensor.h:317-336 | the inverse of a permutation is a permutation and composes with it to the identity on both sides |
| Layout.PermutedShapeInverse | NeuralNetwork/NeuralNetwork/tensor.h:318-323 | permuting a shape by an order and then by its inverse gives the shape back |
| Layout.PermuteInverse | NeuralNetwork/NeuralNetwork/tensor.h:317-336 | permuting by an order and then by its inverse gives the tensor back |
| Layout.Reshape | NeuralNetwork/NeuralNetwork/tensor.h:341-348 | the output has the new shape and its buffer is the input buffer unchanged, up to the new size |
| Layout.ReshapeRoundTrip | NeuralNetwork/NeuralNetwork/tensor.h:341-348 | reshaping to a shape of the same size and back gives the tensor back |
| Layout.Slice | NeuralNetwork/NeuralNetwork/tensor.h:710-746 | the axis gets end-start entries, and each output cell holds the input cell moved by start along the axis |
| Layout.SliceWhole | NeuralNetwork/NeuralNetwork/tensor.h:710-746 | slicing a whole axis gives the tensor back |
| Layout.SliceableInAxis | NeuralNetwork/NeuralNetwork/tensor.h:710-746 | a slice within the axis's range reads only inside the buffer |
| Layout.Rotate180 | NeuralNetwork/NeuralNetwork/tensor.h:477-485 | width and height lengths swap, and output (k, l) reads input (h-1-l, w-1-k) of the same sample, frame and channel |
| Layout.SquareRotatable | NeuralNetwork/NeuralNetwork/tensor.h:477-485 | rotate180 of a square tensor reads only inside the buffer |
| Layout.RotateTwice | NeuralNetwork/NeuralNetwork/tensor.h:477-485 | on a square tensor rotate180 twice gives the tensor back |
| Layout.Padded | NeuralNetwork/NeuralNetwork/tensor.h:488-501 | width and height grow by 2w, the input sits at offset (w, w), and every other cell is 0 |
| Layout.Padding | NeuralNetwork/NeuralNetwork/tensor.h:488-501 | the zero fill and the copy pass compute exactly Padded |
| Layout.Clipping | NeuralNetwork/NeuralNetwork/tensor.h:502-514 | width and height shrink by 2m, and each cell reads the input m further along both |
| Layout.ClipUndoesPad | NeuralNetwork/NeuralNetwork/tensor.h:488-514 | clipping(w) after padding(w) gives the tensor back |
| Products.Product | NeuralNetwork/NeuralNetwork/tensor.h:294-307 | the output has the left operand's leading four axes and the right operand's channels |
| Products.ProductReads | NeuralNetwork/NeuralNetwork/tensor.h:301-303 | every read of the dot product lands in the two buffers, and each term is their product |
| Products.DotLoop | NeuralNetwork/NeuralNetwork/tensor.h:300-304 | the inner loop returns the sum of the n column products |
| Products.ProductLoop | NeuralNetwork/NeuralNetwork/tensor.h:294-307 | the fill computes exactly the product over n columns |
| Products.MatMulAsWritten | NeuralNetwork/NeuralNetwork/tensor.h:294-307 | matmul as written sums over the left operand's height (n_cols = shape[3]) |
| Products.MatMul | NeuralNetwork/NeuralNetwork/tensor.h:294-307 | matmul as intended sums over the left operand's channels |
| Products.ProductOfOnes | NeuralNetwork/NeuralNetwork/tensor.h:294-307 | every cell of a product of ones counts the columns summed |
| Products.MatMulCountsHeight | NeuralNetwork/NeuralNetwork/tensor.h:297 | on ones, matmul as written gives d3 where the product of rows with the matrix gives d4 |
| Products.MatMulEye | NeuralNetwork/NeuralNetwork/tensor.h:294-307 | the identity matrix is a right unit of the intended matmul |
| Pooling.Combine | NeuralNetwork/NeuralNetwork/tensor.h:595-600 | the max lambda returns one of its arguments and is at least both; the min lambda returns one and is at most both |
| Pooling.PooledShape | NeuralNetwork/NeuralNetwork/tensor.h:159-164 | width and height become dim / width rounded down: the largest count of whole windows that fit |
| Pooling.PooledValid | NeuralNetwork/NeuralNetwork/tensor.h:159-164 | the pooled shape of a poolable tensor is valid |
| Pooling.WindowInside | NeuralNetwork/NeuralNetwork/tensor.h:167-172 | every cell of an output cell's window lies inside the input |
| Pooling.Pool | NeuralNetwork/NeuralNetwork/tensor.h:158-177 | width and height shrink to dim / width (truncated) |
| Pooling.WindowLoop | NeuralNetwork/NeuralNetwork/tensor.h:167-174 | the two window loops compute the fold started from the top-left cell |
| Pooling.PoolLoop | NeuralNetwork/NeuralNetwork/tensor.h:158-177 | the fill computes exactly Pool |
| Pooling.MaxFold | NeuralNetwork/NeuralNetwork/tensor.h:167-174 | the max fold is at least its start and every cell folded so far, and equals one of them |
| Pooling.MinFold | NeuralNetwork/NeuralNetwork/tensor.h:167-174 | the min fold is at most its start and every cell folded so far, and equals one of them |
| Pooling.MaxPoolingIsWindowMax | NeuralNetwork/NeuralNetwork/tensor.h:595-597 | each output cell is at least every cell of its window and equals one of them |
| Pooling.MinPoolingIsWindowMin | NeuralNetwork/NeuralNetwork/tensor.h:598-600 | each output cell is at most every cell of its window and equals one of them |
| Pooling.AvgPooling | NeuralNetwork/NeuralNetwork/tensor.h:601-605 | the averaged tensor has the pooled shape, and each cell is its window's sum plus the window's top-left cell again, divided by width*width |
| Pooling.SumFoldOnes | NeuralNetwork/NeuralNetwork/tensor.h:167-174 | on ones the summing fold adds one per cell folded in |
| Pooling.SumFold | NeuralNetwork/NeuralNetwork/tensor.h:167-174 | the summing fold from init is init plus every window cell folded in so far |
| Pooling.PoolSumCell | NeuralNetwork/NeuralNetwork/tensor.h:158-177 | each cell of the summing pooling is its window's sum plus the top-left cell a second time |
| Pooling.AvgPoolingCountsCornerTwice | NeuralNetwork/NeuralNetwork/tensor.h:167-174 | on ones the summed window is width*width + 1 and avg_pooling gives (width*width + 1) / (width*width) |
| Reduction.SumAlong | NeuralNetwork/NeuralNetwork/tensor.h:354-394 | the intended sum along an axis has the input shape with that axis set to 1 |
| Reduction.ReduceSumAsWritten | NeuralNetwork/NeuralNetwork/tensor.h:354-394 | what reduce_sum computes has the reduced shape; for an axis outside 0..4 it is the zero fill of the input's shape |
| Reduction.LineStep | NeuralNetwork/NeuralNetwork/tensor.h:361-386 | visiting an input cell adds it to the line through its target and to no other line |
| Reduction.LineComplete | NeuralNetwork/NeuralNetwork/tensor.h:361-386 | after a whole pass every cell of a line has been counted |
| Reduction.AccumulatePass | NeuralNetwork/NeuralNetwork/tensor.h:366-370 | one foreach pass adds each input cell into the output cell pinned to 0 on the axis |
| Reduction.ReduceSum | NeuralNetwork/NeuralNetwork/tensor.h:354-394 | the zero fill and the case's pass (two passes for the sample case) compute exactly ReduceSumAsWritten |
| Reduction.FallThroughCell | NeuralNetwork/NeuralNetwork/tensor.h:360-365 | over samples, each cell keeps its value and frame 0 also gets the sum over frames |
| Reduction.SampleCaseFallsThrough | NeuralNetwork/NeuralNetwork/tensor.h:360-365 | on one sample of ones, reduce_sum(0) gives 1 + d1 in frame 0 where the sum over samples is 1 |
| Reduction.FallThroughWritesPastOutput | NeuralNetwork/NeuralNetwork/tensor.h:360-369 | with two or more samples, the frame pass that case 0 falls into writes output subscript (1,0,0,0,0), whose linear index is past the reduced output's buffer |
| Reduction.ReduceZeros | NeuralNetwork/NeuralNetwork/tensor.h:354-394 | reduce_sum of zeros is zeros of the reduced shape |
| Reduction.LineOfOnes | NeuralNetwork/NeuralNetwork/tensor.h:354-394 | a line of ones adds up to the axis length |
| Reduction.SumAlongOnes | NeuralNetwork/NeuralNetwork/tensor.h:354-394 | summing ones along an axis gives the axis length everywhere |
| Reduction.SumAlongSingleton | NeuralNetwork/NeuralNetwork/tensor.h:354-394 | summing along an axis of length 1 changes nothing |
| Reduction.ReduceMean | NeuralNetwork/NeuralNetwork/tensor.h:395-399 | the intended mean (the intended sum along the axis divided by its length) has the reduced shape |
| Reduction.ReduceMeanOnes | NeuralNetwork/NeuralNetwork/tensor.h:395-399 | the intended mean of ones along any axis is ones |
| Reduction.ReduceMeanBounded | NeuralNetwork/NeuralNetwork/tensor.h:395-399 | when every cell lies between lo and hi, so does every cell of the intended mean |
| Reduction.MeanOfBounded | NeuralNetwork/NeuralNetwork/tensor.h:395-399 | the sum of n >= 1 terms between lo and hi, divided by n, lies between lo and hi |
| Reduction.ReduceMeanAsWritten | NeuralNetwork/NeuralNetwork/tensor.h:395-399 | reduce_mean as written divides what reduce_sum returns by the axis length, and has the reduced shape |
| Reduction.ReduceMeanAgrees | NeuralNetwork/NeuralNetwork/tensor.h:395-399 | along axes 1 to 4 reduce_mean as written equals the intended mean |
| Reduction.ReduceMeanFallsThrough | NeuralNetwork/NeuralNetwork/tensor.h:395-399 | with one sample, reduce_mean(0) as written adds the sum over frames into frame 0, while the intended mean over the one sample is the cell itself |
| Reduction.OnesMeanFallsThrough | NeuralNetwork/NeuralNetwork/tensor.h:395-399 | on one sample of ones, frame 0 of reduce_mean(0) is 1 + d1 as written and 1 as intended |
| Upsampling.UpWindowInside | NeuralNetwork/NeuralNetwork/tensor.h:186-191 | every window cell compared lies inside the input |
| Upsampling.Found | NeuralNetwork/NeuralNetwork/tensor.h:184-193 | the settled window position is inside the window |
| Upsampling.Upsampled | NeuralNetwork/NeuralNetwork/tensor.h:179-199 | the upsampled tensor has the input's shape |
| Upsampling.FindLoop | NeuralNetwork/NeuralNetwork/tensor.h:184-193 | the comparison loops settle on the last window cell equal to the value, (0, 0) when none is |
| Upsampling.UpsamplingLoop | NeuralNetwork/NeuralNetwork/tensor.h:179-199 | the zero fill and the routing pass compute exactly Upsampled |
| Upsampling.OwnerOfCell | NeuralNetwork/NeuralNetwork/tensor.h:186-195 | a window cell belongs to the output cell the window was taken for |
| Upsampling.UpsamplingRoutes | NeuralNetwork/NeuralNetwork/tensor.h:179-199 | each cell reaches its target cell, and the rest of its window is 0 |
| Upsampling.FoundMatches | NeuralNetwork/NeuralNetwork/tensor.h:184-193 | once a cell equal to the value has been compared, the settled position holds such a cell |
| Upsampling.MaxUpsamplingFindsMax | NeuralNetwork/NeuralNetwork/tensor.h:633-635 | max_upsampling of a max pooling routes each maximum to a cell of its window that holds it |
| Upsampling.AvgUpsampling | NeuralNetwork/NeuralNetwork/tensor.h:639-648 | width and height grow by the factor width |
| Upsampling.AvgUpsamplingSpreads | NeuralNetwork/NeuralNetwork/tensor.h:639-648 | every cell of a window receives its source cell divided by the window area |
| Kronecker.KronShapeValid | NeuralNetwork/NeuralNetwork/tensor.h:610-615 | the product of two valid shapes is valid |
| Kronecker.SplitJoin | NeuralNetwork/NeuralNetwork/tensor.h:621-626 | joining a block and a position lands inside the output, and splitting it gives them back |
| Kronecker.JoinSplit | NeuralNetwork/NeuralNetwork/tensor.h:621-626 | every output subscript is the join of its block and position |
| Kronecker.Kron | NeuralNetwork/NeuralNetwork/tensor.h:608-630 | each axis of the output is the product of the operands' lengths |
| Kronecker.KronCell | NeuralNetwork/NeuralNetwork/tensor.h:608-630 | output cell o is a(block of o) times b(position of o) |
| Kronecker.KronBlock | NeuralNetwork/NeuralNetwork/tensor.h:617-627 | block ia, position ib of the output holds a(ia) times b(ib) |
| Kronecker.KroneckerLoop | NeuralNetwork/NeuralNetwork/tensor.h:608-630 | the zero fill and the nested passes compute exactly Kron |
| Kronecker.KronUnit | NeuralNetwork/NeuralNetwork/tensor.h:608-630 | the product with a single cell of one is the left operand |
| Convolution.CDiv | NeuralNetwork/NeuralNetwork/tensor.h:523-524 | C++ truncating division: the quotient is non-negative exactly when a > -b |
| Convolution.ReadInside | NeuralNetwork/NeuralNetwork/tensor.h:538-541 | every read of the convolution lands in the input's buffer |
| Convolution.BiasInside | NeuralNetwork/NeuralNetwork/tensor.h:544 | bias.at(ki) reads inside the bias for every filter |
| Convolution.Conv | NeuralNetwork/NeuralNetwork/tensor.h:517-554 | the output shape is (s0, s1, (s2-f2)/stride+1, (s3-f3)/stride+1, f0) |
| Convolution.ConvCell | NeuralNetwork/NeuralNetwork/tensor.h:517-554 | every cell of the convolution is its Cell |
| Convolution.AddTerm | NeuralNetwork/NeuralNetwork/tensor.h:540-542 | one step of the filter pass adds the next term of the running sum |
| Convolution.FilterPass | NeuralNetwork/NeuralNetwork/tensor.h:536-549 | the filter pass of one position stores, in channel c, the first (c+1) filters' terms plus bias c, and leaves other cells alone |
| Convolution.ConvLoop | NeuralNetwork/NeuralNetwork/tensor.h:517-554 | conv2d and conv3d as written compute exactly Conv(AsWritten) |
| Convolution.WindowsFit | NeuralNetwork/NeuralNetwork/tensor.h:523-524 | the last window along an axis lies inside the input, and one stride further would not |
| Convolution.RunningTotal | NeuralNetwork/NeuralNetwork/tensor.h:536-549 | as written, channel c holds the running total of the dot products of filters 0..c plus bias c |
| Convolution.IntendedCell | NeuralNetwork/NeuralNetwork/tensor.h:536-549 | intended cell c is filter c's own dot product with the window plus bias c |
| Convolution.Convolvable2D | NeuralNetwork/NeuralNetwork/tensor.h:517-554 | in two dimensions, the operands fit the loops as written exactly when they fit the intended ones |
| Convolution.ChannelCarries2D | NeuralNetwork/NeuralNetwork/tensor.h:536-549 | as written, channel c is channel c-1 less bias c-1 plus the intended output of filter c |
| Convolution.SingleFilter2D | NeuralNetwork/NeuralNetwork/tensor.h:517-554 | with one filter, conv2d as written equals the intended convolution |
| Convolution.AccumulatorNotReset | NeuralNetwork/NeuralNetwork/tensor.h:536-549 | on ones with n one-cell filters of ones and zero bias, as written channel c is c+1; intended it is 1 |
| Convolution.Conv3DHeightFromWidth | NeuralNetwork/NeuralNetwork/tensor.h:578 | on an input holding its own row index, a unit filter returns the column as written and the row as intended |
| Convolution.ConvUnitFilter | NeuralNetwork/NeuralNetwork/tensor.h:517-592 | the intended convolution of a one-channel input with a unit filter, zero bias and stride 1 is the input |
| Operations.ShapeOfArg | NeuralNetwork/NeuralNetwork/graph.h:105-107 | the shape of a present input is its tensor's shape |
| Operations.InferShape | NeuralNetwork/NeuralNetwork/graph.h:101-337 | Sigmoid, ReLU and LeakyReLU keep input 0's shape; Softmax, which divides by exp(x).reduce_sum(1) and so takes that right operand's shape, has one frame and input 0's other axes; pooling keeps samples, frames and channels and counts the whole windows along width and height; Flatten and the two losses are not inferred |
| Operations.Compute | NeuralNetwork/NeuralNetwork/graph.h:101-337 | a defined compute is a valid tensor and reads a present first input |
| Operations.ComputeShape | NeuralNetwork/NeuralNetwork/graph.h:101-337 | every defined compute has the shape that shape inference predicts from its inputs' shapes |
| Operations.WeightShapes | NeuralNetwork/NeuralNetwork/graph.h:136-274 | one name per weight and two weights or none, only for the convolutions and FullConnected; a kernel has the input's frames and channels and a bias per filter; a FullConnected weight has one row per input channel and a bias per output |
| Operations.ConvolutionBuildFits | NeuralNetwork/NeuralNetwork/graph.h:136-153 | with the kernel and bias build creates, Conv2D compute is defined, keeps samples and frames, counts window positions of the padded input and has one channel per filter |
| Operations.KernelFits | NeuralNetwork/NeuralNetwork/graph.h:137-138 | a kernel no larger than the input, with its channels and one bias per filter, fits conv2d |
| Operations.FullConnectedBuildFits | NeuralNetwork/NeuralNetwork/graph.h:269-280 | with build's weight and bias, compute is defined with the bias's shape (1,1,1,1,n), and cell c is row 0's product with the weight plus bias c |
| Operations.FullConnectedSum | NeuralNetwork/NeuralNetwork/tensor.h:104-147 | the product of x with a (1,1,1,d4,n) weight can be added to a (1,1,1,1,n) bias, and cell c of the sum is product cell (0,0,0,0,c) plus bias c |
| Operations.MinpoolingAsWrittenTakesMax | NeuralNetwork/NeuralNetwork/graph.h:482-485 | the node minpooling builds computes the window max, which differs from the window min wherever a window holds two values |
| Operations.MinpoolingTakesMin | NeuralNetwork/NeuralNetwork/graph.h:212-220 | a MinPooling node computes, per cell, the smallest cell of its window, which is one of the window's cells |
| Operations.LossDelta | NeuralNetwork/NeuralNetwork/graph.h:350-371 | a defined delta comes from two present valid tensors, has the target's shape, and for equal shapes is prediction minus target cell by cell |
| Operations.DeltaVanishesAtTarget | NeuralNetwork/NeuralNetwork/graph.h:350-371 | the delta MSE::backward and CrossEntrpy::backward return for same-shape tensors is defined with the target's shape, and is all zero exactly when prediction equals target |
| Nodes.RankFalls | NeuralNetwork/NeuralNetwork/graph.h:71-79 | in a wired arena every input of an operation has a smaller rank, so walks over inputs end |
| Nodes.RepeatCount | NeuralNetwork/NeuralNetwork/graph.h:77-79 | the consumers pushed for one operation are its id, once per occurrence |
| Nodes.RegisteredSound | NeuralNetwork/NeuralNetwork/graph.h:72-80 | registering a new operation with its inputs keeps every consumer an operation that reads the node at least as often |
| Nodes.WeightSound | NeuralNetwork/NeuralNetwork/graph.h:82-85 | appending an unregistered weight keeps the arena wired and its consumers sound |
| Nodes.InputValues | NeuralNetwork/NeuralNetwork/graph.h:86-93 | one value per input, in input order, each that input's cached output |
| Nodes.Arena.AddPlaceholder | NeuralNetwork/NeuralNetwork/graph.h:63 | appends a placeholder leaf with no cached output, keeping the arena valid |
| Nodes.Arena.AddVariable | NeuralNetwork/NeuralNetwork/graph.h:46-50 | appends a variable leaf whose value is random(shape), keeping the arena valid |
| Nodes.Arena.AddOperation | NeuralNetwork/NeuralNetwork/graph.h:72-80 | appends the node with its inputs and registers it as consumer of every earlier node once per occurrence among the inputs; nothing else changes |
| Nodes.Arena.Register | NeuralNetwork/NeuralNetwork/graph.h:78 | one more consumer at the end of node j's list, nothing else changed |
| Nodes.Arena.AddWeight | NeuralNetwork/NeuralNetwork/graph.h:82-85 | appends the variable and pushes it onto the operation's inputs without registering a consumer |
| Nodes.Arena.Build | NeuralNetwork/NeuralNetwork/graph.h:136-274 | a convolution appends a trainable kernel (filters, in[1], w, w, in[4]) and bias (1,1,1,1,filters) as its next inputs; FullConnected a trainable weight (1,1,1,in[4],n) and bias (1,1,1,1,n); other operations build nothing; no other node changes |
| Nodes.Arena.SetOutput | NeuralNetwork/NeuralNetwork/graph.h:24 | only node i's cached output changes |
| Nodes.Arena.GetInputValues | NeuralNetwork/NeuralNetwork/graph.h:86-93 | the loop returns exactly InputValues |
| Nodes.Arena.MinpoolingAsWritten | NeuralNetwork/NeuralNetwork/graph.h:482-485 | layers::minpooling as written appends a MaxPooling node reading x, registered with x; every other node is unchanged |
| Nodes.Arena.Minpooling | NeuralNetwork/NeuralNetwork/graph.h:482-485 | the corrected factory appends a MinPooling node reading x, registered with x; every other node is unchanged |
| Collecting.CollectFiled | NeuralNetwork/NeuralNetwork/graph.h:388-403 | collect files only nodes of the arena, each into the list of its own kind, and files the root itself |
| Collecting.CollectInputsFiled | NeuralNetwork/NeuralNetwork/graph.h:396-400 | the loop over an operation's inputs files only nodes of the arena, each into the list of its kind |
| Collecting.FiledThen | NeuralNetwork/NeuralNetwork/graph.h:396-401 | appending two filed lists gives filed lists |
| Collecting.CollectCounts | NeuralNetwork/NeuralNetwork/graph.h:388-403 | every node is filed into the list of its kind once per input path from the root, and never into the other two lists |
| Collecting.CollectedCounts | NeuralNetwork/NeuralNetwork/graph.h:388-403 | collect(root) files each node into the list of its kind once per path from the root, and never into the other lists |
| Collecting.CollectInputsCounts | NeuralNetwork/NeuralNetwork/graph.h:396-400 | the loop over an operation's first n inputs files each node into the list of its kind once per path through those inputs |
| Collecting.JoinCounts | NeuralNetwork/NeuralNetwork/graph.h:396-401 | filing counts add up when lists are appended |
| Collecting.SharedInputFiledTwice | NeuralNetwork/NeuralNetwork/graph.h:388-403 | an operation that reads one placeholder twice files it twice |
| Collecting.RootLast | NeuralNetwork/NeuralNetwork/graph.h:401 | a root operation is filed last |
| Collecting.PostOrderedJoin | NeuralNetwork/NeuralNetwork/graph.h:396-401 | appending two post-ordered lists gives a post-ordered list |
| Collecting.CollectPostOrdered | NeuralNetwork/NeuralNetwork/graph.h:395-402 | the operations list collect produces is post-ordered: each operation directly follows the whole list collected from it |
| Collecting.AppendRoot | NeuralNetwork/NeuralNetwork/graph.h:401 | pushing an operation after the list collected from its inputs keeps the list post-ordered |
| Collecting.CollectInputsPostOrdered | NeuralNetwork/NeuralNetwork/graph.h:396-400 | the list the loop over the inputs collects is post-ordered |
| Collecting.InputCollected | NeuralNetwork/NeuralNetwork/graph.h:396-400 | every operation input is in the list collected from the inputs |
| Collecting.InputsBefore | NeuralNetwork/NeuralNetwork/graph.h:395-402 | in a post-ordered list every operation input of an operation occurs before it |
| Collecting.Graph.constructor | NeuralNetwork/NeuralNetwork/graph.h:382 | a new graph has three empty lists |
| Collecting.Graph.Collect | NeuralNetwork/NeuralNetwork/graph.h:388-403 | the recursive walk appends exactly Collected(root) to the three lists |
| Sessions.StepOutput | NeuralNetwork/NeuralNetwork/graph.h:420-429 | a placeholder gets its fed tensor, and nothing when it is not fed; a variable gets its value |
| Sessions.RunAll | NeuralNetwork/NeuralNetwork/graph.h:415-435 | run changes only cached outputs: kinds, inputs and consumers stay as they were |
| Sessions.RunAllExtends | NeuralNetwork/NeuralNetwork/graph.h:418-434 | running one more list entry is one more step |
| Sessions.PostOrderedPrefix | NeuralNetwork/NeuralNetwork/graph.h:418 | every prefix of a post-ordered list is post-ordered |
| Sessions.InputsEvaluated | NeuralNetwork/NeuralNetwork/graph.h:427-428 | in a post-ordered walk, when run reaches an operation, its inputs' cached outputs are their values as the graph defines them |
| Sessions.StepCaches | NeuralNetwork/NeuralNetwork/graph.h:427-429 | in a post-ordered walk, the step at an operation caches the operation's value as the graph defines it |
| Sessions.StepEvaluates | NeuralNetwork/NeuralNetwork/graph.h:418-429 | a step that caches an operation's value adds that operation to those evaluated, and keeps the wiring and every leaf's output |
| Sessions.RunEvaluates | NeuralNetwork/NeuralNetwork/graph.h:418-434 | walking a post-ordered list caches every operation's value as the graph defines it, and leaves leaves alone |
| Sessions.RunComputesGraph | NeuralNetwork/NeuralNetwork/graph.h:412-435 | whatever each operation computes, after Session(root) and run, every collected operation, the root included, caches its value as the graph defines it, and every placeholder and variable keeps its output |
| Sessions.RunIgnoresFeed | NeuralNetwork/NeuralNetwork/graph.h:420-423 | over a list of operations only, run gives the same arena whatever the feed |
| Sessions.Session.constructor | NeuralNetwork/NeuralNetwork/graph.h:412-414 | the session's graph holds exactly what collect(root) files |
| Sessions.Session.Run | NeuralNetwork/NeuralNetwork/graph.h:415-435 | the loop over the operations list, calling Operations.Compute on each, leaves exactly RunAll of the old arena with that compute |

## Left out

- Floating point: elements are reals, with no rounding, overflow, infinities or NaN.
- Elementwise.Apply: division requires a non-zero divisor, because division by zero is not modelled.
- Transcendental functions are not modelled: exp, log, sigmoid, tanh, pow and softmax. They are floating-point numerics.
- Operations.Compute: gives None for Sigmoid, Softmax, MSE and CrossEntrpy, whose compute bodies use those functions. MSE's `reduce_mean()` also has no axis argument.
- Operations.Compute: gives None for Flatten. It calls `Shape::flatten` from shape.h, and shape.h is not part of this model.
- Operations.Compute: uses the corrected matmul and convolution for MatMul, FullConnected, Conv2D and Conv3D, not the as-written loops (see Findings).
- Randomness is not modelled: `randomize`, `mask`, the `RANDOM` macro and `Tensor::random`. A variable's value is `random(shape)` for a function parameter `random`.
- I/O is not modelled: `load`, `save`, the stream operators, `print`, and the debug prints inside Transpose, conv2d, conv3d and avg_upsampling. The operations are modelled without printing.
- Memory management is not modelled: allocation, `bad_alloc`, destructors and copy-constructor ownership. Tensors are values.
- Backward passes are not modelled: `Node::backward`, `Variable::backward`, the Conv2D/Conv3D/ReLU/LeakyReLU backward methods and a variable's `grad`. They do not compile as written, or they call code that is not part of this model (ops.h).
- `one_hot` is not modelled: its reads reach channel indices up to num-1, and its assignment order is compiler-dependent.
- `layers::test` is not modelled: it is demo wiring.
- The other `layers` factory functions are each `Nodes.Arena.AddOperation` with the operation kind of the same name. They have no separate members.
- The tensor constructors, `getShape`, `size`, `length`, `set`, `get`, the `at` overloads with fewer subscripts, and `operator ==` have no members of their own. `Tensors.Tensor.Get` is the five-subscript `at`. Datatype equality stands in for `==`.
- The `Shape` class is not part of this model (shape.h). Its `size` is taken to be the product of the five lengths and its `sub2ind` to be row-major.
- Layout.Slice: only axes 0 to 4. For another axis the source returns an uninitialised buffer.
- Layout.Reshape: requires the new size to be at most the buffer length. Beyond that the source reads past the buffer.
- Reduction.ReduceSumAsWritten: requires one sample when the axis is 0. With more samples, case 0 falls through into the frame pass, which writes past the output buffer (see Findings).
- Reduction.ReduceSum: requires one sample when the axis is 0, for the same out-of-bounds write.
- Reduction.ReduceMeanAsWritten: requires an axis in 0..4 (reduce_mean reads `shape[axis]`, out of bounds otherwise) and one sample when the axis is 0.
- Reduction.Reduced: for an axis outside 0..4 the shape is taken to be left as it is. That case goes through `Shape::set`, and shape.h is not part of this model.
- Upsampling.Upsamplable: requires the pooled tensor to have at most the input's samples, frames and channels, so every window lies inside the input's axes. The source only needs each linear index to fall inside the buffer.
- Sessions.StepOutput: a placeholder missing from the feed gets None, where `map::operator[]` inserts a default tensor. Run never reaches that branch.
- Nodes.Arena.AddOperation: requires every input to be a node of the arena, because an address outside the arena has no counterpart in the model.
- Concurrency: none in the source.

## Findings

| source | as written | input that shows it | evidently intended | confidence | as-written member | corrected member |
|---|---|---|---|---|---|---|
| NeuralNetwork/NeuralNetwork/tensor.h:360-365 | `case 0` of reduce_sum has no `break`, so the frame pass runs as well | one sample of ones with d1 frames: frame 0 of reduce_sum(0) is 1 + d1 | the sum over samples, 1 here | high (not executed) | Reduction.SampleCaseFallsThrough | Reduction.SumAlongOnes |
| NeuralNetwork/NeuralNetwork/tensor.h:360-369 | with two or more samples, `case 0` falls through into the frame pass, which writes output cells with sample index up to d0-1 into a one-sample output | two samples: subscript (1,0,0,0,0) is written, past the output buffer | the sum over samples, writing inside the output | high (not executed) | Reduction.FallThroughWritesPastOutput | Reduction.SumAlongOnes |
| NeuralNetwork/NeuralNetwork/tensor.h:395-399 | reduce_mean divides what reduce_sum returns, so it inherits the fall-through of case 0 | one sample of ones with d1 frames: frame 0 of reduce_mean(0) is 1 + d1 | the mean over samples, 1 here | high (not executed) | Reduction.OnesMeanFallsThrough | Reduction.ReduceMeanBounded |
| NeuralNetwork/NeuralNetwork/tensor.h:297 | matmul sums `n_cols = shape[3]` columns, the left operand's height | ones of shape (1,1,1,2,3) times ones (1,1,1,3,1): every cell is 2 | the row-by-matrix product over the 3 channels, 3 per cell | high (not executed) | Products.MatMulCountsHeight | Products.MatMulEye |
| NeuralNetwork/NeuralNetwork/tensor.h:536-549 | conv2d/conv3d reset `value` per output position, not per filter, so channel c accumulates filters 0..c | ones input, n one-cell filters of ones, zero bias: channel c is c + 1 | each filter's own dot product plus its bias, 1 in every channel | high (not executed) | Convolution.AccumulatorNotReset | Convolution.ConvUnitFilter |
| NeuralNetwork/NeuralNetwork/tensor.h:578 | conv3d reads height `ok*stride + kl`, from the output column | input holding its own row index, one unit filter: the output holds the column index | height read `ol*stride + kl`, giving the row index | high (not executed) | Convolution.Conv3DHeightFromWidth | Convolution.ConvUnitFilter |
| NeuralNetwork/NeuralNetwork/graph.h:482-485 | `layers::minpooling` constructs a MaxPooling node | any window holding two different values: the node caches the larger | a MinPooling node, caching the smaller | high (not executed) | Operations.MinpoolingAsWrittenTakesMax | Operations.MinpoolingTakesMin |
