# tinynn convolution and max-pooling layers in Dafny

This project models the layers of tinynn's `core/layers.py`, a small numpy
neural-network library, and proves what they compute. The main part is the two
image layers, which work on batches of images laid out as (batch, height, width,
channels). The layers that surround them in a network are modelled too: Dense,
Flatten, ReLU and LeakyReLU.

- **Conv2D** pads its input by edge replication. Its forward pass gathers every
  stride-aligned kernel window into one row of a matrix (im2col), multiplies by the
  flattened kernel and adds the bias. Its backward pass computes the weight and bias
  gradients from the cached matrices. It then adds the gradient of every window into a
  zero buffer of the padded shape and cuts the padding off.
- **MaxPool2D** pads with zeros. Its forward pass takes the maximum and the first
  arg-max of every window. Its backward pass writes each output gradient onto the
  arg-max cell of its window, overwriting the window block.
- **Dense** computes `inputs @ w + b`. It creates its parameters lazily from the input
  width. Its three gradients are proved to be the transposes of the forward pass's
  derivative: for every change dx, dw or db, the forward pass changes the inner
  product with `grad` by exactly the inner product of that gradient with the change.
- **Flatten** ravels each image into one row, and its backward pass reshapes the
  gradient back. Both round trips are proved.
- **ReLU** and **LeakyReLU** apply `func` entrywise and multiply the gradient by
  `derivative_func` of the saved inputs. The backward pass is proved to be the
  gradient of the forward pass away from 0.

Tensor entries are mathematical reals. Tensors are nested sequences. numpy slicing,
padding, reshaping, transposing and matrix products are pure functions. The loops of the
source are loops:

- the gather loops of the two forward passes, appending to `patches` / `row_patches`
  and `patches_list` / `max_pos_list`;
- the scatter loops of the two backward passes, updating `d_in` with `+=` for Conv2D
  and `=` for MaxPool2D.

Each loop method is proved to compute a value-level definition, and the closed forms are
proved as lemmas about those definitions. Layer objects are classes whose methods update
`is_init`, the parameters, the cache and the gradients.

Modules:

- `Arith`: index facts (row-major offsets, division, remainder).
- `Tensors`: shapes, flattening and sums.
- `Padding`: `np.pad` in "edge" and "constant" modes, and the crop.
- `ConvSpec`, `ConvGrad`: Conv2D forward and backward as values.
- `ConvLayer`: the Conv2D object.
- `PoolSpec`: MaxPool2D as values.
- `PoolLayer`: the MaxPool2D object.
- `LinAlg`: scaling, entrywise products, and the algebra of the inner product.
- `DenseLayer`: Dense as values, its adjoint lemmas and the Dense object.
- `FlattenLayer`: Flatten as values and the Flatten object.
- `ActivationLayer`: ReLU and LeakyReLU as values and the Activation object.
- `Wrappers`: `Option`.

The model follows the code in these places:

- Conv2D initialises its parameters lazily from the declared kernel shape (`self.kernel`), whatever the input.
- Conv2D never initialises its parameters in its constructor.
- MaxPool2D.backward returns the gradient in the padded shape; it never crops it.

Conv2D's FULL padding is the one exception: the layer uses the corrected rule, as the
Findings section and "## Left out" explain.

## Model

| member | source | states |
|---|---|---|
| ConvSpec.GetPaddingAsWritten | core/layers.py:189-216 | `_get_padding` as written: defined exactly for FULL, VALID and SAME, None otherwise; FULL pads all four sides equally exactly when the kernel is square; VALID and SAME agree with the corrected rule |
| ConvSpec.GetPadding | core/layers.py:202-216 | corrected rule: FULL pads kh-1 rows above and below and kw-1 columns left and right; VALID pads nothing; SAME pads k-1 per axis, split evenly with the odd cell trailing exactly when k is even; None for any other mode |
| ConvSpec.PaddingRulesAgree | core/layers.py:202-216 | the padding as written equals the corrected padding exactly when the mode is not FULL or the kernel is square |
| ConvSpec.FullPaddingAsWrittenCounterexample | core/layers.py:203-204 | for a 3x1 kernel on a 5x5 image with stride 1, FULL as written gives a 5x7 output instead of the intended 7x5 |
| ConvSpec.WindowFits | core/layers.py:116-137 | the window at i*s fits in the padded axis exactly when i < (padded-k)/s+1, so out_h and out_w count the positions the loops visit |
| ConvSpec.SameStrideOneKeepsSize | core/layers.py:106-117 | SAME with stride 1 keeps the height and width |
| ConvSpec.ValidOutSize | core/layers.py:106-117 | VALID gives out = (in-k)/s+1 |
| ConvSpec.FullStrideOneSize | core/layers.py:106-117 | corrected FULL with stride 1 gives out = in+k-1 |
| ConvSpec.MakeGeom | core/layers.py:103-118 | the sizes the forward pass computes: padding from the mode (the corrected FULL rule, see Left out), padded sizes, output sizes |
| Padding.EdgePad | core/layers.py:108-110 | `np.pad(mode="edge")`: every padded pixel is the input pixel at the clamped position |
| Padding.EdgePadReplicates | core/layers.py:108-110 | edge padding repeats the nearest border row or column |
| Padding.CropEdgePad | core/layers.py:108-110 | cutting the padding off an edge-padded batch gives the batch back |
| ConvSpec.PatchesAt | core/layers.py:135-141 | entry [i][j][n] of `patches` is image n's window at (i*s_h, j*s_w), laid out as one row |
| ConvSpec.FlatWindowAt | core/layers.py:138-140 | entry (a,b,c) of a laid-out window is at row-major offset (a*kw+b)*c_in+c and holds the padded pixel (row+a, col+b, c) |
| ConvSpec.ForwardMatrixRow | core/layers.py:143-146 | row n*out_h*out_w+i*out_w+j of `X_matrix` is image n's window (i,j) |
| ConvSpec.Im2ColAt | core/layers.py:135-146 | entry ((n,i,j),(a,b,c)) of `X_matrix` is padded[n][i*s_h+a][j*s_w+b][c] |
| ConvSpec.ForwardOutputsAt | core/layers.py:149-158 | outputs[n][i][j][o] is b[o] plus row (n,i,j) of `X_matrix` times column o of `W_matrix` |
| ConvSpec.WindowDot | core/layers.py:145-150 | a laid-out window times column o of the flattened kernel is the triple sum over (a,b,c) of padded pixel times kernel weight |
| ConvSpec.ConvForwardAt | core/layers.py:106-159 | outputs[n][i][j][o] = b[o] + sum over (a,b,c) of padded[n][i*s_h+a][j*s_w+b][c] * w[a][b][c][o] |
| ConvGrad.WeightGradAt | core/layers.py:172-173 | d_w[a][b][c][o] = sum over (n,i,j) of padded[n][i*s_h+a][j*s_w+b][c] * grad[n][i][j][o] |
| ConvGrad.BiasGradAt | core/layers.py:174 | d_b[o] = sum over (n,i,j) of grad[n][i][j][o] |
| ConvGrad.PatchGradBlockAt | core/layers.py:177-183 | entry (n,a,b,c) of window (i,j)'s patch gradient is grad[n][i][j] dotted with w[a][b][c] |
| ConvGrad.AddBlockAt | core/layers.py:184 | `+=` of a block: covered pixels gain the block's entry, all others are unchanged |
| ConvGrad.AddedBlockAt | core/layers.py:180-184 | one loop step adds window (i,j)'s contribution to each pixel and nothing else |
| ConvGrad.ScatteredAt | core/layers.py:179-184 | after the loops reach (i,j), a padded pixel holds the sum of the contributions of all earlier windows covering it |
| ConvGrad.ScatteredSum | core/layers.py:179-184 | after both loops, a padded pixel holds the sum of the contributions of every window covering it |
| ConvGrad.CoverTermsAdjoint | core/layers.py:177-184 | the contribution of window (i,j) to padded pixel (p,q,c) is grad[n][i][j] dotted with w[p-i*s_h][q-j*s_w][c] when the window covers the pixel, else 0 |
| Padding.CropAt | core/layers.py:186 | the crop reads the padded buffer shifted by the top and left padding |
| ConvGrad.InputGradAt | core/layers.py:172-187 | the returned d_in[n][y][z][c] is the sum over the windows covering padded pixel (y+top, z+left) of grad times the matching kernel weight |
| ConvLayer.GatherPatches | core/layers.py:135-141 | the gather loop builds exactly `Patches` |
| ConvLayer.ScatterGrads | core/layers.py:179-184 | the scatter loop builds exactly the buffer with every window added |
| ConvLayer.Conv2D.constructor | core/layers.py:67-96 | the layer starts uninitialised with no cache; the mode must be FULL, VALID or SAME |
| ConvLayer.Conv2D.InitParameters | core/layers.py:218-221 | parameters are the initialisers' values for the kernel shape, and `is_init` becomes true |
| ConvLayer.Conv2D.Forward | core/layers.py:98-159 | initialises once (an initialised layer keeps its parameters), caches the geometry and the two matrices, and returns the convolution (with the corrected FULL padding, see Left out) |
| ConvLayer.Conv2D.Backward | core/layers.py:161-187 | sets the weight and bias gradients from the cache and returns the cropped input gradient; parameters and cache are unchanged |
| PoolSpec.PoolPadding1D | core/layers.py:300-312 | the two sides add up to n_pad, VALID adds nothing, and the trailing side gets the odd cell exactly when n_pad is odd |
| PoolSpec.PoolPadTotalSame | core/layers.py:302-307 | under SAME the padded axis ends where a window of max(p,s) cells at the last stride position ceil(n/s)-1 ends |
| PoolSpec.PoolSameTiles | core/layers.py:302-307 | SAME with pool <= stride makes the stride divide the padded axis into ceil(n/s) windows |
| PoolSpec.PoolPadding | core/layers.py:293-298 | the height pair then the width pair, each from the one-axis rule |
| PoolSpec.MakePoolGeom | core/layers.py:249-256 | the sizes the forward pass computes, with out = pad // s |
| PoolSpec.SamePoolGeom | core/layers.py:302-307 | SAME with pool <= stride always meets both passes' preconditions, with ceil(in/s) windows per axis |
| PoolSpec.ValidPoolGeom | core/layers.py:249-256 | VALID leaves the image unpadded, and the forward pass runs exactly when the strides divide the image sizes |
| PoolSpec.WinH | core/layers.py:258-260 | the window slice at row i*s_h has min(pool_h, pad_h - i*s_h) rows, at least 1 |
| PoolSpec.FullWindows | core/layers.py:258-260 | with pool <= stride every window is a full pool_h x pool_w block inside the padded image |
| Padding.ZeroPadBorder | core/layers.py:252-253 | `np.pad(mode="constant")` puts zeros outside the image |
| Padding.CropZeroPad | core/layers.py:253 | the zero-padded image contains the input unchanged |
| PoolSpec.MaxOf | core/layers.py:263 | `np.max`: bounds every entry and is one of them |
| PoolSpec.FirstArgMax | core/layers.py:262 | `np.argmax`: an index of the maximum with every earlier entry strictly smaller |
| PoolSpec.ListsAt | core/layers.py:257-263 | entry i*out_w+j of both lists is window (i,j), in the order of the two loops |
| PoolSpec.RegroupAt | core/layers.py:264-267 | the transpose-and-reshape puts list entry i*w+j, row a, at [a][i][j] |
| PoolSpec.PoolForwardAt | core/layers.py:253-267 | outputs[n][i][j][c] and max_pos[n][i][j][c] are the max and first arg-max of window (i,j) of the zero-padded image |
| PoolSpec.WindowMaxSpec | core/layers.py:260-263 | the output bounds every cell of its window, max_pos indexes a cell holding it, and every earlier cell holds strictly less |
| PoolSpec.PoolValCell | core/layers.py:260-262 | flat index a*w+b of the reshaped window is cell (a,b) |
| PoolSpec.AssignBlockAt | core/layers.py:290 | `d_in[...] = region`: covered pixels take the block's entry, all others keep their value |
| PoolSpec.RegionAt | core/layers.py:284-289 | region[n][a][b][c] is grad[n][i][j][c] where a*pool_w+b is max_pos[n][i][j][c], else 0 |
| PoolSpec.WrittenAt | core/layers.py:290 | writing window (i,j) sets exactly the pixels of its block to their routed gradient |
| PoolSpec.PoolScatteredAt | core/layers.py:281-290 | after the loops reach (i,j), a padded pixel holds its routed gradient if its window came earlier and 0 otherwise; no window overwrites another's gradient |
| PoolSpec.PoolBackwardAt | core/layers.py:275-291 | every pixel of d_in holds its routed gradient |
| PoolSpec.PoolBackwardWindow | core/layers.py:284-291 | within window (i,j), the cell max_pos names holds grad[n][i][j][c] and every other cell holds 0 |
| PoolSpec.PoolBackwardOutside | core/layers.py:281-290 | pixels in no window stay 0 |
| PoolSpec.PoolRoundTrip | core/layers.py:248-291 | after the forward pass, the backward pass puts grad[n][i][j][c] on a cell of window (i,j) that holds the output value |
| PoolLayer.PoolWindows | core/layers.py:257-263 | the window loop builds exactly both lists |
| PoolLayer.RouteGrads | core/layers.py:281-291 | the write loop builds exactly the buffer of the backward pass |
| PoolLayer.MaxPool2D.constructor | core/layers.py:226-246 | pool sizes, strides and mode are stored; the cache is empty |
| PoolLayer.MaxPool2D.InputGeom | core/layers.py:249-256 | the geometry of an input has its shape, the layer's pool and stride, and the padding of `_get_padding` |
| PoolLayer.MaxPool2D.Forward | core/layers.py:248-273 | caches the geometry and max_pos and returns the pooled outputs |
| PoolLayer.MaxPool2D.Backward | core/layers.py:275-291 | returns the routed gradient in the padded shape |
| DenseLayer.DenseForward | core/layers.py:51 | `inputs @ w + b` has one row per input row and one column per bias entry |
| DenseLayer.DenseForwardInputShift | core/layers.py:51 | moving the inputs by dx moves the output by dx @ w |
| DenseLayer.DenseForwardWeightShift | core/layers.py:51 | moving the weights by dw moves the output by inputs @ dw |
| DenseLayer.DenseForwardBiasShift | core/layers.py:51 | moving the bias by db moves every output row by db |
| DenseLayer.DenseInputAdjoint | core/layers.py:56 | `grad @ w.T` is the transpose of dx ↦ dx @ w: <grad, dx @ w> == <grad @ w.T, dx> |
| DenseLayer.DenseWeightAdjoint | core/layers.py:54 | `inputs.T @ grad` is the transpose of dw ↦ inputs @ dw: <grad, inputs @ dw> == <inputs.T @ grad, dw> |
| DenseLayer.DenseBiasAdjoint | core/layers.py:55 | `np.sum(grad, axis=0)` is the transpose of broadcasting db over the rows |
| DenseLayer.DenseInputGradient | core/layers.py:51-56 | the returned input gradient is the gradient of <grad, forward> in the inputs: a change dx changes it by exactly <grad @ w.T, dx> |
| DenseLayer.DenseWeightGradient | core/layers.py:51-54 | `grads["w"]` is the gradient of <grad, forward> in w |
| DenseLayer.DenseBiasGradient | core/layers.py:51-55 | `grads["b"]` is the gradient of <grad, forward> in b |
| DenseLayer.Dense.constructor | core/layers.py:29-43 | the parameters are created at once exactly when `num_in` is given; no inputs are saved yet |
| DenseLayer.Dense.InitParameters | core/layers.py:58-62 | records the input size, sets w and b to the initialisers' values for it, and sets `is_init` |
| DenseLayer.Dense.Forward | core/layers.py:45-51 | an uninitialised layer creates its parameters for the input width and an initialised one keeps them; the inputs are saved and the output is `inputs @ w + b` |
| DenseLayer.Dense.Backward | core/layers.py:53-56 | stores the weight and bias gradients, returns the input gradient, and changes nothing else |
| FlattenLayer.FlattenRowsShape | core/layers.py:323 | each image becomes one row of h*w*c entries, and entry (n,p,q,ch) of the input sits at column (p*w+q)*c+ch of row n |
| FlattenLayer.UnflattenFlattenRows | core/layers.py:321-326 | backward after forward: reshaping the flattened batch to the saved shape gives the batch back |
| FlattenLayer.FlattenUnflattenRows | core/layers.py:321-326 | forward after backward: raveling the reshaped gradient gives the gradient back |
| FlattenLayer.FlattenUnflatten3 | core/layers.py:326 | ravel after reshape is the identity on a flat sequence |
| FlattenLayer.Flatten.constructor | core/layers.py:317-319 | no input shape is saved yet |
| FlattenLayer.Flatten.Forward | core/layers.py:321-323 | saves the input shape and returns the flattened batch |
| FlattenLayer.Flatten.Backward | core/layers.py:325-326 | returns the gradient reshaped to the saved shape |
| ActivationLayer.FuncIsDerivativeTimesInput | core/layers.py:412-433 | both activations are piecewise linear through 0: func(x) == derivative_func(x) * x |
| ActivationLayer.DerivativeExact | core/layers.py:412-433 | on the side of 0 where x lies, func moves by exactly derivative_func(x) times the step |
| ActivationLayer.ReLUProperties | core/layers.py:412-413 | `np.maximum(x, 0.0)` is never negative and is idempotent |
| ActivationLayer.LeakyReLUProperties | core/layers.py:425-428 | with a positive slope, LeakyReLU keeps the sign, is strictly increasing, and is undone by LeakyReLU with slope 1/slope |
| ActivationLayer.ActBackwardEntries | core/layers.py:361-362 | ReLU passes the gradient exactly where the input was positive; LeakyReLU multiplies it by the slope where the input was negative |
| ActivationLayer.ActGradient | core/layers.py:357-362 | the backward pass is the gradient of <grad, forward>: a step that moves no input across 0 changes it by exactly <backward(grad), step> |
| ActivationLayer.Activation.constructor | core/layers.py:353-355 | the kind of activation is stored; no inputs are saved yet |
| ActivationLayer.Activation.Forward | core/layers.py:357-359 | saves the inputs and returns func applied to every entry |
| ActivationLayer.Activation.Backward | core/layers.py:361-362 | returns `derivative_func(inputs) * grad` entrywise |

## Left out

- ConvSpec.MakeGeom, Conv2D.Accepts and Conv2D.Forward build the geometry from the corrected padding `GetPadding`, not from `GetPaddingAsWritten`, which is what `_get_padding` returns. So for FULL padding with a non-square kernel, the layer pads (kh-1, kh-1, kw-1, kw-1) where the code pads (kh-1, kw-1, kh-1, kw-1). For a 3x1 kernel on a 5x5 image this gives a 7x5 output where the code gives 5x7. `PaddingRulesAgree` shows that this is the only case where the two differ.
- Conv2D.Forward: numpy raises when the input's channel count is not `kIn` (the reshape at core/layers.py:140 or the one at core/layers.py:150 fails, because `ker_len` is kH * kW * kIn), and when a padded axis is shorter than the kernel (`patches` stays empty and the transpose at core/layers.py:145 fails). Both are preconditions (`Conv2D.Accepts`), and the raised errors are not modelled.
- Floating point: entries are reals, so NaN and rounding are not modelled.
- Empty batches and empty images: nested sequences lose their inner shape when empty, so the methods need at least one image of one row and one column.
- The initialisers (`core.initializer`) are not part of this model. Conv2D takes the values they would return for the kernel shape as constructor parameters. Dense takes the weight initialiser as a function of the input size, and the bias initialiser's value.
- Dense's bias has shape [1, num_out] in the source. It is modelled as a row vector added to every row, which is what numpy's broadcasting does.
- Dense.Forward on an initialised layer needs the batch to be as wide as the weights. numpy raises otherwise, so this is a precondition.
- Flatten is modelled on four-axis inputs, the shape it receives after MaxPool2D. `ravel` on inputs of other ranks is not modelled.
- ReLU and LeakyReLU act entrywise, so a tensor of any shape is modelled by the sequence of its entries.
- ActGradient leaves out inputs equal to 0, where `func` has no derivative: ReLU's `derivative_func` gives 0 there and LeakyReLU's gives 1.
- `print("Invalid mode")` in `Conv2D._get_padding` is left out. The constructor's assertion makes that branch unreachable, and the function returns None there.
- The `assert` statements of the constructors become preconditions.
- MaxPool2D.forward needs the strides to divide the padded sizes. Otherwise the loops visit ceil(pad/s) positions while the reshape expects pad // s, and numpy raises. This is a precondition (`PoolGeomOk`).
- MaxPool2D.backward needs pool <= stride (`PoolBackOk`). Otherwise a window cut short at the border cannot take the full region, and numpy raises. Overlapping windows are excluded by the same precondition, so the overwrite-versus-accumulate difference never shows.
- Conv2D.Backward: gradient that reaches edge-replicated border pixels is cut off by the crop; it is not routed back to the edge pixel it copies. This is what the code does, and the model keeps it.
- `Layer.set_phase`, `is_training`, and the `name`, `params` and `grads` dictionaries are represented only by the fields they hold.
- `Sigmoid`, `Softplus` and `Tanh` need transcendental functions; `Dropout` needs randomness. The training script `examples/mnist/run.py` is not part of this model.

## Findings

| source | as written | input that shows it | evidently intended | confidence | as-written member | corrected member |
|---|---|---|---|---|---|---|
| core/layers.py:204 | FULL returns `[k0-1, k1-1, k0-1, k1-1]`, which the caller reads as (top, bottom, left, right) | a 3x1 kernel on a 5x5 image, stride 1: top = left = 2, bottom = right = 0, so the output is 5x7 | `[k0-1, k0-1, k1-1, k1-1]`, giving an (in_h+k_h-1) x (in_w+k_w-1) output (7x5 here) | not executed | ConvSpec.GetPaddingAsWritten, ConvSpec.FullPaddingAsWrittenCounterexample | ConvSpec.GetPadding, ConvSpec.FullStrideOneSize |
