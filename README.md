# ResNet-152 CIFAR-10 training script: the integer and bookkeeping core

The training script `ResNet152.py` defines a ResNet-152 variant, trains it on
CIFAR-10 with Cutout augmentation, keeps the best checkpoint by validation
accuracy, then fine-tunes from that checkpoint. Almost all of it is tensor
code from an external library. This Dafny project models the pieces that
are plain integer and bookkeeping logic, and proves what they guarantee:

- **Cutout** (module `Augmentation`): the clamped occlusion rectangle around
  a centre `(y, x)`, Python's slice-index normalisation for
  `mask[y1:y2, x1:x2] = 0`, the in-place zeroing of an `h x w` mask
  (`array2`), and the per-channel multiply of a `C x h x w` image (`array3`).
  The random centre is a method parameter with `0 <= y < h`, `0 <= x < w`
  (the range of `torch.randint`).
- **Network configuration** (module `ResNetModel`): each bottleneck block as
  a record of its input width, inner width, stride and shortcut kind; the
  projection-shortcut rule; `_make_layer` as a loop on a `ResNet` object that
  appends blocks and reassigns `in_planes`; the four stages and
  `ResNet152()`.
- **Validation counting** (module `Validation`): `correct` and `total`
  accumulated per batch and the percentage accuracy. `validate` and
  `finetune_validate` run the same code and differ only in a printed
  message, so one method `Validate` models both (ResNet152.py:238-251 and
  316-329).
- **Best-checkpoint selection** (module `Checkpoints`): the shared running
  maximum `best_acc` across the initial-training and fine-tuning loops, the
  save rule (strict improvement), the load of the initial-phase checkpoint
  between the phases, and the trace of saves.

## Model

| member | source | states |
|---|---|---|
| `Augmentation.HalfLength` | ResNet152.py:137-140 | the result is Python's floor `length // 2` for every integer length (`2*half <= length < 2*half + 2`); hence non-negative for `length >= 0`, exactly `(length-1)/2` for odd `length`, and at least 1 for `length >= 2` |
| `Augmentation.Bounds` | ResNet152.py:137-140 | the clamped rectangle satisfies `0 <= y1 <= y <= y2 <= h` and `0 <= x1 <= x <= x2 <= w`; each side is at most `2*(length//2) <= length`, at most `length-1` for odd `length`; for `length >= 2` it contains the centre |
| `Augmentation.SliceIndex` | ResNet152.py:142 | a Python slice bound normalised on an axis of length `n` lies in `[0, n]`, is unchanged when already in range, counts from the end (`i + n`) when `-n <= i < 0`, clamps to `n` above and to 0 below `-n` |
| `Augmentation.OccludedIsRectangle` | ResNet152.py:137-142 | for `length >= 0` a pixel is zeroed exactly when it lies in `[y1, y2) x [x1, x2)`, and exactly when it is an image pixel in the window `[y - length//2, y + length//2) x [x - length//2, x + length//2)` |
| `Augmentation.CentreOccluded` | ResNet152.py:134-142 | for `length >= 2` the centre pixel `(y, x)` is always zeroed |
| `Augmentation.NegativeLengthRows` | ResNet152.py:137-142 | a negative length is not rejected: with `length = -4` and centre `(0, 0)` of a 32 x 32 image the stop index `-2` counts from the end, so rows and columns 2 to 29 are zeroed |
| `Augmentation.Cutout.constructor` | ResNet152.py:127-128 | the augmentation keeps the side length it was given |
| `Augmentation.Cutout.Ones` | ResNet152.py:132 | a fresh `h x w` mask with every entry 1 |
| `Augmentation.Cutout.ZeroSlice` | ResNet152.py:142 | in place, the mask is 0 on the (normalised) slice and unchanged everywhere else |
| `Augmentation.Cutout.MaskChannels` | ResNet152.py:143 | a fresh tensor of the image's shape whose every channel is the image channel times the mask, pixel by pixel |
| `Augmentation.Cutout.Apply` | ResNet152.py:130-144 | the result has the image's channel count, height and width, is 0 on every occluded pixel of every channel and equals the image elsewhere |
| `ResNetModel.Bottleneck` | ResNet152.py:44-49 | the shortcut is a projection exactly when `stride != 1` or `in_planes != planes*4`; either way the shortcut yields `planes*4` channels at the block's stride, matching the residual branch it is added to |
| `ResNetModel.Ones` | ResNet152.py:81 | `[1] * k` has `k` entries, all 1, and none when `k <= 0` |
| `ResNetModel.Strides` | ResNet152.py:81 | the strides list starts with `stride`, has 1 everywhere else, and has `num_blocks` entries when `num_blocks >= 1`, one entry otherwise |
| `ResNetModel.BuildLayer` | ResNet152.py:80-86 | one block per stride; block `k` is `Bottleneck(in, planes, strides[k])` with `in` the layer's starting `in_planes` for `k = 0` and `planes*4` afterwards |
| `ResNetModel.LayerChains` | ResNet152.py:83-85 | every block after the first reads exactly the width its predecessor produces |
| `ResNetModel.LayerProjections` | ResNet152.py:80-86 | in a built layer, block `k` has a projection exactly when `k = 0` and (`stride != 1` or `in_planes != planes*4`) |
| `ResNetModel.StageShape` | ResNet152.py:62-72 | for any block counts, each of the four layers has a projection on exactly its first block, and has `num_blocks[l]` blocks (one if that count is not positive) |
| `ResNetModel.ResNet152Shape` | ResNet152.py:112-113 | with counts `[3, 8, 36, 3]`: 50 blocks, a projection on exactly the first block of each layer, and the last block outputs 2048 = 512*4 channels |
| `ResNetModel.ResNet.MakeLayer` | ResNet152.py:80-86 | the loop returns the blocks `BuildLayer` specifies from the old `in_planes` and leaves `in_planes == planes*4` |
| `ResNetModel.ResNet.constructor` | ResNet152.py:60-75 | the four layers are those of `Layers(num_blocks)` (widths 64 to 256, 512, 1024, 2048) and the final `in_planes` equals the classifier's input width `512*4` |
| `ResNetModel.ResNet152` | ResNet152.py:112-113 | a fresh network built with `[3, 8, 36, 3]`, ten classes and a 2048-wide classifier input |
| `Validation.Hits` | ResNet152.py:246-248 | the hits of a batch are at most its size, and equal to it exactly when every prediction matches its target |
| `Validation.CorrectAtMostTotal` | ResNet152.py:247-248 | after any batches `correct <= total`, with equality exactly when every sample so far was classified correctly |
| `Validation.TotalZero` | ResNet152.py:247-249 | `total` is 0 exactly when every batch was empty |
| `Validation.Accuracy` | ResNet152.py:249 | division by zero exactly when `total = 0`; otherwise `accuracy * total = 100 * correct`, in `[0, 100]` when `correct <= total`, and 100 exactly when `correct = total` |
| `Validation.Validate` | ResNet152.py:238-251 | the loop's result is the accuracy of the summed counters; it fails exactly when all batches are empty, lies in `[0, 100]` otherwise, and is 100 exactly when every prediction was right |
| `Checkpoints.BestIsMaximum` | ResNet152.py:257-267 | `best_acc` ends at least at its start value and at least every accuracy seen |
| `Checkpoints.BestMonotone` | ResNet152.py:266-267 | `best_acc` never decreases from one epoch to a later one |
| `Checkpoints.PhasesCompose` | ResNet152.py:331-340 | continuing from the first loop's `best_acc` gives the same `best_acc` as one loop over both phases' accuracies |
| `Checkpoints.SaveTraceEvents` | ResNet152.py:266-268 | every save names the loop's file, an epoch of the loop, and that epoch's accuracy |
| `Checkpoints.SavedEpochsStep` | ResNet152.py:266-268 | one more epoch adds that epoch to the saved epochs exactly when its accuracy beats the current `best_acc` |
| `Checkpoints.SaveTraceExact` | ResNet152.py:266-269 | any epoch `e` of the loop is saved exactly when its accuracy is strictly above `best_acc` before it (a tie does not save) |
| `Checkpoints.LastSaveHoldsBest` | ResNet152.py:266-269 | with no save `best_acc` is unchanged; otherwise the last save's accuracy is the final `best_acc`, above the start value |
| `Checkpoints.SavesImprove` | ResNet152.py:266-269 | saves are in increasing epoch order with strictly increasing accuracy, each above the starting `best_acc` |
| `Checkpoints.FineTuneSaveBeatsInitial` | ResNet152.py:339-342 | a fine-tuning save happens only with an accuracy above 0.0 and above every accuracy of the initial phase |
| `Checkpoints.CheckpointLoop` | ResNet152.py:260-269 | the loop returns the specified `best_acc` and save trace; the result is at least the start value and every accuracy |
| `Checkpoints.TrainAndFineTune` | ResNet152.py:257-342 | the script fails at the load exactly when the initial phase saved nothing and no older file exists; otherwise the saves are the initial loop's then the fine-tuning loop's (started from the initial best), the final `best_acc` is the best over both phases, and fine-tuning resumes from the last initial save |

## Left out

- Convolutions, batch normalisation, ReLU, pooling, the forward passes and autograd (ResNet152.py:51-57, 101-110): tensor kernels of the external library. A block is reduced to its widths, stride and shortcut kind.
- Weight initialisation (ResNet152.py:88-99): random draws from library initialisers.
- The warm-up/cosine learning-rate scheduler (ResNet152.py:189-216): floating-point arithmetic with `math.cos`; its `T_mult`, `gamma` and `cycle` are stored but never used.
- Training steps, loss, optimizers and running-loss printing (ResNet152.py:180-183, 222-236, 295-314): floating-point numerics and console output.
- Dataset download, data loaders, shuffling, worker processes, torchvision transforms, normalisation constants and device selection (ResNet152.py:25, 150-174, 282-292).
- The network's predictions: `Validate` takes each sample's arg-max prediction and target as input rather than computing them.
- The random centre of Cutout (ResNet152.py:134-135): a parameter, constrained to the range `torch.randint` draws from; an image of height or width 0, on which `torch.randint` raises, is therefore excluded.
- Pixel values and accuracies are mathematical reals: floating-point rounding, NaN and infinities (for which `x * 0` is not 0 and comparisons are unordered) are not modelled.
- `torch.save` and `torch.load` (ResNet152.py:268, 278, 341): a save is an event in a trace; the load is modelled only as succeeding or raising, with the presence of an older file on disk as a parameter. Model weights are not modelled, so which weights a file holds is identified by the epoch of its last save.
- `ResNetModel.ResNet.constructor`: requires at least four block counts; a shorter list makes Python raise `IndexError`, which is not modelled as a result.
- `Checkpoints.TrainAndFineTune`: requires exactly one accuracy per epoch of each phase (70 and 15).
- Printing, `tqdm` progress bars and the package-install line (ResNet152.py:2).
