# Segmentation losses and SSIM windows over exact reals

This project models the numerical core of the CNN baseline's training losses and
evaluation metrics, and proves properties of that model in Dafny.

Losses (`CNN-Baseline/losses.py`):
- the channel-first `flatten`;
- the Dice family: `compute_per_channel_dice`, `_AbstractDiceLoss`, `DiceLoss`,
  `GeneralizedDiceLoss`, `SoftDiceLoss`, and the `alpha·bce + beta·dice` step of
  `BCEDiceLoss`;
- the two loss wrappers: `_MaskingLossWrapper` and `SkipLastTargetChannelWrapper`;
- the weighting rules of `WeightedCrossEntropyLoss`, `PixelWiseCrossEntropyLoss`
  and `WeightedSmoothL1Loss`;
- the composite `UnifiedSegmentationLoss`, including its 27-tap Laplacian kernel
  and its 3-D convolution;
- the factory `get_loss_criterion` / `_create_loss`.

Evaluation (`CNN-Baseline/utils/evaluation_functions.py`):
- the Gaussian profile and the 2-D and 3-D windows;
- the SSIM map formula and its two reductions;
- the `SSIM` and `SSIM3D` modules, with their cached window.

A tensor is a `Tensor(shape, data)`: a row-major `seq<real>` with its shape.
Arithmetic is exact. Wherever PyTorch fails, the model returns a
`Result` error instead:
- `ShapeMismatch`: a failing shape `assert` or a view that cannot be taken;
- `ConfigurationError`: a missing or rejected configuration entry;
- `UnsupportedLoss`: an unknown loss name;
- `InvalidValue`: a class index outside its range, or a zero `sigma`;
- `NonFinite`: a division by zero, or a mean over no element, where torch would
  produce inf or NaN;
- `TypeMismatch`: a value of the wrong type.

The following are parameters of the model:
- the transcendental functions: sigmoid, softmax, log-softmax and `exp`;
- the SSIM convolutions;
- PyTorch's built-in losses.

The model keeps the source's own form where the source changes state:
- `PixelWiseCrossEntropyLoss.forward` overwrites the caller's target array in place.
- `WeightedSmoothL1Loss.forward` reweights the elementwise loss array in place.
- `get_loss_criterion` pops keys out of a configuration object (`ConfigDict`).
- `UnifiedSegmentationLoss`, `SSIM` and `SSIM3D` are classes whose `forward`
  reassigns their fields.

Files:
- `results.dfy`: `Result`, `Option` and the error kinds.
- `realseq.dfy`: elementwise operations, sums and means.
- `tensors.dfy`: the tensor type and the block structure (`view`, `cat`).
- `layout.dfy`: the (N, C, S) layout and `flatten`.
- `dice.dfy`: the Dice losses.
- `wrappers.dfy`: the masking and skip-last-channel wrappers.
- `weights.dfy`: weighted cross entropy and weighted smooth L1.
- `pixelwise.dfy`: the pixel-wise cross entropy.
- `unified.dfy`: the unified segmentation loss.
- `factory.dfy`: the loss factory.
- `windows.dfy`: the Gaussian windows.
- `reductions.dfy`: `mean()` and `mean(1)`.
- `ssim.dfy`: the SSIM map, the SSIM index and the SSIM modules.

## Model

| member | source | states |
|---|---|---|
| Layout.Samples | CNN-Baseline/losses.py:362-368 | the tensor as N samples of C channel blocks of S values each |
| Layout.ChannelBlocks | CNN-Baseline/losses.py:362-368 | the channel-c block of every sample, in sample order |
| Layout.Flatten | CNN-Baseline/losses.py:356-368 | flattening an (N, C, S...) tensor gives one row per channel; `Layout.Flattenable` names the tensors torch can flatten, those with at least one channel |
| Layout.FlattenLayout | CNN-Baseline/losses.py:362-368 | every row has N·S entries; cut into N blocks of S, row c gives each sample's channel-c block in sample order |
| Layout.FlattenAt | CNN-Baseline/losses.py:362-368 | the exact index map: element [n, c, s], at flat offset n·C·S + c·S + s, lands in row c at column n·S + s; the map depends only on the shape |
| Layout.FlattenSameShape | CNN-Baseline/losses.py:356-368 | two tensors of one shape flatten to matrices of one shape |
| Layout.FlattenAllIn | CNN-Baseline/losses.py:356-368 | every entry of a row is an entry of the tensor, so bounds on the tensor hold for every row |
| DiceLosses.ParseNormalization | CNN-Baseline/losses.py:194-200 | exactly the three names sigmoid, softmax and none are accepted, each as its own normalization; any other name is a configuration error |
| DiceLosses.ParseNormalizationName | CNN-Baseline/losses.py:194-200 | each normalization is recovered from its own name |
| DiceLosses.Normalize | CNN-Baseline/losses.py:195-200 | `none` passes the input through unchanged; `sigmoid` applies the sigmoid to every entry and keeps the shape |
| DiceLosses.SigmoidProbabilities | CNN-Baseline/losses.py:195-196 | a sigmoid with values in [0, 1] turns any tensor into a tensor of probabilities of the same shape |
| DiceLosses.ApplyWeight | CNN-Baseline/losses.py:28-29 | no weight leaves the intersections as they are; a weight fails exactly when it does not broadcast against them, and otherwise scales them entry by entry, repeating a length-1 operand |
| DiceLosses.DoubledRatios | CNN-Baseline/losses.py:33 | the result is 2·(num/den) entry by entry after broadcasting; operands that do not broadcast are a shape error; any other failure is non-finite and comes from a zero divisor |
| DiceLosses.Intersections | CNN-Baseline/losses.py:27 | channel c gets Σ x·t over its row |
| DiceLosses.SquareSums | CNN-Baseline/losses.py:32 | channel c gets Σx² + Σt² over its rows |
| DiceLosses.Totals | CNN-Baseline/losses.py:259-260 | channel c gets Σ(x + t) over its rows |
| DiceLosses.Clamp | CNN-Baseline/losses.py:33 | every entry is raised to at least the bound: max(a, lo) |
| DiceLosses.PerChannelDice | CNN-Baseline/losses.py:20-24 | input and target of different shapes fail the assertion; a tensor without a channel axis or without channels cannot be flattened, and neither can a malformed target; success implies one common shape with at least one channel |
| DiceLosses.PerChannelDiceRows | CNN-Baseline/losses.py:20-33 | once the shapes agree, the result is computed from the flattened rows of input and target |
| DiceLosses.DiceOfRowsFormula | CNN-Baseline/losses.py:27-33 | `DiceOfRows`, the Dice of the flattened rows: with ε > 0 and a weight of one entry per channel or none it never fails, and channel c scores `DiceScore`, 2·w[c]·Σx·t / max(Σx² + Σt², ε) |
| DiceLosses.ChannelwiseWeight | CNN-Baseline/losses.py:28-29 | a weight of one entry per channel scales each channel's intersection by its own entry |
| DiceLosses.ChannelwiseRatios | CNN-Baseline/losses.py:33 | equally long operands with nonzero divisors are divided channel by channel, without failure |
| DiceLosses.PerChannelDiceFormula | CNN-Baseline/losses.py:20-33 | for one shape and ε > 0, the result has one value per channel and channel c is 2·w[c]·Σx·t / max(Σx² + Σt², ε), where w[c] is 1 without a weight |
| DiceLosses.PerChannelDiceAllOnes | CNN-Baseline/losses.py:20-33 | identical all-ones input and target give exactly 1 in every channel, given at least one value per channel and 0 < ε ≤ 2 |
| DiceLosses.PerChannelDiceZeroInput | CNN-Baseline/losses.py:27-33 | when it is defined, an all-zero input scores 0 in every channel, whatever the target and the weight |
| DiceLosses.PerChannelDiceBounds | CNN-Baseline/losses.py:27-33 | without a weight, every channel scores at most 1, because 2·Σx·t ≤ Σx² + Σt²; for probabilities every score lies in [0, 1] |
| DiceLosses.OneMinusMean | CNN-Baseline/losses.py:214 | `1 - mean` is non-finite exactly when there are no channels |
| DiceLosses.OneMinusMeanOfOnes | CNN-Baseline/losses.py:214 | per-channel scores that are all 1 give a loss of exactly 0 |
| DiceLosses.OneMinusMeanInUnit | CNN-Baseline/losses.py:214 | non-empty scores in [0, 1] give a loss in [0, 1] |
| DiceLosses.DiceLoss.Forward | CNN-Baseline/losses.py:206-214 | if the per-channel Dice of the normalized input fails, the loss fails; its value is stated by the two lemmas below |
| DiceLosses.NewDiceLoss | CNN-Baseline/losses.py:186-200 | construction succeeds exactly for the three normalization names, and keeps the weight and the normalization named; any other name is a configuration error |
| DiceLosses.DiceLossPerfectMatch | CNN-Baseline/losses.py:206-227 | without normalization or weight, an all-ones prediction of an all-ones target costs exactly 0 |
| DiceLosses.DiceLossInUnit | CNN-Baseline/losses.py:206-227 | an unweighted Dice loss whose normalized input and target hold probabilities is defined and lies in [0, 1] |
| DiceLosses.GdlChannels | CNN-Baseline/losses.py:245-249 | a single channel x becomes the two channels [x, 1 - x]; any other number of channels is left alone |
| DiceLosses.GdlChannelsLayout | CNN-Baseline/losses.py:245-249 | input and target keep one layout, and afterwards there is never exactly one channel |
| DiceLosses.GdlChannelsInUnit | CNN-Baseline/losses.py:248-249 | complementing probabilities keeps them probabilities |
| DiceLosses.ClampedVolumes | CNN-Baseline/losses.py:252-253 | channel c gets max((Σt)², ε), its squared label volume clamped |
| DiceLosses.Reciprocals | CNN-Baseline/losses.py:253 | each weight is 1 / v for its clamped volume v |
| DiceLosses.Weigh | CNN-Baseline/losses.py:257-260 | each per-channel quantity is multiplied by its channel's weight |
| DiceLosses.GdlWeightsPositive | CNN-Baseline/losses.py:252-253 | with ε > 0 every clamped volume is at least ε, so every weight is positive |
| DiceLosses.GeneralizedDice | CNN-Baseline/losses.py:239-243 | input and target of different shapes, a malformed target, or an input without a channel axis or without channels fail; success implies one shape with at least one channel |
| DiceLosses.GeneralizedDiceOfRowsInUnit | CNN-Baseline/losses.py:245-262 | `GeneralizedDiceOfRows`, 2·Σ_c(w_c·Σx·t) / Σ_c max(w_c·Σ(x + t), ε), is defined and lies in [0, 1] for probabilities and ε > 0 |
| DiceLosses.GeneralizedDiceLoss.Forward | CNN-Baseline/losses.py:206-214 | the loss is defined exactly when the generalized score of the normalized input is, and is then 1 minus that single score |
| DiceLosses.NewGeneralizedDiceLoss | CNN-Baseline/losses.py:234-236 | construction succeeds exactly for the three normalization names, and keeps ε and the normalization named |
| DiceLosses.GeneralizedDiceLossInUnit | CNN-Baseline/losses.py:206-262 | for probabilities, ε > 0 and at least one channel, the generalized Dice loss is defined and lies in [0, 1] |
| DiceLosses.SoftScores | CNN-Baseline/losses.py:122-126 | sample b scores `SoftScore`, (2·Σp·t + s) / (Σp + Σt + s) |
| DiceLosses.Rows | CNN-Baseline/losses.py:117-119 | `view(B, -1)` gives B rows, each holding the rest of the sample |
| DiceLosses.SoftDiceLoss.Forward | CNN-Baseline/losses.py:117-126 | a malformed tensor, a tensor without axes, a batch of size 0 (whose `view(0, -1)` is undetermined) or a target with a different number of elements is a shape error; otherwise the loss is non-finite exactly when some sample has Σp + Σt + s = 0 |
| DiceLosses.SoftDiceEmptySamples | CNN-Baseline/losses.py:117-132 | a batch of two samples without elements is two empty rows, and costs 0 for any nonzero smoothing |
| DiceLosses.SoftDiceZeroZero | CNN-Baseline/losses.py:117-132 | an all-zero prediction of an all-zero target costs 0 for any nonzero smoothing |
| DiceLosses.SoftDicePerfectMatch | CNN-Baseline/losses.py:117-132 | a prediction equal to a binary target costs 0 for any positive smoothing |
| DiceLosses.SoftLossOfPerfect | CNN-Baseline/losses.py:126-132 | when every sample scores (2I + s) / (2I + s), every per-sample loss and their mean are 0 |
| DiceLosses.SoftDiceInUnit | CNN-Baseline/losses.py:117-132 | for probabilities and a positive smoothing the loss is defined and lies in [0, 1) |
| DiceLosses.SoftLossInUnit | CNN-Baseline/losses.py:122-132 | for probability rows and a positive smoothing every divisor is positive and the mean per-sample loss lies in [0, 1) |
| DiceLosses.ProbabilitySizes | CNN-Baseline/losses.py:122-123 | for probabilities, twice the overlap lies between 0 and the summed sizes |
| DiceLosses.ScoreInUnit | CNN-Baseline/losses.py:126 | for probabilities and a positive smoothing, a sample's soft Dice lies in (0, 1] |
| DiceLosses.BceDiceLoss.Forward | CNN-Baseline/losses.py:265-276 | the loss is defined exactly when the sigmoid Dice loss is, and is then alpha·bce + beta·dice |
| LossWrappers.MaskingLossWrapper.MaskedArguments | CNN-Baseline/losses.py:145-151 | input and target of different shapes, or a malformed tensor, fail; otherwise both keep their shape, are 0 wherever the target equals the ignore index, and are unchanged everywhere else |
| LossWrappers.MaskingLossWrapper.Forward | CNN-Baseline/losses.py:145-154 | the wrapped loss is applied to exactly the masked input and target |
| LossWrappers.NotEqualMask | CNN-Baseline/losses.py:146 | the mask is 0 where the target equals the ignore index and 1 elsewhere |
| LossWrappers.NewMaskingLossWrapper | CNN-Baseline/losses.py:139-143 | construction fails exactly when no ignore index is given |
| LossWrappers.MaskingHidesIgnored | CNN-Baseline/losses.py:145-154 | two inputs that differ only at ignored positions give the wrapped loss the same arguments, so the wrapper returns the same result |
| LossWrappers.MaskingIdempotent | CNN-Baseline/losses.py:145-151 | masking the masked arguments again changes nothing |
| LossWrappers.KeptBlocks | CNN-Baseline/losses.py:171 | each sample keeps its first C - 1 channel blocks, in order |
| LossWrappers.DropLastChannel | CNN-Baseline/losses.py:171 | `target[:, :-1, ...]` has shape (N, C - 1, ...) |
| LossWrappers.DropLastChannelValid | CNN-Baseline/losses.py:171 | the shortened target is well formed, has N samples of C - 1 channels of the same spatial size, and its samples are the kept blocks |
| LossWrappers.DropLastChannelLayout | CNN-Baseline/losses.py:171 | sample n of the shortened target is the first C - 1 channels of sample n |
| LossWrappers.SqueezeChannel | CNN-Baseline/losses.py:175 | `torch.squeeze(t, dim=1)` keeps the data; it removes axis 1 when that axis has size 1, and otherwise changes nothing |
| LossWrappers.SkipLastTargetChannelWrapper.SkippedTarget | CNN-Baseline/losses.py:171-175 | the shortened target, with axis 1 squeezed out when squeezing is asked for and one channel is left |
| LossWrappers.SkipLastTargetChannelWrapper.Forward | CNN-Baseline/losses.py:167-178 | a target without a channel axis, or with a single channel, fails the assertion; otherwise the wrapped loss gets the same input, the shortened target, and the weight unchanged |
| WeightedLosses.ChannelMass | CNN-Baseline/losses.py:295-297 | channel c gets the sum of its flattened row |
| WeightedLosses.ClassWeights | CNN-Baseline/losses.py:292-299 | fails exactly for a tensor without a channel axis or without channels, which is a shape error, or for a channel of zero mass, which is non-finite; otherwise channel c weighs (N·S)/Σp_c - 1 |
| WeightedLosses.NoChannelsRejected | CNN-Baseline/losses.py:356-368 | a (1, 0, 4) batch without channels is a shape error for `PerChannelDice`, `GeneralizedDice` and `ClassWeights` alike |
| WeightedLosses.RowWeights | CNN-Baseline/losses.py:296-298 | a row of len entries with nonzero sum weighs len/Σ - 1 |
| WeightedLosses.ClassWeightsNonneg | CNN-Baseline/losses.py:292-299 | for probabilities every class weight is non-negative |
| WeightedLosses.ClassWeightsAntitone | CNN-Baseline/losses.py:292-299 | a channel with more probability mass never weighs more than one with less |
| WeightedLosses.WeightedCrossEntropyLoss.Forward | CNN-Baseline/losses.py:287-289 | a failing weight computation on the softmax output is the loss's error; otherwise the cross entropy gets those weights and the configured ignore index |
| WeightedLosses.WeightedSmoothL1Loss.EntrySplit | CNN-Baseline/losses.py:346-351 | reweighting an entry adds weight - 1 times its selected part |
| WeightedLosses.WeightedSmoothL1Loss.Reweighted | CNN-Baseline/losses.py:346-351 | entry i is multiplied by the weight exactly when its target meets the threshold condition |
| WeightedLosses.WeightedSmoothL1Loss.SelectedPart | CNN-Baseline/losses.py:346-349 | entry i is kept where its target is selected and is 0 elsewhere |
| WeightedLosses.WeightedSmoothL1Loss.Forward | CNN-Baseline/losses.py:343-353 | a mask of another length is an error and the array is untouched; otherwise the array is reweighted in place; the result is the mean of the new array, or non-finite for an empty array |
| WeightedLosses.ReweightedSum | CNN-Baseline/losses.py:351 | the reweighted total is the old total plus weight - 1 times the selected total |
| WeightedLosses.ReweightedByOne | CNN-Baseline/losses.py:351 | an initial weight of 1 leaves the loss unchanged |
| WeightedLosses.ReweightedNotSmaller | CNN-Baseline/losses.py:346-351 | a weight of at least 1 never lowers the total of a non-negative loss |
| WeightedLosses.ReweightedModesComplement | CNN-Baseline/losses.py:346-349 | the two settings of `apply_below_threshold` select complementary positions; reweighting under one and then under the other scales every entry by the weight |
| PixelWise.Remap | CNN-Baseline/losses.py:313-315 | positions equal to the ignore index become class 0; the others are unchanged |
| PixelWise.KeepMask | CNN-Baseline/losses.py:313-319 | the inverted mask is 0 at ignored positions and 1 elsewhere |
| PixelWise.RemapIdempotent | CNN-Baseline/losses.py:315 | remapping twice is remapping once; afterwards only class 0 can still equal the ignore index |
| PixelWise.CellOfOneHot | CNN-Baseline/losses.py:321-332 | an entry of the product is 0 off the position's class, and -w·keep·log p at that class |
| PixelWise.ProductRow | CNN-Baseline/losses.py:321-332 | row j of a sample's product holds, per position, the one-hot entry at class j (at class 0 for a width-1 one-hot) times the mask, the weight and the log-probability; a single input channel is broadcast |
| PixelWise.ProductRows | CNN-Baseline/losses.py:321-332 | a sample's product has m rows, one per class |
| PixelWise.ProductBlocks | CNN-Baseline/losses.py:322-332 | sample n of the product is built from sample n of the log-probabilities, the target, the mask and the weights |
| PixelWise.Product | CNN-Baseline/losses.py:328-332 | the (N, m, S) product has N·m·S entries |
| PixelWise.TrueClassTerms | CNN-Baseline/losses.py:332 | each position contributes -w·keep·log p of its own class |
| PixelWise.TrueClassBlocks | CNN-Baseline/losses.py:332 | sample n's true-class terms come from sample n of each operand |
| PixelWise.PositionSum | CNN-Baseline/losses.py:321-332 | at one position, summing the product over the classes leaves only that position's true-class term |
| PixelWise.SampleProductSum | CNN-Baseline/losses.py:321-332 | a sample's whole product sums to its summed true-class terms |
| PixelWise.ProductSum | CNN-Baseline/losses.py:321-333 | with classes below C, the product summed over all classes equals the summed true-class terms |
| PixelWise.LossIsNegLogLikelihood | CNN-Baseline/losses.py:308-333 | a defined loss (`Loss`, through `LossOfParts` once the target is remapped) is the sum of `NegLogLikelihood`, the weighted negative log-likelihood of each non-ignored position's class, divided by one count per position and class |
| PixelWise.Loss | CNN-Baseline/losses.py:308-333 | a target that does not match the weights, or log-probabilities without a channel axis, is a shape error; a remapped class outside [0, C) is an invalid value, and exactly then; the loss is defined exactly when the layouts agree, every remapped class is below C, and there is at least one position and one channel |
| PixelWise.AsWrittenDefinedOnly | CNN-Baseline/losses.py:308-333 | as written (`LossAsWritten`), a target that does not match the weights is a shape error; a defined loss implies no ignore index, a non-empty target of non-negative classes, and a one-hot width max + 1 that equals C or broadcasts against it (max = 0 or C = 1) |
| PixelWise.OneHotBroadcastRule | CNN-Baseline/losses.py:321-333 | once `F.one_hot` has chosen k classes (`OneHotLoss`), the loss is defined exactly when the layouts agree, the (N, k, S) one-hot broadcasts against the C channels (k = C, k = 1 or C = 1), and the mean is over at least one entry; otherwise a shape or non-finite error |
| PixelWise.NegLogLikelihoodAgree | CNN-Baseline/losses.py:332 | weights that agree at every kept position give the same true-class terms |
| PixelWise.IgnoredWeightsIrrelevant | CNN-Baseline/losses.py:313-333 | the weights at ignored positions do not affect the loss |
| PixelWise.MaxOf | CNN-Baseline/losses.py:321 | the largest class index, which bounds every entry and occurs in the target |
| PixelWise.AsWrittenRejectsIgnoreIndex | CNN-Baseline/losses.py:313-319 | as written, every call with an ignore index that passes the shape assertion fails on `1 - mask` |
| PixelWise.ProductSingleChannel | CNN-Baseline/losses.py:328-332 | with a single channel, a broadcast width-1 one-hot and the ordinary one-hot give the same product |
| PixelWise.AsWrittenAgreesWhenLastClassPresent | CNN-Baseline/losses.py:308-333 | as written, without an ignore index, and when the target's largest class is C - 1, the code computes the intended loss |
| PixelWise.AsWrittenValue | CNN-Baseline/losses.py:317-333 | in that case the code as written encodes over the C channels, broadcasting only when C is 1 |
| PixelWise.AsWrittenClasses | CNN-Baseline/losses.py:317-321 | without an ignore index, a non-empty target with no negative class reaches `F.one_hot` with max + 1 classes |
| PixelWise.IntendedValue | CNN-Baseline/losses.py:308-333 | with every class below C, the intended loss is the mean of the product with one entry per position and channel |
| PixelWise.AsWrittenCounterexample | CNN-Baseline/losses.py:313-333 | one position of class 0 and two channels with log-probabilities -1 and -2; as written the loss is 1.5 without an ignore index, and it fails with one; intended, the loss is 0.5 either way |
| PixelWise.ExampleProducts | CNN-Baseline/losses.py:321-332 | in the counterexample, the two-class product is [1, 2] with the as-written encoding and [1, 0] with the intended one |
| PixelWise.PixelWiseCrossEntropyLoss.Forward | CNN-Baseline/losses.py:308-333 | on a call that passes the shape assertion, the caller's target array is left remapped, with ignored positions set to class 0; otherwise the array is untouched; the result is the corrected loss `PixelWise.Loss` of the original target, not the value `PixelWise.LossAsWritten` of the code as written |
| UnifiedLoss.KernelRows | CNN-Baseline/losses.py:40-42 | the (1, 3, 3, 3, 3) kernel holds the Laplacian once for each of the three input channels |
| UnifiedLoss.LaplacianTaps | CNN-Baseline/losses.py:41-42 | 27 taps: the centre, index 13, is 26; the other 26 are -1; the taps sum to 0 |
| UnifiedLoss.KernelLayout | CNN-Baseline/losses.py:40-42 | the kernel tensor is well formed with 81 entries, and each channel's taps are the Laplacian |
| UnifiedLoss.Neighbour | CNN-Baseline/losses.py:76-77 | the position read under a tap, when it lies in the volume, is a valid position; taps in the zero padding read nothing |
| UnifiedLoss.Neighbours | CNN-Baseline/losses.py:76-77 | the 27 positions the taps read at a voxel |
| UnifiedLoss.TapValues | CNN-Baseline/losses.py:76-77 | the value read under each tap, 0 in the padding |
| UnifiedLoss.Taps | CNN-Baseline/losses.py:76-77 | each of the 27 taps weighs the value it reads |
| UnifiedLoss.ChannelMap | CNN-Baseline/losses.py:76-77 | the response map of one kernel channel over one input channel has one `Response` per voxel, the 27 taps against the zero-padded neighbourhood |
| UnifiedLoss.ChannelResponses | CNN-Baseline/losses.py:76-77 | at one voxel, each channel's response to its own kernel channel |
| UnifiedLoss.SummedMap | CNN-Baseline/losses.py:76-77 | the convolution as written has a single output channel; each voxel's value is the sum of the per-channel responses |
| UnifiedLoss.GroupedMaps | CNN-Baseline/losses.py:76-77 | a convolution with one group per channel gives one edge map per channel |
| UnifiedLoss.TapMatrix | CNN-Baseline/losses.py:76-77 | the taps applied to every channel of a sample at one voxel |
| UnifiedLoss.TapsOfSum | CNN-Baseline/losses.py:76-77 | a tap response is additive in the input |
| UnifiedLoss.TapsOfZero | CNN-Baseline/losses.py:76-77 | the response of an all-zero input is 0 |
| UnifiedLoss.SummedTaps | CNN-Baseline/losses.py:76-77 | when every channel has the same taps, the summed taps are the taps of the channel sum |
| UnifiedLoss.SummedMapOfChannelSums | CNN-Baseline/losses.py:76-77 | with a repeated kernel, the convolution as written sees only `x.sum(1)` |
| UnifiedLoss.SummedBlocks | CNN-Baseline/losses.py:76-77 | sample n's summed edge map is the convolution as written of sample n |
| UnifiedLoss.SummedEdges | CNN-Baseline/losses.py:76-77 | the edges as written have shape (N, 1, X, Y, Z) |
| UnifiedLoss.GroupedBlocks | CNN-Baseline/losses.py:76-77 | sample n's grouped edges are the three per-class edge maps of sample n, in class order |
| UnifiedLoss.GroupedEdges | CNN-Baseline/losses.py:76-77 | the edges with one group per class have shape (N, 3, X, Y, Z) |
| UnifiedLoss.AbsDiff | CNN-Baseline/losses.py:80 | entry i is the absolute difference of the two entries at i |
| UnifiedLoss.L1Loss | CNN-Baseline/losses.py:80 | `F.l1_loss` is non-finite exactly for empty inputs; otherwise it is non-negative, and zero exactly when the two inputs agree |
| UnifiedLoss.MeanAbsDiff | CNN-Baseline/losses.py:80 | the mean absolute difference of non-empty sequences is non-negative, and zero exactly when they are equal |
| UnifiedLoss.EdgeLossAsWritten | CNN-Baseline/losses.py:76-80 | tensors that are not five-dimensional, or of different shapes, are a shape error; otherwise the L1 loss of the summed edge maps |
| UnifiedLoss.EdgeLoss | CNN-Baseline/losses.py:76-80 | the same shape errors; it is non-finite exactly for empty volumes; otherwise it is non-negative, and zero exactly when every class's edge map matches the target's |
| UnifiedLoss.ChannelSumsOneAgree | CNN-Baseline/losses.py:69-77 | two tensors whose channels sum to 1 at every voxel have equal channel sums sample by sample |
| UnifiedLoss.SummedEdgesOfChannelSums | CNN-Baseline/losses.py:76-77 | with a repeated kernel, two volumes whose channel sums agree have identical summed edge maps |
| UnifiedLoss.AsWrittenEdgeLossVanishes | CNN-Baseline/losses.py:69-80 | as written, the edge term between any softmax output and a one-hot target is 0, since both have channel sum 1 at every voxel |
| UnifiedLoss.KernelRepeated | CNN-Baseline/losses.py:40-42 | the kernel repeats one 27-tap Laplacian over the three channels |
| UnifiedLoss.SingleVoxelNeighbour | CNN-Baseline/losses.py:76-77 | in a one-voxel volume only the centre tap reads inside the volume |
| UnifiedLoss.SingleVoxelResponse | CNN-Baseline/losses.py:76-77 | a one-voxel response is the centre tap times the value |
| UnifiedLoss.SingleVoxelGrouped | CNN-Baseline/losses.py:76-77 | one voxel (a, b, c) has the grouped edges [26a, 26b, 26c] |
| UnifiedLoss.SingleVoxelSummed | CNN-Baseline/losses.py:76-77 | as written, one voxel (a, b, c) has the single edge value 26(a + b + c) |
| UnifiedLoss.SingleVoxelEdgeLosses | CNN-Baseline/losses.py:76-80 | for one voxel, the term as written vanishes whenever the channel sums agree, while the grouped term is 26·(sum of the absolute channel differences)/3 |
| UnifiedLoss.EdgeLossExample | CNN-Baseline/losses.py:76-80 | the prediction (0.5, 0.5, 0) of the class (1, 0, 0) costs 0 as written, and 26/3 with one edge map per class |
| UnifiedLoss.Combined | CNN-Baseline/losses.py:76-94 | the corrected composition, with the grouped edge term `EdgeLoss`: defined exactly when the edge, Dice and cross-entropy terms all are; the diagnostics are the three unweighted terms, and the total is their weighted sum |
| UnifiedLoss.CombinedAsWritten | CNN-Baseline/losses.py:76-94 | the composition as written, with the summed edge term `EdgeLossAsWritten`: defined exactly when the three terms all are; the diagnostics are the three unweighted terms, and the total is their weighted sum |
| UnifiedLoss.Compose | CNN-Baseline/losses.py:80-94 | three terms taken in the order edge, Dice, cross entropy: defined exactly when all are, the first failing one decides the error, and the total is the weighted sum `Total` of the diagnostics |
| UnifiedLoss.ComposeSharesParts | CNN-Baseline/losses.py:88-94 | two compositions of the same Dice and cross-entropy terms have equal Dice and cross-entropy diagnostics, and totals that differ by the edge weight times the difference of the edge terms |
| UnifiedLoss.TotalDifference | CNN-Baseline/losses.py:88-92 | totals with the same cross-entropy and Dice terms differ by the edge weight times the difference of the edge terms |
| UnifiedLoss.AsWrittenTotalIgnoresEdges | CNN-Baseline/losses.py:69-94 | as written, with a kernel that repeats one row per channel, a softmax output against a one-hot target over a non-empty volume is defined exactly when the Dice and cross-entropy terms are, has edge term 0, and costs ce_w·ce + dice_w·dice whatever the prediction and the edge weight |
| UnifiedLoss.SourceKernelIgnoresEdges | CNN-Baseline/losses.py:40-94 | the kernel the loss builds is such a kernel, so the loss as written has edge term 0 on every such call |
| UnifiedLoss.ZeroEdgeTotal | CNN-Baseline/losses.py:88-92 | a composition whose edge term is 0 is defined exactly when the other two are, and costs ce_w·ce + dice_w·dice |
| UnifiedLoss.CombinedFirstError | CNN-Baseline/losses.py:76-86 | the first failing term, taken in the order edge, Dice, cross entropy, decides the error |
| UnifiedLoss.TotalWithoutEdge | CNN-Baseline/losses.py:88-92 | `Total` with no edge loss is ce_w·ce + dice_w·dice |
| UnifiedLoss.MatchingEdgesCostNothing | CNN-Baseline/losses.py:80-94 | a prediction whose edge maps match the target's has edge loss 0 and costs ce_w·ce + dice_w·dice |
| UnifiedLoss.UnifiedSegmentationLoss.constructor | CNN-Baseline/losses.py:37-50 | the default weights are 2, 1 and 5; the instance holds the repeated Laplacian kernel, weighted cross entropy with ignore index -100, and the softmax Dice loss with class weights [0.001, 10, 100] |
| UnifiedLoss.UnifiedSegmentationLoss.Forward | CNN-Baseline/losses.py:53-94 | the kernel is reassigned to an equal value, and the result is the corrected composition `Combined`, with the grouped edge term, not the value `CombinedAsWritten` of the code as written |
| LossFactory.Lookup | CNN-Baseline/losses.py:379-390 | a value exactly for the keys present, and that key's value |
| LossFactory.OptionalReals | CNN-Baseline/losses.py:383-390 | an absent key or `None` gives nothing, and a list of numbers gives that list; any other value is a type error |
| LossFactory.OptionalInt | CNN-Baseline/losses.py:381 | an absent key or `None` gives nothing, and an integer gives that integer; any other value is a type error |
| LossFactory.RealOr | CNN-Baseline/losses.py:413-414 | an absent key gives the default, and a number gives its value; any other value is an error |
| LossFactory.RequiredReal | CNN-Baseline/losses.py:439-440 | a missing key raises; a present one is read like `get` |
| LossFactory.NormalizationOr | CNN-Baseline/losses.py:427-430 | an absent key gives sigmoid; a string gives itself; any other value fails the constructors' assertion |
| LossFactory.ParseKind | CNN-Baseline/losses.py:409-443 | a name that selects an entry of the table is that entry's name |
| LossFactory.ParseKindName | CNN-Baseline/losses.py:409-441 | every entry of the table is selected by its own name |
| LossFactory.ParseKindUnknown | CNN-Baseline/losses.py:442-443 | a name selects nothing exactly when it is no entry's name |
| LossFactory.CreateKind | CNN-Baseline/losses.py:410-441 | each entry builds a loss of its own kind, or fails on its configuration |
| LossFactory.CreateLoss | CNN-Baseline/losses.py:409-443 | it raises the unsupported-loss error exactly for an unknown name; a built loss is of the kind its name selects |
| LossFactory.AfterPops | CNN-Baseline/losses.py:379-390 | a missing name pops nothing; a weight that cannot be converted stops the pops before `pos_weight`; otherwise all five keys are removed |
| LossFactory.WrapLayers | CNN-Baseline/losses.py:394-399 | `Wrap`: the skip wrapper is outermost exactly when asked for, with the requested squeeze flag; the masking wrapper is next exactly when an index is given for a loss that does not take one itself, and it uses that index; unwrapping with `BaseLoss` gives the table's loss |
| LossFactory.MissingConfiguration | CNN-Baseline/losses.py:377-379 | `LossCriterion` fails with a configuration error for a missing `loss` section or a missing `name` |
| LossFactory.WrappingRule | CNN-Baseline/losses.py:379-399 | for any successful configuration, the name is an entry of the table; the wrapping rule holds for the configured `ignore_index`, `skip_last_target` and `squeeze_channel`; the innermost loss is `_create_loss` applied to the configuration without the popped keys |
| LossFactory.CrossEntropyIgnoreIndex | CNN-Baseline/losses.py:416-423 | both cross-entropy losses default `ignore_index` to -100, and otherwise keep the configured one |
| LossFactory.UnknownNameRejected | CNN-Baseline/losses.py:442-443 | a name outside the table raises once the shared keys have been read |
| LossFactory.SmoothL1NeedsThresholdAndWeight | CNN-Baseline/losses.py:438-441 | `WeightedSmoothL1Loss` without `threshold` or without `initial_weight` fails |
| LossFactory.PopSequence | CNN-Baseline/losses.py:379-390 | popping the keys one after the other reads each original entry, and leaves the configuration without the popped keys |
| LossFactory.ConfigDict.constructor | CNN-Baseline/losses.py:378 | the dictionary holds the given entries |
| LossFactory.ConfigDict.Pop | CNN-Baseline/losses.py:379-390 | `pop(key, default)` returns the key's value, or nothing when it is absent, and removes the key |
| LossFactory.GetLossCriterion | CNN-Baseline/losses.py:371-404 | a missing `loss` section is a configuration error; otherwise the result is the loss the configuration describes, and the caller's dictionary is left without the popped keys |
| Windows.Profile | CNN-Baseline/utils/evaluation_functions.py:19 | entry x is exp(-(x - w//2)²/(2σ²)) |
| Windows.Normalized | CNN-Baseline/utils/evaluation_functions.py:20 | positive entries divided by their positive total are positive and sum to 1 |
| Windows.Gaussian | CNN-Baseline/utils/evaluation_functions.py:18-20 | it fails exactly for a zero `sigma`; otherwise there are w entries; for w > 0 they are positive, sum to 1, and are each proportional to their exponential |
| Windows.GaussianSymmetric | CNN-Baseline/utils/evaluation_functions.py:18-20 | for an odd size, g[x] = g[w - 1 - x] |
| Windows.Product | CNN-Baseline/utils/evaluation_functions.py:24 | row i of `col.mm(row)` is col[i] times the row |
| Windows.OuterEntries | CNN-Baseline/utils/evaluation_functions.py:24 | entry [i][j] of the plane is g[i]·g[j] |
| Windows.OuterSum | CNN-Baseline/utils/evaluation_functions.py:24 | the entries of the plane sum to (Σg)² |
| Windows.Outer3Sum | CNN-Baseline/utils/evaluation_functions.py:30-31 | the entries of the cube sum to (Σg)³ |
| Windows.CubeRowPlane | CNN-Baseline/utils/evaluation_functions.py:31 | row i of the cube, seen as a w × w plane, is g[i] times the plane |
| Windows.CubeRow | CNN-Baseline/utils/evaluation_functions.py:31 | entry [i][j][k] of the cube is g[i]·g[j]·g[k] |
| Windows.Window2 | CNN-Baseline/utils/evaluation_functions.py:24-25 | one w·w plane per channel |
| Windows.Window3 | CNN-Baseline/utils/evaluation_functions.py:31-32 | one w·w·w cube per channel |
| Windows.CreateWindow | CNN-Baseline/utils/evaluation_functions.py:22-26 | a well-formed (channel, 1, w, w) tensor holding one copy of the plane of the σ = 1.5 profile per channel |
| Windows.CreateWindow3D | CNN-Baseline/utils/evaluation_functions.py:28-33 | a well-formed (channel, 1, w, w, w) tensor holding one copy of the cube of the σ = 1.5 profile per channel |
| Windows.Window2Blocks | CNN-Baseline/utils/evaluation_functions.py:24-25 | every channel of the 2-D window is the plane |
| Windows.Window2Entries | CNN-Baseline/utils/evaluation_functions.py:22-26 | entry [c][0][i][j] is g[i]·g[j] in every channel |
| Windows.Window2Symmetric | CNN-Baseline/utils/evaluation_functions.py:22-26 | the 2-D window is unchanged by swapping i and j |
| Windows.Window2Channels | CNN-Baseline/utils/evaluation_functions.py:22-26 | all channels are the same, and each sums to (Σg)² |
| Windows.Window3Blocks | CNN-Baseline/utils/evaluation_functions.py:31-32 | every channel of the 3-D window is the cube |
| Windows.Window3Entries | CNN-Baseline/utils/evaluation_functions.py:28-33 | entry [c][0][i][j][k] is g[i]·g[j]·g[k] in every channel |
| Windows.Window3Symmetric | CNN-Baseline/utils/evaluation_functions.py:28-33 | the 3-D window is unchanged by any permutation of (i, j, k) |
| Windows.Window3Channels | CNN-Baseline/utils/evaluation_functions.py:28-33 | all channels are the same, and each sums to (Σg)³ |
| Windows.GaussianWindowsSumToOne | CNN-Baseline/utils/evaluation_functions.py:18-33 | for w > 0, every channel of either window sums to 1 |
| Reductions.Sample | CNN-Baseline/utils/evaluation_functions.py:52-55 | sample k has one entry per element of the remaining axes |
| Reductions.MeanAll | CNN-Baseline/utils/evaluation_functions.py:53 | `mean()` is non-finite exactly over no entry; otherwise a zero-dimensional tensor whose value times the count is the total |
| Reductions.MeanAllBounds | CNN-Baseline/utils/evaluation_functions.py:53 | the mean lies between any lower and upper bound of the entries |
| Reductions.ColumnMeans | CNN-Baseline/utils/evaluation_functions.py:55 | the mean over c rows of a block keeps one value per column |
| Reductions.SampleColumnMeans | CNN-Baseline/utils/evaluation_functions.py:55 | the column means of every sample |
| Reductions.MeanDim1 | CNN-Baseline/utils/evaluation_functions.py:55 | `mean(1)` fails exactly when there is no axis 1, which is a shape error, or when an empty axis 1 yields output entries, which are NaN; otherwise it removes axis 1 |
| Reductions.MeanDim1Samples | CNN-Baseline/utils/evaluation_functions.py:55 | sample k of `mean(1)` is the column means of sample k |
| Reductions.ColumnMeansAt | CNN-Baseline/utils/evaluation_functions.py:55 | column j of a block's mean is the mean of that column |
| Reductions.ColumnMeansSum | CNN-Baseline/utils/evaluation_functions.py:55 | the column means sum to the block's total divided by the number of rows |
| Reductions.MeanDim1Entries | CNN-Baseline/utils/evaluation_functions.py:55 | entry [k][j] of `mean(1)` is the mean of x[k][0..c][j] |
| Reductions.MeanDim1SampleSum | CNN-Baseline/utils/evaluation_functions.py:55 | each sample of `mean(1)` sums to the sample's total divided by the averaged extent |
| Reductions.ReduceAsWritten | CNN-Baseline/utils/evaluation_functions.py:55 | three `mean(1)` calls leave shape [N] + the axes after the fourth |
| Reductions.SampleMeans | CNN-Baseline/utils/evaluation_functions.py:52-55 | the per-sample index: no axes is a shape error, and an empty sample is non-finite; otherwise entry k is sample k's total over its size |
| Reductions.ReduceAsWrittenFourDims | CNN-Baseline/utils/evaluation_functions.py:55 | for a four-dimensional map with non-empty axes, the reduction as written is the per-sample mean |
| Reductions.FourDimsShapes | CNN-Baseline/utils/evaluation_functions.py:55 | on a four-dimensional map the three calls go through shapes (N, H, W), (N, W) and (N) |
| Reductions.FourDimsSums | CNN-Baseline/utils/evaluation_functions.py:55 | sample k then reduces to ((Σ/C)/H)/W |
| Reductions.ReduceAsWrittenFiveDims | CNN-Baseline/utils/evaluation_functions.py:75-78 | for a five-dimensional map, the reduction as written keeps the last axis: shape (N, last) |
| Reductions.ReduceAsWrittenKeepsLastAxis | CNN-Baseline/utils/evaluation_functions.py:75-78 | a (1, 1, 1, 1, 2) map reduces to two values as written, but to the single value 0.5 per sample |
| Ssim.SsimPoint | CNN-Baseline/utils/evaluation_functions.py:47-50 | non-finite exactly when σ1² + σ2² = -C2; otherwise value · ((μ1² + μ2² + C1)(σ1² + σ2² + C2)) = (2μ1μ2 + C1)(2σ12 + C2), with C1 = 0.01² and C2 = 0.03² |
| Ssim.SsimPointIdentical | CNN-Baseline/utils/evaluation_functions.py:47-50 | equal means, and variances equal to the covariance, give exactly 1 |
| Ssim.SsimPointSymmetric | CNN-Baseline/utils/evaluation_functions.py:50 | swapping the two images does not change the value |
| Ssim.SsimPointBounded | CNN-Baseline/utils/evaluation_functions.py:47-50 | non-negative variances and a covariance within the Cauchy-Schwarz bound give a defined value in [-1, 1] |
| Ssim.MapPoints | CNN-Baseline/utils/evaluation_functions.py:50 | the map is defined exactly when every point is, and is then the pointwise formula |
| Ssim.SsimMap | CNN-Baseline/utils/evaluation_functions.py:36-50 | images of different shapes fail; a map has the shape of the convolution's output |
| Ssim.SsimMapIdentical | CNN-Baseline/utils/evaluation_functions.py:36-50 | an image compared with itself has similarity 1 everywhere |
| Ssim.SsimMapSymmetric | CNN-Baseline/utils/evaluation_functions.py:36-50 | swapping the two images does not change the map |
| Ssim.SsimIndex | CNN-Baseline/utils/evaluation_functions.py:52-55 | images of different shapes fail; the averaged index is a scalar, otherwise one value per sample |
| Ssim.SsimIndexAsWritten | CNN-Baseline/utils/evaluation_functions.py:52-55 | images of different shapes fail; the averaged index is the intended one |
| Ssim.SsimIndexFourDims | CNN-Baseline/utils/evaluation_functions.py:52-55 | for two-dimensional images the reduction as written is the intended index |
| Ssim.SsimIndexFiveDims | CNN-Baseline/utils/evaluation_functions.py:75-78 | for three-dimensional images the reduction as written has shape (N, last axis) |
| Ssim.SsimIndexIdentical | CNN-Baseline/utils/evaluation_functions.py:35-55 | an image compared with itself has index 1, averaged or per sample |
| Ssim.SampleMeansConst | CNN-Baseline/utils/evaluation_functions.py:52-55 | the samples of a constant map have that constant as their mean |
| Ssim.SsimFunction | CNN-Baseline/utils/evaluation_functions.py:159-167 | an `img1` that is not four-dimensional fails to unpack; otherwise the index with a fresh window of `img1`'s channel count |
| Ssim.Ssim3DFunction | CNN-Baseline/utils/evaluation_functions.py:169-177 | an `img1` that is not five-dimensional fails to unpack; otherwise the corrected index `SsimIndex` with a fresh 3-D window of `img1`'s channel count, one mean per sample when not averaged |
| Ssim.Ssim3DFunctionAsWritten | CNN-Baseline/utils/evaluation_functions.py:169-177 | `ssim3D` as written: an `img1` that is not five-dimensional fails to unpack; otherwise `SsimIndexAsWritten` with a fresh 3-D window |
| Ssim.Ssim3DAsWrittenDiffers | CNN-Baseline/utils/evaluation_functions.py:57-78 | averaged, `ssim3D` as written and the corrected one agree; not averaged, the one as written gives an (N, W) tensor |
| Ssim.SsimModule.constructor | CNN-Baseline/utils/evaluation_functions.py:83-88 | channel 1, float window type, and a (1, 1, w, w) window, with the window size and flag given |
| Ssim.SsimModule.Forward | CNN-Baseline/utils/evaluation_functions.py:90-106 | a matching channel and type leaves the state unchanged; a mismatch rebuilds and caches the window and records the channel and type; either way the result is that of `ssim` |
| Ssim.Ssim3DModule.constructor | CNN-Baseline/utils/evaluation_functions.py:110-115 | channel 1, float window type, and a (1, 1, w, w, w) window |
| Ssim.Ssim3DModule.Forward | CNN-Baseline/utils/evaluation_functions.py:140-156 | the same cache rule, with the 3-D window; the result is that of the corrected `Ssim3DFunction`, not the per-(N, W) reduction of `ssim_3D` as written |

## Left out

- Transcendental functions: sigmoid, softmax and log-softmax, and `exp` in `gaussian`. They are parameters. The pixel-wise cross entropy takes the log-probabilities as given. The Gaussian assumes only an `exp` with positive values.
- The SSIM convolutions `F.conv2d` and `F.conv3d`: a parameter `conv`. Only what follows them is modelled. The Laplacian convolution of the unified loss is modelled explicitly, with zero padding 1.
- `F.cross_entropy` and `nn.BCEWithLogitsLoss` are parameters, or a given value `bce`. `MSELoss`, `SmoothL1Loss` and `L1Loss` appear only as entries the factory builds. `WeightedSmoothL1Loss` takes the elementwise smooth-L1 loss as given.
- Broadcasting is modelled only where the core relies on it: a length-1 Dice weight, a width-1 one-hot, a single input channel. Any other mismatch is `ShapeMismatch`.
- Data types and dtype casts (`.float()`, `.long()`, `type_as`). The window's dtype is a string that the cache compares.
- Device placement (`.cuda()`, `.to(device)`, `is_cuda`), autograd (`detach`, `requires_grad`, `Variable`) and `register_buffer`. They change no values. The kernel's move to the prediction's device is modelled as a reassignment of an equal value.
- `MAE`, `PSNR` and the `__main__` demo of the evaluation file: thin wrappers over library losses and printing.
- Floating-point rounding: arithmetic is exact over `real`. Where torch would produce inf or NaN, the model returns `Err(NonFinite)` instead of propagating the value.
- Configuration values are a small `Value` datatype with Python's truthiness.
- LossFactory.OptionalReals: a scalar `weight` or `pos_weight` is rejected as a type mismatch, although `torch.tensor` would accept a number; only a list of numbers is modelled.
- LossFactory.OptionalInt: an `ignore_index` that is not an integer is rejected as a type mismatch, although the source never checks its type.
- Layout.Flatten: it returns no rows for a tensor without channels, where `view(0, -1)` raises. `PerChannelDice`, `GeneralizedDice` and `ClassWeights` reject that case through `Flattenable` before they flatten.
- PixelWise.PixelWiseCrossEntropyLoss.Forward: it returns the corrected loss `PixelWise.Loss`, not the source's value. The source's value is `PixelWise.LossAsWritten`, which `AsWrittenRejectsIgnoreIndex` and `AsWrittenCounterexample` describe.
- UnifiedLoss.Combined: it uses the grouped edge term `EdgeLoss`, not the source's summed one. `UnifiedLoss.CombinedAsWritten` is the source's composition, and `AsWrittenTotalIgnoresEdges` states its value.
- UnifiedLoss.UnifiedSegmentationLoss.Forward: it returns `Combined`, not the source's value `CombinedAsWritten`. `ComposeSharesParts` states how the two differ.
- Ssim.Ssim3DFunction: without averaging it returns one mean per sample, not the source's (N, W) tensor. `Ssim.Ssim3DFunctionAsWritten` is the source's `ssim3D`, and `Ssim3DAsWrittenDiffers` states how the two differ.
- Ssim.Ssim3DModule.Forward: without averaging it returns the corrected per-sample means, not the (N, W) tensor of `ssim_3D` as written. `Ssim.SsimIndexFiveDims` states the source's shape.
- DiceLosses.DiceLoss.Forward: its own contract states only that errors propagate. Its values are stated by `DiceLossPerfectMatch`, `DiceLossInUnit`, `PerChannelDiceFormula` and `OneMinusMean`.
- DiceLosses.SoftDiceLoss.Forward: its own contract states the shape errors and the non-finite case. Its values are stated by `SoftDiceZeroZero`, `SoftDiceEmptySamples`, `SoftDicePerfectMatch` and `SoftDiceInUnit`.
- DiceLosses.GeneralizedDice: its contract states the shape errors. The generalized formula is stated only as a bound, by `GeneralizedDiceOfRowsInUnit`, and through the per-channel pieces `ClampedVolumes`, `Reciprocals` and `Weigh`.
- Ssim.SsimIndex: its contract states the shapes. Its values are stated by `SsimIndexIdentical`, `SampleMeans` and `MeanAll`.
- Reductions.ReduceAsWritten: its contract states the shape. Its values are stated for four-dimensional maps by `ReduceAsWrittenFourDims`.
- PixelWise.Product, Windows.Window2, Windows.Window3, UnifiedLoss.SummedEdges and UnifiedLoss.GroupedEdges: their contracts state lengths. Their entries are stated by the block lemmas beside them.

## Findings

| source | as written | input that shows it | evidently intended | confidence | as-written member | corrected member |
|---|---|---|---|---|---|---|
| CNN-Baseline/losses.py:313-319 | with an `ignore_index`, `mask` is a bool tensor and `1 - mask.unsqueeze(1)` raises | any call with `ignore_index=-1` that passes the shape assertion | invert the mask with a logical not, so ignored positions are dropped from the loss | not executed | PixelWise.AsWrittenRejectsIgnoreIndex | PixelWise.IgnoredWeightsIrrelevant |
| CNN-Baseline/losses.py:321 | `F.one_hot` without `num_classes` encodes over max + 1 classes, not over the C channels | target [0], two channels with log-probabilities -1 and -2, unit weight: 1.5 instead of 0.5 | encode over the C channels of the input | not executed | PixelWise.AsWrittenCounterexample | PixelWise.IntendedValue |
| CNN-Baseline/losses.py:76-77 | the (1, 3, 3, 3, 3) kernel of lines 40-42 with the default `groups=1` sums the Laplacian over the three channels; softmax outputs and one-hot targets both sum to 1 per voxel, so the edge term is always 0 | one voxel, prediction (0.5, 0.5, 0), target (1, 0, 0): edge loss 0 instead of 26/3 | one edge map per class (`groups=3` with a (3, 1, 3, 3, 3) kernel) | not executed | UnifiedLoss.AsWrittenTotalIgnoresEdges | UnifiedLoss.Combined |
| CNN-Baseline/utils/evaluation_functions.py:75-78 | `ssim_map.mean(1).mean(1).mean(1)` on a five-dimensional map leaves shape (N, last axis) | a (1, 1, 1, 1, 2) map holding [0, 1] gives two values instead of 0.5 | one mean per sample, over all its other axes | not executed | Reductions.ReduceAsWrittenKeepsLastAxis | Reductions.SampleMeans |

The stateful entry points use the corrected members; "## Left out" names each one and the as-written member it sets aside:
- `PixelWiseCrossEntropyLoss.Forward` returns the intended loss `PixelWise.Loss`; the code as written is `PixelWise.LossAsWritten`.
- `UnifiedSegmentationLoss.Forward` returns `UnifiedLoss.Combined`, which has the grouped edge term; the code as written is `UnifiedLoss.CombinedAsWritten`, whose edge term `AsWrittenEdgeLossVanishes` shows to be 0.
- The SSIM functions and modules reduce with `SampleMeans` when `size_average` is false; `ssim3D` as written is `Ssim.Ssim3DFunctionAsWritten`.

The same five-dimensional reduction appears in `SSIM3D.ssim_3D`, at `CNN-Baseline/utils/evaluation_functions.py:135-138`; `Ssim.SsimIndexFiveDims` states it for the SSIM map. For two-dimensional images the reduction as written is correct, as `Ssim.SsimIndexFourDims` states.
