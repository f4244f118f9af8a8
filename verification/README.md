# EEG classification: layer sizes, multi-model training loop, result table

This project models the bookkeeping core of `HW2/EEG_classification.py`. The script trains two families of EEG classifiers, EEGNet and DeepConvNet, and compares three activation functions for each family. The modelled parts are:

- **Layer-size arithmetic** (`networks.dfy`, module `Networks`).
  - A network is modelled only through the shape each layer gives a single trial. The last stage flattens each trial with `view(-1, in_features)`.
  - EEGNet hard-codes 736 input features for its linear layer. The model proves that 736 is what a trial of 1 x 2 x 750 really becomes (32 x 1 x 23).
  - DeepConvNet sizes its linear layer with the fold `round((x - 4) / 2)`, where `round` is Python's round-half-to-even. The fold is applied once per list element, starting from 750.
  - The model proves when this fold agrees with what the convolutions and pools really do, which is `floor((x - 4) / 2)`. It also proves that the two disagree for a five-stage network (see Findings).
- **`runModels`** (`training.dfy`, module `Training`).
  - Several models are trained in lockstep over the same unshuffled batches.
  - Each epoch ends with an evaluation on the whole test set as a single batch.
  - Each epoch appends one percentage per model to that model's `_train` curve and its `_test` curve.
  - A model is opaque, a `Net`. It has a state, a prediction function, a training-mode forward pass (batch-norm statistics) and an optimizer step.
  - Each inner loop of the source is a method, proved against a per-model reference function (`TrainOn`, `TrainPass`, `TestCount`, `Run`).
  - A ghost trace records the order of `zero_grad`, forward/backward and `step` calls.
- **`AccuracyResult`** (`results.dfy`, module `Results`).
  - The table maps a family name to a row of three cells: ReLU, Leaky ReLU, ELU.
  - `add` keeps in each cell the best test accuracy seen so far.
  - `add` also builds the chart's file name. `show` builds its label from the hyper-parameters.

`wrappers.dfy` holds the `Option` and `Result` types shared by the modules.

## Model

| member | source | states |
|---|---|---|
| Networks.RoundHalfEven | HW2/EEG_classification.py:94 | `round` returns an integer within 1/2 of its argument, and breaks ties to the even neighbour |
| Networks.RoundHalfEvenUnique | HW2/EEG_classification.py:94 | these two properties determine `round`'s result uniquely |
| Networks.StepVsFloor | HW2/EEG_classification.py:77-94 | `round((x-4)/2)` equals the real per-stage shrink `floor((x-4)/2)`, except when `x-4` is 3 modulo 4; then it is larger by one |
| Networks.StepExact | HW2/EEG_classification.py:94 | when `x-4` is even, `round((x-4)/2)` is its exact half |
| Networks.StepTieDown | HW2/EEG_classification.py:94 | when `x-4` is odd and its floored half is even, the tie rounds down to the floored half |
| Networks.StepTieUp | HW2/EEG_classification.py:94 | when `x-4` is odd and its floored half is odd, the tie rounds up to one more than the floored half |
| Networks.ReduceIsIterate | HW2/EEG_classification.py:94 | `reduce` over `deepconv` ignores the elements and applies the step `len(deepconv)` times |
| Networks.FlattenSize | HW2/EEG_classification.py:94 | the flatten size is `deepconv[-1]` times the step applied `len(deepconv)` times from 750; an empty list raises IndexError |
| Networks.FlattenSizeLengthAndLast | HW2/EEG_classification.py:94 | the flatten size depends only on the list's length and its last element |
| Networks.CorrectedFlattenSizeIsShape | HW2/EEG_classification.py:76-102 | for positive widths whose stages fit, the floor-based size is exactly the number of values a trial has when it leaves the feature layers |
| Networks.IterateMatchesFloor | HW2/EEG_classification.py:76-94 | if no stage hits a tie that `round` breaks upwards, the fold as written equals the real time length |
| Networks.IterateAtLeastFloor | HW2/EEG_classification.py:76-94 | after any number of stages, the fold as written is never below the real time length |
| Networks.FirstTieDiverges | HW2/EEG_classification.py:76-94 | if no earlier stage rounded a tie upwards and stage k+1 is entered with `x-4` equal to 3 modulo 4, the fold is exactly one ahead of the real length after that stage |
| Networks.TieThenRejoin | HW2/EEG_classification.py:94 | a divergence need not last: from 47 the first stage rounds up (22 against 21), yet both folds reach 2 after three stages, and all three stages fit their kernels |
| Networks.DefaultFlattenSize | HW2/EEG_classification.py:69-94 | for `[25, 50, 100, 200]` the fold visits 373, 184, 90 and 43; it equals the floor fold at every stage and gives 8600 |
| Networks.WindowCount | HW2/EEG_classification.py:35-49 | the number of positions a kernel takes along a padded axis; it is undefined exactly when the kernel does not fit |
| Networks.WindowCountSpan | HW2/EEG_classification.py:35-49 | the count is the number of whole strides that fit: the last window starts inside the padded axis, and one more would not |
| Networks.ForwardAppend | HW2/EEG_classification.py:57-60 | running two stacks of layers in sequence is running their concatenation |
| Networks.View | HW2/EEG_classification.py:62 | `view(-1, n)` succeeds exactly when n divides the element count, and gives count / n rows |
| Networks.ForwardKeepsBatch | HW2/EEG_classification.py:100-105 | a batch passes the flatten step intact if and only if each trial flattens to exactly `in_features` values |
| Networks.FirstConvShape | HW2/EEG_classification.py:34-37 | `firstconv` turns a 1 x 2 x 750 trial into 16 x 2 x 750 |
| Networks.DepthwiseConvShape | HW2/EEG_classification.py:38-44 | `depthwiseConv` folds the two electrodes into one row and pools 750 samples down to 187 (32 x 1 x 187) |
| Networks.SeparableConvShape | HW2/EEG_classification.py:45-51 | `separableConv` keeps 187 samples through its padded convolution and pools them down to 23 (32 x 1 x 23) |
| Networks.EEGNetHead | HW2/EEG_classification.py:34-51 | EEGNet's feature layers turn a 1 x 2 x 750 trial into 32 x 1 x 23 |
| Networks.EEGNetFlatten | HW2/EEG_classification.py:53-62 | 32 x 1 x 23 = 736, the hard-coded `in_features`, so every batch keeps its size through `forward` |
| Networks.DeepConvNet | HW2/EEG_classification.py:68-97 | the constructor as written raises IndexError on an empty list, fails when a width is negative or the flatten size is negative, and otherwise sizes the linear layer by `FlattenSize` |
| Networks.LongFoldNegative | HW2/EEG_classification.py:94 | from the eighth stage on, the fold from 750 stays between -4 and -1 |
| Networks.ManyStagesRejected | HW2/EEG_classification.py:94-97 | a DeepConvNet of eight or more positive widths cannot be built: `nn.Linear` gets a negative size |
| Networks.TimeConv | HW2/EEG_classification.py:87 | a width-5 convolution without padding shortens the time axis by 4 and keeps the height |
| Networks.SpatialConv | HW2/EEG_classification.py:78 | the height-2 convolution turns two electrode rows into one |
| Networks.HalvingPool | HW2/EEG_classification.py:90 | the width-2 max pool halves the time length, rounding down |
| Networks.PoolBlockShape | HW2/EEG_classification.py:88-91 | batch norm, activation, pool and dropout together halve the time length, rounding down |
| Networks.FirstStageShape | HW2/EEG_classification.py:76-83 | `conv0` turns 1 x 2 x x into width x 1 x floor((x-4)/2) |
| Networks.LaterStageShape | HW2/EEG_classification.py:85-92 | `conv<idx>` turns in x 1 x x into out x 1 x floor((x-4)/2) |
| Networks.LaterStagesShape | HW2/EEG_classification.py:85-92 | the later stages together apply the floor step once per stage |
| Networks.DeepConvNetShape | HW2/EEG_classification.py:100-102 | a trial leaves the feature layers with the last width in channels, one row, and the floor fold of 750 as its time length |
| Networks.CorrectedDeepConvNetForward | HW2/EEG_classification.py:100-105 | with the corrected size, any batch passes `forward` intact, for every list of positive widths whose stages fit |
| Networks.DeepConvNetAgrees | HW2/EEG_classification.py:94 | the constructor as written equals the corrected one whenever no tie is rounded up |
| Networks.DefaultDeepConvNetForward | HW2/EEG_classification.py:69-105 | the default DeepConvNet keeps every batch intact |
| Networks.FiveStageFlattenMismatch | HW2/EEG_classification.py:94-104 | for `[25, 50, 100, 200, 400]` the layer expects 8000 features but trials give 7600; one trial fails in `view`, 20 trials come out as 19 rows, and the corrected net keeps 20 |
| Training.Batches | HW2/EEG_classification.py:164 | every batch of an unshuffled loader holds between 1 and `batch_size` samples |
| Training.BatchesCover | HW2/EEG_classification.py:164 | the batches, concatenated, are the dataset, each sample once and in order |
| Training.TestLoaderIsOneBatch | HW2/EEG_classification.py:165 | the test loader yields the whole test set as a single batch |
| Training.Hits | HW2/EEG_classification.py:197 | a batch's hit count never exceeds the number of samples counted |
| Training.CountCorrect | HW2/EEG_classification.py:214 | a batch's correct count is at most its size |
| Training.PercentRange | HW2/EEG_classification.py:216-220 | `correct * 100.0 / N` times N gives `correct * 100`; it is non-negative, and at most 100 when correct <= N |
| Training.TrainOn | HW2/EEG_classification.py:184-200 | one training batch for one model counts at most the batch's size |
| Training.TrainPass | HW2/EEG_classification.py:184-200 | a training pass counts at most as many hits as the batches hold samples |
| Training.TestCount | HW2/EEG_classification.py:205-214 | a test pass counts at most as many hits as the batches hold samples |
| Training.Run | HW2/EEG_classification.py:176-220 | after `epochs` epochs, each of a model's two curves has exactly `epochs` entries |
| Training.RunBounds | HW2/EEG_classification.py:184-220 | every entry of every curve lies in [0, 100] |
| Training.RunExtends | HW2/EEG_classification.py:216-220 | one more epoch appends one entry to each curve and keeps the earlier entries |
| Training.ZeroGradFirst | HW2/EEG_classification.py:189-200 | within a batch, every optimizer is zeroed before any model runs |
| Training.StepLast | HW2/EEG_classification.py:189-200 | within a batch, every optimizer steps after every model has run |
| Training.SameInputs | HW2/EEG_classification.py:192-193 | within a batch, every model runs on the same inputs |
| Training.OncePerModel | HW2/EEG_classification.py:189-200 | within a batch, each model's optimizer is zeroed once, the model runs once and its optimizer steps once |
| Training.CurveNamesCover | HW2/EEG_classification.py:167-170 | every model key has both a `_train` and a `_test` curve |
| Training.CurveNamesOnly | HW2/EEG_classification.py:167-170 | every curve name is some model key plus `_train` or `_test` |
| Training.CurveNamesDistinct | HW2/EEG_classification.py:167-170 | curve names never collide: a `_train` name is never a `_test` name, and distinct keys give distinct names |
| Training.EmptyCurves | HW2/EEG_classification.py:167-170 | the initial map has exactly the curve names as keys, and every curve empty |
| Training.SetModes | HW2/EEG_classification.py:181-182 | after `train()` / `eval()` on every model, every model is in the requested mode |
| Training.ZeroGrads | HW2/EEG_classification.py:189-190 | every model's accumulated gradients are cleared, with one `zero_grad` call per model in order |
| Training.ForwardEach | HW2/EEG_classification.py:192-197 | each model runs once on the batch and adds this batch to its own gradients; its hits are added to its own count, from its own state; the calls are forward then backward, model by model |
| Training.StepEach | HW2/EEG_classification.py:199-200 | each optimizer updates its own model from that model's gradients only, one `step` per model in order |
| Training.TrainBatch | HW2/EEG_classification.py:184-200 | each model ends a batch where `TrainOn` puts it, its step having seen only this batch's gradients, and the calls follow zero / forward-backward / step |
| Training.TrainLoader | HW2/EEG_classification.py:184-200 | after the training loader, each model's state and hit count are those of `TrainPass` over all batches in order; each model's gradients are exactly the last batch's (unchanged when there are no batches) |
| Training.Evaluate | HW2/EEG_classification.py:203-214 | each model's test count is `TestCount` over the test loader; no model changes |
| Training.Record | HW2/EEG_classification.py:216-220 | each model's curve with the given suffix gets its percentage appended; every other curve, including any curve not named after a model, and the key set are unchanged |
| Training.RecordEpoch | HW2/EEG_classification.py:216-220 | each model's train curve gets its train percentage and its test curve its test percentage; every curve not named after a model and the key set are unchanged |
| Training.Epoch | HW2/EEG_classification.py:176-220 | one epoch leaves every model in eval mode, with the state of its own training pass, and appends its own train and test percentage to its curves; curves not named after a model are unchanged, and each model's gradients hold just the last training batch |
| Training.RunModels | HW2/EEG_classification.py:163-225 | the errors raised for a bad batch size, an empty test set, or an empty training set when there is at least one model and one epoch (with no models nothing is divided and the result is empty); otherwise the curve names are exactly the model keys with `_train` and `_test`, and every curve and final state is the one `Run` gives that model alone; every model first gets a new optimizer (`reset`), so each run starts with fresh optimizer moments |
| Results.Key | HW2/EEG_classification.py:113-125 | the ReLU, Leaky ReLU and ELU columns read `relu_test`, `leaky_relu_test` and `elu_test` |
| Results.Max | HW2/EEG_classification.py:126 | `max` of a non-empty curve is one of its entries and is at least every entry |
| Results.Best | HW2/EEG_classification.py:125-128 | a cell offered a curve becomes the larger of itself and the curve's maximum; an empty curve leaves it unchanged |
| Results.BestIdempotent | HW2/EEG_classification.py:125-128 | offering a curve twice equals offering it once |
| Results.BestCommutes | HW2/EEG_classification.py:125-128 | two curves may be offered in either order |
| Results.Combine | HW2/EEG_classification.py:121-133 | a row succeeds if and only if every column's test curve exists; otherwise the KeyError names the first missing one. A result cell is at least the old cell and every curve entry, and equals one of them |
| Results.CombineRow | HW2/EEG_classification.py:124-131 | the column loop computes `Combine`, and the row keeps its three cells (the length check cannot fire) |
| Results.AddRow | HW2/EEG_classification.py:120-133 | `add` fails exactly when a test curve is missing. On success the named row becomes `Combine` of its old row (or a fresh row of zeros) and the curves; every other row stays as it was, and every row keeps three cells |
| Results.AddIdempotent | HW2/EEG_classification.py:120-133 | adding the same curves twice gives the table of adding them once |
| Results.CombineCommutes | HW2/EEG_classification.py:124-128 | a row offered two sets of curves is the same in either order |
| Results.AddCommutes | HW2/EEG_classification.py:120-133 | two runs of one family may be added in either order |
| Results.AddMonotone | HW2/EEG_classification.py:121-128 | no cell ever decreases, and a new family's row starts from 0.0 |
| Results.AddKeepsPercentages | HW2/EEG_classification.py:121-133 | when every curve holds percentages in [0, 100], every cell does too |
| Results.RunModelsFeedsAdd | HW2/EEG_classification.py:236-247 | the curves that `runModels` returns for models named relu, leaky_relu and elu always contain the three test curves, so the script's `add` never raises |
| Results.TerminatedJoin | HW2/EEG_classification.py:146-149 | each entry followed by ", " is the entries joined by ", " plus one trailing ", " |
| Results.DropLastTwo | HW2/EEG_classification.py:149 | `s[:-2]` drops the last two characters, and gives the empty string for shorter strings |
| Results.ChartFileName | HW2/EEG_classification.py:146-150 | the file name is the family name, then `_` and the `k=v` entries joined by ", ", then `.png`; with no parameters it is the family name plus `.png` |
| Results.SavePathSameFile | HW2/EEG_classification.py:150 | joining `.` in front of the chart's name does not change which file it names, from any working directory |
| Results.SavePathEndsWithName | HW2/EEG_classification.py:150 | the saved path ends with the chart's name, and a relative name gains exactly the prefix `./` |
| Results.ShowLabel | HW2/EEG_classification.py:155-158 | the label is the `k: v` entries joined by ", ", and empty with no parameters |
| Results.AccuracyResult.constructor | HW2/EEG_classification.py:111-117 | the table starts with no rows |
| Results.AccuracyResult.Add | HW2/EEG_classification.py:120-150 | the table becomes `AddRow` of the old table; a new family is appended to the row order; the result is the chart path. On a KeyError nothing changes |
| Results.AccuracyResult.Show | HW2/EEG_classification.py:154-160 | the label, then every row with its cells, in the order the rows were first added |

## Left out

- Tensor numerics are opaque functions of a model state: convolution, batch-norm and pooling values, cross-entropy, `backward`, Adam, and the learning rate. This covers `predict` (batch-dependent in training mode), `track` (batch-norm running statistics) and `step`. Dropout's randomness is inside them too.
- Floating point is not modelled. Percentages are exact reals. `(x - 4) / 2` inside `round` is taken as exact, which holds for every width that occurs. The hit counters, floats in the source, are natural numbers.
- Dataset loading (`gen_dataset`, `read_bci_data`) is not part of this model. The datasets are parameters.
- Device selection, `.to(device)`, `torch.no_grad` and `torch.cuda.empty_cache` are left out. They do not change what is computed.
- Drawing and saving the chart is left out, and so is printing in `show`. The model computes the chart's path, the label and the rows `show` prints.
- `str()` of the parameter values is not modelled. Parameters are (name, already-rendered value) pairs, in dict order.
- Training.RunModels: the models dictionary and the optimizers are not modelled as objects trained in place. The model uses a sequence of model states aligned with the sequence of keys (dict order) and returns the final states. The curve map is a value threaded through the loops. Updates in place and aliasing, such as one model object under two keys, are not captured.
- Training.RunModels: torch's single global random stream is not modelled. In the source every model's dropout draws from it, so what one model draws in a batch depends on the draws of the models before it; the model's per-model independence (each curve is the one `Run` gives that model alone) is an idealisation that holds only if each model's forward pass is deterministic given its state.
- Training.RunModels: with no models and an empty training set, the model skips the epochs instead of running them; each would iterate an empty loader and two empty dictionaries and change nothing.
- Training.RunModels: the returned states still hold the optimizer that was built for the call. In the source that optimizer is dropped on return and the caller's objects keep only parameters and buffers. Every later call starts with `reset`, so the leftover optimizer state never affects a later run.
- Training.RunModels: the hyper-parameters the source passes to the optimizer and the loss (`learning_rate`, `optimizer`, `criterion`) are part of the opaque `step`.
- Results.AccuracyResult.Add: on a KeyError the model leaves the table unchanged. For an existing row, the source edits `df.loc[modelName]` cell by cell. If pandas returns a view there, cells updated before the failing column could already be written; the model does not capture this.
- Networks.DeepConvNet: torch's construction-time errors are collapsed into one `DimensionError` for a negative width or flatten size. A width of 0, which torch accepts with a warning, is accepted; such a network fails later in `ForwardRows`.
- Networks.DeepConvNetShape: shapes are proved only for lists of positive widths whose every stage still fits its kernel. Other lists fail inside the tensor library, and `Forward` models that only as `ShapeError`.
- The `__main__` script (`HW2/EEG_classification.py:228-264`) is covered only by `Results.RunModelsFeedsAdd`.

## Findings

| source | as written | input that shows it | evidently intended | confidence | as-written member | corrected member |
|---|---|---|---|---|---|---|
| HW2/EEG_classification.py:94 | the linear layer is sized with `round((x-4)/2)` per stage, rounding half to even | `deepconv=[25, 50, 100, 200, 400]`: the fifth stage gets 43, `round(39/2) = 20` but the pool leaves 19, so the layer expects 8000 features while trials give 7600; one trial fails in `view`, 20 trials become 19 rows | size the layer with the real shrink `floor((x-4)/2)` (equal to the fold for the default widths) | not executed | Networks.FiveStageFlattenMismatch | Networks.CorrectedDeepConvNetForward |
