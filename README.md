# Perceptron and back-propagation classifiers, modelled in Dafny

This project models the learning core of a small Java toolkit with two
binary classifiers for tabular data:

- a linear perceptron (`Perceptron.java`), trained by the mistake-driven rule;
- a one-hidden-layer back-propagation network (`BP.java`);
- the data set they both consume (`DataSet.java`).

The data set is a list of feature vectors kept in parallel with a list of
labels, filled line by line from a text file.

Java doubles are modelled as exact `real`s. Three things the Java code calls
but does not define become parameters:

- `Math.exp` is `exp: real -> Positive`.
- `Double.parseDouble` is `parse: string -> Option<real>`.
- `computeAccuracy` is `accuracy: (seq<real>, seq<real>) -> real`.

The shared `java.util.Random` becomes `stream: nat -> Unit`, the sequence of
values `nextDouble` returns, together with a counter `drawn` of how many have
been used. Every Java exception the code can raise becomes a `Failure` or
`Fail` value (module `Outcomes`). The state after a failure is the state the
Java object is left in when the exception propagates.

Files and modules:

- `outcomes.dfy` (`Outcomes`): errors, `Result`, `Outcome`, `Option`.
- `vectors.dfy` (`Vectors`): vectors, matrices, dot products, the update step `w + rate * a * b`.
- `datasets.dfy` (`DataSets`): the token rules of `load`, the `DataSet` class, and the positional hold-out split with labels.
- `perceptron.dfy` (`Perceptrons`): the perceptron's training run as functions, their properties, and the `Perceptron` class proved against them.
- `backprop_spec.dfy` (`BackpropSpec`): the network's forward pass, training step, epoch loop and classification as functions, with their properties.
- `backprop.dfy` (`Backprop`): the `BP` class, with `V` and `W` as two-dimensional arrays updated in place, each method proved against `BackpropSpec`.

On these points the model follows the Java code:

- The back-propagation network raises no error when its epoch budget runs
  out. `BackpropSpec.ExhaustionIsSilent` states this.
- It trains against the raw +1/-1 labels, not against 0/1 targets.
- It has exactly one output unit (`K = 1`), with no one-hot encoding.
- Neither classifier adds a bias input. A bias must be a column of the data.
  The perceptron's weights are as long as the first example.

## Model

| member | source | states |
|---|---|---|
| Vectors.Zeros | Perceptron.java:69 | the initial weights: as many entries as requested, every one 0.0 |
| Perceptrons.Score | Perceptron.java:76-79 | the dot product reads only as many weights as the example has features; if those weights are all zero it is 0 |
| Perceptrons.Mistake | Perceptron.java:80-82 | for a label of +1 or -1, an example causes an update exactly when `classify` would give it the other label or it lies on the boundary (score 0) |
| Perceptrons.Update | Perceptron.java:83-85 | the weight vector keeps its length, and the weights past the example's length are not touched |
| Perceptrons.Predict | Perceptron.java:21-31 | the label is +1 or -1, and +1 exactly when the score is strictly above 0 |
| Perceptrons.Training | Perceptron.java:67-93 | the run starts from, and keeps, one weight per feature of the first example |
| Perceptrons.RunOutcome | Perceptron.java:91-93 | a normal return exactly for a converged run, FailedToConverge exactly for a run that reached maxEpochs, IndexOutOfBounds exactly for a run that read past the data |
| Perceptrons.EpochFrom | Perceptron.java:74-88 | an epoch never changes the number of weights; once an example has caused an update, a completed epoch reports "not converged" |
| Perceptrons.TrainFrom | Perceptron.java:72-93 | a training run never changes the number of weights |
| Perceptrons.Predictions | Perceptron.java:36-40 | one predicted label per example |
| Perceptrons.UpdateMovesScore | Perceptron.java:82-85 | an update moves the score of the example that caused it by eta * label * the squared length of the example |
| Perceptrons.UpdateRaisesMargin | Perceptron.java:80-87 | for a label of +1 or -1, an update raises the example's margin `label * score` by eta * the squared length of the example, so never lowers it when eta >= 0 |
| Perceptrons.CleanEpochIffSeparates | Perceptron.java:72-88 | an epoch makes no update exactly when every example has a label and is strictly on its label's side; such an epoch leaves the weights unchanged |
| Perceptrons.ConvergedSeparates | Perceptron.java:72-93 | on a normal return of `train`, every training example satisfies `label * score > 0` under the final weights |
| Perceptrons.ConvergedReproducesLabels | Perceptron.java:21-93 | with labels of +1 and -1, after a normal return `classify` gives every training example its own label |
| Perceptrons.EpochBudget | Perceptron.java:72-93 | a normal return comes after at least one epoch and before the counter reaches maxEpochs; FailedToConverge comes exactly with the counter at maxEpochs |
| Perceptrons.CleanLastEpochStillFails | Perceptron.java:72-93 | if the last permitted epoch makes no update, `train` still throws FailedToConverge, with the weights unchanged |
| Perceptrons.ConvergedNeedsTwoEpochs | Perceptron.java:69-88 | from zero weights the first example is always a mistake, so a normal return takes at least two epochs |
| Perceptrons.TwoEpochBudgetExample | Perceptron.java:67-93 | one example [1.0] labelled +1, with a budget of two epochs: the second epoch is clean, yet the run ends in FailedToConverge with weights [0.9] |
| Perceptrons.Perceptron.constructor | Perceptron.java:16 | a new perceptron has no weights |
| Perceptrons.Perceptron.ScoreOf | Perceptron.java:76-79 | the dot product of the example with the weights, or IndexOutOfBounds when the example is longer than the weights |
| Perceptrons.Perceptron.Classify | Perceptron.java:21-31 | +1 exactly when the score is strictly above 0, -1 exactly when it is at most 0 (ties give -1); IndexOutOfBounds exactly for an example longer than the weights; the weights are not changed |
| Perceptrons.Perceptron.ClassifyAll | Perceptron.java:35-42 | the accuracy of the predicted labels, in order, against the data set's labels; IndexOutOfBounds if any example is longer than the weights |
| Perceptrons.Perceptron.ApplyUpdate | Perceptron.java:83-85 | weight j, for j below the example's length, becomes `w_j + eta * x_j * label`; every other weight and the length stay |
| Perceptrons.Perceptron.Epoch | Perceptron.java:73-88 | the weights and the "converged" flag after one epoch are those of `EpochFrom`; a missing label or an over-long example throws, leaving the weights as updated so far |
| Perceptrons.Perceptron.Train | Perceptron.java:67-94 | an empty data set throws IndexOutOfBounds with the weights untouched; otherwise the final weights and the outcome (normal, FailedToConverge, IndexOutOfBounds) are those of the run from zero weights |
| Perceptrons.Perceptron.HoldOut | Perceptron.java:45-64 | the split's error, the error of training on the first `SplitPoint` examples, or the accuracy on the remaining examples under the trained weights |
| Perceptrons.Perceptron.SetWeights | Perceptron.java:105-110 | a vector of another length is refused with IllegalArgument and the weights stay; otherwise it becomes the weights |
| Perceptrons.Perceptron.GetWeights | Perceptron.java:112-114 | the current weights |
| DataSets.SkipSpaces | DataSet.java:24 | a suffix of the line whose dropped prefix is all whitespace and which does not start with whitespace |
| DataSets.IsBlank | DataSet.java:21 | a line of whitespace only (the empty line included) is blank after `trim` |
| DataSets.IsSkipped | DataSet.java:21-23 | a line that is kept is non-empty, does not start with `%`, and holds a character that is not whitespace |
| DataSets.Tokens | DataSet.java:24 | "" splits into [""]; a line splits into no token exactly when it is non-empty and all whitespace; the first token is empty exactly when the line starts with whitespace |
| DataSets.TokensAfterFirst | DataSet.java:24 | every token after the first is a non-empty run without whitespace |
| DataSets.WordLength | DataSet.java:24 | the length of the run of non-whitespace characters the string starts with, ending at whitespace or at the end |
| DataSets.Words | DataSet.java:24 | every piece between whitespace runs is non-empty and holds no whitespace |
| DataSets.WordsConcat | DataSet.java:24 | the pieces glued together give exactly the line's non-whitespace characters, in order |
| DataSets.WordsEmptyIff | DataSet.java:24 | a string has no pieces exactly when it is all whitespace |
| DataSets.WordsSingle | DataSet.java:24 | a non-empty string without whitespace is a single piece |
| DataSets.WordsSplitAt | DataSet.java:24 | a whitespace character separates pieces: the pieces of a + [c] + b are those of a, then those of b, so no piece runs across c |
| DataSets.WordsJoin | DataSet.java:24 | splitting non-empty words joined with single spaces gives the words back |
| DataSets.TokensJoin | DataSet.java:24-29 | the tokens of a line of words joined with spaces are exactly those words, so the example has one feature per word but the last |
| DataSets.KeptLineTokens | DataSet.java:21-24 | a kept line splits into at least one token; the first is empty exactly when the line starts with whitespace; every other token is a non-empty run without whitespace; the tokens hold all non-whitespace characters of the line in order |
| DataSets.ParseAll | DataSet.java:26-28 | the values of all tokens, in order and one per token, exactly when every token parses |
| DataSets.ParseLine | DataSet.java:21-29 | a line is skipped exactly when the skip rule holds; a record has one feature per token but the last |
| DataSets.ParseLineSpec | DataSet.java:21-29 | a line is skipped exactly when it starts with `%` or is blank after trimming; a kept record's features are the parsed tokens but the last, in order, and its label is the parsed last token; a kept line is malformed exactly when one of its tokens does not parse |
| DataSets.LeadingWhitespaceAborts | DataSet.java:24-29 | a kept line that starts with whitespace has an empty first token, and since the empty string does not parse, the load aborts on it |
| DataSets.LoadLines | DataSet.java:31-32 | a load appends as many examples as labels |
| DataSets.LoadLinesAppend | DataSet.java:20-33 | lines are processed in file order: loading two pieces of a file is loading the first, then the second unless the first aborted |
| DataSets.LoadCompleteIff | DataSet.java:20-33 | a load runs to the end of the file exactly when no line is malformed |
| DataSets.LoadRecordsKeptLines | DataSet.java:20-33 | a complete load stores one example and one label per kept line, the k-th pair from the k-th kept line |
| DataSets.ParseTokens | DataSet.java:25-28 | the feature loop gives the parsed tokens in order, or stops at the first token that does not parse |
| DataSets.ReadLine | DataSet.java:21-32 | the loop body's treatment of one line agrees with `ParseLine`: skip, record or malformed |
| DataSets.DataSet.constructor | DataSet.java:13-15 | a new data set has no examples and no labels |
| DataSets.DataSet.Add | DataSet.java:10 | appends one example; the labels stay |
| DataSets.DataSet.AddLabel | DataSet.java:47-49 | appends one label; the examples stay |
| DataSets.DataSet.GetLabels | DataSet.java:43-45 | the labels in the order they were appended |
| DataSets.DataSet.Load | DataSet.java:17-34 | appends exactly what `LoadLines` produces to the examples and the labels; a malformed line ends the load with NumberFormat and keeps what earlier lines appended |
| DataSets.SplitPoint | Perceptron.java:47-53 | the number of leading examples that go to training is never more than the data set's size |
| DataSets.TruncateToInt | Perceptron.java:47 | `(int)` of a double truncates toward zero: within one of x, never past it, with x's sign |
| DataSets.TrainSize | Perceptron.java:47 | for p in [0, 1] the requested training size lies between 0 and N |
| DataSets.SplitPointIsFloor | Perceptron.java:47 | for p in [0, 1] the training part holds floor(N * p) examples; p = 1 leaves nothing for testing, p = 0 nothing for training |
| DataSets.HoldOutSplit | Perceptron.java:47-61 | two new data sets: the first SplitPoint examples with their labels in order, and the rest with theirs; their sizes sum to N; a label list shorter than the example list gives IndexOutOfBounds |
| BackpropSpec.Sigmoid | BP.java:102-104 | the activation lies strictly between 0 and 1 |
| BackpropSpec.SigmoidAboveCut | BP.java:102-104 | for an exp that is below 1 exactly on negative arguments, the activation exceeds one half exactly when its argument is positive |
| BackpropSpec.Scale | BP.java:92 | an initial weight lies in [-1, 1) |
| BackpropSpec.DrawRow | BP.java:91-93 | entry i of a row is the scaled generator value number base + i |
| BackpropSpec.DrawMat | BP.java:90-94 | a rows x cols matrix, every entry in [-1, 1) |
| BackpropSpec.InitialNet | BP.java:84-100 | V is J x I and W is K x J, every entry in [-1, 1), drawn V first, row by row |
| BackpropSpec.Hidden | BP.java:106-116 | exactly J hidden activations |
| BackpropSpec.HiddenLayer | BP.java:106-116 | the hidden layer has J values (none for J <= 0); it fails exactly when there is a hidden unit and an input, and the example is too short or V is missing or too small |
| BackpropSpec.OutputNet | BP.java:118-122 | the output's net input fails exactly when there is a hidden unit and h is too short or W is missing, has no row, or has a row 0 shorter than J |
| BackpropSpec.OutputSum | BP.java:118-122 | the net input reads only the first J entries of row 0 of W; if those are all zero it is 0 |
| BackpropSpec.Output | BP.java:118-124 | the output activation lies strictly between 0 and 1; with no hidden unit it is sigmoid(0) |
| BackpropSpec.Predict | BP.java:28-37 | the label is +1 or -1; it is given exactly when the hidden layer and the output's net input are computed without an exception |
| BackpropSpec.OutputLayer | BP.java:118-124 | a successful output activation lies strictly between 0 and 1 |
| BackpropSpec.ForwardOfShaped | BP.java:106-124 | on V of shape J x I and W of shape 1 x J, the forward pass succeeds with the sum formulas, reading only row 0 of W |
| BackpropSpec.ThresholdZeroAlwaysPositive | BP.java:28-37 | thresholding the output activation at 0 labels every example +1 when the forward pass gets through |
| BackpropSpec.ThresholdCutFollowsNetInput | BP.java:28-37 | thresholding the activation at one half labels an example with the sign of the output unit's net input |
| BackpropSpec.Loss | BP.java:67 | an example's share of the epoch error is never negative |
| BackpropSpec.DeltaOut | BP.java:69 | for an output in (0, 1), the output error signal is positive exactly when the raw label y is above the output, and zero exactly when they are equal |
| BackpropSpec.DeltaHidden | BP.java:73 | for a hidden value in (0, 1), the hidden error signal has the sign of W[0][j] * delta_output, and is zero exactly when one of them is |
| BackpropSpec.StepLoss | BP.java:67 | an example's contribution to E is never negative |
| BackpropSpec.HiddenDeltas | BP.java:71-74 | exactly J hidden error signals |
| BackpropSpec.HiddenDeltasNext | BP.java:71-74 | the hidden error signals grow one unit at a time, unit j from h_j and W[0][j] |
| BackpropSpec.UpdateW | BP.java:128-130 | the updated W has the same shape as before |
| BackpropSpec.UpdateV | BP.java:133-137 | the updated V has the same shape as before |
| BackpropSpec.Step | BP.java:60-76 | one example's step keeps V at J x I and W at 1 x J |
| BackpropSpec.StepUnfolds | BP.java:60-76 | the step uses the hidden error signals computed from W before the update, then updates W and V; its error is 0.5 * (y - o)^2 |
| BackpropSpec.EpochFrom | BP.java:58-77 | an epoch keeps the shapes, and the accumulated error never decreases |
| BackpropSpec.EpochsFrom | BP.java:57-81 | the epoch loop keeps the shapes |
| BackpropSpec.BudgetCounts | BP.java:57 | the test `q < maxEpochs` with a double bound holds for exactly the first Budget(maxEpochs) counter values |
| BackpropSpec.Budget | BP.java:57 | the epoch budget is the least count of epochs that reaches maxEpochs: at least maxEpochs, and one fewer would be below it |
| BackpropSpec.After | BP.java:57-81 | the network after k epochs, with the loss test switched off, keeps the shapes |
| BackpropSpec.StoppingRuleFrom | BP.java:57-81 | the stopping rule from any epoch onward (see StoppingRule) |
| BackpropSpec.StoppingRule | BP.java:57-81 | a normal return of `train` has run at most the budget of epochs; every epoch before the last had error at least E_min; if it stopped before the budget, the last epoch's error was below E_min |
| BackpropSpec.ExhaustionFrom | BP.java:57-81 | running out of epochs from any epoch onward (see ExhaustionIsSilent) |
| BackpropSpec.ExhaustionIsSilent | BP.java:57-81 | if no epoch of the budget gets below E_min, training ends normally after all of them, with no exception |
| BackpropSpec.UnlabelledTrainingCrashes | BP.java:59-61 | training on examples without labels throws on label 0 of the first epoch, before any weight changes |
| BackpropSpec.Run | BP.java:51-82 | the trained network has V of shape J x I and W of shape 1 x J |
| BackpropSpec.TrainOutcome | BP.java:51-82 | `train` returns normally exactly when no epoch threw; the only exception is IndexOutOfBounds, and running out of epochs is not one |
| BackpropSpec.PredictAll | BP.java:41-46 | the list succeeds exactly when every example's prediction does, and then holds one prediction per example, the k-th that of example k |
| BackpropSpec.PredictAllZeroCut | BP.java:32-46 | with the threshold at 0, as `classify` has it, every prediction in the list is +1 |
| BackpropSpec.Evaluate | BP.java:41-47 | the accuracy is computed exactly when every example's prediction succeeds |
| BackpropSpec.PredictAllFrom | BP.java:43-46 | the classification loop one example at a time: a failure ends it, a prediction is appended |
| Backprop.BP.constructor | BP.java:20-25 | E_min 0.1, eta 0.9, maxEpochs 50000; no layer sizes and no weights yet |
| Backprop.BP.ComputeHiddenLayerOutput | BP.java:106-116 | the J sigmoids of the sums over the first I inputs, or the exception a short example, a null V or a small V raises |
| Backprop.BP.ComputeOutputLayerOutput | BP.java:118-124 | the sigmoid of the sum over j < J of h_j * W[0][j], or the exception a short h, a null W or a small W raises |
| Backprop.BP.Decide | BP.java:28-37 | the forward pass, then +1 above the threshold and -1 otherwise |
| Backprop.BP.ClassifyAsWritten | BP.java:28-37 | `classify` as written labels every example +1 when the forward pass gets through |
| Backprop.BP.Classify | BP.java:28-37 | `classify` with the threshold at one half: for an exp that behaves like the exponential, the sign of the output unit's net input |
| Backprop.BP.UpdateWeights | BP.java:126-138 | W[0][j] += eta * delta_output * h_j for j < J, and V[j][i] += eta * delta_hidden[j] * x_i for j < J, i < I; shapes are kept and every other entry stays |
| Backprop.BP.UpdateOutputWeights | BP.java:128-130 | W after step 5 is UpdateW of W before it |
| Backprop.BP.UpdateHiddenWeights | BP.java:133-137 | V after step 6 is UpdateV of V before it |
| Backprop.BP.Fill | BP.java:90-99 | the array's entries are the next generator values, scaled to [-1, 1) and taken row by row; the counter advances by rows * cols and no other field changes |
| Backprop.BP.InitializeVW | BP.java:84-100 | new distinct arrays V of shape J x I and W of shape K x J, holding InitialNet from the current generator position; a negative J throws NegativeArraySize before anything changes |
| Backprop.BP.HiddenErrors | BP.java:71-74 | the J hidden error signals, from row 0 of W before the update |
| Backprop.BP.Learn | BP.java:67-76 | after the forward pass, the example's error and the new V and W are those of one training step |
| Backprop.BP.Backpropagate | BP.java:62-76 | one example's step: its error and the updated network, or IndexOutOfBounds with the weights untouched when the example is shorter than I and there are hidden units |
| Backprop.BP.Epoch | BP.java:58-77 | the network and error after one epoch are those of `EpochFrom`; a missing label or a short example throws, leaving the weights as updated so far |
| Backprop.BP.Epochs | BP.java:57-81 | the epoch loop's final network and outcome are those of `EpochsFrom` with the budget maxEpochs allows |
| Backprop.BP.Train | BP.java:51-82 | an empty data set throws before anything changes; otherwise I is the first example's length and K is 1; a negative J throws NegativeArraySize; else new weights are drawn and the final network and outcome are those of `Run` |
| Backprop.BP.ClassifyAll | BP.java:41-48 | the accuracy of the predictions under the threshold `cut`, in order, against the data set's labels, or the first exception; with `cut` 0.0, the code as written, the predictions handed to `computeAccuracy` are +1 for every example |
| Backprop.BP.HoldOut | BP.java:141-156 | with the labels carried into both halves: the split's error, the training error, or the accuracy on the suffix under the trained network and the threshold of one half; E_min, eta, maxEpochs and J stay; V, W and the generator stay when nothing is drawn, and otherwise the generator advances by the J x I + J entries drawn |
| Backprop.BP.HoldOutAsWritten | BP.java:141-156 | as written: with a training prefix and a budget of at least one epoch, `holdOut` throws IndexOutOfBounds after drawing the initial weights; E_min, eta, maxEpochs and J stay, and V, W and the generator change only when the weights are drawn |
| Backprop.BP.SetEmin | BP.java:158-160 | sets E_min; nothing else changes |
| Backprop.BP.SetJ | BP.java:162-164 | sets J, a negative value included; nothing else changes |
| Backprop.BP.SetMaxEpochs | BP.java:166-168 | sets maxEpochs; nothing else changes |
| Backprop.BP.SetEta | BP.java:170-172 | sets eta; nothing else changes |
| Backprop.SplitWithoutLabels | BP.java:142-153 | two new data sets: the first SplitPoint examples and the rest, with no labels in either |

## Left out

- Reading the file: `DataSet.Load` receives the file's lines. Opening and reading the file, and the errors that can raise, are not modelled.
- `Double.parseDouble` is the parameter `parse`. Which strings it accepts is not fixed. `DataSets.LeadingWhitespaceAborts` assumes only that the empty string does not parse.
- Floating point: doubles are exact reals. Rounding, overflow of `Math.exp` to infinity, NaN, and a sigmoid that rounds to exactly 0 or 1 are not modelled. `Math.pow(d, 2)` is `d * d`.
- `Math.exp` is a parameter. Only `BackpropSpec.ThresholdCutFollowsNetInput` and `Backprop.BP.Classify` assume anything about it (`ExpLike`).
- `java.util.Random` is the value sequence `stream` plus the counter `drawn`. The generator's algorithm and seeding are not modelled.
- `computeAccuracy` is not defined in any of the files modelled here. It is the parameter `accuracy`, and its formula is not modelled.
- `toString`, every `main` method, command-line parsing and printing are not modelled.
- `Classifier.java` has no logic of its own. Its abstract methods appear as methods of each class. `FailedToConvergeException.java` is the error value `FailedToConverge`.
- Aliasing: `getWeights`, `setWeights` and `getLabels` pass the Java lists by reference. The model passes sequence values, so a later change made through an alias is not captured.
- Integer width: the back-propagation epoch counter `q` is a Java int compared with a double bound. Its wrap-around for a bound above 2^31 - 1 is not modelled.
- Backprop.BP.UpdateWeights: its `requires` asks for the array shapes that `train` establishes. The exceptions a direct caller with mismatched arrays or lists would provoke are not modelled.
- Backprop.BP.UpdateOutputWeights: requires the shapes `train` establishes, as for UpdateWeights.
- Backprop.BP.UpdateHiddenWeights: requires the shapes `train` establishes, as for UpdateWeights.
- Backprop.BP.HiddenErrors: requires the shapes `train` establishes, as for UpdateWeights.
- Backprop.BP.Learn: requires the shapes `train` establishes, as for UpdateWeights.
- Backprop.BP.Backpropagate: requires the shapes `train` establishes, as for UpdateWeights.
- Backprop.BP.Epoch: requires the shapes `train` establishes, as for UpdateWeights.
- Backprop.BP.Epochs: requires the shapes `train` establishes, as for UpdateWeights.
- Perceptrons.Perceptron.ApplyUpdate: requires an example no longer than the weights. The epoch loop checks this through the dot product before any update.
- Backprop.BP.HoldOutAsWritten: it evaluates the test part with the corrected threshold of one half, not with 0. This keeps the label finding apart from the threshold finding.
- Backprop.BP.HoldOut: it models the corrected hold-out, with labels copied into both halves. `HoldOutAsWritten` models the code as written.

## Findings

| source | as written | input that shows it | evidently intended | confidence | as-written member | corrected member |
|---|---|---|---|---|---|---|
| BP.java:32 | `classify` tests the output activation with `> 0`. The activation is a sigmoid, so it is always positive and every example is labelled +1; `classify(DataSet)` at BP.java:44 therefore hands `computeAccuracy` a list of +1 only (`Backprop.BP.ClassifyAll` with `cut` 0.0) | J = 0 hidden units: the output is sigmoid(0) = 0.5 for every example, so an example labelled -1 is classified +1; any trained network behaves the same | compare the activation with one half, which gives the sign of the output unit's net input | not executed; high | Backprop.BP.ClassifyAsWritten | Backprop.BP.Classify |
| BP.java:146-153 | the hold-out split copies the examples but none of the labels | a data set with examples [1.0] and [2.0], labels +1 and -1, p = 0.5, J = 1 and the default 50000 epochs: `train` reads label 0 of the training part and throws IndexOutOfBounds | copy each example's label along with it, as Perceptron.java:55 and 59 do | not executed; high | Backprop.BP.HoldOutAsWritten | Backprop.BP.HoldOut |
