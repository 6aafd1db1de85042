# MultilayerPerceptron in Dafny

This project models MultilayerPerceptron, a small Go engine for neural networks. It models the engine's array and index behaviour, not its numeric results:

- **The layered network.**
  - Construction from a list of layer sizes.
  - The forward pass (`Execute`), including the Elman-recurrent copy of hidden values into spare input slots.
  - The backward pass (`BackPropagate`), with its interleaved updates of deltas and weights.
  - The MLP and Elman epoch drivers.
- **The single-neuron perceptron.** `Predict`, the update rule, the training loop and `Accuracy`.
- **The step transfer function** and the three derivative functions.
- **Label mapping.** `RawExpectedConversion` removes duplicate labels, keeping their first appearance, and writes class indices in place.
- **Data partitioning.** The train/test split and the k-fold split. Also the fold-assembly and accumulation loops of the validation drivers.
- **Utilities.** Linear search, the scalar product with its sentinel, arg-max, string-to-float conversion, and the integer ↔ bit-vector encoding with its round trip.

`float64` is modelled as `real`. The NaN that `0/0` produces is modelled by `Util.Float = Finite(real) | NaN`.

Transfer functions are parameters of type `real -> real`. Random draws are parameters or arbitrary values:

- permutations are constrained by `Validation.IsPermutation`;
- initial weights and biases are chosen by `:|` or `*`;
- the pattern that `ElmanTrain` picks is an arbitrary index in range.

Each Go file maps to one module: `util/util.go` to `Util`, `neural/TransferFunction.go` to `Transfer`, `neural/NeuronUnit.go` to `Neuron`, `neural/NeuralLayer.go` to `Layer`, `neural/Pattern.go` to `Patterns`, `neural/MutiLayerNetwork.go` to `Network` and `validation/validation.go` to `Validation`. In `Network`, the class `MultiLayerNetwork` holds a `layers` field that the passes update in place.

Each imperative operation is a method with loops. It is proved against a specification function or predicate, for example:

- `Forwarded` for `Execute`;
- `BackPropagated` for `BackPropagate`;
- `MLPPass` / `MLPTrained` for `MLPTrain`;
- `Folds` for `KFoldPatternsSplit`.

The lemmas are then stated about those specifications.

## Model

| member | source | states |
|---|---|---|
| Util.FirstIndex | util/util.go:26-33 | The position of the first occurrence of x, or -1 exactly when x does not occur; no earlier position holds x |
| Util.StringInSlice | util/util.go:26-33 | Found exactly when the element occurs in the slice; the index is its first occurrence, -1 when absent |
| Util.StringToFloat | util/util.go:40-61 | Mode 0 keeps the length and puts the default at every unparsable position; any other mode keeps exactly the parsable values, in order |
| Util.ParsedValuesSound | util/util.go:54-58 | Every value kept in the filtering mode is the parse of some input string |
| Util.ParsedValuesAllParsable | util/util.go:54-58 | When every string parses, the filtering mode keeps all of them, position by position |
| Util.ScalarProduct | util/util.go:65-82 | Different lengths give the sentinel -1.0; equal lengths give the sum of a[i]·b[i]; two empty slices give 0 |
| Util.DotZeros | util/util.go:77-81 | Against an all-zero weight vector the scalar product is 0 |
| Util.MaxInSlice | util/util.go:86-96 | mv is max(0, every element); when positive, mi is the first position holding it; otherwise mi is 0 (empty slice included) |
| Util.IsMaxIndexUnique | util/util.go:86-96 | The index MaxInSlice's contract describes is determined uniquely by the slice |
| Util.ConvertIntToBinary | util/util.go:119-135 | The result is IntToBinary(n, d): FormatInt's digits right-aligned in d slots; when they do not fit (lines 123-127), a vector as long as the digits holding only their first d, then zeros |
| Util.IntToBinaryFits | util/util.go:119-135 | For 0 ≤ n < 2^d, except n = d = 0 (where ConvertIntToBinary(0, 0) gives [0.0]), the encoding has length d and is the zero-padded most-significant-bit-first digits of n |
| Util.ConvertBinToInt | util/util.go:138-144 | The result is the sum of trunc(bits[i])·2^(len-1-i); an empty vector gives 0 |
| Util.BinValueLeadingZeros | util/util.go:138-144 | Leading zeros do not change the decoded value |
| Util.BinValueDigits | util/util.go:119-144 | Decoding the digits of n gives n back |
| Util.RoundTrip | util/util.go:119-144 | ConvertBinToInt(ConvertIntToBinary(n, d)) == n for every 0 ≤ n < 2^d |
| Transfer.HeavisideTransfer | neural/TransferFunction.go:9-14 | The output is always 0 or 1, and it is 1 exactly when d ≥ 0 (d = 0 included) |
| Transfer.HeavisideTransferDerivative | neural/TransferFunction.go:16-18 | The derivative is the constant 1 |
| Transfer.SigmoidTransferDerivative | neural/TransferFunction.go:24-26 | The derivative is the constant 1, not s(1 - s) |
| Transfer.HyperbolicTransferDerivative | neural/TransferFunction.go:32-34 | 1 - d² never exceeds 1 |
| Transfer.HyperbolicDerivativeOnActivations | neural/TransferFunction.go:32-34 | On post-activation values in [-1, 1], the derivative lies in [0, 1] |
| Neuron.RandomNeuronInit | neural/NeuronUnit.go:33-51 | The neuron gets exactly dim weights; every other field is arbitrary |
| Neuron.Predict | neural/NeuronUnit.go:112-117 | The prediction is 0 or 1, and it is 1 exactly when the scalar product plus the bias is ≥ 0 |
| Neuron.PredictIsHeaviside | neural/NeuronUnit.go:112-117 | Predict is the step transfer of the weighted sum plus the bias |
| Neuron.UpdateWeights | neural/NeuronUnit.go:55-76 | With err = label - Predict(before): bias += lr·err and w[i] += lr·err·x[i]. Length, rate, value and delta are kept. The second error is measured with the updated neuron. A correct prediction leaves the neuron unchanged and both errors 0 |
| Neuron.UpdatedWhenCorrect | neural/NeuronUnit.go:56-65 | When the prediction already equals the label, the update is the identity |
| Neuron.TrainNeuron | neural/NeuronUnit.go:81-108 | epochs passes of UpdateWeights over the patterns in order, none when epochs ≤ 0. With init 1 it starts from zero weights of the first pattern's width and bias 0; otherwise from the neuron as given. The rate is kept |
| Neuron.TrainFixpoint | neural/NeuronUnit.go:87-107 | A neuron that already classifies every pattern correctly is unchanged by any number of epochs |
| Neuron.CountEqualIsCardinality | neural/NeuronUnit.go:134-140 | The counter equals the number of indices where the two slices agree |
| Neuron.AccuracyScoreBounds | neural/NeuronUnit.go:134-142 | On equal non-empty lengths the percentage is finite, in [0, 100], and 100 exactly when the slices are equal |
| Neuron.AccuracyExample | neural/NeuronUnit.go:121-143 | ([1,0,1,1], [1,1,1,0]) gives (2, 50.0) |
| Neuron.Accuracy | neural/NeuronUnit.go:121-143 | Different lengths give the sentinel (-1, -1.0); equal lengths give 0 ≤ correct ≤ len and the percentage correct/len·100 (NaN for empty slices) |
| Layer.PrepareLayer | neural/NeuralLayer.go:18-32 | Length n and exactly n units, each with exactly prev weights; none when prev = 0 |
| Patterns.DistinctSameLabels | neural/Pattern.go:90-102 | The collected labels are exactly the labels that occur |
| Patterns.DistinctNoDuplicates | neural/Pattern.go:90-102 | No label is collected twice |
| Patterns.DistinctFirstAppearance | neural/Pattern.go:90-102 | Collected labels are ordered by their first appearance in the patterns |
| Patterns.CollectRawLabels | neural/Pattern.go:90-102 | The first loop yields the distinct raw labels in order of first appearance |
| Patterns.AssignClassIndex | neural/Pattern.go:111-117 | Pattern `index` gets as class index the position of its raw label; every other array entry is unchanged |
| Patterns.AssignClassIndices | neural/Pattern.go:111-117 | Every pattern's class index becomes the position of its raw label, with all other fields kept |
| Patterns.RawExpectedConversion | neural/Pattern.go:89-119 | The result has no duplicates, holds exactly the occurring labels in first-appearance order, and is empty for no patterns. Each pattern's class index is its label's position in it. Nothing else in the array changes |
| Network.MultiLayerNetwork.PrepareMLPNet | neural/MutiLayerNetwork.go:36-58 | len(sizes) layers, and layer t has sizes[t] units. Units of layer t ≥ 1 have sizes[t-1] weights, and layer 0's units have none. Rate and transfer pair are stored unchanged |
| Network.PrepareElmanNet | neural/MutiLayerNetwork.go:67-79 | Three well-formed layers of the given sizes: the hidden units have one weight per input unit, the output units one per hidden unit. Rate and transfer pair are stored |
| Network.MultiLayerNetwork.FillInput | neural/MutiLayerNetwork.go:88-94 | Layer 0 holds the features followed by 0.5 in every spare slot, on every call; only values change |
| Network.MultiLayerNetwork.ComputeUnit | neural/MutiLayerNetwork.go:99-110 | Unit j of layer i gets tf(Σ w·prev + bias) from the current values of layer i-1, and nothing else changes |
| Network.WeightedSum | neural/MutiLayerNetwork.go:99-101 | The accumulated sum is Σ weights[k]·inputs[k] over the first n inputs |
| Network.MultiLayerNetwork.ComputeLayer | neural/MutiLayerNetwork.go:97-112 | Every unit of layer i is computed from layer i-1; no weight, bias or delta changes and no other layer is touched |
| Network.MultiLayerNetwork.CopyContext | neural/MutiLayerNetwork.go:113-127 | Input slot F+c receives the current value of hidden unit c, for every context slot; nothing else changes |
| Network.MultiLayerNetwork.ComputeHidden | neural/MutiLayerNetwork.go:97-127 | In Elman mode, hidden unit j is computed from the context as it stood after unit j-1's copy. On return the context holds the final hidden values |
| Network.MultiLayerNetwork.ComputeHiddenUnit | neural/MutiLayerNetwork.go:98-127 | For layer 1 in Elman mode: hidden unit j is computed from the context as it stands, then the context is refreshed; the hidden-loop invariant advances from j to j + 1 |
| Network.MultiLayerNetwork.ForwardLayer | neural/MutiLayerNetwork.go:97-138 | One iteration of the layer loop: the forward-pass invariant advances from layer i to i + 1 (the Elman hidden layer in recurrent mode, a plain layer otherwise) |
| Network.MultiLayerNetwork.Execute | neural/MutiLayerNetwork.go:85-145 | The network after the pass is `Forwarded` from the one before: features and 0.5 fill, every layer computed, the Elman copy in recurrent mode. The output is a new vector of the last layer's length holding its values |
| Network.ForwardedUnique | neural/MutiLayerNetwork.go:85-145 | The forward pass depends only on the parameters, the features and, in Elman mode, the hidden values left before it; two passes from such networks agree |
| Network.ForwardedFromParameters | neural/MutiLayerNetwork.go:88-112 | Outside Elman mode the values a network held before the pass do not matter |
| Network.MultiLayerNetwork.SetOutputDeltas | neural/MutiLayerNetwork.go:160-164 | Output unit j's delta is (expected[j] - out[j])·tfd(out[j]); nothing else changes |
| Network.MultiLayerNetwork.BackSum | neural/MutiLayerNetwork.go:169-172 | The error layer i+1 sends back to unit j of layer i: Σ delta_k·w_k[j] |
| Network.MultiLayerNetwork.SetHiddenDeltas | neural/MutiLayerNetwork.go:167-174 | Every unit of layer i gets BackSum·tfd(value), against layer i+1's weights as they stand before their update |
| Network.MultiLayerNetwork.UpdateUnitWeights | neural/MutiLayerNetwork.go:175-180 | Weight k of the unit grows by lr·delta·value_k for each unit k of the previous layer, and its bias by lr·delta |
| Network.MultiLayerNetwork.UpdateLayerWeights | neural/MutiLayerNetwork.go:175-180 | Every unit of layer t gets its one weight-and-bias update; values and deltas are kept |
| Network.MultiLayerNetwork.BackwardStep | neural/MutiLayerNetwork.go:167-180 | One top-down iteration keeps the invariant: deltas of the layers above are set, and weights of the layers above are updated exactly once |
| Network.MultiLayerNetwork.BackwardPass | neural/MutiLayerNetwork.go:160-181 | The output deltas and then the whole layer loop: afterwards every delta and every weight and bias of the backward pass is set, from the values of the forward pass |
| Network.MultiLayerNetwork.BackwardLayers | neural/MutiLayerNetwork.go:167-181 | The layer loop from the layer below the output down to layer 0 takes the backward invariant from its start to its end |
| Network.MultiLayerNetwork.BackPropagate | neural/MutiLayerNetwork.go:152-187 | The new network is `BackPropagated` from the old one. Values are those of the forward pass, the output and hidden deltas are set, each layer ≥ 1 is updated once, and layer 0's parameters stay. The result is the mean absolute output error |
| Network.BackPropagatedKeepsShape | neural/MutiLayerNetwork.go:152-187 | A backward pass keeps the shape, so every input the network ran on it still runs on |
| Network.BackPropagatedUnique | neural/MutiLayerNetwork.go:152-187 | The backward pass is deterministic: the resulting network is unique |
| Network.BackPropagatedSameValues | neural/MutiLayerNetwork.go:153-159 | Two results of the same backward pass agree on every value |
| Network.BackPropagatedAtTarget | neural/MutiLayerNetwork.go:160-180 | When the forward output already equals the expectation, every delta is 0 and no weight or bias moves |
| Network.DeltaSumZero | neural/MutiLayerNetwork.go:169-172 | With no delta in the next layer no error is sent back |
| Network.MeanAbsErrorZero | neural/MutiLayerNetwork.go:182-185 | The mean error is finite and ≥ 0, and 0 exactly when output equals expectation |
| Network.MeanError | neural/MutiLayerNetwork.go:182-185 | The mean of abs(output[i] - expected[i]); NaN (0/0) for an empty expectation |
| Network.AsWrittenForwardedOptions | neural/MutiLayerNetwork.go:153-158 | As written, forwarding the options fails exactly when there are none, and passes options[0] otherwise |
| Network.AsWrittenMLPTrainCallFails | neural/MutiLayerNetwork.go:198 | MLPTrain's option-less call fails in the code as written |
| Network.ForwardedOptions | neural/MutiLayerNetwork.go:153-158 | The corrected forwarding: options[0] when given, none otherwise; recurrent mode is kept either way |
| Network.ForwardedOptionsAgree | neural/MutiLayerNetwork.go:153-158 | Wherever the code as written does not fail, the correction forwards the same options |
| Network.Passes | neural/MutiLayerNetwork.go:191-212 | The number of passes the epoch loop makes: at least 1 and more than epochs; exactly epochs + 2 when epochs ≥ -1 |
| Network.OneHotIndex | neural/MutiLayerNetwork.go:194-197 | The target has 1.0 exactly at the class index |
| Network.MLPTrainStep | neural/MutiLayerNetwork.go:194-199 | The cleared buffer with 1 at the class index is the one-hot target, and the network is `BackPropagated` towards it without options |
| Network.MLPTrainPass | neural/MutiLayerNetwork.go:193-200 | One pass visits every pattern in order, each step a BackPropagate towards its one-hot target |
| Network.MLPTrain | neural/MutiLayerNetwork.go:189-213 | Passes(epochs) passes, each over every pattern in order and continuing from the previous one; the shape is kept |
| Network.Watched | neural/MutiLayerNetwork.go:223-224 | The monitored pattern is the random pick on every hundredth epoch, and none otherwise |
| Network.ElmanTrainStep | neural/MutiLayerNetwork.go:221-249 | A BackPropagate in Elman mode towards the pattern's multiple expectation, then the monitoring forward pass for the watched pattern |
| Network.ElmanTrainPass | neural/MutiLayerNetwork.go:220-250 | One pass over every pattern in order, as ElmanTrainStep steps |
| Network.ElmanTrain | neural/MutiLayerNetwork.go:216-265 | Passes(epochs) chained passes over every pattern in order; each epoch's pick is in range, and every hundredth epoch monitors it; the shape is kept |
| Validation.Position | validation/validation.go:19-31 | Step m reads position perm[m] when shuffling and m otherwise; always a valid position |
| Validation.PositionsDistinct | validation/validation.go:19-27 | Different steps of a read visit different positions |
| Validation.TrainTestPatternsSplitAsWritten | validation/validation.go:14-41 | As written: unshuffled, train is patterns[:p] and test patterns[p:]; shuffled, train[i] and test[i] are both patterns[perm[i]] |
| Validation.AsWrittenSplitOverlap | validation/validation.go:22-27 | As written, the shuffled training and test sets agree on their first min(p, N - p) patterns: step i of both is patterns[perm[i]] |
| Validation.AsWrittenSplitExample | validation/validation.go:22-27 | Two patterns, pivot 1, identity permutation: as written the split is ([a], [a]); corrected it is ([a], [b]) |
| Validation.ShuffledSplit | validation/validation.go:19-27 | The corrected shuffled split has sizes p and N - p |
| Validation.TrainTestPatternsSplit | validation/validation.go:14-41 | The corrected split. len(train) = p and len(test) = N - p, and together they are the patterns in the order read. Unshuffled that is patterns[:p] / patterns[p:]; shuffled, test reads perm[p + i] |
| Validation.SplitDisjoint | validation/validation.go:19-31 | In the corrected split no position feeds both train and test |
| Validation.QuotRemAreDivMod | validation/validation.go:81-82 | The fold arithmetic's quotient and remainder are Go's / and % on non-negative operands |
| Validation.FoldsCoverAll | validation/validation.go:81-111 | The k fold sizes add up to N |
| Validation.FoldWithin | validation/validation.go:95-111 | Every fold lies within the N positions |
| Validation.FoldSizesBalanced | validation/validation.go:97-100 | Fold sizes are N/k + 1 for the first N%k folds and N/k after, so they differ by at most one, larger first |
| Validation.FillFold | validation/validation.go:103-110 | The inner loop fills the fold with the patterns read at the currSize consecutive steps from foldStart, and advances curr past them |
| Validation.KFoldPatternsSplit | validation/validation.go:80-122 | Exactly k folds, fold f of FoldSize(f) patterns, and the folds are `Folds`: consecutive slices of the patterns in the order read |
| Validation.FoldsPrefix | validation/validation.go:95-111 | The first f folds concatenated are the first FoldStart(f) patterns read |
| Validation.KFoldCover | validation/validation.go:95-111 | The folds concatenated are the patterns in the order read, so every position of perm is used exactly once |
| Validation.KFoldUnshuffled | validation/validation.go:95-111 | Unshuffled, the folds concatenated are the patterns in their original order |
| Validation.FoldElement | validation/validation.go:103-110 | folds[f][i] = patterns[perm[start_f + i]] when shuffling (patterns[start_f + i] otherwise) |
| Validation.FoldFromPatterns | validation/validation.go:103-110 | Every pattern of a fold is one of the patterns |
| Validation.AssembleTrain | validation/validation.go:179-184 | The rebuilt training set is all folds except t, concatenated in ascending order |
| Validation.FoldTrainSize | validation/validation.go:179-184 | Fold t's training set has N - abs(folds[t]) patterns |
| Validation.RoundModelFresh | validation/validation.go:133-135 | TrainNeuron with init 1 resets the neuron, so a round's model does not depend on earlier rounds' training |
| Validation.EvaluateRound | validation/validation.go:133-139 | One round trains a reset neuron on the training set, appends the test expectations and predictions, and scores the accumulated lists |
| Validation.AccumulatedLengths | validation/validation.go:127-139 | actual and predicted always have equal length, the total size of the test sets so far |
| Validation.RoundScoreBounds | validation/validation.go:134-139 | So a round's score is never the length sentinel: a percentage once a test pattern has been seen, NaN before |
| Validation.RoundsActual | validation/validation.go:187-192 | Over any folds, actual after t rounds holds the expectations of the first t folds concatenated |
| Validation.KFoldActual | validation/validation.go:187-192 | In the k-fold drivers actual after t rounds holds the expectations of the first FoldStart(t) patterns read |
| Validation.KFoldTrainable | validation/validation.go:179-186 | With patterns of uniform width and a first fold smaller than the whole, every k-fold round can train |
| Validation.SubsampleRoundOverlap | validation/validation.go:131-137 | Shuffled, each subsampling round as written tests first on patterns it trains on: the first min(p, N - p) steps of its training and test parts coincide |
| Validation.SubsampleTrainable | validation/validation.go:131-137 | With patterns of uniform width and a positive pivot, every subsampling round can train |
| Validation.DriverDone | validation/validation.go:131-150 | When the loop ends, every round has its score and the neuron holds the last round's model |
| Validation.DriverRound | validation/validation.go:131-150 | One driver iteration extends the accumulations and scores by round t and keeps the driver invariant |
| Validation.KFoldValidation | validation/validation.go:173-223 | k scores. Score t is Accuracy over the k-fold rounds accumulated so far, each a percentage. The neuron ends with the last fold's model |
| Validation.KFoldScoresBounded | validation/validation.go:187-192 | With a first fold smaller than the whole, every k-fold score is a percentage |
| Validation.RandomSubsamplingValidation | validation/validation.go:126-169 | One score per drawn permutation, each round split by TrainTestPatternsSplit as written (line 132); Accuracy over the accumulated split rounds (a percentage when pivot < N). The neuron ends with the last round's model |
| Validation.ScoresBounded | validation/validation.go:134-139 | When every test set is non-empty, every round's score is a percentage |
| Validation.AsWrittenTestFromPatterns | validation/validation.go:14-41 | Every test pattern of the split as written is one of the patterns |
| Validation.MLPEvaluateRound | validation/validation.go:232-243 | MLPTrain on all the patterns, then each test pattern run forward and guessed by MaxInSlice. Expectations and guesses are appended |
| Validation.MLPTestRound | validation/validation.go:235-240 | Each test pattern is run forward on the trained parameters and its guessed class appended |
| Validation.MLPProbe | validation/validation.go:237-239 | One test pattern: a forward pass without options, then the arg-max of the output as its class |
| Validation.MLPScoresBounded | validation/validation.go:242-243 | A score over a non-empty accumulation is a percentage |
| Validation.KFoldRoundEnd | validation/validation.go:293-302 | Round s of the k-fold drivers ends in the accumulation where fold s + 1 starts |
| Validation.MLPDriverRound | validation/validation.go:231-243 | One round of an MLP driver (also lines 284-304): the round is recorded as an MLPRound on its test set, the accumulations grow by it, and its score is Accuracy over everything so far |
| Validation.MLPKFoldValidation | validation/validation.go:278-334 | k rounds, chained through the same network. Each trains on all patterns and tests fold t; predicted is all the guesses in order, and every score is a percentage when there is a pattern |
| Validation.MLPRandomSubsamplingValidation | validation/validation.go:226-274 | One chained round per permutation; each trains on all patterns and tests the test part of TrainTestPatternsSplit as written (line 232). Every score is a percentage when pivot < N |

## Left out

- Logging (`logrus`) and the `init` functions are not modelled; they have no effect on results.
- `main.go` is CLI wiring and is not part of this model.
- `LoadPatternsFromCSVFile` is not modelled: it is file I/O through the `encoding/csv` reader.
- Randomness is not modelled: `rand.Seed`, `rand.Perm`, `util.Random`, `GenerateRandomIntWithBinaryDim`, `GenerateRandomBinaryInt` and `CreateRandomPatternArray`. Permutations are parameters, initial values are arbitrary, and ElmanTrain's pick is any index in range.
- `SigmoidTransfer` and `HyperbolicTransfer` are not modelled (transcendental); the network takes its transfer function as a parameter.
- `util.Round` is not modelled (float rounding), and with it ElmanTrain's rounding and logging of the monitored output and `RNNValidation`.
- `TrainTestPatternSplit` (validation/validation.go:46-75) is an identical copy of `TrainTestPatternsSplit` and is modelled by it.
- The float pivot `int(float64(len)*percentage)` is not modelled; the split takes the pivot as a natural number.
- The mean score that the validation drivers compute is only logged and is not modelled.
- Exact float64 arithmetic, overflow and rounding are not modelled: values are reals, sizes are naturals and integers are unbounded.
- Network.ElmanTrain: the monitoring forward pass is modelled, but its output is only logged, so nothing is claimed about it beyond the pass it performs.
- Validation.KFoldValidation, Validation.RandomSubsamplingValidation: they require patterns of uniform width, and a non-empty training set in every round (for k-fold a first fold smaller than the whole; for subsampling a positive pivot unless there are no rounds). The Go code demands neither. An empty training set panics in TrainNeuron, which reads `patterns[0]` (neural/NeuronUnit.go:83). A training pattern narrower than the round's first one makes UpdateWeights read past its features (neural/NeuronUnit.go:61). A wider one does not fail: Predict then gets ScalarProduct's -1.0 sentinel (util/util.go:66-75), and the model does not cover those runs.
- Validation.MLPKFoldValidation, Validation.MLPRandomSubsamplingValidation: they require the network to be trainable on every pattern. As in the source, they train on all patterns rather than on the training set; the training set is assembled and then unused.
- Network.MultiLayerNetwork.BackPropagate, Network.MLPTrainStep, Network.MLPTrainPass, Network.MLPTrain, Validation.MLPEvaluateRound, Validation.MLPDriverRound, Validation.MLPKFoldValidation, Validation.MLPRandomSubsamplingValidation: they run the corrected option forwarding (Network.ForwardedOptions, Findings row 1). The code as written fails at the first BackPropagate without options, so it never completes these runs.
- Neuron.RandomNeuronInit: only the weight length is stated, because the other fields are random.
- Util.MaxInSlice, Neuron.Accuracy: compare reals, so float64 NaN inputs are not modelled.

## Findings

| source | as written | input that shows it | evidently intended | confidence | as-written member | corrected member |
|---|---|---|---|---|---|---|
| neural/MutiLayerNetwork.go:153-158 | Both branches of the options test pass `options[0]` to Execute | MLPTrain's call `BackPropagate(multiLayerPerceptron, &pattern, output)` at line 198 passes no options: the index 0 is out of range | Forward `options[0]` when there is one, and call Execute with no options otherwise | not executed | Network.AsWrittenMLPTrainCallFails | Network.ForwardedOptionsAgree |
| validation/validation.go:25-27 | The shuffled test set reads `patterns[perm[i]]`, from the start of the permutation, like the training set | Patterns [a, b] with a ≠ b, pivot 1 and perm [0, 1] split into train [a] and test [a] | The test set reads `patterns[perm[pivot + i]]`, so train and test partition the patterns | not executed | Validation.AsWrittenSplitExample | Validation.SplitDisjoint |

The subsampling drivers (Validation.RandomSubsamplingValidation, Validation.MLPRandomSubsamplingValidation) call the split as written, as lines 132 and 232 do. Validation.SubsampleRoundOverlap states what that means for their rounds.
