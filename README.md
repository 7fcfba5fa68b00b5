# seqtasks, task layer — a Dafny model

`seqtasks` is a set of synthetic sequence-to-sequence benchmark tasks for
recurrent networks. Each task draws random samples: an input sequence of
vectors, and a target sequence of the same length. Each task also scores a
model by running it on fresh batches. This project models these parts:

- **The sample generators** of the addition, repeat, match-open,
  match-multi, random-recall, XOR-last and MNIST tasks.
- **The shared scorer** `roundedBinaryTailScore`. It rounds each model
  output to 0 or 1, skips a prefix that a task-specific tail finder
  locates, and counts the matches.
- **The MNIST classifier score** and its `maxIdx`.

The random draws of each generator are explicit parameters: the operand
digits, the string and gap lengths, the permutation and close count, the
coin flips, the marked index and the picked images. A `ValidDraw` predicate
bounds each draw to the range that `math/rand` can return. The model is
`Run`, a function parameter from a batch of input sequences to a batch of
output sequences.

Modules:

- `Vectors`: vectors, samples, one-hot encoding and its decoder.
- `Tails`: the marker scans the tasks pass to the scorer.
- `Scoring`: `roundedBinaryTailScore` and `roundedBinaryScore`.
- One module per task file: `Addition`, `Repeat`, `MatchOpen`,
  `MatchMulti`, `RandomRecall`, `XorLast` and `Mnist`.

Each generator has two parts:

- A declarative specification function, such as `AdditionSample`.
- Imperative methods that follow the Go loops. Each is proved equal to that
  function, and the properties are lemmas about the function.

The scorer is specified the same way, by `ScoreResult`, over the batches
each task draws. A tail finder's panic becomes an `Err` result, and so does
every index-out-of-range panic of the scorer: a tail past the end of the
expected or of the model's sequence, or a model output with fewer lanes,
timesteps or components than the scorer reads. The MNIST task's own
`Score` is modelled the same way, by `Mnist.ScoreResult`.

## Model

| member | source | states |
|---|---|---|
| Vectors.DecodeEncode | addition.go:49-51 | decoding each one-hot vector (first component equal to 1) gives back the symbol that was encoded |
| Vectors.HotIndexOfOneHot | addition.go:49-50 | the hot index of a vector one-hot at k is k |
| Tails.FirstMarked | repeat.go:78-83 | the index found is marked and no earlier vector is; None means no vector is marked |
| Tails.SecondMarked | addition.go:82-91 | the index found is marked; None means no two vectors are marked |
| Tails.FirstMarkedAt | repeat.go:78-83 | a marked vector with none marked before it is the one the scan finds |
| Tails.SecondMarkedAt | addition.go:82-91 | with markers at i < k and none elsewhere before k, the tail is k + 1 |
| Tails.FirstMarkTail | repeat.go:77-84 | the tail is the first marked index plus the offset; None exactly when no vector is marked |
| Tails.SecondMarkTail | addition.go:81-92 | the tail is just after a marked vector with exactly one marked vector before it; None exactly when fewer than two vectors are marked |
| Tails.FindFirstMark | repeat.go:78-83 | the scan returns the first marked index plus the offset (1 in repeat, match_open and match_multi, 0 in random_recall), or None where the source panics |
| Tails.FindSecondMark | addition.go:82-91 | the `seenBefore` scan returns the index just after the second marked vector, or None where the source panics |
| Scoring.Truncate | score_util.go:40 | Go's `int(...)` conversion truncates toward zero: the floor for non-negative values, the ceiling for negative ones |
| Scoring.RoundBit | score_util.go:40-45 | the rounded value `int(x + 0.5)`, clamped, is always 0 or 1, and it is 1 exactly when x >= 0.5 |
| Scoring.VecCorrect | score_util.go:39-49 | the matches within one vector are at most its width |
| Scoring.StepsCorrect | score_util.go:37-49 | the matches over a run of timesteps are at most the components counted |
| Scoring.LaneCounts | score_util.go:34-49 | one lane adds at most as many correct as outputs, and only timesteps from the tail on are counted |
| Scoring.LanesResult | score_util.go:34-52 | when no lane fails, a batch's correct count is at most its output count |
| Scoring.ScoreResult | score_util.go:24-53 | when no lane fails, the totals keep correct <= total |
| Scoring.Fraction | score_util.go:54 | with outputs counted, the score lies in [0, 1]; it is 1 exactly when all are correct and 0 exactly when none are |
| Scoring.CountTail | score_util.go:36-51 | slicing the tail and the nested component loop yield exactly the lane's counts from the tail on, or OutOfRange when a slice or an index of lines 36-39 is out of range |
| Scoring.CollectBatch | score_util.go:26-32 | the loop collects each sample's inputs and expected outputs, in order |
| Scoring.ScoreLanes | score_util.go:34-52 | the lane loop returns the batch's counts, or the first lane's failure: no tail found, a missing lane, or a short output |
| Scoring.RoundedBinaryTailScore | score_util.go:20-55 | batchCount batches of batchSize samples, each run through the model once, give exactly the specified totals or the first failure, whatever the model returns |
| Scoring.RoundedBinaryScore | score_util.go:10-14 | as written: batchSize batches of batchSize samples; it fails exactly when the model's output does not cover a batch; with n targets of width w per sample it counts batchSize * batchSize * n * w outputs |
| Scoring.RoundedBinaryScoreIntended | score_util.go:10-14 | batchCount batches of batchSize samples; it fails exactly when the model's output does not cover a batch; with n targets of width w per sample it counts batchCount * batchSize * n * w outputs |
| Scoring.WrittenTotalIgnoresBatchCount | score_util.go:11 | as written, the total differs from the batchCount * batchSize * n * w outputs asked for whenever batchCount != batchSize |
| Scoring.WholeSequenceOk | score_util.go:11-13 | with tail 0 the score fails exactly when some batch's model output lacks a lane, a timestep or a component |
| Scoring.WholeSequenceLanes | score_util.go:11-13 | with tail 0 a batch fails exactly when the model's output does not cover every lane |
| Scoring.WholeSequenceLanesTotal | score_util.go:34-49 | with tail 0 and n targets of width w per lane, a batch of k lanes counts k * n * w outputs |
| Scoring.WholeSequenceTotal | score_util.go:24-49 | with tail 0 and uniform batches of m samples, b batches count b * m * n * w outputs |
| Scoring.PreTailNeverRead | score_util.go:36-38 | model outputs that agree from the tail on score alike: timesteps before the tail are never read |
| Scoring.LanesErrorPersists | score_util.go:34-36 | once a lane's tail finder fails, the batch's result is that failure |
| Scoring.ScoreErrorPersists | score_util.go:24-36 | once a batch fails, the whole score is that failure |
| Scoring.LaneTotalUniform | score_util.go:34-49 | a lane of width-w vectors contributes (len(expected) - tailIdx) * w outputs |
| Scoring.VecSelfCorrect | score_util.go:40-48 | a 0/1 vector compared with itself matches in every component |
| Scoring.StepsSelfCorrect | score_util.go:37-48 | 0/1 targets compared with themselves match in every component |
| Scoring.VecMissedNone | score_util.go:46-48 | if every rounded component differs from its target, no component counts as correct |
| Scoring.StepsMissedNone | score_util.go:37-48 | if every rounded tail component differs, a lane adds no correct outputs |
| Scoring.MissedLanes | score_util.go:34-49 | if every lane misses everywhere in its tail, a batch counts 0 correct |
| Scoring.AllMissedZeroScore | score_util.go:24-54 | if every lane misses everywhere in its tail, the score's correct count is 0 |
| Scoring.PerfectLanes | score_util.go:34-49 | run outputs equal to 0/1 targets whose tails fit give correct == total in a batch |
| Scoring.LanesPrefixRun | score_util.go:33-36 | lanes beyond the batch in the model's output are never read |
| Scoring.PerfectRunFullScore | score_util.go:24-54 | a model that returns the targets exactly scores correct == total, so the ratio is 1 |
| Addition.SumDigits | addition.go:64-74 | the digit sums have one digit per column, each below Base |
| Addition.Answer | addition.go:61-74 | the answer has digitCount + 1 digits, each below Base |
| Addition.PresentDigits | addition.go:42-53 | one operand round appends each digit one-hot over Base + 1 channels, with zero targets of width Base |
| Addition.PresentOperands | addition.go:41-58 | the two rounds produce left, delimiter, right, delimiter, with 2 * digitCount + 2 zero targets |
| Addition.AddColumn | addition.go:66-68 | sum is below Base and sum + Base * carry equals x + y + carry-in |
| Addition.CarryLoop | addition.go:64-74 | the carry loop appends one zero input per column and the base-Base digit sums one-hot |
| Addition.NewSample | addition.go:38-75 | one sample is exactly `AdditionSample` of its draws |
| Addition.NewSamples | addition.go:35-78 | one sample per draw, each as specified |
| Addition.AdditionLayout | addition.go:41-74 | 3 * digitCount + 3 timesteps, inputs of width Base + 1 and outputs of width Base |
| Addition.InputLayout | addition.go:41-72 | operand digits one-hot below Base, a delimiter one-hot at Base after each operand, then all-zero inputs |
| Addition.OutputLayout | addition.go:52-73 | zero targets through the second delimiter, then each answer digit one-hot |
| Addition.AdditionOutputsBinary | addition.go:52-71 | every target component is 0 or 1 |
| Addition.SumDigitsValue | addition.go:64-74 | value(sum digits) + carry-out * Base^n == value(x) + value(y) + carry-in |
| Addition.NextCarry | addition.go:67-68 | a column of digits below Base plus a carry of at most 1 carries at most 1 |
| Addition.CarryIsBit | addition.go:64-68 | the carry stays in {0, 1} along the whole chain |
| Addition.PaddedCarryIsZero | addition.go:60-74 | with the appended zero digits, no carry is left over after the last column |
| Addition.ValuePadZero | addition.go:60-62 | appending a most significant zero digit does not change an operand's value |
| Addition.AnswerValue | addition.go:60-74 | the answer digits, least significant first, have value left + right |
| Addition.AdditionSlices | addition.go:41-74 | the operand inputs and the answer targets are the one-hot encodings of left, right and the answer |
| Addition.AdditionAnswerIsSum | addition.go:41-74 | decoding the answer targets gives the sum of the two operands decoded from the inputs |
| Addition.AdditionMarkers | addition.go:49-56 | only the two delimiters have their last input component set |
| Addition.AdditionTailFound | addition.go:80-92 | the tail of a generated sample is 2 * digitCount + 2, just after the second delimiter |
| Addition.TailFinds | addition.go:81-92 | the tail is just after a delimiter with exactly one delimiter before it; None exactly when fewer than two inputs have their last component set |
| Addition.SizesMatch | addition.go:24-32 | every input of a generated sample has InputSize = Base + 1 components and every target OutputSize = Base |
| Addition.AdditionPerfectScore | addition.go:80-92 | a model that returns every target exactly scores correct == total |
| Repeat.StringPhase | repeat.go:49-53 | one data step {bit, 0, 0} per drawn bit, each with target 0 |
| Repeat.GapPhase | repeat.go:56-59 | gapLen quiet steps with target 0 |
| Repeat.RecallPhase | repeat.go:62-66 | each recall target is channel 0 of the j-th input, read back from the sequence being grown |
| Repeat.NewSample | repeat.go:46-66 | one sample is exactly `RepeatSample` of its draws |
| Repeat.NewSamples | repeat.go:43-70 | one sample per draw, each as specified |
| Repeat.RepeatLayout | repeat.go:49-66 | 2 * stringLen + gapLen + 2 steps of widths 3 and 1, between 2 * MinString + MinGap + 2 and 2 * MaxString + MaxGap + 2 in all; channel 1 is set only at stringLen, channel 2 only at stringLen + gapLen + 1, and data only in the string |
| Repeat.RepeatRecall | repeat.go:49-66 | targets are 0 through the recall marker, then Outputs[stringLen + gapLen + 2 + j] == [Inputs[j][0]] |
| Repeat.RepeatOutputsBinary | repeat.go:50-65 | every target is 0 or 1 |
| Repeat.RepeatTailFound | repeat.go:76-85 | the tail of a generated sample is stringLen + gapLen + 2 |
| Repeat.RecallTail | repeat.go:77-84 | the tail is one past the first input with channel 2 set; None exactly when no input has it |
| Repeat.SizesMatch | repeat.go:29-40 | every input of a generated sample has 3 components and every target 1 |
| Repeat.RepeatPerfectScore | repeat.go:76-85 | a model that returns every target exactly scores correct == total |
| MatchOpen.MarkCloses | match_open.go:51-60 | the close flags are set exactly at the first closeCount entries of the permutation |
| MatchOpen.StringPhase | match_open.go:62-69 | one close or open symbol per flag, each with target 0 |
| MatchOpen.AnswerPhase | match_open.go:72-75 | stringSize - closeCount quiet steps, each with target 1 |
| MatchOpen.NewSample | match_open.go:48-77 | one sample is exactly `MatchOpenSample` of its draws |
| MatchOpen.NewSamples | match_open.go:45-81 | one sample per draw, each as specified |
| MatchOpen.CloseDrawPossible | match_open.go:52-56 | `rand.Intn(stringSize - minClose)` has a range exactly when stringSize > 0 and MaxOpen > 0 |
| MatchOpen.OpenCountRange | match_open.go:52-56 | between 1 and MaxOpen parentheses are left open, and closeCount < stringSize |
| MatchOpen.PrefixFlagCount | match_open.go:57-60 | flags set from j distinct permutation entries number exactly j |
| MatchOpen.StringFlags | match_open.go:62-67 | the string inputs are closes exactly where flagged and opens elsewhere |
| MatchOpen.MatchOpenCounts | match_open.go:57-77 | exactly closeCount closes and stringSize - closeCount opens; the targets are 1 exactly at the stringSize - closeCount steps after close-all |
| MatchOpen.MatchOpenLayout | match_open.go:62-77 | 2 * stringSize - closeCount + 2 steps; every input is open, close, close-all or quiet; close-all only at stringSize; 0/1 targets |
| MatchOpen.MatchOpenTailFound | match_open.go:85-94 | the tail of a generated sample is stringSize + 1 |
| MatchOpen.CloseAllTail | match_open.go:86-93 | the tail is one past the first input with the close-all channel set; None exactly when no input has it |
| MatchOpen.SizesMatch | match_open.go:33-42 | every input of a generated sample has 3 components and every target 1 |
| MatchOpen.MatchOpenPerfectScore | match_open.go:85-94 | a model that returns every target exactly scores correct == total |
| MatchMulti.RunSteps | match_multi.go:60-74 | the string phase has one input per step, and the stack holds at most that many tag types, all below TypeCount |
| MatchMulti.StringStep | match_multi.go:62-73 | one step opens newSym (one-hot below TypeCount) or pops the top tag and closes it (one-hot at top + TypeCount) |
| MatchMulti.StringLoop | match_multi.go:58-74 | the loop over an explicit symbol stack reaches the specified inputs and stack, with zero targets |
| MatchMulti.AnswerLoop | match_multi.go:77-83 | the downward loop emits the stack top first, one-hot, with zero inputs |
| MatchMulti.NewSample | match_multi.go:57-86 | one sample is exactly `MatchMultiSample` of its draws |
| MatchMulti.NewSamples | match_multi.go:48-89 | one sample per draw, each as specified |
| MatchMulti.StringSymbols | match_multi.go:62-73 | every string input has width 2 * TypeCount + 1 and is not the delimiter |
| MatchMulti.AnswerLayout | match_multi.go:60-85 | the length is sampleLen + stack size + 2; the answer targets are the stack top first, then the output delimiter |
| MatchMulti.MatchMultiLayout | match_multi.go:60-85 | declared widths; delimiter input at sampleLen; zero inputs after it; zero targets through it; then the stack one-hot top first and the output delimiter; 0/1 targets |
| MatchMulti.MatchMultiTailFound | match_multi.go:91-100 | only the delimiter sets the last input component, so the tail is sampleLen + 1 |
| MatchMulti.Replay | match_multi.go:62-73 | a decoder of the string: a recovered stack holds only tag types below TypeCount |
| MatchMulti.ReplayAdvance | match_multi.go:62-73 | with opens pushed, one step keeps the decoded stack equal to the generator's |
| MatchMulti.ReplayIntended | match_multi.go:60-74 | with opens pushed, the string is well nested and decodes to exactly the generator's stack |
| MatchMulti.WrittenStackEmpty | match_multi.go:62-66 | as written, the stack stays empty and every step opens |
| MatchMulti.ReplayOpens | match_multi.go:62-66 | a string of opens decodes to the opened tags in order |
| MatchMulti.WrittenAnswerIgnoresOpens | match_multi.go:62-85 | as written, the string leaves every drawn tag open, yet the answer is the output delimiter alone |
| MatchMulti.WrittenMissesOpenTag | match_multi.go:62-66 | on one open of tag 0, as written the answer is the delimiter; with the push it is tag 0, then the delimiter |
| MatchMulti.IntendedAnswerCloses | match_multi.go:77-84 | with opens pushed, the answer names exactly the tags the string leaves open, most recent first, then the delimiter |
| MatchMulti.AnswerIndices | match_multi.go:77-83 | each answer target decodes to its stack entry, the top first |
| MatchMulti.DelimiterTail | match_multi.go:92-99 | the tail is one past the first input with its last component set; None exactly when no input has it |
| MatchMulti.SizesMatch | match_multi.go:37-45 | every input of a generated sample has 2 * TypeCount + 1 components and every target TypeCount + 1 |
| MatchMulti.MatchMultiPerfectScore | match_multi.go:91-100 | a model that returns every target exactly scores correct == total |
| RandomRecall.DataRow | random_recall.go:41-44 | a fresh input vector with its first Bits channels set from the drawn bits and the rest zero |
| RandomRecall.NewSample | random_recall.go:37-51 | the preallocated arrays, filled by index and marked in place, hold exactly `RecallSample` of the draws |
| RandomRecall.NewSamples | random_recall.go:34-55 | one sample per draw, each as specified |
| RandomRecall.RecallLayout | random_recall.go:38-50 | SeqLen + 1 steps of widths Bits + 2 and Bits; data channels hold the bits; the marker is only at rememberIdx; the query input is one-hot at Bits + 1; zero targets before it; 0/1 targets |
| RandomRecall.RecallTarget | random_recall.go:48-51 | the final target is the data part of the marked input |
| RandomRecall.RecallTailFound | random_recall.go:59-68 | the finder returns the query index SeqLen itself, so exactly one timestep is scored |
| RandomRecall.QueryTail | random_recall.go:60-67 | the tail is the first input with the query channel Bits + 1 set, itself; None exactly when no input has it |
| RandomRecall.SizesMatch | random_recall.go:24-31 | every input of a generated sample has Bits + 2 components and every target Bits |
| RandomRecall.RecallPerfectScore | random_recall.go:59-68 | a model that returns every target exactly scores correct == total |
| XorLast.NewSample | xor_last.go:27-43 | each target is computed from the input appended just before it, giving exactly `XorSample` of the bits |
| XorLast.NewSamples | xor_last.go:24-47 | one sample per row of drawn bits, each as specified |
| XorLast.XorLayout | xor_last.go:28-41 | SeqLen steps of width 1; 0/1 inputs and targets; Outputs[0] == Inputs[0]; later targets are 1 exactly when the input differs from the one before |
| XorLast.SizesMatch | xor_last.go:13-21 | every input and every target of a generated sample has 1 component |
| XorLast.ParityRecoversInput | xor_last.go:31-41 | the running XOR of the targets through j is input j, so the targets determine the inputs |
| Mnist.NewSample | minst.go:35-45 | one sample is exactly `MnistSample` of the picked image |
| Mnist.NewSamples | minst.go:32-48 | one sample per picked training index, each as specified |
| Mnist.MnistLayout | minst.go:37-44 | len(Intensities) + 1 steps of widths 2 and 10; {x, 0} per pixel, then {0, 1}; zero targets, then the label one-hot |
| Mnist.SizesMatch | minst.go:19-29 | every input of a generated sample has 2 components and every target 10 |
| Mnist.ArgMax | minst.go:78-88 | an in-range index whose value is >= every entry and > every earlier entry |
| Mnist.MaxIdx | minst.go:78-88 | the scan returns the first maximum: >= every entry, > every earlier one |
| Mnist.ArgMaxOneHot | minst.go:69-70 | the first maximum of a one-hot vector is its hot index |
| Mnist.LanesCorrect | minst.go:68-73 | at most one correct lane per image |
| Mnist.LanesResult | minst.go:67-79 | a batch is Ok, with at most one correct lane per image, exactly when every lane has an output sequence whose last vector is non-empty; otherwise OutOfRange, where `outs[j]`, `outs[j][len(outs[j])-1]` or `v[0]` panics |
| Mnist.ScoreResult | minst.go:53-75 | the score is Ok, with at most one correct lane per image, exactly when every batch's outputs cover its lanes; otherwise OutOfRange |
| Mnist.ScoreCorrect | minst.go:53-74 | the correct count never exceeds the number of lanes scored |
| Mnist.ImageSequence | minst.go:60-64 | Score builds each test input sequence exactly as NewSamples builds its inputs |
| Mnist.TestBatch | minst.go:57-66 | the labels and input sequences of the picked test images, in order |
| Mnist.CountLanes | minst.go:67-79 | only each lane's last output is compared, by its first maximum, with the label; the loop returns OutOfRange on a missing lane, an empty output sequence or an empty last vector, exactly as LanesResult |
| Mnist.Score | minst.go:52-76 | the loop gives exactly ScoreResult for every run: the specified correct lanes, at most batchSize * batchCount, or OutOfRange where a batch panics |
| Mnist.BatchFails | minst.go:67-73 | one batch that panics makes the whole score OutOfRange |
| Mnist.BatchCounts | minst.go:53-74 | a batch that does not panic adds its correct lanes to the running count |
| Mnist.PerfectLanes | minst.go:68-73 | a model whose last outputs are one-hot at the labels gets every lane of a batch right |
| Mnist.PerfectClassifier | minst.go:53-75 | such a model gets every lane of every batch right: Score is Ok with batchSize * batchCount correct |
| Mnist.UniformLanes | minst.go:54-57 | batchCount batches of batchSize images hold batchSize * batchCount lanes, the denominator of the score |

## Left out

- Training and the model wrappers (the LSTM, RNN, struct-LSTM and stochnet packages) are left out. They are thin glue over external autodiff and optimiser libraries, with nothing checkable in them. `Model.Run` is an abstract function parameter.
- Drivers and command-line programs are left out: epoch loops, logging, argument parsing and `os.Exit`.
- seqtasks.go is not part of this model. It only declares the `Task` and `Model` interfaces, and the callers' use of them is what is modelled.
- `math/rand` is not modelled as a random source. Each draw is a parameter, restricted to the range the call can return: `rand.Intn(n)` in [0, n) and `rand.Float64()` in [0, 1). The `rand.Intn` panics on a non-positive argument are preconditions on the draws: a configuration with an empty range has no valid draw. For match_open, `MatchOpen.CloseDrawPossible` states exactly when that range exists.
- MNIST dataset loading is left out. The data sets are given sequences of (intensities, label).
- Floating point is not modelled: `float64` values are reals.
  - The score is the pair (correct, total). `Scoring.Fraction` is the ratio only when total > 0; the 0/0 = NaN case is not modelled.
  - The rounding `int(x + 0.5)` is truncation toward zero, and reals have no NaN or infinity.
  - Go's conversion of a float64 outside the int64 range is implementation-specific. On amd64 it gives MinInt64, which the clamp turns into 0, so a huge output scores as bit 0. `Scoring.RoundBit` gives 1 for every x >= 0.5.
- Task configuration fields (MinLen, MaxLen, MaxDigits, TypeCount and so on) are `nat` or `int` without Go's 64-bit bounds, so overflow is not modelled.
- Negative lengths in a configuration (a negative MinString, MinGap or MinLen) are not modelled. There the source can draw a negative length, and its loops then run zero times. The model's lengths are sequence lengths, so a draw of a negative length has no counterpart.
- Scoring.RoundedBinaryScore: modelled as written in score_util.go:11, which passes batchSize where the batch count belongs. Its precondition therefore asks for batchSize batches, not batchCount. The intended version is `Scoring.RoundedBinaryScoreIntended` (see Findings).
- MatchMulti.NewSample: the source builds `zeroIn`, `zeroOut` and the two delimiter vectors once per NewSamples call, and appends the same slices to every sample. Nothing writes to them afterwards, so the model appends equal values, and the sharing is not modelled.
- RandomRecall.NewSample: the final target is a sub-slice that shares memory with the marked input in the source. Nothing writes to either afterwards, so the model keeps a copy, and the aliasing is not modelled.
- XorLast: xor_last.go does not compile as written. It compares the vector `last` with a number, it lacks imports, and it has no `Score` method. The model uses the evident meaning, the first component `Inputs[j-1][0]`, and models no score for this task.
- Mnist.Score: each batch's picks of `rand.Intn(len(Testing.Samples))` are parameters. The Go code panics on three kinds of run: fewer output sequences than labels, an empty output sequence, or an empty last output vector. All three are modelled as `Err(OutOfRange)`, in `Mnist.CountLanes` and `Mnist.Score`, and not as a panic.
- Mnist.MaxIdx: requires a non-empty vector. On an empty one maxIdx panics at `v[0]`, and `Mnist.CountLanes` returns OutOfRange before calling it.
- Tails.FindFirstMark, Tails.FindSecondMark: require every input vector to have the channel being read. The Go scans panic on a vector too short for `x[2]` or `x[len(x)-1]`, while `Tails.Marked` treats such a vector as unmarked. Generated samples always have the channel: the layout lemmas of every task prove it, and the finders only ever see generated inputs.
- MatchMulti: the generator takes a flag `pushOpens`. `false` is the code as written and `true` is the evident intent (see Findings). Both are modelled and both are proved about.

## Findings

| source | as written | input that shows it | evidently intended | confidence | as-written member | corrected member |
|---|---|---|---|---|---|---|
| match_multi.go:62-66 | the open branch draws `newSym` and emits its open symbol, but never appends it to `symbolStack`. The stack stays empty, every step opens, and the answer phase is the output delimiter alone | TypeCount 1, one step that opens tag 0: as written the targets after the delimiter are just the output delimiter | push `newSym` on open, so that the answer closes the open tags, most recent first | high (not executed) | MatchMulti.WrittenAnswerIgnoresOpens | MatchMulti.IntendedAnswerCloses |
| score_util.go:11 | `roundedBinaryScore` passes `batchSize` as the batch count of `roundedBinaryTailScore`, so `batchCount` is ignored | batchSize 1, batchCount 3, one-step targets of width 1: one batch is scored, and the total is 1 output instead of 3 | pass `batchCount` as the batch count | high (not executed) | Scoring.WrittenTotalIgnoresBatchCount | Scoring.RoundedBinaryScoreIntended |
