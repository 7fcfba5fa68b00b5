/**
 * The random-recall task: SeqLen random bit vectors are shown, one of them
 * marked on channel Bits; a final query step on channel Bits + 1 asks the
 * model to output the bits of the marked vector.
 */
module RandomRecall {
  import opened Vectors
  import Tails
  import Scoring

  datatype RandomRecallTask = RandomRecallTask(bits: nat, seqLen: nat)

  /** The random draws of one sample: SeqLen rows of Bits bits, and rememberIdx. */
  datatype RecallDraw = RecallDraw(data: seq<seq<bool>>, rememberIdx: nat)

  /** Bits data channels, the marker channel and the query channel. */
  function InputSize(t: RandomRecallTask): nat
  {
    t.bits + 2
  }

  function OutputSize(t: RandomRecallTask): nat
  {
    t.bits
  }

  /** Every row has Bits bits, and rand.Intn(SeqLen) drew rememberIdx, which needs SeqLen > 0. */
  predicate ValidDraw(t: RandomRecallTask, d: RecallDraw)
  {
    |d.data| == t.seqLen && d.rememberIdx < t.seqLen
    && forall i :: 0 <= i < |d.data| ==> |d.data[i]| == t.bits
  }

  /** An input vector whose first j data channels hold row's bits; everything else is zero. */
  function PartialData(t: RandomRecallTask, row: seq<bool>, j: nat): Vector
    requires j <= |row| == t.bits
  {
    seq(InputSize(t), c requires 0 <= c < InputSize(t) => if c < j then BitValue(row[c]) else 0.0)
  }

  function DataVector(t: RandomRecallTask, row: seq<bool>): Vector
    requires |row| == t.bits
  {
    PartialData(t, row, t.bits)
  }

  /** The input at step i: a data vector, marked at rememberIdx, or the query at SeqLen. */
  function InputAt(t: RandomRecallTask, d: RecallDraw, i: nat): Vector
    requires ValidDraw(t, d) && i <= t.seqLen
  {
    if i == t.seqLen then OneHot(InputSize(t), t.bits + 1)
    else if i == d.rememberIdx then DataVector(t, d.data[i])[t.bits := 1.0]
    else DataVector(t, d.data[i])
  }

  /** The sample NewSamples builds from one draw. */
  function RecallSample(t: RandomRecallTask, d: RecallDraw): Sample
    requires ValidDraw(t, d)
  {
    Sample(seq(t.seqLen + 1, i requires 0 <= i <= t.seqLen => InputAt(t, d, i)),
           Fill(Zeros(OutputSize(t)), t.seqLen) + [DataVector(t, d.data[d.rememberIdx])[..t.bits]])
  }

  /** The inner loop of NewSamples: a zero input vector with its first Bits channels set from row. */
  method DataRow(t: RandomRecallTask, row: seq<bool>) returns (v: Vector)
    requires |row| == t.bits
    ensures v == DataVector(t, row)
  {
    v := Zeros(InputSize(t));
    var j := 0;
    while j < t.bits
      invariant 0 <= j <= t.bits
      invariant v == PartialData(t, row, j)
    {
      v := v[j := BitValue(row[j])];
      j := j + 1;
    }
  }

  /**
   * The body of NewSamples for one sample: preallocated input and output
   * arrays filled by index, then the marker and the query set in place and
   * the final target read back from the marked input.
   */
  method NewSample(t: RandomRecallTask, d: RecallDraw) returns (s: Sample)
    requires ValidDraw(t, d)
    ensures s == RecallSample(t, d)
  {
    var inputs := new Vector[t.seqLen + 1](_ => []);
    var outputs := new Vector[t.seqLen + 1](_ => []);
    var i := 0;
    while i < t.seqLen
      invariant 0 <= i <= t.seqLen
      invariant forall k :: 0 <= k < i ==> inputs[k] == DataVector(t, d.data[k])
      invariant forall k :: 0 <= k < i ==> outputs[k] == Zeros(OutputSize(t))
    {
      inputs[i] := DataRow(t, d.data[i]);
      outputs[i] := Zeros(OutputSize(t));
      i := i + 1;
    }
    var rememberIdx := d.rememberIdx;
    inputs[rememberIdx] := inputs[rememberIdx][t.bits := 1.0];
    inputs[t.seqLen] := Zeros(InputSize(t));
    inputs[t.seqLen] := inputs[t.seqLen][t.bits + 1 := 1.0];
    outputs[t.seqLen] := inputs[rememberIdx][..t.bits];
    assert inputs[..] == RecallSample(t, d).inputs;
    assert outputs[..] == RecallSample(t, d).outputs;
    s := Sample(inputs[..], outputs[..]);
  }

  /** NewSamples: one sample per draw. */
  method NewSamples(t: RandomRecallTask, draws: seq<RecallDraw>) returns (batch: seq<Sample>)
    requires forall i :: 0 <= i < |draws| ==> ValidDraw(t, draws[i])
    ensures |batch| == |draws|
    ensures forall i :: 0 <= i < |draws| ==> batch[i] == RecallSample(t, draws[i])
  {
    batch := [];
    var i := 0;
    while i < |draws|
      invariant 0 <= i <= |draws|
      invariant |batch| == i
      invariant forall k :: 0 <= k < i ==> batch[k] == RecallSample(t, draws[k])
    {
      var sample := NewSample(t, draws[i]);
      batch := batch + [sample];
      i := i + 1;
    }
  }

  /**
   * The layout of a sample: SeqLen + 1 steps; the data channels of each
   * of the first SeqLen inputs hold its row's bits; the marker channel is set
   * at rememberIdx only; the query channel at SeqLen only, where the input is
   * the query alone; the first SeqLen targets are zero.
   */
  lemma RecallLayout(t: RandomRecallTask, d: RecallDraw)
    requires ValidDraw(t, d)
    ensures var s := RecallSample(t, d); var n := t.seqLen;
      && WellFormed(s, InputSize(t), OutputSize(t))
      && |s.inputs| == n + 1
      && (forall i, c :: 0 <= i < n && 0 <= c < t.bits ==> s.inputs[i][c] == BitValue(d.data[i][c]))
      && (forall i :: 0 <= i < n ==> (s.inputs[i][t.bits] == 1.0 <==> i == d.rememberIdx))
      && (forall i :: 0 <= i <= n ==> (s.inputs[i][t.bits + 1] == 1.0 <==> i == n))
      && s.inputs[n] == OneHot(InputSize(t), t.bits + 1)
      && (forall i :: 0 <= i < n ==> s.outputs[i] == Zeros(OutputSize(t)))
      && Binary(s.outputs)
  {
    var s := RecallSample(t, d);
    var n := t.seqLen;
    forall i | 0 <= i <= n
      ensures |s.inputs[i]| == InputSize(t)
      ensures i < n ==> (s.inputs[i][t.bits] == 1.0 <==> i == d.rememberIdx)
      ensures s.inputs[i][t.bits + 1] == 1.0 <==> i == n
    {
      assert s.inputs[i] == InputAt(t, d, i);
    }
    forall i, c | 0 <= i < n && 0 <= c < t.bits
      ensures s.inputs[i][c] == BitValue(d.data[i][c])
    {
      assert s.inputs[i] == InputAt(t, d, i);
    }
    var last := DataVector(t, d.data[d.rememberIdx])[..t.bits];
    assert s.outputs[n] == last;
    forall i | 0 <= i <= n
      ensures |s.outputs[i]| == OutputSize(t)
      ensures forall c :: 0 <= c < |s.outputs[i]| ==> s.outputs[i][c] == 0.0 || s.outputs[i][c] == 1.0
    {
    }
  }

  /** The final target is the data of the one marked input, without its marker. */
  lemma RecallTarget(t: RandomRecallTask, d: RecallDraw)
    requires ValidDraw(t, d)
    ensures var s := RecallSample(t, d); var n := t.seqLen;
      forall i :: 0 <= i < n && s.inputs[i][t.bits] == 1.0 ==> s.outputs[n] == s.inputs[i][..t.bits]
  {
    var s := RecallSample(t, d);
    var n := t.seqLen;
    RecallLayout(t, d);
    var idx := d.rememberIdx;
    assert s.inputs[idx] == DataVector(t, d.data[idx])[t.bits := 1.0];
    assert s.inputs[idx][..t.bits] == DataVector(t, d.data[idx])[..t.bits];
  }

  /** The tail finder of Score: the first input with the query channel set, itself. */
  function QueryTail(t: RandomRecallTask, s: seq<Vector>): (r: Option<nat>)
    ensures r.Some? ==> r.value < |s| && Tails.Marked(s[r.value], Tails.At(t.bits + 1))
    ensures r.Some? ==> forall j :: 0 <= j < r.value ==> !Tails.Marked(s[j], Tails.At(t.bits + 1))
    ensures r.None? ==> forall j :: 0 <= j < |s| ==> !Tails.Marked(s[j], Tails.At(t.bits + 1))
  {
    Tails.FirstMarkTail(s, Tails.At(t.bits + 1), 0)
  }

  /** QueryTail for task t, as handed to the scorer. */
  function QueryFinder(t: RandomRecallTask): Scoring.TailFinder
  {
    s => QueryTail(t, s)
  }

  /** On a generated sample only the final step, SeqLen, is scored. */
  lemma RecallTailFound(t: RandomRecallTask, d: RecallDraw)
    requires ValidDraw(t, d)
    ensures Tails.AllReadable(RecallSample(t, d).inputs, Tails.At(t.bits + 1))
    ensures QueryTail(t, RecallSample(t, d).inputs) == Some(t.seqLen)
    ensures |RecallSample(t, d).outputs| - t.seqLen == 1
  {
    RecallLayout(t, d);
    Tails.FirstMarkedAt(RecallSample(t, d).inputs, Tails.At(t.bits + 1), t.seqLen);
  }

  /** The samples of several NewSamples calls, one batch per row of draws. */
  function Batches(t: RandomRecallTask, draws: seq<seq<RecallDraw>>): seq<seq<Sample>>
    requires forall b, l :: 0 <= b < |draws| && 0 <= l < |draws[b]| ==> ValidDraw(t, draws[b][l])
  {
    seq(|draws|, b requires 0 <= b < |draws| =>
      seq(|draws[b]|, l requires 0 <= l < |draws[b]| => RecallSample(t, draws[b][l])))
  }

  /** Score with a model that returns every target exactly: every recalled bit is right. */
  lemma RecallPerfectScore(t: RandomRecallTask, draws: seq<seq<RecallDraw>>, run: Scoring.Run)
    requires forall b, l :: 0 <= b < |draws| && 0 <= l < |draws[b]| ==> ValidDraw(t, draws[b][l])
    requires forall b :: 0 <= b < |draws| ==>
      run(Scoring.InputsOf(Batches(t, draws)[b])) == Scoring.OutputsOf(Batches(t, draws)[b])
    ensures var r := Scoring.ScoreResult(Batches(t, draws), run, QueryFinder(t)); r.Ok? && r.value.correct == r.value.total
  {
    var samples: seq<seq<Sample>> := Batches(t, draws);
    forall b: int, l: int | 0 <= b < |samples| && 0 <= l < |samples[b]|
      ensures Binary(samples[b][l].outputs) && Scoring.TailFits(samples[b][l], QueryFinder(t))
    {
      RecallLayout(t, draws[b][l]);
      RecallTailFound(t, draws[b][l]);
    }
    Scoring.PerfectRunFullScore(samples, run, QueryFinder(t));
  }

  /** InputSize and OutputSize are the widths of every input and every target vector NewSamples builds. */
  lemma SizesMatch(t: RandomRecallTask, draws: seq<RecallDraw>)
    requires forall i :: 0 <= i < |draws| ==> ValidDraw(t, draws[i])
    ensures forall i :: 0 <= i < |draws| ==> WellFormed(RecallSample(t, draws[i]), InputSize(t), OutputSize(t))
  {
    forall i | 0 <= i < |draws|
      ensures WellFormed(RecallSample(t, draws[i]), InputSize(t), OutputSize(t))
    {
      RecallLayout(t, draws[i]);
    }
  }
}
