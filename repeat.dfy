/**
 * The repeat task: a string of bits is shown on input channel 0, channel 1
 * marks its end, a gap of zero inputs follows, channel 2 requests the string,
 * and the model must then output the bits again, one per timestep.
 */
module Repeat {
  import opened Vectors
  import Tails
  import Scoring

  datatype RepeatTask = RepeatTask(minString: int, maxString: int, minGap: int, maxGap: int)

  /** The random draws of one sample: the bits of the string and the gap length. */
  datatype RepeatDraw = RepeatDraw(bits: seq<bool>, gapLen: nat)

  /** Channel 0 carries data, channel 1 ends the string, channel 2 requests it back. */
  function InputSize(t: RepeatTask): nat
  {
    3
  }

  /** One output bit per timestep. */
  function OutputSize(t: RepeatTask): nat
  {
    1
  }

  /** stringLen is drawn in [MinString, MaxString] and gapLen in [MinGap, MaxGap]. */
  predicate ValidDraw(t: RepeatTask, d: RepeatDraw)
  {
    t.minString <= |d.bits| <= t.maxString && t.minGap <= d.gapLen <= t.maxGap
  }

  /** The data step carrying bit b. */
  function DataStep(b: bool): Vector
  {
    [BitValue(b), 0.0, 0.0]
  }

  function EndOfString(): Vector
  {
    [0.0, 1.0, 0.0]
  }

  function Request(): Vector
  {
    [0.0, 0.0, 1.0]
  }

  /** The first phase of the inputs: the data steps of bits. */
  function DataSteps(bits: seq<bool>): seq<Vector>
  {
    seq(|bits|, j requires 0 <= j < |bits| => DataStep(bits[j]))
  }

  /** The target of the recall phase: the bits again, one per step. */
  function Recalled(bits: seq<bool>): seq<Vector>
  {
    seq(|bits|, j requires 0 <= j < |bits| => [BitValue(bits[j])])
  }

  /** The sample NewSamples builds from one draw. */
  function RepeatSample(d: RepeatDraw): Sample
  {
    var n, g := |d.bits|, d.gapLen;
    Sample(DataSteps(d.bits) + [EndOfString()] + Fill(Quiet(), g) + [Request()] + Fill(Quiet(), n),
           Fill([0.0], n + g + 2) + Recalled(d.bits))
  }

  /** The string phase: one data step per bit, each with target 0. */
  method StringPhase(bits: seq<bool>) returns (inputs: seq<Vector>, outputs: seq<Vector>)
    ensures inputs == DataSteps(bits)
    ensures outputs == Fill([0.0], |bits|)
  {
    inputs, outputs := [], [];
    var j := 0;
    while j < |bits|
      invariant 0 <= j <= |bits|
      invariant inputs == DataSteps(bits[..j])
      invariant outputs == Fill([0.0], j)
    {
      var val := BitValue(bits[j]);
      assert DataSteps(bits[..j + 1]) == DataSteps(bits[..j]) + [DataStep(bits[j])];
      inputs := inputs + [[val, 0.0, 0.0]];
      outputs := outputs + [[0.0]];
      j := j + 1;
    }
    assert bits[..j] == bits;
  }

  /** The gap: gapLen quiet steps with target 0. */
  method GapPhase(gapLen: nat, inputs0: seq<Vector>, outputs0: seq<Vector>)
    returns (inputs: seq<Vector>, outputs: seq<Vector>)
    ensures inputs == inputs0 + Fill(Quiet(), gapLen)
    ensures outputs == outputs0 + Fill([0.0], gapLen)
  {
    inputs, outputs := inputs0, outputs0;
    var j := 0;
    while j < gapLen
      invariant 0 <= j <= gapLen
      invariant inputs == inputs0 + Fill(Quiet(), j)
      invariant outputs == outputs0 + Fill([0.0], j)
    {
      FillSnoc(Quiet(), j);
      AppendAssoc(inputs0, Fill(Quiet(), j), [Quiet()]);
      inputs := inputs + [[0.0, 0.0, 0.0]];
      FillSnoc([0.0], j);
      AppendAssoc(outputs0, Fill([0.0], j), [[0.0]]);
      outputs := outputs + [[0.0]];
      j := j + 1;
    }
  }

  /**
   * The recall phase: each target is read back from channel 0 of the j-th
   * input, which the string phase wrote, while the inputs stay quiet.
   */
  method RecallPhase(bits: seq<bool>, inputs0: seq<Vector>, outputs0: seq<Vector>)
    returns (inputs: seq<Vector>, outputs: seq<Vector>)
    requires |bits| <= |inputs0| && inputs0[..|bits|] == DataSteps(bits)
    ensures inputs == inputs0 + Fill(Quiet(), |bits|)
    ensures outputs == outputs0 + Recalled(bits)
  {
    inputs, outputs := inputs0, outputs0;
    var j := 0;
    while j < |bits|
      invariant 0 <= j <= |bits|
      invariant inputs == inputs0 + Fill(Quiet(), j)
      invariant outputs == outputs0 + Recalled(bits[..j])
    {
      assert inputs[j] == inputs0[..|bits|][j] == DataStep(bits[j]);
      var out := inputs[j][0];
      assert Recalled(bits[..j + 1]) == Recalled(bits[..j]) + [[out]];
      AppendAssoc(outputs0, Recalled(bits[..j]), [[out]]);
      FillSnoc(Quiet(), j);
      AppendAssoc(inputs0, Fill(Quiet(), j), [Quiet()]);
      inputs := inputs + [[0.0, 0.0, 0.0]];
      outputs := outputs + [[out]];
      j := j + 1;
    }
    assert bits[..j] == bits;
  }

  /** The body of NewSamples for one sample: string, end marker, gap, request, recall. */
  method NewSample(t: RepeatTask, d: RepeatDraw) returns (s: Sample)
    requires ValidDraw(t, d)
    ensures s == RepeatSample(d)
  {
    var stringLen, gapLen := |d.bits|, d.gapLen;
    var inputs, outputs := StringPhase(d.bits);
    FillSnoc([0.0], stringLen);
    inputs := inputs + [[0.0, 1.0, 0.0]];
    outputs := outputs + [[0.0]];
    inputs, outputs := GapPhase(gapLen, inputs, outputs);
    FillAppend([0.0], stringLen + 1, gapLen);
    FillSnoc([0.0], stringLen + 1 + gapLen);
    inputs := inputs + [[0.0, 0.0, 1.0]];
    outputs := outputs + [[0.0]];
    assert inputs[..stringLen] == DataSteps(d.bits);
    inputs, outputs := RecallPhase(d.bits, inputs, outputs);
    s := Sample(inputs, outputs);
  }

  /** NewSamples: one sample per draw. */
  method NewSamples(t: RepeatTask, draws: seq<RepeatDraw>) returns (batch: seq<Sample>)
    requires forall i :: 0 <= i < |draws| ==> ValidDraw(t, draws[i])
    ensures |batch| == |draws|
    ensures forall i :: 0 <= i < |draws| ==> batch[i] == RepeatSample(draws[i])
  {
    batch := [];
    var i := 0;
    while i < |draws|
      invariant 0 <= i <= |draws|
      invariant |batch| == i
      invariant forall k :: 0 <= k < i ==> batch[k] == RepeatSample(draws[k])
    {
      var sample := NewSample(t, draws[i]);
      batch := batch + [sample];
      i := i + 1;
    }
  }

  /**
   * The layout of a sample: 2 * stringLen + gapLen + 2 steps of width 3 in and
   * width 1 out, so between 2 * MinString + MinGap + 2 and 2 * MaxString +
   * MaxGap + 2 steps; the string on channel 0, one end marker on channel 1 at
   * stringLen, one request on channel 2 at stringLen + gapLen + 1, zeros elsewhere.
   */
  lemma RepeatLayout(t: RepeatTask, d: RepeatDraw)
    requires ValidDraw(t, d)
    ensures var s := RepeatSample(d); var n, g := |d.bits|, d.gapLen;
      && WellFormed(s, InputSize(t), OutputSize(t))
      && |s.inputs| == 2 * n + g + 2
      && 2 * t.minString + t.minGap + 2 <= |s.inputs| <= 2 * t.maxString + t.maxGap + 2
      && (forall i :: 0 <= i < n ==> s.inputs[i] == [BitValue(d.bits[i]), 0.0, 0.0])
      && (forall i :: 0 <= i < |s.inputs| ==> (s.inputs[i][1] == 1.0 <==> i == n))
      && (forall i :: 0 <= i < |s.inputs| ==> (s.inputs[i][2] == 1.0 <==> i == n + g + 1))
      && (forall i :: n <= i < |s.inputs| ==> s.inputs[i][0] == 0.0)
  {
    var s := RepeatSample(d);
    var n, g := |d.bits|, d.gapLen;
    forall i | 0 <= i < |s.inputs|
      ensures |s.inputs[i]| == 3
      ensures s.inputs[i][1] == 1.0 <==> i == n
      ensures s.inputs[i][2] == 1.0 <==> i == n + g + 1
      ensures n <= i ==> s.inputs[i][0] == 0.0
    {
      if i < n {
        assert s.inputs[i] == DataStep(d.bits[i]);
      } else if i == n {
        assert s.inputs[i] == EndOfString();
      } else if i <= n + g {
        assert s.inputs[i] == Quiet();
      } else if i == n + g + 1 {
        assert s.inputs[i] == Request();
      } else {
        assert s.inputs[i] == Quiet();
      }
    }
  }

  /**
   * The recall: after the request every target is the bit shown that many
   * steps after the start, and every earlier target is zero.
   */
  lemma RepeatRecall(d: RepeatDraw)
    ensures var s := RepeatSample(d); var n, g := |d.bits|, d.gapLen;
      && |s.outputs| == 2 * n + g + 2
      && (forall i :: 0 <= i < n + g + 2 ==> s.outputs[i] == [0.0])
      && (forall j :: 0 <= j < n ==> s.outputs[n + g + 2 + j] == [s.inputs[j][0]])
  {
    var s := RepeatSample(d);
    var n, g := |d.bits|, d.gapLen;
    forall j | 0 <= j < n
      ensures s.outputs[n + g + 2 + j] == [s.inputs[j][0]]
    {
      assert s.inputs[j] == DataStep(d.bits[j]);
      assert s.outputs[n + g + 2 + j] == Recalled(d.bits)[j];
    }
  }

  /** Every target component is 0 or 1. */
  lemma RepeatOutputsBinary(d: RepeatDraw)
    ensures Binary(RepeatSample(d).outputs)
  {
    var s := RepeatSample(d);
    var n, g := |d.bits|, d.gapLen;
    forall i | 0 <= i < |s.outputs|
      ensures s.outputs[i][0] == 0.0 || s.outputs[i][0] == 1.0
    {
      if i >= n + g + 2 {
        assert s.outputs[i] == Recalled(d.bits)[i - n - g - 2];
      }
    }
  }

  /** The tail finder of Score: the step after the first input with channel 2 set. */
  function RecallTail(s: seq<Vector>): (r: Option<nat>)
    ensures r.Some? ==> 1 <= r.value <= |s| && Tails.Marked(s[r.value - 1], Tails.At(2))
    ensures r.Some? ==> forall j :: 0 <= j < r.value - 1 ==> !Tails.Marked(s[j], Tails.At(2))
    ensures r.None? ==> forall j :: 0 <= j < |s| ==> !Tails.Marked(s[j], Tails.At(2))
  {
    Tails.FirstMarkTail(s, Tails.At(2), 1)
  }

  /** On a generated sample scoring starts at the recall phase, stringLen + gapLen + 2. */
  lemma RepeatTailFound(t: RepeatTask, d: RepeatDraw)
    requires ValidDraw(t, d)
    ensures Tails.AllReadable(RepeatSample(d).inputs, Tails.At(2))
    ensures RecallTail(RepeatSample(d).inputs) == Some(|d.bits| + d.gapLen + 2)
  {
    var ins := RepeatSample(d).inputs;
    RepeatLayout(t, d);
    Tails.FirstMarkedAt(ins, Tails.At(2), |d.bits| + d.gapLen + 1);
  }

  /** The samples of several NewSamples calls, one batch per row of draws. */
  function Batches(t: RepeatTask, draws: seq<seq<RepeatDraw>>): seq<seq<Sample>>
    requires forall b, l :: 0 <= b < |draws| && 0 <= l < |draws[b]| ==> ValidDraw(t, draws[b][l])
  {
    seq(|draws|, b requires 0 <= b < |draws| =>
      seq(|draws[b]|, l requires 0 <= l < |draws[b]| => RepeatSample(draws[b][l])))
  }

  /** Score with a model that returns every target exactly: every recalled bit is right. */
  lemma RepeatPerfectScore(t: RepeatTask, draws: seq<seq<RepeatDraw>>, run: Scoring.Run)
    requires forall b, l :: 0 <= b < |draws| && 0 <= l < |draws[b]| ==> ValidDraw(t, draws[b][l])
    requires forall b :: 0 <= b < |draws| ==>
      run(Scoring.InputsOf(Batches(t, draws)[b])) == Scoring.OutputsOf(Batches(t, draws)[b])
    ensures var r := Scoring.ScoreResult(Batches(t, draws), run, RecallTail); r.Ok? && r.value.correct == r.value.total
  {
    var samples: seq<seq<Sample>> := Batches(t, draws);
    forall b: int, l: int | 0 <= b < |samples| && 0 <= l < |samples[b]|
      ensures Binary(samples[b][l].outputs) && Scoring.TailFits(samples[b][l], RecallTail)
    {
      RepeatOutputsBinary(draws[b][l]);
      RepeatTailFound(t, draws[b][l]);
      RepeatLayout(t, draws[b][l]);
    }
    Scoring.PerfectRunFullScore(samples, run, RecallTail);
  }

  /** InputSize and OutputSize are the widths of every input and every target vector NewSamples builds. */
  lemma SizesMatch(t: RepeatTask, draws: seq<RepeatDraw>)
    requires forall i :: 0 <= i < |draws| ==> ValidDraw(t, draws[i])
    ensures forall i :: 0 <= i < |draws| ==> WellFormed(RepeatSample(draws[i]), InputSize(t), OutputSize(t))
  {
    forall i | 0 <= i < |draws|
      ensures WellFormed(RepeatSample(draws[i]), InputSize(t), OutputSize(t))
    {
      RepeatLayout(t, draws[i]);
    }
  }
}
