/**
 * The match-open task: a string of open and close "parentheses" is shown,
 * then a "close all" request, after which the model must output a 1 for each
 * open parenthesis of the string and then a single 0.
 */
module MatchOpen {
  import opened Vectors
  import Tails
  import Scoring

  datatype MatchOpenTask = MatchOpenTask(minLen: int, maxLen: int, maxOpen: int)

  /**
   * The random draws of one sample: stringSize, the value closeDraw that
   * rand.Intn adds to minClose to give closeCount, and the permutation
   * rand.Perm(stringSize).
   */
  datatype MatchOpenDraw = MatchOpenDraw(stringSize: nat, closeDraw: nat, perm: seq<nat>)

  /** Channels: open, close, close-all. */
  function InputSize(t: MatchOpenTask): nat
  {
    3
  }

  function OutputSize(t: MatchOpenTask): nat
  {
    1
  }

  /** The fewest closes that leave at most MaxOpen parentheses open. */
  function MinClose(t: MatchOpenTask, n: nat): int
  {
    if n - t.maxOpen < 0 then 0 else n - t.maxOpen
  }

  /** p lists each of 0 .. n-1 exactly once. */
  predicate IsPermutation(p: seq<nat>, n: nat)
  {
    |p| == n && (forall i :: 0 <= i < n ==> p[i] < n)
    && (forall i, j :: 0 <= i < j < n ==> p[i] != p[j])
  }

  /**
   * What the draws of NewSamples can return: stringSize in [MinLen, MaxLen],
   * rand.Intn(stringSize - minClose) in range (which needs a positive
   * argument), and a permutation.
   */
  predicate ValidDraw(t: MatchOpenTask, d: MatchOpenDraw)
  {
    t.minLen <= d.stringSize <= t.maxLen
    && d.closeDraw < d.stringSize - MinClose(t, d.stringSize)
    && IsPermutation(d.perm, d.stringSize)
  }

  function CloseCount(t: MatchOpenTask, d: MatchOpenDraw): nat
    requires ValidDraw(t, d)
  {
    d.closeDraw + MinClose(t, d.stringSize)
  }

  /** The flags of n positions, set where the position is listed in p. */
  function Flags(p: seq<nat>, n: nat): seq<bool>
  {
    seq(n, k => k in p)
  }

  /** The close flags: the positions named by the first closeCount entries of the permutation. */
  function Closes(t: MatchOpenTask, d: MatchOpenDraw): seq<bool>
    requires ValidDraw(t, d)
  {
    Flags(d.perm[..CloseCount(t, d)], d.stringSize)
  }

  function Open(): Vector
  {
    [1.0, 0.0, 0.0]
  }

  function Close(): Vector
  {
    [0.0, 1.0, 0.0]
  }

  function CloseAll(): Vector
  {
    [0.0, 0.0, 1.0]
  }

  function Symbol(close: bool): Vector
  {
    if close then Close() else Open()
  }

  function Symbols(flags: seq<bool>): seq<Vector>
  {
    seq(|flags|, k requires 0 <= k < |flags| => Symbol(flags[k]))
  }

  /** The sample NewSamples builds from one draw. */
  function MatchOpenSample(t: MatchOpenTask, d: MatchOpenDraw): Sample
    requires ValidDraw(t, d)
  {
    var n, c := d.stringSize, CloseCount(t, d);
    Sample(Symbols(Closes(t, d)) + [CloseAll()] + Fill(Quiet(), n - c + 1),
           Fill([0.0], n + 1) + Fill([1.0], n - c) + [[0.0]])
  }

  /** The close flags: a fresh all-false slice, then the first closeCount entries of perm set. */
  method MarkCloses(perm: seq<nat>, stringSize: nat, closeCount: nat) returns (stringCloses: array<bool>)
    requires closeCount <= |perm| && forall i :: 0 <= i < |perm| ==> perm[i] < stringSize
    ensures fresh(stringCloses)
    ensures stringCloses[..] == Flags(perm[..closeCount], stringSize)
  {
    stringCloses := new bool[stringSize](_ => false);
    var j := 0;
    while j < closeCount
      invariant 0 <= j <= closeCount
      invariant forall k :: 0 <= k < stringSize ==> stringCloses[k] == (k in perm[..j])
    {
      assert perm[..j + 1] == perm[..j] + [perm[j]];
      stringCloses[perm[j]] := true;
      j := j + 1;
    }
  }

  /** The string phase: one open or close per flag, each with target 0. */
  method StringPhase(flags: seq<bool>) returns (inputs: seq<Vector>, outputs: seq<Vector>)
    ensures inputs == Symbols(flags)
    ensures outputs == Fill([0.0], |flags|)
  {
    inputs, outputs := [], [];
    var j := 0;
    while j < |flags|
      invariant 0 <= j <= |flags|
      invariant inputs == Symbols(flags[..j])
      invariant outputs == Fill([0.0], j)
    {
      assert Symbols(flags[..j + 1]) == Symbols(flags[..j]) + [Symbol(flags[j])];
      if flags[j] {
        inputs := inputs + [[0.0, 1.0, 0.0]];
      } else {
        inputs := inputs + [[1.0, 0.0, 0.0]];
      }
      outputs := outputs + [[0.0]];
      j := j + 1;
    }
    assert flags[..j] == flags;
  }

  /** The answer phase: openCount quiet steps with target 1. */
  method AnswerPhase(openCount: nat, inputs0: seq<Vector>, outputs0: seq<Vector>)
    returns (inputs: seq<Vector>, outputs: seq<Vector>)
    ensures inputs == inputs0 + Fill(Quiet(), openCount)
    ensures outputs == outputs0 + Fill([1.0], openCount)
  {
    inputs, outputs := inputs0, outputs0;
    var j := 0;
    while j < openCount
      invariant 0 <= j <= openCount
      invariant inputs == inputs0 + Fill(Quiet(), j)
      invariant outputs == outputs0 + Fill([1.0], j)
    {
      FillSnoc(Quiet(), j);
      AppendAssoc(inputs0, Fill(Quiet(), j), [Quiet()]);
      inputs := inputs + [[0.0, 0.0, 0.0]];
      FillSnoc([1.0], j);
      AppendAssoc(outputs0, Fill([1.0], j), [[1.0]]);
      outputs := outputs + [[1.0]];
      j := j + 1;
    }
  }

  /** The body of NewSamples for one sample. */
  method NewSample(t: MatchOpenTask, d: MatchOpenDraw) returns (s: Sample)
    requires ValidDraw(t, d)
    ensures s == MatchOpenSample(t, d)
  {
    var stringSize := d.stringSize;
    var minClose := stringSize - t.maxOpen;
    if minClose < 0 {
      minClose := 0;
    }
    var closeCount := d.closeDraw + minClose;
    var stringCloses := MarkCloses(d.perm, stringSize, closeCount);
    var inputs, outputs := StringPhase(stringCloses[..]);
    FillSnoc([0.0], stringSize);
    inputs := inputs + [[0.0, 0.0, 1.0]];
    outputs := outputs + [[0.0]];
    inputs, outputs := AnswerPhase(stringSize - closeCount, inputs, outputs);
    FillSnoc(Quiet(), stringSize - closeCount);
    AppendAssoc(Symbols(Closes(t, d)) + [CloseAll()], Fill(Quiet(), stringSize - closeCount), [Quiet()]);
    inputs := inputs + [[0.0, 0.0, 0.0]];
    outputs := outputs + [[0.0]];
    s := Sample(inputs, outputs);
  }

  /** NewSamples: one sample per draw. */
  method NewSamples(t: MatchOpenTask, draws: seq<MatchOpenDraw>) returns (batch: seq<Sample>)
    requires forall i :: 0 <= i < |draws| ==> ValidDraw(t, draws[i])
    ensures |batch| == |draws|
    ensures forall i :: 0 <= i < |draws| ==> batch[i] == MatchOpenSample(t, draws[i])
  {
    batch := [];
    var i := 0;
    while i < |draws|
      invariant 0 <= i <= |draws|
      invariant |batch| == i
      invariant forall k :: 0 <= k < i ==> batch[k] == MatchOpenSample(t, draws[k])
    {
      var sample := NewSample(t, draws[i]);
      batch := batch + [sample];
      i := i + 1;
    }
  }

  /** rand.Intn(stringSize - minClose) has a range to draw from exactly when the string and MaxOpen are positive. */
  lemma CloseDrawPossible(t: MatchOpenTask, n: nat)
    ensures n - MinClose(t, n) > 0 <==> n > 0 && t.maxOpen > 0
  {
  }

  /** Between 1 and MaxOpen parentheses are left open, and at most stringSize - 1 are closed. */
  lemma OpenCountRange(t: MatchOpenTask, d: MatchOpenDraw)
    requires ValidDraw(t, d)
    ensures 1 <= d.stringSize - CloseCount(t, d) <= t.maxOpen
    ensures 0 <= CloseCount(t, d) < d.stringSize
  {
  }

  /** The number of set flags. */
  function Count(bs: seq<bool>): (r: nat)
    ensures r <= |bs|
  {
    if |bs| == 0 then 0 else Count(bs[..|bs| - 1]) + (if bs[|bs| - 1] then 1 else 0)
  }

  /** Setting one clear flag adds one to the count. */
  lemma {:induction false} CountSet(bs: seq<bool>, i: nat)
    requires i < |bs| && !bs[i]
    ensures Count(bs[i := true]) == Count(bs) + 1
    decreases |bs|
  {
    var last := |bs| - 1;
    if i == last {
      assert bs[i := true][..last] == bs[..last];
    } else {
      assert bs[i := true][..last] == bs[..last][i := true];
      CountSet(bs[..last], i);
    }
  }

  lemma {:induction false} CountNone(n: nat)
    ensures Count(seq(n, _ => false)) == 0
  {
    if n > 0 {
      assert seq(n, _ => false)[..n - 1] == seq(n - 1, _ => false);
      CountNone(n - 1);
    }
  }

  /** The clear flags number the length minus the set ones. */
  lemma {:induction false} CountComplement(bs: seq<bool>)
    ensures Count(seq(|bs|, k requires 0 <= k < |bs| => !bs[k])) == |bs| - Count(bs)
    decreases |bs|
  {
    if |bs| > 0 {
      var last := |bs| - 1;
      var neg := seq(|bs|, k requires 0 <= k < |bs| => !bs[k]);
      assert neg[..last] == seq(last, k requires 0 <= k < last => !bs[..last][k]);
      CountComplement(bs[..last]);
    }
  }

  /** Flags set from the first j entries of a permutation number exactly j. */
  lemma {:induction false} PrefixFlagCount(p: seq<nat>, n: nat, j: nat)
    requires IsPermutation(p, n) && j <= n
    ensures Count(Flags(p[..j], n)) == j
    decreases j
  {
    if j == 0 {
      assert Flags(p[..0], n) == seq(n, _ => false);
      CountNone(n);
    } else {
      var before := Flags(p[..j - 1], n);
      assert p[..j] == p[..j - 1] + [p[j - 1]];
      assert !before[p[j - 1]];
      assert Flags(p[..j], n) == before[p[j - 1] := true];
      PrefixFlagCount(p, n, j - 1);
      CountSet(before, p[j - 1]);
    }
  }

  /** Whether each string input is a close, and whether it is an open. */
  function CloseInputs(s: Sample, n: nat): seq<bool>
    requires n <= |s.inputs|
  {
    seq(n, k requires 0 <= k < n => s.inputs[k] == Close())
  }

  function OpenInputs(s: Sample, n: nat): seq<bool>
    requires n <= |s.inputs|
  {
    seq(n, k requires 0 <= k < n => s.inputs[k] == Open())
  }

  /** The string inputs read back as flags: closes where Closes is set, opens elsewhere. */
  lemma StringFlags(t: MatchOpenTask, d: MatchOpenDraw)
    requires ValidDraw(t, d)
    ensures var s := MatchOpenSample(t, d); var n := d.stringSize;
      && CloseInputs(s, n) == Closes(t, d)
      && OpenInputs(s, n) == seq(n, k requires 0 <= k < n => !Closes(t, d)[k])
  {
    var s := MatchOpenSample(t, d);
    var n := d.stringSize;
    var closes := Closes(t, d);
    forall k | 0 <= k < n
      ensures (s.inputs[k] == Close()) == closes[k]
      ensures (s.inputs[k] == Open()) == !closes[k]
    {
      assert s.inputs[k] == Symbol(closes[k]);
    }
  }

  /**
   * Exactly closeCount of the stringSize string inputs are closes and the
   * rest are opens, and the targets hold exactly one 1 per open.
   */
  lemma MatchOpenCounts(t: MatchOpenTask, d: MatchOpenDraw)
    requires ValidDraw(t, d)
    ensures var s := MatchOpenSample(t, d); var n := d.stringSize;
      && Count(CloseInputs(s, n)) == CloseCount(t, d)
      && Count(OpenInputs(s, n)) == n - CloseCount(t, d)
      && (forall i :: 0 <= i < |s.outputs| ==> (s.outputs[i] == [1.0] <==> n + 1 <= i < n + 1 + Count(OpenInputs(s, n))))
  {
    StringFlags(t, d);
    PrefixFlagCount(d.perm, d.stringSize, CloseCount(t, d));
    CountComplement(Closes(t, d));
  }

  /**
   * The layout of a sample: 2 * stringSize - closeCount + 2 steps, each input
   * one of open, close, close-all or quiet, close-all only at stringSize, and
   * every target 0 or 1.
   */
  lemma MatchOpenLayout(t: MatchOpenTask, d: MatchOpenDraw)
    requires ValidDraw(t, d)
    ensures var s := MatchOpenSample(t, d); var n := d.stringSize;
      && WellFormed(s, InputSize(t), OutputSize(t))
      && |s.inputs| == 2 * n - CloseCount(t, d) + 2
      && (forall i :: 0 <= i < |s.inputs| ==>
            s.inputs[i] == Open() || s.inputs[i] == Close() || s.inputs[i] == CloseAll() || s.inputs[i] == Quiet())
      && (forall i :: 0 <= i < |s.inputs| ==> (s.inputs[i][2] == 1.0 <==> i == n))
      && Binary(s.outputs)
  {
    var s := MatchOpenSample(t, d);
    var n := d.stringSize;
    var closes := Closes(t, d);
    forall i | 0 <= i < |s.inputs|
      ensures s.inputs[i] == Open() || s.inputs[i] == Close() || s.inputs[i] == CloseAll() || s.inputs[i] == Quiet()
      ensures s.inputs[i][2] == 1.0 <==> i == n
    {
      if i < n {
        assert s.inputs[i] == Symbol(closes[i]);
      }
    }
  }

  /** The tail finder of Score: the step after the first input with channel 2 set. */
  function CloseAllTail(s: seq<Vector>): (r: Option<nat>)
    ensures r.Some? ==> 1 <= r.value <= |s| && Tails.Marked(s[r.value - 1], Tails.At(2))
    ensures r.Some? ==> forall j :: 0 <= j < r.value - 1 ==> !Tails.Marked(s[j], Tails.At(2))
    ensures r.None? ==> forall j :: 0 <= j < |s| ==> !Tails.Marked(s[j], Tails.At(2))
  {
    Tails.FirstMarkTail(s, Tails.At(2), 1)
  }

  /** On a generated sample scoring starts just after close-all, at stringSize + 1. */
  lemma MatchOpenTailFound(t: MatchOpenTask, d: MatchOpenDraw)
    requires ValidDraw(t, d)
    ensures Tails.AllReadable(MatchOpenSample(t, d).inputs, Tails.At(2))
    ensures CloseAllTail(MatchOpenSample(t, d).inputs) == Some(d.stringSize + 1)
  {
    MatchOpenLayout(t, d);
    Tails.FirstMarkedAt(MatchOpenSample(t, d).inputs, Tails.At(2), d.stringSize);
  }

  /** The samples of several NewSamples calls, one batch per row of draws. */
  function Batches(t: MatchOpenTask, draws: seq<seq<MatchOpenDraw>>): seq<seq<Sample>>
    requires forall b, l :: 0 <= b < |draws| && 0 <= l < |draws[b]| ==> ValidDraw(t, draws[b][l])
  {
    seq(|draws|, b requires 0 <= b < |draws| =>
      seq(|draws[b]|, l requires 0 <= l < |draws[b]| => MatchOpenSample(t, draws[b][l])))
  }

  /** Score with a model that returns every target exactly: every compared output is right. */
  lemma MatchOpenPerfectScore(t: MatchOpenTask, draws: seq<seq<MatchOpenDraw>>, run: Scoring.Run)
    requires forall b, l :: 0 <= b < |draws| && 0 <= l < |draws[b]| ==> ValidDraw(t, draws[b][l])
    requires forall b :: 0 <= b < |draws| ==>
      run(Scoring.InputsOf(Batches(t, draws)[b])) == Scoring.OutputsOf(Batches(t, draws)[b])
    ensures var r := Scoring.ScoreResult(Batches(t, draws), run, CloseAllTail); r.Ok? && r.value.correct == r.value.total
  {
    var samples: seq<seq<Sample>> := Batches(t, draws);
    forall b: int, l: int | 0 <= b < |samples| && 0 <= l < |samples[b]|
      ensures Binary(samples[b][l].outputs) && Scoring.TailFits(samples[b][l], CloseAllTail)
    {
      MatchOpenLayout(t, draws[b][l]);
      MatchOpenTailFound(t, draws[b][l]);
    }
    Scoring.PerfectRunFullScore(samples, run, CloseAllTail);
  }

  /** InputSize and OutputSize are the widths of every input and every target vector NewSamples builds. */
  lemma SizesMatch(t: MatchOpenTask, draws: seq<MatchOpenDraw>)
    requires forall i :: 0 <= i < |draws| ==> ValidDraw(t, draws[i])
    ensures forall i :: 0 <= i < |draws| ==> WellFormed(MatchOpenSample(t, draws[i]), InputSize(t), OutputSize(t))
  {
    forall i | 0 <= i < |draws|
      ensures WellFormed(MatchOpenSample(t, draws[i]), InputSize(t), OutputSize(t))
    {
      MatchOpenLayout(t, draws[i]);
    }
  }
}
