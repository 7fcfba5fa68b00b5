/**
 * The MNIST task: an image is shown one pixel intensity per timestep, then an
 * end-of-digit step, and the final target is the image's label one-hot among
 * ten classes. Score classifies test images by the first maximum of the last
 * output vector.
 */
module Mnist {
  import opened Vectors
  import Scoring

  /** One image of a data set: its pixel Intensities and its label. */
  datatype Image = Image(Intensities: seq<real>, Label: int)

  /** The training and testing data sets, already loaded. */
  datatype MnistTask = MnistTask(training: seq<Image>, testing: seq<Image>)

  /** A pixel channel and an end-of-digit channel. */
  function InputSize(t: MnistTask): nat
  {
    2
  }

  /** One output per digit class. */
  function OutputSize(t: MnistTask): nat
  {
    10
  }

  /** The input sequence of an image: {x, 0} per pixel, then {0, 1}. */
  function ImageInputs(img: Image): seq<Vector>
  {
    seq(|img.Intensities|, i requires 0 <= i < |img.Intensities| => [img.Intensities[i], 0.0]) + [[0.0, 1.0]]
  }

  /** The sample NewSamples builds from an image: zero targets, then the label one-hot. */
  function MnistSample(img: Image): Sample
    requires 0 <= img.Label < 10
  {
    Sample(ImageInputs(img), Fill(Zeros(10), |img.Intensities|) + [OneHot(10, img.Label)])
  }

  /** The body of NewSamples for one picked training image. */
  method NewSample(img: Image) returns (s: Sample)
    requires 0 <= img.Label < 10
    ensures s == MnistSample(img)
  {
    var inputs: seq<Vector> := [];
    var outputs: seq<Vector> := [];
    var i := 0;
    while i < |img.Intensities|
      invariant 0 <= i <= |img.Intensities|
      invariant inputs == ImageInputs(Image(img.Intensities[..i], img.Label))[..i]
      invariant outputs == Fill(Zeros(10), i)
    {
      var x := img.Intensities[i];
      inputs := inputs + [[x, 0.0]];
      outputs := outputs + [Zeros(10)];
      i := i + 1;
    }
    assert img.Intensities[..i] == img.Intensities;
    inputs := inputs + [[0.0, 1.0]];
    var outVec := Zeros(10);
    outVec := outVec[img.Label := 1.0];
    outputs := outputs + [outVec];
    s := Sample(inputs, outputs);
  }

  /** NewSamples: one sample per picked training index, as drawn by rand.Intn(len(Training.Samples)). */
  method NewSamples(t: MnistTask, picks: seq<nat>) returns (batch: seq<Sample>)
    requires forall i :: 0 <= i < |picks| ==> picks[i] < |t.training|
    requires forall i :: 0 <= i < |picks| ==> 0 <= t.training[picks[i]].Label < 10
    ensures |batch| == |picks|
    ensures forall i :: 0 <= i < |picks| ==> batch[i] == MnistSample(t.training[picks[i]])
  {
    batch := [];
    var i := 0;
    while i < |picks|
      invariant 0 <= i <= |picks|
      invariant |batch| == i
      invariant forall k :: 0 <= k < i ==> batch[k] == MnistSample(t.training[picks[k]])
    {
      var sample := NewSample(t.training[picks[i]]);
      batch := batch + [sample];
      i := i + 1;
    }
  }

  /**
   * A sample has len(Intensities) + 1 steps; each pixel is on channel 0 with
   * channel 1 clear; the last input is the end-of-digit marker; all targets
   * are zero except the last, which is one-hot at the label.
   */
  lemma MnistLayout(t: MnistTask, img: Image)
    requires 0 <= img.Label < 10
    ensures var s := MnistSample(img); var n := |img.Intensities|;
      && WellFormed(s, InputSize(t), OutputSize(t))
      && |s.inputs| == n + 1
      && (forall i :: 0 <= i < n ==> s.inputs[i] == [img.Intensities[i], 0.0])
      && s.inputs[n] == [0.0, 1.0]
      && (forall i :: 0 <= i < n ==> s.outputs[i] == Zeros(10))
      && HotIndex(s.outputs[n]) == img.Label
      && Binary(s.outputs)
  {
    HotIndexOfOneHot(10, img.Label);
  }

  /** The index maxIdx returns: the first position of a maximum of v. */
  function ArgMax(v: Vector): (k: nat)
    requires |v| > 0
    ensures k < |v|
    ensures forall i :: 0 <= i < |v| ==> v[i] <= v[k]
    ensures forall i :: 0 <= i < k ==> v[i] < v[k]
  {
    if |v| == 1 then 0
    else
      var k := ArgMax(v[..|v| - 1]);
      assert forall i :: 0 <= i < |v| - 1 ==> v[..|v| - 1][i] == v[i];
      if v[|v| - 1] > v[k] then |v| - 1 else k
  }

  /** maxIdx: a scan that replaces the running maximum only on a strictly greater value. */
  method MaxIdx(v: Vector) returns (maxIdx: nat)
    requires |v| > 0
    ensures maxIdx == ArgMax(v)
    ensures forall i :: 0 <= i < |v| ==> v[i] <= v[maxIdx]
    ensures forall i :: 0 <= i < maxIdx ==> v[i] < v[maxIdx]
  {
    var maxVal := v[0];
    maxIdx := 0;
    var i := 0;
    while i < |v|
      invariant 0 <= i <= |v|
      invariant maxIdx < |v| && maxVal == v[maxIdx]
      invariant i == 0 ==> maxIdx == 0
      invariant i > 0 ==> maxIdx == ArgMax(v[..i])
    {
      var x := v[i];
      assert v[..i + 1][..i] == v[..i];
      if x > maxVal {
        maxIdx := i;
        maxVal := x;
      }
      i := i + 1;
    }
    assert v[..i] == v;
  }

  /** maxIdx of a one-hot vector is its hot index. */
  lemma ArgMaxOneHot(w: nat, k: nat)
    requires k < w
    ensures ArgMax(OneHot(w, k)) == k
  {
    var v := OneHot(w, k);
    var m := ArgMax(v);
    assert v[k] == 1.0;
  }

  /** The input sequences Score builds for one batch of picked test images. */
  function TestSequences(t: MnistTask, pick: seq<nat>): seq<seq<Vector>>
    requires forall j :: 0 <= j < |pick| ==> pick[j] < |t.testing|
  {
    seq(|pick|, j requires 0 <= j < |pick| => ImageInputs(t.testing[pick[j]]))
  }

  /**
   * The model's outputs cover the first count lanes: one non-empty sequence
   * per lane whose last vector is non-empty. Otherwise Score's `outs[j]`,
   * `outs[j][len(outs[j])-1]` or maxIdx's `v[0]` is out of range.
   */
  predicate RunCovers(outs: seq<seq<Vector>>, count: nat)
  {
    |outs| >= count && forall j :: 0 <= j < count ==> |outs[j]| > 0 && |outs[j][|outs[j]| - 1]| > 0
  }

  /** The last output vector of lane j. */
  function LastOut(outs: seq<seq<Vector>>, j: nat): Vector
    requires j < |outs| && |outs[j]| > 0
  {
    outs[j][|outs[j]| - 1]
  }

  /** The number of the first n lanes whose last output's first maximum is the lane's label. */
  function LanesCorrect(t: MnistTask, pick: seq<nat>, outs: seq<seq<Vector>>, n: nat): (c: nat)
    requires n <= |pick| && forall j :: 0 <= j < |pick| ==> pick[j] < |t.testing|
    requires RunCovers(outs, n)
    ensures c <= n
  {
    if n == 0 then 0
    else LanesCorrect(t, pick, outs, n - 1)
         + (if ArgMax(LastOut(outs, n - 1)) == t.testing[pick[n - 1]].Label then 1 else 0)
  }

  /** The comparison of one batch: its correct count, or OutOfRange where the Go loop panics. */
  function LanesResult(t: MnistTask, pick: seq<nat>, outs: seq<seq<Vector>>): (r: Scoring.Result<nat>)
    requires forall j :: 0 <= j < |pick| ==> pick[j] < |t.testing|
    ensures r.Ok? <==> RunCovers(outs, |pick|)
    ensures r.Ok? ==> r.value <= |pick|
  {
    if RunCovers(outs, |pick|) then Scoring.Ok(LanesCorrect(t, pick, outs, |pick|)) else Scoring.Err(Scoring.OutOfRange)
  }

  predicate PicksValid(t: MnistTask, picks: seq<seq<nat>>)
  {
    forall b, j :: 0 <= b < |picks| && 0 <= j < |picks[b]| ==> picks[b][j] < |t.testing|
  }

  /** The model's outputs cover every lane of the first m batches. */
  predicate RunCoversAll(t: MnistTask, picks: seq<seq<nat>>, run: Scoring.Run, m: nat)
    requires m <= |picks| && PicksValid(t, picks)
  {
    forall b :: 0 <= b < m ==> RunCovers(run(TestSequences(t, picks[b])), |picks[b]|)
  }

  /** The correct count of Score over the first m batches. */
  function ScoreCorrect(t: MnistTask, picks: seq<seq<nat>>, run: Scoring.Run, m: nat): (c: nat)
    requires m <= |picks| && PicksValid(t, picks) && RunCoversAll(t, picks, run, m)
    ensures c <= TotalLanes(picks, m)
  {
    if m == 0 then 0
    else
      var pick := picks[m - 1];
      ScoreCorrect(t, picks, run, m - 1) + LanesCorrect(t, pick, run(TestSequences(t, pick)), |pick|)
  }

  /** Score's outcome: the correct count over all batches, or OutOfRange where the Go code panics. */
  function ScoreResult(t: MnistTask, picks: seq<seq<nat>>, run: Scoring.Run): (r: Scoring.Result<nat>)
    requires PicksValid(t, picks)
    ensures r.Ok? <==> RunCoversAll(t, picks, run, |picks|)
    ensures r.Ok? ==> r.value <= TotalLanes(picks, |picks|)
  {
    if RunCoversAll(t, picks, run, |picks|) then Scoring.Ok(ScoreCorrect(t, picks, run, |picks|))
    else Scoring.Err(Scoring.OutOfRange)
  }

  /** Score builds each test image's input sequence exactly as NewSamples does. */
  method ImageSequence(img: Image) returns (inputs: seq<Vector>)
    ensures inputs == ImageInputs(img)
  {
    inputs := [];
    var i := 0;
    while i < |img.Intensities|
      invariant 0 <= i <= |img.Intensities|
      invariant inputs == ImageInputs(img)[..i]
    {
      inputs := inputs + [[img.Intensities[i], 0.0]];
      i := i + 1;
    }
    inputs := inputs + [[0.0, 1.0]];
  }

  /** The labels and input sequences of one batch of picked test images. */
  method TestBatch(t: MnistTask, pick: seq<nat>) returns (labels: seq<int>, sequences: seq<seq<Vector>>)
    requires forall j :: 0 <= j < |pick| ==> pick[j] < |t.testing|
    ensures |labels| == |pick| && forall j :: 0 <= j < |pick| ==> labels[j] == t.testing[pick[j]].Label
    ensures sequences == TestSequences(t, pick)
  {
    labels, sequences := [], [];
    var j := 0;
    while j < |pick|
      invariant 0 <= j <= |pick|
      invariant |labels| == j && forall k :: 0 <= k < j ==> labels[k] == t.testing[pick[k]].Label
      invariant sequences == TestSequences(t, pick[..j])
    {
      var sample := t.testing[pick[j]];
      labels := labels + [sample.Label];
      var inputs := ImageSequence(sample);
      assert pick[..j + 1] == pick[..j] + [pick[j]];
      sequences := sequences + [inputs];
      j := j + 1;
    }
    assert pick[..j] == pick;
  }

  /** Compares each lane's maxIdx with its label. */
  method CountLanes(t: MnistTask, pick: seq<nat>, labels: seq<int>, outs: seq<seq<Vector>>)
    returns (r: Scoring.Result<nat>)
    requires forall j :: 0 <= j < |pick| ==> pick[j] < |t.testing|
    requires |labels| == |pick| && forall j :: 0 <= j < |pick| ==> labels[j] == t.testing[pick[j]].Label
    ensures r == LanesResult(t, pick, outs)
  {
    var correct := 0;
    var j := 0;
    while j < |labels|
      invariant 0 <= j <= |labels|
      invariant RunCovers(outs, j)
      invariant correct == LanesCorrect(t, pick, outs, j)
    {
      if j >= |outs| || |outs[j]| == 0 {
        return Scoring.Err(Scoring.OutOfRange);
      }
      var lastOut := outs[j][|outs[j]| - 1];
      if |lastOut| == 0 {
        return Scoring.Err(Scoring.OutOfRange);
      }
      var idx := MaxIdx(lastOut);
      if idx == labels[j] {
        correct := correct + 1;
      }
      j := j + 1;
    }
    r := Scoring.Ok(correct);
  }

  /**
   * Score: batchCount batches of batchSize picked test images, run through
   * the model; the count of lanes classified correctly, out of
   * batchSize * batchCount.
   */
  method Score(t: MnistTask, batchSize: nat, batchCount: nat, picks: seq<seq<nat>>, run: Scoring.Run)
    returns (r: Scoring.Result<nat>)
    requires |picks| == batchCount && forall b :: 0 <= b < batchCount ==> |picks[b]| == batchSize
    requires PicksValid(t, picks)
    ensures r == ScoreResult(t, picks, run)
    ensures r.Ok? ==> r.value <= batchSize * batchCount
  {
    var correct := 0;
    var i := 0;
    while i < batchCount
      invariant 0 <= i <= batchCount
      invariant RunCoversAll(t, picks, run, i)
      invariant correct == ScoreCorrect(t, picks, run, i)
    {
      var labels, sequences := TestBatch(t, picks[i]);
      var outs := run(sequences);
      var batch := CountLanes(t, picks[i], labels, outs);
      if batch.Err? {
        BatchFails(t, picks, run, i);
        return batch;
      }
      BatchCounts(t, picks, run, i);
      correct := correct + batch.value;
      i := i + 1;
    }
    UniformLanes(picks, batchSize, batchCount);
    r := Scoring.Ok(correct);
  }

  /** A batch whose lanes are not covered makes the whole score OutOfRange. */
  lemma BatchFails(t: MnistTask, picks: seq<seq<nat>>, run: Scoring.Run, i: nat)
    requires i < |picks| && PicksValid(t, picks)
    requires LanesResult(t, picks[i], run(TestSequences(t, picks[i]))).Err?
    ensures ScoreResult(t, picks, run) == LanesResult(t, picks[i], run(TestSequences(t, picks[i])))
  {
  }

  /** A covered batch extends the covered prefix by one batch and adds its correct lanes. */
  lemma BatchCounts(t: MnistTask, picks: seq<seq<nat>>, run: Scoring.Run, i: nat)
    requires i < |picks| && PicksValid(t, picks) && RunCoversAll(t, picks, run, i)
    requires LanesResult(t, picks[i], run(TestSequences(t, picks[i]))).Ok?
    ensures RunCoversAll(t, picks, run, i + 1)
    ensures ScoreCorrect(t, picks, run, i + 1)
      == ScoreCorrect(t, picks, run, i) + LanesResult(t, picks[i], run(TestSequences(t, picks[i]))).value
  {
  }

  /** A model whose last output of every lane is one-hot at the label classifies every test image. */
  lemma {:induction false} PerfectClassifier(t: MnistTask, picks: seq<seq<nat>>, run: Scoring.Run, m: nat)
    requires m <= |picks| && PicksValid(t, picks) && RunCoversAll(t, picks, run, |picks|)
    requires forall b, j :: 0 <= b < |picks| && 0 <= j < |picks[b]| ==>
      0 <= t.testing[picks[b][j]].Label < 10
      && LastOut(run(TestSequences(t, picks[b])), j) == OneHot(10, t.testing[picks[b][j]].Label)
    ensures ScoreCorrect(t, picks, run, m) == TotalLanes(picks, m)
    ensures m == |picks| ==> ScoreResult(t, picks, run) == Scoring.Ok(TotalLanes(picks, m))
  {
    if m > 0 {
      PerfectClassifier(t, picks, run, m - 1);
      var pick := picks[m - 1];
      PerfectLanes(t, pick, run(TestSequences(t, pick)), |pick|);
    }
  }

  lemma {:induction false} PerfectLanes(t: MnistTask, pick: seq<nat>, outs: seq<seq<Vector>>, n: nat)
    requires n <= |pick| && forall j :: 0 <= j < |pick| ==> pick[j] < |t.testing|
    requires RunCovers(outs, |pick|)
    requires forall j :: 0 <= j < |pick| ==>
      0 <= t.testing[pick[j]].Label < 10 && LastOut(outs, j) == OneHot(10, t.testing[pick[j]].Label)
    ensures LanesCorrect(t, pick, outs, n) == n
  {
    if n > 0 {
      PerfectLanes(t, pick, outs, n - 1);
      ArgMaxOneHot(10, t.testing[pick[n - 1]].Label);
    }
  }

  /** With every batch batchSize long, m batches hold batchSize * m lanes. */
  lemma {:induction false} UniformLanes(picks: seq<seq<nat>>, size: nat, m: nat)
    requires m <= |picks| && forall b :: 0 <= b < |picks| ==> |picks[b]| == size
    ensures TotalLanes(picks, m) == size * m
  {
    if m > 0 {
      UniformLanes(picks, size, m - 1);
      assert size * m == size * (m - 1) + size;
    }
  }

  /** The number of lanes in the first m batches. */
  function TotalLanes(picks: seq<seq<nat>>, m: nat): nat
    requires m <= |picks|
  {
    if m == 0 then 0 else TotalLanes(picks, m - 1) + |picks[m - 1]|
  }

  /** InputSize and OutputSize are the widths of every input and every target vector NewSamples builds. */
  lemma SizesMatch(t: MnistTask, picks: seq<nat>)
    requires forall i :: 0 <= i < |picks| ==> picks[i] < |t.training| && 0 <= t.training[picks[i]].Label < 10
    ensures forall i :: 0 <= i < |picks| ==> WellFormed(MnistSample(t.training[picks[i]]), InputSize(t), OutputSize(t))
  {
    forall i | 0 <= i < |picks|
      ensures WellFormed(MnistSample(t.training[picks[i]]), InputSize(t), OutputSize(t))
    {
      MnistLayout(t, t.training[picks[i]]);
    }
  }
}
