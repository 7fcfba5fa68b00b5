/**
 * The shared scoring routine: rounded binary accuracy restricted to the tail
 * of each sequence, accumulated over several freshly drawn batches.
 */
module Scoring {
  import opened Vectors

  /** The two accumulators of the score; the score itself is correct / total. */
  datatype Counts = Counts(correct: nat, total: nat)

  /**
   * The fatal conditions of the routine: the tail finder panics, or a slice or
   * an index is out of range. The latter covers a tail past the end of the
   * expected or of the model's sequence, and a model output with fewer lanes,
   * timesteps or components than the routine reads.
   */
  datatype ScoreError = NoTailFound | OutOfRange

  datatype Result<T> = Ok(value: T) | Err(error: ScoreError)

  /** Model.Run: maps a batch of input sequences to a batch of output sequences. */
  type Run = seq<seq<Vector>> -> seq<seq<Vector>>

  /** A task's tail finder; None is its "no tail found" panic. */
  type TailFinder = seq<Vector> -> Option<nat>

  /** Go's float64-to-int conversion, which truncates toward zero. */
  function Truncate(y: real): (i: int)
    ensures 0.0 <= y ==> i as real <= y < i as real + 1.0
    ensures y < 0.0 ==> i as real - 1.0 < y <= i as real
  {
    if y >= 0.0 then y.Floor else -((-y).Floor)
  }

  /** The rounding of a model output: int(x + 0.5), clamped into {0, 1}. */
  function RoundBit(x: real): (a: int)
    ensures a == 0 || a == 1
    ensures a == 1 <==> x >= 0.5
  {
    var a := Truncate(x + 0.5);
    if a < 0 then 0 else if a > 1 then 1 else a
  }

  function Hit(expected: real, actual: real): nat
  {
    if RoundBit(actual) as real == expected then 1 else 0
  }

  /** The actual sequence has a vector at every expected timestep, each at least as wide. */
  predicate Covers(e: seq<Vector>, a: seq<Vector>)
  {
    |e| <= |a| && forall t :: 0 <= t < |e| ==> |e[t]| <= |a[t]|
  }

  /**
   * A lane can be scored from `tail` on without an index out of range: both
   * slices exist, and every expected vector of the tail has an actual vector
   * at least as wide. Timesteps before the tail are never read.
   */
  predicate Scorable(e: seq<Vector>, a: seq<Vector>, tail: nat)
  {
    tail <= |e| && tail <= |a| && Covers(e[tail..], a[tail..])
  }

  /** Number of components of e matched by the rounded components of a. */
  function VecCorrect(e: Vector, a: Vector): (n: nat)
    requires |e| <= |a|
    ensures n <= |e|
    decreases |e|
  {
    if |e| == 0 then 0
    else VecCorrect(e[..|e| - 1], a) + Hit(e[|e| - 1], a[|e| - 1])
  }

  /** Number of components of all vectors of e. */
  function StepsTotal(e: seq<Vector>): nat
  {
    if |e| == 0 then 0 else StepsTotal(e[..|e| - 1]) + |e[|e| - 1]|
  }

  /** Number of components of all vectors of e matched by a. */
  function StepsCorrect(e: seq<Vector>, a: seq<Vector>): (n: nat)
    requires Covers(e, a)
    ensures n <= StepsTotal(e)
  {
    if |e| == 0 then 0
    else StepsCorrect(e[..|e| - 1], a) + VecCorrect(e[|e| - 1], a[|e| - 1])
  }

  /** What one lane contributes: only the timesteps from `tail` on are compared. */
  function LaneCounts(e: seq<Vector>, a: seq<Vector>, tail: nat): (c: Counts)
    requires Scorable(e, a, tail)
    ensures c.correct <= c.total
  {
    Counts(StepsCorrect(e[tail..], a[tail..]), StepsTotal(e[tail..]))
  }

  /** The counts of one lane's tail, or the index-out-of-range panic. */
  function TailResult(e: seq<Vector>, a: seq<Vector>, tail: nat): Result<Counts>
  {
    if Scorable(e, a, tail) then Ok(LaneCounts(e, a, tail)) else Err(OutOfRange)
  }

  function Add(c: Counts, d: Counts): Counts
  {
    Counts(c.correct + d.correct, c.total + d.total)
  }

  /** Sequencing of two fallible steps: the first failure wins, otherwise the counts add up. */
  function Then(r: Result<Counts>, s: Result<Counts>): Result<Counts>
  {
    match r
    case Err(_) => r
    case Ok(c) =>
      match s
      case Err(_) => s
      case Ok(d) => Ok(Add(c, d))
  }

  function InputsOf(batch: seq<Sample>): (ins: seq<seq<Vector>>)
    ensures |ins| == |batch|
  {
    seq(|batch|, l requires 0 <= l < |batch| => batch[l].inputs)
  }

  function OutputsOf(batch: seq<Sample>): (outs: seq<seq<Vector>>)
    ensures |outs| == |batch|
  {
    seq(|batch|, l requires 0 <= l < |batch| => batch[l].outputs)
  }

  /** The model's output has a sequence per lane, covering that lane's expected outputs. */
  predicate RunFits(batch: seq<Sample>, actual: seq<seq<Vector>>)
  {
    |batch| <= |actual| && forall l :: 0 <= l < |batch| ==> Covers(batch[l].outputs, actual[l])
  }

  predicate RunFitsAll(batches: seq<seq<Sample>>, run: Run)
  {
    forall b :: 0 <= b < |batches| ==> RunFits(batches[b], run(InputsOf(batches[b])))
  }

  /** One lane: find the tail, then read actual[lane] and count its tail, failing as the source does. */
  function LaneResult(s: Sample, actual: seq<seq<Vector>>, lane: nat, tailOf: TailFinder): Result<Counts>
  {
    match tailOf(s.inputs)
    case None => Err(NoTailFound)
    case Some(k) => if lane < |actual| then TailResult(s.outputs, actual[lane], k) else Err(OutOfRange)
  }

  /** All lanes of one batch, in order. */
  function LanesResult(batch: seq<Sample>, actual: seq<seq<Vector>>, tailOf: TailFinder): (r: Result<Counts>)
    ensures r.Ok? ==> r.value.correct <= r.value.total
  {
    if |batch| == 0 then Ok(Counts(0, 0))
    else
      Then(LanesResult(batch[..|batch| - 1], actual, tailOf),
           LaneResult(batch[|batch| - 1], actual, |batch| - 1, tailOf))
  }

  /** The whole score: each batch is run through the model once, then its lanes are counted. */
  function ScoreResult(batches: seq<seq<Sample>>, run: Run, tailOf: TailFinder): (r: Result<Counts>)
    ensures r.Ok? ==> r.value.correct <= r.value.total
  {
    if |batches| == 0 then Ok(Counts(0, 0))
    else
      var last := batches[|batches| - 1];
      Then(ScoreResult(batches[..|batches| - 1], run, tailOf),
           LanesResult(last, run(InputsOf(last)), tailOf))
  }

  /** The score as a fraction; undefined (NaN in the source) when nothing was counted. */
  function Fraction(c: Counts): (f: real)
    requires 0 < c.total && c.correct <= c.total
    ensures 0.0 <= f <= 1.0
    ensures f == 1.0 <==> c.correct == c.total
    ensures f == 0.0 <==> c.correct == 0
  {
    c.correct as real / c.total as real
  }

  /** The per-lane loops: slice the tail, then compare every rounded component of it. */
  method CountTail(expected: seq<Vector>, actual: seq<Vector>, tail: nat) returns (r: Result<Counts>)
    ensures r == TailResult(expected, actual, tail)
  {
    if tail > |actual| || tail > |expected| {
      return Err(OutOfRange);
    }
    var actSeq := actual[tail..];
    var expSeq := expected[tail..];
    var totalCorrect, totalOutputs := 0, 0;
    var t := 0;
    while t < |expSeq|
      invariant 0 <= t <= |expSeq|
      invariant Covers(expSeq[..t], actSeq)
      invariant totalCorrect == StepsCorrect(expSeq[..t], actSeq)
      invariant totalOutputs == StepsTotal(expSeq[..t])
    {
      if t >= |actSeq| {
        return Err(OutOfRange);
      }
      var expVec := expSeq[t];
      var actVec := actSeq[t];
      var j := 0;
      while j < |expVec|
        invariant 0 <= j <= |expVec| && j <= |actVec|
        invariant totalCorrect == StepsCorrect(expSeq[..t], actSeq) + VecCorrect(expVec[..j], actVec)
        invariant totalOutputs == StepsTotal(expSeq[..t]) + j
      {
        if j >= |actVec| {
          assert |expSeq[t]| > |actSeq[t]|;
          return Err(OutOfRange);
        }
        var x := expVec[j];
        var a := Truncate(actVec[j] + 0.5);
        if a < 0 {
          a := 0;
        } else if a > 1 {
          a := 1;
        }
        assert expVec[..j + 1][..j] == expVec[..j];
        if a as real == x {
          totalCorrect := totalCorrect + 1;
        }
        totalOutputs := totalOutputs + 1;
        j := j + 1;
      }
      assert expVec[..j] == expVec;
      assert expSeq[..t + 1][..t] == expSeq[..t];
      assert Covers(expSeq[..t + 1], actSeq) by {
        forall k | 0 <= k < t + 1
          ensures |expSeq[..t + 1][k]| <= |actSeq[k]|
        {
          if k < t {
            assert expSeq[..t + 1][k] == expSeq[..t][k];
          }
        }
      }
      t := t + 1;
    }
    assert expSeq[..t] == expSeq;
    r := Ok(Counts(totalCorrect, totalOutputs));
  }

  lemma LanesStep(batch: seq<Sample>, actual: seq<seq<Vector>>, tailOf: TailFinder, lane: nat)
    requires lane < |batch|
    ensures LanesResult(batch[..lane + 1], actual, tailOf)
         == Then(LanesResult(batch[..lane], actual, tailOf), LaneResult(batch[lane], actual, lane, tailOf))
  {
    PrefixOfPrefix(batch, lane + 1, lane);
  }

  /** A lane that counts adds its counts to those of the lanes before it. */
  lemma LanesOkStep(batch: seq<Sample>, actual: seq<seq<Vector>>, tailOf: TailFinder, lane: nat, acc: Counts, c: Counts)
    requires lane < |batch|
    requires LanesResult(batch[..lane], actual, tailOf) == Ok(acc)
    requires LaneResult(batch[lane], actual, lane, tailOf) == Ok(c)
    ensures LanesResult(batch[..lane + 1], actual, tailOf) == Ok(Add(acc, c))
  {
    LanesStep(batch, actual, tailOf, lane);
  }

  /** The first lane that fails decides the result of the whole batch. */
  lemma LanesErrStep(batch: seq<Sample>, actual: seq<seq<Vector>>, tailOf: TailFinder, lane: nat)
    requires lane < |batch|
    requires LanesResult(batch[..lane], actual, tailOf).Ok?
    requires LaneResult(batch[lane], actual, lane, tailOf).Err?
    ensures LanesResult(batch, actual, tailOf) == LaneResult(batch[lane], actual, lane, tailOf)
  {
    LanesStep(batch, actual, tailOf, lane);
    LanesErrorPersists(batch, actual, tailOf, lane + 1);
  }

  /** An error in an earlier lane is the result of the whole batch. */
  lemma {:induction false} LanesErrorPersists(batch: seq<Sample>, actual: seq<seq<Vector>>, tailOf: TailFinder, m: nat)
    requires m <= |batch|
    requires LanesResult(batch[..m], actual, tailOf).Err?
    ensures LanesResult(batch, actual, tailOf) == LanesResult(batch[..m], actual, tailOf)
    decreases |batch| - m
  {
    if m < |batch| {
      var n := |batch|;
      PrefixOfPrefix(batch, n - 1, m);
      LanesErrorPersists(batch[..n - 1], actual, tailOf, m);
    } else {
      assert batch[..m] == batch;
    }
  }

  /** The score through batch i is the score before it followed by batch i's lanes. */
  lemma ScoreSnoc(batches: seq<seq<Sample>>, run: Run, tailOf: TailFinder, i: nat)
    requires i < |batches|
    ensures ScoreResult(batches[..i + 1], run, tailOf)
         == Then(ScoreResult(batches[..i], run, tailOf), LanesResult(batches[i], run(InputsOf(batches[i])), tailOf))
  {
    PrefixOfPrefix(batches, i + 1, i);
    assert batches[..i + 1][i] == batches[i];
  }

  /** Each batch is run once, and the counts of its lanes add to those of the batches before it. */
  lemma ScoreOkStep(batches: seq<seq<Sample>>, run: Run, tailOf: TailFinder, i: nat, acc: Counts, c: Counts)
    requires i < |batches|
    requires ScoreResult(batches[..i], run, tailOf) == Ok(acc)
    requires LanesResult(batches[i], run(InputsOf(batches[i])), tailOf) == Ok(c)
    ensures ScoreResult(batches[..i + 1], run, tailOf) == Ok(Add(acc, c))
  {
    ScoreSnoc(batches, run, tailOf, i);
  }

  /** The first batch that fails decides the result of the whole score. */
  lemma ScoreErrStep(batches: seq<seq<Sample>>, run: Run, tailOf: TailFinder, i: nat)
    requires i < |batches|
    requires ScoreResult(batches[..i], run, tailOf).Ok?
    requires LanesResult(batches[i], run(InputsOf(batches[i])), tailOf).Err?
    ensures ScoreResult(batches, run, tailOf) == LanesResult(batches[i], run(InputsOf(batches[i])), tailOf)
  {
    ScoreSnoc(batches, run, tailOf, i);
    ScoreErrorPersists(batches, run, tailOf, i + 1);
  }

  /** An error in an earlier batch is the result of the whole score. */
  lemma {:induction false} ScoreErrorPersists(batches: seq<seq<Sample>>, run: Run, tailOf: TailFinder, m: nat)
    requires m <= |batches|
    requires ScoreResult(batches[..m], run, tailOf).Err?
    ensures ScoreResult(batches, run, tailOf) == ScoreResult(batches[..m], run, tailOf)
    decreases |batches| - m
  {
    if m < |batches| {
      var n := |batches|;
      PrefixOfPrefix(batches, n - 1, m);
      ScoreErrorPersists(batches[..n - 1], run, tailOf, m);
    } else {
      assert batches[..m] == batches;
    }
  }

  /** The loop of lines 28-32: gather each sample's inputs and expected outputs. */
  method CollectBatch(batch: seq<Sample>) returns (inputs: seq<seq<Vector>>, expected: seq<seq<Vector>>)
    ensures inputs == InputsOf(batch) && expected == OutputsOf(batch)
  {
    inputs, expected := [], [];
    var k := 0;
    while k < |batch|
      invariant 0 <= k <= |batch|
      invariant inputs == InputsOf(batch[..k]) && expected == OutputsOf(batch[..k])
    {
      inputs := inputs + [batch[k].inputs];
      expected := expected + [batch[k].outputs];
      k := k + 1;
    }
    assert batch[..k] == batch;
  }

  /** The loop over lanes of one batch: find each lane's tail and count it. */
  method ScoreLanes(batch: seq<Sample>, actual: seq<seq<Vector>>, tailOf: TailFinder) returns (r: Result<Counts>)
    ensures r == LanesResult(batch, actual, tailOf)
  {
    var totals := Counts(0, 0);
    var lane := 0;
    while lane < |batch|
      invariant 0 <= lane <= |batch|
      invariant LanesResult(batch[..lane], actual, tailOf) == Ok(totals)
    {
      var tailIdx := tailOf(batch[lane].inputs);
      if tailIdx.None? || lane >= |actual| {
        r := if tailIdx.None? then Err(NoTailFound) else Err(OutOfRange);
        LanesErrStep(batch, actual, tailOf, lane);
        return;
      }
      var c := CountTail(batch[lane].outputs, actual[lane], tailIdx.value);
      if c.Err? {
        r := c;
        LanesErrStep(batch, actual, tailOf, lane);
        return;
      }
      LanesOkStep(batch, actual, tailOf, lane, totals, c.value);
      totals := Add(totals, c.value);
      lane := lane + 1;
    }
    assert batch[..lane] == batch;
    r := Ok(totals);
  }

  /**
   * roundedBinaryTailScore: batchCount times, a fresh batch of batchSize samples
   * is run through the model once, and every lane's tail is counted.
   */
  method RoundedBinaryTailScore(batchSize: nat, batchCount: nat, batches: seq<seq<Sample>>,
                                run: Run, tailOf: TailFinder) returns (r: Result<Counts>)
    requires |batches| == batchCount
    requires forall b :: 0 <= b < |batches| ==> |batches[b]| == batchSize
    ensures r == ScoreResult(batches, run, tailOf)
  {
    var totals := Counts(0, 0);
    var i := 0;
    while i < batchCount
      invariant 0 <= i <= batchCount
      invariant ScoreResult(batches[..i], run, tailOf) == Ok(totals)
    {
      var batch := batches[i];
      var inputs, expected := CollectBatch(batch);
      var actual := run(inputs);
      var lanes := ScoreLanes(batch, actual, tailOf);
      if lanes.Err? {
        ScoreErrStep(batches, run, tailOf, i);
        return lanes;
      }
      ScoreOkStep(batches, run, tailOf, i, totals, lanes.value);
      totals := Add(totals, lanes.value);
      i := i + 1;
    }
    assert batches[..i] == batches;
    r := Ok(totals);
  }

  /** The tail finder of roundedBinaryScore: the whole sequence is scored. */
  function WholeSequence(s: seq<Vector>): Option<nat>
  {
    Some(0)
  }

  /** Every batch has m samples, each with n targets of width w. */
  predicate Uniform(batches: seq<seq<Sample>>, m: nat, n: nat, w: nat)
  {
    (forall b :: 0 <= b < |batches| ==> |batches[b]| == m)
    && forall b, l :: 0 <= b < |batches| && 0 <= l < |batches[b]| ==>
         |batches[b][l].outputs| == n && Widths(batches[b][l].outputs, w)
  }

  /**
   * roundedBinaryScore as written: it passes batchSize where the batch count
   * belongs, so batchSize batches are drawn and batchCount is ignored.
   */
  method RoundedBinaryScore(batchSize: nat, batchCount: nat, batches: seq<seq<Sample>>, run: Run)
    returns (r: Result<Counts>)
    requires |batches| == batchSize
    requires forall b :: 0 <= b < |batches| ==> |batches[b]| == batchSize
    ensures r == ScoreResult(batches, run, WholeSequence)
    ensures r.Ok? <==> RunFitsAll(batches, run)
    ensures forall n: nat, w: nat :: Uniform(batches, batchSize, n, w) && r.Ok? ==>
              r.value.total == batchSize * (batchSize * (n * w))
  {
    r := RoundedBinaryTailScore(batchSize, batchSize, batches, run, WholeSequence);
    WholeSequenceOk(batches, run);
    forall n: nat, w: nat | Uniform(batches, batchSize, n, w) && r.Ok?
      ensures r.value.total == batchSize * (batchSize * (n * w))
    {
      WholeSequenceTotal(batches, run, batchSize, n, w);
    }
  }

  /** roundedBinaryScore as evidently intended: batchCount batches of batchSize samples. */
  method RoundedBinaryScoreIntended(batchSize: nat, batchCount: nat, batches: seq<seq<Sample>>, run: Run)
    returns (r: Result<Counts>)
    requires |batches| == batchCount
    requires forall b :: 0 <= b < |batches| ==> |batches[b]| == batchSize
    ensures r == ScoreResult(batches, run, WholeSequence)
    ensures r.Ok? <==> RunFitsAll(batches, run)
    ensures forall n: nat, w: nat :: Uniform(batches, batchSize, n, w) && r.Ok? ==>
              r.value.total == batchCount * (batchSize * (n * w))
  {
    r := RoundedBinaryTailScore(batchSize, batchCount, batches, run, WholeSequence);
    WholeSequenceOk(batches, run);
    forall n: nat, w: nat | Uniform(batches, batchSize, n, w) && r.Ok?
      ensures r.value.total == batchCount * (batchSize * (n * w))
    {
      WholeSequenceTotal(batches, run, batchSize, n, w);
    }
  }

  /**
   * The discrepancy of roundedBinaryScore as written: with n targets of width w
   * per sample it counts batchSize * batchSize * n * w outputs, which differs from
   * the batchCount * batchSize * n * w of the batches the caller asked for as
   * soon as batchCount != batchSize and anything is counted at all.
   */
  lemma WrittenTotalIgnoresBatchCount(batchSize: nat, batchCount: nat, batches: seq<seq<Sample>>,
                                      run: Run, n: nat, w: nat)
    requires |batches| == batchSize && Uniform(batches, batchSize, n, w) && RunFitsAll(batches, run)
    requires batchCount != batchSize && batchSize > 0 && n * w > 0
    ensures ScoreResult(batches, run, WholeSequence).Ok?
    ensures ScoreResult(batches, run, WholeSequence).value.total != batchCount * (batchSize * (n * w))
  {
    WholeSequenceTotal(batches, run, batchSize, n, w);
    MulPositive(batchSize, n * w);
    MulCancel(batchCount, batchSize, batchSize * (n * w));
  }

  lemma MulPositive(a: nat, b: nat)
    requires a > 0 && b > 0
    ensures a * b > 0
  {
  }

  lemma MulCancel(a: nat, b: nat, x: nat)
    requires a != b && x > 0
    ensures a * x != b * x
  {
  }

  lemma MulSucc(k: nat, x: nat)
    requires k > 0
    ensures (k - 1) * x + x == k * x
  {
  }

  /** With tail 0 a batch fails exactly when the model's output does not cover it. */
  lemma {:induction false} WholeSequenceLanes(batch: seq<Sample>, actual: seq<seq<Vector>>)
    ensures LanesResult(batch, actual, WholeSequence).Ok? <==> RunFits(batch, actual)
    decreases |batch|
  {
    if |batch| > 0 {
      var n := |batch|;
      var p := batch[..n - 1];
      WholeSequenceLanes(p, actual);
      assert forall l :: 0 <= l < n - 1 ==> p[l] == batch[l];
      var e := batch[n - 1].outputs;
      if n - 1 < |actual| {
        assert e[0..] == e && actual[n - 1][0..] == actual[n - 1];
      }
      if RunFits(batch, actual) {
        assert RunFits(p, actual);
      }
    }
  }

  /** With tail 0 the score fails exactly when some batch's output does not cover it. */
  lemma {:induction false} WholeSequenceOk(batches: seq<seq<Sample>>, run: Run)
    ensures ScoreResult(batches, run, WholeSequence).Ok? <==> RunFitsAll(batches, run)
    decreases |batches|
  {
    if |batches| > 0 {
      var n := |batches|;
      var p := batches[..n - 1];
      WholeSequenceOk(p, run);
      assert forall b :: 0 <= b < n - 1 ==> p[b] == batches[b];
      var last := batches[n - 1];
      WholeSequenceLanes(last, run(InputsOf(last)));
      if RunFitsAll(batches, run) {
        assert RunFitsAll(p, run);
      }
    }
  }

  /** With tail 0 and uniform lanes, a batch counts every target component of every lane. */
  lemma {:induction false} WholeSequenceLanesTotal(batch: seq<Sample>, actual: seq<seq<Vector>>, n: nat, w: nat)
    requires RunFits(batch, actual)
    requires forall l :: 0 <= l < |batch| ==> |batch[l].outputs| == n && Widths(batch[l].outputs, w)
    ensures LanesResult(batch, actual, WholeSequence).Ok?
    ensures LanesResult(batch, actual, WholeSequence).value.total == |batch| * (n * w)
    decreases |batch|
  {
    WholeSequenceLanes(batch, actual);
    if |batch| > 0 {
      var k := |batch|;
      var p := batch[..k - 1];
      assert RunFits(p, actual);
      WholeSequenceLanesTotal(p, actual, n, w);
      var e := batch[k - 1].outputs;
      assert Covers(e, actual[k - 1]);
      assert e[0..] == e && actual[k - 1][0..] == actual[k - 1];
      LaneTotalUniform(e, actual[k - 1], 0, w);
      MulSucc(k, n * w);
    }
  }

  /** With tail 0 and uniform batches, the score counts every target component. */
  lemma {:induction false} WholeSequenceTotal(batches: seq<seq<Sample>>, run: Run, m: nat, n: nat, w: nat)
    requires RunFitsAll(batches, run) && Uniform(batches, m, n, w)
    ensures ScoreResult(batches, run, WholeSequence).Ok?
    ensures ScoreResult(batches, run, WholeSequence).value.total == |batches| * (m * (n * w))
    decreases |batches|
  {
    WholeSequenceOk(batches, run);
    if |batches| > 0 {
      var k := |batches|;
      var p := batches[..k - 1];
      assert forall b :: 0 <= b < k - 1 ==> p[b] == batches[b];
      assert RunFitsAll(p, run) && Uniform(p, m, n, w);
      WholeSequenceTotal(p, run, m, n, w);
      var last := batches[k - 1];
      WholeSequenceLanesTotal(last, run(InputsOf(last)), n, w);
      MulSucc(k, m * (n * w));
    }
  }

  /** Steps of the model's output before the tail are never read: outputs that agree from the tail on score alike. */
  lemma PreTailNeverRead(e: seq<Vector>, a: seq<Vector>, a2: seq<Vector>, tail: nat)
    requires tail <= |a| && tail <= |a2| && a[tail..] == a2[tail..]
    ensures TailResult(e, a, tail) == TailResult(e, a2, tail)
  {
  }

  /** Every compared component of e differs from the rounded component of a. */
  predicate Missed(e: seq<Vector>, a: seq<Vector>)
  {
    forall t, j :: 0 <= t < |e| && t < |a| && 0 <= j < |e[t]| && j < |a[t]| ==> RoundBit(a[t][j]) as real != e[t][j]
  }

  /** Every rounded component in the tail of the lane is wrong. */
  predicate TailMissed(s: Sample, actual: seq<Vector>, tailOf: TailFinder)
  {
    match tailOf(s.inputs)
    case None => true
    case Some(k) => k <= |s.outputs| && k <= |actual| ==> Missed(s.outputs[k..], actual[k..])
  }

  /** The tail finder succeeds on the lane and stays within it. */
  predicate TailFits(s: Sample, tailOf: TailFinder)
  {
    tailOf(s.inputs).Some? && tailOf(s.inputs).value <= |s.outputs|
  }

  lemma {:induction false} VecSelfCorrect(v: Vector)
    requires forall j :: 0 <= j < |v| ==> v[j] == 0.0 || v[j] == 1.0
    ensures VecCorrect(v, v) == |v|
    decreases |v|
  {
    if |v| > 0 {
      var p := v[..|v| - 1];
      assert VecCorrect(v, v) == VecCorrect(p, v) + Hit(v[|v| - 1], v[|v| - 1]);
      VecPrefixCorrect(p, v);
      VecSelfCorrect(p);
    }
  }

  /** Only the first |e| components of a take part in VecCorrect(e, a). */
  lemma {:induction false} VecPrefixCorrect(e: Vector, a: Vector)
    requires |e| <= |a|
    ensures VecCorrect(e, a) == VecCorrect(e, a[..|e|])
    decreases |e|
  {
    if |e| > 0 {
      var p := e[..|e| - 1];
      VecPrefixCorrect(p, a);
      VecPrefixCorrect(p, a[..|e|]);
      assert a[..|e|][..|p|] == a[..|p|];
    }
  }

  /** A model that reproduces 0/1 targets exactly gets every component right. */
  lemma {:induction false} StepsSelfCorrect(e: seq<Vector>)
    requires Binary(e)
    ensures Covers(e, e) && StepsCorrect(e, e) == StepsTotal(e)
    decreases |e|
  {
    if |e| > 0 {
      var p := e[..|e| - 1];
      StepsPrefixCorrect(p, e);
      StepsSelfCorrect(p);
      VecSelfCorrect(e[|e| - 1]);
    }
  }

  /** Only the first |e| vectors of a take part in StepsCorrect(e, a). */
  lemma {:induction false} StepsPrefixCorrect(e: seq<Vector>, a: seq<Vector>)
    requires Covers(e, a)
    ensures Covers(e, a[..|e|]) && StepsCorrect(e, a) == StepsCorrect(e, a[..|e|])
    decreases |e|
  {
    if |e| > 0 {
      var p := e[..|e| - 1];
      StepsPrefixCorrect(p, a);
      StepsPrefixCorrect(p, a[..|e|]);
      assert a[..|e|][..|p|] == a[..|p|];
    }
  }

  /** A model whose every rounded component is wrong gets nothing right. */
  lemma {:induction false} StepsMissedNone(e: seq<Vector>, a: seq<Vector>)
    requires Covers(e, a) && Missed(e, a)
    ensures StepsCorrect(e, a) == 0
    decreases |e|
  {
    if |e| > 0 {
      var p := e[..|e| - 1];
      StepsMissedNone(p, a);
      VecMissedNone(e[|e| - 1], a[|e| - 1]);
    }
  }

  lemma {:induction false} VecMissedNone(e: Vector, a: Vector)
    requires |e| <= |a|
    requires forall j :: 0 <= j < |e| ==> RoundBit(a[j]) as real != e[j]
    ensures VecCorrect(e, a) == 0
    decreases |e|
  {
    if |e| > 0 {
      VecMissedNone(e[..|e| - 1], a);
    }
  }

  /** With every vector of width w, the lane counts (|e| - tail) * w components. */
  lemma {:induction false} LaneTotalUniform(e: seq<Vector>, a: seq<Vector>, tail: nat, w: nat)
    requires Scorable(e, a, tail) && Widths(e, w)
    ensures LaneCounts(e, a, tail).total == (|e| - tail) * w
  {
    StepsTotalUniform(e[tail..], w);
  }

  lemma {:induction false} StepsTotalUniform(e: seq<Vector>, w: nat)
    requires Widths(e, w)
    ensures StepsTotal(e) == |e| * w
    decreases |e|
  {
    if |e| > 0 {
      StepsTotalUniform(e[..|e| - 1], w);
    }
  }

  /** One batch run by a model that reproduces every target. */
  lemma {:induction false} PerfectLanes(batch: seq<Sample>, tailOf: TailFinder)
    requires forall l :: 0 <= l < |batch| ==> Binary(batch[l].outputs) && TailFits(batch[l], tailOf)
    ensures LanesResult(batch, OutputsOf(batch), tailOf).Ok?
    ensures LanesResult(batch, OutputsOf(batch), tailOf).value.correct
         == LanesResult(batch, OutputsOf(batch), tailOf).value.total
    decreases |batch|
  {
    var outs := OutputsOf(batch);
    if |batch| > 0 {
      var n := |batch|;
      var p := batch[..n - 1];
      assert OutputsOf(p) == outs[..n - 1];
      PerfectLanes(p, tailOf);
      LanesPrefixRun(p, outs, tailOf);
      var e := batch[n - 1].outputs;
      var k := tailOf(batch[n - 1].inputs).value;
      StepsSelfCorrect(e[k..]);
      assert outs[n - 1] == e;
    }
  }

  /** Only the first |batch| lanes of the model's output take part. */
  lemma {:induction false} LanesPrefixRun(batch: seq<Sample>, actual: seq<seq<Vector>>, tailOf: TailFinder)
    requires |batch| <= |actual|
    ensures LanesResult(batch, actual, tailOf) == LanesResult(batch, actual[..|batch|], tailOf)
    decreases |batch|
  {
    var n := |batch|;
    var cut := actual[..n];
    if n > 0 {
      var p := batch[..n - 1];
      assert cut[..n - 1] == actual[..n - 1];
      assert cut[n - 1] == actual[n - 1];
      LanesPrefixRun(p, actual, tailOf);
      LanesPrefixRun(p, cut, tailOf);
    }
  }

  /**
   * If the model returns exactly the expected outputs, all of them 0 or 1, and
   * every tail is found, every compared component is correct: the score is 1.
   */
  lemma {:induction false} PerfectRunFullScore(batches: seq<seq<Sample>>, run: Run, tailOf: TailFinder)
    requires forall b :: 0 <= b < |batches| ==> run(InputsOf(batches[b])) == OutputsOf(batches[b])
    requires forall b, l :: 0 <= b < |batches| && 0 <= l < |batches[b]| ==>
               Binary(batches[b][l].outputs) && TailFits(batches[b][l], tailOf)
    ensures ScoreResult(batches, run, tailOf).Ok?
    ensures ScoreResult(batches, run, tailOf).value.correct == ScoreResult(batches, run, tailOf).value.total
    decreases |batches|
  {
    if |batches| > 0 {
      var n := |batches|;
      PerfectRunFullScore(batches[..n - 1], run, tailOf);
      PerfectLanes(batches[n - 1], tailOf);
    }
  }

  lemma {:induction false} MissedLanes(batch: seq<Sample>, actual: seq<seq<Vector>>, tailOf: TailFinder)
    requires forall l :: 0 <= l < |batch| && l < |actual| ==> TailMissed(batch[l], actual[l], tailOf)
    ensures LanesResult(batch, actual, tailOf).Ok? ==> LanesResult(batch, actual, tailOf).value.correct == 0
    decreases |batch|
  {
    if |batch| > 0 {
      var n := |batch|;
      MissedLanes(batch[..n - 1], actual, tailOf);
      var s := batch[n - 1];
      match tailOf(s.inputs)
      case None =>
      case Some(k) =>
        if n - 1 < |actual| && Scorable(s.outputs, actual[n - 1], k) {
          StepsMissedNone(s.outputs[k..], actual[n - 1][k..]);
        }
    }
  }

  /**
   * If every rounded component in every tail disagrees with the target, no
   * component is counted correct: the score is 0.
   */
  lemma {:induction false} AllMissedZeroScore(batches: seq<seq<Sample>>, run: Run, tailOf: TailFinder)
    requires forall b, l :: 0 <= b < |batches| && 0 <= l < |batches[b]| && l < |run(InputsOf(batches[b]))| ==>
               TailMissed(batches[b][l], run(InputsOf(batches[b]))[l], tailOf)
    ensures ScoreResult(batches, run, tailOf).Ok? ==> ScoreResult(batches, run, tailOf).value.correct == 0
    decreases |batches|
  {
    if |batches| > 0 {
      var n := |batches|;
      AllMissedZeroScore(batches[..n - 1], run, tailOf);
      var last := batches[n - 1];
      MissedLanes(last, run(InputsOf(last)), tailOf);
    }
  }
}
