/**
 * The addition task: two base-B operands are shown digit by digit, each
 * followed by a delimiter, and the model must then emit the digits of their
 * sum, least significant first, produced by a carry chain.
 */
module Addition {
  import opened Vectors
  import Tails
  import Scoring

  datatype AdditionTask = AdditionTask(maxDigits: int, base: nat)

  /** The random draws of one sample: the operand digits, least significant first. */
  datatype AdditionDraw = AdditionDraw(left: seq<nat>, right: seq<nat>)

  /** Base digit symbols plus the delimiter. */
  function InputSize(t: AdditionTask): nat
  {
    t.base + 1
  }

  function OutputSize(t: AdditionTask): nat
  {
    t.base
  }

  /** digitCount is drawn in [1, MaxDigits] and every digit in [0, Base); rand.Intn needs a positive Base. */
  predicate ValidDraw(t: AdditionTask, d: AdditionDraw)
  {
    0 < t.base && 1 <= |d.left| <= t.maxDigits && |d.right| == |d.left|
    && AllBelow(d.left, t.base) && AllBelow(d.right, t.base)
  }

  /** The input symbol that ends each operand. */
  function Delimiter(t: AdditionTask): Vector
  {
    OneHot(t.base + 1, t.base)
  }

  /** The digits the carry loop emits for operands x and y with carry-in c. */
  function SumDigits(x: seq<nat>, y: seq<nat>, c: nat, base: nat): (r: seq<nat>)
    requires |x| == |y| && base > 0
    ensures |r| == |x| && AllBelow(r, base)
    decreases |x|
  {
    if |x| == 0 then []
    else [(x[0] + y[0] + c) % base] + SumDigits(x[1..], y[1..], (x[0] + y[0] + c) / base, base)
  }

  /** The carry left over after the carry loop. */
  function CarryOut(x: seq<nat>, y: seq<nat>, c: nat, base: nat): nat
    requires |x| == |y| && base > 0
    decreases |x|
  {
    if |x| == 0 then c
    else CarryOut(x[1..], y[1..], (x[0] + y[0] + c) / base, base)
  }

  /** The number a digit list denotes, least significant digit first. */
  function Value(ds: seq<nat>, base: nat): nat
  {
    if |ds| == 0 then 0 else ds[0] + base * Value(ds[1..], base)
  }

  function Pow(base: nat, n: nat): nat
  {
    if n == 0 then 1 else base * Pow(base, n - 1)
  }

  /** The inputs after j of the two operand rounds. */
  function Presentation(t: AdditionTask, d: AdditionDraw, j: nat): seq<Vector>
    requires ValidDraw(t, d) && j <= 2
  {
    if j == 0 then []
    else if j == 1 then Encode(d.left, t.base + 1) + [Delimiter(t)]
    else Encode(d.left, t.base + 1) + [Delimiter(t)] + Encode(d.right, t.base + 1) + [Delimiter(t)]
  }

  /** The answer digits: both operands padded with one zero digit for the final carry. */
  function Answer(t: AdditionTask, d: AdditionDraw): (r: seq<nat>)
    requires ValidDraw(t, d)
    ensures |r| == |d.left| + 1 && AllBelow(r, t.base)
  {
    SumDigits(d.left + [0], d.right + [0], 0, t.base)
  }

  /** The sample NewSamples builds from one draw. */
  function AdditionSample(t: AdditionTask, d: AdditionDraw): Sample
    requires ValidDraw(t, d)
  {
    var n := |d.left|;
    Sample(Presentation(t, d, 2) + Fill(Zeros(t.base + 1), n + 1),
           Fill(Zeros(t.base), 2 * n + 2) + Encode(Answer(t, d), t.base))
  }

  /** The two operand rounds of NewSamples: each digit one-hot, then the delimiter, with zero targets. */
  method PresentOperands(t: AdditionTask, d: AdditionDraw) returns (inputs: seq<Vector>, outputs: seq<Vector>)
    requires ValidDraw(t, d)
    ensures inputs == Presentation(t, d, 2)
    ensures outputs == Fill(Zeros(t.base), 2 * |d.left| + 2)
  {
    var digitCount := |d.left|;
    inputs, outputs := [], [];
    var j := 0;
    while j < 2
      invariant 0 <= j <= 2
      invariant inputs == Presentation(t, d, j)
      invariant outputs == Fill(Zeros(t.base), j * (digitCount + 1))
    {
      var operand := if j == 0 then d.left else d.right;
      inputs, outputs := PresentDigits(t.base, operand, inputs, outputs);
      FillAppend(Zeros(t.base), j * (digitCount + 1), digitCount);
      FillSnoc(Zeros(t.base), j * (digitCount + 1) + digitCount);
      inputs := inputs + [Delimiter(t)];
      outputs := outputs + [Zeros(t.base)];
      j := j + 1;
    }
  }

  /** The digit loop of one operand round: each digit one-hot over base + 1 channels, with a zero target. */
  method PresentDigits(base: nat, operand: seq<nat>, inputs0: seq<Vector>, outputs0: seq<Vector>)
    returns (inputs: seq<Vector>, outputs: seq<Vector>)
    requires AllBelow(operand, base + 1)
    ensures inputs == inputs0 + Encode(operand, base + 1)
    ensures outputs == outputs0 + Fill(Zeros(base), |operand|)
  {
    inputs, outputs := inputs0, outputs0;
    var k := 0;
    while k < |operand|
      invariant 0 <= k <= |operand|
      invariant inputs == inputs0 + Encode(operand[..k], base + 1)
      invariant outputs == outputs0 + Fill(Zeros(base), k)
    {
      var digit := operand[k];
      assert operand[..k + 1] == operand[..k] + [digit];
      EncodeSnoc(operand[..k], digit, base + 1);
      AppendAssoc(inputs0, Encode(operand[..k], base + 1), [OneHot(base + 1, digit)]);
      inputs := inputs + [OneHot(base + 1, digit)];
      FillSnoc(Zeros(base), k);
      AppendAssoc(outputs0, Fill(Zeros(base), k), [Zeros(base)]);
      outputs := outputs + [Zeros(base)];
      k := k + 1;
    }
    assert operand[..k] == operand;
  }

  /** One column of the carry loop: the digit written and the carry passed on. */
  method AddColumn(x: nat, y: nat, carry: nat, base: nat) returns (sum: nat, next: nat)
    requires base > 0
    ensures sum == (x + y + carry) % base && next == (x + y + carry) / base
    ensures sum < base && sum + base * next == x + y + carry
  {
    sum := (x + y + carry) % base;
    next := (x + y + carry) / base;
  }

  /**
   * The carry loop: one all-zero input per padded digit position, and the
   * digits of x + y + carry as one-hot targets, least significant first.
   */
  method CarryLoop(base: nat, leftOperand: seq<nat>, rightOperand: seq<nat>, inputs0: seq<Vector>, outputs0: seq<Vector>)
    returns (inputs: seq<Vector>, outputs: seq<Vector>)
    requires base > 0 && |leftOperand| == |rightOperand|
    ensures inputs == inputs0 + Fill(Zeros(base + 1), |leftOperand|)
    ensures outputs == outputs0 + Encode(SumDigits(leftOperand, rightOperand, 0, base), base)
  {
    inputs, outputs := inputs0, outputs0;
    var carry: nat := 0;
    ghost var emitted: seq<nat> := [];
    var j := 0;
    while j < |leftOperand|
      invariant 0 <= j <= |leftOperand|
      invariant |emitted| == j && AllBelow(emitted, base)
      invariant emitted + SumDigits(leftOperand[j..], rightOperand[j..], carry, base)
             == SumDigits(leftOperand, rightOperand, 0, base)
      invariant inputs == inputs0 + Fill(Zeros(base + 1), j)
      invariant outputs == outputs0 + Encode(emitted, base)
    {
      var x := leftOperand[j];
      var y := rightOperand[j];
      ghost var carryIn := carry;
      var sum;
      sum, carry := AddColumn(x, y, carry, base);
      ColumnAt(leftOperand, rightOperand, carryIn, base, j, sum, carry);
      ghost var rest := SumDigits(leftOperand[j + 1..], rightOperand[j + 1..], carry, base);
      AppendAssoc(emitted, [sum], rest);
      EncodeSnoc(emitted, sum, base);
      AppendAssoc(outputs0, Encode(emitted, base), [OneHot(base, sum)]);
      emitted := emitted + [sum];
      FillSnoc(Zeros(base + 1), j);
      AppendAssoc(inputs0, Fill(Zeros(base + 1), j), [Zeros(base + 1)]);
      inputs := inputs + [Zeros(base + 1)];
      outputs := outputs + [OneHot(base, sum)];
      j := j + 1;
    }
  }

  /** The body of NewSamples for one sample: the two operand rounds, then the carry loop. */
  method NewSample(t: AdditionTask, d: AdditionDraw) returns (s: Sample)
    requires ValidDraw(t, d)
    ensures s == AdditionSample(t, d)
  {
    var inputs, outputs := PresentOperands(t, d);
    inputs, outputs := CarryLoop(t.base, d.left + [0], d.right + [0], inputs, outputs);
    s := Sample(inputs, outputs);
  }

  /** NewSamples: one sample per draw. */
  method NewSamples(t: AdditionTask, draws: seq<AdditionDraw>) returns (batch: seq<Sample>)
    requires forall i :: 0 <= i < |draws| ==> ValidDraw(t, draws[i])
    ensures |batch| == |draws|
    ensures forall i :: 0 <= i < |draws| ==> batch[i] == AdditionSample(t, draws[i])
  {
    batch := [];
    var i := 0;
    while i < |draws|
      invariant 0 <= i <= |draws|
      invariant |batch| == i
      invariant forall k :: 0 <= k < i ==> batch[k] == AdditionSample(t, draws[k])
    {
      var sample := NewSample(t, draws[i]);
      batch := batch + [sample];
      i := i + 1;
    }
  }

  /** A sample has 3 * digitCount + 3 timesteps, inputs of width Base + 1 and outputs of width Base. */
  lemma AdditionLayout(t: AdditionTask, d: AdditionDraw)
    requires ValidDraw(t, d)
    ensures var s := AdditionSample(t, d); var n := |d.left|;
      && WellFormed(s, InputSize(t), OutputSize(t))
      && |s.inputs| == 3 * n + 3
  {
    InputLayout(t, d);
    OutputLayout(t, d);
  }

  /**
   * The inputs: the operands one-hot below Base, each followed by a delimiter
   * one-hot at Base, then all-zero inputs for the answer phase.
   */
  lemma InputLayout(t: AdditionTask, d: AdditionDraw)
    requires ValidDraw(t, d)
    ensures var ins := AdditionSample(t, d).inputs; var n := |d.left|;
      && |ins| == 3 * n + 3
      && (forall i :: 0 <= i < n ==> ins[i] == OneHot(t.base + 1, d.left[i]))
      && ins[n] == Delimiter(t)
      && (forall i :: n < i < 2 * n + 1 ==> ins[i] == OneHot(t.base + 1, d.right[i - n - 1]))
      && ins[2 * n + 1] == Delimiter(t)
      && (forall i :: 2 * n + 2 <= i < 3 * n + 3 ==> ins[i] == Zeros(t.base + 1))
  {
  }

  /** The outputs: zero through the second delimiter, then the answer digits one-hot. */
  lemma OutputLayout(t: AdditionTask, d: AdditionDraw)
    requires ValidDraw(t, d)
    ensures var outs := AdditionSample(t, d).outputs; var n := |d.left|;
      && |outs| == 3 * n + 3
      && (forall i :: 0 <= i < 2 * n + 2 ==> outs[i] == Zeros(t.base))
      && (forall i :: 2 * n + 2 <= i < 3 * n + 3 ==> outs[i] == OneHot(t.base, Answer(t, d)[i - 2 * n - 2]))
  {
  }

  /** Every target component is 0 or 1. */
  lemma AdditionOutputsBinary(t: AdditionTask, d: AdditionDraw)
    requires ValidDraw(t, d)
    ensures Binary(AdditionSample(t, d).outputs)
  {
    OutputLayout(t, d);
  }

  lemma Distribute(a: int, b: int, c: int)
    ensures a * (b + c) == a * b + a * c
  {
  }

  /**
   * The arithmetic of one carry-loop step: with sum = s0 + base * vr,
   * carry term co * pw where pw = base * p, and the operands x0 + base * vx and
   * y0 + base * vy, the step's equation follows from the rest's.
   */
  lemma DigitStep(base: int, s0: int, c1: int, x0: int, y0: int, c: int, vr: int, vx: int, vy: int, co: int, p: int,
                  sum: int, pw: int, lx: int, ly: int)
    requires s0 + base * c1 == x0 + y0 + c
    requires vr + co * p == vx + vy + c1
    requires sum == s0 + base * vr && pw == base * p
    requires lx == x0 + base * vx && ly == y0 + base * vy
    ensures sum + co * pw == lx + ly + c
  {
    assert co * (base * p) == base * (co * p);
    Distribute(base, vr, co * p);
    Distribute(base, vx + vy, c1);
    Distribute(base, vx, vy);
  }

  lemma EncodeSnoc(ds: seq<nat>, d: nat, w: nat)
    requires AllBelow(ds, w) && d < w
    ensures AllBelow(ds + [d], w) && Encode(ds + [d], w) == Encode(ds, w) + [OneHot(w, d)]
  {
  }

  /** One step of the carry loop splits the column total into the digit written and the carry passed on. */
  lemma SplitColumn(x: seq<nat>, y: seq<nat>, c: nat, base: nat) returns (s0: nat, c1: nat)
    requires |x| == |y| > 0 && base > 0
    ensures s0 == (x[0] + y[0] + c) % base && c1 == (x[0] + y[0] + c) / base
    ensures s0 + base * c1 == x[0] + y[0] + c
    ensures SumDigits(x, y, c, base) == [s0] + SumDigits(x[1..], y[1..], c1, base)
    ensures CarryOut(x, y, c, base) == CarryOut(x[1..], y[1..], c1, base)
  {
    var total := x[0] + y[0] + c;
    s0, c1 := total % base, total / base;
  }

  /** The carry loop's step at position j, in the terms the loop computes. */
  lemma ColumnAt(x: seq<nat>, y: seq<nat>, c: nat, base: nat, j: nat, sum: nat, next: nat)
    requires j < |x| == |y| && base > 0
    requires sum == (x[j] + y[j] + c) % base && next == (x[j] + y[j] + c) / base
    ensures SumDigits(x[j..], y[j..], c, base) == [sum] + SumDigits(x[j + 1..], y[j + 1..], next, base)
  {
    var s0, c1 := SplitColumn(x[j..], y[j..], c, base);
    assert x[j..][1..] == x[j + 1..] && x[j..][0] == x[j];
    assert y[j..][1..] == y[j + 1..] && y[j..][0] == y[j];
  }

  /** The carry loop adds: emitted digits plus the final carry give x + y + c. */
  lemma {:induction false} SumDigitsValue(x: seq<nat>, y: seq<nat>, c: nat, base: nat)
    requires |x| == |y| && base > 0
    ensures Value(SumDigits(x, y, c, base), base) + CarryOut(x, y, c, base) * Pow(base, |x|)
         == Value(x, base) + Value(y, base) + c
    decreases |x|
  {
    if |x| > 0 {
      var s0, c1 := SplitColumn(x, y, c, base);
      var rest := SumDigits(x[1..], y[1..], c1, base);
      SumDigitsValue(x[1..], y[1..], c1, base);
      assert ([s0] + rest)[1..] == rest;
      DigitStep(base, s0, c1, x[0], y[0], c, Value(rest, base), Value(x[1..], base), Value(y[1..], base),
                CarryOut(x[1..], y[1..], c1, base), Pow(base, |x| - 1),
                Value(SumDigits(x, y, c, base), base), Pow(base, |x|), Value(x, base), Value(y, base));
    }
  }

  /** The carry out of one column of digits below base, with a carry of at most 1. */
  lemma NextCarry(a: nat, b: nat, c: nat, base: nat)
    requires a < base && b < base && c <= 1
    ensures (a + b + c) / base <= 1
    ensures c < base ==> (a + b + c) / base < base
    ensures a == 0 && b == 0 && c < base ==> (a + b + c) / base == 0
  {
    var total := a + b + c;
    var q, r := total / base, total % base;
    assert total == base * q + r;
    assert base * q < 2 * base;
    Distribute(base, 2, q - 2);
  }

  /** The carry stays below 2 and below Base, so the padded zero digit absorbs it. */
  lemma {:induction false} PaddedCarryIsZero(x: seq<nat>, y: seq<nat>, c: nat, base: nat)
    requires |x| == |y| >= 1 && base > 0
    requires x[|x| - 1] == 0 && y[|y| - 1] == 0
    requires AllBelow(x, base) && AllBelow(y, base)
    requires c <= 1 && c < base
    ensures CarryOut(x, y, c, base) == 0
    decreases |x|
  {
    var s0, c1 := SplitColumn(x, y, c, base);
    NextCarry(x[0], y[0], c, base);
    if |x| == 1 {
      assert CarryOut(x[1..], y[1..], c1, base) == c1;
    } else {
      assert x[1..][|x| - 2] == 0 && y[1..][|y| - 2] == 0;
      assert AllBelow(x[1..], base) && AllBelow(y[1..], base);
      PaddedCarryIsZero(x[1..], y[1..], c1, base);
    }
  }

  /** With digits below Base and a carry-in of at most one, every carry of the loop is 0 or 1. */
  lemma {:induction false} CarryIsBit(x: seq<nat>, y: seq<nat>, c: nat, base: nat)
    requires |x| == |y| && base > 0
    requires AllBelow(x, base) && AllBelow(y, base) && c <= 1
    ensures CarryOut(x, y, c, base) <= 1
    decreases |x|
  {
    if |x| > 0 {
      var s0, c1 := SplitColumn(x, y, c, base);
      NextCarry(x[0], y[0], c, base);
      assert AllBelow(x[1..], base) && AllBelow(y[1..], base);
      CarryIsBit(x[1..], y[1..], c1, base);
    }
  }

  lemma {:induction false} ValuePadZero(ds: seq<nat>, base: nat)
    ensures Value(ds + [0], base) == Value(ds, base)
    decreases |ds|
  {
    if |ds| > 0 {
      assert (ds + [0])[1..] == ds[1..] + [0];
      ValuePadZero(ds[1..], base);
    }
  }

  /** The answer digits denote the sum of the two operands. */
  lemma AnswerValue(t: AdditionTask, d: AdditionDraw)
    requires ValidDraw(t, d)
    ensures Value(Answer(t, d), t.base) == Value(d.left, t.base) + Value(d.right, t.base)
  {
    var x, y := d.left + [0], d.right + [0];
    SumDigitsValue(x, y, 0, t.base);
    PaddedCarryIsZero(x, y, 0, t.base);
    ValuePadZero(d.left, t.base);
    ValuePadZero(d.right, t.base);
  }

  /** Where the operands and the answer sit in a sample. */
  lemma AdditionSlices(t: AdditionTask, d: AdditionDraw)
    requires ValidDraw(t, d)
    ensures var s := AdditionSample(t, d); var n := |d.left|;
      && |s.inputs| == |s.outputs| == 3 * n + 3
      && s.outputs[2 * n + 2..] == Encode(Answer(t, d), t.base)
      && s.inputs[..n] == Encode(d.left, t.base + 1)
      && s.inputs[n + 1..2 * n + 1] == Encode(d.right, t.base + 1)
  {
    var s := AdditionSample(t, d);
    var n := |d.left|;
    var head := Encode(d.left, t.base + 1) + [Delimiter(t)];
    assert s.inputs == head + Encode(d.right, t.base + 1) + [Delimiter(t)] + Fill(Zeros(t.base + 1), n + 1);
    assert s.inputs[..n] == head[..n];
    assert s.outputs[2 * n + 2..] == Encode(Answer(t, d), t.base);
  }

  /**
   * Reading the answer digits (first emitted least significant) gives exactly
   * the sum of the two operands read from the inputs.
   */
  lemma AdditionAnswerIsSum(t: AdditionTask, d: AdditionDraw)
    requires ValidDraw(t, d)
    ensures var s := AdditionSample(t, d); var n := |d.left|;
      Value(Decode(s.outputs[2 * n + 2..]), t.base)
      == Value(Decode(s.inputs[..n]), t.base) + Value(Decode(s.inputs[n + 1..2 * n + 1]), t.base)
  {
    AdditionSlices(t, d);
    DecodeEncode(Answer(t, d), t.base);
    DecodeEncode(d.left, t.base + 1);
    DecodeEncode(d.right, t.base + 1);
    AnswerValue(t, d);
  }

  /** The tail finder of Score: just after the second input with its last component set. */
  function Tail(s: seq<Vector>): Option<nat>
  {
    Tails.SecondMarkTail(s, Tails.Last)
  }

  /**
   * What Tail finds: one past a delimiter with exactly one delimiter before it,
   * or None exactly when fewer than two inputs have their last component set.
   * (Stated here rather than on Tail, so that proofs about generated samples
   * do not carry these quantifiers.)
   */
  lemma TailFinds(s: seq<Vector>)
    ensures var r := Tail(s);
      && (r.Some? ==> 0 < r.value <= |s| && Tails.Marked(s[r.value - 1], Tails.Last))
      && (r.Some? ==> exists i :: 0 <= i < r.value - 1 && Tails.Marked(s[i], Tails.Last))
      && (r.Some? ==> forall i, j :: 0 <= i < j < r.value - 1 && Tails.Marked(s[i], Tails.Last) ==> !Tails.Marked(s[j], Tails.Last))
      && (r.None? <==> forall i, j :: 0 <= i < j < |s| && Tails.Marked(s[i], Tails.Last) ==> !Tails.Marked(s[j], Tails.Last))
  {
  }

  /** Only the two delimiters have their last input component set. */
  lemma AdditionMarkers(t: AdditionTask, d: AdditionDraw, i: int)
    requires ValidDraw(t, d) && 0 <= i < 3 * |d.left| + 3
    ensures Tails.Readable(AdditionSample(t, d).inputs[i], Tails.Last)
    ensures Tails.Marked(AdditionSample(t, d).inputs[i], Tails.Last) <==> i == |d.left| || i == 2 * |d.left| + 1
  {
    InputLayout(t, d);
    var n := |d.left|;
    var v := AdditionSample(t, d).inputs[i];
    if i < n {
      assert v == OneHot(t.base + 1, d.left[i]);
    } else if n < i < 2 * n + 1 {
      assert v == OneHot(t.base + 1, d.right[i - n - 1]);
    }
  }

  /** Markers exactly at n and 2n + 1 of 3n + 3 readable inputs put the tail at 2n + 2. */
  lemma TailOfMarkers(ins: seq<Vector>, n: nat)
    requires |ins| == 3 * n + 3
    requires forall i :: 0 <= i < |ins| ==> Tails.Readable(ins[i], Tails.Last)
    requires forall i :: 0 <= i < |ins| ==> (Tails.Marked(ins[i], Tails.Last) <==> i == n || i == 2 * n + 1)
    ensures Tail(ins) == Some(2 * n + 2)
  {
    Tails.SecondMarkedAt(ins, Tails.Last, n, 2 * n + 1);
  }

  /** On a generated sample the tail is 2 * digitCount + 2, just after the second delimiter. */
  lemma AdditionTailFound(t: AdditionTask, d: AdditionDraw)
    requires ValidDraw(t, d)
    ensures Tails.AllReadable(AdditionSample(t, d).inputs, Tails.Last)
    ensures Tail(AdditionSample(t, d).inputs) == Some(2 * |d.left| + 2)
  {
    SampleMarkers(t, d);
    TailOfMarkers(AdditionSample(t, d).inputs, |d.left|);
  }

  /** AdditionMarkers over the whole input sequence. */
  lemma SampleMarkers(t: AdditionTask, d: AdditionDraw)
    requires ValidDraw(t, d)
    ensures var ins := AdditionSample(t, d).inputs; var n := |d.left|;
      && |ins| == 3 * n + 3
      && (forall i :: 0 <= i < |ins| ==> Tails.Readable(ins[i], Tails.Last))
      && (forall i :: 0 <= i < |ins| ==> (Tails.Marked(ins[i], Tails.Last) <==> i == n || i == 2 * n + 1))
  {
    var ins := AdditionSample(t, d).inputs;
    var n := |d.left|;
    forall i | 0 <= i < 3 * n + 3
      ensures Tails.Readable(ins[i], Tails.Last)
      ensures Tails.Marked(ins[i], Tails.Last) <==> i == n || i == 2 * n + 1
    {
      AdditionMarkers(t, d, i);
    }
    InputLayout(t, d);
  }

  /** The samples of several NewSamples calls, one batch per row of draws. */
  function Batches(t: AdditionTask, draws: seq<seq<AdditionDraw>>): seq<seq<Sample>>
    requires forall b, l :: 0 <= b < |draws| && 0 <= l < |draws[b]| ==> ValidDraw(t, draws[b][l])
  {
    seq(|draws|, b requires 0 <= b < |draws| =>
      seq(|draws[b]|, l requires 0 <= l < |draws[b]| => AdditionSample(t, draws[b][l])))
  }

  /** Score with a model that returns every target exactly: every compared component is right. */
  lemma AdditionPerfectScore(t: AdditionTask, draws: seq<seq<AdditionDraw>>, run: Scoring.Run)
    requires forall b, l :: 0 <= b < |draws| && 0 <= l < |draws[b]| ==> ValidDraw(t, draws[b][l])
    requires forall b :: 0 <= b < |draws| ==>
      run(Scoring.InputsOf(Batches(t, draws)[b])) == Scoring.OutputsOf(Batches(t, draws)[b])
    ensures var r := Scoring.ScoreResult(Batches(t, draws), run, Tail); r.Ok? && r.value.correct == r.value.total
  {
    var samples: seq<seq<Sample>> := Batches(t, draws);
    forall b: int, l: int | 0 <= b < |samples| && 0 <= l < |samples[b]|
      ensures Binary(samples[b][l].outputs) && Scoring.TailFits(samples[b][l], Tail)
    {
      AdditionOutputsBinary(t, draws[b][l]);
      AdditionTailFound(t, draws[b][l]);
      AdditionLayout(t, draws[b][l]);
    }
    Scoring.PerfectRunFullScore(samples, run, Tail);
  }

  /** InputSize and OutputSize are the widths of every input and every target vector NewSamples builds. */
  lemma SizesMatch(t: AdditionTask, draws: seq<AdditionDraw>)
    requires forall i :: 0 <= i < |draws| ==> ValidDraw(t, draws[i])
    ensures forall i :: 0 <= i < |draws| ==> WellFormed(AdditionSample(t, draws[i]), InputSize(t), OutputSize(t))
  {
    forall i | 0 <= i < |draws|
      ensures WellFormed(AdditionSample(t, draws[i]), InputSize(t), OutputSize(t))
    {
      AdditionLayout(t, draws[i]);
    }
  }
}
