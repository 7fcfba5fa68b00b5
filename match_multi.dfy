/**
 * The match-multi task: a string of typed open and close tags is shown, then
 * a delimiter, after which the model must name the tags still open, the most
 * recently opened first, and then output a closing delimiter.
 *
 * As written, the open branch of NewSamples never pushes the tag it opens,
 * so the stack stays empty. NewSample takes `pushOpens`: false is the code as
 * written, true the evidently intended generator that pushes each opened tag.
 */
module MatchMulti {
  import opened Vectors
  import Tails
  import Scoring

  datatype MatchMultiTask = MatchMultiTask(typeCount: nat, minLen: int, maxLen: int, closeProb: real)

  /**
   * The random draws of one timestep of the string: `flip`, the value of
   * rand.Float64() compared with CloseProb while the stack is not empty, and
   * `newSym`, the value of rand.Intn(TypeCount) used when the step opens.
   */
  datatype Step = Step(flip: real, newSym: nat)

  datatype MatchMultiDraw = MatchMultiDraw(steps: seq<Step>)

  /** An open and a close symbol per tag type, plus the delimiter. */
  function InputSize(t: MatchMultiTask): nat
  {
    2 * t.typeCount + 1
  }

  /** One output per tag type, plus the closing delimiter. */
  function OutputSize(t: MatchMultiTask): nat
  {
    t.typeCount + 1
  }

  function InDelimiter(t: MatchMultiTask): Vector
  {
    OneHot(InputSize(t), InputSize(t) - 1)
  }

  function OutDelimiter(t: MatchMultiTask): Vector
  {
    OneHot(OutputSize(t), OutputSize(t) - 1)
  }

  /**
   * sampleLen is drawn in [MinLen, MaxLen], every flip is a value of
   * rand.Float64() in [0, 1), and every drawn tag type is below TypeCount.
   */
  predicate ValidDraw(t: MatchMultiTask, d: MatchMultiDraw)
  {
    t.minLen <= |d.steps| <= t.maxLen
    && forall j :: 0 <= j < |d.steps| ==> d.steps[j].newSym < t.typeCount && 0.0 <= d.steps[j].flip < 1.0
  }

  /** The inputs emitted so far and the stack of open tag types, top last. */
  datatype PhaseState = PhaseState(inputs: seq<Vector>, stack: seq<nat>)

  predicate StackBelow(stack: seq<nat>, typeCount: nat)
  {
    forall i :: 0 <= i < |stack| ==> stack[i] < typeCount
  }

  /** Whether a step opens a tag: always on an empty stack, otherwise when the flip exceeds CloseProb. */
  predicate Opens(t: MatchMultiTask, stack: seq<nat>, s: Step)
  {
    |stack| == 0 || s.flip > t.closeProb
  }

  /** One step of the string loop. */
  function Advance(t: MatchMultiTask, p: PhaseState, s: Step, pushOpens: bool): PhaseState
    requires s.newSym < t.typeCount && StackBelow(p.stack, t.typeCount)
  {
    if Opens(t, p.stack, s) then
      PhaseState(p.inputs + [OneHot(InputSize(t), s.newSym)], if pushOpens then p.stack + [s.newSym] else p.stack)
    else
      var top := p.stack[|p.stack| - 1];
      PhaseState(p.inputs + [OneHot(InputSize(t), top + t.typeCount)], p.stack[..|p.stack| - 1])
  }

  /** The state after the string loop has run over steps, from an empty stack. */
  function RunSteps(t: MatchMultiTask, steps: seq<Step>, pushOpens: bool): (p: PhaseState)
    requires forall j :: 0 <= j < |steps| ==> steps[j].newSym < t.typeCount
    ensures |p.inputs| == |steps| && |p.stack| <= |steps| && StackBelow(p.stack, t.typeCount)
  {
    if |steps| == 0 then PhaseState([], [])
    else
      var before := RunSteps(t, steps[..|steps| - 1], pushOpens);
      Advance(t, before, steps[|steps| - 1], pushOpens)
  }

  /** The answer targets: one-hot tag types, top of the stack first. */
  function Answer(t: MatchMultiTask, stack: seq<nat>): seq<Vector>
    requires StackBelow(stack, t.typeCount)
  {
    seq(|stack|, i requires 0 <= i < |stack| => OneHot(OutputSize(t), stack[|stack| - 1 - i]))
  }

  function FinalStack(t: MatchMultiTask, d: MatchMultiDraw, pushOpens: bool): (stack: seq<nat>)
    requires ValidDraw(t, d)
    ensures StackBelow(stack, t.typeCount)
  {
    RunSteps(t, d.steps, pushOpens).stack
  }

  /** The sample NewSamples builds from one draw. */
  function MatchMultiSample(t: MatchMultiTask, d: MatchMultiDraw, pushOpens: bool): Sample
    requires ValidDraw(t, d)
  {
    var p := RunSteps(t, d.steps, pushOpens);
    Sample(p.inputs + [InDelimiter(t)] + Fill(Zeros(InputSize(t)), |p.stack| + 1),
           Fill(Zeros(OutputSize(t)), |d.steps| + 1) + Answer(t, p.stack) + [OutDelimiter(t)])
  }

  /** One iteration of the string loop: open a tag, or close the one on top of the stack. */
  method StringStep(t: MatchMultiTask, inputs0: seq<Vector>, stack0: seq<nat>, step: Step, pushOpens: bool)
    returns (inputs: seq<Vector>, symbolStack: seq<nat>)
    requires step.newSym < t.typeCount && StackBelow(stack0, t.typeCount)
    ensures PhaseState(inputs, symbolStack) == Advance(t, PhaseState(inputs0, stack0), step, pushOpens)
  {
    inputs, symbolStack := inputs0, stack0;
    if |symbolStack| == 0 || step.flip > t.closeProb {
      var newSym := step.newSym;
      var inVec := Zeros(InputSize(t))[newSym := 1.0];
      inputs := inputs + [inVec];
      if pushOpens {
        symbolStack := symbolStack + [newSym];
      }
    } else {
      var lastSym := symbolStack[|symbolStack| - 1];
      symbolStack := symbolStack[..|symbolStack| - 1];
      var inVec := Zeros(InputSize(t))[lastSym + t.typeCount := 1.0];
      inputs := inputs + [inVec];
    }
  }

  /** The string loop of NewSamples: open or close one tag per step over an explicit symbol stack. */
  method StringLoop(t: MatchMultiTask, d: MatchMultiDraw, pushOpens: bool)
    returns (inputs: seq<Vector>, outputs: seq<Vector>, symbolStack: seq<nat>)
    requires ValidDraw(t, d)
    ensures PhaseState(inputs, symbolStack) == RunSteps(t, d.steps, pushOpens)
    ensures outputs == Fill(Zeros(OutputSize(t)), |d.steps|)
  {
    var zeroOut := Zeros(OutputSize(t));
    inputs, outputs, symbolStack := [], [], [];
    var sampleLen := |d.steps|;
    var j := 0;
    while j < sampleLen
      invariant 0 <= j <= sampleLen
      invariant RunSteps(t, d.steps[..j], pushOpens) == PhaseState(inputs, symbolStack)
      invariant outputs == Fill(zeroOut, j)
    {
      RunStepsSnoc(t, d.steps, j, pushOpens);
      FillSnoc(zeroOut, j);
      outputs := outputs + [zeroOut];
      inputs, symbolStack := StringStep(t, inputs, symbolStack, d.steps[j], pushOpens);
      j := j + 1;
    }
    assert d.steps[..j] == d.steps;
  }

  /** Running one more step advances the state reached by the steps before it. */
  lemma RunStepsSnoc(t: MatchMultiTask, steps: seq<Step>, j: nat, pushOpens: bool)
    requires j < |steps| && forall i :: 0 <= i < |steps| ==> steps[i].newSym < t.typeCount
    ensures StackBelow(RunSteps(t, steps[..j], pushOpens).stack, t.typeCount)
    ensures RunSteps(t, steps[..j + 1], pushOpens) == Advance(t, RunSteps(t, steps[..j], pushOpens), steps[j], pushOpens)
  {
    PrefixOfPrefix(steps, j + 1, j);
    assert steps[..j + 1][j] == steps[j];
  }

  /** The answer phase: pop the stack, one one-hot closing tag per step, with blank inputs. */
  method AnswerLoop(t: MatchMultiTask, symbolStack: seq<nat>, inputs0: seq<Vector>, outputs0: seq<Vector>)
    returns (inputs: seq<Vector>, outputs: seq<Vector>)
    requires StackBelow(symbolStack, t.typeCount)
    ensures inputs == inputs0 + Fill(Zeros(InputSize(t)), |symbolStack|)
    ensures outputs == outputs0 + Answer(t, symbolStack)
  {
    var zeroIn := Zeros(InputSize(t));
    inputs, outputs := inputs0, outputs0;
    var k := |symbolStack| - 1;
    while k >= 0
      invariant -1 <= k < |symbolStack|
      invariant inputs == inputs0 + Fill(zeroIn, |symbolStack| - 1 - k)
      invariant outputs == outputs0 + Answer(t, symbolStack)[..|symbolStack| - 1 - k]
    {
      var symbol := symbolStack[k];
      var outVec := Zeros(OutputSize(t))[symbol := 1.0];
      var m := |symbolStack| - 1 - k;
      AnswerPrefix(t, symbolStack, m);
      AppendAssoc(outputs0, Answer(t, symbolStack)[..m], [outVec]);
      outputs := outputs + [outVec];
      FillSnoc(zeroIn, m);
      AppendAssoc(inputs0, Fill(zeroIn, m), [zeroIn]);
      inputs := inputs + [zeroIn];
      k := k - 1;
    }
    assert Answer(t, symbolStack)[..|symbolStack|] == Answer(t, symbolStack);
  }

  /**
   * The body of NewSamples for one sample: the string loop, the delimiter,
   * then the stack read from top to bottom and the closing delimiter.
   */
  method NewSample(t: MatchMultiTask, d: MatchMultiDraw, pushOpens: bool) returns (s: Sample)
    requires ValidDraw(t, d)
    ensures s == MatchMultiSample(t, d, pushOpens)
  {
    var zeroIn := Zeros(InputSize(t));
    var zeroOut := Zeros(OutputSize(t));
    var inDelimiter := zeroIn[InputSize(t) - 1 := 1.0];
    var outDelimiter := zeroOut[OutputSize(t) - 1 := 1.0];
    var inputs, outputs, symbolStack := StringLoop(t, d, pushOpens);
    FillSnoc(zeroOut, |d.steps|);
    outputs := outputs + [zeroOut];
    inputs := inputs + [inDelimiter];
    inputs, outputs := AnswerLoop(t, symbolStack, inputs, outputs);
    FillSnoc(zeroIn, |symbolStack|);
    AppendAssoc(RunSteps(t, d.steps, pushOpens).inputs + [inDelimiter], Fill(zeroIn, |symbolStack|), [zeroIn]);
    outputs := outputs + [outDelimiter];
    inputs := inputs + [zeroIn];
    s := Sample(inputs, outputs);
  }

  lemma AnswerPrefix(t: MatchMultiTask, stack: seq<nat>, m: nat)
    requires StackBelow(stack, t.typeCount) && m < |stack|
    ensures Answer(t, stack)[..m + 1] == Answer(t, stack)[..m] + [Zeros(OutputSize(t))[stack[|stack| - 1 - m] := 1.0]]
  {
    assert Answer(t, stack)[m] == OneHot(OutputSize(t), stack[|stack| - 1 - m]);
  }

  /** NewSamples: one sample per draw. */
  method NewSamples(t: MatchMultiTask, draws: seq<MatchMultiDraw>, pushOpens: bool) returns (batch: seq<Sample>)
    requires forall i :: 0 <= i < |draws| ==> ValidDraw(t, draws[i])
    ensures |batch| == |draws|
    ensures forall i :: 0 <= i < |draws| ==> batch[i] == MatchMultiSample(t, draws[i], pushOpens)
  {
    batch := [];
    var i := 0;
    while i < |draws|
      invariant 0 <= i <= |draws|
      invariant |batch| == i
      invariant forall k :: 0 <= k < i ==> batch[k] == MatchMultiSample(t, draws[k], pushOpens)
    {
      var sample := NewSample(t, draws[i], pushOpens);
      batch := batch + [sample];
      i := i + 1;
    }
  }

  /** A string input: the declared width, and not the delimiter. */
  predicate StringSymbol(t: MatchMultiTask, v: Vector)
  {
    |v| == InputSize(t) && v[InputSize(t) - 1] == 0.0
  }

  predicate AllStringSymbols(t: MatchMultiTask, ins: seq<Vector>)
  {
    forall i :: 0 <= i < |ins| ==> StringSymbol(t, ins[i])
  }

  /** Every input of the string loop is an open or close symbol, never the delimiter. */
  lemma {:induction false} StringSymbols(t: MatchMultiTask, steps: seq<Step>, pushOpens: bool)
    requires forall i :: 0 <= i < |steps| ==> steps[i].newSym < t.typeCount
    ensures AllStringSymbols(t, RunSteps(t, steps, pushOpens).inputs)
    decreases |steps|
  {
    if |steps| > 0 {
      var n := |steps| - 1;
      StringSymbols(t, steps[..n], pushOpens);
      var before := RunSteps(t, steps[..n], pushOpens);
      var ins := RunSteps(t, steps, pushOpens).inputs;
      assert ins[..n] == before.inputs;
      forall i | 0 <= i < |ins|
        ensures StringSymbol(t, ins[i])
      {
        if i < n {
          assert ins[i] == before.inputs[i];
        } else if Opens(t, before.stack, steps[n]) {
          assert ins[i] == OneHot(InputSize(t), steps[n].newSym);
          assert ins[i][InputSize(t) - 1] == 0.0;
        } else {
          var k := before.stack[|before.stack| - 1] + t.typeCount;
          assert ins[i] == OneHot(InputSize(t), k);
          assert ins[i][InputSize(t) - 1] == 0.0;
        }
      }
    }
  }

  /** Where the string and the answer sit in a sample. */
  lemma AnswerLayout(t: MatchMultiTask, d: MatchMultiDraw, pushOpens: bool)
    requires ValidDraw(t, d)
    ensures var s := MatchMultiSample(t, d, pushOpens); var n := |d.steps|; var st := FinalStack(t, d, pushOpens);
      && |s.inputs| == |s.outputs| == n + |st| + 2
      && s.inputs[..n] == RunSteps(t, d.steps, pushOpens).inputs
      && (forall i :: n + 1 <= i < n + 1 + |st| ==> s.outputs[i] == OneHot(OutputSize(t), st[n + |st| - i]))
      && s.outputs[n + |st| + 1] == OutDelimiter(t)
  {
    var s := MatchMultiSample(t, d, pushOpens);
    var n := |d.steps|;
    var st := FinalStack(t, d, pushOpens);
    forall i | n + 1 <= i < n + 1 + |st|
      ensures s.outputs[i] == OneHot(OutputSize(t), st[n + |st| - i])
    {
      assert s.outputs[i] == Answer(t, st)[i - n - 1];
    }
  }

  /**
   * The layout of a sample: sampleLen + |stack| + 2 steps; zero targets
   * through the delimiter at sampleLen; then the stack top first, one-hot,
   * against zero inputs; then the closing delimiter; every target 0 or 1.
   */
  lemma MatchMultiLayout(t: MatchMultiTask, d: MatchMultiDraw, pushOpens: bool)
    requires ValidDraw(t, d)
    ensures var s := MatchMultiSample(t, d, pushOpens); var n := |d.steps|; var st := FinalStack(t, d, pushOpens);
      && WellFormed(s, InputSize(t), OutputSize(t))
      && |s.inputs| == n + |st| + 2
      && s.inputs[n] == InDelimiter(t)
      && (forall i :: n < i < |s.inputs| ==> s.inputs[i] == Zeros(InputSize(t)))
      && (forall i :: 0 <= i <= n ==> s.outputs[i] == Zeros(OutputSize(t)))
      && (forall i :: n + 1 <= i < n + 1 + |st| ==> s.outputs[i] == OneHot(OutputSize(t), st[n + |st| - i]))
      && s.outputs[n + |st| + 1] == OutDelimiter(t)
      && Binary(s.outputs)
  {
    var s := MatchMultiSample(t, d, pushOpens);
    var n := |d.steps|;
    var st := FinalStack(t, d, pushOpens);
    var ins := RunSteps(t, d.steps, pushOpens).inputs;
    StringSymbols(t, d.steps, pushOpens);
    forall i | 0 <= i < n
      ensures |s.inputs[i]| == InputSize(t)
    {
      assert s.inputs[i] == ins[i];
      assert StringSymbol(t, ins[i]);
    }
    AnswerLayout(t, d, pushOpens);
    forall i | 0 <= i < |s.outputs|
      ensures |s.outputs[i]| == OutputSize(t)
      ensures forall j :: 0 <= j < |s.outputs[i]| ==> s.outputs[i][j] == 0.0 || s.outputs[i][j] == 1.0
    {
      if n + 1 <= i < n + 1 + |st| {
        assert s.outputs[i] == Answer(t, st)[i - n - 1];
      }
    }
  }

  /** The tail finder of Score: the step after the first input with its last component set. */
  function DelimiterTail(s: seq<Vector>): (r: Option<nat>)
    ensures r.Some? ==> 1 <= r.value <= |s| && Tails.Marked(s[r.value - 1], Tails.Last)
    ensures r.Some? ==> forall j :: 0 <= j < r.value - 1 ==> !Tails.Marked(s[j], Tails.Last)
    ensures r.None? ==> forall j :: 0 <= j < |s| ==> !Tails.Marked(s[j], Tails.Last)
  {
    Tails.FirstMarkTail(s, Tails.Last, 1)
  }

  /** Only the delimiter has its last input component set, so scoring starts at sampleLen + 1. */
  lemma MatchMultiTailFound(t: MatchMultiTask, d: MatchMultiDraw, pushOpens: bool)
    requires ValidDraw(t, d)
    ensures Tails.AllReadable(MatchMultiSample(t, d, pushOpens).inputs, Tails.Last)
    ensures DelimiterTail(MatchMultiSample(t, d, pushOpens).inputs) == Some(|d.steps| + 1)
  {
    var s := MatchMultiSample(t, d, pushOpens);
    var n := |d.steps|;
    var ins := RunSteps(t, d.steps, pushOpens).inputs;
    MatchMultiLayout(t, d, pushOpens);
    StringSymbols(t, d.steps, pushOpens);
    forall i | 0 <= i < |s.inputs|
      ensures Tails.Readable(s.inputs[i], Tails.Last)
      ensures i < n ==> !Tails.Marked(s.inputs[i], Tails.Last)
    {
      if i < n {
        assert s.inputs[i] == ins[i];
        assert StringSymbol(t, ins[i]);
      }
    }
    Tails.FirstMarkedAt(s.inputs, Tails.Last, n);
  }

  /**
   * The tag structure the inputs spell: opens pushed, each close required to
   * match the top of the stack and popped; None on a mismatched or unknown symbol.
   */
  function Replay(t: MatchMultiTask, ins: seq<Vector>): (r: Option<seq<nat>>)
    ensures r.Some? ==> StackBelow(r.value, t.typeCount)
  {
    if |ins| == 0 then Some([])
    else match Replay(t, ins[..|ins| - 1])
      case None => None
      case Some(st) =>
        var k := HotIndex(ins[|ins| - 1]);
        if k < t.typeCount then Some(st + [k])
        else if k < 2 * t.typeCount && |st| > 0 && st[|st| - 1] == k - t.typeCount then Some(st[..|st| - 1])
        else None
  }

  /** One step with opens pushed keeps the replayed stack equal to the generator's. */
  lemma ReplayAdvance(t: MatchMultiTask, p: PhaseState, step: Step)
    requires step.newSym < t.typeCount && StackBelow(p.stack, t.typeCount)
    requires Replay(t, p.inputs) == Some(p.stack)
    ensures Replay(t, Advance(t, p, step, true).inputs) == Some(Advance(t, p, step, true).stack)
  {
    var q := Advance(t, p, step, true);
    assert q.inputs[..|q.inputs| - 1] == p.inputs;
    if Opens(t, p.stack, step) {
      HotIndexOfOneHot(InputSize(t), step.newSym);
    } else {
      HotIndexOfOneHot(InputSize(t), p.stack[|p.stack| - 1] + t.typeCount);
    }
  }

  /**
   * With opens pushed, the string is well nested and the generator's stack is
   * exactly the tags the string leaves open.
   */
  lemma {:induction false} ReplayIntended(t: MatchMultiTask, steps: seq<Step>)
    requires forall j :: 0 <= j < |steps| ==> steps[j].newSym < t.typeCount
    ensures Replay(t, RunSteps(t, steps, true).inputs) == Some(RunSteps(t, steps, true).stack)
    decreases |steps|
  {
    if |steps| > 0 {
      var n := |steps| - 1;
      ReplayIntended(t, steps[..n]);
      ReplayAdvance(t, RunSteps(t, steps[..n], true), steps[n]);
    }
  }

  /** One open symbol per step, for the tag each step draws. */
  function OpenInputs(t: MatchMultiTask, steps: seq<Step>): seq<Vector>
    requires forall j :: 0 <= j < |steps| ==> steps[j].newSym < t.typeCount
  {
    seq(|steps|, j requires 0 <= j < |steps| => OneHot(InputSize(t), steps[j].newSym))
  }

  /** The tag each step draws. */
  function Drawn(steps: seq<Step>): seq<nat>
  {
    seq(|steps|, j requires 0 <= j < |steps| => steps[j].newSym)
  }

  /** As written, the stack is never pushed, so it stays empty and every step opens. */
  lemma {:induction false} WrittenStackEmpty(t: MatchMultiTask, steps: seq<Step>)
    requires forall j :: 0 <= j < |steps| ==> steps[j].newSym < t.typeCount
    ensures RunSteps(t, steps, false).stack == []
    ensures RunSteps(t, steps, false).inputs == OpenInputs(t, steps)
    decreases |steps|
  {
    if |steps| > 0 {
      var n := |steps| - 1;
      WrittenStackEmpty(t, steps[..n]);
      assert OpenInputs(t, steps) == OpenInputs(t, steps[..n]) + [OneHot(InputSize(t), steps[n].newSym)];
    }
  }

  /** Inputs that only open replay to the opened tags in order. */
  lemma {:induction false} ReplayOpens(t: MatchMultiTask, steps: seq<Step>)
    requires forall j :: 0 <= j < |steps| ==> steps[j].newSym < t.typeCount
    ensures Replay(t, OpenInputs(t, steps)) == Some(Drawn(steps))
    decreases |steps|
  {
    if |steps| > 0 {
      var n := |steps| - 1;
      var ins := OpenInputs(t, steps);
      assert ins[..n] == OpenInputs(t, steps[..n]);
      ReplayOpens(t, steps[..n]);
      HotIndexOfOneHot(InputSize(t), steps[n].newSym);
      assert HotIndex(ins[n]) == steps[n].newSym;
      assert Drawn(steps) == Drawn(steps[..n]) + [steps[n].newSym];
    }
  }

  /**
   * As written, the inputs open one tag per step and close none, yet the
   * answer is the closing delimiter alone.
   */
  lemma WrittenAnswerIgnoresOpens(t: MatchMultiTask, d: MatchMultiDraw)
    requires ValidDraw(t, d)
    ensures var s := MatchMultiSample(t, d, false); var n := |d.steps|;
      && Replay(t, s.inputs[..n]) == Some(Drawn(d.steps))
      && s.outputs[n + 1..] == [OutDelimiter(t)]
  {
    var s := MatchMultiSample(t, d, false);
    var n := |d.steps|;
    WrittenStackEmpty(t, d.steps);
    assert s.inputs[..n] == RunSteps(t, d.steps, false).inputs;
    ReplayOpens(t, d.steps);
  }

  /**
   * A concrete sample that shows the discrepancy: one tag type, one step that
   * opens tag 0. As written the answer is only the closing delimiter; with the
   * open pushed the answer first closes tag 0.
   */
  lemma WrittenMissesOpenTag()
    ensures var t := MatchMultiTask(1, 1, 1, 0.5); var d := MatchMultiDraw([Step(0.0, 0)]);
      && MatchMultiSample(t, d, false).outputs[2] == [0.0, 1.0]
      && MatchMultiSample(t, d, true).outputs[2] == [1.0, 0.0]
      && MatchMultiSample(t, d, true).outputs[3] == [0.0, 1.0]
  {
    var t := MatchMultiTask(1, 1, 1, 0.5);
    var d := MatchMultiDraw([Step(0.0, 0)]);
    assert d.steps[..0] == [];
    assert RunSteps(t, d.steps, false).stack == [];
    assert RunSteps(t, d.steps, true).stack == [0];
    assert OutDelimiter(t) == [0.0, 1.0];
    assert Answer(t, [0]) == [OneHot(2, 0)];
    assert OneHot(2, 0) == [1.0, 0.0];
  }

  /**
   * With opens pushed, the answer names exactly the tags the string leaves
   * open, the most recently opened first, then the closing delimiter.
   */
  lemma IntendedAnswerCloses(t: MatchMultiTask, d: MatchMultiDraw)
    requires ValidDraw(t, d)
    ensures var s := MatchMultiSample(t, d, true); var n := |d.steps|; var st := FinalStack(t, d, true);
      && Replay(t, s.inputs[..n]) == Some(st)
      && |s.outputs| == n + |st| + 2
      && (forall i :: n + 1 <= i < n + 1 + |st| ==> HotIndex(s.outputs[i]) == st[n + |st| - i])
      && s.outputs[n + |st| + 1] == OutDelimiter(t)
  {
    AnswerLayout(t, d, true);
    ReplayIntended(t, d.steps);
    AnswerIndices(t, d, true);
  }

  /** Each answer target names its stack entry, the top first. */
  lemma AnswerIndices(t: MatchMultiTask, d: MatchMultiDraw, pushOpens: bool)
    requires ValidDraw(t, d)
    ensures var s := MatchMultiSample(t, d, pushOpens); var n := |d.steps|; var st := FinalStack(t, d, pushOpens);
      |s.outputs| == n + |st| + 2
      && forall i :: n + 1 <= i < n + 1 + |st| ==> HotIndex(s.outputs[i]) == st[n + |st| - i]
  {
    var s := MatchMultiSample(t, d, pushOpens);
    var n := |d.steps|;
    var st := FinalStack(t, d, pushOpens);
    AnswerLayout(t, d, pushOpens);
    forall i | n + 1 <= i < n + 1 + |st|
      ensures HotIndex(s.outputs[i]) == st[n + |st| - i]
    {
      HotIndexOfOneHot(OutputSize(t), st[n + |st| - i]);
    }
  }

  /** The samples of several NewSamples calls, one batch per row of draws. */
  function Batches(t: MatchMultiTask, draws: seq<seq<MatchMultiDraw>>, pushOpens: bool): seq<seq<Sample>>
    requires forall b, l :: 0 <= b < |draws| && 0 <= l < |draws[b]| ==> ValidDraw(t, draws[b][l])
  {
    seq(|draws|, b requires 0 <= b < |draws| =>
      seq(|draws[b]|, l requires 0 <= l < |draws[b]| => MatchMultiSample(t, draws[b][l], pushOpens)))
  }

  /** Score with a model that returns every target exactly: every compared output is right. */
  lemma MatchMultiPerfectScore(t: MatchMultiTask, draws: seq<seq<MatchMultiDraw>>, pushOpens: bool, run: Scoring.Run)
    requires forall b, l :: 0 <= b < |draws| && 0 <= l < |draws[b]| ==> ValidDraw(t, draws[b][l])
    requires forall b :: 0 <= b < |draws| ==>
      run(Scoring.InputsOf(Batches(t, draws, pushOpens)[b])) == Scoring.OutputsOf(Batches(t, draws, pushOpens)[b])
    ensures var r := Scoring.ScoreResult(Batches(t, draws, pushOpens), run, DelimiterTail);
      r.Ok? && r.value.correct == r.value.total
  {
    var samples: seq<seq<Sample>> := Batches(t, draws, pushOpens);
    forall b: int, l: int | 0 <= b < |samples| && 0 <= l < |samples[b]|
      ensures Binary(samples[b][l].outputs) && Scoring.TailFits(samples[b][l], DelimiterTail)
    {
      MatchMultiLayout(t, draws[b][l], pushOpens);
      MatchMultiTailFound(t, draws[b][l], pushOpens);
    }
    Scoring.PerfectRunFullScore(samples, run, DelimiterTail);
  }

  /** InputSize and OutputSize are the widths of every input and every target vector NewSamples builds. */
  lemma SizesMatch(t: MatchMultiTask, draws: seq<MatchMultiDraw>, pushOpens: bool)
    requires forall i :: 0 <= i < |draws| ==> ValidDraw(t, draws[i])
    ensures forall i :: 0 <= i < |draws| ==> WellFormed(MatchMultiSample(t, draws[i], pushOpens), InputSize(t), OutputSize(t))
  {
    forall i | 0 <= i < |draws|
      ensures WellFormed(MatchMultiSample(t, draws[i], pushOpens), InputSize(t), OutputSize(t))
    {
      MatchMultiLayout(t, draws[i], pushOpens);
    }
  }
}
