/**
 * The XOR-last task: one random bit per timestep, and the target at each
 * step is that bit XOR the bit before it (the first target is the first bit).
 */
module XorLast {
  import opened Vectors

  datatype XorLastTask = XorLastTask(seqLen: nat)

  function InputSize(t: XorLastTask): nat
  {
    1
  }

  function OutputSize(t: XorLastTask): nat
  {
    1
  }

  /** The xor1 test of NewSamples on two 0/1 values. */
  function XorBit(last: real, input: real): real
  {
    if (last == 1.0 && input == 0.0) || (last == 0.0 && input == 1.0) then 1.0 else 0.0
  }

  /** The target at step j: the first bit itself, then each bit XOR the one before. */
  function TargetAt(bits: seq<bool>, j: nat): real
    requires j < |bits|
  {
    if j == 0 then BitValue(bits[0]) else XorBit(BitValue(bits[j - 1]), BitValue(bits[j]))
  }

  /** The sample NewSamples builds from SeqLen drawn bits. */
  function XorSample(bits: seq<bool>): Sample
  {
    Sample(seq(|bits|, j requires 0 <= j < |bits| => [BitValue(bits[j])]),
           seq(|bits|, j requires 0 <= j < |bits| => [TargetAt(bits, j)]))
  }

  /** The body of NewSamples for one sample: each target computed from the input appended before it. */
  method NewSample(t: XorLastTask, bits: seq<bool>) returns (s: Sample)
    requires |bits| == t.seqLen
    ensures s == XorSample(bits)
  {
    var inputs: seq<Vector> := [];
    var outputs: seq<Vector> := [];
    var j := 0;
    while j < t.seqLen
      invariant 0 <= j <= t.seqLen
      invariant inputs == XorSample(bits[..j]).inputs
      invariant outputs == XorSample(bits[..j]).outputs
    {
      var input := BitValue(bits[j]);
      inputs := inputs + [[input]];
      if j == 0 {
        outputs := outputs + [[input]];
      } else {
        var last := inputs[j - 1][0];
        var xor1 := (last == 1.0 && input == 0.0) || (last == 0.0 && input == 1.0);
        if xor1 {
          outputs := outputs + [[1.0]];
        } else {
          outputs := outputs + [[0.0]];
        }
      }
      assert bits[..j + 1][..j] == bits[..j];
      j := j + 1;
    }
    assert bits[..j] == bits;
    s := Sample(inputs, outputs);
  }

  /** NewSamples: one sample per row of drawn bits. */
  method NewSamples(t: XorLastTask, draws: seq<seq<bool>>) returns (batch: seq<Sample>)
    requires forall i :: 0 <= i < |draws| ==> |draws[i]| == t.seqLen
    ensures |batch| == |draws|
    ensures forall i :: 0 <= i < |draws| ==> batch[i] == XorSample(draws[i])
  {
    batch := [];
    var i := 0;
    while i < |draws|
      invariant 0 <= i <= |draws|
      invariant |batch| == i
      invariant forall k :: 0 <= k < i ==> batch[k] == XorSample(draws[k])
    {
      var sample := NewSample(t, draws[i]);
      batch := batch + [sample];
      i := i + 1;
    }
  }

  /**
   * A sample has SeqLen one-bit inputs and targets, all 0 or 1; the first
   * target is the first input; every later target is 1 exactly when its input
   * differs from the previous input.
   */
  lemma XorLayout(t: XorLastTask, bits: seq<bool>)
    requires |bits| == t.seqLen
    ensures var s := XorSample(bits);
      && WellFormed(s, InputSize(t), OutputSize(t))
      && |s.inputs| == t.seqLen
      && Binary(s.inputs) && Binary(s.outputs)
      && (t.seqLen > 0 ==> s.outputs[0] == s.inputs[0])
      && (forall j :: 1 <= j < t.seqLen ==> (s.outputs[j][0] == 1.0 <==> s.inputs[j][0] != s.inputs[j - 1][0]))
  {
    var s := XorSample(bits);
    forall j | 0 <= j < |bits|
      ensures |s.inputs[j]| == 1 && |s.outputs[j]| == 1
      ensures s.inputs[j][0] == 0.0 || s.inputs[j][0] == 1.0
      ensures s.outputs[j][0] == 0.0 || s.outputs[j][0] == 1.0
    {
    }
  }

  /** The running XOR of the targets through step j. */
  function Parity(outs: seq<Vector>, j: nat): real
    requires j < |outs| && forall k :: 0 <= k < |outs| ==> |outs[k]| == 1
  {
    if j == 0 then outs[0][0] else XorBit(Parity(outs, j - 1), outs[j][0])
  }

  /** The targets determine the inputs: the running XOR of the targets through j is input j. */
  lemma {:induction false} ParityRecoversInput(bits: seq<bool>, j: nat)
    requires j < |bits|
    ensures var s := XorSample(bits); Parity(s.outputs, j) == s.inputs[j][0]
  {
    var s := XorSample(bits);
    if j > 0 {
      ParityRecoversInput(bits, j - 1);
      assert Parity(s.outputs, j) == XorBit(BitValue(bits[j - 1]), XorBit(BitValue(bits[j - 1]), BitValue(bits[j])));
    }
  }

  /** InputSize and OutputSize are the widths of every input and every target vector NewSamples builds. */
  lemma SizesMatch(t: XorLastTask, draws: seq<seq<bool>>)
    requires forall i :: 0 <= i < |draws| ==> |draws[i]| == t.seqLen
    ensures forall i :: 0 <= i < |draws| ==> WellFormed(XorSample(draws[i]), InputSize(t), OutputSize(t))
  {
    forall i | 0 <= i < |draws|
      ensures WellFormed(XorSample(draws[i]), InputSize(t), OutputSize(t))
    {
      XorLayout(t, draws[i]);
    }
  }
}
