/** Vectors, samples and one-hot encodings shared by every task. */
module Vectors {

  /** One timestep's vector of float64 values, modelled as reals. */
  type Vector = seq<real>

  datatype Option<T> = None | Some(value: T)

  /** One instance of a task: an input sequence and an index-aligned target sequence. */
  datatype Sample = Sample(inputs: seq<Vector>, outputs: seq<Vector>)

  /** `make(linalg.Vector, w)`: a fresh vector of w zeros. */
  function Zeros(w: nat): Vector
  {
    seq(w, _ => 0.0)
  }

  /** A zero vector of width w with component k set to 1. */
  function OneHot(w: nat, k: nat): Vector
    requires k < w
  {
    Zeros(w)[k := 1.0]
  }

  /** n copies of the same vector. */
  function Fill(v: Vector, n: nat): seq<Vector>
  {
    seq(n, _ => v)
  }

  predicate AllBelow(ds: seq<nat>, bound: int)
  {
    forall i :: 0 <= i < |ds| ==> ds[i] < bound
  }

  /** Each symbol of ds as a one-hot vector of width w. */
  function Encode(ds: seq<nat>, w: nat): seq<Vector>
    requires AllBelow(ds, w)
  {
    seq(|ds|, i requires 0 <= i < |ds| => OneHot(w, ds[i]))
  }

  /** Every vector of vs has width w. */
  predicate Widths(vs: seq<Vector>, w: int)
  {
    forall t :: 0 <= t < |vs| ==> |vs[t]| == w
  }

  /** The invariant every generated sample keeps: aligned lengths and declared widths. */
  predicate WellFormed(s: Sample, inputSize: int, outputSize: int)
  {
    |s.inputs| == |s.outputs| && Widths(s.inputs, inputSize) && Widths(s.outputs, outputSize)
  }

  /** `float64(rand.Intn(2))` for a drawn bit. */
  function BitValue(b: bool): real
  {
    if b then 1.0 else 0.0
  }

  /** The all-zero input of the three-channel tasks, repeat and match-open. */
  function Quiet(): Vector
  {
    [0.0, 0.0, 0.0]
  }

  /** A prefix of a prefix is the shorter prefix. */
  lemma PrefixOfPrefix<T>(s: seq<T>, i: nat, j: nat)
    requires j <= i <= |s|
    ensures s[..i][..j] == s[..j]
  {
  }

  lemma FillSnoc(v: Vector, n: nat)
    ensures Fill(v, n) + [v] == Fill(v, n + 1)
  {
  }

  lemma FillAppend(v: Vector, m: nat, n: nat)
    ensures Fill(v, m) + Fill(v, n) == Fill(v, m + n)
  {
  }

  lemma AppendAssoc<T>(a: seq<T>, b: seq<T>, c: seq<T>)
    ensures (a + b) + c == a + (b + c)
  {
  }

  /** Every entry of every vector of vs is 0 or 1. */
  predicate Binary(vs: seq<Vector>)
  {
    forall t, j :: 0 <= t < |vs| && 0 <= j < |vs[t]| ==> vs[t][j] == 0.0 || vs[t][j] == 1.0
  }

  /** Decoding of a one-hot vector: the first component equal to 1, or |v| when there is none. */
  function HotIndex(v: Vector): (k: nat)
    ensures k <= |v|
    ensures k < |v| ==> v[k] == 1.0
    ensures forall j :: 0 <= j < k ==> v[j] != 1.0
  {
    if |v| == 0 then 0
    else if v[0] == 1.0 then 0
    else 1 + HotIndex(v[1..])
  }

  /** Decodes every vector of vs. */
  function Decode(vs: seq<Vector>): (ds: seq<nat>)
    ensures |ds| == |vs|
  {
    seq(|vs|, t requires 0 <= t < |vs| => HotIndex(vs[t]))
  }

  lemma HotIndexOfOneHot(w: nat, k: nat)
    requires k < w
    ensures HotIndex(OneHot(w, k)) == k
  {
    var v := OneHot(w, k);
    var h := HotIndex(v);
    assert v[k] == 1.0;
  }

  /** Decoding inverts one-hot encoding. */
  lemma DecodeEncode(ds: seq<nat>, w: nat)
    requires AllBelow(ds, w)
    ensures Decode(Encode(ds, w)) == ds
  {
    forall i | 0 <= i < |ds|
      ensures Decode(Encode(ds, w))[i] == ds[i]
    {
      HotIndexOfOneHot(w, ds[i]);
    }
  }
}
