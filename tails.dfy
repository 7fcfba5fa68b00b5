/**
 * The tail finders each task hands to the scorer: a scan of the input
 * sequence for each task's marker component, returning the index at which
 * scoring starts, or None where the source panics with "no tail found".
 */
module Tails {
  import opened Vectors

  /** Which component of a vector holds the marker: a fixed index, or the last one. */
  datatype Channel = At(k: nat) | Last

  /** Reading the channel does not index out of range. */
  predicate Readable(v: Vector, c: Channel)
  {
    match c
    case At(k) => k < |v|
    case Last => |v| > 0
  }

  predicate Marked(v: Vector, c: Channel)
  {
    Readable(v, c) && v[if c.At? then c.k else |v| - 1] == 1.0
  }

  predicate AllReadable(s: seq<Vector>, c: Channel)
  {
    forall i :: 0 <= i < |s| ==> Readable(s[i], c)
  }

  /** The index of the first marked vector of s. */
  function FirstMarked(s: seq<Vector>, c: Channel): (r: Option<nat>)
    ensures r.Some? ==> r.value < |s| && Marked(s[r.value], c)
    ensures r.Some? ==> forall j :: 0 <= j < r.value ==> !Marked(s[j], c)
    ensures r.None? ==> forall j :: 0 <= j < |s| ==> !Marked(s[j], c)
  {
    if |s| == 0 then None
    else if Marked(s[0], c) then Some(0)
    else match FirstMarked(s[1..], c)
      case None => None
      case Some(i) => Some(i + 1)
  }

  /** The index of the second marked vector of s. */
  function SecondMarked(s: seq<Vector>, c: Channel): (r: Option<nat>)
    ensures r.Some? ==> r.value < |s| && Marked(s[r.value], c)
    ensures r.Some? ==> FirstMarked(s, c).Some? && FirstMarked(s, c).value < r.value
    ensures r.Some? ==> forall i, j :: 0 <= i < j < r.value && Marked(s[i], c) ==> !Marked(s[j], c)
    ensures r.None? ==> forall i, j :: 0 <= i < j < |s| && Marked(s[i], c) ==> !Marked(s[j], c)
  {
    match FirstMarked(s, c)
    case None => None
    case Some(i) =>
      var rest := s[i + 1..];
      match FirstMarked(rest, c)
      case None =>
        assert forall j :: i < j < |s| ==> s[j] == rest[j - i - 1];
        None
      case Some(j) =>
        assert forall k :: i < k < i + 1 + j ==> s[k] == rest[k - i - 1];
        Some(i + 1 + j)
  }

  /** The tail the scorer starts at: `offset` steps after the first marker. */
  function FirstMarkTail(s: seq<Vector>, c: Channel, offset: nat): (r: Option<nat>)
    ensures r.Some? ==> offset <= r.value < |s| + offset && Marked(s[r.value - offset], c)
    ensures r.Some? ==> forall j :: 0 <= j < r.value - offset ==> !Marked(s[j], c)
    ensures r.None? ==> forall j :: 0 <= j < |s| ==> !Marked(s[j], c)
  {
    match FirstMarked(s, c)
    case None => None
    case Some(i) => Some(i + offset)
  }

  /** The tail just after the second marker. */
  function SecondMarkTail(s: seq<Vector>, c: Channel): (r: Option<nat>)
    ensures r.Some? ==> 0 < r.value <= |s| && Marked(s[r.value - 1], c)
    ensures r.Some? ==> FirstMarked(s, c).Some? && FirstMarked(s, c).value < r.value - 1
    ensures r.Some? ==> forall i, j :: 0 <= i < j < r.value - 1 && Marked(s[i], c) ==> !Marked(s[j], c)
    ensures r.None? ==> forall i, j :: 0 <= i < j < |s| && Marked(s[i], c) ==> !Marked(s[j], c)
  {
    match SecondMarked(s, c)
    case None => None
    case Some(i) => Some(i + 1)
  }

  /** A marker at i with none before it is the first marker. */
  lemma FirstMarkedAt(s: seq<Vector>, c: Channel, i: nat)
    requires i < |s| && Marked(s[i], c)
    requires forall j :: 0 <= j < i ==> !Marked(s[j], c)
    ensures FirstMarked(s, c) == Some(i)
  {
  }

  /** Markers at i and k with none elsewhere before k: the tail starts just after k. */
  lemma SecondMarkedAt(s: seq<Vector>, c: Channel, i: nat, k: nat)
    requires i < k < |s| && Marked(s[i], c) && Marked(s[k], c)
    requires forall j :: 0 <= j < k && j != i ==> !Marked(s[j], c)
    ensures SecondMarkTail(s, c) == Some(k + 1)
  {
    FirstMarkedAt(s, c, i);
    var rest := s[i + 1..];
    assert rest[k - i - 1] == s[k];
    forall j | 0 <= j < k - i - 1
      ensures !Marked(rest[j], c)
    {
      assert rest[j] == s[i + 1 + j];
    }
    FirstMarkedAt(rest, c, k - i - 1);
    assert FirstMarked(s, c) == Some(i);
    assert FirstMarked(rest, c) == Some(k - i - 1);
  }

  /**
   * The scan of repeat.go, match_open.go and match_multi.go (offset 1) and of
   * random_recall.go (offset 0): the first marked index plus the offset.
   */
  method FindFirstMark(s: seq<Vector>, c: Channel, offset: nat) returns (r: Option<nat>)
    requires AllReadable(s, c)
    ensures r == FirstMarkTail(s, c, offset)
  {
    var i := 0;
    while i < |s|
      invariant 0 <= i <= |s|
      invariant forall j :: 0 <= j < i ==> !Marked(s[j], c)
    {
      var x := s[i];
      var component := if c.At? then x[c.k] else x[|x| - 1];
      if component == 1.0 {
        FirstMarkedAt(s, c, i);
        return Some(i + offset);
      }
      i := i + 1;
    }
    r := None;
  }

  /** The scan of addition.go: the index just after the second marked vector. */
  method FindSecondMark(s: seq<Vector>, c: Channel) returns (r: Option<nat>)
    requires AllReadable(s, c)
    ensures r == SecondMarkTail(s, c)
  {
    var seenBefore := false;
    ghost var first: nat := 0;
    var i := 0;
    while i < |s|
      invariant 0 <= i <= |s|
      invariant !seenBefore ==> forall j :: 0 <= j < i ==> !Marked(s[j], c)
      invariant seenBefore ==> first < i && FirstMarked(s, c) == Some(first)
      invariant seenBefore ==> forall j :: first < j < i ==> !Marked(s[j], c)
    {
      var x := s[i];
      var component := if c.At? then x[c.k] else x[|x| - 1];
      if component == 1.0 {
        if seenBefore {
          SecondMarkedAt(s, c, first, i);
          return Some(i + 1);
        }
        FirstMarkedAt(s, c, i);
        seenBefore := true;
        first := i;
      }
      i := i + 1;
    }
    r := None;
  }
}
