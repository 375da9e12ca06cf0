/**
 * Feature extraction from a partitioned sequence: a simple feature is one
 * range of the sequence, a composite feature the concatenation of the parts of
 * its ranges, in order.
 *
 * The partitioning (SequencePartitioning.getRange/getRanges), the feature's
 * "composite" test and the sequence's getSequence are not part of this model;
 * they are given as functions.
 */
module PartitionedSequence {
  import opened Outcomes

  /** A range of sequence positions; its length is `upper - lower`. */
  datatype Range = Range(lower: int, upper: int)
  {
    function Length(): int { upper - lower }
  }

  /**
   * A partitioned sequence of letters `T`, seen through features `F`: whether a
   * feature is composite, the range of a simple feature, the ranges of a composite
   * one (None for Java's null), and the part of the sequence under a range.
   */
  datatype Partitioned<!F, T> = Partitioned(
    isComposite: F -> bool,
    getRange: F -> Option<Range>,
    getRanges: F -> Option<seq<Range>>,
    getSequence: Range -> seq<T>)

  /** A composite feature whose range array is empty: the source reads `ranges[0]` and throws. */
  datatype FeatureError = NoRanges

  /** The parts under `rs`, concatenated in array order. */
  function Concat<T>(part: Range -> seq<T>, rs: seq<Range>): seq<T>
  {
    if rs == [] then [] else Concat(part, rs[..|rs| - 1]) + part(rs[|rs| - 1])
  }

  /** The sum of the lengths of `rs`. */
  function SumLengths(rs: seq<Range>): int
  {
    if rs == [] then 0 else SumLengths(rs[..|rs| - 1]) + rs[|rs| - 1].Length()
  }

  /**
   * The feature's sequence: None when the partitioning has no range(s) for it,
   * the part under its range for a simple feature, the concatenated parts for a
   * composite one.
   */
  function FeatureSpec<F, T>(p: Partitioned<F, T>, feature: F): Result<Option<seq<T>>, FeatureError>
  {
    if !p.isComposite(feature) then
      match p.getRange(feature)
      case None => Ok(None)
      case Some(range) => Ok(Some(p.getSequence(range)))
    else
      match p.getRanges(feature)
      case None => Ok(None)
      case Some(rs) => if rs == [] then Err(NoRanges) else Ok(Some(Concat(p.getSequence, rs)))
  }

  /** Concatenation distributes over splitting the range array. */
  lemma {:induction false} ConcatAppend<T>(part: Range -> seq<T>, a: seq<Range>, b: seq<Range>)
    ensures Concat(part, a + b) == Concat(part, a) + Concat(part, b)
    decreases |b|
  {
    if b == [] {
      assert a + b == a;
    } else {
      var n := |b| - 1;
      assert (a + b)[..|a + b| - 1] == a + b[..n];
      assert (a + b)[|a + b| - 1] == b[n];
      ConcatAppend(part, a, b[..n]);
    }
  }

  /** One range: the concatenation is that range's part. */
  lemma SingleRange<T>(part: Range -> seq<T>, r: Range)
    ensures Concat(part, [r]) == part(r)
  {
    assert [r][..0] == [];
  }

  /** The first range's part is a prefix of the result and the last range's part a suffix. */
  lemma FirstPrefixLastSuffix<T>(part: Range -> seq<T>, rs: seq<Range>)
    requires |rs| >= 1
    ensures var c := Concat(part, rs);
      && |part(rs[0])| <= |c| && c[..|part(rs[0])|] == part(rs[0])
      && |part(rs[|rs| - 1])| <= |c| && c[|c| - |part(rs[|rs| - 1])|..] == part(rs[|rs| - 1])
  {
    assert rs == [rs[0]] + rs[1..];
    ConcatAppend(part, [rs[0]], rs[1..]);
    SingleRange(part, rs[0]);
  }

  /** When every part is as long as its range, the result is as long as the sum of the ranges. */
  lemma {:induction false} ConcatLength<T>(part: Range -> seq<T>, rs: seq<Range>)
    requires forall r | r in rs :: |part(r)| == r.Length()
    ensures |Concat(part, rs)| == SumLengths(rs)
    decreases |rs|
  {
    if rs != [] {
      assert rs[|rs| - 1] in rs;
      assert forall r | r in rs[..|rs| - 1] :: r in rs;
      ConcatLength(part, rs[..|rs| - 1]);
    }
  }

  /** Each range of the array is read exactly once, in order: part `i` starts after parts `0..i-1`. */
  lemma PartAt<T>(part: Range -> seq<T>, rs: seq<Range>, i: int)
    requires 0 <= i < |rs|
    ensures var before := |Concat(part, rs[..i])|;
      && before + |part(rs[i])| <= |Concat(part, rs)|
      && Concat(part, rs)[before..before + |part(rs[i])|] == part(rs[i])
  {
    assert rs == rs[..i] + ([rs[i]] + rs[i + 1..]);
    ConcatAppend(part, rs[..i], [rs[i]] + rs[i + 1..]);
    ConcatAppend(part, [rs[i]], rs[i + 1..]);
    SingleRange(part, rs[i]);
  }

  /** The capacity the builder is given: the summed lengths of the ranges. */
  method TotalLength(rs: seq<Range>) returns (size: int)
    ensures size == SumLengths(rs)
  {
    size := 0;
    var i := 0;
    while i < |rs|
      invariant 0 <= i <= |rs|
      invariant size == SumLengths(rs[..i])
    {
      assert rs[..i + 1][..i] == rs[..i];
      size := size + rs[i].Length();
      i := i + 1;
    }
    assert rs[..|rs|] == rs;
  }

  /** Extracts a feature, appending the parts of a composite feature one range at a time. */
  method GetFeature<F, T>(p: Partitioned<F, T>, feature: F) returns (r: Result<Option<seq<T>>, FeatureError>)
    ensures r == FeatureSpec(p, feature)
  {
    if !p.isComposite(feature) {
      var range := p.getRange(feature);
      if range.None? {
        return Ok(None);
      }
      return Ok(Some(p.getSequence(range.value)));
    }
    var ranges := p.getRanges(feature);
    if ranges.None? {
      return Ok(None);
    }
    var rs := ranges.value;
    if |rs| == 1 {
      SingleRange(p.getSequence, rs[0]);
      assert rs == [rs[0]];
      return Ok(Some(p.getSequence(rs[0])));
    }
    var size := TotalLength(rs);
    if |rs| == 0 {
      return Err(NoRanges);
    }
    var builder := p.getSequence(rs[0]);
    SingleRange(p.getSequence, rs[0]);
    assert rs[..1] == [rs[0]];
    var i := 1;
    while i < |rs|
      invariant 1 <= i <= |rs|
      invariant builder == Concat(p.getSequence, rs[..i])
    {
      assert rs[..i + 1][..i] == rs[..i];
      builder := builder + p.getSequence(rs[i]);
      i := i + 1;
    }
    assert rs[..|rs|] == rs;
    return Ok(Some(builder));
  }
}
