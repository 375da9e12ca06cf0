/**
 * The reference-point builder: an array of positions (one slot per basic
 * reference point, -1 for "not set") written in place, validated after every
 * write, and rolled back when the validation rejects the write.
 *
 * The validity check (ReferencePoints.checkReferencePoints) is not part of this
 * model; the builder carries it as a function of the positions and the
 * per-slot "to check" flags. A basic reference point is identified with its
 * slot index (the subclass's indexFromBasicReferencePoint is not part of this
 * model either).
 */
module ReferencePointsBuilder {
  import opened Outcomes

  /** A reference point: a basic point (its slot index) plus an offset. */
  datatype ReferencePoint = ReferencePoint(basic: int, offset: int)
  {
    predicate HasNoOffset() { offset == 0 }
  }

  /**
   * Why a write was refused. `WhileAdding` wraps the IllegalArgumentException of
   * a write made through a reference point; an index outside the array is not
   * an IllegalArgumentException in the source and is passed on unwrapped.
   */
  datatype BuilderError =
    | WrongPosition(position: int)
    | IndexOutOfRange(index: int)
    | CheckFailed
    | NotBasic(point: ReferencePoint)
    | WhileAdding(point: ReferencePoint, cause: BuilderError)

  type Check = (seq<int>, seq<bool>) -> bool

  /**
   * One write of `position` into slot `index` of `ps`: positions below -1 are
   * refused before anything is read, then the slot must exist, then the written
   * array must pass the check. On refusal the array is as before.
   */
  function SetSpec(check: Check, toCheck: seq<bool>, ps: seq<int>, index: int, position: int)
    : (r: Result<seq<int>, BuilderError>)
    ensures r.Ok? <==> (position >= -1 && 0 <= index < |ps| && check(ps[index := position], toCheck))
    ensures position < -1 ==> r == Err(WrongPosition(position))
    ensures r.Ok? ==>
      && |r.value| == |ps| && r.value[index] == position
      && (forall j | 0 <= j < |ps| && j != index :: r.value[j] == ps[j])
      && check(r.value, toCheck)
    ensures r.Err? ==> r.error in {WrongPosition(position), IndexOutOfRange(index), CheckFailed}
  {
    if position < -1 then Err(WrongPosition(position))
    else if !(0 <= index < |ps|) then Err(IndexOutOfRange(index))
    else if !check(ps[index := position], toCheck) then Err(CheckFailed)
    else Ok(ps[index := position])
  }

  /** The error of a write through `rp`, as the public setter reports it. */
  function Wrapped(rp: ReferencePoint, e: BuilderError): BuilderError
  {
    if e.IndexOutOfRange? then e else WhileAdding(rp, e)
  }

  /**
   * A write through a reference point: one with an offset is refused outright;
   * otherwise it is the write into the basic point's slot, with its
   * IllegalArgumentException wrapped.
   */
  function SetPointSpec(check: Check, toCheck: seq<bool>, ps: seq<int>, rp: ReferencePoint, position: int)
    : (r: Result<seq<int>, BuilderError>)
    ensures !rp.HasNoOffset() ==> r == Err(NotBasic(rp))
    ensures rp.HasNoOffset() ==> (r.Ok? <==> SetSpec(check, toCheck, ps, rp.basic, position).Ok?)
    ensures r.Ok? ==> r == SetSpec(check, toCheck, ps, rp.basic, position)
    ensures r.Err? && rp.HasNoOffset() ==>
      r.error == Wrapped(rp, SetSpec(check, toCheck, ps, rp.basic, position).error)
  {
    if !rp.HasNoOffset() then Err(NotBasic(rp))
    else
      match SetSpec(check, toCheck, ps, rp.basic, position)
      case Ok(qs) => Ok(qs)
      case Err(e) => Err(Wrapped(rp, e))
  }

  /** Where copying slots stopped: the slot whose write was refused, and why. */
  datatype Stop = Stop(index: int, error: BuilderError)

  /** The positions reached by copying slots, and the refusal that ended it, if any. */
  datatype Applied = Applied(points: seq<int>, stop: Option<Stop>)

  /**
   * Copies the defined (not -1) slots of `src` from slot `from` on, in increasing
   * order, each as one write; the first refused write ends the copy, and the
   * writes before it stay.
   */
  function ApplyFrom(check: Check, toCheck: seq<bool>, ps: seq<int>, src: seq<int>, from: nat): Applied
    decreases |src| - from
  {
    if from >= |src| then Applied(ps, None)
    else if src[from] == -1 then ApplyFrom(check, toCheck, ps, src, from + 1)
    else
      match SetSpec(check, toCheck, ps, from, src[from])
      case Err(e) => Applied(ps, Some(Stop(from, e)))
      case Ok(qs) => ApplyFrom(check, toCheck, qs, src, from + 1)
  }

  /** The first slot not copied: the refused one, or the end of `src`. */
  function StopIndex(src: seq<int>, a: Applied): int
  {
    if a.stop.Some? then a.stop.value.index else |src|
  }

  /**
   * Copying keeps the length; every defined slot of `src` before the stop holds
   * the source's value and every other slot its old one; a stop is at a defined
   * slot whose write was refused on the positions reached.
   */
  lemma {:induction false} ApplyFromSlots(check: Check, toCheck: seq<bool>, ps: seq<int>, src: seq<int>, from: nat)
    ensures var a := ApplyFrom(check, toCheck, ps, src, from);
      && |a.points| == |ps|
      && (a.stop.Some? ==>
            && from <= a.stop.value.index < |src| && src[a.stop.value.index] != -1
            && SetSpec(check, toCheck, a.points, a.stop.value.index, src[a.stop.value.index])
               == Err(a.stop.value.error))
      && (forall k | 0 <= k < |ps| ::
            a.points[k] == (if from <= k < StopIndex(src, a) && src[k] != -1 then src[k] else ps[k]))
    decreases |src| - from
  {
    if from >= |src| {
    } else if src[from] == -1 {
      ApplyFromSlots(check, toCheck, ps, src, from + 1);
    } else {
      match SetSpec(check, toCheck, ps, from, src[from])
      case Err(e) =>
      case Ok(qs) =>
        ApplyFromSlots(check, toCheck, qs, src, from + 1);
    }
  }

  /** Copying leaves the positions as they were or passing the check. */
  lemma {:induction false} ApplyFromChecked(check: Check, toCheck: seq<bool>, ps: seq<int>, src: seq<int>, from: nat)
    ensures var a := ApplyFrom(check, toCheck, ps, src, from);
      a.points == ps || check(a.points, toCheck)
    decreases |src| - from
  {
    if from < |src| {
      if src[from] == -1 {
        ApplyFromChecked(check, toCheck, ps, src, from + 1);
      } else if SetSpec(check, toCheck, ps, from, src[from]).Ok? {
        var qs := SetSpec(check, toCheck, ps, from, src[from]).value;
        ApplyFromChecked(check, toCheck, qs, src, from + 1);
      }
    }
  }

  /** A copy refused at its first defined slot leaves the positions as they were. */
  lemma RefusedWriteChangesNothing(check: Check, toCheck: seq<bool>, ps: seq<int>, src: seq<int>)
    requires ApplyFrom(check, toCheck, ps, src, 0).stop.Some?
    requires var i := ApplyFrom(check, toCheck, ps, src, 0).stop.value.index;
      forall k | 0 <= k < |src| && src[k] != -1 :: k >= i
    ensures ApplyFrom(check, toCheck, ps, src, 0).points == ps
  {
    var a := ApplyFrom(check, toCheck, ps, src, 0);
    ApplyFromSlots(check, toCheck, ps, src, 0);
    assert forall k | 0 <= k < |ps| :: a.points[k] == ps[k];
  }

  /** The outcome `res` of a write was followed: the new positions, or the old ones and the error. */
  ghost predicate Follows(res: Result<seq<int>, BuilderError>, err: Option<BuilderError>,
                          before: seq<int>, after: seq<int>)
  {
    match res
    case Ok(qs) => err.None? && after == qs
    case Err(e) => err == Some(e) && after == before
  }

  class Builder {
    const toCheck: seq<bool>
    const check: Check
    const points: array<int>

    /** A builder with one unset (-1) slot per flag. */
    constructor (toCheck: seq<bool>, check: Check)
      ensures this.toCheck == toCheck && this.check == check
      ensures fresh(points) && points.Length == |toCheck|
      ensures forall i | 0 <= i < points.Length :: points[i] == -1
    {
      this.toCheck := toCheck;
      this.check := check;
      points := new int[|toCheck|](_ => -1);
    }

    /** Writes one slot, restoring its old value when the check rejects the write. */
    method SetPositionAt(index: int, position: int) returns (err: Option<BuilderError>)
      modifies points
      ensures Follows(SetSpec(check, toCheck, old(points[..]), index, position), err, old(points[..]), points[..])
    {
      if position < -1 {
        return Some(WrongPosition(position));
      }
      if !(0 <= index < points.Length) {
        return Some(IndexOutOfRange(index));
      }
      var oldValue := points[index];
      points[index] := position;
      if !check(points[..], toCheck) {
        points[index] := oldValue;
        assert points[..] == old(points[..]);
        return Some(CheckFailed);
      }
      err := None;
    }

    /** Writes the slot of a reference point without offset. */
    method SetPosition(rp: ReferencePoint, position: int) returns (err: Option<BuilderError>)
      modifies points
      ensures Follows(SetPointSpec(check, toCheck, old(points[..]), rp, position), err, old(points[..]), points[..])
    {
      if !rp.HasNoOffset() {
        return Some(NotBasic(rp));
      }
      err := SetPositionAt(rp.basic, position);
      if err.Some? {
        err := Some(Wrapped(rp, err.value));
      }
    }

    /** Copies every defined slot of `src`, in slot order, until a write is refused. */
    method SetPositionsFrom(src: seq<int>) returns (err: Option<BuilderError>)
      modifies points
      ensures var a := ApplyFrom(check, toCheck, old(points[..]), src, 0);
        && points[..] == a.points
        && err == (if a.stop.Some? then Some(a.stop.value.error) else None)
    {
      var i := 0;
      while i < |src|
        invariant 0 <= i <= |src|
        invariant ApplyFrom(check, toCheck, old(points[..]), src, 0) == ApplyFrom(check, toCheck, points[..], src, i)
      {
        if src[i] != -1 {
          err := SetPositionAt(i, src[i]);
          if err.Some? {
            return;
          }
        }
        i := i + 1;
      }
      err := None;
    }

    /** The built points: a copy of the slots, not the builder's own array. */
    method Build() returns (built: array<int>)
      ensures fresh(built) && built[..] == points[..]
    {
      built := new int[points.Length];
      forall i | 0 <= i < points.Length {
        built[i] := points[i];
      }
    }
  }

  /** A write made after `Build` leaves the built points as they were. */
  method BuildIsSnapshot(b: Builder, rp: ReferencePoint, position: int) returns (built: array<int>)
    modifies b.points
    ensures built[..] == old(b.points[..])
  {
    built := b.Build();
    var _ := b.SetPosition(rp, position);
  }
}
