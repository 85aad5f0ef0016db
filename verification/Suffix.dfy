/** Coordinate arithmetic of the bounded WAL suffix. */
module Suffix {
  import opened Common
  import opened Domain

  datatype TakeoverFenceError = NoRunCoordinate | NotAfterCut | SpanExceeded(span: nat)

  /** The inclusive coordinate span after `cut` through `head`. */
  function SpanThrough(cut: Option<nat>, head: nat): (span: Option<nat>) {
    var start := if cut.Some? then cut.value else 0;
    if head >= start then Some(head - start) else None
  }

  /** Whether `run` fits while its successor stays reserved for a takeover. */
  predicate RunLeavesTakeoverRoom(cut: Option<nat>, run: nat) {
    var fence := Successor(run);
    fence.Some? &&
    var span := SpanThrough(cut, fence.value);
    span.Some? && 1 < span.value <= WAL_SUFFIX_COORDINATES_MAX
  }

  /** A takeover FENCE inside the suffix bound with a later RUN coordinate. */
  function BoundTakeoverFence(cut: Option<nat>, fence: nat): (r: Result<nat, TakeoverFenceError>) {
    if Successor(fence).None? then Err(NoRunCoordinate)
    else
      var span := SpanThrough(cut, fence);
      if span.None? || span.value == 0 then Err(NotAfterCut)
      else if span.value > WAL_SUFFIX_COORDINATES_MAX then Err(SpanExceeded(span.value))
      else Ok(fence)
  }

  /** Room for a RUN outlives every advance of the cut that stays before it,
      and is exactly room for the FENCE that takes over right after it. */
  lemma RoomOutlivesAdvance(cut: Option<nat>, run: nat, later: Option<nat>)
    requires RunLeavesTakeoverRoom(cut, run)
    requires cut.Some? ==> later.Some? && cut.value <= later.value
    requires later.Some? ==> later.value <= run
    ensures BoundTakeoverFence(later, run + 1).Ok? <==> run + 1 < U64_MAX
    ensures (later.Some? && later.value == run) || RunLeavesTakeoverRoom(later, run)
  {
  }

  /** A FENCE passes the bound exactly when it is after the cut, at most the
      suffix bound beyond it, and not the last coordinate. */
  lemma FenceBoundExactly(cut: Option<nat>, fence: nat)
    ensures BoundTakeoverFence(cut, fence).Ok? <==>
      var start := if cut.Some? then cut.value else 0;
      start < fence <= start + WAL_SUFFIX_COORDINATES_MAX && fence < U64_MAX
    ensures BoundTakeoverFence(cut, fence).Ok? ==> BoundTakeoverFence(cut, fence).value == fence
  {
  }

  /** A RUN leaves takeover room exactly when it is after the cut, its successor
      is at most the suffix bound beyond the cut, and it has a successor. */
  lemma RunRoomExactly(cut: Option<nat>, run: nat)
    ensures RunLeavesTakeoverRoom(cut, run) <==>
      var start := if cut.Some? then cut.value else 0;
      start < run < start + WAL_SUFFIX_COORDINATES_MAX && run < U64_MAX
  {
  }
}
