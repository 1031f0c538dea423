/**
 * The hero section's cursor parallax: a pointer position inside the section
 * is mapped to a shift (in px) and a tilt (in degrees), and the four CSS
 * custom properties are written at most once per animation frame, always
 * with the latest target.
 */
module HeroOrbit {
  import opened Common

  /** HERO_CURSOR_SHIFT: the largest shift, in px. */
  const CursorShift: real := 18.0
  /** HERO_CURSOR_TILT: the largest tilt, in degrees. */
  const CursorTilt: real := 2.5

  /** The four values written to --hero-shift-x/-y and --hero-tilt-x/-y. */
  datatype CursorTarget = CursorTarget(shiftX: real, shiftY: real, tiltX: real, tiltY: real)

  /** The target a pointer leave restores, and the initial value of the ref. */
  const Rest: CursorTarget := CursorTarget(0.0, 0.0, 0.0, 0.0)

  /** The section's bounding client rectangle. */
  datatype Rect = Rect(left: real, top: real, width: real, height: real)

  /** A handle returned by requestAnimationFrame; browsers never hand out 0. */
  type FrameId = n: nat | n > 0 witness 1

  /** The handler's local `clamp`: Math.max(-1, Math.min(1, value)). */
  function Clamp(v: real): (r: real)
    ensures -1.0 <= r <= 1.0
    ensures -1.0 <= v <= 1.0 ==> r == v
    ensures v < -1.0 ==> r == -1.0
    ensures 1.0 < v ==> r == 1.0
  {
    Max(-1.0, Min(1.0, v))
  }

  /**
   * One axis of the pointer position, relative to the section's centre and
   * scaled so that the section's edges are at -1 and 1.
   */
  function Normalize(client: real, origin: real, extent: real): (r: real)
    requires extent > 0.0
    ensures origin <= client <= origin + extent ==> -1.0 <= r <= 1.0
    ensures client == origin + extent / 2.0 ==> r == 0.0
    ensures r < 0.0 <==> client < origin + extent / 2.0
  {
    RatioFacts(client - origin, extent);
    ((client - origin) / extent - 0.5) * 2.0
  }

  /** How a quotient by a positive extent compares with one half and with the unit interval. */
  lemma RatioFacts(d: real, e: real)
    requires e > 0.0
    ensures d / e < 0.5 <==> d < e / 2.0
    ensures d / e == 0.5 <==> d == e / 2.0
    ensures 0.0 <= d <= e ==> 0.0 <= d / e <= 1.0
  {
  }

  /** Whether two reals have the same sign (both negative, both zero or both positive). */
  predicate SameSign(a: real, b: real) {
    (a < 0.0 <==> b < 0.0) && (a == 0.0 <==> b == 0.0) && (a > 0.0 <==> b > 0.0)
  }

  /**
   * The target for normalized pointer coordinates: shifts follow the
   * clamped coordinates, the tilt about the y axis follows the horizontal
   * shift and the tilt about the x axis opposes the vertical shift, each in
   * a fixed ratio.
   */
  function TargetFor(normX: real, normY: real): (t: CursorTarget)
    ensures -CursorShift <= t.shiftX <= CursorShift && -CursorShift <= t.shiftY <= CursorShift
    ensures -CursorTilt <= t.tiltX <= CursorTilt && -CursorTilt <= t.tiltY <= CursorTilt
    ensures SameSign(t.tiltY, t.shiftX) && SameSign(t.tiltX, -t.shiftY)
    ensures t.tiltY * CursorShift == t.shiftX * CursorTilt
    ensures t.tiltX * CursorShift == -t.shiftY * CursorTilt
    ensures -1.0 <= normX <= 1.0 && -1.0 <= normY <= 1.0 ==>
              t.shiftX == normX * CursorShift && t.shiftY == normY * CursorShift
  {
    CursorTarget(
      Clamp(normX) * CursorShift,
      Clamp(normY) * CursorShift,
      Clamp(normY) * -CursorTilt,
      Clamp(normX) * CursorTilt)
  }

  /** The target `handlePointerMove` computes for a pointer at (clientX, clientY). */
  function TargetAt(clientX: real, clientY: real, rect: Rect): (t: CursorTarget)
    requires rect.width > 0.0 && rect.height > 0.0
    ensures clientX == rect.left + rect.width / 2.0 && clientY == rect.top + rect.height / 2.0 ==> t == Rest
    ensures SameSign(t.shiftX, clientX - (rect.left + rect.width / 2.0))
    ensures SameSign(t.shiftY, clientY - (rect.top + rect.height / 2.0))
  {
    TargetFor(Normalize(clientX, rect.left, rect.width), Normalize(clientY, rect.top, rect.height))
  }

  /**
   * The component's refs and the host's frame queue. `target` is
   * cursorTarget.current, `pending` is rafRef.current, `scheduled` the frame
   * callbacks requested from the host and neither run nor cancelled,
   * `requested` every frame ever requested, in order, and `applied` the
   * values last written to the section's style (None before the first
   * write).
   */
  class HeroCursor {
    var isPointerFine: bool
    var heroMounted: bool
    var unmounted: bool
    var target: CursorTarget
    var pending: Option<FrameId>
    var scheduled: seq<FrameId>
    ghost var requested: seq<FrameId>
    var applied: Option<CursorTarget>

    /**
     * At most one frame request is outstanding, and it is the one the
     * pending marker names; after unmount nothing is outstanding.
     */
    ghost predicate Valid()
      reads this
    {
      && |scheduled| <= 1
      && (!unmounted ==> (pending.None? <==> scheduled == []))
      && (!unmounted && pending.Some? ==> scheduled == [pending.value])
      && (unmounted ==> scheduled == [])
    }

    constructor (heroMounted: bool)
      ensures Valid()
      ensures this.heroMounted == heroMounted && !isPointerFine && !unmounted
      ensures target == Rest && pending == None && scheduled == [] && applied == None
      ensures requested == []
    {
      this.heroMounted := heroMounted;
      isPointerFine := false;
      unmounted := false;
      target := Rest;
      pending := None;
      scheduled := [];
      requested := [];
      applied := None;
    }

    /** The `(pointer: fine) and (hover: hover)` media query reports a value. */
    method SetPointerFine(matches: bool)
      requires Valid()
      modifies this`isPointerFine
      ensures Valid() && isPointerFine == matches
    {
      isPointerFine := matches;
    }

    /**
     * `queueCursorFlush`: request a frame only when none is pending.
     * `frame` is the handle the host would return.
     */
    method QueueCursorFlush(frame: FrameId)
      requires Valid() && !unmounted
      modifies this`pending, this`scheduled, this`requested
      ensures Valid()
      ensures old(pending).Some? ==>
                pending == old(pending) && scheduled == old(scheduled) && requested == old(requested)
      ensures old(pending).None? ==>
                pending == Some(frame) && scheduled == [frame] && requested == old(requested) + [frame]
    {
      if pending.Some? {
        return;
      }
      pending := Some(frame);
      scheduled := scheduled + [frame];
      requested := requested + [frame];
    }

    /**
     * `flushCursor`, run by the host for the one scheduled frame: clear the
     * pending marker and, while the section is mounted, write the latest
     * target.
     */
    method FlushCursor()
      requires Valid() && scheduled != []
      modifies this`pending, this`scheduled, this`applied
      ensures Valid()
      ensures pending == None && scheduled == []
      ensures applied == if heroMounted then Some(target) else old(applied)
    {
      scheduled := [];
      pending := None;
      if !heroMounted {
        return;
      }
      applied := Some(target);
    }

    /**
     * `handlePointerMove`: ignored unless the pointer is fine and the
     * section is mounted; otherwise store the target for the pointer and
     * queue a flush.
     */
    method HandlePointerMove(clientX: real, clientY: real, rect: Rect, frame: FrameId)
      requires Valid() && !unmounted
      requires isPointerFine && heroMounted ==> rect.width > 0.0 && rect.height > 0.0
      modifies this`target, this`pending, this`scheduled, this`requested
      ensures Valid()
      ensures !(isPointerFine && heroMounted) ==>
                && target == old(target) && pending == old(pending) && scheduled == old(scheduled)
                && requested == old(requested)
      ensures isPointerFine && heroMounted ==>
                && target == TargetAt(clientX, clientY, rect)
                && pending == (if old(pending).Some? then old(pending) else Some(frame))
                && |scheduled| == 1
                && requested == old(requested) + (if old(pending).Some? then [] else [frame])
    {
      if !isPointerFine || !heroMounted {
        return;
      }
      target := TargetAt(clientX, clientY, rect);
      QueueCursorFlush(frame);
    }

    /** `handlePointerLeave`: reset every target to zero and queue a flush. */
    method HandlePointerLeave(frame: FrameId)
      requires Valid() && !unmounted
      modifies this`target, this`pending, this`scheduled, this`requested
      ensures Valid()
      ensures target == Rest
      ensures pending == (if old(pending).Some? then old(pending) else Some(frame))
      ensures |scheduled| == 1
      ensures requested == old(requested) + (if old(pending).Some? then [] else [frame])
    {
      target := Rest;
      QueueCursorFlush(frame);
    }

    /** The unmount cleanup: cancel the pending frame, if there is one. */
    method Unmount()
      requires Valid() && !unmounted
      modifies this`unmounted, this`scheduled
      ensures Valid() && unmounted && scheduled == []
    {
      if pending.Some? {
        scheduled := [];
      }
      unmounted := true;
    }
  }

  /**
   * Several moves before one frame: the frame writes the last target, and
   * only one frame was ever requested for them.
   */
  method LastMoveWins(cursor: HeroCursor, rect: Rect, x1: real, y1: real, x2: real, y2: real,
                      f1: FrameId, f2: FrameId)
    requires cursor.Valid() && !cursor.unmounted
    requires cursor.isPointerFine && cursor.heroMounted && cursor.pending.None?
    requires rect.width > 0.0 && rect.height > 0.0
    modifies cursor
    ensures cursor.applied == Some(TargetAt(x2, y2, rect))
    ensures cursor.pending == None && cursor.scheduled == []
    ensures cursor.requested == old(cursor.requested) + [f1]
  {
    cursor.HandlePointerMove(x1, y1, rect, f1);
    cursor.HandlePointerMove(x2, y2, rect, f2);
    cursor.FlushCursor();
  }
}
