/** The screen's state and its two scroll callbacks.

    The view keeps one piece of mutable state, `offsetY`, the negated raw
    scroll offset. The scroll callback overwrites it; the drag-end callback
    only decides whether to request an animated scroll back to the top. The
    request itself (a spring animation driving the scroll view) is returned
    as a boolean. */
module ExampleViewModel {
  import opened HeaderGeometry

  /** What the scroll view reports. Both "will end dragging" (with the
      projected target offset) and "did end decelerating" (with the final
      offset) arrive as `DraggingEnd`. */
  datatype ScrollEvent =
    | Scroll(offset: real)
    | DraggingEnd(offset: real, velocity: real)

  /** The effect of one event on the stored offset and the scroll-to-top
      request it yields, if it is a drag end. */
  datatype Reaction = Reaction(offsetY: real, request: Option<bool>)

  datatype Option<T> = None | Some(value: T)

  /** One event, as a function of the offset before it. */
  function React(v: Viewport, offsetY: real, e: ScrollEvent): (r: Reaction)
    ensures e.Scroll? ==> r == Reaction(-e.offset, None)
    ensures e.DraggingEnd? ==> r == Reaction(offsetY, Some(ShouldSnap(v, e.offset, e.velocity)))
  {
    match e
    case Scroll(offset) => Reaction(-offset, None)
    case DraggingEnd(offset, velocity) => Reaction(offsetY, Some(ShouldSnap(v, offset, velocity)))
  }

  /** A stream of events delivered in order: the final stored offset and the
      scroll-to-top decisions, one per drag end, in order. There are never
      more decisions than events, and a stream of scroll reports alone
      requests nothing. */
  function Replay(v: Viewport, offsetY: real, events: seq<ScrollEvent>): (r: (real, seq<bool>))
    ensures |r.1| <= |events|
    ensures (forall i :: 0 <= i < |events| ==> events[i].Scroll?) ==> r.1 == []
    decreases |events|
  {
    if events == [] then (offsetY, [])
    else
      var r := React(v, offsetY, events[0]);
      var rest := Replay(v, r.offsetY, events[1..]);
      (rest.0, if r.request.Some? then [r.request.value] + rest.1 else rest.1)
  }

  /** The offset reported by the last scroll event of a stream, if any. */
  function LastScroll(events: seq<ScrollEvent>): Option<real>
    decreases |events|
  {
    if events == [] then None
    else if events[|events| - 1].Scroll? then Some(events[|events| - 1].offset)
    else LastScroll(events[..|events| - 1])
  }

  /** The drag-end samples of a stream, in order. */
  function DragEnds(events: seq<ScrollEvent>): seq<(real, real)>
    decreases |events|
  {
    if events == [] then []
    else if events[0].DraggingEnd? then [(events[0].offset, events[0].velocity)] + DragEnds(events[1..])
    else DragEnds(events[1..])
  }

  lemma {:induction false} LastScrollAppend(events: seq<ScrollEvent>, e: ScrollEvent)
    ensures LastScroll(events + [e]) == if e.Scroll? then Some(e.offset) else LastScroll(events)
  {
  }

  lemma {:induction false} LastScrollPrepend(e: ScrollEvent, events: seq<ScrollEvent>)
    ensures LastScroll([e] + events) ==
      if LastScroll(events).Some? then LastScroll(events)
      else if e.Scroll? then Some(e.offset) else None
    decreases |events|
  {
    if events == [] {
      assert [e] + events == [e];
      assert [e][..0] == [];
    } else {
      var init := events[..|events| - 1];
      var last := events[|events| - 1];
      assert events == init + [last];
      assert [e] + events == ([e] + init) + [last];
      LastScrollAppend([e] + init, last);
      LastScrollAppend(init, last);
      LastScrollPrepend(e, init);
    }
  }

  /** Only scroll events move the header: after a stream, the stored offset
      is the negation of the last scrolled offset, or unchanged when the
      stream has no scroll event. Drag ends never write it. */
  lemma {:induction false} ReplayOffset(v: Viewport, offsetY: real, events: seq<ScrollEvent>)
    ensures Replay(v, offsetY, events).0 ==
      match LastScroll(events)
      case Some(offset) => -offset
      case None => offsetY
    decreases |events|
  {
    if events != [] {
      var r := React(v, offsetY, events[0]);
      ReplayOffset(v, r.offsetY, events[1..]);
      assert events == [events[0]] + events[1..];
      LastScrollPrepend(events[0], events[1..]);
    }
  }

  /** The decisions of a stream are the snap rule applied to its drag-end
      samples, one for one: they never depend on the stored offset. */
  lemma {:induction false} ReplayRequests(v: Viewport, offsetY: real, events: seq<ScrollEvent>)
    ensures |Replay(v, offsetY, events).1| == |DragEnds(events)|
    ensures forall k :: 0 <= k < |DragEnds(events)| ==>
      Replay(v, offsetY, events).1[k] == ShouldSnap(v, DragEnds(events)[k].0, DragEnds(events)[k].1)
    decreases |events|
  {
    if events != [] {
      var r := React(v, offsetY, events[0]);
      ReplayRequests(v, r.offsetY, events[1..]);
    }
  }

  /** Scroll reports for the given offsets, in order. */
  function Scrolls(offsets: seq<real>): (es: seq<ScrollEvent>)
    ensures |es| == |offsets|
    ensures forall i :: 0 <= i < |es| ==> es[i] == Scroll(offsets[i])
  {
    seq(|offsets|, i requires 0 <= i < |offsets| => Scroll(offsets[i]))
  }

  /** A run of scroll reports leaves only its last offset behind. */
  lemma {:induction false} ReplayScrollsThen(v: Viewport, offsetY: real, offsets: seq<real>, tail: seq<ScrollEvent>)
    ensures Replay(v, offsetY, Scrolls(offsets) + tail) ==
      Replay(v, if offsets == [] then offsetY else -offsets[|offsets| - 1], tail)
    decreases |offsets|
  {
    if offsets != [] {
      var es := Scrolls(offsets) + tail;
      assert es[0] == Scroll(offsets[0]);
      assert es[1..] == Scrolls(offsets[1..]) + tail;
      ReplayScrollsThen(v, -offsets[0], offsets[1..], tail);
    } else {
      assert Scrolls(offsets) + tail == tail;
    }
  }

  /** One gesture as the scroll view reports it: the end of the drag, with
      the projected target offset and the scroll view's release velocity;
      the scroll reports of the deceleration; and the end of the
      deceleration, with the resting offset and the pan gesture's velocity.
      The two samples differ (and so do their velocity units); each end is
      judged on its own sample as given, and the stored offset is the last
      scroll report's. */
  lemma {:induction false} GestureDecisions(v: Viewport, offsetY: real, target: real, releaseVelocity: real,
                                            offsets: seq<real>, rest: real, panVelocity: real)
    ensures Replay(v, offsetY, [DraggingEnd(target, releaseVelocity)] + Scrolls(offsets)
                                 + [DraggingEnd(rest, panVelocity)]) ==
      (if offsets == [] then offsetY else -offsets[|offsets| - 1],
       [ShouldSnap(v, target, releaseVelocity), ShouldSnap(v, rest, panVelocity)])
  {
    var first, last := DraggingEnd(target, releaseVelocity), DraggingEnd(rest, panVelocity);
    var es := [first] + Scrolls(offsets) + [last];
    var settled := if offsets == [] then offsetY else -offsets[|offsets| - 1];
    assert es[0] == first;
    assert es[1..] == Scrolls(offsets) + [last];
    ReplayScrollsThen(v, offsetY, offsets, [last]);
    var snapFirst, snapLast := ShouldSnap(v, target, releaseVelocity), ShouldSnap(v, rest, panVelocity);
    assert [last][1..] == [];
    assert Replay(v, settled, []) == (settled, []);
    assert [snapLast] + [] == [snapLast];
    assert Replay(v, settled, [last]) == (settled, [snapLast]);
    assert [snapFirst] + [snapLast] == [snapFirst, snapLast];
  }

  /** A requested scroll to the top ends with the scroll view reporting
      offset 0; whatever came before, the header is then fully expanded. */
  lemma SnapBackExpandsHeader(v: Viewport, offsetY: real, events: seq<ScrollEvent>,
                              imageRect: MeasuredRect, textRect: MeasuredRect)
    requires Threshold(v) > 0.0
    ensures Replay(v, offsetY, events + [Scroll(0.0)]).0 == 0.0
    ensures Visuals(v, Replay(v, offsetY, events + [Scroll(0.0)]).0, imageRect, textRect) ==
      HeaderVisuals(HeaderHeight(v), 0.0, 1.0, Offset(0.0, 0.0), 1.0, 0.0)
  {
    ReplayOffset(v, offsetY, events + [Scroll(0.0)]);
    LastScrollAppend(events, Scroll(0.0));
  }

  /** The screen: fixed viewport metrics and the stored scroll offset. */
  class ExampleView {
    const viewport: Viewport
    var offsetY: real

    constructor (viewport: Viewport)
      ensures this.viewport == viewport
      ensures offsetY == 0.0
    {
      this.viewport := viewport;
      offsetY := 0.0;
    }

    /** Scroll callback: stores the negated raw offset, and nothing else. */
    method OnScroll(offset: real)
      modifies this`offsetY
      ensures offsetY == -offset
    {
      offsetY := -offset;
    }

    /** Drag-end callback: requests a scroll to the top exactly when the
        projected rest point lies strictly inside the collapse range. It
        writes no state. */
    method OnDraggingEnd(offset: real, velocity: real) returns (scrollToTop: bool)
      ensures scrollToTop <==> 0.0 < offset + 45.0 * velocity < Threshold(viewport)
      ensures scrollToTop <==>
        Threshold(viewport) > 0.0 && 0.0 < Progress(viewport, -TargetEnd(offset, velocity)) < 1.0
    {
      var headerHeight := HeaderHeight(viewport);
      var minimumHeaderHeight := MinimumHeaderHeight(viewport);
      var targetEnd := offset + velocity * 45.0;
      scrollToTop := targetEnd < headerHeight - minimumHeaderHeight && targetEnd > 0.0;
      if Threshold(viewport) != 0.0 {
        SnapIffPartiallyCollapsed(viewport, offset, velocity);
      }
    }

    /** Routes an event to its callback, as the scroll detector does. */
    method Deliver(e: ScrollEvent) returns (request: Option<bool>)
      modifies this`offsetY
      ensures Reaction(offsetY, request) == React(viewport, old(offsetY), e)
    {
      match e
      case Scroll(offset) =>
        OnScroll(offset);
        request := None;
      case DraggingEnd(offset, velocity) =>
        var snap := OnDraggingEnd(offset, velocity);
        request := Some(snap);
    }

    /** The header as drawn from the current state. */
    function Header(imageRect: MeasuredRect, textRect: MeasuredRect): (r: HeaderVisuals)
      reads this
      requires Threshold(viewport) != 0.0
      ensures r.boxHeight >= MinimumHeaderHeight(viewport)
      ensures 0.3 <= r.imageScale <= 1.0 && 0.85 <= r.textScale <= 1.0
      ensures offsetY + r.boxShift == 0.0
    {
      Visuals(viewport, offsetY, imageRect, textRect)
    }
  }
}
