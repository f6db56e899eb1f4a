/** The arithmetic of the resizable profile header: header metrics, the
    collapse progress, the visual parameters derived from it, and the
    snap-back rule evaluated when a drag ends.

    All values are `real`: the source computes with `CGFloat`, and the model
    leaves out its rounding and its non-finite values. The sign convention is
    the source's: the raw scroll offset grows as the content scrolls up, and
    the stored state `offsetY` is its negation. */
module HeaderGeometry {

  /** Screen height and top safe-area inset, as handed to the view. */
  datatype Viewport = Viewport(height: real, safeAreaTop: real)

  /** A measured frame in global coordinates: left edge, vertical centre and
      height, read before the element's own transform is applied. */
  datatype MeasuredRect = MeasuredRect(minX: real, midY: real, height: real)

  /** A 2-D translation. */
  datatype Offset = Offset(x: real, y: real)

  /** Everything the header draws from one scroll state. */
  datatype HeaderVisuals = HeaderVisuals(
    boxHeight: real,
    boxShift: real,
    imageScale: real,
    imageOffset: Offset,
    textScale: real,
    textOffset: real)

  /** The margin kept to the left of, and below, the collapsed image. */
  const ImagePadding: real := 15.0
  /** The gap between image and name used to place the collapsed name. */
  const TextSpacing: real := 4.5
  /** Fraction of the header height the image frame occupies. */
  const ImageFrameRatio: real := 0.5
  /** How far ahead the release velocity is projected. */
  const ProjectionFactor: real := 45.0

  /** Swift's `min` and `max` (the same as the usual ones on reals). */
  function Min(x: real, y: real): (r: real)
    ensures r <= x && r <= y && (r == x || r == y)
  {
    if y < x then y else x
  }

  function Max(x: real, y: real): (r: real)
    ensures r >= x && r >= y && (r == x || r == y)
  {
    if y >= x then y else x
  }

  // ---------------------------------------------------------------- metrics

  /** Height of the fully expanded header: 30% of the screen below the
      safe-area inset. It reaches the minimum header height exactly when 30%
      of the screen is at least 65 points. */
  function HeaderHeight(v: Viewport): (h: real)
    ensures h - v.safeAreaTop == v.height * 0.3
    ensures h >= MinimumHeaderHeight(v) <==> v.height * 0.3 >= 65.0
  {
    v.height * 0.3 + v.safeAreaTop
  }

  /** Height of the fully collapsed header: 65 points below the safe-area
      inset, whatever the screen height. */
  function MinimumHeaderHeight(v: Viewport): (h: real)
    ensures h > v.safeAreaTop
    ensures h - v.safeAreaTop == 65.0
  {
    65.0 + v.safeAreaTop
  }

  /** The scroll distance over which the header collapses. The safe-area
      inset cancels out, and the distance is positive exactly when 30% of the
      screen is taller than the 65-point minimum. */
  function Threshold(v: Viewport): (t: real)
    ensures t == v.height * 0.3 - 65.0
    ensures t > 0.0 <==> v.height * 0.3 > 65.0
    ensures MinimumHeaderHeight(v) + t == HeaderHeight(v)
  {
    HeaderHeight(v) - MinimumHeaderHeight(v)
  }

  // --------------------------------------------------------------- progress

  /** Clamp to [0, 1] the way the source writes it: `max(min(x, 1), 0)`. */
  function Clamp01(x: real): (r: real)
    ensures 0.0 <= r <= 1.0
    ensures 0.0 <= x <= 1.0 ==> r == x
    ensures x <= 0.0 ==> r == 0.0
    ensures x >= 1.0 ==> r == 1.0
  {
    Max(Min(x, 1.0), 0.0)
  }

  /** Collapse progress for the stored state `offsetY` (the negated raw
      offset). The source divides without a guard, so a zero collapse
      distance is excluded. */
  function Progress(v: Viewport, offsetY: real): (p: real)
    requires Threshold(v) != 0.0
    ensures 0.0 <= p <= 1.0
  {
    Clamp01(-offsetY / Threshold(v))
  }

  /** Below the top the header is fully expanded, past the collapse distance
      fully collapsed, and in between progress is the fraction travelled. */
  lemma ProgressClamps(v: Viewport, offset: real)
    requires Threshold(v) > 0.0
    ensures offset <= 0.0 ==> Progress(v, -offset) == 0.0
    ensures offset >= Threshold(v) ==> Progress(v, -offset) == 1.0
    ensures 0.0 <= offset <= Threshold(v) ==> Progress(v, -offset) * Threshold(v) == offset
  {
    DivStrict(offset, Threshold(v));
    DivExact(offset, Threshold(v));
  }

  /** Scrolling further up never makes the header expand again. */
  lemma ProgressMonotone(v: Viewport, a: real, b: real)
    requires Threshold(v) > 0.0
    requires a <= b
    ensures Progress(v, -a) <= Progress(v, -b)
  {
    DivMono(a, b, Threshold(v));
  }

  /** Progress is strictly between 0 and 1 exactly on the partially collapsed
      range of raw offsets. */
  lemma ProgressStrictlyInside(v: Viewport, offset: real)
    requires Threshold(v) > 0.0
    ensures 0.0 < Progress(v, -offset) < 1.0 <==> 0.0 < offset < Threshold(v)
  {
    DivStrict(offset, Threshold(v));
  }

  lemma DivMono(a: real, b: real, t: real)
    requires t > 0.0 && a <= b
    ensures a / t <= b / t
  {
    assert b / t - a / t == (b - a) / t;
  }

  lemma DivStrictMono(a: real, b: real, t: real)
    requires t > 0.0 && a < b
    ensures a / t < b / t
  {
    assert b / t - a / t == (b - a) / t;
  }

  lemma DivExact(x: real, t: real)
    requires t > 0.0
    ensures (x / t) * t == x
  {
  }

  /** Dividing by a positive distance keeps the sign, and a quotient below 1
      means the dividend is below the distance. */
  lemma DivStrict(x: real, t: real)
    requires t > 0.0
    ensures 0.0 < x / t <==> 0.0 < x
    ensures 0.0 <= x / t <==> 0.0 <= x
    ensures x / t < 1.0 <==> x < t
    ensures x / t <= 1.0 <==> x <= t
  {
    assert 0.0 / t == 0.0;
    assert t / t == 1.0;
    if 0.0 < x { DivStrictMono(0.0, x, t); } else { DivMono(x, 0.0, t); }
    if x < t { DivStrictMono(x, t, t); } else { DivMono(t, x, t); }
    if 0.0 <= x { DivMono(0.0, x, t); } else { DivStrictMono(x, 0.0, t); }
    if x <= t { DivMono(x, t, t); } else { DivStrictMono(t, x, t); }
  }

  // ------------------------------------------------------ image parameters

  /** Image scale: it shrinks by at most 70%. */
  function ImageScale(p: real): (s: real)
    ensures 0.0 <= p <= 1.0 ==> 0.3 <= s <= 1.0
    ensures s == 1.0 <==> p == 0.0
    ensures s == 0.3 <==> p == 1.0
  {
    1.0 - p * 0.7
  }

  /** Half the height of the image once shrunk to 30%. */
  function HalfScaledImageHeight(imageHeight: real): real
  {
    imageHeight * 0.3 * 0.5
  }

  /** Vertical centre of the fully collapsed image: once shrunk to its
      smallest scale, its bottom edge sits `ImagePadding` above the bottom of
      the minimum header. */
  function CollapsedImageMidY(v: Viewport, imageHeight: real): (y: real)
    ensures y + imageHeight * ImageScale(1.0) / 2.0 + ImagePadding == MinimumHeaderHeight(v)
  {
    MinimumHeaderHeight(v) - HalfScaledImageHeight(imageHeight) - ImagePadding
  }

  /** Image translation: the measured image glides from where it is to the
      collapsed anchor, in proportion to progress. The scale is anchored at
      the leading edge, so it moves neither the left edge nor the centre. */
  function ImageOffset(v: Viewport, p: real, rect: MeasuredRect): (o: Offset)
    ensures rect.minX + o.x == (1.0 - p) * rect.minX + p * ImagePadding
    ensures rect.midY + o.y == (1.0 - p) * rect.midY + p * CollapsedImageMidY(v, rect.height)
    ensures p == 0.0 ==> o == Offset(0.0, 0.0)
    ensures p == 1.0 ==> rect.minX + o.x == ImagePadding
    ensures p == 1.0 ==> rect.midY + o.y == CollapsedImageMidY(v, rect.height)
    ensures p == 1.0 ==>
      rect.midY + o.y + rect.height * ImageScale(1.0) / 2.0 + ImagePadding == MinimumHeaderHeight(v)
  {
    var resizedOffsetY := rect.midY - CollapsedImageMidY(v, rect.height);
    Offset(-(rect.minX - ImagePadding) * p, -resizedOffsetY * p)
  }

  // ------------------------------------------------------- text parameters

  /** Name scale: it shrinks by at most 15%. */
  function TextScale(p: real): (s: real)
    ensures 0.0 <= p <= 1.0 ==> 0.85 <= s <= 1.0
    ensures s == 1.0 <==> p == 0.0
    ensures s == 0.85 <==> p == 1.0
  {
    1.0 - p * 0.15
  }

  /** Vertical centre of the fully collapsed name: below it come half the
      name at its smallest scale, the `TextSpacing` gap and half the image
      frame (half the header height, not a measured one) at the image's
      smallest scale, ending at the bottom of the minimum header. */
  function CollapsedTextMidY(v: Viewport, textHeight: real): (y: real)
    ensures y + textHeight * TextScale(1.0) / 2.0 + TextSpacing
              + HeaderHeight(v) * ImageFrameRatio * ImageScale(1.0) / 2.0
            == MinimumHeaderHeight(v)
  {
    var halfScaledTextHeight := textHeight * 0.85 / 2.0;
    var halfScaledImageHeight := HeaderHeight(v) * ImageFrameRatio * 0.3 / 2.0;
    MinimumHeaderHeight(v) - halfScaledTextHeight - TextSpacing - halfScaledImageHeight
  }

  /** Vertical translation of the name: it glides from its measured centre to
      the collapsed anchor in proportion to progress. */
  function TextOffset(v: Viewport, p: real, rect: MeasuredRect): (dy: real)
    ensures rect.midY + dy == (1.0 - p) * rect.midY + p * CollapsedTextMidY(v, rect.height)
    ensures p == 0.0 ==> dy == 0.0
    ensures p == 1.0 ==> rect.midY + dy == CollapsedTextMidY(v, rect.height)
    ensures p == 1.0 ==>
      rect.midY + dy + rect.height * TextScale(1.0) / 2.0 + TextSpacing
        + HeaderHeight(v) * ImageFrameRatio * ImageScale(1.0) / 2.0
      == MinimumHeaderHeight(v)
  {
    var resizedOffsetY := rect.midY - CollapsedTextMidY(v, rect.height);
    -resizedOffsetY * p
  }

  // ----------------------------------------------------------- header box

  /** Height of the header box: it follows the scroll but never goes below
      the minimum header height. */
  function BoxHeight(v: Viewport, offsetY: real): (h: real)
    ensures h >= MinimumHeaderHeight(v)
    ensures h == HeaderHeight(v) + offsetY || h == MinimumHeaderHeight(v)
    ensures HeaderHeight(v) + offsetY >= MinimumHeaderHeight(v) ==> h == HeaderHeight(v) + offsetY
  {
    Max(HeaderHeight(v) + offsetY, MinimumHeaderHeight(v))
  }

  /** The shift applied to the header box inside the scrolled content. */
  function BoxShift(offsetY: real): (d: real)
    ensures offsetY + d == 0.0
  {
    -offsetY
  }

  /** The scroll view draws its content with its top at `-offset` on screen;
      the header box sits at the content's top and the cards start
      `HeaderHeight` below it. With the shift, the box's top stays at the
      top of the screen. Its bottom edge meets the top of the cards until the
      box reaches the minimum height; from then on it overlaps them. */
  lemma HeaderPinnedOverContent(v: Viewport, offset: real)
    ensures -offset + BoxShift(-offset) == 0.0
    ensures -offset + HeaderHeight(v) >= MinimumHeaderHeight(v) ==>
      BoxHeight(v, -offset) == -offset + HeaderHeight(v)
    ensures -offset + HeaderHeight(v) < MinimumHeaderHeight(v) ==>
      BoxHeight(v, -offset) > -offset + HeaderHeight(v)
  {
  }

  /** Scrolled up by a raw offset, the box shrinks in step with progress:
      from the full header height at progress 0 to the minimum at progress 1.
      Pulled down past the top, it stretches beyond the full height. */
  lemma BoxHeightFollowsProgress(v: Viewport, offset: real)
    requires Threshold(v) > 0.0
    ensures offset >= 0.0 ==>
      BoxHeight(v, -offset) == HeaderHeight(v) - Progress(v, -offset) * Threshold(v)
    ensures offset < 0.0 ==> BoxHeight(v, -offset) == HeaderHeight(v) - offset > HeaderHeight(v)
  {
    ProgressClamps(v, offset);
  }

  /** All visual parameters for one scroll state and the two measured frames. */
  function Visuals(v: Viewport, offsetY: real, imageRect: MeasuredRect, textRect: MeasuredRect): (r: HeaderVisuals)
    requires Threshold(v) != 0.0
    ensures r.boxHeight >= MinimumHeaderHeight(v)
    ensures offsetY + r.boxShift == 0.0
    ensures 0.3 <= r.imageScale <= 1.0
    ensures 0.85 <= r.textScale <= 1.0
    ensures Threshold(v) > 0.0 && offsetY >= 0.0 ==>
      r.imageScale == 1.0 && r.textScale == 1.0 &&
      r.imageOffset == Offset(0.0, 0.0) && r.textOffset == 0.0 &&
      r.boxHeight == HeaderHeight(v) + offsetY
    ensures Threshold(v) > 0.0 && -offsetY >= Threshold(v) ==>
      r.imageScale == 0.3 && r.textScale == 0.85 &&
      imageRect.minX + r.imageOffset.x == ImagePadding &&
      imageRect.midY + r.imageOffset.y == CollapsedImageMidY(v, imageRect.height) &&
      textRect.midY + r.textOffset == CollapsedTextMidY(v, textRect.height) &&
      r.boxHeight == MinimumHeaderHeight(v)
  {
    var p := Progress(v, offsetY);
    assert Threshold(v) > 0.0 ==>
      (offsetY >= 0.0 ==> p == 0.0) && (-offsetY >= Threshold(v) ==> p == 1.0)
    by {
      if Threshold(v) > 0.0 { ProgressClamps(v, -offsetY); }
    }
    HeaderVisuals(
      BoxHeight(v, offsetY),
      BoxShift(offsetY),
      ImageScale(p),
      ImageOffset(v, p, imageRect),
      TextScale(p),
      TextOffset(v, p, textRect))
  }

  // -------------------------------------------------------- snap-back rule

  /** Where the scroll would come to rest: the offset projected
      `ProjectionFactor` units ahead at the release velocity. */
  function TargetEnd(offset: real, velocity: real): (t: real)
    ensures velocity == 0.0 ==> t == offset
    ensures velocity > 0.0 ==> t > offset
    ensures velocity < 0.0 ==> t < offset
  {
    offset + velocity * ProjectionFactor
  }

  /** Whether a drag end asks for an animated scroll back to the top: only
      when the projected rest point lies strictly inside the collapse range. */
  function ShouldSnap(v: Viewport, offset: real, velocity: real): (snap: bool)
    ensures snap ==> Threshold(v) > 0.0
    ensures snap <==> 0.0 < offset + 45.0 * velocity < HeaderHeight(v) - MinimumHeaderHeight(v)
  {
    var targetEnd := TargetEnd(offset, velocity);
    targetEnd < HeaderHeight(v) - MinimumHeaderHeight(v) && targetEnd > 0.0
  }

  /** The snap rule, restated through progress: it fires exactly when the
      projected rest point would leave the header partially collapsed. */
  lemma SnapIffPartiallyCollapsed(v: Viewport, offset: real, velocity: real)
    requires Threshold(v) != 0.0
    ensures ShouldSnap(v, offset, velocity) <==>
      Threshold(v) > 0.0 && 0.0 < Progress(v, -TargetEnd(offset, velocity)) < 1.0
  {
    if Threshold(v) > 0.0 {
      ProgressStrictlyInside(v, TargetEnd(offset, velocity));
    }
  }

  /** With a 200-point collapse distance: a rest point of 50 snaps, while
      250 (past the range), -10 (above the top) and the two bounds do not. */
  lemma SnapExamples()
    ensures Threshold(Viewport(2650.0 / 3.0, 47.0)) == 200.0
    ensures ShouldSnap(Viewport(2650.0 / 3.0, 47.0), 50.0, 0.0)
    ensures ShouldSnap(Viewport(2650.0 / 3.0, 47.0), 10.0, 2.0)
    ensures !ShouldSnap(Viewport(2650.0 / 3.0, 47.0), 250.0, 0.0)
    ensures !ShouldSnap(Viewport(2650.0 / 3.0, 47.0), -10.0, 0.0)
    ensures !ShouldSnap(Viewport(2650.0 / 3.0, 47.0), 0.0, 0.0)
    ensures !ShouldSnap(Viewport(2650.0 / 3.0, 47.0), 200.0, 0.0)
  {
  }
}
