/**
 * The parallax background: the vertical offset updateParallax gives the
 * background image for a scroll position. Layout reads (`innerWidth`,
 * `innerHeight`, the image's `offsetHeight`, the body's `scrollHeight`,
 * `scrollY`) are integer parameters; the image counts as loaded when it is
 * `complete` with a non-zero `naturalHeight`.
 */
module Parallax {
  import opened Reals

  /** Viewports at most this wide are treated as mobile. */
  const MobileMaxWidth := 768

  predicate IsMobile(innerWidth: int)
  {
    innerWidth <= MobileMaxWidth
  }

  /** What updateParallax leaves in the image's `transform` style. */
  datatype Transform =
    | Untouched            // the style is not written
    | NoTransform          // 'none'
    | TranslateY(px: real) // 'translateY(<px>px)'
    | Rejected             // the offset is NaN or infinite, which the browser does not accept

  /**
   * The desktop offset for an image `maxScroll` px taller than the viewport on
   * a page with `pageHeight` px of scrolling: the scrolled fraction, capped at
   * 1 from above only, times `maxScroll`, upwards. A zero `pageHeight` divides
   * by zero as JavaScript does: a positive offset gives Infinity, which the
   * cap turns into 1; zero gives NaN and a negative one -Infinity.
   */
  function ScrollOffset(maxScroll: int, pageHeight: int, scrollY: int): (t: Transform)
    ensures pageHeight > 0 && 0 <= scrollY && 0 <= maxScroll ==> t.TranslateY? && -(maxScroll as real) <= t.px <= 0.0
    ensures pageHeight != 0 && scrollY == 0 ==> t == TranslateY(0.0)
    ensures pageHeight > 0 && scrollY >= pageHeight ==> t == TranslateY(-(maxScroll as real))
    ensures pageHeight == 0 ==> (t.TranslateY? <==> scrollY > 0)
    ensures pageHeight == 0 && scrollY > 0 ==> t == TranslateY(-(maxScroll as real))
  {
    if pageHeight != 0 then
      var scrollPercent := Min(scrollY as real / pageHeight as real, 1.0);
      TranslateY(-scrollPercent * maxScroll as real)
    else if scrollY > 0 then TranslateY(-1.0 * maxScroll as real)
    else Rejected
  }

  /** updateParallax's effect on the image's transform. */
  function ParallaxTransform(innerWidth: int, hasImage: bool, loaded: bool, imgHeight: int,
                             viewportHeight: int, bodyHeight: int, scrollY: int): (t: Transform)
    ensures IsMobile(innerWidth) ==> t == (if hasImage then NoTransform else Untouched)
    ensures !IsMobile(innerWidth) && (!hasImage || !loaded || imgHeight <= viewportHeight) ==> t == Untouched
    ensures t.TranslateY? || t.Rejected? ==>
      !IsMobile(innerWidth) && hasImage && loaded && imgHeight > viewportHeight
    ensures !IsMobile(innerWidth) && hasImage && loaded && imgHeight > viewportHeight ==>
      t == ScrollOffset(imgHeight - viewportHeight, bodyHeight - viewportHeight, scrollY)
  {
    if IsMobile(innerWidth) then
      if hasImage then NoTransform else Untouched
    else if !hasImage || !loaded || imgHeight <= viewportHeight then Untouched
    else ScrollOffset(imgHeight - viewportHeight, bodyHeight - viewportHeight, scrollY)
  }

  /** A mobile viewport never translates the background. */
  lemma MobileNeverTranslates(innerWidth: int, hasImage: bool, loaded: bool, imgHeight: int,
                              viewportHeight: int, bodyHeight: int, scrollY: int)
    requires IsMobile(innerWidth)
    ensures ParallaxTransform(innerWidth, hasImage, loaded, imgHeight, viewportHeight, bodyHeight, scrollY)
      == (if hasImage then NoTransform else Untouched)
  {
  }

  /**
   * On a desktop viewport with a loaded oversized image, the image moves from
   * 0 at the top to -(imgHeight - viewportHeight) at the bottom of the page.
   */
  lemma DesktopEnds(innerWidth: int, imgHeight: int, viewportHeight: int, bodyHeight: int)
    requires !IsMobile(innerWidth) && imgHeight > viewportHeight && bodyHeight > viewportHeight
    ensures ParallaxTransform(innerWidth, true, true, imgHeight, viewportHeight, bodyHeight, 0)
      == TranslateY(0.0)
    ensures ParallaxTransform(innerWidth, true, true, imgHeight, viewportHeight, bodyHeight, bodyHeight - viewportHeight)
      == TranslateY(-((imgHeight - viewportHeight) as real))
  {
  }

  /** Scrolling further down never moves the image back down. */
  lemma {:induction false} ScrollOffsetMonotone(maxScroll: nat, pageHeight: int, y1: int, y2: int)
    requires pageHeight > 0 && y1 <= y2
    ensures ScrollOffset(maxScroll, pageHeight, y1).TranslateY?
    ensures ScrollOffset(maxScroll, pageHeight, y2).TranslateY?
    ensures ScrollOffset(maxScroll, pageHeight, y2).px <= ScrollOffset(maxScroll, pageHeight, y1).px
  {
    var p1 := Min(y1 as real / pageHeight as real, 1.0);
    var p2 := Min(y2 as real / pageHeight as real, 1.0);
    assert y1 as real / pageHeight as real <= y2 as real / pageHeight as real by {
      DivideMonotone(y1 as real, y2 as real, pageHeight as real);
    }
    assert p1 <= p2;
    var q1 := -p1 * maxScroll as real;
    var q2 := -p2 * maxScroll as real;
    assert q2 <= q1 by {
      MultiplyMonotone(p1, p2, maxScroll as real);
    }
    assert ScrollOffset(maxScroll, pageHeight, y1).px == q1;
    assert ScrollOffset(maxScroll, pageHeight, y2).px == q2;
  }

  /**
   * The offset is capped at 1 from above only: a negative `scrollY` (the
   * overscroll some browsers report at the top) moves the image down, below
   * its resting place.
   */
  lemma OverscrollMovesDown(maxScroll: nat, pageHeight: int, scrollY: int)
    requires pageHeight > 0 && scrollY < 0 && maxScroll > 0
    ensures ScrollOffset(maxScroll, pageHeight, scrollY).TranslateY?
    ensures ScrollOffset(maxScroll, pageHeight, scrollY).px > 0.0
  {
  }

  lemma DivideMonotone(a: real, b: real, c: real)
    requires a <= b && c > 0.0
    ensures a / c <= b / c
  {
  }

  lemma MultiplyMonotone(a: real, b: real, c: real)
    requires a <= b && c >= 0.0
    ensures -b * c <= -a * c
  {
  }
}
