/**
 * The exact-arithmetic steps of the two per-frame animations: the cursor's
 * heading correction and the clamp that keeps the floating video inside the
 * viewport. Angles are in degrees and positions in px, as exact reals; the
 * trigonometry that produces a heading or the spotlight offset is left to the
 * caller and enters as a parameter.
 */
module Motion {
  import opened Reals

  /** The share of the heading error the cursor turns by in one frame. */
  const TurnRate := 0.3

  /** `a` and `b` name the same direction: they differ by a whole number of turns. */
  predicate SameDirection(a: real, b: real)
  {
    ((a - b) / 360.0).Floor as real == (a - b) / 360.0
  }

  /**
   * The heading error as animateCursor corrects it: at most one turn is added
   * or taken off. The result lies in [-180, 180], the shorter way round, only
   * when the raw difference lies in [-540, 540].
   */
  function WrapOnce(diff: real): (r: real)
    ensures r == diff || r == diff - 360.0 || r == diff + 360.0
    ensures SameDirection(diff, r)
    ensures -540.0 <= diff <= 540.0 ==> -180.0 <= r <= 180.0
    ensures -180.0 <= diff <= 180.0 ==> r == diff
  {
    var d := if diff > 180.0 then diff - 360.0 else diff;
    if d < -180.0 then d + 360.0 else d
  }

  /** A heading as `Math.atan2` returns it, in degrees. */
  predicate IsAtan2Heading(a: real)
  {
    -180.0 < a <= 180.0
  }

  /**
   * One frame's turn of the cursor, as written: the heading moves 0.3 of the
   * wrapped error. The heading is never reduced, so it drifts anywhere in
   * (-540, 540), and the raw error then ranges over (-720, 720).
   */
  function TurnOnce(heading: real, target: real): (h: real)
    ensures -540.0 <= target - heading <= 540.0 ==> -54.0 <= h - heading <= 54.0
    ensures -540.0 < heading < 540.0 && IsAtan2Heading(target) ==> -540.0 < h < 540.0
  {
    heading + TurnRate * WrapOnce(target - heading)
  }

  /**
   * The heading after one moving frame per entry of `targets`, starting from
   * `heading`; fed atan2 headings it stays inside (-540, 540).
   */
  function HeadingAfter(heading: real, targets: seq<real>): (h: real)
    ensures -540.0 < heading < 540.0 && (forall k :: 0 <= k < |targets| ==> IsAtan2Heading(targets[k])) ==>
      -540.0 < h < 540.0
    decreases |targets|
  {
    if targets == [] then heading else HeadingAfter(TurnOnce(heading, targets[0]), targets[1..])
  }

  /** Seven frame headings, each in atan2's range (-180, 180], that spin the cursor anticlockwise. */
  const Spin: seq<real> := [180.0, -127.0, -73.3, -19.6, 34.1, 87.8, 141.5]

  /**
   * The one-correction wrap is not enough: starting from heading 0, seven
   * frames of turning reach 54, 107.7, 161.4, 215.1, 268.8, 322.5 and 376.2, and a new heading of -179 then leaves an
   * error of -195.2, so the cursor turns 58.56 degrees the long way round
   * instead of 49.44 degrees the short way.
   */
  lemma LongWayRound()
    ensures forall k :: 0 <= k < |Spin| ==> IsAtan2Heading(Spin[k])
    ensures HeadingAfter(0.0, Spin) == 376.2
    ensures WrapOnce(-179.0 - 376.2) == -195.2 < -180.0
    ensures TurnOnce(376.2, -179.0) - 376.2 == -58.56
    ensures WrapAngle(-179.0 - 376.2) == 164.8
  {
  }

  /**
   * The heading error reduced to the shorter way round for every raw
   * difference: whole turns are taken off until it lies in [-180, 180].
   */
  function WrapAngle(diff: real): (r: real)
    ensures -180.0 <= r <= 180.0
    ensures SameDirection(diff, r)
    ensures -180.0 <= diff <= 180.0 ==> r == diff
  {
    if -180.0 <= diff <= 180.0 then diff
    else diff - 360.0 * ((diff + 180.0) / 360.0).Floor as real
  }

  /** One frame's turn with the full wrap: never more than 0.3 of half a turn. */
  function Turn(heading: real, target: real): (h: real)
    ensures -54.0 <= h - heading <= 54.0
    ensures -180.0 <= target - heading <= 180.0 ==> h == TurnOnce(heading, target)
  {
    heading + TurnRate * WrapAngle(target - heading)
  }

  /** Where WrapOnce already lands in range it agrees with WrapAngle up to the ambiguous half turn. */
  lemma WrapOnceAgrees(diff: real)
    requires -540.0 <= diff <= 540.0
    ensures WrapOnce(diff) == WrapAngle(diff) || Abs(WrapOnce(diff)) == Abs(WrapAngle(diff)) == 180.0
  {
  }

  /**
   * `t` clamped to [lo, hi] as `Math.max(lo, Math.min(hi, t))`; when the
   * interval is empty the lower bound wins.
   */
  function Clamp(lo: real, hi: real, t: real): (r: real)
    ensures lo <= hi ==> lo <= r <= hi
    ensures lo <= t <= hi ==> r == t
    ensures hi < lo ==> r == lo
  {
    Max(lo, Min(hi, t))
  }

  /** The clamped value is the point of [lo, hi] nearest to `t`. */
  lemma ClampNearest(lo: real, hi: real, t: real, p: real)
    requires lo <= p <= hi
    ensures Abs(Clamp(lo, hi, t) - t) <= Abs(p - t)
  {
  }

  datatype Point = Point(x: real, y: real)

  /** The video keeps this far below the top of the viewport, clear of the header. */
  const HeaderClearance := 120.0

  /** The video keeps this far from the left, right and bottom edges. */
  const EdgeMargin := 20.0

  /**
   * Where animateVideo steers the video: the pointer moved by the spotlight
   * offset, then clamped so that the video keeps its margins inside a
   * `width` x `height` viewport.
   */
  function VideoTarget(mouse: Point, offset: Point, width: real, height: real,
                       videoWidth: real, videoHeight: real): (p: Point)
    ensures videoWidth + 2.0 * EdgeMargin <= width ==>
      videoWidth / 2.0 + EdgeMargin <= p.x <= width - videoWidth / 2.0 - EdgeMargin
    ensures videoHeight + HeaderClearance + EdgeMargin <= height ==>
      HeaderClearance <= p.y <= height - videoHeight - EdgeMargin
    ensures width < videoWidth + 2.0 * EdgeMargin ==> p.x == videoWidth / 2.0 + EdgeMargin
    ensures height < videoHeight + HeaderClearance + EdgeMargin ==> p.y == HeaderClearance
    ensures videoWidth / 2.0 + EdgeMargin <= mouse.x + offset.x <= width - videoWidth / 2.0 - EdgeMargin ==>
      p.x == mouse.x + offset.x
    ensures HeaderClearance <= mouse.y + offset.y <= height - videoHeight - EdgeMargin ==>
      p.y == mouse.y + offset.y
  {
    var minY := HeaderClearance;
    var maxY := height - videoHeight - EdgeMargin;
    var minX := videoWidth / 2.0 + EdgeMargin;
    var maxX := width - videoWidth / 2.0 - EdgeMargin;
    Point(Clamp(minX, maxX, mouse.x + offset.x), Clamp(minY, maxY, mouse.y + offset.y))
  }
}
