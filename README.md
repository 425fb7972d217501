# khidkii page behaviour, modelled in Dafny

The portfolio page's script (`js/main.js`) attaches its behaviour to one
page-load event. This project models the parts of that script that hold
discrete or exact-arithmetic logic, with the DOM reads abstracted into
parameters and the DOM writes into flags:

- **Screensaver** (`screensaver.dfy`). This is the idle-timer controller.
  - Its module-scoped variables are the fields of `Screensaver.Controller`: `idleTimer`, `screensaverActive` (here `active`), `userHasInteracted` and `firstInteraction`.
  - The overlay video's `muted`, `paused`, `volume` and `currentTime` are fields of the same class.
  - The browser's queue of scheduled idle callbacks is the field `pending`. `clearTimeout` removes a handle from it and `setTimeout` adds a fresh one.
  - The browser running a callback is `IdleTimeout`.
  - `Dispatch` delivers one event. The overlay's own listeners run first (the overlay is the target). The document's listeners run after, in registration order: `enableAudio`, `resetIdleTimer`, `enableScreensaverAfterInteraction`.
  - Listeners registered with `{ once: true }` are dropped after their first call.
- **Navigation** (`navigation.dfy`). This is the window scroll listener. It does four things:
  - hides the scroll indicator near the bottom of the document;
  - styles the nav bar as scrolled;
  - picks the current section with a loop that overwrites `current`;
  - highlights the matching nav link with a loop over an array of `active` flags.
- **Motion** (`motion.dfy`). This covers two animation steps:
  - the cursor heading's correction toward the direction of travel;
  - the clamp that keeps the floating video inside the viewport.

  Trigonometry is left to the caller.
- **Parallax** (`parallax.dfy`). This is the background image's offset for a scroll position, with JavaScript's division by zero written out.
- **Reals** (`reals.dfy`). This holds `Math.min`, `Math.max` and `Math.abs` on exact reals.

All positions, offsets and angles are taken as exact values. Scroll offsets and heights are `int`; the arithmetic steps use `real`. Nothing models floating point.

## Behaviour worth noting

- The parallax scroll fraction is capped only from above (`Math.min(scrollY / pageHeight, 1)`, js/main.js:44). A negative `scrollY` therefore moves the image down; `Parallax.OverscrollMovesDown` states this.
- After a qualifying interaction, the video is not always muted. When the first click, keydown or touchstart arrives while the screensaver is hidden, `enableAudio` unmutes the hidden video. When the first click lands on the overlay of an active screensaver, three steps run in order:
  - the overlay's `hideScreensaver` mutes the video;
  - `enableAudio` unmutes it;
  - `resetIdleTimer`'s own `hideScreensaver` finds the screensaver already inactive and does nothing.

  In both cases the video stays paused, so no sound plays. `Screensaver.Controller.Dispatch` states the exact outcome, and `Silent` is the property that holds instead.
- At most one nav link is highlighted only when the links' hrefs are distinct. When no section is reached, `current` is `''`, so a link whose href is exactly `'#'` is highlighted.

## Model

| member | source | states |
|---|---|---|
| `Screensaver.Controller.constructor` | js/main.js:67-137 | The page starts inactive, with no interaction and every once-listener registered. The initial `resetIdleTimer` leaves one idle callback pending exactly when the page is at the top. A muted, paused video starts out `Silent`. |
| `Screensaver.Controller.AtMostOnePending` | js/main.js:108-116 | Under the controller invariant, at most one idle callback is pending, and it is the one whose handle is stored in `idleTimer`. |
| `Screensaver.Controller.EnableAudio` | js/main.js:76-82 | One-shot. The first call with the video present sets `userHasInteracted`, unmutes the video and sets the volume to 1.0. Every later call, and any call without the video, changes nothing. `userHasInteracted` never reverts. |
| `Screensaver.Controller.ShowScreensaver` | js/main.js:87-96 | Below offset 50, or with either element missing, nothing changes. Otherwise the screensaver is active, the video is at time 0, `muted == !userHasInteracted`, and the video plays exactly when the browser allows it. Timers and flags are unchanged. |
| `Screensaver.Controller.HideScreensaver` | js/main.js:98-106 | A no-op when inactive. Otherwise the screensaver is inactive and the video is paused and muted. Volume, time, timers and flags are unchanged. |
| `Screensaver.Controller.ResetIdleTimer` | js/main.js:108-116 | The stored timer is cancelled and the screensaver hidden. A fresh callback is pending afterwards exactly when `scrollY <= 50`, and none is pending otherwise. |
| `Screensaver.Controller.EnableScreensaverAfterInteraction` | js/main.js:137-143 | It runs the reset only on its first call. Its ghost count of resets goes from 0 to 1 and stays at most 1 for the page's lifetime. |
| `Screensaver.Controller.IdleTimeout` | js/main.js:113-114 | A callback that is cleared or has already run changes nothing. A pending callback leaves the queue and then has exactly the effect of `showScreensaver`. |
| `Screensaver.Controller.AudioListenerFor` | js/main.js:83-85 | The once-listener for click, keydown or touchstart runs `enableAudio` and is then removed. Other event types change nothing. |
| `Screensaver.Controller.ArmListenerFor` | js/main.js:144-145 | The once-listener for touchstart or click runs `enableScreensaverAfterInteraction` and is then removed. The idle timer is re-armed only on the first interaction. |
| `Screensaver.Controller.DocumentListeners` | js/main.js:83-145 | The document listeners in registration order. It gives the combined effect on every field of `enableAudio`, then `resetIdleTimer`, then `enableScreensaverAfterInteraction`. |
| `Screensaver.Controller.Dispatch` | js/main.js:119-131 | After mousemove, scroll, keydown, click, touchstart or touchmove, the screensaver is inactive. The video is paused if it was showing, and the previous timer is cancelled. A fresh timer is pending exactly at the top of the page. The `userHasInteracted`, `muted` and `volume` outcomes are stated, including an overlay-targeted first click. A touchend only reaches the overlay's listener. `Silent` and the invariant are preserved. |
| `Navigation.LastReachedIsLast` | js/main.js:311-318 | The chosen id is `''` exactly when no section is reached. Otherwise it is a reached section, a present one with `scrollY >= offsetTop - 200`, and no later section in the list is reached. |
| `Navigation.CurrentSection` | js/main.js:311-318 | The `forEach` loop over `['hero','artworks','artist','gallery','contact']` returns the last reached section, and the result is one of them or `''`. |
| `Navigation.ArtworksExample` | js/main.js:313-318 | With hero at 0, artworks at 800 and artist at 1600, offset 850 selects `artworks`. |
| `Navigation.HighlightLinks` | js/main.js:320-325 | Afterwards each link is active exactly when its href is `'#' + current`. |
| `Navigation.AtMostOneHighlighted` | js/main.js:320-325 | With distinct hrefs, two highlighted links are the same link, and its href with the `#` dropped is `current`. |
| `Navigation.NearBottomMonotone` | js/main.js:286-293 | Once the indicator is hidden, scrolling further down keeps it hidden, and it is hidden at the very bottom. |
| `Navigation.ScrollView.constructor` | js/main.js:280-299 | At page load the indicator's `hidden` flag is set by the initial `updateScrollIndicator`. Every other class keeps its value from the markup. |
| `Navigation.ScrollView.UpdateScrollIndicator` | js/main.js:281-294 | The indicator is hidden exactly when `scrollTop >= (docHeight - winHeight) - 100`. Without the element nothing changes. |
| `Navigation.ScrollView.OnScroll` | js/main.js:300-326 | When the elements exist, the scroll indicator follows the near-bottom rule and the nav bar is `scrolled` exactly when `scrollY > 100`. Each link is active exactly when its href names the last reached section. |
| `Motion.WrapOnce` | js/main.js:239-241 | One ±360 correction keeps the direction. It leaves the error in [-180, 180] whenever the raw difference lies in [-540, 540], and it is the identity on [-180, 180]. |
| `Motion.TurnOnce` | js/main.js:243 | The turn as written, `heading + 0.3 × WrapOnce(target − heading)`. It turns at most 54° when the raw error lies in [−540, 540]. With an atan2 heading as the target, a heading inside (−540, 540) stays inside, so the raw error can reach (−720, 720). |
| `Motion.HeadingAfter` | js/main.js:228-244 | The heading after one moving frame per target, starting from a given heading. Fed atan2 headings from a start inside (−540, 540), it stays inside (−540, 540). |
| `Motion.LongWayRound` | js/main.js:237-243 | Seven frames from heading 0 with headings in (-180, 180] reach 376.2. A heading of -179 then leaves an error of -195.2, so the cursor turns 58.56° the long way. The full wrap gives 164.8°. |
| `Motion.WrapAngle` | js/main.js:239-241 | The corrected wrap keeps the direction and lies in [-180, 180] for every raw difference. |
| `Motion.Turn` | js/main.js:243 | A frame's corrected turn is at most 0.3 × 180 = 54°. Where the raw error is already in range, it equals the turn as written. |
| `Motion.WrapOnceAgrees` | js/main.js:239-241 | On [-540, 540] the single correction agrees with the full wrap, except at the ambiguous half turn. |
| `Motion.Clamp` | js/main.js:215-216 | `Math.max(lo, Math.min(hi, t))` lies in [lo, hi] when lo ≤ hi and is `t` when `t` is inside. It is `lo` when the interval is empty. |
| `Motion.ClampNearest` | js/main.js:215-216 | The clamped value is the point of [lo, hi] nearest the target. |
| `Motion.VideoTarget` | js/main.js:206-216 | When the video fits, the target lies in [videoWidth/2 + 20, width − videoWidth/2 − 20] × [120, height − videoHeight − 20]. It is the offset pointer when that is inside. On each axis where the video does not fit, the target is pinned to the lower bound. |
| `Parallax.ScrollOffset` | js/main.js:42-46 | For a positive page height and `scrollY >= 0`, the offset lies in [−maxScroll, 0]. It is 0 at the top and −maxScroll from the bottom on. A zero page height translates only for a positive `scrollY`, and then by −maxScroll (Infinity capped to 1). |
| `Parallax.IsMobile` | js/main.js:7-9 | A viewport counts as mobile when `innerWidth <= 768`. It has no contract of its own: `ParallaxTransform` and `MobileNeverTranslates` state its effect. |
| `Parallax.ParallaxTransform` | js/main.js:11-49 | `updateParallax`'s effect on the transform. On a mobile viewport it is `none`, or untouched without the image. On a desktop viewport it is untouched when the image is missing, not loaded or no taller than the viewport. Otherwise it is the scroll offset. Only a loaded, oversized image on a desktop viewport is ever translated. |
| `Parallax.MobileNeverTranslates` | js/main.js:7-23 | On a viewport at most 768 px wide the image's transform is `none`, or untouched without the image. |
| `Parallax.DesktopEnds` | js/main.js:34-46 | A loaded oversized image on a desktop viewport sits at 0 at the top of the page and at −(imgHeight − viewportHeight) at the bottom. |
| `Parallax.ScrollOffsetMonotone` | js/main.js:43-45 | Scrolling further down never moves the image back down. |
| `Parallax.OverscrollMovesDown` | js/main.js:44-45 | The fraction is capped only from above, so a negative `scrollY` moves the image down. |

## Left out

- The per-frame loops `animateCursor` and `animateVideo` (js/main.js:192-272) are not modelled as loops. They are unbounded `requestAnimationFrame` chains of floating-point exponential smoothing with `Math.sqrt`, `Math.cos`, `Math.sin` and `Math.atan2`. Only the heading correction (`Motion.TurnOnce`, corrected as `Motion.Turn`) and the video clamp (`Motion.VideoTarget`) are modelled.
- Cursor and trail positions, trail opacity and size, the pointer tracking and the spotlight's CSS custom properties are left out (js/main.js:151-189, 246-269). They are presentation writes.
- `Motion.VideoTarget`: the spotlight offset `cos(30°)·325, sin(30°)·325` is a parameter rather than a constant, because it is trigonometry. The mobile guard of `animateVideo` is not part of it.
- DOM style writes are left out: `style.left/top/transform/width/height/opacity`, `objectFit`, `objectPosition` and the mobile height stretching (js/main.js:12-31). Only the transform's value is modelled.
- Which events trigger `updateParallax` is left out: scroll via `requestAnimationFrame`, resize, image load, and the 100 ms initial timeout (js/main.js:51-65). Only the offset it computes is modelled.
- Real time is left out. The 5000 ms idle delay is only the pending/not-pending status of a handle. The parallax timer and the form timers share the browser's handle numbering, which is not modelled.
- `video.play()` resolves asynchronously and its rejection is logged (js/main.js:94). Both are replaced by the parameter `playAllowed`.
- The video's initial `muted`, `paused`, `volume` and `currentTime` come from the page markup, which is not part of this model. They are constructor parameters.
- The reveal-on-scroll `IntersectionObserver` (js/main.js:329-341) has no state logic and is left out. So are the staggered transition delays (343-349), the form-submission timers (352-367), smooth scrolling (370-378) and the hover class toggles (274-277).
- Layout measurements are parameters: `offsetTop`, `offsetHeight`, `offsetWidth`, `scrollHeight`, `innerWidth`, `innerHeight`, `naturalHeight` and `getBoundingClientRect`.

## Findings

| source | as written | input that shows it | evidently intended | confidence | as-written member | corrected member |
|---|---|---|---|---|---|---|
| js/main.js:239-241 | One ±360 correction of `targetAngle - currentAngle`. `currentAngle` is never normalised and drifts to (−540, 540), so the raw difference can exceed ±540 and the corrected error falls outside [-180, 180]. | Starting from heading 0, seven moving frames with headings 180, −127, −73.3, −19.6, 34.1, 87.8, 141.5 reach 376.2. The next heading of −179 gives −195.2, a 58.56° turn the long way instead of 49.44° the short way. | The error always reduced to [-180, 180], the shorter direction, as the rotation step assumes. | medium; not executed | `Motion.LongWayRound` | `Motion.WrapAngle` |
