/**
 * The idle-triggered video screensaver of the portfolio page.
 *
 * The page keeps four module-scoped variables (the idle-timer handle, whether
 * the screensaver is active, whether the user has interacted, whether the first
 * interaction has armed the timer) and drives the overlay video's `muted`,
 * `volume`, `currentTime` and playing state. Here they are the fields of one
 * `Controller` object; the browser's timer queue for the idle callback is the
 * field `pending`, and the browser running a scheduled callback is the method
 * `IdleTimeout`. Element presence is fixed when the page loads and becomes the
 * constants `hasOverlay` and `hasVideo`; `window.scrollY` is a parameter.
 */
module Screensaver {

  datatype Option<+T> = None | Some(value: T)

  /** Scroll offset (in px) up to which the page counts as being at its top. */
  const TopOfPage := 50

  /** The event types the controller listens for. */
  datatype Kind = MouseMove | Scroll | KeyDown | Click | TouchStart | TouchMove | TouchEnd

  /** A dispatched event: its type, and whether its target lies inside the overlay. */
  datatype Event = Event(kind: Kind, onOverlay: bool)

  /** The listeners registered with `{ once: true }`: the browser drops each after its first call. */
  datatype OnceListener =
    | AudioOnClick | AudioOnKeyDown | AudioOnTouchStart  // enableAudio
    | ArmOnTouchStart | ArmOnClick                       // enableScreensaverAfterInteraction

  /** The document-level event types that run resetIdleTimer. */
  predicate ResetsIdleTimer(k: Kind) { k != TouchEnd }

  /** The event types enableAudio is registered for. */
  predicate EnablesAudio(k: Kind) { k == Click || k == KeyDown || k == TouchStart }

  /** The event types the overlay's own hideScreensaver listener is registered for. */
  predicate DismissesOverlay(k: Kind) { k == Click || k == TouchStart || k == TouchEnd }

  /** The event types enableScreensaverAfterInteraction is registered for. */
  predicate ArmsScreensaver(k: Kind) { k == Click || k == TouchStart }

  function AudioListener(k: Kind): OnceListener
    requires EnablesAudio(k)
  {
    match k
    case Click => AudioOnClick
    case KeyDown => AudioOnKeyDown
    case _ => AudioOnTouchStart
  }

  function ArmListener(k: Kind): OnceListener
    requires ArmsScreensaver(k)
  {
    if k == Click then ArmOnClick else ArmOnTouchStart
  }

  class Controller {
    const hasOverlay: bool      // the element with id 'screensaver' exists
    const hasVideo: bool        // the element with id 'screensaverVideo' exists

    var active: bool            // screensaverActive
    var overlayShown: bool      // the overlay carries the 'active' class
    var userHasInteracted: bool
    var firstInteraction: bool

    var muted: bool             // the video's state
    var paused: bool
    var volume: real
    var currentTime: real

    var idleTimer: Option<nat>  // the handle last stored by resetIdleTimer; null before the first
    var pending: set<nat>       // idle callbacks scheduled and neither cleared nor run
    var nextHandle: nat         // the handle the next setTimeout returns
    var onceListeners: set<OnceListener>

    /** How often enableScreensaverAfterInteraction has called resetIdleTimer. */
    ghost var armResets: nat

    ghost predicate Valid()
      reads this
    {
      && (active ==> hasOverlay && hasVideo)
      && overlayShown == active
      && (active ==> muted == !userHasInteracted)
      && (idleTimer.Some? ==> 0 < idleTimer.value < nextHandle)
      && 0 < nextHandle
      && pending <= (if idleTimer.Some? then {idleTimer.value} else {})
      && (hasVideo && !userHasInteracted ==> {AudioOnClick, AudioOnKeyDown, AudioOnTouchStart} <= onceListeners)
      && (!firstInteraction ==> {ArmOnTouchStart, ArmOnClick} <= onceListeners)
      && armResets == (if firstInteraction then 1 else 0)
    }

    /**
     * No sound can leak: a hidden video is paused, and it stays muted until the
     * user interacts; so an unmuted, playing video means the screensaver is
     * active after an interaction. Every method preserves it.
     */
    predicate Silent()
      reads this
    {
      (!active ==> paused) && (!userHasInteracted ==> muted)
    }

    ghost function Video(): (bool, bool, real, real)
      reads this
    {
      (muted, paused, volume, currentTime)
    }

    ghost function Timers(): (Option<nat>, set<nat>, nat)
      reads this
    {
      (idleTimer, pending, nextHandle)
    }

    ghost function Flags(): (bool, bool, set<OnceListener>, nat)
      reads this
    {
      (userHasInteracted, firstInteraction, onceListeners, armResets)
    }

    /** At most one idle callback is ever pending. */
    lemma AtMostOnePending()
      requires Valid()
      ensures |pending| <= 1
      ensures pending != {} ==> idleTimer.Some? && pending == {idleTimer.value}
    {
      if idleTimer.Some? && pending != {} {
        var h :| h in pending;
        assert pending == {idleTimer.value};
      }
    }

    /** Page load: the state the variables are declared with, then the initial resetIdleTimer. */
    constructor (hasOverlay: bool, hasVideo: bool, muted: bool, paused: bool,
                 volume: real, currentTime: real, scrollY: int)
      ensures Valid()
      ensures this.hasOverlay == hasOverlay && this.hasVideo == hasVideo
      ensures !active && !userHasInteracted && !firstInteraction && armResets == 0
      ensures onceListeners == {AudioOnClick, AudioOnKeyDown, AudioOnTouchStart, ArmOnTouchStart, ArmOnClick}
      ensures Video() == (muted, paused, volume, currentTime)
      ensures scrollY <= TopOfPage ==> idleTimer.Some? && pending == {idleTimer.value}
      ensures scrollY > TopOfPage ==> idleTimer == None && pending == {}
      ensures muted && paused ==> Silent()
    {
      this.hasOverlay := hasOverlay;
      this.hasVideo := hasVideo;
      active := false;
      overlayShown := false;
      userHasInteracted := false;
      firstInteraction := false;
      this.muted := muted;
      this.paused := paused;
      this.volume := volume;
      this.currentTime := currentTime;
      idleTimer := None;
      pending := {};
      nextHandle := 1;
      onceListeners := {AudioOnClick, AudioOnKeyDown, AudioOnTouchStart, ArmOnTouchStart, ArmOnClick};
      armResets := 0;
      new;
      ResetIdleTimer(scrollY);
    }

    /** enableAudio: the first call with the video present unmutes it at full volume; later calls do nothing. */
    method EnableAudio()
      requires Valid()
      modifies this
      ensures Valid()
      ensures userHasInteracted == (old(userHasInteracted) || hasVideo)
      ensures !old(userHasInteracted) && hasVideo ==> !muted && volume == 1.0
      ensures old(userHasInteracted) || !hasVideo ==> Video() == old(Video())
      ensures paused == old(paused) && currentTime == old(currentTime)
      ensures active == old(active) && Timers() == old(Timers())
      ensures firstInteraction == old(firstInteraction) && onceListeners == old(onceListeners)
      ensures armResets == old(armResets)
      ensures old(Silent()) ==> Silent()
    {
      if !userHasInteracted && hasVideo {
        userHasInteracted := true;
        muted := false;
        volume := 1.0;
      }
    }

    /**
     * showScreensaver: does nothing below the top of the page or without both
     * elements; otherwise activates the overlay and restarts the video from 0,
     * muted unless the user has interacted. `playAllowed` is whether the
     * browser accepts `play()` (a rejection is only logged).
     */
    method ShowScreensaver(scrollY: int, playAllowed: bool)
      requires Valid()
      modifies this
      ensures Valid()
      ensures scrollY <= TopOfPage && hasOverlay && hasVideo ==>
        && active && currentTime == 0.0 && muted == !userHasInteracted
        && paused == !playAllowed && volume == old(volume)
      ensures !(scrollY <= TopOfPage && hasOverlay && hasVideo) ==>
        active == old(active) && Video() == old(Video())
      ensures Timers() == old(Timers()) && Flags() == old(Flags())
      ensures old(Silent()) ==> Silent()
    {
      if scrollY > TopOfPage {
        return;
      }
      if hasOverlay && hasVideo {
        active := true;
        overlayShown := true;
        currentTime := 0.0;
        muted := !userHasInteracted;
        paused := !playAllowed;
      }
    }

    /** hideScreensaver: a no-op when inactive; otherwise hides the overlay, pauses and mutes the video. */
    method HideScreensaver()
      requires Valid()
      modifies this
      ensures Valid()
      ensures !active
      ensures old(active) ==> muted && paused && volume == old(volume) && currentTime == old(currentTime)
      ensures !old(active) ==> Video() == old(Video())
      ensures Timers() == old(Timers()) && Flags() == old(Flags())
      ensures old(Silent()) ==> Silent()
    {
      if !active {
        return;
      }
      if hasOverlay && hasVideo {
        active := false;
        overlayShown := false;
        paused := true;
        muted := true;
      }
    }

    /**
     * resetIdleTimer: cancels the stored timer, hides the screensaver and, at
     * the top of the page only, schedules a fresh idle callback.
     */
    method ResetIdleTimer(scrollY: int)
      requires Valid()
      modifies this
      ensures Valid()
      ensures !active
      ensures old(active) ==> muted && paused && volume == old(volume) && currentTime == old(currentTime)
      ensures !old(active) ==> Video() == old(Video())
      ensures old(idleTimer).Some? ==> old(idleTimer).value !in pending
      ensures scrollY <= TopOfPage ==>
        idleTimer == Some(old(nextHandle)) && pending == {old(nextHandle)} && nextHandle == old(nextHandle) + 1
      ensures scrollY > TopOfPage ==>
        pending == {} && idleTimer == old(idleTimer) && nextHandle == old(nextHandle)
      ensures Flags() == old(Flags())
      ensures old(Silent()) ==> Silent()
    {
      if idleTimer.Some? {
        pending := pending - {idleTimer.value};
      }
      HideScreensaver();
      if scrollY <= TopOfPage {
        idleTimer := Some(nextHandle);
        pending := pending + {nextHandle};
        nextHandle := nextHandle + 1;
      }
    }

    /** enableScreensaverAfterInteraction: resets the idle timer the first time only. */
    method EnableScreensaverAfterInteraction(scrollY: int)
      requires Valid()
      modifies this
      ensures Valid()
      ensures firstInteraction && armResets <= 1
      ensures armResets == old(armResets) + (if old(firstInteraction) then 0 else 1)
      ensures old(firstInteraction) ==>
        active == old(active) && Video() == old(Video()) && Timers() == old(Timers())
      ensures !old(firstInteraction) ==>
        && !active
        && (old(active) ==> muted && paused && volume == old(volume) && currentTime == old(currentTime))
        && (!old(active) ==> Video() == old(Video()))
        && (scrollY <= TopOfPage ==>
              idleTimer == Some(old(nextHandle)) && pending == {old(nextHandle)} && nextHandle == old(nextHandle) + 1)
        && (scrollY > TopOfPage ==> pending == {} && idleTimer == old(idleTimer) && nextHandle == old(nextHandle))
      ensures userHasInteracted == old(userHasInteracted) && onceListeners == old(onceListeners)
      ensures old(Silent()) ==> Silent()
    {
      if !firstInteraction {
        firstInteraction := true;
        armResets := armResets + 1;
        ResetIdleTimer(scrollY);
      }
    }

    /**
     * The browser runs idle callback `h` (scheduled 5000 ms earlier): if it is
     * still pending it leaves the queue and runs showScreensaver; a cleared
     * callback never runs.
     */
    method IdleTimeout(h: nat, scrollY: int, playAllowed: bool)
      requires Valid()
      modifies this
      ensures Valid()
      ensures h !in pending
      ensures h !in old(pending) ==>
        active == old(active) && Video() == old(Video()) && Timers() == old(Timers())
      ensures h in old(pending) ==> pending == {} && idleTimer == old(idleTimer) && nextHandle == old(nextHandle)
      ensures h in old(pending) && scrollY <= TopOfPage && hasOverlay && hasVideo ==>
        && active && currentTime == 0.0 && muted == !userHasInteracted
        && paused == !playAllowed && volume == old(volume)
      ensures h in old(pending) && !(scrollY <= TopOfPage && hasOverlay && hasVideo) ==>
        active == old(active) && Video() == old(Video())
      ensures Flags() == old(Flags())
      ensures old(Silent()) ==> Silent()
    {
      if h in pending {
        AtMostOnePending();
        pending := pending - {h};
        ShowScreensaver(scrollY, playAllowed);
      }
    }

    /** The `{ once: true }` enableAudio listener for event type `k`, if it is still registered. */
    method AudioListenerFor(k: Kind)
      requires Valid()
      modifies this
      ensures Valid()
      ensures userHasInteracted == (old(userHasInteracted) || (hasVideo && EnablesAudio(k)))
      ensures onceListeners == old(onceListeners) - (if EnablesAudio(k) then {AudioListener(k)} else {})
      ensures hasVideo && !old(userHasInteracted) && EnablesAudio(k) ==> !muted && volume == 1.0
      ensures !(hasVideo && !old(userHasInteracted) && EnablesAudio(k)) ==> Video() == old(Video())
      ensures paused == old(paused) && currentTime == old(currentTime)
      ensures active == old(active) && Timers() == old(Timers())
      ensures firstInteraction == old(firstInteraction) && armResets == old(armResets)
      ensures old(Silent()) ==> Silent()
    {
      if EnablesAudio(k) && AudioListener(k) in onceListeners {
        EnableAudio();
        onceListeners := onceListeners - {AudioListener(k)};
      }
    }

    /** The `{ once: true }` enableScreensaverAfterInteraction listener for `k`, if still registered. */
    method ArmListenerFor(k: Kind, scrollY: int)
      requires Valid()
      requires ResetsIdleTimer(k) ==> !active
      modifies this
      ensures Valid()
      ensures firstInteraction == (old(firstInteraction) || ArmsScreensaver(k))
      ensures onceListeners == old(onceListeners) - (if ArmsScreensaver(k) then {ArmListener(k)} else {})
      ensures userHasInteracted == old(userHasInteracted) && armResets <= 1
      ensures active == old(active) && Video() == old(Video())
      ensures !(ArmsScreensaver(k) && !old(firstInteraction)) ==> Timers() == old(Timers())
      ensures ArmsScreensaver(k) && !old(firstInteraction) && scrollY <= TopOfPage ==>
        idleTimer == Some(old(nextHandle)) && pending == {old(nextHandle)}
      ensures ArmsScreensaver(k) && !old(firstInteraction) && scrollY > TopOfPage ==>
        pending == {} && idleTimer == old(idleTimer)
      ensures old(Silent()) ==> Silent()
    {
      if ArmsScreensaver(k) && ArmListener(k) in onceListeners {
        EnableScreensaverAfterInteraction(scrollY);
        onceListeners := onceListeners - {ArmListener(k)};
      }
    }

    /**
     * The document's listeners for one event, in the order they were
     * registered: enableAudio, resetIdleTimer, enableScreensaverAfterInteraction.
     */
    method DocumentListeners(k: Kind, scrollY: int)
      requires Valid()
      modifies this
      ensures Valid()
      ensures userHasInteracted == (old(userHasInteracted) || (hasVideo && EnablesAudio(k)))
      ensures firstInteraction == (old(firstInteraction) || ArmsScreensaver(k))
      ensures onceListeners == old(onceListeners)
        - (if EnablesAudio(k) then {AudioListener(k)} else {})
        - (if ArmsScreensaver(k) then {ArmListener(k)} else {})
      ensures volume == (if hasVideo && !old(userHasInteracted) && EnablesAudio(k) then 1.0 else old(volume))
      ensures currentTime == old(currentTime)
      ensures ResetsIdleTimer(k) ==> !active && paused == (old(paused) || old(active))
      ensures ResetsIdleTimer(k) ==>
        muted == (if hasVideo && !old(userHasInteracted) && EnablesAudio(k) && !old(active)
                  then false
                  else old(active) || old(muted))
      ensures ResetsIdleTimer(k) ==> old(idleTimer).Some? ==> old(idleTimer).value !in pending
      ensures ResetsIdleTimer(k) && scrollY <= TopOfPage ==>
        idleTimer.Some? && pending == {idleTimer.value} && old(nextHandle) <= idleTimer.value
      ensures ResetsIdleTimer(k) && scrollY > TopOfPage ==> pending == {}
      ensures !ResetsIdleTimer(k) ==>
        active == old(active) && Video() == old(Video()) && Timers() == old(Timers())
      ensures old(Silent()) ==> Silent()
    {
      AudioListenerFor(k);
      if ResetsIdleTimer(k) {
        ResetIdleTimer(scrollY);
      }
      ArmListenerFor(k, scrollY);
    }

    /**
     * Delivers one event: the overlay's own listener runs first when the
     * overlay is the target, then the event bubbles to the document.
     */
    method Dispatch(e: Event, scrollY: int)
      requires Valid()
      modifies this
      ensures Valid()
      // enableAudio acts on the first click, keydown or touchstart when the video exists
      ensures userHasInteracted == (old(userHasInteracted) || (hasVideo && EnablesAudio(e.kind)))
      ensures firstInteraction == (old(firstInteraction) || ArmsScreensaver(e.kind))
      ensures armResets <= 1
      ensures onceListeners == old(onceListeners)
        - (if EnablesAudio(e.kind) then {AudioListener(e.kind)} else {})
        - (if ArmsScreensaver(e.kind) then {ArmListener(e.kind)} else {})
      ensures volume == (if hasVideo && !old(userHasInteracted) && EnablesAudio(e.kind) then 1.0 else old(volume))
      ensures currentTime == old(currentTime)
      // every qualifying interaction leaves the screensaver hidden and the video paused if it was showing
      ensures ResetsIdleTimer(e.kind) ==> !active && paused == (old(paused) || old(active))
      ensures ResetsIdleTimer(e.kind) ==>
        muted == (if hasVideo && !old(userHasInteracted) && EnablesAudio(e.kind)
                     && (!old(active) || (hasOverlay && e.onOverlay && DismissesOverlay(e.kind)))
                  then false
                  else old(active) || old(muted))
      // it cancels the stored timer and leaves a fresh one pending exactly at the top of the page
      ensures ResetsIdleTimer(e.kind) ==> old(idleTimer).Some? ==> old(idleTimer).value !in pending
      ensures ResetsIdleTimer(e.kind) && scrollY <= TopOfPage ==>
        idleTimer.Some? && pending == {idleTimer.value} && old(nextHandle) <= idleTimer.value
      ensures ResetsIdleTimer(e.kind) && scrollY > TopOfPage ==> pending == {}
      // a touchend only reaches the overlay's listener
      ensures e.kind == TouchEnd ==> Timers() == old(Timers())
      ensures e.kind == TouchEnd && hasOverlay && e.onOverlay ==>
        && !active
        && (old(active) ==> muted && paused && volume == old(volume))
        && (!old(active) ==> Video() == old(Video()))
      ensures e.kind == TouchEnd && !(hasOverlay && e.onOverlay) ==>
        active == old(active) && Video() == old(Video())
      ensures old(Silent()) ==> Silent()
    {
      if hasOverlay && e.onOverlay && DismissesOverlay(e.kind) {
        HideScreensaver();
      }
      DocumentListeners(e.kind, scrollY);
    }
  }
}
