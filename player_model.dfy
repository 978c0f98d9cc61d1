/** The simulated player state of the `MusicPlayer` component as values: one
    snapshot of every field the component keeps, and one pure function per
    thing that can happen to it (a click, a timer firing, a pointer event, a
    measurement), each followed by the effects React runs after it. The class
    in module Player performs the same transitions in place and is proved
    against these functions. */
module PlayerModel {
  import opened Helpers

  datatype PlayerState = Paused | Playing | Loading

  datatype Option<T> = None | Some(value: T)

  /** `DURATION = 3 * 60 + 45` seconds. */
  const DurationSeconds: real := 225.0

  /** The clock counts whole quarter-seconds: each interval tick adds
      `stepMs / 1000` = 0.25 s. */
  const QuartersPerSecond: int := 4
  const DurationQuarters: int := 900

  /** The volume a freshly mounted player starts with, and the fallback of an
      unmute when no positive volume is remembered. */
  const DefaultVolume: real := 0.55

  /** Everything the component keeps between renders. `toggleTimer` is the
      target of the one-shot toggle timer that is scheduled and has not yet
      fired (None when nothing is pending); `quarters` is `currentSec` in
      quarter-seconds; `prevVolume` is `prevVolumeRef.current`. */
  datatype Snapshot = Snapshot(
    state: PlayerState,
    toggleTimer: Option<PlayerState>,
    quarters: int,
    progress: real,
    volume: real,
    muted: bool,
    prevVolume: real,
    trackWidth: real)

  /** Elapsed time in seconds for a count of quarter-seconds. */
  function Seconds(q: int): real { q as real / QuartersPerSecond as real }

  /** The target a toggle schedules: `state === "playing" ? "paused" : "playing"`. */
  function Opposite(s: PlayerState): (t: PlayerState)
    ensures t != Loading && (s != Loading ==> t != s)
  {
    if s == Playing then Paused else Playing
  }

  // ---------------------------------------------------------------------------
  // Playback clock

  /** The interval callback as the source writes it, in seconds:
      `next = t + 0.25; next >= DURATION ? 0 : next`. */
  function NextSecond(t: real): (r: real)
    ensures r == 0.0 || r == t + 0.25
    ensures 0.0 <= t ==> 0.0 <= r < DurationSeconds
    ensures 0.0 <= t ==> (r == 0.0 <==> t + 0.25 >= DurationSeconds)
  {
    var next := t + 0.25;
    if next >= DurationSeconds then 0.0 else next
  }

  /** The same callback on quarter-seconds. It agrees with the source's
      seconds, stays in range, and is a step of a clock modulo the duration. */
  function NextQuarter(q: int): (r: int)
    ensures Seconds(r) == NextSecond(Seconds(q))
    ensures 0 <= q < DurationQuarters ==> 0 <= r < DurationQuarters && r == (q + 1) % DurationQuarters
  {
    if q + 1 >= DurationQuarters then 0 else q + 1
  }

  /** The progress effect: `DURATION > 0 ? clamp(currentSec / DURATION, 0, 1) : 0`. */
  function ProgressOf(t: real, duration: real): (p: real)
    ensures 0.0 <= p <= 1.0
    ensures duration <= 0.0 ==> p == 0.0
    ensures 0.0 < duration && 0.0 <= t <= duration ==> p * duration == t
    ensures 0.0 < duration <= t ==> p == 1.0
    ensures 0.0 < duration && t <= 0.0 ==> p == 0.0
  {
    if duration > 0.0 then Clamp(t / duration, 0.0, 1.0) else 0.0
  }

  /** The progress shown for a clock reading. */
  function ProgressAt(q: int): real { ProgressOf(Seconds(q), DurationSeconds) }

  // ---------------------------------------------------------------------------
  // Volume controller: pure derivations

  /** `thumbX`: 0 while the track is unmeasured, otherwise the clamped volume
      scaled to the track width. */
  function ThumbX(volume: real, trackWidth: real): (x: real)
    ensures trackWidth == 0.0 ==> x == 0.0
    ensures trackWidth > 0.0 ==> 0.0 <= x <= trackWidth
    ensures trackWidth != 0.0 && 0.0 <= volume <= 1.0 ==> x / trackWidth == volume
  {
    if trackWidth == 0.0 then 0.0 else Clamp(volume, 0.0, 1.0) * trackWidth
  }

  /** The volume `applyVolumeFromX` computes for a pointer offset: None when the
      track is unmeasured (the call is ignored), otherwise the offset as a
      fraction of the width, clamped to [0, 1]. */
  function VolumeFromX(x: real, trackWidth: real): (v: Option<real>)
    ensures v.None? <==> trackWidth == 0.0
    ensures v.Some? ==> 0.0 <= v.value <= 1.0
    ensures 0.0 < trackWidth && 0.0 <= x <= trackWidth ==> v == Some(x / trackWidth)
    ensures 0.0 < trackWidth && x <= 0.0 ==> v == Some(0.0)
    ensures 0.0 < trackWidth <= x ==> v == Some(1.0)
  {
    if trackWidth == 0.0 then None else Some(Clamp(x / trackWidth, 0.0, 1.0))
  }

  /** Placing the volume at the thumb's position gives back the volume. */
  lemma ThumbRoundTrip(volume: real, trackWidth: real)
    requires 0.0 < trackWidth && 0.0 <= volume <= 1.0
    ensures VolumeFromX(ThumbX(volume, trackWidth), trackWidth) == Some(volume)
  {
    var x := ThumbX(volume, trackWidth);
    assert x == volume * trackWidth;
    assert x / trackWidth == volume;
  }

  /** After a pointer at offset x sets the volume, the thumb sits at x held
      within the track. */
  lemma ThumbFollowsPointer(x: real, trackWidth: real)
    requires 0.0 < trackWidth
    ensures ThumbX(VolumeFromX(x, trackWidth).value, trackWidth) == Clamp(x, 0.0, trackWidth)
  {
    var v := VolumeFromX(x, trackWidth).value;
    if x <= 0.0 {
      assert v == 0.0;
    } else if x >= trackWidth {
      assert v == 1.0;
    } else {
      assert v == x / trackWidth;
      assert v * trackWidth == x;
    }
  }

  /** `prevVolumeRef.current || 0.55`: the remembered volume unless it is 0. */
  function UnmuteVolume(prevVolume: real): (v: real)
    ensures prevVolume != 0.0 ==> v == prevVolume
    ensures prevVolume == 0.0 ==> v == DefaultVolume
    ensures v != 0.0
  {
    if prevVolume != 0.0 then prevVolume else DefaultVolume
  }

  // ---------------------------------------------------------------------------
  // The invariant every reachable snapshot keeps

  predicate Inv(s: Snapshot)
  {
    // the clock stays within the track
    && 0 <= s.quarters < DurationQuarters
    && s.progress == ProgressAt(s.quarters)
    // volume, mute flag and remembered volume
    && 0.0 <= s.volume <= 1.0
    && s.muted == (s.volume == 0.0)
    && 0.0 < s.prevVolume <= 1.0
    && (s.volume > 0.0 ==> s.prevVolume == s.volume)
    // a toggle timer is pending exactly while loading, aimed at a settled state
    && (s.state == Loading <==> s.toggleTimer.Some?)
    && (s.toggleTimer.Some? ==> s.toggleTimer.value != Loading)
  }

  /** The snapshot after mounting: the fields' initial values, then the mount
      run of the progress effect (which replaces the initial 0.33 with the
      progress of 0 s) and of the volume effect. The mount-time measurement of
      the volume track is not part of it: it is a later `TrackResized` event,
      so the track is still unmeasured here. */
  function Initial(): (s: Snapshot)
    ensures Inv(s)
    ensures s.state == Paused && s.quarters == 0 && s.progress == 0.0
    ensures s.volume == DefaultVolume && !s.muted && s.trackWidth == 0.0
  {
    Snapshot(Paused, None, 0, ProgressAt(0), DefaultVolume, false, DefaultVolume, 0.0)
  }

  // ---------------------------------------------------------------------------
  // Transitions

  /** The volume effect, which React runs after a render in which `volume`
      changed: remember a positive volume, and set `muted` to `volume === 0`. */
  function Settle(s: Snapshot, volumeBefore: real): (r: Snapshot)
    ensures r.volume == s.volume
    ensures s.volume != volumeBefore ==> r.muted == (r.volume == 0.0)
    ensures r.volume > 0.0 && s.volume != volumeBefore ==> r.prevVolume == r.volume
    ensures r.volume == 0.0 || s.volume == volumeBefore ==> r.prevVolume == s.prevVolume
    ensures s.volume == volumeBefore ==> r == s
    ensures r.(muted := s.muted, prevVolume := s.prevVolume) == s
  {
    if s.volume == volumeBefore then s
    else s.(prevVolume := if s.volume > 0.0 then s.volume else s.prevVolume,
            muted := s.volume == 0.0)
  }

  /** `onToggle`: ignored while loading; otherwise the player shows `loading`
      and a timer is scheduled (replacing any earlier one) to switch to the
      opposite of the state before the toggle. */
  function OnToggle(s: Snapshot): (r: Snapshot)
    ensures s.state == Loading ==> r == s
    ensures s.state != Loading ==> r.state == Loading && r.toggleTimer == Some(Opposite(s.state))
    ensures r.(state := s.state, toggleTimer := s.toggleTimer) == s
    ensures Inv(s) ==> Inv(r)
  {
    if s.state == Loading then s
    else s.(state := Loading, toggleTimer := Some(Opposite(s.state)))
  }

  /** The toggle timer fires: the state becomes its target. With no timer
      pending there is no callback and nothing happens. */
  function FireToggleTimer(s: Snapshot): (r: Snapshot)
    ensures s.toggleTimer.None? ==> r == s
    ensures s.toggleTimer.Some? ==> r.state == s.toggleTimer.value && r.toggleTimer.None?
    ensures Inv(s) && s.state == Loading ==> r.state != Loading
    ensures r.(state := s.state, toggleTimer := s.toggleTimer) == s
    ensures Inv(s) ==> Inv(r)
  {
    match s.toggleTimer
    case None => s
    case Some(target) => s.(state := target, toggleTimer := None)
  }

  /** One firing of the 250 ms interval, which exists only while playing,
      followed by the progress effect for the new `currentSec`. */
  function Tick(s: Snapshot): (r: Snapshot)
    ensures s.state != Playing ==> r == s
    ensures Inv(s) && s.state == Playing ==>
      r.quarters == (s.quarters + 1) % DurationQuarters && r.progress == ProgressAt(r.quarters)
    ensures r.(quarters := s.quarters, progress := s.progress) == s
    ensures Inv(s) ==> Inv(r)
  {
    if s.state != Playing then s
    else
      var q := NextQuarter(s.quarters);
      s.(quarters := q, progress := ProgressAt(q))
  }

  /** `toggleMute`, enabled only while playing: muting remembers a positive
      volume and sets the volume to 0; unmuting restores the remembered volume
      (or 0.55 if it were 0). The volume effect then runs. */
  function ToggleMute(s: Snapshot): (r: Snapshot)
    ensures s.state != Playing ==> r == s
    ensures Inv(s) && s.state == Playing && !s.muted ==>
      r.volume == 0.0 && r.muted && r.prevVolume == s.volume
    ensures Inv(s) && s.state == Playing && s.muted ==>
      r.volume == s.prevVolume && !r.muted && r.prevVolume == s.prevVolume
    ensures r.(volume := s.volume, muted := s.muted, prevVolume := s.prevVolume) == s
    ensures Inv(s) ==> Inv(r)
  {
    if s.state != Playing then s
    else
      var next := !s.muted;
      var updated :=
        if next then
          s.(prevVolume := if s.volume > 0.0 then s.volume else s.prevVolume,
             volume := 0.0, muted := next)
        else
          s.(volume := UnmuteVolume(s.prevVolume), muted := next);
      Settle(updated, s.volume)
  }

  /** `applyVolumeFromX(x)`: ignored while the track width is 0; otherwise the
      volume becomes the clamped fraction x / width, a positive volume clears
      `muted`, and the volume effect runs. */
  function ApplyVolumeFromX(s: Snapshot, x: real): (r: Snapshot)
    ensures s.trackWidth == 0.0 ==> r == s
    ensures s.trackWidth != 0.0 ==> r.volume == Clamp(x / s.trackWidth, 0.0, 1.0)
    ensures Inv(s) ==> r.muted == (r.volume == 0.0)
    ensures Inv(s) && s.trackWidth != 0.0 ==>
      r.prevVolume == if r.volume > 0.0 then r.volume else s.prevVolume
    ensures r.(volume := s.volume, muted := s.muted, prevVolume := s.prevVolume) == s
    ensures Inv(s) ==> Inv(r)
  {
    match VolumeFromX(x, s.trackWidth)
    case None => s
    case Some(v) =>
      var unmuted := if v > 0.0 && s.muted then s.(muted := false) else s;
      Settle(unmuted.(volume := v), s.volume)
  }

  /** The track's pointer-down handler: ignored unless playing, otherwise
      `applyVolumeFromX` at the pointer's offset into the track. */
  function PointerDown(s: Snapshot, x: real): (r: Snapshot)
    ensures s.state != Playing ==> r == s
    ensures s.state == Playing ==> r == ApplyVolumeFromX(s, x)
    ensures Inv(s) ==> Inv(r)
  {
    if s.state != Playing then s else ApplyVolumeFromX(s, x)
  }

  /** A new measurement of the volume track's width. */
  function MeasureTrack(s: Snapshot, width: real): (r: Snapshot)
    ensures r.trackWidth == width && r.(trackWidth := s.trackWidth) == s
    ensures Inv(s) ==> Inv(r)
  {
    s.(trackWidth := width)
  }

  // ---------------------------------------------------------------------------
  // Events

  /** Everything that can happen to the player. `DragTo` is the thumb's drag
      handler, which calls `applyVolumeFromX` without the playing check of the
      pointer-down handler. */
  datatype Event =
    | Toggle
    | ToggleTimerFires
    | IntervalTick
    | MuteClick
    | PointerDownAt(x: real)
    | DragTo(x: real)
    | TrackResized(width: real)

  /** The wiring of events to handlers. Only the toggle and its timer move the
      state; while not playing the tick, the mute button and the track's
      pointer-down do nothing; only a measurement changes the track width. */
  function Step(s: Snapshot, e: Event): (r: Snapshot)
    ensures e.Toggle? || e.ToggleTimerFires? || r.state == s.state
    ensures s.state != Playing && (e.IntervalTick? || e.MuteClick? || e.PointerDownAt?) ==> r == s
    ensures r.trackWidth == if e.TrackResized? then e.width else s.trackWidth
  {
    match e
    case Toggle => OnToggle(s)
    case ToggleTimerFires => FireToggleTimer(s)
    case IntervalTick => Tick(s)
    case MuteClick => ToggleMute(s)
    case PointerDownAt(x) => PointerDown(s, x)
    case DragTo(x) => ApplyVolumeFromX(s, x)
    case TrackResized(w) => MeasureTrack(s, w)
  }

  /** Every event keeps the invariant. */
  lemma StepKeepsInv(s: Snapshot, e: Event)
    requires Inv(s)
    ensures Inv(Step(s, e))
  {
  }

  /** The transition gate, one step at a time: a settled state changes only
      into `loading`, with a timer aimed at the opposite state; `loading` keeps
      its timer until it is left, and is left only for the timer's target. */
  lemma StepGate(s: Snapshot, e: Event)
    requires Inv(s)
    ensures var r := Step(s, e);
      && (s.state != Loading && r.state != s.state ==>
            r.state == Loading && r.toggleTimer == Some(Opposite(s.state)))
      && (s.state == Loading && r.state == Loading ==> r.toggleTimer == s.toggleTimer)
      && (s.state == Loading && r.state != Loading ==> r.state == s.toggleTimer.value)
  {
  }

  /** The remembered volume is never 0, so the `|| 0.55` fallback of an unmute
      is never taken. */
  lemma UnmuteFallbackUnused(s: Snapshot)
    requires Inv(s)
    ensures s.prevVolume != 0.0 && UnmuteVolume(s.prevVolume) == s.prevVolume
  {
  }
}
