# Simulated music player: a Dafny model

The `MusicPlayer` widget plays no audio. It keeps a small simulated player
state and changes it in response to clicks, pointer events and timers:

- A **transition gate**. The player is `paused`, `playing` or `loading`. A
  toggle puts it into `loading` and schedules a one-shot 500 ms timer. When the
  timer fires, the player switches to the opposite of the state before the
  toggle. A toggle while loading is ignored.
- A **playback clock**. While playing, a 250 ms interval adds 0.25 s to
  `currentSec`. When the clock reaches the 225 s duration it starts again at 0.
  An effect derives `progress` from the clock.
- A **volume controller**. An effect runs whenever the volume changes. It
  remembers the last positive volume and sets `muted` to "the volume is 0".
  The mute button works only while playing. It sets the volume to 0, or back to
  the remembered volume. A pointer on the volume track sets the volume to the
  pointer's offset divided by the measured track width, clamped to [0, 1].
- Two **pure helpers**: `clamp` and `formatTime`. `formatTime` renders
  seconds as `m:ss`.

The project has four modules:

- `Helpers` (helpers.dfy) holds `clamp`, `formatTime` and the decimal
  rendering that `formatTime` relies on.
- `PlayerModel` (player_model.dfy) holds the player as values. A `Snapshot`
  holds every field the component keeps. There is one pure function per
  handler, timer callback or measurement; each one includes the effects React
  runs after it. `Inv` is the invariant every reachable snapshot keeps.
- `PlayerRuns` (player_runs.dfy) states properties of whole event sequences:
  the gate, the mute round trip, the wrapping clock, and the concrete
  scenarios.
- `Player` (player.dfy) holds the imperative form. Class `MusicPlayer` has
  one field per piece of React state or mutable ref. Each handler is a method
  that updates the fields step by step. Each method is proved to perform
  exactly the transition its `PlayerModel` function describes, and to keep
  `Valid()`, which is `Inv` of the fields.

Representation choices:

- Time is counted in whole quarter-seconds, so the duration is 900 quarters.
  `NextQuarter` is proved to agree with the source's computation in seconds.
  Steps of 0.25 are exact in binary floating point, so the integer count loses
  nothing.
- Volumes, pointer offsets and widths are `real`.
- Timer firings, interval ticks and measurements are explicit events (the
  datatype `PlayerModel.Event`).

Two behaviours of the code are worth noting, and the model follows them:

- A toggle during `loading` is ignored (src/components/MusicPlayer.tsx:101),
  and the play button is disabled then (line 382). So the `clearTimeout` at
  line 106 only clears a timer that has already fired.
- `setVolume` does not clamp. Only `applyVolumeFromX` clamps (line 205). Every
  other volume the code sets is 0 or a remembered volume, which is already in
  range.

`Player.PlayAndMute` is a client run of the class: play, wait for the timer,
tick four times, then mute and unmute. It has no counterpart in the source; it
shows that the methods' contracts are enough to follow the component through a
session.

## Model

| member | source | states |
|---|---|---|
| `Helpers.Clamp` | src/components/MusicPlayer.tsx:20-22 | The result lies in [lo, hi] when lo <= hi. An in-range value is returned unchanged. A value below lo gives lo, and one above hi gives hi. Crossed bounds give lo. |
| `Helpers.ClampIdempotent` | src/components/MusicPlayer.tsx:20-22 | Clamping twice equals clamping once, for any bounds. |
| `Helpers.NatToString` | src/components/MusicPlayer.tsx:28 | `String(n)` of a non-negative integer is a non-empty string of digits without a leading zero. It is one character long exactly when n < 10. |
| `Helpers.DecimalRoundTrip` | src/components/MusicPlayer.tsx:28 | Reading the rendered numeral back as a decimal number gives n. |
| `Helpers.PadStart` | src/components/MusicPlayer.tsx:28 | `padStart(width, fill)` returns a string of length max(\|s\|, width). It ends with s, and everything before s is the fill character. |
| `Helpers.PaddedSeconds` | src/components/MusicPlayer.tsx:27-28 | Seconds below 60, padded to two places, are exactly two digits that read back as the same number. |
| `Helpers.WholeSeconds` | src/components/MusicPlayer.tsx:25 | `Math.max(0, Math.floor(t))` is 0 for negative t. For t >= 0 it is the whole number s with s <= t < s + 1. |
| `Helpers.FormatTime` | src/components/MusicPlayer.tsx:24-29 | `formatTime(t)` is digits without a leading zero, then ':', then two digits whose value is below 60. minutes * 60 + seconds equals floor(t) for t >= 0, and 0 for negative t. |
| `Helpers.ClockText` | src/components/MusicPlayer.tsx:26-28 | Whole seconds s render as minutes, a colon and a two-digit seconds field, with minutes * 60 + seconds == s. |
| `Helpers.FormatTimeOfNegative` | src/components/MusicPlayer.tsx:25 | Any negative input gives "0:00". |
| `Helpers.FormatTimeOfDuration` | src/components/MusicPlayer.tsx:35 | `formatTime(DURATION)` with DURATION = 3 * 60 + 45 is "3:45", the length shown at line 364. |
| `PlayerModel.Opposite` | src/components/MusicPlayer.tsx:103 | A toggle's target is never `loading`, and it differs from the settled state it was computed from. |
| `PlayerModel.NextSecond` | src/components/MusicPlayer.tsx:122-126 | The interval's updater, in seconds as written: from any non-negative time it restarts at 0 exactly when t + 0.25 reaches DURATION, and otherwise advances by 0.25 s. The result lies in [0, DURATION). |
| `PlayerModel.NextQuarter` | src/components/MusicPlayer.tsx:119-127 | The tick on quarter-seconds agrees with the source's seconds computation (add 0.25, and 0 once the sum reaches DURATION). It keeps the clock within [0, 900) and equals (q + 1) mod 900 there. |
| `PlayerModel.ProgressOf` | src/components/MusicPlayer.tsx:138-140 | Progress is always in [0, 1]. It is 0 when the duration is not positive. It is t / duration for 0 <= t <= duration, 1 at or past the end, and 0 at or before the start. |
| `PlayerModel.ThumbX` | src/components/MusicPlayer.tsx:196-199 | The thumb is at 0 while the width is 0, and within [0, width] for a positive width. Dividing its position by the width gives back a volume in [0, 1]. |
| `PlayerModel.VolumeFromX` | src/components/MusicPlayer.tsx:202-212 | The pointer is ignored exactly when the width is 0. Otherwise the volume is in [0, 1]: x / width inside the track, 0 at or left of it, and 1 at or right of its end. |
| `PlayerModel.ThumbRoundTrip` | src/components/MusicPlayer.tsx:196-212 | Pointing at the thumb's position sets the volume the thumb shows. |
| `PlayerModel.ThumbFollowsPointer` | src/components/MusicPlayer.tsx:196-212 | After a pointer at x sets the volume, the thumb is at x clamped to [0, width]. |
| `PlayerModel.UnmuteVolume` | src/components/MusicPlayer.tsx:163 | `prevVolume \|\| 0.55` returns the remembered volume when it is not 0 and 0.55 when it is 0, so it is never 0. |
| `PlayerModel.Inv` | src/components/MusicPlayer.tsx:32-212 | The invariant of every reachable state: the clock lies in [0, 900) and the progress is derived from it; the volume lies in [0, 1]; `muted` holds iff the volume is 0; the remembered volume lies in (0, 1] and equals any positive volume; and a toggle timer is pending exactly while loading, aimed at a settled state. `Initial` establishes it and `StepKeepsInv` keeps it. |
| `PlayerModel.Initial` | src/components/MusicPlayer.tsx:32-61 | The mounted player is paused at 0 s with progress 0 (the initial 0.33 is replaced by the mount effect), at volume 0.55 and unmuted, with an unmeasured track, and it satisfies the invariant. The mount-time width measurement (line 180) is not included; it is the later event `TrackResized`. |
| `PlayerModel.Settle` | src/components/MusicPlayer.tsx:148-151 | After a volume change, `muted` is "volume is 0" and a positive volume is remembered. A change to volume 0 keeps the remembered volume. With the volume unchanged the effect does not run and the snapshot is unchanged. Only `muted` and the remembered volume ever change. |
| `PlayerModel.OnToggle` | src/components/MusicPlayer.tsx:100-110 | A toggle while loading changes nothing. Otherwise the state becomes `loading` with a timer aimed at the opposite state, and nothing else changes. The invariant is kept. |
| `PlayerModel.FireToggleTimer` | src/components/MusicPlayer.tsx:107-109 | A firing sets the state to the timer's target and leaves no timer pending, so a loading player leaves `loading`. With no timer pending nothing happens. The invariant is kept. |
| `PlayerModel.Tick` | src/components/MusicPlayer.tsx:119-127 | A tick changes nothing unless the player is playing. While playing, the clock becomes (q + 1) mod 900 and the progress is that of the new time. Only clock and progress change. The invariant is kept. |
| `PlayerModel.ToggleMute` | src/components/MusicPlayer.tsx:153-168 | Nothing happens unless playing. Muting sets the volume to 0, sets `muted` and remembers the volume. Unmuting restores the remembered volume and clears `muted`. Only volume, mute flag and remembered volume change. The invariant is kept. |
| `PlayerModel.ApplyVolumeFromX` | src/components/MusicPlayer.tsx:202-212 | With width 0 nothing happens. Otherwise the volume becomes clamp(x / width, 0, 1) and `muted` matches "volume is 0". The remembered volume becomes the new volume when it is positive; a drag to 0 keeps the last positive volume. Only the volume fields change. The invariant is kept. |
| `PlayerModel.PointerDown` | src/components/MusicPlayer.tsx:487-494 | A pointer-down is ignored unless playing. While playing it is `applyVolumeFromX` at the pointer's offset. The invariant is kept. |
| `PlayerModel.MeasureTrack` | src/components/MusicPlayer.tsx:170-183 | A measurement sets the track width and nothing else. The invariant is kept. |
| `PlayerModel.Step` | src/components/MusicPlayer.tsx:381-528 | Events are wired to handlers as in the markup: play button (line 381), mute button (437), track pointer-down (487-494), thumb drag (522-528). Only the toggle and its timer change the state. While not playing, a tick, the mute button and a pointer-down on the track do nothing. Only a measurement changes the track width. |
| `PlayerModel.StepKeepsInv` | src/components/MusicPlayer.tsx:100-212 | Every event keeps the invariant: clock in [0, 900), progress derived from the clock, volume in [0, 1], `muted` iff volume is 0, remembered volume in (0, 1] and equal to any positive volume, and a timer pending exactly while loading, aimed at a settled state. |
| `PlayerModel.StepGate` | src/components/MusicPlayer.tsx:100-110 | One step of the gate: a settled state changes only into `loading`, with the timer aimed at its opposite. `loading` keeps its timer while it lasts, and it is left only for the timer's target. |
| `PlayerModel.UnmuteFallbackUnused` | src/components/MusicPlayer.tsx:148-163 | In every reachable state the remembered volume is not 0, so the `\|\| 0.55` fallback is never taken. |
| `PlayerRuns.AfterKeepsInv` | src/components/MusicPlayer.tsx:100-212 | Any sequence of events from a state satisfying the invariant ends in a state satisfying it. |
| `PlayerRuns.TimerHeldWhileLoading` | src/components/MusicPlayer.tsx:100-110 | Throughout a loading stretch entered from a settled state, the pending timer stays aimed at the opposite of that state. |
| `PlayerRuns.ExactlyOneLoading` | src/components/MusicPlayer.tsx:100-110 | Take two settled points of a run with only `loading` between them. If they are adjacent, the state is the same. Otherwise there was exactly one loading stretch, and it ended in the opposite state. So paused and playing never follow each other directly. |
| `PlayerRuns.ToggleThenFire` | src/components/MusicPlayer.tsx:100-110 | From a settled state, a toggle gives `loading`, and its timer then gives the opposite state. |
| `PlayerRuns.MuteRoundTrip` | src/components/MusicPlayer.tsx:148-168 | Mute, then any events that leave the volume unchanged (an ignored click, a drag to 0), then unmute while playing. The first click gives volume 0 and muted. The last click restores the volume from before muting and clears muted. |
| `PlayerRuns.TicksWrapAround` | src/components/MusicPlayer.tsx:119-127 | n ticks while playing keep the player playing and move the clock to (q + n) mod 900. |
| `PlayerRuns.StartPlaying` | src/components/MusicPlayer.tsx:100-110 | From mount, a toggle gives `loading`, and its timer gives `playing` at 0 s in a state satisfying the invariant. |
| `PlayerRuns.PlayForOneSecond` | src/components/MusicPlayer.tsx:100-140 | From mount: a toggle gives `loading`, the timer gives `playing`, and four ticks later the time is 1 s, the progress is 1/225 and the clock reads "0:01". |
| `PlayerRuns.MuteAndUnmuteAtDefault` | src/components/MusicPlayer.tsx:153-168 | Once playing at the starting volume, mute gives volume 0 and muted, and unmute gives 0.55 and unmuted. |
| `PlayerRuns.PointerAtHalfTrack` | src/components/MusicPlayer.tsx:202-212 | With a track 200 wide, a pointer-down at 100 while playing sets the volume to 0.5, unmuted. |
| `Player.MusicPlayer.constructor` | src/components/MusicPlayer.tsx:32-61 | Mounting yields the snapshot `Initial()` and establishes `Valid()`. |
| `Player.MusicPlayer.ProgressEffect` | src/components/MusicPlayer.tsx:138-140 | The progress field becomes the progress of the current clock. No other field changes. |
| `Player.MusicPlayer.VolumeEffect` | src/components/MusicPlayer.tsx:148-151 | The fields change exactly as `Settle` says. |
| `Player.MusicPlayer.OnToggle` | src/components/MusicPlayer.tsx:100-110 | The fields change exactly as `PlayerModel.OnToggle` says, and `Valid()` is kept. |
| `Player.MusicPlayer.FireToggleTimer` | src/components/MusicPlayer.tsx:107-109 | The fields change exactly as `PlayerModel.FireToggleTimer` says, and `Valid()` is kept. |
| `Player.MusicPlayer.Tick` | src/components/MusicPlayer.tsx:119-127 | The fields change exactly as `PlayerModel.Tick` says, and `Valid()` is kept. |
| `Player.MusicPlayer.ToggleMute` | src/components/MusicPlayer.tsx:153-168 | The fields change exactly as `PlayerModel.ToggleMute` says, and `Valid()` is kept. |
| `Player.MusicPlayer.ApplyVolumeFromX` | src/components/MusicPlayer.tsx:202-212 | The fields change exactly as `PlayerModel.ApplyVolumeFromX` says, and `Valid()` is kept. |
| `Player.MusicPlayer.PointerDown` | src/components/MusicPlayer.tsx:487-494 | The fields change exactly as `PlayerModel.PointerDown` says, and `Valid()` is kept. |
| `Player.MusicPlayer.MeasureTrack` | src/components/MusicPlayer.tsx:170-183 | The fields change exactly as `PlayerModel.MeasureTrack` says, and `Valid()` is kept. |

## Left out

- Rendering (src/components/MusicPlayer.tsx:63-98, 214-577) is not modelled. This covers the motion variants, the equalizer bars, colours, `AnimatePresence`, `IconBtn` and the hover flag `volumeHover`. It is presentational and calls into `motion/react` and `lucide-react`, which are not part of this model.
- Real timers are not modelled: the 500 ms and 250 ms delays, and the clearing of timers on state changes and unmount (lines 106-109, 113-136, 142-146). A timer firing is the explicit event `ToggleTimerFires`, and an interval firing is `IntervalTick`. An interval exists only while playing, so a tick in any other state is a no-op. Unmount is not modelled.
- The model does not cover an interval callback that the event loop delivers after the state has left `playing` but before the effect cleanup clears the interval.
- `ResizeObserver` and `getBoundingClientRect` are not modelled (lines 170-183, 489-492, 523-526). The track width and the pointer's offset into the track are inputs to the events `TrackResized` and `PointerDownAt`/`DragTo`.
- React's scheduling is not modelled. This covers batching, the `setVolume` call inside the `setMuted` updater, strict mode running updaters twice, and callbacks that read state from an earlier render. Each handler is one atomic step, followed by the effects whose dependencies it changed.
- The percentages `progressPct` and `volumePct` (lines 185-186) are not modelled. They are `Math.round` of floating-point values, used for display only.
- Floating point is not modelled. Values are exact reals, and NaN is not represented. So `!volumeTrackWidth` is modelled as width == 0, and `prevVolumeRef.current || 0.55` as "remembered volume is 0".
- Whether a drag reaches the thumb while the controls are disabled is not modelled (lines 484-485, 522-528). The drag handler has no playing check of its own; whether it runs depends on inherited CSS `pointer-events`, which is browser behaviour. `DragTo` applies the volume in every state, as the handler itself does.
- tailwind.config.ts is not modelled: it builds style tokens for a library that is not part of this model. src/app/page.tsx is not modelled either: it holds only page layout and font imports.
