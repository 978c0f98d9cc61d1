/** The `MusicPlayer` component's state held in place: one field per piece of
    React state or mutable ref, and one method per handler, timer callback or
    effect, each changing the fields step by step as the source does. Every
    method is proved to perform exactly the transition of module PlayerModel,
    so everything proved there about snapshots holds of the object. */
module Player {
  import opened Helpers
  import opened PlayerModel

  class MusicPlayer {
    var state: PlayerState
    /** The pending one-shot toggle timer, by the state it will set. */
    var toggleTimer: Option<PlayerState>
    /** `currentSec`, counted in quarter-seconds. */
    var currentQuarters: int
    var progress: real
    var volume: real
    var muted: bool
    /** `prevVolumeRef.current`. */
    var prevVolume: real
    /** `volumeTrackWidth`, the measured width of the volume track. */
    var trackWidth: real

    /** The object's fields as a snapshot. */
    function Snap(): Snapshot
      reads this
    {
      Snapshot(state, toggleTimer, currentQuarters, progress, volume, muted, prevVolume, trackWidth)
    }

    predicate Valid()
      reads this
    {
      Inv(Snap())
    }

    /** Mounting: the initial values of the state hooks and refs, then the
        mount runs of the progress effect and the volume effect. The mount-time
        measurement of the volume track is left to `MeasureTrack`. */
    constructor ()
      ensures Valid() && Snap() == Initial()
    {
      state := Paused;
      toggleTimer := None;
      currentQuarters := 0;
      progress := 0.33;
      volume := DefaultVolume;
      muted := false;
      prevVolume := DefaultVolume;
      trackWidth := 0.0;
      new;
      ProgressEffect();
      if volume > 0.0 {
        prevVolume := volume;
      }
      muted := volume == 0.0;
    }

    /** The progress effect, run after `currentSec` changes. */
    method ProgressEffect()
      modifies this
      ensures Snap() == old(Snap()).(progress := ProgressAt(currentQuarters))
    {
      progress := if DurationSeconds > 0.0
        then Clamp(Seconds(currentQuarters) / DurationSeconds, 0.0, 1.0)
        else 0.0;
    }

    /** The volume effect, run after a render in which `volume` differs from
        `volumeBefore`. */
    method VolumeEffect(volumeBefore: real)
      modifies this
      ensures Snap() == Settle(old(Snap()), volumeBefore)
    {
      if volume != volumeBefore {
        if volume > 0.0 {
          prevVolume := volume;
        }
        muted := volume == 0.0;
      }
    }

    /** `onToggle`. */
    method OnToggle()
      requires Valid()
      modifies this
      ensures Valid() && Snap() == PlayerModel.OnToggle(old(Snap()))
    {
      if state == Loading {
        return;
      }
      var next := if state == Playing then Paused else Playing;
      state := Loading;
      // clearTimeout of an earlier handle, then setTimeout(..., 500): the new
      // timer replaces whatever was pending
      toggleTimer := Some(next);
    }

    /** The 500 ms toggle timer fires. */
    method FireToggleTimer()
      requires Valid()
      modifies this
      ensures Valid() && Snap() == PlayerModel.FireToggleTimer(old(Snap()))
    {
      match toggleTimer
      case None =>
      case Some(next) =>
        state := next;
        toggleTimer := None;
    }

    /** One firing of the 250 ms interval, then the progress effect. */
    method Tick()
      requires Valid()
      modifies this
      ensures Valid() && Snap() == PlayerModel.Tick(old(Snap()))
    {
      if state != Playing {
        return;
      }
      var next := currentQuarters + 1;
      if next >= DurationQuarters {
        next := 0;
      }
      currentQuarters := next;
      ProgressEffect();
    }

    /** `toggleMute`, then the volume effect. */
    method ToggleMute()
      requires Valid()
      modifies this
      ensures Valid() && Snap() == PlayerModel.ToggleMute(old(Snap()))
    {
      if state != Playing || state == Loading {
        return;
      }
      var volumeBefore := volume;
      var next := !muted;
      if next {
        if volume > 0.0 {
          prevVolume := volume;
        }
        volume := 0.0;
      } else {
        volume := if prevVolume != 0.0 then prevVolume else DefaultVolume;
      }
      muted := next;
      VolumeEffect(volumeBefore);
    }

    /** `applyVolumeFromX(x)`, then the volume effect. */
    method ApplyVolumeFromX(x: real)
      requires Valid()
      modifies this
      ensures Valid() && Snap() == PlayerModel.ApplyVolumeFromX(old(Snap()), x)
    {
      if trackWidth == 0.0 {
        return;
      }
      var v := Clamp(x / trackWidth, 0.0, 1.0);
      var volumeBefore := volume;
      if v > 0.0 && muted {
        muted := false;
      }
      volume := v;
      VolumeEffect(volumeBefore);
    }

    /** The volume track's pointer-down handler, with the pointer's offset into
        the track. */
    method PointerDown(x: real)
      requires Valid()
      modifies this
      ensures Valid() && Snap() == PlayerModel.PointerDown(old(Snap()), x)
    {
      if state != Playing || state == Loading {
        return;
      }
      ApplyVolumeFromX(x);
    }

    /** A measurement of the volume track's width. */
    method MeasureTrack(width: real)
      requires Valid()
      modifies this
      ensures Valid() && Snap() == PlayerModel.MeasureTrack(old(Snap()), width)
    {
      trackWidth := width;
    }
  }

  /** A client run of the component: play, wait for the timer, tick four
      times, mute and unmute. What it asserts follows from the methods'
      contracts alone. */
  method PlayAndMute()
  {
    var p := new MusicPlayer();
    p.OnToggle();
    assert p.state == Loading;
    p.OnToggle();
    assert p.state == Loading && p.toggleTimer == Some(Playing);
    p.FireToggleTimer();
    assert p.state == Playing;
    p.Tick();
    p.Tick();
    p.Tick();
    p.Tick();
    assert p.currentQuarters == 4;
    p.ToggleMute();
    assert p.volume == 0.0 && p.muted;
    p.ToggleMute();
    assert p.volume == DefaultVolume && !p.muted;
  }
}
