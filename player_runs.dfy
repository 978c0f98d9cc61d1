/** Properties of whole runs of the player: sequences of events applied one
    after the other from some snapshot. The snapshot after the first k events
    of a run is `At(s, evs, k)`. */
module PlayerRuns {
  import opened Helpers
  import opened PlayerModel

  /** The snapshot after every event of `evs`, in order, starting from `s`. */
  function After(s: Snapshot, evs: seq<Event>): Snapshot
    decreases |evs|
  {
    if evs == [] then s else Step(After(s, evs[..|evs| - 1]), evs[|evs| - 1])
  }

  /** The snapshot after the first k events of a run. */
  function At(s: Snapshot, evs: seq<Event>, k: nat): Snapshot
    requires k <= |evs|
  {
    After(s, evs[..k])
  }

  /** A run starts at its first snapshot and moves one step per event. */
  lemma AtStep(s: Snapshot, evs: seq<Event>, k: nat)
    requires k < |evs|
    ensures At(s, evs, 0) == s
    ensures At(s, evs, k + 1) == Step(At(s, evs, k), evs[k])
  {
    assert evs[..0] == [];
    assert evs[..k + 1][..k] == evs[..k];
  }

  /** A run from a snapshot that keeps the invariant keeps it throughout. */
  lemma {:induction false} AfterKeepsInv(s: Snapshot, evs: seq<Event>)
    requires Inv(s)
    ensures Inv(After(s, evs))
    decreases |evs|
  {
    if evs != [] {
      AfterKeepsInv(s, evs[..|evs| - 1]);
      StepKeepsInv(After(s, evs[..|evs| - 1]), evs[|evs| - 1]);
    }
  }

  /** Along a loading stretch that starts with the step out of a settled
      snapshot i, the pending timer stays aimed at the opposite of snapshot i's
      state. */
  lemma {:induction false} TimerHeldWhileLoading(s: Snapshot, evs: seq<Event>, i: nat, k: nat)
    requires Inv(s)
    requires i < k <= |evs|
    requires At(s, evs, i).state != Loading
    requires forall j :: i < j <= k ==> At(s, evs, j).state == Loading
    ensures At(s, evs, k).toggleTimer == Some(Opposite(At(s, evs, i).state))
    decreases k
  {
    var prev, cur := At(s, evs, k - 1), At(s, evs, k);
    AtStep(s, evs, k - 1);
    AfterKeepsInv(s, evs[..k - 1]);
    StepGate(prev, evs[k - 1]);
    assert cur.state == Loading;
    if k > i + 1 {
      assert prev.state == Loading;
      TimerHeldWhileLoading(s, evs, i, k - 1);
    }
  }

  /** The transition gate over a whole run: between two settled snapshots
      i < j with only `loading` between them, either nothing happened (j = i + 1
      and the state is the same) or there was exactly one loading stretch and it
      ended in the opposite state. In particular paused and playing never
      follow each other directly. */
  lemma ExactlyOneLoading(s: Snapshot, evs: seq<Event>, i: nat, j: nat)
    requires Inv(s)
    requires i < j <= |evs|
    requires At(s, evs, i).state != Loading && At(s, evs, j).state != Loading
    requires forall k :: i < k < j ==> At(s, evs, k).state == Loading
    ensures j == i + 1 ==> At(s, evs, j).state == At(s, evs, i).state
    ensures j > i + 1 ==> At(s, evs, j).state == Opposite(At(s, evs, i).state)
  {
    AtStep(s, evs, j - 1);
    AfterKeepsInv(s, evs[..j - 1]);
    StepGate(At(s, evs, j - 1), evs[j - 1]);
    if j > i + 1 {
      TimerHeldWhileLoading(s, evs, i, j - 1);
    }
  }

  /** A toggle from a settled state followed by its timer lands in the opposite
      state, passing through `loading` once. */
  lemma ToggleThenFire(s: Snapshot)
    requires Inv(s) && s.state != Loading
    ensures OnToggle(s).state == Loading
    ensures FireToggleTimer(OnToggle(s)).state == Opposite(s.state)
    ensures FireToggleTimer(OnToggle(s)).state != s.state
  {
  }

  /** Mute, then any events that leave the volume unchanged (such as a click
      ignored while paused, or a drag to 0), then unmute while playing: the
      volume before muting is back and the player is unmuted. */
  lemma MuteRoundTrip(s: Snapshot, evs: seq<Event>)
    requires Inv(s) && s.state == Playing && !s.muted
    requires |evs| >= 2 && evs[0] == MuteClick && evs[|evs| - 1] == MuteClick
    requires forall k :: 1 <= k < |evs| - 1 ==> At(s, evs, k + 1).volume == At(s, evs, k).volume
    requires At(s, evs, |evs| - 1).state == Playing
    ensures At(s, evs, 1).volume == 0.0 && At(s, evs, 1).muted
    ensures After(s, evs).volume == s.volume && !After(s, evs).muted
  {
    AtStep(s, evs, 0);
    var k := 1;
    while k < |evs| - 1
      invariant 1 <= k <= |evs| - 1
      invariant Inv(At(s, evs, k))
      invariant At(s, evs, k).volume == 0.0 && At(s, evs, k).prevVolume == s.volume
    {
      AtStep(s, evs, k);
      StepKeepsInv(At(s, evs, k), evs[k]);
      k := k + 1;
    }
    AtStep(s, evs, |evs| - 1);
    assert evs[..|evs|] == evs;
  }

  /** Interval ticks while playing move the clock one quarter-second each,
      modulo the duration. */
  lemma {:induction false} TicksWrapAround(s: Snapshot, evs: seq<Event>)
    requires Inv(s) && s.state == Playing
    requires forall k :: 0 <= k < |evs| ==> evs[k] == IntervalTick
    ensures After(s, evs).state == Playing
    ensures After(s, evs).quarters == (s.quarters + |evs|) % DurationQuarters
    decreases |evs|
  {
    if evs != [] {
      var front := evs[..|evs| - 1];
      TicksWrapAround(s, front);
      AfterKeepsInv(s, front);
      assert evs[|evs| - 1] == IntervalTick;
      WrapStep(s.quarters + |front|);
    }
  }

  /** One more step of the clock modulo the duration. */
  lemma WrapStep(a: nat)
    ensures (a % DurationQuarters + 1) % DurationQuarters == (a + 1) % DurationQuarters
  {
    var q, r := a / DurationQuarters, a % DurationQuarters;
    if r + 1 < DurationQuarters {
      assert a + 1 == DurationQuarters * q + (r + 1);
    } else {
      assert a + 1 == DurationQuarters * (q + 1);
    }
  }

  /** From the mounted player, a toggle starts loading and its timer starts
      playback at 0 s. */
  lemma StartPlaying()
    ensures After(Initial(), [Toggle]).state == Loading
    ensures var p := After(Initial(), [Toggle, ToggleTimerFires]);
      Inv(p) && p.state == Playing && p.quarters == 0
  {
    var s := Initial();
    assert [Toggle][..0] == [] && [Toggle, ToggleTimerFires][..1] == [Toggle];
    var loading := After(s, [Toggle]);
    assert loading == OnToggle(s);
    assert After(s, [Toggle, ToggleTimerFires]) == FireToggleTimer(loading);
    AfterKeepsInv(s, [Toggle, ToggleTimerFires]);
  }

  /** Play from the mounted player, then four ticks: after the toggle the
      player is loading, after the timer it plays, and one second later the
      clock shows 1 s, the progress is 1/225 and the time reads "0:01".
      The run is a parameter fixed by the precondition rather than a literal in
      the contract: a literal run lets the verifier unfold `After` over it
      eagerly, which makes the proof far more expensive. */
  lemma PlayForOneSecond(evs: seq<Event>)
    requires evs == [Toggle, ToggleTimerFires, IntervalTick, IntervalTick, IntervalTick, IntervalTick]
    ensures At(Initial(), evs, 1).state == Loading
    ensures At(Initial(), evs, 2).state == Playing
    ensures Seconds(After(Initial(), evs).quarters) == 1.0
    ensures After(Initial(), evs).progress == 1.0 / 225.0
    ensures FormatTime(Seconds(After(Initial(), evs).quarters)) == "0:01"
  {
    var s := Initial();
    var start, ticks := evs[..2], evs[2..];
    assert evs[..1] == [Toggle] && start == [Toggle, ToggleTimerFires];
    StartPlaying();
    var playing := After(s, start);
    assert playing.quarters == 0 && |ticks| == 4;
    assert forall k :: 0 <= k < |ticks| ==> ticks[k] == IntervalTick;
    TicksWrapAround(playing, ticks);
    AfterConcat(s, start, ticks);
    assert start + ticks == evs;
    var r := After(s, evs);
    assert r.quarters == 4;
    AfterKeepsInv(s, evs);
    OneSecond();
  }

  /** The clock reading four quarter-seconds in: 1 s, progress 1/225, "0:01". */
  lemma OneSecond()
    ensures Seconds(4) == 1.0
    ensures ProgressAt(4) == 1.0 / 225.0
    ensures FormatTime(1.0) == "0:01"
  {
    assert ProgressAt(4) == 1.0 / 225.0 by {
      assert Clamp(1.0 / 225.0, 0.0, 1.0) == 1.0 / 225.0;
    }
    assert FormatTime(1.0) == "0:01" by {
      assert WholeSeconds(1.0) == 1 by { assert (1.0).Floor == 1; }
      ClockTextOfOne();
    }
  }

  /** Running two sequences of events one after the other is running their
      concatenation. */
  lemma {:induction false} AfterConcat(s: Snapshot, a: seq<Event>, b: seq<Event>)
    ensures After(After(s, a), b) == After(s, a + b)
    decreases |b|
  {
    if b == [] {
      assert a + b == a;
    } else {
      var b' := b[..|b| - 1];
      AfterConcat(s, a, b');
      assert (a + b)[..|a + b| - 1] == a + b';
    }
  }

  /** Mute and unmute at the starting volume 0.55, once playing. */
  lemma MuteAndUnmuteAtDefault()
    ensures var evs := [Toggle, ToggleTimerFires, MuteClick, MuteClick];
      && At(Initial(), evs, 3).volume == 0.0 && At(Initial(), evs, 3).muted
      && After(Initial(), evs).volume == 0.55 && !After(Initial(), evs).muted
  {
    var evs := [Toggle, ToggleTimerFires, MuteClick, MuteClick];
    var s := Initial();
    AtStep(s, evs, 0);
    AtStep(s, evs, 1);
    AtStep(s, evs, 2);
    AtStep(s, evs, 3);
    assert evs[..4] == evs;
  }

  /** With a measured track 200 wide, a pointer-down at offset 100 while playing
      sets the volume to one half. */
  lemma PointerAtHalfTrack()
    ensures var evs := [TrackResized(200.0), Toggle, ToggleTimerFires, PointerDownAt(100.0)];
      After(Initial(), evs).volume == 0.5 && !After(Initial(), evs).muted
  {
    var evs := [TrackResized(200.0), Toggle, ToggleTimerFires, PointerDownAt(100.0)];
    var s := Initial();
    AtStep(s, evs, 0);
    AtStep(s, evs, 1);
    AtStep(s, evs, 2);
    AtStep(s, evs, 3);
    assert evs[..4] == evs;
  }
}
