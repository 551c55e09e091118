/**
 The three schedulers that feed recorded ticks to a game: the deterministic
 and the frame-driven playback of public/js/replayUtils.js and the controller
 of public/js/replayBrowserPlayer.js. Each is shown to apply the ticks in order,
 each once, with a schedule of pictures that is stated, whatever the frame times
 and whatever the user presses.
 */
module Playback {
  import opened Options
  import opened TickFold
  import opened JsNumbers

  const TARGET_FPS := 60.0
  const MAX_FRAME_DT := 1.0 / 10.0
  const SPEED_MIN := 0.25
  const SPEED_MAX := 3.0

  /** The cadence used when the caller gives no positive integer of its own. */
  function Cadence(renderEveryTicks: int, simDt: real): (c: nat)
    requires simDt > 0.0
    ensures c > 0 && (renderEveryTicks > 0 ==> c == renderEveryTicks)
  {
    if renderEveryTicks > 0 then renderEveryTicks
    else
      var rounded := (1.0 / simDt / TARGET_FPS + 0.5).Floor;
      if rounded > 1 then rounded else 1
  }

  /** Left to itself, the cadence is the number of ticks nearest to a sixtieth of a second, and at least one. */
  lemma CadenceIsNearest(simDt: real)
    requires simDt > 0.0
    ensures var c := Cadence(0, simDt) as real;
            var ticks := 1.0 / simDt / 60.0;
            (ticks - 0.5 < c <= ticks + 0.5) || (c == 1.0 && ticks < 1.5)
  {
  }

  /**
   The state `s` is reached by the first `k` ticks, in order, with `shows[j]` pictures after the first `j`;
   or the tick after them threw.
   */
  ghost predicate Reached<S, T>(m: Machine<S, T>, origin: S, ticks: seq<T>, s: Option<S>, k: nat, shows: seq<nat>) {
    && k <= |ticks| && |shows| == k + 1
    && Seen(m, Some(origin), ticks[..k], shows).Some?
    && (s.Some? ==> s == Seen(m, Some(origin), ticks[..k], shows))
    && (s.None? ==> k < |ticks| && Play(m, Some(origin), ticks[..k + 1], shows) == None)
  }

  lemma ReachedStart<S(!new), T(!new)>(m: Machine<S, T>, origin: S, ticks: seq<T>)
    ensures Reached(m, origin, ticks, Some(origin), 0, [0])
  {
    assert ticks[..0] == [] && [0][..0] == [];
  }

  lemma ReachedNext<S(!new), T(!new)>(
      m: Machine<S, T>, origin: S, ticks: seq<T>, s: Option<S>, k: nat, shows: seq<nat>)
    requires Reached(m, origin, ticks, s, k, shows) && s.Some? && k < |ticks|
    ensures var s' := m.apply(s.value, ticks[k]);
            if s'.Some? then Reached(m, origin, ticks, s', k + 1, shows + [0])
            else Reached(m, origin, ticks, s', k, shows)
  {
    PlayNext(m, Some(origin), ticks, shows, k);
    SeenFresh(m, Some(origin), ticks[..k + 1], shows);
  }

  lemma ReachedShow<S(!new), T(!new)>(
      m: Machine<S, T>, origin: S, ticks: seq<T>, s: Option<S>, k: nat, shows: seq<nat>)
    requires Reached(m, origin, ticks, s, k, shows) && s.Some?
    ensures Reached(m, origin, ticks, Some(m.render(s.value)), k, shows[k := shows[k] + 1])
  {
    SeenAgain(m, Some(origin), ticks[..k], shows);
  }

  predicate Finished<S, T>(m: Machine<S, T>, ticks: seq<T>, s: Option<S>, k: nat) {
    k == |ticks| || Stopped(m, s)
  }

  /** Having reached the end, or having stopped, is having gone through all ticks. */
  lemma FinishedIsWhole<S(!new), T(!new)>(
      m: Machine<S, T>, origin: S, ticks: seq<T>, s: Option<S>, k: nat, shows: seq<nat>)
    requires Freezes(m) && Reached(m, origin, ticks, s, k, shows) && Finished(m, ticks, s, k)
    ensures s == Seen(m, Some(origin), ticks, shows + Zeros(|ticks| - k))
  {
    if s.None? {
      var all := shows + Zeros(|ticks| - k);
      assert all[..|ticks|][..k + 1] == shows;
      ThrownStays(m, Some(origin), ticks, all[..|ticks|], k + 1);
    } else {
      StoppedOrWhole(m, origin, ticks, s, k, shows);
    }
  }

  lemma StoppedOrWhole<S(!new), T(!new)>(
      m: Machine<S, T>, origin: S, ticks: seq<T>, s: Option<S>, k: nat, shows: seq<nat>)
    requires Freezes(m) && Reached(m, origin, ticks, s, k, shows) && Finished(m, ticks, s, k) && s.Some?
    ensures s == Seen(m, Some(origin), ticks, shows + Zeros(|ticks| - k))
  {
    if k == |ticks| {
      assert ticks[..k] == ticks && shows + Zeros(0) == shows;
    } else {
      StoppedAbsorbs(m, Some(origin), ticks, shows, k);
    }
  }

  /** If no picture changes a state on the way, the schedule of pictures does not show in what is reached. */
  lemma ReachedInert<S(!new), T(!new)>(
      m: Machine<S, T>, origin: S, ticks: seq<T>, s: Option<S>, k: nat, shows: seq<nat>)
    requires Inert(m, Some(origin), ticks) && Reached(m, origin, ticks, s, k, shows)
    ensures s.Some? ==> s == Fold(m, Some(origin), ticks[..k])
    ensures s.None? ==> Fold(m, Some(origin), ticks[..k + 1]) == None
  {
    InertFront(m, Some(origin), ticks, k);
    InertSeen(m, Some(origin), ticks[..k], shows);
    if s.None? {
      InertFront(m, Some(origin), ticks, k + 1);
      InertPlay(m, Some(origin), ticks[..k + 1], shows);
    }
  }

  /** Then whatever has finished holds the fold of all ticks: all schedulers agree. */
  lemma SchedulersAgree<S(!new), T(!new)>(
      m: Machine<S, T>, origin: S, ticks: seq<T>, s: Option<S>, k: nat, shows: seq<nat>)
    requires Freezes(m) && Inert(m, Some(origin), ticks)
    requires Reached(m, origin, ticks, s, k, shows) && Finished(m, ticks, s, k)
    ensures s == Fold(m, Some(origin), ticks)
  {
    FinishedIsWhole(m, origin, ticks, s, k, shows);
    InertSeen(m, Some(origin), ticks, shows + Zeros(|ticks| - k));
  }

  /** How many pictures a schedule has. */
  function Total(shows: seq<nat>): nat {
    if shows == [] then 0 else Total(shows[..|shows| - 1]) + shows[|shows| - 1]
  }

  lemma TotalNext(shows: seq<nat>)
    ensures Total(shows + [0]) == Total(shows)
    ensures shows != [] ==> Total(shows[|shows| - 1 := shows[|shows| - 1] + 1]) == Total(shows) + 1
  {
    assert (shows + [0])[..|shows|] == shows;
    if shows != [] {
      var n := |shows| - 1;
      assert shows[n := shows[n] + 1][..n] == shows[..n];
    }
  }

  /** The pictures drawn after tick `k` before the playback is known to be over. */
  function OnCadence(k: nat, cadence: nat, always: bool): nat
    requires cadence > 0
  {
    if k > 0 && (always || k % cadence == 0) then 1 else 0
  }

  /**
   `playbackTicksDeterministic`. The game goes through all ticks; unless one throws, exactly the ticks on
   the cadence are followed by a picture and, with `renderFinal`, the last one applied.
   */
  method PlaybackTicksDeterministic<S(!new), T(!new)>(
      m: Machine<S, T>, ticks: seq<T>, origin: S, simDt: real,
      renderEveryTicks: int, always: bool, renderFinal: bool)
    returns (s: Option<S>, n: nat, shows: seq<nat>)
    requires Freezes(m) && simDt > 0.0
    ensures Reached(m, origin, ticks, s, n, shows) && Finished(m, ticks, s, n)
    ensures s.Some? ==>
      forall k: nat :: k <= n ==>
        var shown := always || k % Cadence(renderEveryTicks, simDt) == 0 || (renderFinal && k == n);
        shows[k] == if k > 0 && shown then 1 else 0
  {
    hide Reached, Freezes;
    var cadence := Cadence(renderEveryTicks, simDt);
    s, n, shows := Some(origin), 0, [0];
    ReachedStart(m, origin, ticks);
    while n < |ticks|
      invariant n <= |ticks| && |shows| == n + 1 && s.Some? && Reached(m, origin, ticks, s, n, shows)
      invariant n > 0 ==> !m.over(s.value)
      invariant forall k: nat :: k <= n ==> shows[k] == OnCadence(k, cadence, always)
    {
      ReachedNext(m, origin, ticks, s, n, shows);
      s := m.apply(s.value, ticks[n]);
      if s.None? { break; }
      n, shows := n + 1, shows + [0];
      if always || n % cadence == 0 || (renderFinal && m.over(s.value)) {
        ReachedShow(m, origin, ticks, s, n, shows);
        RenderKeepsOver(m, s.value);
        s, shows := Some(m.render(s.value)), shows[n := shows[n] + 1];
      }
      if m.over(s.value) { break; }
    }
    if s.Some? && !always && renderFinal && n > 0 && n % cadence != 0 && !m.over(s.value) {
      ReachedShow(m, origin, ticks, s, n, shows);
      RenderKeepsOver(m, s.value);
      s, shows := Some(m.render(s.value)), shows[n := shows[n] + 1];
    }
  }

  lemma RenderKeepsOver<S(!new), T(!new)>(m: Machine<S, T>, s: S)
    requires Freezes(m)
    ensures m.over(m.render(s)) == m.over(s)
  {
  }

  /** The inner loop both frame-driven drivers have: the ticks the accumulator has paid for. */
  method ApplyDueTicks<S(!new), T(!new)>(
      m: Machine<S, T>, ticks: seq<T>, ghost origin: S, tickStep: real, s0: Option<S>, i0: nat, acc0: real,
      ghost shows0: seq<nat>)
    returns (s: Option<S>, i: nat, acc: real, ghost shows: seq<nat>)
    requires s0.Some? && Reached(m, origin, ticks, s0, i0, shows0)
    ensures i0 <= i && Reached(m, origin, ticks, s, i, shows) && shows == shows0 + Zeros(i - i0)
    ensures acc + Times(i, tickStep) == acc0 + Times(i0, tickStep)
    ensures i == i0 ==> s.None? || s == s0
    ensures i == i0 < |ticks| && s.Some? ==> acc0 < tickStep
    ensures i > i0 ==> acc >= 0.0
    ensures acc < tickStep || i == |ticks| || Stopped(m, s)
  {
    s, i, acc, shows := s0, i0, acc0, shows0;
    assert shows0 + Zeros(0) == shows0;
    while i < |ticks| && acc >= tickStep
      invariant Reached(m, origin, ticks, s, i, shows) && s.Some?
      invariant i0 <= i <= |ticks| && acc + Times(i, tickStep) == acc0 + Times(i0, tickStep)
      invariant shows == shows0 + Zeros(i - i0)
      invariant i == i0 ==> s == s0
      invariant i > i0 ==> acc >= 0.0
    {
      hide Reached;
      ReachedNext(m, origin, ticks, s, i, shows);
      s := m.apply(s.value, ticks[i]);
      if s.None? { return; }
      i, shows := i + 1, shows + [0];
      assert shows == shows0 + Zeros(i - i0);
      acc := acc - tickStep;
      if m.over(s.value) { return; }
    }
  }

  /** The time one frame adds: the first frame counts as 1/60 s, later ones are clamped to [0, 1/10]. */
  function FrameDt(frames: seq<real>, k: nat): (dt: real)
    requires k < |frames|
    ensures dt >= 0.0
  {
    if k == 0 then 1.0 / TARGET_FPS else Min(MAX_FRAME_DT, Max(0.0, (frames[k] - frames[k - 1]) / 1000.0))
  }

  function Elapsed(frames: seq<real>, k: nat): real
    requires k <= |frames|
  {
    if k == 0 then 0.0 else Elapsed(frames, k - 1) + FrameDt(frames, k - 1)
  }

  /** The time of a frame: its own length when that is possible, nothing when the clock ran back, a tenth at most. */
  lemma FrameDtIs(frames: seq<real>, k: nat)
    requires 0 < k < |frames|
    ensures var gap := frames[k] - frames[k - 1];
            && (0.0 <= gap <= 100.0 ==> FrameDt(frames, k) == gap / 1000.0)
            && (gap < 0.0 ==> FrameDt(frames, k) == 0.0)
            && (gap > 100.0 ==> FrameDt(frames, k) == 0.1)
  {
  }

  /** Over frames at most a tenth of a second apart, the time elapsed is the time they span and a sixtieth. */
  lemma {:induction false} ElapsedIsSpan(frames: seq<real>, n: nat)
    requires 0 < n <= |frames|
    requires forall k :: 0 < k < n ==> 0.0 <= frames[k] - frames[k - 1] <= 100.0
    ensures Elapsed(frames, n) == (frames[n - 1] - frames[0]) / 1000.0 + 1.0 / 60.0
  {
    if n > 1 {
      ElapsedIsSpan(frames, n - 1);
      FrameDtIs(frames, n - 1);
    } else {
      assert Elapsed(frames, 0) == 0.0;
    }
  }

  lemma TotalZeros(shows: seq<nat>, n: nat)
    ensures Total(shows + Zeros(n)) == Total(shows)
  {
    if n == 0 {
      assert shows + Zeros(0) == shows;
    } else {
      TotalZeros(shows, n - 1);
      TotalNext(shows + Zeros(n - 1));
      assert shows + Zeros(n) == shows + Zeros(n - 1) + [0];
    }
  }

  /** What one frame after the first adds to the accumulator is its clamped length. */
  function FrameLength(ts: real, lastTs: real): real {
    Min(MAX_FRAME_DT, Max(0.0, (ts - lastTs) / 1000.0))
  }

  /** The first frame is given its length by dating the one before it back. */
  function BackDated(ts: real): real {
    ts - 1000.0 / TARGET_FPS
  }

  lemma FrameLengthIs(frames: seq<real>, k: nat, lastTs: real)
    requires k < |frames| && lastTs == if k == 0 then BackDated(frames[0]) else frames[k - 1]
    ensures FrameLength(frames[k], lastTs) == FrameDt(frames, k)
  {
  }

  /** `game.render()` at the end of a frame. */
  method RenderFrame<S(!new), T(!new)>(
      m: Machine<S, T>, ghost origin: S, ghost ticks: seq<T>, s0: Option<S>, ghost i: nat, ghost shows0: seq<nat>)
    returns (s: Option<S>, ghost shows: seq<nat>)
    requires Freezes(m) && Reached(m, origin, ticks, s0, i, shows0) && s0.Some?
    ensures s == Some(m.render(s0.value)) && m.over(s.value) == m.over(s0.value)
    ensures i < |shows0| && shows == shows0[i := shows0[i] + 1] && Reached(m, origin, ticks, s, i, shows)
    ensures Total(shows) == Total(shows0) + 1
  {
    ReachedShow(m, origin, ticks, s0, i, shows0);
    RenderKeepsOver(m, s0.value);
    TotalNext(shows0);
    s, shows := Some(m.render(s0.value)), shows0[i := shows0[i] + 1];
  }

  /** What every frame-driven driver does in a frame: the ticks that are paid for, and a picture unless one threw. */
  method PlayFrame<S(!new), T(!new)>(
      m: Machine<S, T>, ticks: seq<T>, ghost origin: S, tickStep: real, s0: Option<S>, i0: nat, acc0: real,
      ghost shows0: seq<nat>)
    returns (s: Option<S>, i: nat, acc: real, ghost shows: seq<nat>)
    requires Freezes(m) && s0.Some? && Reached(m, origin, ticks, s0, i0, shows0)
    ensures i0 <= i <= |ticks| && Reached(m, origin, ticks, s, i, shows)
    ensures acc + Times(i, tickStep) == acc0 + Times(i0, tickStep)
    ensures i == i0 < |ticks| && s.Some? ==> acc0 < tickStep
    ensures i > i0 ==> acc >= 0.0
    ensures acc < tickStep || Finished(m, ticks, s, i)
    ensures s.Some? ==> |shows| == i + 1 && shows[i] > 0 && Total(shows) == Total(shows0) + 1
  {
    hide Freezes, Total, Times;
    s, i, acc, shows := ApplyDueTicks(m, ticks, origin, tickStep, s0, i0, acc0, shows0);
    TotalZeros(shows0, i - i0);
    if s.Some? {
      s, shows := RenderFrame(m, origin, ticks, s, i, shows);
    }
  }

  /**
   `playbackTicks` outside the deterministic mode; `frames` are the timestamps the browser delivers,
   `used` how many of them the loop consumed. As long as it runs it has applied one tick per frame
   when capturing, and otherwise exactly as many as the elapsed frame time pays for; every frame
   draws one picture, and the last picture shows the last tick.
   */
  method PlaybackTicks<S(!new), T(!new)>(
      m: Machine<S, T>, ticks: seq<T>, origin: S, simDt: real, capture: bool, frames: seq<real>)
    returns (s: Option<S>, i: nat, used: nat, ghost shows: seq<nat>)
    requires Freezes(m)
    ensures Reached(m, origin, ticks, s, i, shows) && used <= |frames|
    ensures used < |frames| ==> Finished(m, ticks, s, i)
    ensures s.Some? ==> Total(shows) == used && (used > 0 ==> shows[i] > 0)
    ensures s.Some? && capture ==> i == used
    ensures s.Some? && !capture ==> Times(i, Max(simDt, 1.0 / 960.0)) <= Elapsed(frames, used)
    ensures i < |ticks| && !Stopped(m, s) && !capture ==> Elapsed(frames, used) < Times(i + 1, Max(simDt, 1.0 / 960.0))
    ensures s.Some? && i == |ticks| && used > 0 && !capture ==>
      Elapsed(frames, used - 1) < Times(i, Max(simDt, 1.0 / 960.0))
  {
    hide Reached, Times, Freezes, Total, BackDated, FrameLength, FrameDt;
    var tickStep := Max(simDt, 1.0 / 960.0);
    OneStepLess(0, tickStep);
    var acc := 0.0;
    var lastTs := 0.0;
    s, i, used, shows := Some(origin), 0, 0, [0];
    ReachedStart(m, origin, ticks);
    NoPictures();
    while i < |ticks| && used < |frames|
      invariant Reached(m, origin, ticks, s, i, shows) && s.Some? && used <= |frames|
      invariant i <= |ticks| && |shows| == i + 1
      invariant used > 0 ==> !m.over(s.value)
      invariant used > 0 ==> lastTs == frames[used - 1]
      invariant Total(shows) == used && (used > 0 ==> shows[i] > 0)
      invariant capture ==> i == used
      invariant !capture ==> acc == Elapsed(frames, used) - Times(i, tickStep) && acc >= 0.0
      invariant i < |ticks| ==> acc < tickStep
      invariant i == |ticks| && used > 0 && !capture ==> Elapsed(frames, used - 1) < Times(i, tickStep)
    {
      var ts := frames[used];
      if used == 0 { lastTs := BackDated(ts); }
      FrameLengthIs(frames, used, lastTs);
      var frameDt := FrameLength(ts, lastTs);
      lastTs := ts;
      acc := if capture then tickStep else acc + frameDt;
      ghost var i0, acc0 := i, if capture then 0.0 else acc - frameDt;
      ghost var given := if capture then tickStep else frameDt;
      s, i, acc, shows := PlayFrame(m, ticks, origin, tickStep, s, i, acc, shows);
      used := used + 1;
      if s.None? { break; }
      FrameCosts(i0, i, |ticks|, tickStep, acc0, acc, given);
      if m.over(s.value) { break; }
    }
    OneStepLess(i + 1, tickStep);
  }

  lemma NoPictures()
    ensures Total([0]) == 0
  {
    assert [0][..0] == [];
  }

  /** The ticks of one frame cost what the frame had; the last of all was not paid for before. */
  lemma FrameCosts(i0: nat, i: nat, n: nat, h: real, acc0: real, acc: real, given: real)
    requires h > 0.0 && i0 < n && i0 <= i <= n && acc + Times(i, h) == acc0 + given + Times(i0, h)
    requires (i > i0 ==> acc >= 0.0) && (i == i0 ==> acc0 + given < h)
    ensures acc0 + given == h ==> i == i0 + 1
    ensures i == n && acc0 < h ==> acc0 + Times(i0, h) < Times(i, h)
  {
    TimesGrows(i0, i, h);
  }

  function ClampSpeed(value: Option<real>): real {
    match value
    case None => 1.0
    case Some(v) => Max(SPEED_MIN, Min(SPEED_MAX, v))
  }

  /** The playback time a frame at `ts` earns; the first frame after a load or restart earns none. */
  function Earned(lastTs: Option<real>, ts: real, speed: real): real {
    var last := if lastTs.None? then ts else lastTs.value;
    Max(0.0, (ts - last) / 1000.0) * speed
  }

  lemma SpansAdd(a: real, b: real, c: real, speed: real)
    ensures (b - a) / 1000.0 * speed + (c - b) / 1000.0 * speed == (c - a) / 1000.0 * speed
  {
  }

  lemma EarnedIs(lastTs: Option<real>, ts: real, speed: real)
    ensures lastTs == None ==> Earned(lastTs, ts, speed) == 0.0
    ensures lastTs.Some? && ts <= lastTs.value ==> Earned(lastTs, ts, speed) == 0.0
    ensures lastTs.Some? && ts >= lastTs.value ==> Earned(lastTs, ts, speed) == (ts - lastTs.value) / 1000.0 * speed
  {
  }

  /** The timestamps come in order, the first not before `from`. */
  predicate InOrder(from: real, frames: seq<real>) {
    && (frames != [] ==> from <= frames[0])
    && forall k :: 0 < k < |frames| ==> frames[k - 1] <= frames[k]
  }

  /** What the viewer's user and browser do. A frame only fires if one was asked for. */
  datatype Press = PlayPressed | PausePressed | StepPressed | SpeedSet(value: Option<real>) | FrameFires(ts: real)

  /**
   The replay browser's controller. `pending` counts the frame callbacks handed to the browser and
   not yet fired; several may be outstanding. `origin` is the state the current pass started from,
   `shows` where its pictures were drawn.
   */
  class PlaybackController<S(!new), T(!new)> {
    const m: Machine<S, T>
    const ticks: seq<T>
    const simDt: real
    /** `game.startRun()` on top of the current state and random source, which it does not rewind. */
    const startRun: S -> Option<S>
    var s: Option<S>
    var playing: bool
    var speed: real
    var tickIndex: nat
    var acc: real
    var lastTs: Option<real>
    var pending: nat
    ghost var origin: S
    ghost var shows: seq<nat>

    /** The game has gone through the ticks before `tickIndex`, unless the next threw, and playback never stalls. */
    ghost predicate Valid()
      reads this
    {
      && Freezes(m)
      && Reached(m, origin, ticks, s, tickIndex, shows)
      && (s.Some? && playing ==> pending > 0)
    }

    predicate AtEnd()
      reads this
      requires s.Some?
    {
      tickIndex >= |ticks| || m.over(s.value)
    }

    /** `loadRun`: the first picture is drawn at once. */
    constructor LoadRun(m: Machine<S, T>, ticks: seq<T>, simDt: real, startRun: S -> Option<S>, start: S)
      requires Freezes(m)
      ensures Valid() && s == Some(m.render(start)) && origin == start && shows == [1]
      ensures tickIndex == 0 && !playing && pending == 0
      ensures this.m == m && this.ticks == ticks && this.simDt == simDt && this.startRun == startRun
    {
      this.m, this.ticks, this.simDt, this.startRun := m, ticks, simDt, startRun;
      s, origin, shows := Some(m.render(start)), start, [1];
      playing, speed, tickIndex, acc, lastTs, pending := false, 1.0, 0, 0.0, None, 0;
      ReachedStart(m, start, ticks);
      ReachedShow(m, start, ticks, Some(start), 0, [0]);
      assert [0][0 := 1] == [1];
      hide Reached, Freezes;
    }

    /** `restart`; where `startRun` throws, nothing more can be said of this pass. */
    method Restart() returns (ok: bool)
      requires Valid() && s.Some?
      modifies this`s, this`origin, this`shows, this`playing, this`tickIndex, this`acc, this`lastTs
      ensures ok == startRun(old(s).value).Some?
      ensures ok ==> Valid() && origin == startRun(old(s).value).value && s == Some(m.render(origin)) && shows == [1]
      ensures !playing && tickIndex == 0 && acc == 0.0 && lastTs == None
    {
      hide Reached;
      playing := false;
      tickIndex, acc, lastTs := 0, 0.0, None;
      var started := startRun(s.value);
      ok := started.Some?;
      if ok {
        origin := started.value;
        ReachedStart(m, origin, ticks);
        ReachedShow(m, origin, ticks, started, 0, [0]);
        assert [0][0 := 1] == [1];
        s, shows := Some(m.render(started.value)), [1];
      }
    }

    /** The next tick and a picture of it. */
    method StepOnce() returns (did: bool)
      requires Valid() && s.Some?
      modifies this`s, this`tickIndex, this`shows
      ensures Valid() && did == !old(AtEnd())
      ensures !did ==> s == old(s) && tickIndex == old(tickIndex) && shows == old(shows)
      ensures did ==>
        match m.apply(old(s).value, ticks[old(tickIndex)])
        case None => s == None && tickIndex == old(tickIndex) && shows == old(shows)
        case Some(x) => s == Some(m.render(x)) && tickIndex == old(tickIndex) + 1 && shows == old(shows) + [1]
    {
      if tickIndex >= |ticks| || m.over(s.value) { return false; }
      hide Freezes;
      ReachedNext(m, origin, ticks, s, tickIndex, shows);
      s := m.apply(s.value, ticks[tickIndex]);
      if s.Some? {
        tickIndex, shows := tickIndex + 1, shows + [0];
        ReachedShow(m, origin, ticks, s, tickIndex, shows);
        s, shows := Some(m.render(s.value)), shows[tickIndex := 1];
      }
      did := true;
    }

    /** One browser frame. A callback that fires while paused is simply spent. */
    method FrameLoop(ts: real)
      requires Valid() && s.Some? && pending > 0
      modifies this`s, this`playing, this`tickIndex, this`acc, this`lastTs, this`pending, this`shows
      ensures Valid()
      ensures !old(playing) ==> s == old(s) && !playing && tickIndex == old(tickIndex) && acc == old(acc)
                                && lastTs == old(lastTs) && pending == old(pending) - 1 && shows == old(shows)
      ensures tickIndex >= old(tickIndex)
      ensures old(playing) && s.Some? ==>
        && lastTs == Some(ts)
        && acc + Times(tickIndex, simDt) == old(acc) + Times(old(tickIndex), simDt) + Earned(old(lastTs), ts, speed)
        && (acc < simDt || AtEnd())
        && playing == !AtEnd()
        && (old(lastTs) == None ==> acc + Times(tickIndex, simDt) == old(acc) + Times(old(tickIndex), simDt))
        && (old(lastTs).Some? && ts <= old(lastTs).value ==>
              acc + Times(tickIndex, simDt) == old(acc) + Times(old(tickIndex), simDt))
        && (old(lastTs).Some? && ts >= old(lastTs).value ==>
              acc + Times(tickIndex, simDt)
              == old(acc) + Times(old(tickIndex), simDt) + (ts - old(lastTs).value) / 1000.0 * speed)
        && pending == old(pending) - 1 + (if playing then 1 else 0)
        && Total(shows) == Total(old(shows)) + 1 && |shows| == tickIndex + 1 && shows[tickIndex] > 0
    {
      hide Freezes, Total, Times, Earned, Reached;
      EarnedIs(lastTs, ts, speed);
      pending := pending - 1;
      if !playing { return; }
      var earned := Earned(lastTs, ts, speed);
      lastTs := Some(ts);
      s, tickIndex, acc, shows := PlayFrame(m, ticks, origin, simDt, s, tickIndex, acc + earned, shows);
      if s.None? { return; }
      if tickIndex >= |ticks| || m.over(s.value) {
        playing := false;
        return;
      }
      pending := pending + 1;
    }

    /** Playing from the end restarts first; playing while playing adds no callback. */
    method Play() returns (ok: bool, restarted: bool)
      requires Valid() && s.Some?
      modifies this
      ensures restarted == old(AtEnd()) && ok == (restarted ==> startRun(old(s).value).Some?)
      ensures ok ==> Valid() && s.Some? && playing && speed == old(speed)
      ensures !restarted ==> s == old(s) && tickIndex == old(tickIndex) && acc == old(acc)
                             && origin == old(origin) && shows == old(shows)
      ensures restarted && ok ==> tickIndex == 0 && origin == startRun(old(s).value).value && shows == [1]
      ensures ok ==> pending == old(pending) + (if old(playing) && !restarted then 0 else 1)
    {
      hide Reached, Freezes;
      ok, restarted := true, tickIndex >= |ticks| || m.over(s.value);
      if restarted { ok := Restart(); }
      if !ok || playing { return; }
      playing := true;
      pending := pending + 1;
    }

    method Pause()
      requires Valid()
      modifies this`playing
      ensures Valid() && !playing
    {
      playing := false;
    }

    method SetSpeed(value: Option<real>)
      requires Valid()
      modifies this`speed
      ensures Valid() && (value.None? ==> speed == 1.0)
      ensures value.Some? ==>
        speed == if value.value < 0.25 then 0.25 else if value.value > 3.0 then 3.0 else value.value
    {
      speed := ClampSpeed(value);
    }

    /**
     A stretch of frames at one speed: as long as it plays on,
       the ticks applied and the time kept are the time the frames
     span, times the speed, and what is kept is less than a tick.
     */
    method PlayStretch(frames: seq<real>) returns (went: bool)
      requires Valid() && s.Some? && playing && lastTs.Some? && acc < simDt && InOrder(lastTs.value, frames)
      modifies this`s, this`playing, this`tickIndex, this`acc, this`lastTs, this`pending, this`shows
      ensures Valid() && (went ==> s.Some? && playing && lastTs.Some? && acc < simDt)
      ensures went ==>
        acc + Times(tickIndex, simDt)
        == old(acc) + Times(old(tickIndex), simDt) + (lastTs.value - old(lastTs).value) / 1000.0 * speed
      ensures went && frames != [] ==> lastTs == Some(frames[|frames| - 1])
      ensures went && frames == [] ==> lastTs == old(lastTs)
      ensures !went ==> s.None? || !playing
    {
      hide Freezes, Reached, Times;
      went := true;
      var k := 0;
      while k < |frames| && went
        invariant k <= |frames| && Valid()
        invariant went ==> s.Some? && playing && acc < simDt && lastTs.Some?
        invariant went ==> lastTs == if k == 0 then old(lastTs) else Some(frames[k - 1])
        invariant went ==>
          acc + Times(tickIndex, simDt)
          == old(acc) + Times(old(tickIndex), simDt) + (lastTs.value - old(lastTs).value) / 1000.0 * speed
        invariant !went ==> s.None? || !playing
      {
        ghost var t0, t1 := old(lastTs).value, lastTs.value;
        FrameLoop(frames[k]);
        went := s.Some? && playing;
        SpansAdd(t0, t1, frames[k], speed);
        k := k + 1;
      }
    }

    /**
     Any interleaving of the buttons and of the frames asked for, up to the first error. As long as nobody
     presses play at the end - which starts the run over - it is one pass: the game has gone from `origin`
     through the ticks before `tickIndex`, each once and in order.
     */
    method Watch(presses: seq<Press>) returns (failed: bool, again: bool)
      requires Valid() && s.Some?
      modifies this
      ensures !failed ==> Valid()
      ensures !again ==>
        && origin == old(origin) && tickIndex >= old(tickIndex)
        && Valid() && Reached(m, origin, ticks, s, tickIndex, shows) && (failed ==> s == None)
    {
      hide Reached, Freezes;
      failed, again := false, false;
      var k := 0;
      while k < |presses| && !failed
        invariant k <= |presses| && (!failed ==> Valid() && s.Some?)
        invariant !again ==> origin == old(origin) && tickIndex >= old(tickIndex) && Valid() && (failed ==> s == None)
      {
        match presses[k] {
          case PlayPressed =>
            var ok, restarted := Play();
            failed, again := !ok, again || restarted;
          case PausePressed => Pause();
          case StepPressed =>
            var _ := StepOnce();
            failed := s.None?;
          case SpeedSet(value) => SetSpeed(value);
          case FrameFires(ts) =>
            if pending > 0 {
              FrameLoop(ts);
              failed := s.None?;
            }
        }
        k := k + 1;
      }
    }
  }
}
