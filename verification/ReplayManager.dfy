/** Watching the run that was just recorded (public/js/replayManager.js, `play`). */
module ReplayManager {
  import opened Options
  import opened RandomPrograms
  import opened TickFold
  import opened GameTicks
  import opened LiveRecording
  import opened Fidelity
  import opened LateFrames
  import IntroLatch
  import opened Playback

  datatype PlaybackMode = Deterministic | Realtime | Capture

  /** Only a finished run with at least one tick can be watched. */
  predicate HasReplayData<G>(s: Live<G>) {
    s.ended && s.ticks != []
  }

  /**
   A playback of the run that started from `rep` and drew `shows` pictures after each tick has got as far as
   `shown`.
   */
  ghost predicate Watched<G(!new)>(
      path: Path, gm: Game<G>, run: Live<G>, rep: Source, shown: Option<Spot<G>>, applied: nat, shows: seq<nat>)
    requires Sound(gm)
  {
    Begin(gm, rep).Some? && Reached(Replay(path, gm), Begin(gm, rep).value, run.ticks, shown, applied, shows)
  }

  /**
   `play`: pick the random source, start the run over and hand the ticks to a driver. `frames` are
   the animation frames the browser grants while a frame-driven mode runs. The deterministic mode
   always gets to the end.
   */
  method Play<G(!new)>(
      path: Path, gm: Game<G>, run: Live<G>, base: Stream, mode: PlaybackMode, frames: seq<real>,
      ghost input: Input, ghost lastTs: real, ghost events: seq<Event>)
    returns (started: bool, shown: Option<Spot<G>>, applied: nat, ghost shows: seq<nat>)
    requires Sound(gm) && FiniteCursor(input.cursor) && FiniteEvents(events)
    requires run == Run(gm, StartGame(gm, base, input, lastTs), events)
    ensures started <==> run.ended && |run.ticks| > 0
    ensures started ==> Watched(path, gm, run, ReplaySource(base, run.src.tape), shown, applied, shows)
    ensures started && mode == Deterministic ==> Finished(Replay(path, gm), run.ticks, shown, applied)
    ensures started && mode == Deterministic && shown.Some? ==> Eighths(shows, applied)
  {
    started, shown, applied, shows := HasReplayData(run), None, 0, [];
    if !started { return; }
    var src := ReplaySource(base, run.src.tape);
    ReplayFidelity(path, gm, base, input, lastTs, events);
    StartsAgain(path, gm, run, src);
    ReplayFreezes(path, gm, SIM_DT);
    hide Faithful, Reached, Freezes, Sound;
    var origin := Begin(gm, src);
    var m := Replay(path, gm);
    if mode == Deterministic {
      shown, applied, shows := PlaybackTicksDeterministic(m, run.ticks, origin.value, SIM_DT, 0, false, true);
      EveryEighthTick();
    } else {
      var used: nat;
      shown, applied, used, shows := PlaybackTicks(m, run.ticks, origin.value, SIM_DT, mode == Capture, frames);
    }
  }

  /** Pictures after every eighth tick, as far as ticks follow. */
  predicate Eighths(shows: seq<nat>, n: nat) {
    n <= |shows| && forall k :: 0 <= k < n ==> shows[k] == if k > 0 && k % 8 == 0 then 1 else 0
  }

  lemma EveryEighthTick()
    ensures Cadence(0, SIM_DT) == 8
  {
    assert 1.0 / SIM_DT / TARGET_FPS == 8.0;
  }

  lemma StartsAgain<G(!new)>(path: Path, gm: Game<G>, run: Live<G>, src: Source)
    requires Sound(gm) && Faithful(path, gm, run.ticks, run.log, run.shown, src)
    ensures Begin(gm, src) == AtMark(src, run.log[0])
  {
    assert run.ticks[..0] == [] && run.shown[..0] == [];
  }

  /**
   If no picture changes a state of the run: no playback of it ever throws, each is in the live state after
   every tick, and one that has finished is - without late frames - where the live run ended, every draw repeated.
   */
  lemma QuietRunIsWatched<G(!new)>(
      path: Path, gm: Game<G>, base: Stream, input: Input, lastTs: real, events: seq<Event>,
      shown: Option<Spot<G>>, applied: nat, shows: seq<nat>)
    requires Sound(gm) && FiniteCursor(input.cursor) && FiniteEvents(events)
    ensures var run := Run(gm, StartGame(gm, base, input, lastTs), events);
            QuietRun(gm, run.log) && Watched(path, gm, run, ReplaySource(base, run.src.tape), shown, applied, shows) ==>
              && applied < |run.log|
              && shown == AtMark(ReplaySource(base, run.src.tape), run.log[applied])
              && (NoLateFrame(gm, StartGame(gm, base, input, lastTs), events) ==>
                    Finished(Replay(path, gm), run.ticks, shown, applied) ==> shown == LiveEnd(run, base))
  {
    WatchedIsLive(path, gm, base, input, lastTs, events, shown, applied, shows);
    if NoLateFrame(gm, StartGame(gm, base, input, lastTs), events) {
      FinishedIsLiveEnd(path, gm, base, input, lastTs, events, shown, applied, shows);
    }
  }

  lemma WatchedIsLive<G(!new)>(
      path: Path, gm: Game<G>, base: Stream, input: Input, lastTs: real, events: seq<Event>,
      shown: Option<Spot<G>>, applied: nat, shows: seq<nat>)
    requires Sound(gm) && FiniteCursor(input.cursor) && FiniteEvents(events)
    ensures var run := Run(gm, StartGame(gm, base, input, lastTs), events);
            QuietRun(gm, run.log) && Watched(path, gm, run, ReplaySource(base, run.src.tape), shown, applied, shows) ==>
              applied < |run.log| && shown == AtMark(ReplaySource(base, run.src.tape), run.log[applied])
  {
    var run := Run(gm, StartGame(gm, base, input, lastTs), events);
    var src := ReplaySource(base, run.src.tape);
    var m, start := Replay(path, gm), Begin(gm, src);
    ReplayFidelity(path, gm, base, input, lastTs, events);
    if QuietRun(gm, run.log) && Watched(path, gm, run, src, shown, applied, shows) {
      QuietIsInert(path, gm, run.ticks, run.log, run.shown, src);
      ReachedInert(m, start.value, run.ticks, shown, applied, shows);
      QuietFold(path, gm, run.ticks, run.log, run.shown, src, applied);
      if shown.None? {
        QuietFold(path, gm, run.ticks, run.log, run.shown, src, applied + 1);
      }
    }
  }

  lemma FinishedIsLiveEnd<G(!new)>(
      path: Path, gm: Game<G>, base: Stream, input: Input, lastTs: real, events: seq<Event>,
      shown: Option<Spot<G>>, applied: nat, shows: seq<nat>)
    requires Sound(gm) && FiniteCursor(input.cursor) && FiniteEvents(events)
    requires NoLateFrame(gm, StartGame(gm, base, input, lastTs), events)
    ensures var run := Run(gm, StartGame(gm, base, input, lastTs), events);
            QuietRun(gm, run.log) && Watched(path, gm, run, ReplaySource(base, run.src.tape), shown, applied, shows) ==>
              Finished(Replay(path, gm), run.ticks, shown, applied) ==> shown == LiveEnd(run, base)
  {
    var run := Run(gm, StartGame(gm, base, input, lastTs), events);
    var src := ReplaySource(base, run.src.tape);
    var m, start := Replay(path, gm), Begin(gm, src);
    ReplayFidelity(path, gm, base, input, lastTs, events);
    if QuietRun(gm, run.log) && Watched(path, gm, run, src, shown, applied, shows)
       && Finished(m, run.ticks, shown, applied) {
      QuietIsInert(path, gm, run.ticks, run.log, run.shown, src);
      ReplayFreezes(path, gm, SIM_DT);
      SchedulersAgree(m, start.value, run.ticks, shown, applied, shows);
      TapeExactlyExhausted(path, gm, base, input, lastTs, events);
      InertSeen(m, start, run.ticks, run.shown);
    }
  }

  /** For a game with the intro latch that is so for every run in which `introScore` was not reached. */
  lemma BelowIntroIsWatched<G(!new)>(
      path: Path, gm: Game<G>, l: IntroLatch.Latch<G>, base: Stream, input: Input, lastTs: real, events: seq<Event>,
      shown: Option<Spot<G>>, applied: nat, shows: seq<nat>)
    requires Sound(gm) && FiniteCursor(input.cursor) && FiniteEvents(events) && IntroLatch.Latches(gm, l)
    ensures var run := Run(gm, StartGame(gm, base, input, lastTs), events);
            && IntroLatch.BelowIntro(l, run.log)
            && Watched(path, gm, run, ReplaySource(base, run.src.tape), shown, applied, shows) ==>
              && applied < |run.log|
              && shown == AtMark(ReplaySource(base, run.src.tape), run.log[applied])
              && (NoLateFrame(gm, StartGame(gm, base, input, lastTs), events) ==>
                    Finished(Replay(path, gm), run.ticks, shown, applied) ==> shown == LiveEnd(run, base))
  {
    var run := Run(gm, StartGame(gm, base, input, lastTs), events);
    var src := ReplaySource(base, run.src.tape);
    ReplayFidelity(path, gm, base, input, lastTs, events);
    IntroLatch.QuietIff(path, gm, l, run.ticks, run.log, run.shown, src);
    QuietRunIsWatched(path, gm, base, input, lastTs, events, shown, applied, shows);
  }

  /**
   And past `introScore`: whatever pictures a playback draws, it is in the live state after each of the ticks if and
   only if, wherever the offset was due and a tick followed, it draws a picture just if the live run did.
   */
  lemma PlaybackFollowsIff<G(!new)>(
      path: Path, gm: Game<G>, l: IntroLatch.Latch<G>, base: Stream, input: Input, lastTs: real, events: seq<Event>,
      shows: seq<nat>, applied: nat)
    requires Sound(gm) && FiniteCursor(input.cursor) && FiniteEvents(events) && IntroLatch.Latches(gm, l)
    ensures var run := Run(gm, StartGame(gm, base, input, lastTs), events);
            && |run.log| == |run.shown| == |run.ticks| + 1
            && (applied <= |run.ticks| && applied <= |shows| ==>
                  (IntroLatch.Follows(path, gm, run.ticks, run.log, ReplaySource(base, run.src.tape), shows, applied)
                   <==> IntroLatch.LikeLive(l, run.log, run.shown, shows, applied)))
  {
    var run := Run(gm, StartGame(gm, base, input, lastTs), events);
    var src := ReplaySource(base, run.src.tape);
    ReplayFidelity(path, gm, base, input, lastTs, events);
    if applied <= |run.ticks| && applied <= |shows| {
      IntroLatch.FollowsIff(path, gm, l, run.ticks, run.log, run.shown, src, shows, applied);
    }
  }

  /** For the deterministic playback: if and only if the live run drew a picture there just after every eighth tick. */
  lemma DeterministicFollowsIff<G(!new)>(
      path: Path, gm: Game<G>, l: IntroLatch.Latch<G>, base: Stream, input: Input, lastTs: real, events: seq<Event>,
      shows: seq<nat>, applied: nat)
    requires Sound(gm) && FiniteCursor(input.cursor) && FiniteEvents(events) && IntroLatch.Latches(gm, l)
    requires Eighths(shows, applied)
    ensures var run := Run(gm, StartGame(gm, base, input, lastTs), events);
            && |run.log| == |run.shown| == |run.ticks| + 1
            && (applied <= |run.ticks| ==>
                  (IntroLatch.Follows(path, gm, run.ticks, run.log, ReplaySource(base, run.src.tape), shows, applied)
                   <==> forall j :: 0 <= j < applied && IntroLatch.Due(l, run.log[j].g) ==>
                          (run.shown[j] > 0 <==> j > 0 && j % 8 == 0)))
  {
    PlaybackFollowsIff(path, gm, l, base, input, lastTs, events, shows, applied);
  }
}
