/**
 When a replay uses the tape up and ends where the live run ended: exactly if no
 frame advanced a run that had been marked ended while it was still being played.
 */
module LateFrames {
  import opened Options
  import opened RandomPrograms
  import opened TickFold
  import opened GameTicks
  import opened Modes
  import opened LiveRecording
  import opened Fidelity

  /** A frame at `ts` would play a tick that is not recorded. */
  predicate OwesLateTick<G>(gm: Game<G>, s: Live<G>, ts: real) {
    s.ended && gm.mode(s.g) == Playing && AddFrame(s, ts).acc >= SIM_DT
  }

  ghost predicate NoLateFrame<G(!new)>(gm: Game<G>, s: Live<G>, events: seq<Event>)
    requires Wf(gm, s)
  {
    forall k :: 0 <= k < |events| ==> OnTime(gm, s, events, k)
  }

  /** Event `k` is no frame that owes a late tick. */
  ghost predicate OnTime<G(!new)>(gm: Game<G>, s: Live<G>, events: seq<Event>, k: nat)
    requires Wf(gm, s) && k < |events|
  {
    events[k].Frame? ==> !OwesLateTick(gm, Run(gm, s, events[..k]), events[k].ts)
  }

  // ---- without a late frame the run stays at its last mark ----

  /** Outside PLAY a tick changes neither the game nor the tape. */
  lemma IdleTick<G(!new)>(gm: Game<G>, s: Live<G>)
    requires Wf(gm, s) && !Recorded(gm, s) && gm.mode(s.g) != Playing
    ensures LiveTick(gm, s).g == s.g && LiveTick(gm, s).src == s.src
  {
  }

  lemma {:induction false} DrainCurrent<G(!new)>(gm: Game<G>, s: Live<G>)
    requires Wf(gm, s) && Current(gm, s)
    requires s.ended && gm.mode(s.g) == Playing ==> s.acc < SIM_DT
    ensures Current(gm, DrainAcc(gm, s)) && DrainAcc(gm, s).ended == s.ended
    decreases TicksDue(s.acc)
  {
    if s.acc >= SIM_DT {
      if !Recorded(gm, s) {
        IdleTick(gm, s);
      }
      if gm.mode(LiveTick(gm, s).g) != Over {
        DrainCurrent(gm, LiveTick(gm, s));
      }
    }
  }

  lemma PictureCurrent<G(!new)>(gm: Game<G>, s: Live<G>)
    requires Wf(gm, s) && Current(gm, s)
    ensures Current(gm, Picture(gm, s))
  {
  }

  lemma StepCurrent<G(!new)>(gm: Game<G>, s: Live<G>, ev: Event)
    requires Wf(gm, s) && Current(gm, s) && (ev.Frame? ==> !OwesLateTick(gm, s, ev.ts))
    ensures Current(gm, Step(gm, s, ev))
  {
    if ev.Frame? {
      DrainCurrent(gm, AddFrame(s, ev.ts));
      PictureCurrent(gm, DrainAcc(gm, AddFrame(s, ev.ts)));
    }
  }

  lemma OnTimeFront<G(!new)>(gm: Game<G>, s: Live<G>, events: seq<Event>, n: nat, k: nat)
    requires Wf(gm, s) && k < n <= |events|
    ensures OnTime(gm, s, events[..n], k) == OnTime(gm, s, events, k)
  {
    assert events[..n][..k] == events[..k];
  }

  lemma NoLateFront<G(!new)>(gm: Game<G>, s: Live<G>, events: seq<Event>)
    requires Wf(gm, s) && events != []
    ensures NoLateFrame(gm, s, events) <==>
              NoLateFrame(gm, s, events[..|events| - 1]) && OnTime(gm, s, events, |events| - 1)
  {
    hide Wf, OnTime;
    var n := |events| - 1;
    if NoLateFrame(gm, s, events) {
      forall k | 0 <= k < n
        ensures OnTime(gm, s, events[..n], k)
      {
        OnTimeFront(gm, s, events, n, k);
      }
    }
    if NoLateFrame(gm, s, events[..n]) && OnTime(gm, s, events, n) {
      forall k | 0 <= k <= n
        ensures OnTime(gm, s, events, k)
      {
        if k < n {
          OnTimeFront(gm, s, events, n, k);
        }
      }
    }
  }

  lemma {:induction false} RunCurrent<G(!new)>(gm: Game<G>, s: Live<G>, events: seq<Event>)
    requires Wf(gm, s) && Current(gm, s) && NoLateFrame(gm, s, events)
    ensures Current(gm, Run(gm, s, events))
  {
    if events != [] {
      NoLateFront(gm, s, events);
      RunCurrent(gm, s, events[..|events| - 1]);
      StepCurrent(gm, Run(gm, s, events[..|events| - 1]), events[|events| - 1]);
    }
  }

  // ---- with one it runs away from it ----

  function AtLeast<G>(clock: G -> real, c: real): G -> bool {
    (g: G) => clock(g) >= c
  }

  function MoreThan<G>(clock: G -> real, c: real): G -> bool {
    (g: G) => clock(g) > c
  }

  /**
   Every tick in PLAY leaves a trace: it makes a draw, or moves a clock that no picture touches and
   nothing sets back. (The game's own clock, `timeAlive`, is one.)
   */
  ghost predicate LeavesTraces<G(!new)>(gm: Game<G>, clock: G -> real)
    requires Sound(gm)
  {
    && (forall g :: clock(gm.render(g)) == clock(g))
    && (forall g, i :: gm.mode(g) == Playing ==>
          && Always(gm.play(g, i, SIM_DT), AtLeast(clock, clock(g)))
          && (gm.play(g, i, SIM_DT).Draw? || Always(gm.play(g, i, SIM_DT), MoreThan(clock, clock(g)))))
  }

  function Progress<G>(clock: G -> real, g: G, drawn: nat): real {
    clock(g) + drawn as real
  }

  /** The run is marked ended and has gone further than its last mark. */
  ghost predicate Ahead<G(!new)>(gm: Game<G>, clock: G -> real, s: Live<G>)
    requires Wf(gm, s)
  {
    s.ended && Progress(clock, s.g, |s.src.tape|) > Progress(clock, LastMark(s).g, LastMark(s).drawn)
  }

  lemma {:induction false} PicturesKeepClock<G(!new)>(gm: Game<G>, clock: G -> real, g: G, n: nat)
    requires Sound(gm) && LeavesTraces(gm, clock)
    ensures clock(Pictures(gm, g, n)) == clock(g)
  {
    if n > 0 { PicturesKeepClock(gm, clock, g, n - 1); }
  }

  /** A tick of an ended run: never back, and forward if it is played. */
  lemma EndedTick<G(!new)>(gm: Game<G>, clock: G -> real, s: Live<G>)
    requires Wf(gm, s) && LeavesTraces(gm, clock) && s.ended
    ensures var s' := LiveTick(gm, s);
            && s'.ended && s'.log == s.log
            && Progress(clock, s'.g, |s'.src.tape|) >= Progress(clock, s.g, |s.src.tape|)
            && (gm.mode(s.g) == Playing ==> Progress(clock, s'.g, |s'.src.tape|) > Progress(clock, s.g, |s.src.tape|))
  {
    if gm.mode(s.g) == Playing {
      var p := gm.play(s.g, s.input, SIM_DT);
      DrawLengthensTape(p, s.src);
      AlwaysHolds(p, AtLeast(clock, clock(s.g)), s.src);
      if !p.Draw? {
        AlwaysHolds(p, MoreThan(clock, clock(s.g)), s.src);
      }
    } else {
      IdleTick(gm, s);
    }
  }

  lemma {:induction false} DrainEnded<G(!new)>(gm: Game<G>, clock: G -> real, s: Live<G>)
    requires Wf(gm, s) && LeavesTraces(gm, clock) && s.ended
    ensures var s' := DrainAcc(gm, s);
            && s'.ended && s'.log == s.log
            && Progress(clock, s'.g, |s'.src.tape|) >= Progress(clock, s.g, |s.src.tape|)
            && (gm.mode(s.g) == Playing && s.acc >= SIM_DT ==>
                  Progress(clock, s'.g, |s'.src.tape|) > Progress(clock, s.g, |s.src.tape|))
    decreases TicksDue(s.acc)
  {
    if s.acc >= SIM_DT {
      EndedTick(gm, clock, s);
      if gm.mode(LiveTick(gm, s).g) != Over {
        DrainEnded(gm, clock, LiveTick(gm, s));
      }
    }
  }

  lemma StepAhead<G(!new)>(gm: Game<G>, clock: G -> real, s: Live<G>, ev: Event)
    requires Wf(gm, s) && LeavesTraces(gm, clock)
    requires Ahead(gm, clock, s) || (Current(gm, s) && ev.Frame? && OwesLateTick(gm, s, ev.ts))
    ensures Ahead(gm, clock, Step(gm, s, ev))
  {
    if !Ahead(gm, clock, s) {
      PicturesKeepClock(gm, clock, LastMark(s).g, s.shown[|s.shown| - 1]);
    }
    if ev.Frame? {
      DrainEnded(gm, clock, AddFrame(s, ev.ts));
    }
  }

  lemma {:induction false} RunAhead<G(!new)>(gm: Game<G>, clock: G -> real, s: Live<G>, events: seq<Event>)
    requires Wf(gm, s) && LeavesTraces(gm, clock) && Current(gm, s) && !NoLateFrame(gm, s, events)
    ensures Ahead(gm, clock, Run(gm, s, events))
  {
    if events != [] {
      var front, last := events[..|events| - 1], events[|events| - 1];
      NoLateFront(gm, s, events);
      if NoLateFrame(gm, s, front) {
        RunCurrent(gm, s, front);
      } else {
        RunAhead(gm, clock, s, front);
      }
      StepAhead(gm, clock, Run(gm, s, front), last);
    }
  }

  lemma AheadIsElsewhere<G(!new)>(gm: Game<G>, clock: G -> real, s: Live<G>, rep: Source)
    requires Wf(gm, s) && LeavesTraces(gm, clock) && Ahead(gm, clock, s) && !rep.Recorder?
    ensures Spot(s.g, After(rep, |s.src.tape|))
              != Spot(Pictures(gm, LastMark(s).g, s.shown[|s.shown| - 1]), After(rep, LastMark(s).drawn))
  {
    PicturesKeepClock(gm, clock, LastMark(s).g, s.shown[|s.shown| - 1]);
  }

  // ---- the theorems ----

  /** Where the live run ended: its state, and the random source with every one of its draws made. */
  function LiveEnd<G>(s: Live<G>, base: Stream): Option<Spot<G>>
    requires s.src.Recorder?
  {
    Some(Spot(s.g, After(ReplaySource(base, s.src.tape), |s.src.tape|)))
  }

  /** The whole replay, with the live pictures. */
  function WholeReplay<G(!new)>(path: Path, gm: Game<G>, s: Live<G>, base: Stream): Option<Spot<G>>
    requires Sound(gm) && s.src.Recorder? && |s.shown| == |s.ticks| + 1
  {
    Seen(Replay(path, gm), Begin(gm, ReplaySource(base, s.src.tape)), s.ticks, s.shown)
  }

  /** Without a late frame the whole replay ends in the live state with the tape exactly used up. */
  lemma TapeExactlyExhausted<G(!new)>(
      path: Path, gm: Game<G>, base: Stream, input: Input, lastTs: real, events: seq<Event>)
    requires Sound(gm) && FiniteCursor(input.cursor) && FiniteEvents(events)
    requires NoLateFrame(gm, StartGame(gm, base, input, lastTs), events)
    ensures var s := Run(gm, StartGame(gm, base, input, lastTs), events);
            |s.shown| == |s.ticks| + 1 && WholeReplay(path, gm, s, base) == LiveEnd(s, base)
  {
    var s0 := StartGame(gm, base, input, lastTs);
    var s := Run(gm, s0, events);
    ReplayFidelity(path, gm, base, input, lastTs, events);
    RunCurrent(gm, s0, events);
    FaithfulSeen(path, gm, s.ticks, s.log, s.shown, ReplaySource(base, s.src.tape));
  }

  /**
   The exact condition: for every game whose played ticks leave traces, the replay ends where the live
   run ended, with the tape exactly used up, if and only if no frame found the run ended, in PLAY and owing a tick.
   */
  lemma TapeExhaustedIff<G(!new)>(
      path: Path, gm: Game<G>, clock: G -> real, base: Stream, input: Input, lastTs: real, events: seq<Event>)
    requires Sound(gm) && FiniteCursor(input.cursor) && FiniteEvents(events) && LeavesTraces(gm, clock)
    ensures var s := Run(gm, StartGame(gm, base, input, lastTs), events);
            && |s.shown| == |s.ticks| + 1
            && (WholeReplay(path, gm, s, base) == LiveEnd(s, base) <==>
                NoLateFrame(gm, StartGame(gm, base, input, lastTs), events))
  {
    var s0 := StartGame(gm, base, input, lastTs);
    var s := Run(gm, s0, events);
    var rep := ReplaySource(base, s.src.tape);
    ReplayFidelity(path, gm, base, input, lastTs, events);
    FaithfulSeen(path, gm, s.ticks, s.log, s.shown, rep);
    if NoLateFrame(gm, s0, events) {
      TapeExactlyExhausted(path, gm, base, input, lastTs, events);
    } else {
      RunAhead(gm, clock, s0, events);
      AheadIsElsewhere(gm, clock, s, rep);
    }
  }

  // A game that draws one number per tick and never ends.
  function Dicer(): Game<real> {
    Game(Done(0.0), g => Playing, (g, id, i) => Done(g), (g, i, dt) => Draw(0, r => Done(r)), g => g)
  }

  /**
   Late frames do happen: `markEnded` waits for the network in `onGameOver`, and when it lands on a run
   that is already being played the rest of that run draws without being recorded.
   */
  lemma EarlyFinishLeavesTape(base: Stream)
    ensures Sound(Dicer()) && LeavesTraces(Dicer(), (g: real) => 0.0)
    ensures var s := Run(Dicer(), StartGame(Dicer(), base, Input(Move(0, 0), ORIGIN), 0.0),
                         [Finish, Frame(1000.0 / 480.0)]);
            s.ticks == [] && |s.src.tape| == 1 && |s.log| == 1
  {
    var gm := Dicer();
    var s0 := StartGame(gm, base, Input(Move(0, 0), ORIGIN), 0.0);
    var events := [Finish, Frame(1000.0 / 480.0)];
    assert events[..1] == [Finish] && events[..1][..0] == [];
    var s1 := Run(gm, s0, [Finish]);
    assert [Finish][..0] == [];
    assert Run(gm, s0, []) == s0;
    assert s1 == Step(gm, s0, Finish);
    var s2 := s1.(acc := SIM_DT, lastTs := 1000.0 / 480.0);
    assert LiveTick(gm, s2).acc == 0.0;
    assert Run(gm, s0, events) == Picture(gm, DrainAcc(gm, s2)) == Picture(gm, LiveTick(gm, s2));
  }
}
