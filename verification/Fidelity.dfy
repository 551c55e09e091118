/**
 Replay fidelity: for every game, every seed stream and every sequence of
 frames, inputs and presses, replaying the recorded ticks from `startRun`
 with pictures drawn where the live run drew them reproduces the live run tick
 by tick; and pictures may be drawn anywhere exactly if none changes a state.
 */
module Fidelity {
  import opened Options
  import opened RandomPrograms
  import opened TickFold
  import opened GameTicks
  import opened Modes
  import opened LiveRecording

  /** `chooseReplayRandSource`: the tape when it holds anything, otherwise the seed. */
  function ReplaySource(base: Stream, tape: seq<real>): (rep: Source)
    ensures rep.Player? <==> tape != []
  {
    if |tape| > 0 then Player(tape, 0) else Seeded(base, 0)
  }

  /** The source `rep` after `n` draws. */
  function After(rep: Source, n: nat): Source {
    match rep
    case Recorder(base, tape) => rep
    case Player(tape, _) => Player(tape, n)
    case Seeded(base, _) => Seeded(base, n)
  }

  ghost predicate StartsOver(rep: Source, base: Stream, full: seq<real>) {
    rep == Player(full, 0) || rep == Seeded(base, 0)
  }

  /** The replay of a run's ticks, as something that ticks are fed to. */
  function Replay<G(!new)>(path: Path, gm: Game<G>): Machine<Spot<G>, Tick>
    requires Sound(gm)
  {
    ReplayMachine(path, gm, SIM_DT)
  }

  /** Where the replay stands at a mark. */
  function AtMark<G>(rep: Source, mark: Mark<G>): Option<Spot<G>> {
    Some(Spot(mark.g, After(rep, mark.drawn)))
  }

  /**
   Replaying any prefix of the recorded ticks, with the live pictures, gives the state and the draw count noted
   live.
   */
  ghost predicate Faithful<G(!new)>(
      path: Path, gm: Game<G>, ticks: seq<Tick>, log: seq<Mark<G>>, shown: seq<nat>, rep: Source)
    requires Sound(gm)
  {
    && |log| == |shown| == |ticks| + 1
    && forall k :: 0 <= k <= |ticks| ==>
         Play(Replay(path, gm), Begin(gm, rep), ticks[..k], shown[..k]) == AtMark(rep, log[k])
  }

  /** `n` pictures of a game in a row. */
  function Pictures<G(!new)>(gm: Game<G>, g: G, n: nat): G {
    if n == 0 then g else gm.render(Pictures(gm, g, n - 1))
  }

  lemma {:induction false} PicturesOnly<G(!new)>(path: Path, gm: Game<G>, at: Spot<G>, n: nat)
    requires Sound(gm)
    ensures Rendered(Replay(path, gm), at, n) == at.(g := Pictures(gm, at.g, n))
  {
    if n > 0 { PicturesOnly(path, gm, at, n - 1); }
  }

  function LastMark<G>(s: Live<G>): Mark<G>
    requires s.log != []
  {
    s.log[|s.log| - 1]
  }

  /** Nothing but pictures has happened since the last mark. */
  ghost predicate Current<G(!new)>(gm: Game<G>, s: Live<G>)
    requires Wf(gm, s)
  {
    s.g == Pictures(gm, LastMark(s).g, s.shown[|s.shown| - 1]) && LastMark(s).drawn == |s.src.tape|
  }

  /** Cursors are finite; until the run is marked ended, it is at its last mark. */
  ghost predicate Tracked<G(!new)>(gm: Game<G>, s: Live<G>)
    requires Wf(gm, s)
  {
    && FiniteCursor(s.input.cursor)
    && ClearActions(s.queue)
    && LastMark(s).drawn <= |s.src.tape|
    && (!s.ended ==> Current(gm, s))
  }

  ghost predicate FiniteEvents(events: seq<Event>) {
    forall ev :: ev in events && ev.Point? ==> FiniteCursor(ev.cursor)
  }

  lemma {:induction false} ActionsMirror<G(!new)>(
      path: Path, gm: Game<G>, live: Stepped<G>, rep: Source, actions: seq<Action>, full: seq<real>)
    requires Sound(gm) && Recording(live) && Mirrors(live.src, rep, full)
    requires ApplyActions(path, gm, live, actions).src.tape <= full
    ensures var done := ApplyActions(path, gm, live, actions);
            var again := ApplyActions(path, gm, live.(src := rep), actions);
            again.Stepped? && again == done.(src := again.src) && Mirrors(done.src, again.src, full)
            && (rep.Player? <==> again.src.Player?)
    decreases |actions|
  {
    if actions != [] {
      var a := actions[0];
      var next := ApplyAction(path, gm, live, a);
      assert next.src.tape <= ApplyActions(path, gm, next, actions[1..]).src.tape;
      if a.id == "" {
        ActionsMirror(path, gm, live, rep, actions[1..], full);
      } else {
        var cursor := if a.cursor.Some? then MoveCursor(path, live.input.cursor, a.cursor.value) else live.input.cursor;
        var p := HandleAction(gm, live.g, a.id, live.input.(cursor := cursor));
        ExecMirrors(p, live.src, rep, full);
        ActionsMirror(path, gm, next, Exec(p, rep).src, actions[1..], full);
      }
    }
  }

  /** A tick run against the mirrored source gives the same game and the mirrored end. */
  lemma TickMirrors<G(!new)>(
      path: Path, gm: Game<G>, live: Stepped<G>, rep: Source, actions: seq<Action>, dt: real, full: seq<real>)
    requires Sound(gm) && Recording(live) && Mirrors(live.src, rep, full)
    requires ClearActions(actions)
    requires RunTick(Driver, gm, live, actions, dt).src.tape <= full
    ensures var done := RunTick(Driver, gm, live, actions, dt);
            var again := RunTick(path, gm, live.(src := rep), actions, dt);
            again.Stepped? && again.g == done.g && Mirrors(done.src, again.src, full)
            && (rep.Player? <==> again.src.Player?)
  {
    PathsAgree(gm, live, actions);
    var mid := ApplyActions(path, gm, live, actions);
    assert mid == ApplyActions(Driver, gm, live, actions);
    ActionsMirror(path, gm, live, rep, actions, full);
    var midAgain := ApplyActions(path, gm, live.(src := rep), actions);
    ExecMirrors(Update(gm, mid.g, mid.input, dt), mid.src, midAgain.src, full);
  }

  lemma MirrorIsAfter(rec: Source, base: Stream, rep: Source, full: seq<real>)
    requires rec.Recorder? && rec.base == base && rec.tape <= full && StartsOver(rep, base, full)
    ensures Mirrors(rec, After(rep, |rec.tape|), full)
  {
  }

  /** What a faithful replay looks like with the pictures after the last mark. */
  lemma FaithfulSeen<G(!new)>(
      path: Path, gm: Game<G>, ticks: seq<Tick>, log: seq<Mark<G>>, shown: seq<nat>, rep: Source)
    requires Sound(gm) && Faithful(path, gm, ticks, log, shown, rep)
    ensures var last := log[|ticks|];
            Seen(Replay(path, gm), Begin(gm, rep), ticks, shown)
              == Some(Spot(Pictures(gm, last.g, shown[|ticks|]), After(rep, last.drawn)))
  {
    var last := log[|ticks|];
    assert ticks[..|ticks|] == ticks;
    PicturesOnly(path, gm, Spot(last.g, After(rep, last.drawn)), shown[|ticks|]);
  }

  lemma HistoryGrows<G(!new)>(
      path: Path, gm: Game<G>, ticks: seq<Tick>, log: seq<Mark<G>>, shown: seq<nat>, t: Tick, mark: Mark<G>,
      rep: Source)
    requires Sound(gm) && Faithful(path, gm, ticks, log, shown, rep)
    requires var last := log[|ticks|];
             ApplyReplayTick(path, gm, SIM_DT, Spot(Pictures(gm, last.g, shown[|ticks|]), After(rep, last.drawn)), t)
             == AtMark(rep, mark)
    ensures Faithful(path, gm, ticks + [t], log + [mark], shown + [0], rep)
  {
    var n := |ticks|;
    var m := Replay(path, gm);
    var ticks', log', shown' := ticks + [t], log + [mark], shown + [0];
    FaithfulSeen(path, gm, ticks, log, shown, rep);
    PlayNext(m, Begin(gm, rep), ticks', shown, n);
    assert ticks'[..n] == ticks && ticks'[n] == t && shown'[..n + 1] == shown;
    forall k | 0 <= k <= n + 1
      ensures Play(m, Begin(gm, rep), ticks'[..k], shown'[..k]) == AtMark(rep, log'[k])
    {
      if k <= n {
        assert ticks'[..k] == ticks[..k] && shown'[..k] == shown[..k];
      }
    }
  }

  lemma PictureFaithful<G(!new)>(path: Path, gm: Game<G>, s: Live<G>, rep: Source)
    requires Wf(gm, s) && Faithful(path, gm, s.ticks, s.log, s.shown, rep)
    ensures var s' := Picture(gm, s); Faithful(path, gm, s'.ticks, s'.log, s'.shown, rep)
    ensures Tracked(gm, s) ==> Tracked(gm, Picture(gm, s))
  {
    var s' := Picture(gm, s);
    forall k | 0 <= k <= |s.ticks|
      ensures s'.shown[..k] == s.shown[..k]
    {
    }
  }

  lemma LiveTickTracked<G(!new)>(gm: Game<G>, s: Live<G>)
    requires Wf(gm, s) && Tracked(gm, s)
    ensures Tracked(gm, LiveTick(gm, s))
  {
    TickKeepsFinite(gm, Stepped(s.g, s.input, s.src), if Recorded(gm, s) then s.queue else []);
  }

  lemma LiveTickFaithful<G(!new)>(path: Path, gm: Game<G>, s: Live<G>, rep: Source, full: seq<real>)
    requires Wf(gm, s) && Tracked(gm, s) && StartsOver(rep, s.src.base, full)
    requires LiveTick(gm, s).src.tape <= full && Faithful(path, gm, s.ticks, s.log, s.shown, rep)
    ensures var s' := LiveTick(gm, s); Faithful(path, gm, s'.ticks, s'.log, s'.shown, rep)
  {
    var s' := LiveTick(gm, s);
    if Recorded(gm, s) {
      var here := After(rep, |s.src.tape|);
      MirrorIsAfter(s.src, s.src.base, rep, full);
      TickMirrors(path, gm, Stepped(s.g, s.input, s.src), here, s.queue, SIM_DT, full);
      var t := Tick(s.input.move, s.input.cursor, s.queue);
      assert Input(t.move, t.cursor) == s.input;
      HistoryGrows(path, gm, s.ticks, s.log, s.shown, t, Mark(s'.g, |s'.src.tape|), rep);
    }
  }

  lemma {:induction false} ActionsKeepFinite<G(!new)>(gm: Game<G>, st: Stepped<G>, actions: seq<Action>)
    requires Sound(gm) && Recording(st) && FiniteCursor(st.input.cursor)
    ensures FiniteCursor(ApplyActions(Driver, gm, st, actions).input.cursor)
    decreases |actions|
  {
    if actions != [] {
      ActionsKeepFinite(gm, ApplyAction(Driver, gm, st, actions[0]), actions[1..]);
    }
  }

  lemma TickKeepsFinite<G(!new)>(gm: Game<G>, st: Stepped<G>, actions: seq<Action>)
    requires Sound(gm) && Recording(st) && FiniteCursor(st.input.cursor)
    ensures FiniteCursor(RunTick(Driver, gm, st, actions, SIM_DT).input.cursor)
  {
    ActionsKeepFinite(gm, st, actions);
  }

  lemma {:induction false} DrainFaithful<G(!new)>(path: Path, gm: Game<G>, s: Live<G>, rep: Source, full: seq<real>)
    requires Wf(gm, s) && Tracked(gm, s) && StartsOver(rep, s.src.base, full)
    requires DrainAcc(gm, s).src.tape <= full && Faithful(path, gm, s.ticks, s.log, s.shown, rep)
    ensures var s' := DrainAcc(gm, s); Tracked(gm, s') && Faithful(path, gm, s'.ticks, s'.log, s'.shown, rep)
    decreases TicksDue(s.acc)
  {
    if s.acc >= SIM_DT {
      LiveTickTracked(gm, s);
      LiveTickFaithful(path, gm, s, rep, full);
      if gm.mode(LiveTick(gm, s).g) != Over {
        DrainFaithful(path, gm, LiveTick(gm, s), rep, full);
      }
    }
  }

  lemma FrameFaithful<G(!new)>(path: Path, gm: Game<G>, s: Live<G>, ts: real, rep: Source, full: seq<real>)
    requires Wf(gm, s) && Tracked(gm, s) && StartsOver(rep, s.src.base, full)
    requires FrameStep(gm, s, ts).src.tape <= full && Faithful(path, gm, s.ticks, s.log, s.shown, rep)
    ensures var s' := FrameStep(gm, s, ts); Tracked(gm, s') && Faithful(path, gm, s'.ticks, s'.log, s'.shown, rep)
  {
    DrainFaithful(path, gm, AddFrame(s, ts), rep, full);
    PictureFaithful(path, gm, DrainAcc(gm, AddFrame(s, ts)), rep);
  }

  lemma QuietStepTracked<G(!new)>(gm: Game<G>, s: Live<G>, ev: Event)
    requires Wf(gm, s) && Tracked(gm, s) && !ev.Frame?
    requires ev.Point? ==> FiniteCursor(ev.cursor)
    ensures var s' := Step(gm, s, ev);
            Tracked(gm, s') && s'.ticks == s.ticks && s'.log == s.log && s'.shown == s.shown
  {
  }

  lemma StepFaithful<G(!new)>(path: Path, gm: Game<G>, s: Live<G>, ev: Event, rep: Source, full: seq<real>)
    requires Wf(gm, s) && Tracked(gm, s) && StartsOver(rep, s.src.base, full)
    requires ev.Point? ==> FiniteCursor(ev.cursor)
    requires Step(gm, s, ev).src.tape <= full && Faithful(path, gm, s.ticks, s.log, s.shown, rep)
    ensures var s' := Step(gm, s, ev); Tracked(gm, s') && Faithful(path, gm, s'.ticks, s'.log, s'.shown, rep)
  {
    if ev.Frame? {
      FrameFaithful(path, gm, s, ev.ts, rep, full);
    } else {
      QuietStepTracked(gm, s, ev);
    }
  }

  lemma {:induction false} RunFaithful<G(!new)>(
      path: Path, gm: Game<G>, s: Live<G>, events: seq<Event>, rep: Source, full: seq<real>)
    requires Wf(gm, s) && Tracked(gm, s) && StartsOver(rep, s.src.base, full)
    requires FiniteEvents(events)
    requires Run(gm, s, events).src.tape <= full && Faithful(path, gm, s.ticks, s.log, s.shown, rep)
    ensures var s' := Run(gm, s, events); Tracked(gm, s') && Faithful(path, gm, s'.ticks, s'.log, s'.shown, rep)
  {
    if events != [] {
      var front := events[..|events| - 1];
      assert events[|events| - 1] in events;
      RunFaithful(path, gm, s, front, rep, full);
      StepFaithful(path, gm, Run(gm, s, front), events[|events| - 1], rep, full);
    }
  }

  /**
   Replay fidelity. Whatever was recorded so far, replaying it from the random source that
   `chooseReplayRandSource` picks - or from the seed instead - with pictures where the live run drew
   them passes through exactly the live states, with as many draws behind it after each tick as the
   live run had: the tape never underruns, whichever of the two paths applies the ticks.
   */
  lemma ReplayFidelity<G(!new)>(
      path: Path, gm: Game<G>, base: Stream, input: Input, lastTs: real, events: seq<Event>)
    requires Sound(gm) && FiniteCursor(input.cursor) && FiniteEvents(events)
    ensures var s := Run(gm, StartGame(gm, base, input, lastTs), events);
            && Faithful(path, gm, s.ticks, s.log, s.shown, ReplaySource(base, s.src.tape))
            && Faithful(path, gm, s.ticks, s.log, s.shown, Seeded(base, 0))
  {
    var s0 := StartGame(gm, base, input, lastTs);
    var s := Run(gm, s0, events);
    var full := s.src.tape;
    forall rep | rep == ReplaySource(base, full) || rep == Seeded(base, 0)
      ensures Faithful(path, gm, s.ticks, s.log, s.shown, rep)
    {
      ExecMirrors(gm.start, Recorder(base, []), rep, full);
      assert s0.ticks[..0] == [];
      RunFaithful(path, gm, s0, events, rep, full);
    }
  }

  /** The tape of a run is the beginning of the seeded stream. */
  lemma TapeIsStream<G(!new)>(gm: Game<G>, base: Stream, input: Input, lastTs: real, events: seq<Event>, i: nat)
    requires Sound(gm)
    ensures var tape := Run(gm, StartGame(gm, base, input, lastTs), events).src.tape;
            i < |tape| ==> tape[i] == base(i)
  {
    assert Extends(Recorder(base, []), StartGame(gm, base, input, lastTs).src);
  }

  // ---------------------------------------------------------------------
  // Other schedules of pictures.
  // ---------------------------------------------------------------------

  /** No picture changes any of the states the run had at its marks. */
  ghost predicate QuietRun<G(!new)>(gm: Game<G>, log: seq<Mark<G>>) {
    forall k :: 0 <= k < |log| ==> gm.render(log[k].g) == log[k].g
  }

  lemma {:induction false} PicturesStill<G(!new)>(gm: Game<G>, g: G, n: nat)
    requires gm.render(g) == g
    ensures Pictures(gm, g, n) == g
  {
    if n > 0 { PicturesStill(gm, g, n - 1); }
  }

  /** Then a replay without pictures passes through the marks as well, and no picture changes it. */
  lemma {:induction false} QuietFold<G(!new)>(
      path: Path, gm: Game<G>, ticks: seq<Tick>, log: seq<Mark<G>>, shown: seq<nat>, rep: Source, k: nat)
    requires Sound(gm) && Faithful(path, gm, ticks, log, shown, rep) && QuietRun(gm, log) && k <= |ticks|
    ensures Fold(Replay(path, gm), Begin(gm, rep), ticks[..k]) == AtMark(rep, log[k])
  {
    var m := Replay(path, gm);
    if k > 0 {
      QuietFold(path, gm, ticks, log, shown, rep, k - 1);
      var mark := log[k - 1];
      assert ticks[..k][..k - 1] == ticks[..k - 1] && shown[..k][..k - 1] == shown[..k - 1];
      assert ticks[..k][k - 1] == ticks[k - 1] && shown[..k][k - 1] == shown[k - 1];
      assert Play(m, Begin(gm, rep), ticks[..k], shown[..k]) == AtMark(rep, log[k]);
      PicturesOnly(path, gm, Spot(mark.g, After(rep, mark.drawn)), shown[k - 1]);
      PicturesStill(gm, mark.g, shown[k - 1]);
    } else {
      assert ticks[..0] == [] && Play(m, Begin(gm, rep), ticks[..0], shown[..0]) == AtMark(rep, log[0]);
    }
  }

  lemma QuietIsInert<G(!new)>(
      path: Path, gm: Game<G>, ticks: seq<Tick>, log: seq<Mark<G>>, shown: seq<nat>, rep: Source)
    requires Sound(gm) && Faithful(path, gm, ticks, log, shown, rep) && QuietRun(gm, log)
    ensures Inert(Replay(path, gm), Begin(gm, rep), ticks)
  {
    forall k | 0 <= k <= |ticks|
      ensures Still(Replay(path, gm), Fold(Replay(path, gm), Begin(gm, rep), ticks[..k]))
    {
      QuietFold(path, gm, ticks, log, shown, rep, k);
    }
  }

  /** Whatever pictures are drawn, the replay shows the live state after every tick. */
  ghost predicate FaithfulAnyhow<G(!new)>(path: Path, gm: Game<G>, ticks: seq<Tick>, log: seq<Mark<G>>, rep: Source)
    requires Sound(gm) && |log| == |ticks| + 1
  {
    forall k, shows: seq<nat> :: 0 <= k <= |ticks| && |shows| == k + 1 ==>
      Seen(Replay(path, gm), Begin(gm, rep), ticks[..k], shows) == AtMark(rep, log[k])
  }

  /** The schedule of pictures is free exactly if no picture changes a state the live run had. */
  lemma AnyScheduleIff<G(!new)>(
      path: Path, gm: Game<G>, ticks: seq<Tick>, log: seq<Mark<G>>, shown: seq<nat>, rep: Source)
    requires Sound(gm) && Faithful(path, gm, ticks, log, shown, rep)
    ensures FaithfulAnyhow(path, gm, ticks, log, rep) <==> QuietRun(gm, log)
  {
    var m, start := Replay(path, gm), Begin(gm, rep);
    if QuietRun(gm, log) {
      QuietIsInert(path, gm, ticks, log, shown, rep);
      forall k, shows: seq<nat> | 0 <= k <= |ticks| && |shows| == k + 1
        ensures Seen(m, start, ticks[..k], shows) == AtMark(rep, log[k])
      {
        InertFront(m, start, ticks, k);
        InertSeen(m, start, ticks[..k], shows);
        QuietFold(path, gm, ticks, log, shown, rep, k);
      }
    }
    if FaithfulAnyhow(path, gm, ticks, log, rep) {
      forall k | 0 <= k < |log|
        ensures gm.render(log[k].g) == log[k].g
      {
        var none := Zeros(k + 1);
        assert Seen(m, start, ticks[..k], none) == AtMark(rep, log[k]);
        SeenAgain(m, start, ticks[..k], none);
        assert Seen(m, start, ticks[..k], none[k := none[k] + 1]) == AtMark(rep, log[k]);
      }
    }
  }
}
