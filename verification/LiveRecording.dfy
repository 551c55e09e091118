/**
 The live loop (public/js/main.js, `frame`) with the recording side of
 public/js/replayManager.js. What a replay of its recording does is in module Fidelity.
 */
module LiveRecording {
  import opened Options
  import opened RandomPrograms
  import opened GameTicks
  import opened Modes
  import opened JsNumbers

  const SIM_DT := 1.0 / 480.0
  const MAX_FRAME := 1.0 / 20.0

  /** The state after a recorded tick (or after startRun), and how many draws the run had made by then. */
  datatype Mark<G> = Mark(g: G, drawn: nat)

  /**
   Everything the live loop holds between two steps. `log` and `shown` only keep the history the theorems
   speak of: the marks, and how many pictures were drawn after each of them.
   */
  datatype Live<G> = Live(
    g: G,
    input: Input,
    acc: real,
    lastTs: real,
    queue: seq<Action>,
    ticks: seq<Tick>,
    ended: bool,
    src: Source,
    log: seq<Mark<G>>,
    shown: seq<nat>)

  datatype Event =
    | Keys(move: Move)       // keyboard state seen by getMove
    | Point(cursor: Cursor)  // pointermove
    | Press(id: string)      // onAction, with the cursor of that moment
    | Frame(ts: real)        // requestAnimationFrame callback
    | Finish                 // markEnded

  ghost predicate Wf<G(!new)>(gm: Game<G>, s: Live<G>) {
    Sound(gm) && s.src.Recorder? && |s.shown| == |s.log| > 0
  }

  /** `startRecording(seed)` and `game.startRun()`: a fresh tape over the seeded stream. */
  function StartGame<G(!new)>(gm: Game<G>, base: Stream, input: Input, lastTs: real): (s: Live<G>)
    requires Sound(gm)
    ensures Wf(gm, s)
  {
    var r := Exec(gm.start, Recorder(base, []));
    Live(r.g, input, 0.0, lastTs, [], [], false, r.src, [Mark(r.g, |r.src.tape|)], [0])
  }

  /** The run is being recorded: in PLAY and not yet marked ended. */
  predicate Recorded<G>(gm: Game<G>, s: Live<G>) {
    gm.mode(s.g) == Playing && !s.ended
  }

  /** One pass of the live loop's `while` body. */
  function LiveTick<G(!new)>(gm: Game<G>, s: Live<G>): (s': Live<G>)
    requires Wf(gm, s)
    ensures Wf(gm, s') && Extends(s.src, s'.src)
  {
    var on := Recorded(gm, s);
    var actions := if on then s.queue else [];
    var r := RunTick(Driver, gm, Stepped(s.g, s.input, s.src), actions, SIM_DT);
    s.(g := r.g,
       input := r.input,
       src := r.src,
       acc := s.acc - SIM_DT,
       queue := if on || gm.mode(r.g) == Over then [] else s.queue,
       ticks := if on then s.ticks + [Tick(s.input.move, s.input.cursor, actions)] else s.ticks,
       log := if on then s.log + [Mark(r.g, |r.src.tape|)] else s.log,
       shown := if on then s.shown + [0] else s.shown)
  }

  function TicksDue(acc: real): nat {
    if acc < SIM_DT then 0 else (acc * 480.0).Floor
  }

  lemma TickUsesTime<G(!new)>(gm: Game<G>, s: Live<G>)
    requires Wf(gm, s) && s.acc >= SIM_DT
    ensures TicksDue(LiveTick(gm, s).acc) < TicksDue(s.acc)
  {
  }

  /** The live loop's `while (acc >= SIM_DT)`, which also stops after a tick that ends the game. */
  function DrainAcc<G(!new)>(gm: Game<G>, s: Live<G>): (s': Live<G>)
    requires Wf(gm, s)
    ensures Wf(gm, s') && Extends(s.src, s'.src)
    decreases TicksDue(s.acc)
  {
    if s.acc < SIM_DT then s
    else
      var s' := LiveTick(gm, s);
      if gm.mode(s'.g) == Over then s' else DrainAcc(gm, s')
  }

  /** A frame adds its clamped duration to the accumulator. */
  function AddFrame<G>(s: Live<G>, ts: real): Live<G> {
    s.(acc := s.acc + Clamp((ts - s.lastTs) / 1000.0, 0.0, MAX_FRAME), lastTs := ts)
  }

  /** `game.render()`: one more picture after the last mark. */
  function Picture<G(!new)>(gm: Game<G>, s: Live<G>): (s': Live<G>)
    requires Wf(gm, s)
    ensures Wf(gm, s') && Extends(s.src, s'.src)
  {
    var last := |s.shown| - 1;
    s.(g := gm.render(s.g), shown := s.shown[last := s.shown[last] + 1])
  }

  /** One animation frame: the ticks it pays for, then a picture. */
  function FrameStep<G(!new)>(gm: Game<G>, s: Live<G>, ts: real): (s': Live<G>)
    requires Wf(gm, s)
    ensures Wf(gm, s') && Extends(s.src, s'.src)
  {
    Picture(gm, DrainAcc(gm, AddFrame(s, ts)))
  }

  function Step<G(!new)>(gm: Game<G>, s: Live<G>, ev: Event): (s': Live<G>)
    requires Wf(gm, s)
    ensures Wf(gm, s') && Extends(s.src, s'.src)
  {
    match ev
    case Keys(move) => s.(input := s.input.(move := move))
    case Point(cursor) => s.(input := s.input.(cursor := cursor))
    case Press(id) =>
      if Recorded(gm, s) then s.(queue := s.queue + [Action(id, Some(Whole(s.input.cursor)))]) else s
    case Frame(ts) => FrameStep(gm, s, ts)
    case Finish => s.(ended := true)
  }

  function Run<G(!new)>(gm: Game<G>, s: Live<G>, events: seq<Event>): (s': Live<G>)
    requires Wf(gm, s)
    ensures Wf(gm, s') && Extends(s.src, s'.src)
  {
    if events == [] then s else Step(gm, Run(gm, s, events[..|events| - 1]), events[|events| - 1])
  }

  // ---------------------------------------------------------------------
  // The live loop itself, updating its variables in place.
  // ---------------------------------------------------------------------

  class LiveLoop<G(!new)> {
    const gm: Game<G>
    var g: G
    var input: Input
    var acc: real
    var lastTs: real
    var queue: seq<Action>
    var ticks: seq<Tick>
    var ended: bool
    var src: Source
    ghost var log: seq<Mark<G>>
    ghost var shown: seq<nat>

    ghost predicate Valid()
      reads this
    {
      Sound(gm) && src.Recorder? && |shown| == |log| > 0
    }

    ghost function View(): Live<G>
      reads this
    {
      Live(g, input, acc, lastTs, queue, ticks, ended, src, log, shown)
    }

    constructor StartRun(gm: Game<G>, base: Stream, input: Input, lastTs: real)
      requires Sound(gm)
      ensures Valid() && this.gm == gm && View() == StartGame(gm, base, input, lastTs)
    {
      this.gm := gm;
      var r := Exec(gm.start, Recorder(base, []));
      g, src := r.g, r.src;
      this.input, this.lastTs := input, lastTs;
      acc, queue, ticks, ended := 0.0, [], [], false;
      log, shown := [Mark(r.g, |r.src.tape|)], [0];
    }

    method QueueAction(id: string)
      requires Valid()
      modifies this`queue
      ensures View() == Step(gm, old(View()), Press(id))
    {
      if gm.mode(g) == Playing && !ended {
        queue := queue + [Action(id, Some(Whole(input.cursor)))];
      }
    }

    method DrainPendingActions() returns (actions: seq<Action>)
      modifies this`queue
      ensures actions == if ended then [] else old(queue)
      ensures queue == if ended then old(queue) else []
    {
      if ended { return []; }
      actions := queue;
      queue := [];
    }

    method RecordTick(snap: Input, actions: seq<Action>)
      modifies this`ticks
      ensures ticks == if ended then old(ticks) else old(ticks) + [Tick(snap.move, snap.cursor, actions)]
    {
      if !ended {
        ticks := ticks + [Tick(snap.move, snap.cursor, actions)];
      }
    }

    method MarkEnded()
      requires Valid()
      modifies this`ended
      ensures View() == Step(gm, old(View()), Finish)
    {
      ended := true;
    }

    /** `GameDriver.step`: the actions one by one, then the update. */
    method DriverStep(actions: seq<Action>)
      requires Valid()
      modifies this`g, this`input, this`src
      ensures Valid()
      ensures Stepped(g, input, src) == RunTick(Driver, gm, Stepped(old(g), old(input), old(src)), actions, SIM_DT)
    {
      ghost var all := ApplyActions(Driver, gm, Stepped(g, input, src), actions);
      for k := 0 to |actions|
        invariant Valid()
        invariant ApplyActions(Driver, gm, Stepped(g, input, src), actions[k..]) == all
      {
        assert actions[k..][1..] == actions[k + 1..];
        var r := ApplyAction(Driver, gm, Stepped(g, input, src), actions[k]);
        g, input, src := r.g, r.input, r.src;
      }
      var r := UpdateStep(gm, Stepped(g, input, src), SIM_DT);
      g, src := r.g, r.src;
    }

    /** One pass of the loop body, in the order of the source. */
    method TickOnce()
      requires Valid()
      modifies this
      ensures Valid() && View() == LiveTick(gm, old(View()))
    {
      hide RunTick, Sound;
      ghost var on := gm.mode(g) == Playing && !ended;
      var snap := input;
      var actions := [];
      if gm.mode(g) == Playing {
        actions := DrainPendingActions();
        RecordTick(snap, actions);
      }
      DriverStep(actions);
      acc := acc - SIM_DT;
      if on {
        log, shown := log + [Mark(g, |src.tape|)], shown + [0];
      }
      if gm.mode(g) == Over {
        queue := [];
      }
    }

    method Render()
      requires Valid()
      modifies this`g, this`shown
      ensures Valid() && View() == Picture(gm, old(View()))
    {
      g := gm.render(g);
      shown := shown[|shown| - 1 := shown[|shown| - 1] + 1];
    }

    /** `frame`: as many ticks as are due, at most up to the end of the game, and then one picture. */
    method FrameCallback(ts: real)
      requires Valid()
      modifies this
      ensures Valid() && View() == Step(gm, old(View()), Frame(ts))
    {
      hide LiveTick, Sound, TicksDue;
      var dt := Clamp((ts - lastTs) / 1000.0, 0.0, MAX_FRAME);
      lastTs := ts;
      acc := acc + dt;
      ghost var done := DrainAcc(gm, View());
      while acc >= SIM_DT
        invariant Valid()
        invariant DrainAcc(gm, View()) == done
        decreases TicksDue(acc)
      {
        TickUsesTime(gm, View());
        TickOnce();
        if gm.mode(g) == Over { break; }
      }
      Render();
    }
  }
}
