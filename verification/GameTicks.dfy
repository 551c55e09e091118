/**
 One simulation tick, as the live loop and every replay path perform it:
 apply the tick's actions to the game, each with its own cursor, then update.
 The game itself is arbitrary: only its state gate is fixed (actions and
 updates do nothing outside PLAY).
 */
module GameTicks {
  import opened Options
  import opened RandomPrograms
  import opened TickFold
  import opened Modes

  /** A number held by a cursor; JavaScript also allows NaN and infinities there. */
  datatype Coord = Finite(v: real) | NotFinite

  datatype Cursor = Cursor(x: Coord, y: Coord, has: bool)

  /** The cursor an action brings along; each part may be missing (null or undefined). */
  datatype Aim = Aim(x: Option<Coord>, y: Option<Coord>, has: Option<bool>)
  datatype Move = Move(dx: int, dy: int)

  /** What a tick of the game can read from its input object. */
  datatype Input = Input(move: Move, cursor: Cursor)

  datatype Action = Action(id: string, cursor: Option<Aim>)
  datatype Tick = Tick(move: Move, cursor: Cursor, actions: seq<Action>)

  const ORIGIN := Cursor(Finite(0.0), Finite(0.0), false)

  predicate FiniteCursor(c: Cursor) {
    c.x.Finite? && c.y.Finite?
  }

  /** No coordinate is NaN or infinite, and whether there is a cursor is said. */
  predicate Clear(a: Aim) {
    a.x != Some(NotFinite) && a.y != Some(NotFinite) && a.has.Some?
  }

  predicate ClearActions(actions: seq<Action>) {
    forall a :: a in actions && a.cursor.Some? ==> Clear(a.cursor.value)
  }

  /** A whole cursor, as the input handler attaches it to a press. */
  function Whole(c: Cursor): Aim {
    Aim(Some(c.x), Some(c.y), Some(c.has))
  }

  /**
   An arbitrary game; `skill` and `play` are what it does in PLAY. Drawing a picture may change the
   state (`render`), but makes no draws and neither starts nor ends a run.
   */
  datatype Game<!G> = Game(
    start: Prog<G>,
    mode: G -> Mode,
    skill: (G, string, Input) -> Prog<G>,
    play: (G, Input, real) -> Prog<G>,
    render: G -> G)

  ghost predicate Sound<G(!new)>(gm: Game<G>) {
    && Bounded(gm.start)
    && (forall g, id, i :: Bounded(gm.skill(g, id, i)))
    && (forall g, i, dt :: Bounded(gm.play(g, i, dt)))
    && (forall g :: gm.mode(gm.render(g)) == gm.mode(g))
  }

  /** `Game.handleAction`: only PLAY reacts to a skill. */
  function HandleAction<G(!new)>(gm: Game<G>, g: G, id: string, i: Input): (p: Prog<G>)
    requires Sound(gm)
    ensures Bounded(p)
  {
    if gm.mode(g) == Playing then gm.skill(g, id, i) else Done(g)
  }

  /** `Game.update`: OVER freezes everything, MENU moves only the backdrop. */
  function Update<G(!new)>(gm: Game<G>, g: G, i: Input, dt: real): (p: Prog<G>)
    requires Sound(gm)
    ensures Bounded(p)
  {
    if gm.mode(g) == Playing then gm.play(g, i, dt) else Done(g)
  }

  /** The two places that apply a tick: `GameDriver.step` and the body of `applyReplayTick`. */
  datatype Path = Driver | Direct

  /**
   The driver keeps the old coordinate when the new one is missing or not finite, and the old flag when none is
   given; the direct path keeps the old coordinate only when the new one is missing, and takes a missing flag as false.
   */
  function MoveCursor(path: Path, target: Cursor, a: Aim): Cursor {
    match path
    case Driver =>
      Cursor(if a.x.Some? && a.x.value.Finite? then a.x.value else target.x,
             if a.y.Some? && a.y.value.Finite? then a.y.value else target.y,
             if a.has.Some? then a.has.value else target.has)
    case Direct =>
      Cursor(if a.x.Some? then a.x.value else target.x,
             if a.y.Some? then a.y.value else target.y,
             a.has.Some? && a.has.value)
  }

  /** A given finite coordinate is taken and a missing one is kept, on both paths; a given flag is taken. */
  lemma CursorIs(path: Path, target: Cursor, a: Aim)
    ensures var c := MoveCursor(path, target, a);
            && (a.x.Some? && a.x.value.Finite? ==> c.x == a.x.value) && (a.x.None? ==> c.x == target.x)
            && (a.y.Some? && a.y.value.Finite? ==> c.y == a.y.value) && (a.y.None? ==> c.y == target.y)
            && (a.has.Some? ==> c.has == a.has.value)
    ensures var c := MoveCursor(Driver, target, a);
            && (a.x == Some(NotFinite) ==> c.x == target.x) && (a.y == Some(NotFinite) ==> c.y == target.y)
            && (a.has.None? ==> c.has == target.has)
    ensures var c := MoveCursor(Direct, target, a);
            && (a.x == Some(NotFinite) ==> c.x == NotFinite) && (a.y == Some(NotFinite) ==> c.y == NotFinite)
            && (a.has.None? ==> !c.has)
  {
  }

  datatype Stepped<G> = Stepped(g: G, input: Input, src: Source) | Threw

  /** One action: an empty id is dropped before its cursor is looked at. */
  function ApplyAction<G(!new)>(path: Path, gm: Game<G>, st: Stepped<G>, a: Action): (r: Stepped<G>)
    requires Sound(gm)
    ensures Recording(st) ==> Recording(r) && Extends(st.src, r.src)
    ensures Recording(st) ==> r.input.move == st.input.move
  {
    if st.Threw? || a.id == "" then st
    else
      var cursor := if a.cursor.Some? then MoveCursor(path, st.input.cursor, a.cursor.value) else st.input.cursor;
      var i := st.input.(cursor := cursor);
      match Exec(HandleAction(gm, st.g, a.id, i), st.src)
      case Underrun => Threw
      case Ok(g, src) => Stepped(g, i, src)
  }

  predicate Recording<G>(st: Stepped<G>) {
    st.Stepped? && st.src.Recorder?
  }

  function ApplyActions<G(!new)>(path: Path, gm: Game<G>, st: Stepped<G>, actions: seq<Action>): (r: Stepped<G>)
    requires Sound(gm)
    ensures Recording(st) ==> Recording(r) && Extends(st.src, r.src)
    decreases |actions|
  {
    if actions == [] then st else ApplyActions(path, gm, ApplyAction(path, gm, st, actions[0]), actions[1..])
  }

  function UpdateStep<G(!new)>(gm: Game<G>, st: Stepped<G>, dt: real): (r: Stepped<G>)
    requires Sound(gm)
    ensures Recording(st) ==> Recording(r) && Extends(st.src, r.src)
  {
    if st.Threw? then Threw else
    match Exec(Update(gm, st.g, st.input, dt), st.src)
    case Underrun => Threw
    case Ok(g, src) => Stepped(g, st.input, src)
  }

  function RunTick<G(!new)>(path: Path, gm: Game<G>, st: Stepped<G>, actions: seq<Action>, dt: real): (r: Stepped<G>)
    requires Sound(gm)
    ensures Recording(st) ==> Recording(r) && Extends(st.src, r.src)
  {
    UpdateStep(gm, ApplyActions(path, gm, st, actions), dt)
  }

  /** Where a replay stands between ticks: its input object is rewritten by every tick. */
  datatype Spot<G> = Spot(g: G, src: Source)

  /** `applyReplayTick`; `None` when the tape underruns. */
  function ApplyReplayTick<G(!new)>(path: Path, gm: Game<G>, dt: real, at: Spot<G>, t: Tick): Option<Spot<G>>
    requires Sound(gm)
  {
    match RunTick(path, gm, Stepped(at.g, Input(t.move, t.cursor), at.src), t.actions, dt)
    case Threw => None
    case Stepped(g, _, src) => Some(Spot(g, src))
  }

  /** The replay of a game, as something that ticks are fed to. */
  function ReplayMachine<G(!new)>(path: Path, gm: Game<G>, dt: real): Machine<Spot<G>, Tick>
    requires Sound(gm)
  {
    Machine((at: Spot<G>, t: Tick) => ApplyReplayTick(path, gm, dt, at, t), (at: Spot<G>) => gm.mode(at.g) == Over,
            (at: Spot<G>) => at.(g := gm.render(at.g)))
  }

  /** `setRandSource(src); game.startRun()`. */
  function Begin<G(!new)>(gm: Game<G>, src: Source): Option<Spot<G>>
    requires Sound(gm)
  {
    match Exec(gm.start, src)
    case Underrun => None
    case Ok(g, src') => Some(Spot(g, src'))
  }

  /** The two paths treat an aim alike, wherever the old cursor was, exactly when it is clear. */
  lemma CursorPathsAgree(a: Aim)
    ensures (forall target :: MoveCursor(Driver, target, a) == MoveCursor(Direct, target, a)) <==> Clear(a)
  {
    if forall target :: MoveCursor(Driver, target, a) == MoveCursor(Direct, target, a) {
      assert MoveCursor(Driver, ORIGIN, a) == MoveCursor(Direct, ORIGIN, a);
      var shown := ORIGIN.(has := true);
      assert MoveCursor(Driver, shown, a) == MoveCursor(Direct, shown, a);
    }
  }

  /** On clear aims it does not matter which path applies a tick's actions. */
  lemma {:induction false} PathsAgree<G(!new)>(gm: Game<G>, st: Stepped<G>, actions: seq<Action>)
    requires Sound(gm) && ClearActions(actions)
    ensures ApplyActions(Driver, gm, st, actions) == ApplyActions(Direct, gm, st, actions)
    decreases |actions|
  {
    if actions != [] {
      assert actions[0] in actions;
      var st' := ApplyAction(Driver, gm, st, actions[0]);
      assert st' == ApplyAction(Direct, gm, st, actions[0]);
      PathsAgree(gm, st', actions[1..]);
    }
  }

  /** Outside PLAY the actions of a tick move the cursor and nothing else. */
  lemma {:induction false} IdleActions<G(!new)>(path: Path, gm: Game<G>, st: Stepped<G>, actions: seq<Action>)
    requires Sound(gm) && st.Stepped? && gm.mode(st.g) != Playing
    ensures var r := ApplyActions(path, gm, st, actions);
            r.Stepped? && r.g == st.g && r.src == st.src
    decreases |actions|
  {
    if actions != [] {
      IdleActions(path, gm, ApplyAction(path, gm, st, actions[0]), actions[1..]);
    }
  }

  /** OVER is absorbing, whichever path applies the ticks. */
  lemma ReplayFreezes<G(!new)>(path: Path, gm: Game<G>, dt: real)
    requires Sound(gm)
    ensures Freezes(ReplayMachine(path, gm, dt))
  {
    forall at: Spot<G>, t: Tick | gm.mode(at.g) == Over
      ensures ApplyReplayTick(path, gm, dt, at, t) == Some(at)
    {
      IdleActions(path, gm, Stepped(at.g, Input(t.move, t.cursor), at.src), t.actions);
    }
    assert forall at: Spot<G> :: gm.mode(gm.render(at.g)) == gm.mode(at.g);
  }
}
