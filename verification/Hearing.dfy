/**
 What a game hears in a live run (public/js/main.js, public/js/replayManager.js, engine/gameDriver.js): which skills,
   updates
 and pictures it is asked for, in which order and with which input, told from the events alone.
 */
module Hearing {
  import opened Options
  import opened Lists
  import opened RandomPrograms
  import opened GameTicks
  import opened Modes
  import opened LiveRecording
  import opened Fidelity

  /** One call a game receives. */
  datatype Call = Skill(id: string, input: Input) | Play(input: Input, dt: real) | Drawn

  /** A game together with the calls it has received. */
  datatype Heard<!G> = Heard(g: G, calls: seq<Call>)

  function Mapped<A(!new), B(!new)>(p: Prog<A>, f: A -> B): (q: Prog<B>)
    requires Bounded(p)
    ensures Bounded(q) && Draws(q) == Draws(p)
    decreases Draws(p)
  {
    match p
    case Done(a) => Done(f(a))
    case Draw(budget, next) => Draw(budget, r => Mapped(next(r), f))
  }

  lemma {:induction false} ExecMapped<A(!new), B(!new)>(p: Prog<A>, f: A -> B, src: Source)
    requires Bounded(p)
    ensures Exec(Mapped(p, f), src) ==
              match Exec(p, src) { case Underrun => Underrun case Ok(a, src') => Ok(f(a), src') }
    decreases Draws(p)
  {
    match p
    case Done(_) =>
    case Draw(_, next) =>
      if Next(src).Some? {
        var (v, src') := Next(src).value;
        assert Bounded(next(v));
        ExecMapped(next(v), f, src');
      }
  }

  function Noting<G>(calls: seq<Call>): G -> Heard<G> {
    (g: G) => Heard(g, calls)
  }

  /** The same game, writing down its calls. */
  function Spied<G(!new)>(gm: Game<G>): Game<Heard<G>>
    requires Sound(gm)
  {
    Game(Mapped(gm.start, Noting([])),
         (h: Heard<G>) => gm.mode(h.g),
         (h: Heard<G>, id: string, i: Input) => Mapped(gm.skill(h.g, id, i), Noting(h.calls + [Skill(id, i)])),
         (h: Heard<G>, i: Input, dt: real) => Mapped(gm.play(h.g, i, dt), Noting(h.calls + [Play(i, dt)])),
         (h: Heard<G>) => Heard(gm.render(h.g), h.calls + [Drawn]))
  }

  lemma SpiedSound<G(!new)>(gm: Game<G>)
    requires Sound(gm)
    ensures Sound(Spied(gm))
  {
    var w := Spied(gm);
    forall h, id, i
      ensures Bounded(w.skill(h, id, i))
    {
      assert w.skill(h, id, i) == Mapped(gm.skill(h.g, id, i), Noting(h.calls + [Skill(id, i)]));
    }
    forall h, i, dt
      ensures Bounded(w.play(h, i, dt))
    {
      assert w.play(h, i, dt) == Mapped(gm.play(h.g, i, dt), Noting(h.calls + [Play(i, dt)]));
    }
    assert Bounded(w.start);
    forall h
      ensures w.mode(w.render(h)) == w.mode(h)
    {
      assert w.mode(h) == gm.mode(h.g) && w.mode(w.render(h)) == gm.mode(gm.render(h.g));
    }
  }

  function InMode<G>(mode: G -> Mode, m: Mode): G -> bool {
    (g: G) => mode(g) == m
  }

  /** A skill neither starts nor ends a run. */
  ghost predicate SkillsPlayOn<G(!new)>(gm: Game<G>)
    requires Sound(gm)
  {
    forall g, id, i :: gm.mode(g) == Playing ==> Always(gm.skill(g, id, i), InMode(gm.mode, Playing))
  }

  // ---- what a run of events asks for ----

  /** A press, with the cursor of its moment. */
  datatype Pressed = Pressed(id: string, cursor: Cursor)

  function Recording(presses: seq<Pressed>): (actions: seq<Action>)
    ensures |actions| == |presses|
  {
    if presses == [] then []
    else
      var p := presses[0];
      [Action(p.id, Some(Aim(Some(p.cursor.x), Some(p.cursor.y), Some(p.cursor.has))))] + Recording(presses[1..])
  }

  /** The skills a tick asks for, one by one; a press without an id is not a skill. */
  function Skills(move: Move, presses: seq<Pressed>): seq<Call> {
    if presses == [] then []
    else
      var p := presses[0];
      (if p.id == "" then [] else [Skill(p.id, Input(move, p.cursor))]) + Skills(move, presses[1..])
  }

  function LastCursor(cursor: Cursor, presses: seq<Pressed>): Cursor
    decreases |presses|
  {
    if presses == [] then cursor
    else LastCursor(if presses[0].id == "" then cursor else presses[0].cursor, presses[1..])
  }

  function Repeated<T>(x: T, n: nat): seq<T> {
    if n == 0 then [] else [x] + Repeated(x, n - 1)
  }

  /** What `n` ticks ask for: before the first the skills that wait, then one update each. */
  function Asked(input: Input, presses: seq<Pressed>, n: nat): seq<Call> {
    if n == 0 then []
    else
      Skills(input.move, presses)
      + Repeated(Play(Input(input.move, LastCursor(input.cursor, presses)), 1.0 / 480.0), n)
  }

  ghost predicate FinitePresses(presses: seq<Pressed>) {
    forall p :: p in presses ==> FiniteCursor(p.cursor)
  }

  lemma RepeatedNext<T>(x: T, n: nat)
    ensures Repeated(x, n + 1) == [x] + Repeated(x, n)
  {
  }

  /** In several ticks nothing waits after the first. */
  lemma AskedOneMore(input: Input, presses: seq<Pressed>, n: nat)
    ensures var next := input.(cursor := LastCursor(input.cursor, presses));
            Asked(input, presses, n + 1) == Asked(input, presses, 1) + Asked(next, [], n)
  {
    var next := input.(cursor := LastCursor(input.cursor, presses));
    var skills, play := Skills(input.move, presses), Play(next, 1.0 / 480.0);
    AskedIdle(next, n);
    RepeatedNext(play, n);
    RepeatedOnce(play, 1);
    Associates(skills, [play], Repeated(play, n));
    hide Skills, LastCursor, Repeated;
  }

  lemma RepeatedOnce<T>(x: T, n: nat)
    requires n == 1
    ensures Repeated(x, n) == [x]
  {
    assert Repeated(x, n - 1) == [];
  }

  lemma AskedIdle(input: Input, n: nat)
    ensures Asked(input, [], n) == Repeated(Play(input, 1.0 / 480.0), n)
  {
    var none: seq<Pressed> := [];
    assert Skills(input.move, none) == [] && LastCursor(input.cursor, none) == input.cursor;
  }

  /** The first of several presses. */
  lemma FirstPress(input: Input, presses: seq<Pressed>)
    requires presses != []
    ensures var p, rest := presses[0], presses[1..];
            var next := if p.id == "" then input.cursor else p.cursor;
            && Recording(presses) == [Action(p.id, Some(Aim(Some(p.cursor.x), Some(p.cursor.y), Some(p.cursor.has))))]
                                     + Recording(rest)
            && Recording(presses)[1..] == Recording(rest)
            && Skills(input.move, presses)
                 == (if p.id == "" then [] else [Skill(p.id, Input(input.move, p.cursor))]) + Skills(input.move, rest)
            && LastCursor(input.cursor, presses) == LastCursor(next, rest)
  {
  }

  // ---- what the game hears ----

  lemma SkillHeard<G(!new)>(gm: Game<G>, h: Heard<G>, id: string, i: Input, src: Source)
    requires Sound(gm) && SkillsPlayOn(gm) && Sound(Spied(gm)) && src.Recorder? && gm.mode(h.g) == Playing
    ensures var r := Exec(HandleAction(Spied(gm), h, id, i), src);
            r.Ok? && r.g.calls == h.calls + [Skill(id, i)] && gm.mode(r.g.g) == Playing
  {
    assert HandleAction(Spied(gm), h, id, i) == Mapped(gm.skill(h.g, id, i), Noting(h.calls + [Skill(id, i)]));
    ExecMapped(gm.skill(h.g, id, i), Noting(h.calls + [Skill(id, i)]), src);
    AlwaysHolds(gm.skill(h.g, id, i), InMode(gm.mode, Playing), src);
  }

  lemma PlayHeard<G(!new)>(gm: Game<G>, h: Heard<G>, i: Input, dt: real, src: Source)
    requires Sound(gm) && Sound(Spied(gm)) && src.Recorder? && gm.mode(h.g) == Playing
    ensures var r := Exec(Update(Spied(gm), h, i, dt), src);
            r.Ok? && r.g.calls == h.calls + [Play(i, dt)]
  {
    assert Update(Spied(gm), h, i, dt) == Mapped(gm.play(h.g, i, dt), Noting(h.calls + [Play(i, dt)]));
    ExecMapped(gm.play(h.g, i, dt), Noting(h.calls + [Play(i, dt)]), src);
  }

  lemma {:induction false} ActionsHeard<G(!new)>(gm: Game<G>, st: Stepped<Heard<G>>, presses: seq<Pressed>)
    requires Sound(gm) && SkillsPlayOn(gm) && Sound(Spied(gm)) && GameTicks.Recording(st)
    requires gm.mode(st.g.g) == Playing && FinitePresses(presses)
    ensures var r := ApplyActions(Driver, Spied(gm), st, Recording(presses));
            && r.Stepped? && gm.mode(r.g.g) == Playing
            && r.input == st.input.(cursor := LastCursor(st.input.cursor, presses))
            && r.g.calls == st.g.calls + Skills(st.input.move, presses)
    decreases |presses|
  {
    hide Sound, SkillsPlayOn, Spied, ApplyAction, Recording, Skills, LastCursor;
    if presses == [] {
      NoPresses(st.input, presses);
    } else {
      var p, actions := presses[0], Recording(presses);
      FirstPress(st.input, presses);
      assert p in presses;
      ActionHeard(gm, st, p, actions[0]);
      var next := ApplyAction(Driver, Spied(gm), st, actions[0]);
      ActionsHeard(gm, next, presses[1..]);
      Associates(st.g.calls, if p.id == "" then [] else [Skill(p.id, Input(st.input.move, p.cursor))],
                 Skills(st.input.move, presses[1..]));
    }
  }

  lemma NoPresses(input: Input, presses: seq<Pressed>)
    requires presses == []
    ensures Recording(presses) == [] && Skills(input.move, presses) == []
    ensures LastCursor(input.cursor, presses) == input.cursor
  {
  }

  lemma ActionHeard<G(!new)>(gm: Game<G>, st: Stepped<Heard<G>>, p: Pressed, a: Action)
    requires Sound(gm) && SkillsPlayOn(gm) && Sound(Spied(gm)) && GameTicks.Recording(st)
    requires gm.mode(st.g.g) == Playing && FiniteCursor(p.cursor)
    requires a == Action(p.id, Some(Aim(Some(p.cursor.x), Some(p.cursor.y), Some(p.cursor.has))))
    ensures var r := ApplyAction(Driver, Spied(gm), st, a);
            && r.Stepped? && gm.mode(r.g.g) == Playing
            && r.input == st.input.(cursor := if p.id == "" then st.input.cursor else p.cursor)
            && r.g.calls == st.g.calls + if p.id == "" then [] else [Skill(p.id, Input(st.input.move, p.cursor))]
  {
    if p.id != "" {
      SkillHeard(gm, st.g, p.id, st.input.(cursor := p.cursor), st.src);
    }
  }

  lemma TickHeard<G(!new)>(gm: Game<G>, st: Stepped<Heard<G>>, presses: seq<Pressed>)
    requires Sound(gm) && SkillsPlayOn(gm) && Sound(Spied(gm)) && GameTicks.Recording(st)
    requires gm.mode(st.g.g) == Playing && FinitePresses(presses)
    ensures var r := RunTick(Driver, Spied(gm), st, Recording(presses), SIM_DT);
            && r.Stepped?
            && r.input == st.input.(cursor := LastCursor(st.input.cursor, presses))
            && r.g.calls == st.g.calls + Asked(st.input, presses, 1)
  {
    ActionsHeard(gm, st, presses);
    var mid := ApplyActions(Driver, Spied(gm), st, Recording(presses));
    PlayHeard(gm, mid.g, mid.input, SIM_DT, mid.src);
    var play := Play(mid.input, SIM_DT);
    assert Repeated(play, 0) == [] && Repeated(play, 1) == [play];
  }

  /** What `n` recorded ticks write down: the presses that waited in the first of them. */
  function Written(input: Input, presses: seq<Pressed>, n: nat): seq<Tick> {
    if n == 0 then []
    else
      [Tick(input.move, input.cursor, Recording(presses))]
      + Repeated(Tick(input.move, LastCursor(input.cursor, presses), []), n - 1)
  }

  lemma WrittenOneMore(input: Input, presses: seq<Pressed>, n: nat)
    ensures var next := input.(cursor := LastCursor(input.cursor, presses));
            Written(input, presses, n + 1) == Written(input, presses, 1) + Written(next, [], n)
  {
    var next := input.(cursor := LastCursor(input.cursor, presses));
    var idle := Tick(next.move, next.cursor, []);
    assert Recording([]) == [];
    assert n > 0 ==> Repeated(idle, n) == [idle] + Repeated(idle, n - 1);
    assert Repeated(idle, 0) == [];
  }

  /** The spied run stands as it should: not marked ended, and nothing waits outside PLAY. */
  ghost predicate Attentive<G(!new)>(gm: Game<G>, s: Live<Heard<G>>, presses: seq<Pressed>)
    requires Sound(gm)
  {
    && Sound(Spied(gm)) && Wf(Spied(gm), s) && !s.ended
    && s.queue == Recording(presses) && FinitePresses(presses)
    && (gm.mode(s.g.g) != Playing ==> presses == [])
  }

  lemma LiveTickHeard<G(!new)>(gm: Game<G>, s: Live<Heard<G>>, presses: seq<Pressed>)
    requires Sound(gm) && SkillsPlayOn(gm) && Attentive(gm, s, presses)
    ensures var s' := LiveTick(Spied(gm), s);
            Attentive(gm, s', [])
            && if gm.mode(s.g.g) == Playing then
                 && s'.g.calls == s.g.calls + Asked(s.input, presses, 1)
                 && s'.input == s.input.(cursor := LastCursor(s.input.cursor, presses))
                 && s'.ticks == s.ticks + Written(s.input, presses, 1)
               else s'.g.calls == s.g.calls && s'.input == s.input && s'.ticks == s.ticks
    ensures |LiveTick(Spied(gm), s).ticks| == |s.ticks| + if gm.mode(s.g.g) == Playing then 1 else 0
  {
    assert Recording([]) == [];
    if gm.mode(s.g.g) == Playing {
      TickHeard(gm, Stepped(s.g, s.input, s.src), presses);
    } else {
      assert ApplyActions(Driver, Spied(gm), Stepped(s.g, s.input, s.src), []) == Stepped(s.g, s.input, s.src);
    }
    var idle := Tick(s.input.move, LastCursor(s.input.cursor, presses), []);
    assert Repeated(idle, 0) == [];
  }

  /** The ticks of one frame. */
  lemma {:induction false} DrainHeard<G(!new)>(gm: Game<G>, s: Live<Heard<G>>, presses: seq<Pressed>)
    requires Sound(gm) && SkillsPlayOn(gm) && Attentive(gm, s, presses)
    ensures var s' := DrainAcc(Spied(gm), s);
            |s'.ticks| >= |s.ticks| &&
            var n := |s'.ticks| - |s.ticks|;
            && Attentive(gm, s', if n > 0 then [] else presses)
            && s'.g.calls == s.g.calls + Asked(s.input, presses, n)
            && s'.input == (if n > 0 then s.input.(cursor := LastCursor(s.input.cursor, presses)) else s.input)
            && s'.ticks == s.ticks + Written(s.input, presses, n)
    decreases TicksDue(s.acc)
  {
    hide LiveTick, Asked, Written, Recording, SkillsPlayOn;
    NothingAsked(s.input, presses, 0);
    if s.acc >= SIM_DT {
      LiveTickHeard(gm, s, presses);
      var t := LiveTick(Spied(gm), s);
      if gm.mode(t.g.g) != Over {
        TickUsesTime(Spied(gm), s);
        DrainHeard(gm, t, []);
        var m: nat := |DrainAcc(Spied(gm), t).ticks| - |t.ticks|;
        AskedOneMore(s.input, presses, m);
        WrittenOneMore(s.input, presses, m);
      }
    }
  }

  lemma NothingAsked(input: Input, presses: seq<Pressed>, n: nat)
    requires n == 0
    ensures Asked(input, presses, n) == [] && Written(input, presses, n) == []
  {
  }

  // ---- whole runs ----

  /** What is known of a run from its events alone, but for the number of ticks a frame records. */
  datatype Desk = Desk(
    input: Input, waiting: seq<Pressed>, made: seq<Pressed>, ticks: seq<Tick>, calls: seq<Call>)

  /** One event; `playing` says whether the game is in PLAY and `n` how many ticks the event records. */
  function Served(d: Desk, ev: Event, playing: bool, n: nat): Desk {
    match ev
    case Keys(move) => d.(input := d.input.(move := move))
    case Point(cursor) => d.(input := d.input.(cursor := cursor))
    case Press(id) =>
      var p := Pressed(id, d.input.cursor);
      if playing then d.(waiting := d.waiting + [p], made := d.made + [p]) else d
    case Frame(_) =>
      Desk(if n > 0 then d.input.(cursor := LastCursor(d.input.cursor, d.waiting)) else d.input,
           if n > 0 then [] else d.waiting,
           d.made,
           d.ticks + Written(d.input, d.waiting, n),
           d.calls + Asked(d.input, d.waiting, n) + [Drawn])
    case Finish => d
  }

  function Difference(a: nat, b: nat): nat {
    if a > b then a - b else 0
  }

  /** The desk after a run of events from the start of a game. */
  ghost function DeskAfter<G(!new)>(gm: Game<G>, s: Live<Heard<G>>, events: seq<Event>): Desk
    requires Sound(gm) && Wf(Spied(gm), s)
  {
    if events == [] then Desk(s.input, [], [], s.ticks, s.g.calls)
    else
      var front := events[..|events| - 1];
      var before, after := Run(Spied(gm), s, front), Run(Spied(gm), s, events);
      Served(DeskAfter(gm, s, front), events[|events| - 1], gm.mode(before.g.g) == Playing,
             Difference(|after.ticks|, |before.ticks|))
  }

  /** The run is as the desk says. */
  ghost predicate Serves<G(!new)>(gm: Game<G>, d: Desk, s: Live<Heard<G>>)
    requires Sound(gm)
  {
    Attentive(gm, s, d.waiting) && s.input == d.input && s.ticks == d.ticks && s.g.calls == d.calls
  }

  lemma {:induction false} RecordingAppend(presses: seq<Pressed>, more: seq<Pressed>)
    ensures Recording(presses + more) == Recording(presses) + Recording(more)
  {
    hide Recording;
    if presses == [] {
      NoPresses(Input(Move(0, 0), ORIGIN), presses);
      assert presses + more == more;
    } else {
      RecordingAppend(presses[1..], more);
      assert (presses + more)[1..] == presses[1..] + more;
      assert (presses + more)[0] == presses[0];
      FirstPress(Input(Move(0, 0), ORIGIN), presses);
      FirstPress(Input(Move(0, 0), ORIGIN), presses + more);
      Associates(Recording(presses)[..1], Recording(presses[1..]), Recording(more));
    }
  }

  lemma PressServed<G(!new)>(gm: Game<G>, s: Live<Heard<G>>, d: Desk, id: string)
    requires Sound(gm) && Serves(gm, d, s) && FiniteCursor(s.input.cursor)
    ensures Serves(gm, Served(d, Press(id), gm.mode(s.g.g) == Playing, 0), Step(Spied(gm), s, Press(id)))
  {
    var p := Pressed(id, d.input.cursor);
    RecordingAppend(d.waiting, [p]);
    var one := [p];
    assert one[1..] == [];
    assert Recording(one) == [Action(p.id, Some(Aim(Some(p.cursor.x), Some(p.cursor.y), Some(p.cursor.has))))];
  }

  lemma FrameServed<G(!new)>(gm: Game<G>, s: Live<Heard<G>>, d: Desk, ts: real)
    requires Sound(gm) && SkillsPlayOn(gm) && Serves(gm, d, s) && FiniteCursor(s.input.cursor)
    ensures var s' := Step(Spied(gm), s, Frame(ts));
            && Serves(gm, Served(d, Frame(ts), gm.mode(s.g.g) == Playing, Difference(|s'.ticks|, |s.ticks|)), s')
            && FiniteCursor(s'.input.cursor)
  {
    hide DrainAcc, Asked, Written, LastCursor, Recording, Spied, SkillsPlayOn;
    var t := AddFrame(s, ts);
    assert Attentive(gm, t, d.waiting);
    DrainHeard(gm, t, d.waiting);
    FiniteLast(s.input.cursor, d.waiting);
    PictureServed(gm, DrainAcc(Spied(gm), t));
  }

  lemma PictureServed<G(!new)>(gm: Game<G>, s: Live<Heard<G>>)
    requires Sound(gm) && Sound(Spied(gm)) && Wf(Spied(gm), s)
    ensures var s' := Picture(Spied(gm), s);
            && s'.g.calls == s.g.calls + [Drawn] && gm.mode(s'.g.g) == gm.mode(s.g.g)
            && s' == s.(g := s'.g, shown := s'.shown) && Wf(Spied(gm), s')
  {
  }

  lemma {:induction false} FiniteLast(cursor: Cursor, presses: seq<Pressed>)
    requires FiniteCursor(cursor) && FinitePresses(presses)
    ensures FiniteCursor(LastCursor(cursor, presses))
    decreases |presses|
  {
    if presses != [] {
      assert presses[0] in presses;
      FiniteLast(if presses[0].id == "" then cursor else presses[0].cursor, presses[1..]);
    }
  }

  ghost predicate Unfinished(events: seq<Event>) {
    forall ev :: ev in events ==> !ev.Finish?
  }

  lemma StartServed<G(!new)>(gm: Game<G>, base: Stream, input: Input, lastTs: real)
    requires Sound(gm)
    ensures Sound(Spied(gm)) &&
            var s := StartGame(Spied(gm), base, input, lastTs);
            Wf(Spied(gm), s) && Serves(gm, Desk(input, [], [], [], []), s)
  {
    SpiedSound(gm);
    ExecMapped(gm.start, Noting([]), Recorder(base, []));
    assert Recording([]) == [];
  }

  /**
   Any run that is not marked ended: every press made in PLAY reaches the game, once and in order and with the cursor of
   its moment, before the update of the first tick that follows; every tick is an update with the input of its moment,
     and
   every frame ends with one picture. The recorded ticks say the same.
   */
  lemma {:induction false} RunHeard<G(!new)>(
      gm: Game<G>, base: Stream, input: Input, lastTs: real, events: seq<Event>)
    requires Sound(gm) && SkillsPlayOn(gm) && FiniteCursor(input.cursor) && FiniteEvents(events) && Unfinished(events)
    ensures Sound(Spied(gm)) &&
            var s0 := StartGame(Spied(gm), base, input, lastTs);
            var s := Run(Spied(gm), s0, events);
            Serves(gm, DeskAfter(gm, s0, events), s) && FiniteCursor(s.input.cursor)
  {
    StartServed(gm, base, input, lastTs);
    var s0 := StartGame(Spied(gm), base, input, lastTs);
    if events != [] {
      var front, ev := events[..|events| - 1], events[|events| - 1];
      assert ev in events;
      RunHeard(gm, base, input, lastTs, front);
      var s, d := Run(Spied(gm), s0, front), DeskAfter(gm, s0, front);
      match ev
      case Press(id) => PressServed(gm, s, d, id);
      case Frame(ts) => FrameServed(gm, s, d, ts);
      case Keys(_) =>
      case Point(_) =>
    }
  }

  // ---- the presses on record ----

  /** All actions of a list of ticks, in order. */
  function ActionsOf(ticks: seq<Tick>): seq<Action> {
    if ticks == [] then [] else ActionsOf(ticks[..|ticks| - 1]) + ticks[|ticks| - 1].actions
  }

  lemma LastTick(ticks: seq<Tick>, front: seq<Tick>, last: Tick)
    requires ticks == front + [last]
    ensures ActionsOf(ticks) == ActionsOf(front) + last.actions
  {
    assert ticks[..|ticks| - 1] == front;
  }

  lemma {:induction false} ActionsAppend(ticks: seq<Tick>, more: seq<Tick>)
    ensures ActionsOf(ticks + more) == ActionsOf(ticks) + ActionsOf(more)
  {
    if more == [] {
      assert ticks + more == ticks;
    } else {
      var front, last := more[..|more| - 1], more[|more| - 1];
      ActionsAppend(ticks, front);
      LastTick(ticks + more, ticks + front, last);
      LastTick(more, front, last);
      Associates(ActionsOf(ticks), ActionsOf(front), last.actions);
      hide ActionsOf;
    }
  }

  lemma {:induction false} IdleActions(idle: Tick, n: nat)
    requires idle.actions == []
    ensures ActionsOf(Repeated(idle, n)) == []
  {
    if n > 0 {
      IdleActions(idle, n - 1);
      ActionsAppend([idle], Repeated(idle, n - 1));
      OneTick(idle);
    }
  }

  lemma OneTick(t: Tick)
    ensures ActionsOf([t]) == t.actions
  {
    var one := [t];
    assert one[..0] == [];
    assert ActionsOf(one) == ActionsOf([]) + t.actions;
  }

  lemma WrittenActions(input: Input, presses: seq<Pressed>, n: nat)
    ensures ActionsOf(Written(input, presses, n)) == if n > 0 then Recording(presses) else []
  {
    if n > 0 {
      var first := Tick(input.move, input.cursor, Recording(presses));
      var idle := Tick(input.move, LastCursor(input.cursor, presses), []);
      IdleActions(idle, n - 1);
      OneTick(first);
      ActionsAppend([first], Repeated(idle, n - 1));
    }
  }

  ghost predicate AllOnRecord(d: Desk) {
    ActionsOf(d.ticks) + Recording(d.waiting) == Recording(d.made)
  }

  lemma ServedOnRecord(d: Desk, ev: Event, playing: bool, n: nat)
    requires AllOnRecord(d)
    ensures AllOnRecord(Served(d, ev, playing, n))
  {
    assert Recording([]) == [];
    if ev.Press? && playing {
      var one := [Pressed(ev.id, d.input.cursor)];
      RecordingAppend(d.waiting, one);
      RecordingAppend(d.made, one);
      hide Recording, ActionsOf;
    }
    if ev.Frame? {
      WrittenActions(d.input, d.waiting, n);
      ActionsAppend(d.ticks, Written(d.input, d.waiting, n));
      if n == 0 {
        assert d.ticks + [] == d.ticks;
      }
    }
  }

  lemma {:induction false} DeskOnRecord<G(!new)>(gm: Game<G>, s: Live<Heard<G>>, events: seq<Event>)
    requires Sound(gm) && Wf(Spied(gm), s) && s.ticks == []
    ensures AllOnRecord(DeskAfter(gm, s, events))
  {
    if events == [] {
      assert Recording([]) == [];
    } else {
      var front := events[..|events| - 1];
      DeskOnRecord(gm, s, front);
      var before, after := Run(Spied(gm), s, front), Run(Spied(gm), s, events);
      ServedOnRecord(DeskAfter(gm, s, front), events[|events| - 1], gm.mode(before.g.g) == Playing,
                     Difference(|after.ticks|, |before.ticks|));
    }
  }

  // ---- a run that is marked ended ----

  predicate NoSkills(calls: seq<Call>) {
    forall i :: 0 <= i < |calls| ==> !calls[i].Skill?
  }

  /** Nothing but updates and pictures came after. */
  ghost predicate OnlyPlayed(calls: seq<Call>, later: seq<Call>) {
    calls <= later && NoSkills(later[|calls|..])
  }

  lemma EndedTickHeard<G(!new)>(gm: Game<G>, s: Live<Heard<G>>)
    requires Sound(gm) && Sound(Spied(gm)) && Wf(Spied(gm), s) && s.ended
    ensures var s' := LiveTick(Spied(gm), s);
            && s'.ended && s'.ticks == s.ticks && OnlyPlayed(s.g.calls, s'.g.calls)
            && (s'.queue == s.queue || s'.queue == [])
  {
    var st := Stepped(s.g, s.input, s.src);
    assert ApplyActions(Driver, Spied(gm), st, []) == st;
    if gm.mode(s.g.g) == Playing {
      PlayHeard(gm, s.g, s.input, SIM_DT, s.src);
    }
  }

  lemma {:induction false} EndedDrainHeard<G(!new)>(gm: Game<G>, s: Live<Heard<G>>)
    requires Sound(gm) && Sound(Spied(gm)) && Wf(Spied(gm), s) && s.ended
    ensures var s' := DrainAcc(Spied(gm), s);
            && s'.ended && s'.ticks == s.ticks && OnlyPlayed(s.g.calls, s'.g.calls)
            && (s'.queue == s.queue || s'.queue == [])
    decreases TicksDue(s.acc)
  {
    if s.acc >= SIM_DT {
      EndedTickHeard(gm, s);
      var t := LiveTick(Spied(gm), s);
      if gm.mode(t.g.g) != Over {
        TickUsesTime(Spied(gm), s);
        EndedDrainHeard(gm, t);
        OnlyPlayedTwice(s.g.calls, t.g.calls, DrainAcc(Spied(gm), t).g.calls);
      }
    }
  }

  lemma OnlyPlayedTwice(a: seq<Call>, b: seq<Call>, c: seq<Call>)
    requires OnlyPlayed(a, b) && OnlyPlayed(b, c)
    ensures OnlyPlayed(a, c)
  {
    forall i | 0 <= i < |c[|a|..]|
      ensures !c[|a|..][i].Skill?
    {
      if |a| + i < |b| {
        assert c[|a|..][i] == b[|a|..][i];
      } else {
        assert c[|a|..][i] == c[|b|..][|a| + i - |b|];
      }
    }
  }

  /** From then on no press is queued, recorded or heard; what still waited is kept or dropped as a whole. */
  lemma {:induction false} EndedIsDeaf<G(!new)>(gm: Game<G>, s: Live<Heard<G>>, events: seq<Event>)
    requires Sound(gm) && Sound(Spied(gm)) && Wf(Spied(gm), s) && s.ended
    ensures var s' := Run(Spied(gm), s, events);
            && s'.ended && s'.ticks == s.ticks && OnlyPlayed(s.g.calls, s'.g.calls)
            && (s'.queue == s.queue || s'.queue == [])
  {
    if events != [] {
      var front, ev := events[..|events| - 1], events[|events| - 1];
      EndedIsDeaf(gm, s, front);
      var t := Run(Spied(gm), s, front);
      if ev.Frame? {
        EndedDrainHeard(gm, AddFrame(t, ev.ts));
        var u := DrainAcc(Spied(gm), AddFrame(t, ev.ts));
        OnlyPlayedTwice(s.g.calls, t.g.calls, u.g.calls);
        assert OnlyPlayed(u.g.calls, u.g.calls + [Drawn]);
        OnlyPlayedTwice(s.g.calls, u.g.calls, u.g.calls + [Drawn]);
      }
    }
  }

  // ---- spying changes nothing ----

  function PlainLog<G>(log: seq<Mark<Heard<G>>>): (plain: seq<Mark<G>>)
    ensures |plain| == |log|
  {
    if log == [] then []
    else PlainLog(log[..|log| - 1]) + [Mark(log[|log| - 1].g.g, log[|log| - 1].drawn)]
  }

  lemma PlainLogNext<G>(log: seq<Mark<Heard<G>>>, mark: Mark<Heard<G>>)
    ensures PlainLog(log + [mark]) == PlainLog(log) + [Mark(mark.g.g, mark.drawn)]
  {
    assert (log + [mark])[..|log|] == log;
  }

  /** The run without the notes. */
  function Plain<G>(s: Live<Heard<G>>): Live<G> {
    Live(s.g.g, s.input, s.acc, s.lastTs, s.queue, s.ticks, s.ended, s.src, PlainLog(s.log), s.shown)
  }

  function PlainStep<G>(st: Stepped<Heard<G>>): Stepped<G> {
    match st
    case Stepped(h, input, src) => Stepped(h.g, input, src)
    case Threw => Threw
  }

  lemma PlainAction<G(!new)>(gm: Game<G>, st: Stepped<Heard<G>>, a: Action)
    requires Sound(gm) && Sound(Spied(gm))
    ensures PlainStep(ApplyAction(Driver, Spied(gm), st, a)) == ApplyAction(Driver, gm, PlainStep(st), a)
  {
    if st.Stepped? && a.id != "" && gm.mode(st.g.g) == Playing {
      var cursor := if a.cursor.Some? then MoveCursor(Driver, st.input.cursor, a.cursor.value) else st.input.cursor;
      var i := st.input.(cursor := cursor);
      assert HandleAction(Spied(gm), st.g, a.id, i)
        == Mapped(gm.skill(st.g.g, a.id, i), Noting(st.g.calls + [Skill(a.id, i)]));
      ExecMapped(gm.skill(st.g.g, a.id, i), Noting(st.g.calls + [Skill(a.id, i)]), st.src);
    }
  }

  lemma {:induction false} PlainActions<G(!new)>(gm: Game<G>, st: Stepped<Heard<G>>, actions: seq<Action>)
    requires Sound(gm) && Sound(Spied(gm))
    ensures PlainStep(ApplyActions(Driver, Spied(gm), st, actions)) == ApplyActions(Driver, gm, PlainStep(st), actions)
    decreases |actions|
  {
    if actions != [] {
      PlainAction(gm, st, actions[0]);
      PlainActions(gm, ApplyAction(Driver, Spied(gm), st, actions[0]), actions[1..]);
      hide Sound, ApplyAction, Spied;
    }
  }

  lemma PlainTick<G(!new)>(gm: Game<G>, st: Stepped<Heard<G>>, actions: seq<Action>, dt: real)
    requires Sound(gm) && Sound(Spied(gm))
    ensures PlainStep(RunTick(Driver, Spied(gm), st, actions, dt)) == RunTick(Driver, gm, PlainStep(st), actions, dt)
  {
    PlainActions(gm, st, actions);
    var mid := ApplyActions(Driver, Spied(gm), st, actions);
    if mid.Stepped? && gm.mode(mid.g.g) == Playing {
      assert Update(Spied(gm), mid.g, mid.input, dt)
        == Mapped(gm.play(mid.g.g, mid.input, dt), Noting(mid.g.calls + [Play(mid.input, dt)]));
      ExecMapped(gm.play(mid.g.g, mid.input, dt), Noting(mid.g.calls + [Play(mid.input, dt)]), mid.src);
    }
  }

  lemma PlainLiveTick<G(!new)>(gm: Game<G>, s: Live<Heard<G>>)
    requires Sound(gm) && Wf(Spied(gm), s)
    ensures Wf(gm, Plain(s)) && Plain(LiveTick(Spied(gm), s)) == LiveTick(gm, Plain(s))
  {
    var on := Recorded(Spied(gm), s);
    PlainTick(gm, Stepped(s.g, s.input, s.src), if on then s.queue else [], SIM_DT);
    var s' := LiveTick(Spied(gm), s);
    if on {
      PlainLogNext(s.log, Mark(s'.g, |s'.src.tape|));
    }
    hide RunTick;
  }

  lemma {:induction false} PlainDrain<G(!new)>(gm: Game<G>, s: Live<Heard<G>>)
    requires Sound(gm) && Wf(Spied(gm), s)
    ensures Wf(gm, Plain(s)) && Plain(DrainAcc(Spied(gm), s)) == DrainAcc(gm, Plain(s))
    decreases TicksDue(s.acc)
  {
    PlainLiveTick(gm, s);
    if s.acc >= SIM_DT {
      TickUsesTime(Spied(gm), s);
      if gm.mode(LiveTick(Spied(gm), s).g.g) != Over {
        PlainDrain(gm, LiveTick(Spied(gm), s));
      }
    }
    hide LiveTick, PlainLog, Sound;
  }

  /** A run whose calls are written down is the run itself. */
  lemma {:induction false} SpyingChangesNothing<G(!new)>(
      gm: Game<G>, base: Stream, input: Input, lastTs: real, events: seq<Event>)
    requires Sound(gm)
    ensures Sound(Spied(gm))
    ensures Plain(Run(Spied(gm), StartGame(Spied(gm), base, input, lastTs), events))
              == Run(gm, StartGame(gm, base, input, lastTs), events)
  {
    StartServed(gm, base, input, lastTs);
    PlainStart(gm, base, input, lastTs);
    PlainRun(gm, StartGame(Spied(gm), base, input, lastTs), events);
    hide Plain, StartGame, Run;
  }

  lemma PlainFrame<G(!new)>(gm: Game<G>, s: Live<Heard<G>>, ts: real)
    requires Sound(gm) && Wf(Spied(gm), s)
    ensures Wf(gm, Plain(s)) && Plain(FrameStep(Spied(gm), s, ts)) == FrameStep(gm, Plain(s), ts)
  {
    hide DrainAcc, PlainLog;
    PlainDrain(gm, AddFrame(s, ts));
    assert Plain(AddFrame(s, ts)) == AddFrame(Plain(s), ts);
    PlainPicture(gm, DrainAcc(Spied(gm), AddFrame(s, ts)));
    hide Plain, AddFrame, Picture;
  }

  lemma PlainPicture<G(!new)>(gm: Game<G>, s: Live<Heard<G>>)
    requires Sound(gm) && Wf(Spied(gm), s)
    ensures Wf(gm, Plain(s)) && Plain(Picture(Spied(gm), s)) == Picture(gm, Plain(s))
  {
    hide PlainLog;
  }

  lemma PlainEvent<G(!new)>(gm: Game<G>, s: Live<Heard<G>>, ev: Event)
    requires Sound(gm) && Wf(Spied(gm), s)
    ensures Wf(gm, Plain(s)) && Plain(Step(Spied(gm), s, ev)) == Step(gm, Plain(s), ev)
  {
    hide FrameStep, PlainLog;
    if ev.Frame? {
      PlainFrame(gm, s, ev.ts);
    }
  }

  lemma {:induction false} PlainRun<G(!new)>(gm: Game<G>, s: Live<Heard<G>>, events: seq<Event>)
    requires Sound(gm) && Wf(Spied(gm), s)
    ensures Wf(gm, Plain(s)) && Plain(Run(Spied(gm), s, events)) == Run(gm, Plain(s), events)
  {
    if events != [] {
      var front := events[..|events| - 1];
      PlainRun(gm, s, front);
      PlainEvent(gm, Run(Spied(gm), s, front), events[|events| - 1]);
    }
    hide Plain, Step, Wf;
  }

  lemma PlainStart<G(!new)>(gm: Game<G>, base: Stream, input: Input, lastTs: real)
    requires Sound(gm) && Sound(Spied(gm))
    ensures Plain(StartGame(Spied(gm), base, input, lastTs)) == StartGame(gm, base, input, lastTs)
  {
    ExecMapped(gm.start, Noting([]), Recorder(base, []));
    var log := StartGame(Spied(gm), base, input, lastTs).log;
    assert log[..0] == [];
    assert PlainLog(log[..0]) == [];
  }

  /**
   So for the run of the game itself: what is recorded and what still waits is what the desk says,
     and the recorded actions
   followed by the queue are exactly the presses made in PLAY, each once,
     in order and with the cursor of its moment. Nothing
   is dropped while the run is not marked ended.
   */
  lemma PressesDelivered<G(!new)>(
      gm: Game<G>, base: Stream, input: Input, lastTs: real, events: seq<Event>)
    requires Sound(gm) && SkillsPlayOn(gm) && FiniteCursor(input.cursor) && FiniteEvents(events) && Unfinished(events)
    ensures Sound(Spied(gm)) &&
            var d := DeskAfter(gm, StartGame(Spied(gm), base, input, lastTs), events);
            var s := Run(gm, StartGame(gm, base, input, lastTs), events);
            && s.input == d.input && s.ticks == d.ticks && s.queue == Recording(d.waiting)
            && ActionsOf(s.ticks) + s.queue == Recording(d.made)
  {
    RunHeard(gm, base, input, lastTs, events);
    DeskOnRecord(gm, StartGame(Spied(gm), base, input, lastTs), events);
    SpyingChangesNothing(gm, base, input, lastTs, events);
    hide Recording, ActionsOf, Run, StartGame, DeskAfter, Spied;
  }
}
