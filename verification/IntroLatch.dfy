/**
 The one place where a picture changes the game (public/js/game.js): the first
 evaluation of the difficulty at which the score has reached `introScore` notes the
 time, and drawing the pipes evaluates it too. The noted time shapes every later
 spawn, so it matters when pictures are drawn - exactly from that score on.
 */
module IntroLatch {
  import opened Options
  import opened RandomPrograms
  import opened TickFold
  import opened GameTicks
  import opened Modes
  import opened LiveRecording
  import opened Fidelity
  import opened LateFrames
  import RunModel

  /** Where a game keeps what the latch is about. */
  datatype Latch<!G> = Latch(intro: real, score: G -> real, time: G -> real, offset: G -> Option<real>)

  /** The next evaluation of the difficulty sets the offset. */
  predicate Due<G>(l: Latch<G>, g: G) {
    RunModel.IntroDue(l.intro, l.score(g), l.offset(g))
  }

  predicate Unmoved<G>(l: Latch<G>, g: G, g': G) {
    l.score(g') == l.score(g) && l.time(g') == l.time(g) && l.offset(g') == l.offset(g)
  }

  function Unset<G>(l: Latch<G>): G -> bool {
    (g: G) => l.offset(g) == None
  }

  function Keeping<G>(l: Latch<G>, g: G): G -> bool {
    (g': G) => Unmoved(l, g, g')
  }

  /** What a tick may do: time passes, and an offset that is due may be noted - with the new time. */
  function Ticking<G>(l: Latch<G>, g: G, dt: real): G -> bool {
    (g': G) =>
      && l.time(g') == l.time(g) + dt
      && (l.offset(g') == l.offset(g) || (Due(l, g) && l.offset(g') == Some(l.time(g'))))
  }

  /** A game with the latch: a run starts without an offset, skills leave it alone, ticks and pictures may set it. */
  ghost predicate Latches<G(!new)>(gm: Game<G>, l: Latch<G>)
    requires Sound(gm)
  {
    && Always(gm.start, Unset(l))
    && (forall g, id, i :: Always(gm.skill(g, id, i), Keeping(l, g)))
    && (forall g, i :: Always(gm.play(g, i, SIM_DT), Ticking(l, g, SIM_DT)))
    && (forall g :: !Due(l, g) ==> gm.render(g) == g)
    && (forall g :: Due(l, g) ==> l.offset(gm.render(g)) == Some(l.time(g)))
  }

  /** A picture leaves a state alone exactly if the offset is not due. */
  lemma StillIff<G(!new)>(gm: Game<G>, l: Latch<G>, g: G)
    requires Sound(gm) && Latches(gm, l)
    ensures gm.render(g) == g <==> !Due(l, g)
  {
  }

  // ---- one tick ----

  lemma {:induction false} ActionsKeep<G(!new)>(path: Path, gm: Game<G>, l: Latch<G>, st: Stepped<G>,
                                                actions: seq<Action>)
    requires Sound(gm) && Latches(gm, l) && st.Stepped?
    ensures var r := ApplyActions(path, gm, st, actions); r.Stepped? ==> Unmoved(l, st.g, r.g)
    decreases |actions|
  {
    if actions != [] {
      var a := actions[0];
      var next := ApplyAction(path, gm, st, a);
      if a.id != "" {
        var cursor := if a.cursor.Some? then MoveCursor(path, st.input.cursor, a.cursor.value) else st.input.cursor;
        var i := st.input.(cursor := cursor);
        if gm.mode(st.g) == Playing {
          AlwaysHolds(gm.skill(st.g, a.id, i), Keeping(l, st.g), st.src);
        }
      }
      if next.Stepped? {
        ActionsKeep(path, gm, l, next, actions[1..]);
      } else {
        ThrewStays(path, gm, actions[1..]);
      }
    }
  }

  lemma {:induction false} ThrewStays<G(!new)>(path: Path, gm: Game<G>, actions: seq<Action>)
    requires Sound(gm)
    ensures ApplyActions(path, gm, Threw, actions) == Threw
    decreases |actions|
  {
    if actions != [] { ThrewStays(path, gm, actions[1..]); }
  }

  /** A replayed tick leaves the offset alone, or notes the new, later time when it was due. */
  lemma TickMoves<G(!new)>(path: Path, gm: Game<G>, l: Latch<G>, at: Spot<G>, t: Tick)
    requires Sound(gm) && Latches(gm, l)
    ensures var r := Replay(path, gm).apply(at, t);
            r.Some? ==>
              && l.time(r.value.g) >= l.time(at.g)
              && (l.offset(r.value.g) == l.offset(at.g)
                  || (Due(l, at.g) && l.offset(r.value.g) == Some(l.time(r.value.g))
                      && l.time(r.value.g) > l.time(at.g)))
  {
    var st := Stepped(at.g, Input(t.move, t.cursor), at.src);
    var mid := ApplyActions(path, gm, st, t.actions);
    ActionsKeep(path, gm, l, st, t.actions);
    if mid.Stepped? && gm.mode(mid.g) == Playing {
      AlwaysHolds(gm.play(mid.g, mid.input, SIM_DT), Ticking(l, mid.g, SIM_DT), mid.src);
    }
  }

  // ---- the rest of a replay ----

  lemma {:induction false} PicturesKeepOffset<G(!new)>(path: Path, gm: Game<G>, l: Latch<G>, at: Spot<G>, n: nat)
    requires Sound(gm) && Latches(gm, l) && !Due(l, at.g)
    ensures Rendered(Replay(path, gm), at, n) == at
  {
    PicturesOnly(path, gm, at, n);
    PicturesStill(gm, at.g, n);
  }

  /** An offset once noted stays, whatever pictures follow. */
  lemma {:induction false} NotedStays<G(!new)>(
      path: Path, gm: Game<G>, l: Latch<G>, start: Option<Spot<G>>, ticks: seq<Tick>, shows: seq<nat>, k: nat, n: nat,
      o: real)
    requires Sound(gm) && Latches(gm, l) && k <= n <= |ticks| && |shows| == |ticks| + 1
    requires var x := At(Replay(path, gm), start, ticks, shows, k); x.Some? && l.offset(x.value.g) == Some(o)
    ensures var x := At(Replay(path, gm), start, ticks, shows, n); x.Some? ==> l.offset(x.value.g) == Some(o)
  {
    hide At, Replay, Latches, Sound;
    if n > k {
      var m := Replay(path, gm);
      NotedStays(path, gm, l, start, ticks, shows, k, n - 1, o);
      AtNext(m, start, ticks, shows, n - 1);
      var x := At(m, start, ticks, shows, n - 1);
      if x.Some? {
        TickMoves(path, gm, l, x.value, ticks[n - 1]);
        var y := m.apply(x.value, ticks[n - 1]);
        if y.Some? {
          PicturesKeepOffset(path, gm, l, y.value, shows[n]);
        }
      }
    }
  }

  /** Without pictures, an offset that was not noted by the time `o` is noted later or not at all. */
  lemma {:induction false} NotedLater<G(!new)>(
      path: Path, gm: Game<G>, l: Latch<G>, start: Option<Spot<G>>, ticks: seq<Tick>, shows: seq<nat>, k: nat, n: nat,
      o: real)
    requires Sound(gm) && Latches(gm, l) && k <= n <= |ticks| && |shows| == |ticks| + 1
    requires forall j :: k < j < |shows| ==> shows[j] == 0
    requires var x := At(Replay(path, gm), start, ticks, shows, k);
             x.Some? && l.offset(x.value.g) == None && l.time(x.value.g) == o
    ensures var x := At(Replay(path, gm), start, ticks, shows, n);
            x.Some? ==> l.time(x.value.g) >= o && (l.offset(x.value.g).Some? ==> l.offset(x.value.g).value > o)
  {
    hide At, Replay, Latches, Sound;
    if n > k {
      var m := Replay(path, gm);
      NotedLater(path, gm, l, start, ticks, shows, k, n - 1, o);
      AtNext(m, start, ticks, shows, n - 1);
      var x := At(m, start, ticks, shows, n - 1);
      if x.Some? {
        TickMoves(path, gm, l, x.value, ticks[n - 1]);
      }
    }
  }

  // ---- the first state in which the offset is due ----

  lemma StartsUnset<G(!new)>(gm: Game<G>, l: Latch<G>, rep: Source)
    requires Sound(gm) && Latches(gm, l) && Begin(gm, rep).Some?
    ensures l.offset(Begin(gm, rep).value.g) == None
  {
    AlwaysHolds(gm.start, Unset(l), rep);
  }

  /** While the score is below `introScore` at every mark, the offset is not noted. */
  lemma {:induction false} UnsetBelowIntro<G(!new)>(
      path: Path, gm: Game<G>, l: Latch<G>, ticks: seq<Tick>, log: seq<Mark<G>>, shown: seq<nat>, rep: Source, k: nat)
    requires Sound(gm) && Latches(gm, l) && Faithful(path, gm, ticks, log, shown, rep) && k <= |ticks|
    requires forall j :: 0 <= j < k ==> l.score(log[j].g) < l.intro
    ensures l.offset(log[k].g) == None
  {
    var m := Replay(path, gm);
    assert Play(m, Begin(gm, rep), ticks[..k], shown[..k]) == AtMark(rep, log[k]);
    if k == 0 {
      assert ticks[..0] == [];
      StartsUnset(gm, l, rep);
    } else {
      var j := k - 1;
      UnsetBelowIntro(path, gm, l, ticks, log, shown, rep, j);
      var at := Spot(log[j].g, After(rep, log[j].drawn));
      assert ticks[..k][..j] == ticks[..j] && shown[..k][..j] == shown[..j];
      assert Play(m, Begin(gm, rep), ticks[..j], shown[..j]) == AtMark(rep, log[j]) == Some(at);
      assert ticks[..k][j] == ticks[j] && shown[..k][j] == shown[j];
      PicturesKeepOffset(path, gm, l, at, shown[j]);
      TickMoves(path, gm, l, at, ticks[j]);
    }
  }

  /** The live pictures up to mark `k`, then `c` pictures at it, then none. */
  function Until(shown: seq<nat>, k: nat, c: nat): (shows: seq<nat>)
    requires k < |shown|
    ensures |shows| == |shown|
  {
    shown[..k] + [c] + Zeros(|shown| - k - 1)
  }

  lemma {:induction false} ZerosAreZero(n: nat)
    ensures forall j :: 0 <= j < n ==> Zeros(n)[j] == 0
  {
    if n > 0 { ZerosAreZero(n - 1); }
  }

  lemma UntilMark<G(!new)>(
      path: Path, gm: Game<G>, ticks: seq<Tick>, log: seq<Mark<G>>, shown: seq<nat>, rep: Source, k: nat, c: nat)
    requires Sound(gm) && Faithful(path, gm, ticks, log, shown, rep) && k <= |ticks|
    ensures At(Replay(path, gm), Begin(gm, rep), ticks, Until(shown, k, c), k)
              == Some(Spot(Pictures(gm, log[k].g, c), After(rep, log[k].drawn)))
    ensures forall j :: k < j <= |ticks| ==> Until(shown, k, c)[j] == 0
  {
    var shows := Until(shown, k, c);
    ZerosAreZero(|shown| - k - 1);
    assert shows[..k + 1][..k] == shown[..k] && shows[..k + 1][k] == c;
    assert Play(Replay(path, gm), Begin(gm, rep), ticks[..k], shown[..k]) == AtMark(rep, log[k]);
    PicturesOnly(path, gm, Spot(log[k].g, After(rep, log[k].drawn)), c);
  }

  /** Two schedules of one run: with a picture at a mark where the offset is due, and without one from there on. */
  lemma TwoSchedulesDiffer<G(!new)>(
      path: Path, gm: Game<G>, l: Latch<G>, ticks: seq<Tick>, log: seq<Mark<G>>, shown: seq<nat>, rep: Source, k: nat)
    requires Sound(gm) && Latches(gm, l) && Faithful(path, gm, ticks, log, shown, rep)
    requires k <= |ticks| && Due(l, log[k].g)
    ensures var m, start := Replay(path, gm), Begin(gm, rep);
            var with, without := Seen(m, start, ticks, Until(shown, k, 1)), Seen(m, start, ticks, Until(shown, k, 0));
            with != without || with == None
  {
    var m, start, n := Replay(path, gm), Begin(gm, rep), |ticks|;
    var o := l.time(log[k].g);
    UntilMark(path, gm, ticks, log, shown, rep, k, 1);
    assert Pictures(gm, log[k].g, 0) == log[k].g && Pictures(gm, log[k].g, 1) == gm.render(log[k].g);
    NotedStays(path, gm, l, start, ticks, Until(shown, k, 1), k, n, o);
    AtEnd(m, start, ticks, Until(shown, k, 1));
    UntilMark(path, gm, ticks, log, shown, rep, k, 0);
    NotedLater(path, gm, l, start, ticks, Until(shown, k, 0), k, n, o);
    AtEnd(m, start, ticks, Until(shown, k, 0));
  }

  // ---- the condition ----

  /** The score never reaches `introScore`, or there is none. */
  ghost predicate BelowIntro<G(!new)>(l: Latch<G>, log: seq<Mark<G>>) {
    l.intro <= 0.0 || forall k :: 0 <= k < |log| ==> l.score(log[k].g) < l.intro
  }

  lemma {:induction false} FirstDue<G(!new)>(
      path: Path, gm: Game<G>, l: Latch<G>, ticks: seq<Tick>, log: seq<Mark<G>>, shown: seq<nat>, rep: Source, n: nat)
    returns (k: nat)
    requires Sound(gm) && Latches(gm, l) && Faithful(path, gm, ticks, log, shown, rep)
    requires l.intro > 0.0 && n < |log| && l.score(log[n].g) >= l.intro
    ensures k <= n && Due(l, log[k].g)
  {
    if j :| 0 <= j < n && l.score(log[j].g) >= l.intro {
      k := FirstDue(path, gm, l, ticks, log, shown, rep, j);
    } else {
      UnsetBelowIntro(path, gm, l, ticks, log, shown, rep, n);
      k := n;
    }
  }

  lemma QuietIff<G(!new)>(
      path: Path, gm: Game<G>, l: Latch<G>, ticks: seq<Tick>, log: seq<Mark<G>>, shown: seq<nat>, rep: Source)
    requires Sound(gm) && Latches(gm, l) && Faithful(path, gm, ticks, log, shown, rep)
    ensures QuietRun(gm, log) <==> BelowIntro(l, log)
  {
    if BelowIntro(l, log) {
      forall k | 0 <= k < |log|
        ensures gm.render(log[k].g) == log[k].g
      {
        StillIff(gm, l, log[k].g);
      }
    } else {
      var n :| 0 <= n < |log| && l.score(log[n].g) >= l.intro;
      var k := FirstDue(path, gm, l, ticks, log, shown, rep, n);
      StillIff(gm, l, log[k].g);
    }
  }

  /** Every replay of the whole run, whenever it draws its pictures, ends where the live run ended. */
  ghost predicate EndsAlike<G(!new)>(path: Path, gm: Game<G>, s: Live<G>, base: Stream)
    requires Sound(gm) && s.src.Recorder?
  {
    forall shows: seq<nat> :: |shows| == |s.ticks| + 1 ==>
      Seen(Replay(path, gm), Begin(gm, ReplaySource(base, s.src.tape)), s.ticks, shows) == LiveEnd(s, base)
  }

  /**
   When pictures may be drawn at any time: for a game with the latch and a run without late frames, every replay ends
   in the live state with the tape used up if and only if `introScore` is not positive or was never reached.
   */
  lemma EndsAlikeIff<G(!new)>(
      path: Path, gm: Game<G>, l: Latch<G>, base: Stream, input: Input, lastTs: real, events: seq<Event>)
    requires Sound(gm) && Latches(gm, l) && FiniteCursor(input.cursor) && FiniteEvents(events)
    requires NoLateFrame(gm, StartGame(gm, base, input, lastTs), events)
    ensures var s := Run(gm, StartGame(gm, base, input, lastTs), events);
            EndsAlike(path, gm, s, base) <==> BelowIntro(l, s.log)
  {
    var s := Run(gm, StartGame(gm, base, input, lastTs), events);
    var rep := ReplaySource(base, s.src.tape);
    var m, start := Replay(path, gm), Begin(gm, rep);
    ReplayFidelity(path, gm, base, input, lastTs, events);
    TapeExactlyExhausted(path, gm, base, input, lastTs, events);
    QuietIff(path, gm, l, s.ticks, s.log, s.shown, rep);
    if BelowIntro(l, s.log) {
      QuietIsInert(path, gm, s.ticks, s.log, s.shown, rep);
      InertSeen(m, start, s.ticks, s.shown);
      forall shows: seq<nat> | |shows| == |s.ticks| + 1
        ensures Seen(m, start, s.ticks, shows) == LiveEnd(s, base)
      {
        InertSeen(m, start, s.ticks, shows);
      }
    } else {
      var n :| 0 <= n < |s.log| && l.score(s.log[n].g) >= l.intro;
      var k := FirstDue(path, gm, l, s.ticks, s.log, s.shown, rep, n);
      TwoSchedulesDiffer(path, gm, l, s.ticks, s.log, s.shown, rep, k);
    }
  }

  /** The same, tick by tick: whenever pictures are drawn, the replay is in the live state after every tick. */
  lemma FaithfulAnyhowIff<G(!new)>(
      path: Path, gm: Game<G>, l: Latch<G>, base: Stream, input: Input, lastTs: real, events: seq<Event>)
    requires Sound(gm) && Latches(gm, l) && FiniteCursor(input.cursor) && FiniteEvents(events)
    ensures var s := Run(gm, StartGame(gm, base, input, lastTs), events);
            && |s.log| == |s.ticks| + 1
            && (FaithfulAnyhow(path, gm, s.ticks, s.log, ReplaySource(base, s.src.tape)) <==> BelowIntro(l, s.log))
  {
    var s := Run(gm, StartGame(gm, base, input, lastTs), events);
    var rep := ReplaySource(base, s.src.tape);
    ReplayFidelity(path, gm, base, input, lastTs, events);
    AnyScheduleIff(path, gm, s.ticks, s.log, s.shown, rep);
    QuietIff(path, gm, l, s.ticks, s.log, s.shown, rep);
  }

  // ---- one schedule of pictures ----

  lemma {:induction false} RenderedOnce<G(!new)>(path: Path, gm: Game<G>, l: Latch<G>, at: Spot<G>, n: nat)
    requires Sound(gm) && Latches(gm, l) && Due(l, at.g) && n > 0
    ensures Rendered(Replay(path, gm), at, n) == at.(g := gm.render(at.g))
  {
    if n > 1 { RenderedOnce(path, gm, l, at, n - 1); }
  }

  /** A tick after `c` pictures and after `d` comes to the same, except after none and some when the offset is due. */
  lemma TicksAgreeIff<G(!new)>(path: Path, gm: Game<G>, l: Latch<G>, at: Spot<G>, t: Tick, c: nat, d: nat)
    requires Sound(gm) && Latches(gm, l)
    requires Replay(path, gm).apply(Rendered(Replay(path, gm), at, c), t).Some?
    ensures var m := Replay(path, gm);
            m.apply(Rendered(m, at, c), t) == m.apply(Rendered(m, at, d), t) <==>
              (Due(l, at.g) ==> (c > 0 <==> d > 0))
  {
    if !Due(l, at.g) {
      PicturesKeepOffset(path, gm, l, at, c);
      PicturesKeepOffset(path, gm, l, at, d);
    } else {
      if c > 0 { RenderedOnce(path, gm, l, at, c); }
      if d > 0 { RenderedOnce(path, gm, l, at, d); }
      OnePictureShows(path, gm, l, at, t);
    }
  }

  lemma OnePictureShows<G(!new)>(path: Path, gm: Game<G>, l: Latch<G>, at: Spot<G>, t: Tick)
    requires Sound(gm) && Latches(gm, l) && Due(l, at.g)
    ensures var m := Replay(path, gm);
            var without, with := m.apply(at, t), m.apply(at.(g := gm.render(at.g)), t);
            without.None? || with.None? || without != with
  {
    TickMoves(path, gm, l, at, t);
    TickMoves(path, gm, l, at.(g := gm.render(at.g)), t);
  }

  /** The replay with these pictures is in the live state after each of the first `n` ticks. */
  ghost predicate Follows<G(!new)>(
      path: Path, gm: Game<G>, ticks: seq<Tick>, log: seq<Mark<G>>, rep: Source, shows: seq<nat>, n: nat)
    requires Sound(gm) && n <= |ticks| && |log| == |ticks| + 1 && n <= |shows|
  {
    forall k :: 0 <= k <= n ==>
      Play(Replay(path, gm), Begin(gm, rep), ticks[..k], shows[..k]) == AtMark(rep, log[k])
  }

  /** Where the offset was due before one of these ticks, there is a picture just if the live run drew one. */
  ghost predicate LikeLive<G(!new)>(l: Latch<G>, log: seq<Mark<G>>, shown: seq<nat>, shows: seq<nat>, n: nat)
    requires n <= |log| && n <= |shown| && n <= |shows|
  {
    forall j :: 0 <= j < n && Due(l, log[j].g) ==> (shown[j] > 0 <==> shows[j] > 0)
  }

  lemma FollowsNext<G(!new)>(
      path: Path, gm: Game<G>, ticks: seq<Tick>, log: seq<Mark<G>>, rep: Source, shows: seq<nat>, n: nat)
    requires Sound(gm) && n < |ticks| && |log| == |ticks| + 1 && n < |shows|
    ensures Follows(path, gm, ticks, log, rep, shows, n + 1) <==>
      && Follows(path, gm, ticks, log, rep, shows, n)
      && var m, at := Replay(path, gm), Spot(log[n].g, After(rep, log[n].drawn));
         m.apply(Rendered(m, at, shows[n]), ticks[n]) == AtMark(rep, log[n + 1])
  {
    var m, start := Replay(path, gm), Begin(gm, rep);
    assert ticks[..n + 1][..n] == ticks[..n] && shows[..n + 1][..n] == shows[..n];
    assert ticks[..n + 1][n] == ticks[n] && shows[..n + 1][n] == shows[n];
    if Play(m, start, ticks[..n], shows[..n]) == AtMark(rep, log[n]) {
      assert Play(m, start, ticks[..n + 1], shows[..n + 1])
        == m.apply(Rendered(m, Spot(log[n].g, After(rep, log[n].drawn)), shows[n]), ticks[n]);
    }
    hide Play, AtMark, Sound;
  }

  lemma LiveFollows<G(!new)>(
      path: Path, gm: Game<G>, ticks: seq<Tick>, log: seq<Mark<G>>, shown: seq<nat>, rep: Source, n: nat)
    requires Sound(gm) && Faithful(path, gm, ticks, log, shown, rep) && n <= |ticks|
    ensures |log| == |shown| == |ticks| + 1 && Follows(path, gm, ticks, log, rep, shown, n)
  {
  }

  lemma FollowsStart<G(!new)>(
      path: Path, gm: Game<G>, l: Latch<G>, ticks: seq<Tick>, log: seq<Mark<G>>, shown: seq<nat>, rep: Source,
      shows: seq<nat>, n: nat)
    requires Sound(gm) && Faithful(path, gm, ticks, log, shown, rep) && n == 0
    ensures Follows(path, gm, ticks, log, rep, shows, n) && LikeLive(l, log, shown, shows, n)
  {
    assert Play(Replay(path, gm), Begin(gm, rep), ticks[..0], shown[..0]) == AtMark(rep, log[0]);
    assert shown[..0] == shows[..0];
  }

  /**
   The exact condition for one schedule of pictures: the replay is in the live state after each of the first `n` ticks
   if and only if, before each of them at which the offset was due, it draws a picture just if the live run drew one.
   */
  lemma {:induction false} FollowsIff<G(!new)>(
      path: Path, gm: Game<G>, l: Latch<G>, ticks: seq<Tick>, log: seq<Mark<G>>, shown: seq<nat>, rep: Source,
      shows: seq<nat>, n: nat)
    requires Sound(gm) && Latches(gm, l) && Faithful(path, gm, ticks, log, shown, rep)
    requires n <= |ticks| && n <= |shows|
    ensures Follows(path, gm, ticks, log, rep, shows, n) <==> LikeLive(l, log, shown, shows, n)
  {
    hide Follows, LikeLive, Replay, Latches, Sound, Play, Faithful;
    LiveFollows(path, gm, ticks, log, shown, rep, n);
    if n == 0 {
      FollowsStart(path, gm, l, ticks, log, shown, rep, shows, n);
    } else {
      LiveFollows(path, gm, ticks, log, shown, rep, n - 1);
      FollowsIff(path, gm, l, ticks, log, shown, rep, shows, n - 1);
      FollowsNext(path, gm, ticks, log, rep, shows, n - 1);
      FollowsNext(path, gm, ticks, log, rep, shown, n - 1);
      var at := Spot(log[n - 1].g, After(rep, log[n - 1].drawn));
      TicksAgreeIff(path, gm, l, at, ticks[n - 1], shown[n - 1], shows[n - 1]);
      LikeLiveNext(l, log, shown, shows, n - 1);
    }
  }

  lemma LikeLiveNext<G(!new)>(l: Latch<G>, log: seq<Mark<G>>, shown: seq<nat>, shows: seq<nat>, n: nat)
    requires n < |log| && n < |shown| && n < |shows|
    ensures LikeLive(l, log, shown, shows, n + 1) <==>
              LikeLive(l, log, shown, shows, n) && (Due(l, log[n].g) ==> (shown[n] > 0 <==> shows[n] > 0))
  {
  }

  // ---- a game that shows it ----

  /** A point a tick, a clock, and the latch. */
  datatype Toy = Toy(score: real, time: real, offset: Option<real>)

  function ToyLatch(): Latch<Toy> {
    Latch(1.0, (g: Toy) => g.score, (g: Toy) => g.time, (g: Toy) => g.offset)
  }

  function ToyGame(): Game<Toy> {
    Game(Done(Toy(0.0, 0.0, None)), (g: Toy) => Playing, (g: Toy, id, i) => Done(g),
         (g: Toy, i, dt) => Done(g.(score := g.score + 1.0, time := g.time + dt)),
         (g: Toy) => if Due(ToyLatch(), g) then g.(offset := Some(g.time)) else g)
  }

  /** One run, two schedules, two ends. */
  lemma ToySchedulesDiffer(path: Path, base: Stream)
    ensures Sound(ToyGame()) && Latches(ToyGame(), ToyLatch())
    ensures var m, start := Replay(path, ToyGame()), Begin(ToyGame(), Seeded(base, 0));
            var t := Tick(Move(0, 0), ORIGIN, []);
            Seen(m, start, [t], [0, 0]) == Some(Spot(Toy(1.0, SIM_DT, None), Seeded(base, 0)))
            && Seen(m, start, [t], [0, 1]) == Some(Spot(Toy(1.0, SIM_DT, Some(SIM_DT)), Seeded(base, 0)))
  {
    var gm := ToyGame();
    var m, start := Replay(path, gm), Begin(gm, Seeded(base, 0));
    var t := Tick(Move(0, 0), ORIGIN, []);
    var at := Spot(Toy(1.0, SIM_DT, None), Seeded(base, 0));
    assert [t][..0] == [];
    forall c: nat
      ensures Play(m, start, [t], [0, c][..1]) == Some(at)
    {
      assert [0, c][..1] == [0] && [0][..0] == [];
    }
    assert Rendered(m, at, 0) == at && Rendered(m, at, 1) == m.render(at);
  }
}
