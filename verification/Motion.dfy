/**
 Movement and timers over any number of ticks (public/js/game.js, public/js/entities.js, public/js/mechanics.js): where
 things are and how much time is left, from where they started and how long they ran.
 */
module Motion {
  import opened Options
  import opened JsNumbers
  import opened Skills
  import opened Geometry
  import opened Lists
  import opened Pipes
  import opened PerfectGaps
  import opened RunModel

  predicate Forward(dts: seq<real>) {
    forall i :: 0 <= i < |dts| ==> dts[i] >= 0.0
  }

  lemma {:induction false} ForwardSum(dts: seq<real>)
    requires Forward(dts)
    ensures Sum(dts) >= 0.0
  {
    if dts != [] { ForwardSum(dts[..|dts| - 1]); }
  }

  // ---- timers ----

  function CooledBy(cds: PerSkill<real>, dts: seq<real>): PerSkill<real> {
    if dts == [] then cds else Cooled(CooledBy(cds, dts[..|dts| - 1]), dts[|dts| - 1])
  }

  /** A skill is ready again exactly when the ticks since its use add up to its cooldown. */
  lemma {:induction false} ReadyAgain(cds: PerSkill<real>, dts: seq<real>, skill: Skill)
    requires Forward(dts) && dts != []
    ensures var left := cds.Get(skill) - Sum(dts);
            CooledBy(cds, dts).Get(skill) == if left > 0.0 then left else 0.0
  {
    var front := dts[..|dts| - 1];
    if front == [] {
      assert CooledBy(cds, front) == cds;
    } else {
      ReadyAgain(cds, front, skill);
    }
  }

  function FadedBy(field: Option<Field>, dts: seq<real>): Option<Field> {
    if dts == [] then field else Faded(FadedBy(field, dts[..|dts| - 1]), dts[|dts| - 1])
  }

  /** A slow field stays where it is and as it is until its time has run out, and is gone from then on. */
  lemma {:induction false} FieldFades(field: Field, dts: seq<real>)
    requires Forward(dts) && dts != []
    ensures FadedBy(Some(field), dts) ==
              if Sum(dts) < field.t then Some(field.(t := field.t - Sum(dts))) else None
  {
    var front := dts[..|dts| - 1];
    if front == [] {
      assert FadedBy(Some(field), front) == Some(field);
    } else {
      FieldFades(field, front);
    }
  }

  // ---- pipes ----

  /** A pipe after these ticks, each slowed by the same factor. */
  function Drifted(p: Pipe, dts: seq<real>, mul: real, w: real, h: real): Pipe {
    if dts == [] then p else PipeMoved(Drifted(p, dts[..|dts| - 1], mul, w, h), dts[|dts| - 1], mul, w, h)
  }

  /** Some point of a pipe at this place is in the field. */
  predicate Visible(x: real, y: real, width: real, height: real, w: real, h: real) {
    x + width >= 0.0 && x <= w && y + height >= 0.0 && y <= h
  }

  lemma StraightOn(x: real, v: real, t: real, dt: real, q: real)
    requires q == Straight(x, v, t) + v * dt
    ensures q == Straight(x, v, t + dt)
  {
  }

  lemma StraightFrom(x: real, v: real)
    ensures Straight(x, v, 0.0) == x
  {
  }

  /** It glides on a straight line, at its own speed times the factor, and is otherwise the same pipe. */
  lemma {:induction false} PipeGlides(p: Pipe, dts: seq<real>, mul: real, w: real, h: real)
    ensures var q := Drifted(p, dts, mul, w, h);
            && q.x == Straight(p.x, p.vx * mul, Sum(dts)) && q.y == Straight(p.y, p.vy * mul, Sum(dts))
            && q == p.(x := q.x, y := q.y, entered := q.entered)
            && (p.entered ==> q.entered)
            && (dts != [] && Visible(q.x, q.y, p.w, p.h, w, h) ==> q.entered)
  {
    hide Straight, PipeMoved, Visible;
    if dts != [] {
      var front, dt := dts[..|dts| - 1], dts[|dts| - 1];
      PipeGlides(p, front, mul, w, h);
      var r := Drifted(p, front, mul, w, h);
      OneGlide(r, dt, mul, w, h);
      StraightOn(p.x, p.vx * mul, Sum(front), dt, PipeMoved(r, dt, mul, w, h).x);
      StraightOn(p.y, p.vy * mul, Sum(front), dt, PipeMoved(r, dt, mul, w, h).y);
    } else {
      StraightFrom(p.x, p.vx * mul);
      StraightFrom(p.y, p.vy * mul);
    }
  }

  lemma OneGlide(p: Pipe, dt: real, mul: real, w: real, h: real)
    ensures var q := PipeMoved(p, dt, mul, w, h);
            && q.x == p.x + p.vx * mul * dt && q.y == p.y + p.vy * mul * dt
            && q == p.(x := q.x, y := q.y, entered := q.entered)
            && (q.entered <==> p.entered || Visible(q.x, q.y, p.w, p.h, w, h))
  {
    assert p.vx * mul * dt == p.vx * dt * mul && p.vy * mul * dt == p.vy * dt * mul;
  }

  /** It has entered exactly if it had before or was in the field after one of the ticks. */
  lemma {:induction false} EnteredIff(p: Pipe, dts: seq<real>, mul: real, w: real, h: real)
    ensures Drifted(p, dts, mul, w, h).entered <==>
              p.entered || exists k :: 0 < k <= |dts| && SeenAfter(p, dts, mul, w, h, k)
  {
    if dts != [] {
      var n := |dts|;
      var front := dts[..n - 1];
      EnteredIff(p, front, mul, w, h);
      OneGlide(Drifted(p, front, mul, w, h), dts[n - 1], mul, w, h);
      PipeGlides(p, front, mul, w, h);
      assert dts[..n] == dts;
      assert forall k :: 0 < k < n ==> front[..k] == dts[..k];
      if k :| 0 < k <= n && SeenAfter(p, dts, mul, w, h, k) {
        if k < n {
          assert SeenAfter(p, front, mul, w, h, k);
        }
      }
      if k :| 0 < k < n && SeenAfter(p, front, mul, w, h, k) {
        assert SeenAfter(p, dts, mul, w, h, k);
      }
      if Visible(Drifted(p, dts, mul, w, h).x, Drifted(p, dts, mul, w, h).y, p.w, p.h, w, h) {
        assert SeenAfter(p, dts, mul, w, h, n);
      }
      hide PipeMoved;
    }
  }

  predicate SeenAfter(p: Pipe, dts: seq<real>, mul: real, w: real, h: real, k: nat)
    requires k <= |dts|
  {
    var q := Drifted(p, dts[..k], mul, w, h);
    Visible(q.x, q.y, p.w, p.h, w, h)
  }

  /** A point of the rectangle within `r` of the centre. */
  predicate Near(px: real, py: real, cx: real, cy: real, r: real, b: Rect) {
    && b.x <= px <= b.x + b.w && b.y <= py <= b.y + b.h
    && (px - cx) * (px - cx) + (py - cy) * (py - cy) <= r * r
  }

  lemma CloserSquare(a: real, b: real)
    requires Abs(a) <= Abs(b)
    ensures a * a <= b * b
  {
    NonNegativeProduct(Abs(b) - Abs(a), Abs(b) + Abs(a));
    assert (Abs(b) - Abs(a)) * (Abs(b) + Abs(a)) == b * b - a * a;
  }

  lemma NearTouches(px: real, py: real, cx: real, cy: real, r: real, b: Rect)
    requires Near(px, py, cx, cy, r, b)
    ensures CircleRect(cx, cy, r, b)
  {
    CloserSquare(cx - Clamp(cx, b.x, b.x + b.w), px - cx);
    CloserSquare(cy - Clamp(cy, b.y, b.y + b.h), py - cy);
  }

  /** The point of the rectangle nearest to the centre is within `r` if it touches. */
  lemma TouchesNear(cx: real, cy: real, r: real, b: Rect, qx: real, qy: real)
    requires b.w >= 0.0 && b.h >= 0.0 && CircleRect(cx, cy, r, b)
    requires qx == Clamp(cx, b.x, b.x + b.w) && qy == Clamp(cy, b.y, b.y + b.h)
    ensures Near(qx, qy, cx, cy, r, b)
  {
    assert (cx - qx) * (cx - qx) == (qx - cx) * (qx - cx) && (cy - qy) * (cy - qy) == (qy - cy) * (qy - cy);
  }

  /**
   A circle touches a rectangle exactly if some point of the rectangle is no further from its centre than its
   radius.
   */
  lemma CircleRectIff(cx: real, cy: real, r: real, b: Rect)
    requires b.w >= 0.0 && b.h >= 0.0
    ensures CircleRect(cx, cy, r, b) <==> exists px, py :: Near(px, py, cx, cy, r, b)
  {
    hide Near, CircleRect, Clamp;
    if CircleRect(cx, cy, r, b) {
      TouchesNear(cx, cy, r, b, Clamp(cx, b.x, b.x + b.w), Clamp(cy, b.y, b.y + b.h));
    }
    if px, py :| Near(px, py, cx, cy, r, b) {
      NearTouches(px, py, cx, cy, r, b);
    }
  }

  /** On a common axis two circles touch exactly if their centres are no further apart than both radii together. */
  lemma CircleCircleOnAxis(a: real, b: real, level: real, ar: real, br: real)
    requires ar >= 0.0 && br >= 0.0
    ensures CircleCircle(a, level, ar, b, level, br) <==> Abs(a - b) <= ar + br
    ensures CircleCircle(level, a, ar, level, b, br) <==> Abs(a - b) <= ar + br
  {
    SquareOrder(Abs(a - b), ar + br);
    SquareNonNegative(a - b);
  }

  /** A pipe of which some point lies in the slow field moves by that much slower, any other at its own speed. */
  lemma SlowedIff(p: Pipe, field: Option<Field>, dt: real, w: real, h: real)
    requires p.w >= 0.0 && p.h >= 0.0
    ensures var q := Pushed(p, field, dt, w, h);
            var slow := field.Some? && field.value.r > 0.0
                        && exists px, py :: Near(px, py, field.value.x, field.value.y, field.value.r, Box(p));
            && (slow ==> q.x == p.x + p.vx * dt * field.value.fac && q.y == p.y + p.vy * dt * field.value.fac)
            && (!slow ==> q.x == p.x + p.vx * dt && q.y == p.y + p.vy * dt)
  {
    if field.Some? {
      CircleRectIff(field.value.x, field.value.y, field.value.r, Box(p));
    }
    hide CircleRect;
  }

  /** A pipe has left exactly if no point of it lies in the field widened by the margin. */
  lemma GoneIff(p: Pipe, w: real, h: real, m: real)
    requires p.w >= 0.0 && p.h >= 0.0 && w + m >= -m && h + m >= -m
    ensures PipeOff(p, w, h, m) <==>
              forall px, py :: InWiderField(px, py, w, h, m) ==> !(p.x <= px <= p.x + p.w && p.y <= py <= p.y + p.h)
  {
    var px, py := Max(p.x, -m), Max(p.y, -m);
    if !PipeOff(p, w, h, m) {
      assert InWiderField(px, py, w, h, m);
    }
  }

  predicate InWiderField(px: real, py: real, w: real, h: real, m: real) {
    -m <= px <= w + m && -m <= py <= h + m
  }

  /** The margin is a quarter of the shorter side, but at least 110 and at most 240. */
  lemma MarginIs(w: real, h: real)
    ensures var side := if w < h then w else h;
            && (440.0 <= side <= 960.0 ==> 4.0 * Margin(w, h) == side)
            && (side < 440.0 ==> Margin(w, h) == 110.0)
            && (side > 960.0 ==> Margin(w, h) == 240.0)
  {
  }

  // ---- gates ----

  function GateDrifted(g: Gate, dts: seq<real>, w: real, h: real): Gate {
    if dts == [] then g else Moved(GateDrifted(g, dts[..|dts| - 1], w, h), dts[|dts| - 1], w, h)
  }

  lemma GateStep(g: Gate, dt: real, w: real, h: real)
    ensures var q := Moved(g, dt, w, h);
            && q.pos == g.pos + g.v * dt && q.prev == g.pos
            && q == g.(pos := q.pos, prev := q.prev, entered := q.entered)
            && (q.entered <==>
                  g.entered || (q.pos + g.thick / 2.0 >= 0.0 && q.pos - g.thick / 2.0 <= if g.axisX then w else h))
  {
  }

  /** A gate glides too, and remembers where it was before the last tick. */
  lemma {:induction false} GateGlides(g: Gate, dts: seq<real>, w: real, h: real)
    ensures var q := GateDrifted(g, dts, w, h);
            && q.pos == Straight(g.pos, g.v, Sum(dts))
            && (dts != [] ==> q.prev == Straight(g.pos, g.v, Sum(dts[..|dts| - 1])))
            && q == g.(pos := q.pos, prev := q.prev, entered := q.entered)
            && (g.entered ==> q.entered)
  {
    hide Straight, Moved;
    if dts != [] {
      var front, dt := dts[..|dts| - 1], dts[|dts| - 1];
      GateGlides(g, front, w, h);
      var r := GateDrifted(g, front, w, h);
      GateStep(r, dt, w, h);
      StraightOn(g.pos, g.v, Sum(front), dt, Moved(r, dt, w, h).pos);
    } else {
      StraightFrom(g.pos, g.v);
    }
  }

  // ---- orbs ----

  function OrbDrifted(o: Orb, dts: seq<real>, w: real, h: real): Orb {
    if dts == [] then o else OrbMoved(OrbDrifted(o, dts[..|dts| - 1], w, h), dts[|dts| - 1], w, h)
  }

  /** One tick: free, an orb moves by its velocity; at a wall it is set to the wall and turned inwards. */
  lemma OrbFliesOrTurns(o: Orb, dt: real, w: real, h: real, x: real, y: real)
    requires w >= 2.0 * (o.r + 4.0) && h >= 2.0 * (o.r + 4.0)
    requires x == o.x + o.vx * dt && y == o.y + o.vy * dt
    ensures var q, pad := OrbMoved(o, dt, w, h), o.r + 4.0;
            && (pad <= x <= w - pad ==> q.x == x && q.vx == o.vx)
            && (x < pad ==> q.x == pad && q.vx == Abs(o.vx)) && (x > w - pad ==> q.x == w - pad && q.vx == -Abs(o.vx))
            && (pad <= y <= h - pad ==> q.y == y && q.vy == o.vy)
            && (y < pad ==> q.y == pad && q.vy == Abs(o.vy)) && (y > h - pad ==> q.y == h - pad && q.vy == -Abs(o.vy))
            && q.r == o.r && q.life == o.life - dt
  {
    OrbFree(o, dt, w, h, x, y);
    OrbTurns(o.(x := x, y := y, life := o.life - dt), w, h);
    hide OrbMoved, OrbTurned;
  }

  lemma OrbFree(o: Orb, dt: real, w: real, h: real, x: real, y: real)
    requires x == o.x + o.vx * dt && y == o.y + o.vy * dt
    ensures OrbMoved(o, dt, w, h) == OrbTurned(o.(x := x, y := y, life := o.life - dt), w, h)
  {
    hide OrbTurned, Straight;
    StraightIs(o.x, o.vx, dt, x);
    StraightIs(o.y, o.vy, dt, y);
  }

  lemma StraightIs(x: real, v: real, t: real, to: real)
    requires to == x + v * t
    ensures Straight(x, v, t) == to
  {
  }

  lemma OrbTurns(o: Orb, w: real, h: real)
    requires w >= 2.0 * (o.r + 4.0) && h >= 2.0 * (o.r + 4.0)
    ensures var q, pad := OrbTurned(o, w, h), o.r + 4.0;
            && (pad <= o.x <= w - pad ==> q.x == o.x && q.vx == o.vx)
            && (o.x < pad ==> q.x == pad && q.vx == Abs(o.vx))
              && (o.x > w - pad ==> q.x == w - pad && q.vx == -Abs(o.vx))
            && (pad <= o.y <= h - pad ==> q.y == o.y && q.vy == o.vy)
            && (o.y < pad ==> q.y == pad && q.vy == Abs(o.vy))
              && (o.y > h - pad ==> q.y == h - pad && q.vy == -Abs(o.vy))
            && q.r == o.r && q.life == o.life
  {
  }

  /**
   Over any ticks an orb stays in the field, keeps its speed along both axes, and lives exactly as long as it was
   given.
   */
  lemma {:induction false} OrbLives(o: Orb, dts: seq<real>, w: real, h: real)
    requires w >= 2.0 * (o.r + 4.0) && h >= 2.0 * (o.r + 4.0) && dts != []
    ensures var q := OrbDrifted(o, dts, w, h);
            && q.r == o.r && q.life == o.life - Sum(dts)
            && Abs(q.vx) == Abs(o.vx) && Abs(q.vy) == Abs(o.vy)
            && o.r + 4.0 <= q.x <= w - o.r - 4.0 && o.r + 4.0 <= q.y <= h - o.r - 4.0
            && (Alive()(q) <==> Sum(dts) < o.life)
  {
    var front := dts[..|dts| - 1];
    if front == [] {
      assert OrbDrifted(o, front, w, h) == o;
    } else {
      OrbLives(o, front, w, h);
    }
    var before, dt := OrbDrifted(o, front, w, h), dts[|dts| - 1];
    OrbFliesOrTurns(before, dt, w, h, before.x + before.vx * dt, before.y + before.vy * dt);
    hide OrbMoved;
  }

  /** Waiting for orbs: none while the wait lasts, and then one if there is room, and a new wait. */
  lemma OrbsAppear(cfg: Config, choices: Choices, orbs: seq<Orb>, wait: real, dt: real, d: nat)
    requires cfg.orbsEnabled
    ensures var (later, next) := OrbSpawn(cfg, choices, orbs, wait, dt, d);
            && (dt < wait ==> later == orbs && next == wait - dt)
            && (dt >= wait ==> next == choices.orbWait(d))
            && (dt >= wait && |orbs| < cfg.maxOrbs ==> later == orbs + [choices.orb(d)])
            && (dt >= wait && |orbs| >= cfg.maxOrbs ==> later == orbs)
            && (|orbs| <= cfg.maxOrbs ==> |later| <= cfg.maxOrbs)
  {
  }

  /** An orb is within reach if its centre is no further from the player's than both radii together. */
  lemma InReachIff(p: Player, o: Orb)
    ensures Touches(p, o) <==>
              (p.x - o.x) * (p.x - o.x) + (p.y - o.y) * (p.y - o.y) <= (p.r + o.r) * (p.r + o.r)
  {
  }

  /** Of the orbs that have moved, those are left that still live and are out of the player's reach. */
  lemma OrbTakenIff(orbs: seq<Orb>, p: Player, dt: real, w: real, h: real, o: Orb)
    ensures multiset(OrbsLeft(orbs, p, dt, w, h))[o] ==
              if o.life <= 0.0 || Touches(p, o) then 0 else multiset(OrbsMoved(orbs, dt, w, h))[o]
  {
    hide Kept, OrbsMoved, Touches;
    var moved := OrbsMoved(orbs, dt, w, h);
    KeptCount(moved, Alive(), o);
    KeptCount(Kept(moved, Alive()), Beyond(p), o);
  }

  /** A tick's combo: one more for every living orb taken; without one it ends exactly when its time is up. */
  lemma ComboOfTick(combo: nat, timer: real, orbs: seq<Orb>, p: Player, dt: real, w: real, h: real, living: nat,
                    taken: int)
    requires living == |Kept(OrbsMoved(orbs, dt, w, h), Alive())|
    requires taken == living - |OrbsLeft(orbs, p, dt, w, h)|
    ensures var after := ComboLeft(combo, timer, orbs, OrbsLeft(orbs, p, dt, w, h), dt, w, h);
            after == if taken == 0 && timer - dt <= 0.0 then 0 else combo + taken
  {
    hide Kept, OrbsMoved, OrbsLeft;
  }

  /** What is removed as having left: exactly what is off the field, margin and all. */
  lemma StaysIff(pipes: seq<Pipe>, p: Pipe, gates: seq<Gate>, g: Gate, w: real, h: real)
    ensures multiset(Kept(pipes, OnField(w, h)))[p] ==
              if PipeOff(p, w, h, Margin(w, h)) then 0 else multiset(pipes)[p]
    ensures multiset(Kept(gates, GateOnField(w, h)))[g] ==
              if GateOff(g, w, h, Margin(w, h)) then 0 else multiset(gates)[g]
  {
    KeptCount(pipes, OnField(w, h), p);
    KeptCount(gates, GateOnField(w, h), g);
    hide Kept, PipeOff, GateOff, Margin;
  }
}
