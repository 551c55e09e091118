/**
 When a gate is crossed and when that is perfect (public/js/perfectGaps.js), told by where player and gate have
 been.
 */
module GapJudging {
  import opened JsNumbers
  import opened PerfectGaps
  import opened GapHistory
  import opened RunModel

  predicate Between(a: real, s: real, b: real) {
    (a <= s && s <= b) || (b <= s && s <= a)
  }

  /** The gate passed the place `s` this tick, and the player's coordinate is within half the gate's thickness of it. */
  predicate Passes(g: Gate, at: real, s: real) {
    Between(g.prev, s, g.pos) && s - g.thick / 2.0 <= at && at <= s + g.thick / 2.0
  }

  /** The player's way from `before` to `after` passes `y`, which is as near to the middle of the gap as `window`. */
  predicate Threads(g: Gate, before: real, after: real, y: real, window: real) {
    Between(before, y, after) && g.gapCenter - window <= y && y <= g.gapCenter + window
  }

  lemma CrossedIff(g: Gate, at: real)
    requires g.thick >= 0.0
    ensures Crossed(g.prev, g.pos, g.thick * 0.5, at) <==> exists s :: Passes(g, at, s)
  {
    var low, high := Min(g.prev, g.pos), Max(g.prev, g.pos);
    if Crossed(g.prev, g.pos, g.thick * 0.5, at) {
      assert Passes(g, at, Max(low, Min(high, at)));
    }
  }

  /** The window is the scaled half of the gap, at least 3, and a tenth on top. */
  lemma WindowIs(gapHalf: real, scale: real, scaled: real)
    requires gapHalf >= 0.0 && scaled == gapHalf * scale
    ensures 0.0 <= scale <= 1.0 && scaled >= 3.0 ==> Threshold(gapHalf, scale) == scaled * 1.1
    ensures 0.0 <= scale <= 1.0 && scaled <= 3.0 ==> Threshold(gapHalf, scale) == 3.3
    ensures scale > 1.0 ==> Threshold(gapHalf, scale) == (if gapHalf >= 3.0 then gapHalf * 1.1 else 3.3)
    ensures scale < 0.0 ==> Threshold(gapHalf, scale) == 3.3
  {
  }

  lemma SameWindow(gapHalf: real, scale: real)
    ensures Threshold(gapHalf, Clamp(scale, 0.0, 1.0)) == Threshold(gapHalf, scale)
  {
  }

  /** A gate that moves along x is crossed in x and threaded in y, one that moves along y the other way round. */
  lemma JudgedIff(g: Gate, meta: map<nat, GapMeta>, p: Player, prevX: real, prevY: real, scale: real)
    requires g.thick >= 0.0 && g.entered && !g.perfected
    ensures var whole := g.gapId in meta ==> !meta[g.gapId].broken;
            var window := Threshold(g.gapHalf, scale);
            var crossed := whole && if g.axisX then exists s :: Passes(g, p.x, s) else exists s :: Passes(g, p.y, s);
            var threaded := if g.axisX then exists y :: Threads(g, prevY, p.y, y, window)
                            else exists x :: Threads(g, prevX, p.x, x, window);
            && (Judged(g, meta, p, prevX, prevY, scale).cleared <==> g.cleared || crossed)
            && (Judged(g, meta, p, prevX, prevY, scale).perfected <==> crossed && threaded)
            && (Earns(g, meta, p, prevX, prevY, scale) <==> crossed && threaded)
  {
    var fair := Clamp(scale, 0.0, 1.0);
    SameWindow(g.gapHalf, scale);
    var before, after := if g.axisX then prevY else prevX, if g.axisX then p.y else p.x;
    CrossedIff(g, if g.axisX then p.x else p.y);
    PerfectIffSweepMeetsWindow(g, if g.axisX then p.x else p.y, before, after, fair);
    MeetsIsThreads(g, before, after, fair);
    hide Clamp, Crossed, Threshold, IsPerfect, Meets, Threads, Passes;
  }

  lemma MeetsIsThreads(g: Gate, before: real, after: real, scale: real)
    ensures (exists y :: Meets(g, y, before, after, scale))
            <==> exists y :: Threads(g, before, after, y, Threshold(g.gapHalf, scale))
  {
    if y :| Meets(g, y, before, after, scale) {
      assert Threads(g, before, after, y, Threshold(g.gapHalf, scale));
    }
    if y :| Threads(g, before, after, y, Threshold(g.gapHalf, scale)) {
      assert Meets(g, y, before, after, scale);
    }
    hide Threshold;
  }

  /** A gate not yet entered or already perfected is not judged at all. */
  lemma NotJudged(g: Gate, meta: map<nat, GapMeta>, p: Player, prevX: real, prevY: real, scale: real)
    requires !g.entered || g.perfected
    ensures Judged(g, meta, p, prevX, prevY, scale) == g && !Earns(g, meta, p, prevX, prevY, scale)
  {
  }

  lemma {:induction false} JudgedAt(gates: seq<Gate>, meta: map<nat, GapMeta>, p: Player, prevX: real, prevY: real,
                                    scale: real, i: nat)
    requires i < |gates|
    ensures var judged := AllJudged(gates, meta, p, prevX, prevY, scale);
            |judged| == |gates| && judged[i] == Judged(gates[i], meta, p, prevX, prevY, scale)
  {
    var last := |gates| - 1;
    if last > 0 {
      JudgedAt(gates[..last], meta, p, prevX, prevY, scale, if i < last then i else 0);
    }
    hide Judged;
  }

  /** Each gate of a tick is moved first and then judged, if perfects are to be had at all; none goes. */
  lemma MovedThenJudged(cfg: Config, gates: seq<Gate>, meta: map<nat, GapMeta>, p: Player, prevX: real, prevY: real,
                        dt: real, w: real, h: real, i: nat)
    requires i < |gates|
    ensures var after := GatesScored(cfg, gates, meta, p, prevX, prevY, dt, w, h);
            var moved := Moved(gates[i], dt, w, h);
            && |after| == |gates|
            && (cfg.perfectEnabled ==> after[i] == Judged(moved, meta, p, prevX, prevY, cfg.windowScale))
            && (!cfg.perfectEnabled ==> after[i] == moved)
  {
    JudgedAt(GatesMoved(gates, dt, w, h), meta, p, prevX, prevY, cfg.windowScale, i);
    hide Judged, Moved, AllJudged;
  }

  /** Awarded are exactly the gaps of the gates that earn it. */
  lemma {:induction false} AwardedIff(gates: seq<Gate>, meta: map<nat, GapMeta>, p: Player, prevX: real, prevY: real,
                                      scale: real, e: GapEvent)
    ensures e in Awards(gates, meta, p, prevX, prevY, scale)
            <==> exists g :: g in gates && Earns(g, meta, p, prevX, prevY, scale) && e == Perfected(g.gapId)
  {
    if gates != [] {
      var front, last := gates[..|gates| - 1], gates[|gates| - 1];
      AwardedIff(front, meta, p, prevX, prevY, scale, e);
      assert forall g :: g in gates <==> g in front || g == last;
    }
    hide Earns;
  }

  /** A gate has left exactly if it is further than the margin beyond the edges it moves between. */
  lemma GateGoneIff(g: Gate, w: real, h: real, m: real)
    ensures g.axisX ==> (GateOff(g, w, h, m) <==> !(-m <= g.pos <= w + m))
    ensures !g.axisX ==> (GateOff(g, w, h, m) <==> !(-m <= g.pos <= h + m))
  {
  }
}
