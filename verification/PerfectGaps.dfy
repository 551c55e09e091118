/** Gates of a wall's gap (public/js/entities.js) and the perfect-gap test (public/js/perfectGaps.js). */
module PerfectGaps {
  import opened JsNumbers

  const DEFAULT_LENIENCY := 0.10
  const MIN_WINDOW := 3.0

  datatype Gate = Gate(
    axisX: bool, pos: real, prev: real, v: real, gapCenter: real, gapHalf: real, thick: real,
    entered: bool, cleared: bool, perfected: bool, gapId: nat)

  /** `Gate.update`. */
  function Moved(g: Gate, dt: real, w: real, h: real): Gate {
    var pos := g.pos + g.v * dt;
    var extent := if g.axisX then w else h;
    var onScreen := pos + g.thick * 0.5 >= 0.0 && pos - g.thick * 0.5 <= extent;
    g.(prev := g.pos, pos := pos, entered := g.entered || onScreen)
  }

  /** `Gate.off`. */
  predicate GateOff(g: Gate, w: real, h: real, m: real) {
    g.pos < -m || g.pos > (if g.axisX then w else h) + m
  }

  function Threshold(gapHalf: real, windowScale: real): real {
    Max(MIN_WINDOW, gapHalf * Clamp(windowScale, 0.0, 1.0)) * (1.0 + DEFAULT_LENIENCY)
  }

  /** The player's coordinate lies in the band the gate swept this tick. */
  predicate Crossed(prev: real, pos: real, half: real, axis: real) {
    Min(prev, pos) - half <= axis <= Max(prev, pos) + half
  }

  /** The point of the player's own sweep that the alignment is measured at. */
  function SweptPerp(prev: real, curr: real, center: real): real {
    if Min(prev, curr) <= center <= Max(prev, curr) then center
    else if Abs(prev - center) <= Abs(curr - center) then prev
    else curr
  }

  /** That point is on the sweep and no point of the sweep is closer to the gap's centre. */
  lemma SweptPerpIsNearest(prev: real, curr: real, center: real, other: real)
    requires Min(prev, curr) <= other <= Max(prev, curr)
    ensures Min(prev, curr) <= SweptPerp(prev, curr, center) <= Max(prev, curr)
    ensures Abs(SweptPerp(prev, curr, center) - center) <= Abs(other - center)
  {
  }

  /** An entered gate, not yet perfected, is perfect for this tick. */
  predicate IsPerfect(g: Gate, axis: real, prevPerp: real, currPerp: real, windowScale: real) {
    && Crossed(g.prev, g.pos, g.thick * 0.5, axis)
    && Abs(SweptPerp(prevPerp, currPerp, g.gapCenter) - g.gapCenter) <= Threshold(g.gapHalf, windowScale)
  }

  /** The player's sweep passes through `y`, and `y` is within the window around the gap's centre. */
  predicate Meets(g: Gate, y: real, prevPerp: real, currPerp: real, windowScale: real) {
    && Min(prevPerp, currPerp) <= y <= Max(prevPerp, currPerp)
    && Abs(y - g.gapCenter) <= Threshold(g.gapHalf, windowScale)
  }

  /** A crossing is perfect exactly when some point of the player's sweep is within the window. */
  lemma PerfectIffSweepMeetsWindow(g: Gate, axis: real, prevPerp: real, currPerp: real, windowScale: real)
    ensures IsPerfect(g, axis, prevPerp, currPerp, windowScale) <==>
      Crossed(g.prev, g.pos, g.thick * 0.5, axis) && exists y :: Meets(g, y, prevPerp, currPerp, windowScale)
  {
    var near := SweptPerp(prevPerp, currPerp, g.gapCenter);
    SweptPerpIsNearest(prevPerp, currPerp, g.gapCenter, prevPerp);
    if IsPerfect(g, axis, prevPerp, currPerp, windowScale) {
      assert Meets(g, near, prevPerp, currPerp, windowScale);
    }
    forall y | Meets(g, y, prevPerp, currPerp, windowScale)
      ensures Abs(near - g.gapCenter) <= Threshold(g.gapHalf, windowScale)
    {
      SweptPerpIsNearest(prevPerp, currPerp, g.gapCenter, y);
    }
  }

  // ---------------------------------------------------------------------
  // No tunnelling: positions per tick of a gate and of the player's coordinate.
  // ---------------------------------------------------------------------

  predicate SlowPlayer(player: seq<real>, step: real) {
    forall t :: 0 <= t < |player| - 1 ==> Abs(player[t + 1] - player[t]) <= step
  }

  /** The player changed sides of the gate over these ticks. */
  predicate Passed(gate: seq<real>, player: seq<real>)
    requires 0 < |gate| == |player|
  {
    var n := |gate| - 1;
    (player[0] < gate[0] && player[n] > gate[n]) || (player[0] > gate[0] && player[n] < gate[n])
  }

  /** A player who moves at most half the gate's thickness a tick is seen crossing, however the gate moves. */
  lemma {:induction false} NoTunnelling(gate: seq<real>, player: seq<real>, half: real) returns (t: nat)
    requires 0 < |gate| == |player| && half >= 0.0
    requires SlowPlayer(player, half) && Passed(gate, player)
    ensures 0 < t < |gate| && Crossed(gate[t - 1], gate[t], half, player[t])
  {
    var n := |gate| - 1;
    if Crossed(gate[n - 1], gate[n], half, player[n]) {
      t := n;
    } else {
      assert Abs(player[n - 1 + 1] - player[n - 1]) <= half;
      t := NoTunnelling(gate[..n], player[..n], half);
    }
  }

  /** Half the thickness is the limit: any longer stride can step over a resting gate unseen. */
  lemma LongStrideTunnels(half: real, stride: real)
    requires 0.0 <= half < stride
    ensures var e := (stride - half) * 0.5;
            var gate, player := [0.0, 0.0], [-e, half + e];
            SlowPlayer(player, stride) && Passed(gate, player)
            && !Crossed(gate[0], gate[1], half, player[1])
  {
  }
}
