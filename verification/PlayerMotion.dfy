/** The player against walls and pipes while dashing (public/js/game.js). */
module PlayerMotion {
  import opened Options
  import opened JsNumbers
  import opened Geometry
  import opened Lists
  import opened Pipes
  import opened RunModel

  const REFLECT_SLACK := 0.6

  function ActiveDash(cfg: Config): DashConfig {
    if cfg.dashDestroys then cfg.dashDestroy else cfg.dash
  }

  function BounceCap(cfg: Config): Option<nat> {
    DashBounceMax(ActiveDash(cfg))
  }

  predicate BouncesLeft(p: Player, cap: Option<nat>) {
    cap.None? || p.dashBounces < cap.value
  }

  predicate WithinBounces(p: Player, cap: Option<nat>) {
    cap.None? || p.dashBounces <= cap.value
  }

  function Pad(p: Player): real {
    p.r + 2.0
  }

  /** Inside the playing field, as far as the field is wide enough to hold the player. */
  predicate InWorld(p: Player, w: real, h: real) {
    && (2.0 * Pad(p) <= w ==> Pad(p) <= p.x <= w - Pad(p))
    && (2.0 * Pad(p) <= h ==> Pad(p) <= p.y <= h - Pad(p))
  }

  function Bounded(p: Player, w: real, h: real): (q: Player)
    ensures InWorld(q, w, h)
  {
    p.(x := Clamp(p.x, Pad(p), w - Pad(p)), y := Clamp(p.y, Pad(p), h - Pad(p)))
  }

  /** The timers and the unclamped position after a tick with velocity `vel`. */
  function Advanced(p: Player, dt: real, vel: (real, real)): Player {
    var dashT := if p.dashT > 0.0 then Max(0.0, p.dashT - dt) else p.dashT;
    p.(invT := if p.invT > 0.0 then Max(0.0, p.invT - dt) else p.invT,
       dashT := dashT,
       dashMode := if dashT <= 0.0 then NoDash else p.dashMode,
       x := p.x + vel.0 * dt, y := p.y + vel.1 * dt)
  }

  lemma CentreStays(p: Player, cap: Option<nat>, w: real, h: real)
    requires p.x == w * 0.5 && p.y == h * 0.5 && p.dashBounces == 0
    ensures InWorld(p, w, h) && WithinBounces(p, cap)
  {
  }

  /** The wall a position is beyond: left, right, top, bottom, in this order. */
  function WallHit(p: Player, w: real, h: real): Option<Hit> {
    var pad := Pad(p);
    if p.x < pad then Some(Hit(1.0, 0.0, pad, p.y, pad - p.x))
    else if p.x > w - pad then Some(Hit(-1.0, 0.0, w - pad, p.y, p.x - (w - pad)))
    else if p.y < pad then Some(Hit(0.0, 1.0, p.x, pad, pad - p.y))
    else if p.y > h - pad then Some(Hit(0.0, -1.0, p.x, h - pad, p.y - (h - pad)))
    else None
  }

  /** A bounce is found exactly where clamping would move the player. */
  lemma WallHitIffOutside(p: Player, w: real, h: real)
    requires 2.0 * Pad(p) <= w && 2.0 * Pad(p) <= h
    ensures WallHit(p, w, h).None? <==> Bounded(p, w, h) == p
  {
  }

  /** `_applyDashReflect`, without the velocities. */
  function Rebounded(p: Player, hit: Hit, w: real, h: real): Player {
    var push := hit.penetration + REFLECT_SLACK;
    Bounded(p.(dashBounces := p.dashBounces + 1, x := Along(p.x, hit.nx, push), y := Along(p.y, hit.ny, push)), w, h)
  }

  /**
   The player after `_updatePlayer`: a dash bounces off walls as long as bounces are left, and then ends at the
   wall.
   */
  function Walked(p: Player, dt: real, vel: (real, real), cap: Option<nat>, w: real, h: real): Player {
    Settled(Advanced(p, dt, vel), cap, w, h)
  }

  /** The walls' part of it, for a player who has moved. */
  function Settled(q: Player, cap: Option<nat>, w: real, h: real): Player {
    var wall := if q.dashT > 0.0 && q.invT <= 0.0 then WallHit(q, w, h) else None;
    if wall.None? then Bounded(q, w, h)
    else if BouncesLeft(q, cap) then Rebounded(Bounded(q, w, h), wall.value, w, h)
    else Bounded(q, w, h).(dashMode := NoDash, dashT := 0.0, dashBounces := cap.value)
  }

  /**
   One coordinate of the point of the field nearest to `target`; a field too narrow for the player has only its
   edge.
   */
  predicate NearestOn(v: real, target: real, pad: real, size: real) {
    && (pad <= target <= size - pad ==> v == target)
    && (target < pad || size < 2.0 * pad ==> v == pad)
    && (target > size - pad && size >= 2.0 * pad ==> v == size - pad)
  }

  /** The player is at the point of the field nearest to the target. */
  predicate At(p: Player, tx: real, ty: real, w: real, h: real) {
    NearestOn(p.x, tx, p.r + 2.0, w) && NearestOn(p.y, ty, p.r + 2.0, h)
  }

  /** It is the nearest, and the target itself when that is in the field. */
  lemma AtIsNearest(p: Player, tx: real, ty: real, w: real, h: real, ox: real, oy: real)
    requires At(p, tx, ty, w, h) && p.r + 2.0 <= ox <= w - p.r - 2.0 && p.r + 2.0 <= oy <= h - p.r - 2.0
    ensures (p.x - tx) * (p.x - tx) + (p.y - ty) * (p.y - ty) <= (ox - tx) * (ox - tx) + (oy - ty) * (oy - ty)
    ensures tx == ox && ty == oy ==> p.x == tx && p.y == ty
  {
    CloserSquare(p.x - tx, ox - tx);
    CloserSquare(p.y - ty, oy - ty);
  }

  lemma CloserSquare(a: real, b: real)
    requires 0.0 <= a <= b || b <= a <= 0.0
    ensures a * a <= b * b
  {
    NonNegativeProduct(Abs(b) - Abs(a), Abs(b) + Abs(a));
    assert (Abs(b) - Abs(a)) * (Abs(b) + Abs(a)) == b * b - a * a;
  }

  /** A player who does not bounce goes where its velocity leads, as far as the field allows. */
  lemma WalkedTo(p: Player, dt: real, vel: (real, real), cap: Option<nat>, w: real, h: real)
    requires WithinBounces(p, cap)
    ensures var q := Walked(p, dt, vel, cap, w, h);
            && (q.dashBounces <= p.dashBounces ==> At(q, p.x + vel.0 * dt, p.y + vel.1 * dt, w, h))
            && q.dashBounces <= p.dashBounces + 1
            && (0.0 <= dt && (p.dashT <= dt || p.invT > dt) ==> q.dashBounces == p.dashBounces)
  {
    AdvancedIs(p, dt, vel, vel.0 * dt, vel.1 * dt);
    SettledTo(Advanced(p, dt, vel), cap, w, h);
    hide Advanced, Settled, At, WithinBounces;
  }

  lemma AdvancedIs(p: Player, dt: real, vel: (real, real), dx: real, dy: real)
    requires dx == vel.0 * dt && dy == vel.1 * dt
    ensures var q := Advanced(p, dt, vel);
            && q.x == p.x + dx && q.y == p.y + dy && q.r == p.r && q.dashBounces == p.dashBounces
            && (0.0 <= dt ==> (q.dashT > 0.0 <==> p.dashT > dt) && (q.invT > 0.0 <==> p.invT > dt))
  {
  }

  lemma SettledTo(q: Player, cap: Option<nat>, w: real, h: real)
    requires WithinBounces(q, cap)
    ensures var s := Settled(q, cap, w, h);
            && (s.dashBounces <= q.dashBounces ==> At(s, q.x, q.y, w, h))
            && s.dashBounces <= q.dashBounces + 1
            && (q.dashT <= 0.0 || q.invT > 0.0 ==> s.dashBounces == q.dashBounces)
  {
    hide WallHit;
  }

  /**
   A bounce: the dash still runs, the way led out of the field, and of left, right, top and bottom the first wall in the
   way throws the player back by as much as it was beyond it and the slack, if the field is that wide.
   */
  lemma WalkedBounce(p: Player, dt: real, vel: (real, real), cap: Option<nat>, w: real, h: real)
    requires var q := Walked(p, dt, vel, cap, w, h); q.dashBounces > p.dashBounces
    requires w >= 2.0 * (p.r + 2.0) && h >= 2.0 * (p.r + 2.0) && WithinBounces(p, cap) && dt >= 0.0
    ensures var q := Walked(p, dt, vel, cap, w, h);
            var tx, ty, pad := p.x + vel.0 * dt, p.y + vel.1 * dt, p.r + 2.0;
            && p.dashT > dt && p.invT <= dt && (tx < pad || tx > w - pad || ty < pad || ty > h - pad)
            && (tx < pad ==> q.x == Min(w - pad, pad + (pad - tx) + 0.6) && NearestOn(q.y, ty, pad, h))
            && (tx > w - pad ==> q.x == Max(pad, w - pad - (tx - (w - pad)) - 0.6) && NearestOn(q.y, ty, pad, h))
            && (pad <= tx <= w - pad && ty < pad ==> q.y == Min(h - pad, pad + (pad - ty) + 0.6) && q.x == tx)
            && (pad <= tx <= w - pad && ty > h - pad ==>
                  q.y == Max(pad, h - pad - (ty - (h - pad)) - 0.6) && q.x == tx)
  {
    AdvancedIs(p, dt, vel, vel.0 * dt, vel.1 * dt);
    SettledBounce(Advanced(p, dt, vel), cap, w, h);
    hide Advanced, Settled, NearestOn, WithinBounces;
  }

  lemma SettledBounce(q: Player, cap: Option<nat>, w: real, h: real)
    requires Settled(q, cap, w, h).dashBounces > q.dashBounces && WithinBounces(q, cap)
    requires w >= 2.0 * (q.r + 2.0) && h >= 2.0 * (q.r + 2.0)
    ensures var s := Settled(q, cap, w, h);
            var pad := q.r + 2.0;
            && q.dashT > 0.0 && q.invT <= 0.0
            && (q.x < pad || q.x > w - pad || q.y < pad || q.y > h - pad)
            && (q.x < pad ==> s.x == Min(w - pad, pad + (pad - q.x) + 0.6) && NearestOn(s.y, q.y, pad, h))
            && (q.x > w - pad ==> s.x == Max(pad, w - pad - (q.x - (w - pad)) - 0.6) && NearestOn(s.y, q.y, pad, h))
            && (pad <= q.x <= w - pad && q.y < pad ==> s.y == Min(h - pad, pad + (pad - q.y) + 0.6) && s.x == q.x)
            && (pad <= q.x <= w - pad && q.y > h - pad ==>
                  s.y == Max(pad, h - pad - (q.y - (h - pad)) - 0.6) && s.x == q.x)
  {
    if q.dashT > 0.0 && q.invT <= 0.0 && WallHit(q, w, h).Some? {
      ThrownBack(q, w, h);
    }
    hide WallHit, Rebounded;
  }

  lemma ThrownBack(p: Player, w: real, h: real)
    requires w >= 2.0 * (p.r + 2.0) && h >= 2.0 * (p.r + 2.0) && WallHit(p, w, h).Some?
    ensures var q := Rebounded(Bounded(p, w, h), WallHit(p, w, h).value, w, h);
            var pad := p.r + 2.0;
            && (p.x < pad || p.x > w - pad || p.y < pad || p.y > h - pad)
            && (p.x < pad ==> q.x == Min(w - pad, pad + (pad - p.x) + 0.6) && NearestOn(q.y, p.y, pad, h))
            && (p.x > w - pad ==> q.x == Max(pad, w - pad - (p.x - (w - pad)) - 0.6) && NearestOn(q.y, p.y, pad, h))
            && (pad <= p.x <= w - pad && p.y < pad ==> q.y == Min(h - pad, pad + (pad - p.y) + 0.6) && q.x == p.x)
            && (pad <= p.x <= w - pad && p.y > h - pad ==>
                  q.y == Max(pad, h - pad - (p.y - (h - pad)) - 0.6) && q.x == p.x)
  {
    var hit, b := WallHit(p, w, h).value, Bounded(p, w, h);
    AlongUnit(b.x, hit.nx, hit.penetration + REFLECT_SLACK);
    AlongUnit(b.y, hit.ny, hit.penetration + REFLECT_SLACK);
    hide Along;
  }

  lemma WalkedStays(p: Player, dt: real, vel: (real, real), cap: Option<nat>, w: real, h: real)
    requires WithinBounces(p, cap)
    ensures var q := Walked(p, dt, vel, cap, w, h);
            InWorld(q, w, h) && WithinBounces(q, cap) && q.r == p.r
  {
  }

  lemma ReflectedStays(p: Player, hit: Hit, cap: Option<nat>, w: real, h: real)
    requires BouncesLeft(p, cap)
    ensures var q := Rebounded(p, hit, w, h); InWorld(q, w, h) && WithinBounces(q, cap)
  {
  }

  /**
   A reflection off a pipe pushes the player off the side its centre is furthest beyond, by that distance, its radius
   and the slack, and to the nearest point of the field from there.
   */
  lemma ReflectedTo(p: Player, b: Rect, w: real, h: real, left: real, right: real, top: real, bottom: real,
                    push: real)
    requires b.w >= 0.0 && b.h >= 0.0
    requires left == b.x - p.x && right == p.x - (b.x + b.w) && top == b.y - p.y && bottom == p.y - (b.y + b.h)
    requires push == Max(0.0, p.r + Max(Max(left, right), Max(top, bottom))) + 0.6
    ensures var q := Rebounded(p, HitAt(p.x, p.y, p.r, b), w, h);
            var beyond := Max(Max(left, right), Max(top, bottom));
            && q.dashBounces == p.dashBounces + 1 && q.dashT == p.dashT && q.dashMode == p.dashMode
            && q.r == p.r && q.invT == p.invT && q.dashDestroyed == p.dashDestroyed
            && (beyond == left && left > right ==> At(q, p.x - push, p.y, w, h))
            && (beyond == right && right >= left ==> At(q, p.x + push, p.y, w, h))
            && (beyond > left && beyond > right && top > bottom ==> At(q, p.x, p.y - push, w, h))
            && (beyond > left && beyond > right && top <= bottom ==> At(q, p.x, p.y + push, w, h))
  {
    HitIs(p.x, p.y, p.r, b, left, right, top, bottom);
    var hit := HitAt(p.x, p.y, p.r, b);
    AlongUnit(p.x, hit.nx, push);
    AlongUnit(p.y, hit.ny, push);
    hide HitAt, Along;
  }

  /** What a reflection off a pipe does before the walls have their say: a centre outside the pipe ends clear of it. */
  lemma ReflectionClears(p: Player, b: Rect, w: real, h: real)
    requires p.r >= 0.0 && b.w >= 0.0 && b.h >= 0.0
    requires CircleRectInfo(p.x, p.y, p.r, b).Some? && !Inside(p.x, p.y, b)
    ensures var q := Rebounded(p, CircleRectInfo(p.x, p.y, p.r, b).value, w, h);
            var hit := CircleRectInfo(p.x, p.y, p.r, b).value;
            var push := hit.penetration + REFLECT_SLACK;
            q.x == Along(p.x, hit.nx, push) && q.y == Along(p.y, hit.ny, push) ==> !CircleRect(q.x, q.y, q.r, b)
  {
    PushClearsExactly(p.x, p.y, p.r, b, REFLECT_SLACK);
  }

  /** `_applyDashDestroy`, without the velocities: the dash is spent, and some invulnerability may follow. */
  function Spent(p: Player, iFrames: real): Player {
    var q := p.(dashDestroyed := true, dashMode := NoDash, dashT := 0.0, dashBounces := 0);
    if iFrames > 0.0 then q.(invT := Max(p.invT, iFrames)) else q
  }

  lemma SpentStays(p: Player, iFrames: real, cap: Option<nat>, w: real, h: real)
    requires InWorld(p, w, h)
    ensures InWorld(Spent(p, iFrames), w, h) && WithinBounces(Spent(p, iFrames), cap)
  {
  }

  datatype Collision = Missed | Reflected | Destroyed | Fatal

  /** What a touch means for a player who is not invulnerable. */
  function Verdict(p: Player, cap: Option<nat>): Collision {
    if p.dashT > 0.0 && p.dashMode == Destroy && !p.dashDestroyed then Destroyed
    else if p.dashT > 0.0 && BouncesLeft(p, cap) then Reflected
    else Fatal
  }

  predicate Touched(p: Player, pipe: Pipe) {
    CircleRect(p.x, p.y, p.r, Box(pipe))
  }

  /** The first pipe that touches the player; the length of the list if none does. */
  function FirstTouch(p: Player, pipes: seq<Pipe>): nat {
    if pipes == [] || Touched(p, pipes[0]) then 0 else 1 + FirstTouch(p, pipes[1..])
  }

  lemma {:induction false} FirstTouchIs(p: Player, pipes: seq<Pipe>, i: nat)
    requires i <= |pipes| && (forall j :: 0 <= j < i ==> !CircleRect(p.x, p.y, p.r, Box(pipes[j])))
      && (i < |pipes| ==> CircleRect(p.x, p.y, p.r, Box(pipes[i])))
    ensures FirstTouch(p, pipes) == i
  {
    if i > 0 { FirstTouchIs(p, pipes[1..], i - 1); }
  }

  /** What the collision step comes to: nothing while invulnerable, else the first touch decides. */
  function CollisionOf(p: Player, pipes: seq<Pipe>, cap: Option<nat>): Collision {
    if p.invT > 0.0 || FirstTouch(p, pipes) == |pipes| then Missed else Verdict(p, cap)
  }

  function PlayerAfter(p: Player, pipes: seq<Pipe>, cfg: Config, w: real, h: real): Player {
    var i := FirstTouch(p, pipes);
    match CollisionOf(p, pipes, BounceCap(cfg))
    case Destroyed => Spent(p, Max(0.0, ActiveDash(cfg).impactIFrames))
    case Reflected => if i < |pipes| then Rebounded(p, HitAt(p.x, p.y, p.r, Box(pipes[i])), w, h) else p
    case _ => p
  }

  /** A touch moves the player only by a reflection, which counts as a bounce; a destroying dash forgets its bounces. */
  lemma AfterTouch(p: Player, pipes: seq<Pipe>, cfg: Config, w: real, h: real)
    ensures var q := PlayerAfter(p, pipes, cfg, w, h);
            && q.r == p.r
            && (q.dashBounces <= p.dashBounces ==> q.x == p.x && q.y == p.y)
            && (p.dashT <= 0.0 ==> q == p)
  {
    FirstTouchWithin(p, pipes);
  }

  /**
   A whole tick, walls and pipes together: without a dash the player is where its velocity leads, as far as the field
   allows; with one too, unless a wall is in the way or a bounce is counted.
   */
  lemma TickTo(p: Player, dt: real, vel: (real, real), pipes: seq<Pipe>, cfg: Config, w: real, h: real, tx: real,
               ty: real)
    requires WithinBounces(p, BounceCap(cfg)) && dt >= 0.0 && tx == p.x + vel.0 * dt && ty == p.y + vel.1 * dt
    ensures var q := PlayerAfter(Walked(p, dt, vel, BounceCap(cfg), w, h), pipes, cfg, w, h);
            && (p.dashT <= dt ==> At(q, tx, ty, w, h))
            && (InPaddedField(p, tx, ty, w, h) && q.dashBounces <= p.dashBounces ==> q.x == tx && q.y == ty)
  {
    var walked := Walked(p, dt, vel, BounceCap(cfg), w, h);
    WalkedTo(p, dt, vel, BounceCap(cfg), w, h);
    AfterTouch(walked, pipes, cfg, w, h);
    WalkedInside(p, dt, vel, BounceCap(cfg), w, h);
    hide Walked, PlayerAfter, WithinBounces, BounceCap;
  }

  predicate InPaddedField(p: Player, x: real, y: real, w: real, h: real) {
    p.r + 2.0 <= x <= w - p.r - 2.0 && p.r + 2.0 <= y <= h - p.r - 2.0
  }

  lemma WalkedInside(p: Player, dt: real, vel: (real, real), cap: Option<nat>, w: real, h: real)
    requires dt >= 0.0
    ensures var q := Walked(p, dt, vel, cap, w, h);
            && q.r == p.r && (p.dashT <= dt ==> q.dashT <= 0.0)
            && (InPaddedField(p, p.x + vel.0 * dt, p.y + vel.1 * dt, w, h) ==> q.dashBounces == p.dashBounces)
  {
    AdvancedIs(p, dt, vel, vel.0 * dt, vel.1 * dt);
    SettledInside(Advanced(p, dt, vel), cap, w, h);
    hide Advanced, Settled;
  }

  lemma SettledInside(q: Player, cap: Option<nat>, w: real, h: real)
    ensures var s := Settled(q, cap, w, h);
            && s.r == q.r && (q.dashT <= 0.0 ==> s.dashT <= 0.0)
            && (InPaddedField(q, q.x, q.y, w, h) ==> s.dashBounces == q.dashBounces)
  {
  }

  lemma {:induction false} FirstTouchWithin(p: Player, pipes: seq<Pipe>)
    ensures FirstTouch(p, pipes) <= |pipes|
  {
    if pipes != [] { FirstTouchWithin(p, pipes[1..]); }
  }

  function PipesAfter(p: Player, pipes: seq<Pipe>, cap: Option<nat>): seq<Pipe> {
    var i := FirstTouch(p, pipes);
    if CollisionOf(p, pipes, cap) == Destroyed && i < |pipes| then RemoveAt(pipes, i) else pipes
  }

  /**
   The pipe that touches the player first: a destroying dash removes it and is spent where it is, a dash with bounces
   left is reflected off it, and no other pipe goes.
   */
  lemma TouchDecides(p: Player, pipes: seq<Pipe>, cfg: Config, w: real, h: real, i: nat)
    requires i < |pipes| && CircleRect(p.x, p.y, p.r, Box(pipes[i]))
    requires forall j :: 0 <= j < i ==> !CircleRect(p.x, p.y, p.r, Box(pipes[j]))
    requires p.invT <= 0.0 && p.dashT > 0.0
    ensures var q, left := PlayerAfter(p, pipes, cfg, w, h), PipesAfter(p, pipes, BounceCap(cfg));
            if p.dashMode == Destroy && !p.dashDestroyed then
              && left == pipes[..i] + pipes[i + 1..]
              && q.x == p.x && q.y == p.y && q.dashT == 0.0 && q.dashDestroyed && q.dashMode == NoDash
              && q.invT == (if ActiveDash(cfg).impactIFrames > 0.0 then Max(p.invT, ActiveDash(cfg).impactIFrames)
                            else p.invT)
            else
              && left == pipes
              && q == if BouncesLeft(p, BounceCap(cfg)) then Rebounded(p, HitAt(p.x, p.y, p.r, Box(pipes[i])), w, h)
                      else p
  {
    FirstTouchIs(p, pipes, i);
    hide Rebounded, HitAt, FirstTouch, CircleRect;
  }

  /** `_startDashMotion`. */
  function Dashing(p: Player, duration: real, mode: DashMode): Player {
    p.(dashT := Clamp(duration, 0.0, 1.2), dashBounces := 0, dashDestroyed := false, dashMode := mode)
  }
}
