/**
 The headless engine (engine/step.js, engine/actions.js, engine/systems/, engine/clock.js):
 what every sequence of commands and steps keeps.
 */
module Kernel {
  import opened Options
  import opened JsNumbers

  datatype Config = Config(
    gravity: real, jumpImpulse: real, dashSpeed: real, dashDuration: real, phaseDuration: real, maxFallSpeed: real,
    width: real, height: real)

  datatype Direction = Right | Left | Up | Down

  datatype Wall = LeftWall | RightWall | TopWall | BottomWall

  datatype Signal = Jumped(vy: real) | DashStarted(direction: Direction) | DashEnded(direction: Direction)
                  | PhaseStarted | PhaseEnded | Bounced(wall: Wall)

  datatype Fault = UnsupportedDirection | UnknownAction | BadDelta

  datatype Outcome = Done | Failed(fault: Fault)

  /** A direction by its name; a dash without one goes right. */
  function DirectionOf(name: string): Option<Direction> {
    if name == "" || name == "right" then Some(Right)
    else if name == "left" then Some(Left)
    else if name == "up" then Some(Up)
    else if name == "down" then Some(Down)
    else None
  }

  function Heading(d: Direction): (real, real) {
    match d
    case Right => (1.0, 0.0)
    case Left => (-1.0, 0.0)
    case Up => (0.0, -1.0)
    case Down => (0.0, 1.0)
  }

  /** The fastest that any one of the settings lets a player be. */
  function TopSpeed(cfg: Config): real {
    Max(Max(Abs(cfg.jumpImpulse), Abs(cfg.dashSpeed)), Abs(cfg.maxFallSpeed))
  }

  function Count(log: seq<Signal>, which: Signal -> bool): nat {
    if log == [] then 0 else Count(log[..|log| - 1], which) + if which(log[|log| - 1]) then 1 else 0
  }

  lemma CountNext(log: seq<Signal>, e: Signal, which: Signal -> bool)
    ensures Count(log + [e], which) == Count(log, which) + if which(e) then 1 else 0
  {
    assert (log + [e])[..|log|] == log;
  }

  function Bounces(): Signal -> bool {
    (e: Signal) => e.Bounced?
  }

  function DashStarts(): Signal -> bool {
    (e: Signal) => e.DashStarted?
  }

  function DashEnds(): Signal -> bool {
    (e: Signal) => e.DashEnded?
  }

  function PhaseStarts(): Signal -> bool {
    (e: Signal) => e.PhaseStarted?
  }

  function PhaseEnds(): Signal -> bool {
    (e: Signal) => e.PhaseEnded?
  }

  // ---- one axis against two walls ----

  /** The position and velocity an axis comes out of the bounds with. */
  function Contained(p: real, v: real, size: real): (real, real) {
    var (p1, v1) := if p < 0.0 then (0.0, Abs(v)) else (p, v);
    if p1 > size then (size, -Abs(v1)) else (p1, v1)
  }

  /** Which walls an axis reports: a wall is only hit by a player who moves towards it. */
  function Hits(p: real, v: real, size: real, low: Wall, high: Wall): seq<Signal> {
    var (p1, v1) := if p < 0.0 then (0.0, Abs(v)) else (p, v);
    (if p < 0.0 && v < 0.0 then [Bounced(low)] else []) + (if p1 > size && v1 > 0.0 then [Bounced(high)] else [])
  }

  lemma ContainedStays(p: real, v: real, size: real)
    ensures var (q, w) := Contained(p, v, size);
            && (0.0 <= q <= size <==> size >= 0.0)
            && Abs(w) == Abs(v)
            && (0.0 <= p <= size ==> q == p && w == v)
            && (size >= 0.0 && p < 0.0 ==> w >= 0.0) && (size >= 0.0 && p > size ==> w <= 0.0)
  {
  }

  class Engine {
    const cfg: Config

    var x: real
    var y: real
    var vx: real
    var vy: real
    var dashActive: bool
    var dashTime: real
    var dashDirection: Direction
    var invulnerable: bool
    var invulnTime: real
    var wallBounces: nat
    var tick: nat
    var time: real
    var now: real
    var events: seq<Signal>

    /** Inside the world, as far as it has an inside. */
    predicate InWorld()
      reads this`x, this`y
    {
      (cfg.width >= 0.0 ==> 0.0 <= x <= cfg.width) && (cfg.height >= 0.0 ==> 0.0 <= y <= cfg.height)
    }

    predicate Slow()
      reads this`vx, this`vy
    {
      Abs(vx) <= TopSpeed(cfg) && Abs(vy) <= TopSpeed(cfg)
    }

    /** A dash or phase that runs has been started more often than ended. */
    ghost predicate Tallied()
      reads this`events, this`wallBounces, this`dashActive, this`invulnerable
    {
      && wallBounces == Count(events, Bounces())
      && Count(events, DashEnds()) + (if dashActive then 1 else 0) <= Count(events, DashStarts())
      && Count(events, PhaseEnds()) + (if invulnerable then 1 else 0) <= Count(events, PhaseStarts())
    }

    ghost predicate Valid()
      reads this
    {
      InWorld() && Tallied() && now == 1000.0 * time && time >= 0.0 && (cfg.gravity >= 0.0 ==> Slow())
    }

    constructor (cfg: Config)
      ensures Valid() && this.cfg == cfg && events == [] && tick == 0 && time == 0.0 && !dashActive && vx == vy == 0.0
      ensures x == cfg.width * 0.5 && y == cfg.height * 0.5
    {
      this.cfg := cfg;
      x, y, vx, vy := cfg.width * 0.5, cfg.height * 0.5, 0.0, 0.0;
      dashActive, dashTime, dashDirection := false, 0.0, Right;
      invulnerable, invulnTime := false, 0.0;
      wallBounces, tick, time, now := 0, 0, 0.0, 0.0;
      events := [];
    }

    method Emit(e: Signal)
      modifies this`events
      ensures events == old(events) + [e]
      ensures Count(events, Bounces()) == Count(old(events), Bounces()) + (if e.Bounced? then 1 else 0)
      ensures Count(events, DashStarts()) == Count(old(events), DashStarts()) + (if e.DashStarted? then 1 else 0)
      ensures Count(events, DashEnds()) == Count(old(events), DashEnds()) + (if e.DashEnded? then 1 else 0)
      ensures Count(events, PhaseStarts()) == Count(old(events), PhaseStarts()) + (if e.PhaseStarted? then 1 else 0)
      ensures Count(events, PhaseEnds()) == Count(old(events), PhaseEnds()) + (if e.PhaseEnded? then 1 else 0)
    {
      CountNext(events, e, Bounces());
      CountNext(events, e, DashStarts());
      CountNext(events, e, DashEnds());
      CountNext(events, e, PhaseStarts());
      CountNext(events, e, PhaseEnds());
      hide Count;
      events := events + [e];
    }

    method Jump()
      requires Valid()
      modifies this`vy, this`events
      ensures Valid() && vy == -cfg.jumpImpulse && events == old(events) + [Jumped(vy)]
    {
      hide Count, InWorld;
      vy := -cfg.jumpImpulse;
      Emit(Jumped(vy));
    }

    method StartDash(d: Direction)
      requires Valid()
      modifies this`vx, this`vy, this`dashActive, this`dashTime, this`dashDirection, this`events
      ensures Valid() && dashActive && dashTime == cfg.dashDuration && dashDirection == d
      ensures vx == Heading(d).0 * cfg.dashSpeed && vy == Heading(d).1 * cfg.dashSpeed
      ensures events == old(events) + [DashStarted(d)]
    {
      HeadingBounded(cfg, d);
      hide Count, InWorld, Heading, TopSpeed;
      dashActive, dashTime, dashDirection := true, cfg.dashDuration, d;
      vx, vy := Heading(d).0 * cfg.dashSpeed, Heading(d).1 * cfg.dashSpeed;
      Emit(DashStarted(d));
    }

    method StartPhase()
      requires Valid()
      modifies this`invulnerable, this`invulnTime, this`events
      ensures Valid() && invulnerable && invulnTime == cfg.phaseDuration && events == old(events) + [PhaseStarted]
    {
      hide Count, InWorld, Slow;
      invulnerable, invulnTime := true, cfg.phaseDuration;
      Emit(PhaseStarted);
    }

    /** `applyAction`: what cannot be done changes nothing. */
    method Command(action: string, direction: string) returns (outcome: Outcome)
      requires Valid()
      modifies this`vx, this`vy, this`dashActive, this`dashTime, this`dashDirection, this`invulnerable,
               this`invulnTime, this`events
      ensures Valid()
      ensures outcome == FaultOf(action, direction)
      ensures outcome.Failed? ==> unchanged(this)
      ensures outcome.Done? && action == "jump" ==>
        && vy == -cfg.jumpImpulse && vx == old(vx) && dashActive == old(dashActive) && invulnerable == old(invulnerable)
        && events == old(events) + [Jumped(vy)]
      ensures outcome.Done? && action == "dash" ==>
        && dashActive && dashTime == cfg.dashDuration && Some(dashDirection) == DirectionOf(direction)
        && vx == Heading(dashDirection).0 * cfg.dashSpeed && vy == Heading(dashDirection).1 * cfg.dashSpeed
        && invulnerable == old(invulnerable) && events == old(events) + [DashStarted(dashDirection)]
      ensures outcome.Done? && action == "dash" ==>
        && ((direction == "" || direction == "right") ==> vx == cfg.dashSpeed && vy == 0.0)
        && (direction == "left" ==> vx == -cfg.dashSpeed && vy == 0.0)
        && (direction == "up" ==> vx == 0.0 && vy == -cfg.dashSpeed)
        && (direction == "down" ==> vx == 0.0 && vy == cfg.dashSpeed)
      ensures outcome.Done? <==>
        || action == "jump" || action == "phase"
        || (action == "dash" && (direction == "" || direction == "right" || direction == "left" || direction == "up"
                                 || direction == "down"))
      ensures outcome == Failed(UnsupportedDirection) <==> outcome.Failed? && action == "dash"
      ensures outcome.Done? && action == "phase" ==>
        && invulnerable && invulnTime == cfg.phaseDuration && vx == old(vx) && vy == old(vy)
          && dashActive == old(dashActive)
        && events == old(events) + [PhaseStarted]
    {
      DirectionIs(cfg, direction);
      hide Valid, Heading, DirectionOf;
      if action == "jump" {
        Jump();
      } else if action == "dash" {
        var d := DirectionOf(direction);
        if d.None? {
          return Failed(UnsupportedDirection);
        }
        StartDash(d.value);
      } else if action == "phase" {
        StartPhase();
      } else {
        return Failed(UnknownAction);
      }
      return Done;
    }

    method TickAbilities(dt: real)
      requires Tallied() && dt > 0.0
      modifies this`dashActive, this`dashTime, this`invulnerable, this`invulnTime, this`events
      ensures Tallied()
      ensures dashActive <==> old(dashActive) && old(dashTime) > dt
      ensures invulnerable <==> old(invulnerable) && old(invulnTime) > dt
      ensures dashActive ==> dashTime == old(dashTime) - dt
      ensures invulnerable ==> invulnTime == old(invulnTime) - dt
      ensures events == old(events)
                + (if old(dashActive) && !dashActive then [DashEnded(dashDirection)] else [])
                + (if old(invulnerable) && !invulnerable then [PhaseEnded] else [])
    {
      hide Count;
      if dashActive {
        dashTime := Max(0.0, dashTime - dt);
        if dashTime == 0.0 {
          dashActive := false;
          Emit(DashEnded(dashDirection));
        }
      }
      if invulnerable {
        invulnTime := Max(0.0, invulnTime - dt);
        if invulnTime == 0.0 {
          invulnerable := false;
          Emit(PhaseEnded);
        }
      }
    }

    /** A dash is not pulled down. */
    method ApplyPhysics(dt: real)
      requires dt > 0.0
      modifies this`vy, this`x, this`y
      ensures old(Slow()) && cfg.gravity >= 0.0 ==> Slow()
      ensures vy == Pulled(cfg, old(vy), dashActive, dt)
      ensures x == Straight(old(x), vx, dt) && y == Straight(old(y), vy, dt)
    {
      hide Pulled, Straight, TopSpeed;
      Pull(dt);
      Move(dt);
    }

    method Pull(dt: real)
      requires dt > 0.0
      modifies this`vy
      ensures old(Slow()) && cfg.gravity >= 0.0 ==> Slow()
      ensures vy == Pulled(cfg, old(vy), dashActive, dt)
    {
      if !dashActive {
        PullBounded(cfg, vy, dt);
        vy := Min(cfg.maxFallSpeed, vy + cfg.gravity * dt);
      }
    }

    method Move(dt: real)
      modifies this`x, this`y
      ensures x == Straight(old(x), vx, dt) && y == Straight(old(y), vy, dt)
    {
      x := x + vx * dt;
      y := y + vy * dt;
    }

    method ResolveAcross() returns (bounces: seq<Signal>)
      modifies this`x, this`vx
      ensures (x, vx) == Contained(old(x), old(vx), cfg.width)
      ensures bounces == Hits(old(x), old(vx), cfg.width, LeftWall, RightWall)
    {
      bounces := [];
      if x < 0.0 {
        x := 0.0;
        if vx < 0.0 { bounces := bounces + [Bounced(LeftWall)]; }
        vx := Abs(vx);
      }
      if x > cfg.width {
        x := cfg.width;
        if vx > 0.0 { bounces := bounces + [Bounced(RightWall)]; }
        vx := -Abs(vx);
      }
    }

    method ResolveDown() returns (bounces: seq<Signal>)
      modifies this`y, this`vy
      ensures (y, vy) == Contained(old(y), old(vy), cfg.height)
      ensures bounces == Hits(old(y), old(vy), cfg.height, TopWall, BottomWall)
    {
      bounces := [];
      if y < 0.0 {
        y := 0.0;
        if vy < 0.0 { bounces := bounces + [Bounced(TopWall)]; }
        vy := Abs(vy);
      }
      if y > cfg.height {
        y := cfg.height;
        if vy > 0.0 { bounces := bounces + [Bounced(BottomWall)]; }
        vy := -Abs(vy);
      }
    }

    /** `resolve`, wall by wall, and the bounces it reports. */
    method Resolve() returns (bounces: seq<Signal>)
      modifies this`x, this`y, this`vx, this`vy
      ensures InWorld() && (old(Slow()) ==> Slow())
      ensures (x, vx) == Contained(old(x), old(vx), cfg.width) && (y, vy) == Contained(old(y), old(vy), cfg.height)
      ensures bounces ==
        Hits(old(x), old(vx), cfg.width, LeftWall, RightWall) + Hits(old(y), old(vy), cfg.height, TopWall, BottomWall)
    {
      ContainedStays(x, vx, cfg.width);
      ContainedStays(y, vy, cfg.height);
      hide TopSpeed, Hits, Contained;
      var across := ResolveAcross();
      var down := ResolveDown();
      bounces := across + down;
    }

    method HandleBounds()
      requires Tallied()
      modifies this`x, this`y, this`vx, this`vy, this`wallBounces, this`events
      ensures InWorld() && Tallied() && (old(Slow()) ==> Slow())
      ensures (x, vx) == Contained(old(x), old(vx), cfg.width) && (y, vy) == Contained(old(y), old(vy), cfg.height)
      ensures events == old(events) + Hits(old(x), old(vx), cfg.width, LeftWall, RightWall)
                          + Hits(old(y), old(vy), cfg.height, TopWall, BottomWall)
    {
      ghost var across := Hits(x, vx, cfg.width, LeftWall, RightWall);
      ghost var down := Hits(y, vy, cfg.height, TopWall, BottomWall);
      OnlyBounces(x, vx, cfg.width, LeftWall, RightWall);
      OnlyBounces(y, vy, cfg.height, TopWall, BottomWall);
      hide Count, Hits, Contained, TopSpeed, InWorld, Slow;
      var bounces := Resolve();
      var k := 0;
      while k < |bounces|
        invariant k <= |bounces| && Tallied() && events == old(events) + bounces[..k]
        modifies this`wallBounces, this`events
      {
        assert bounces[k] in bounces;
        wallBounces := wallBounces + 1;
        Emit(bounces[k]);
        k := k + 1;
      }
      assert bounces[..k] == bounces;
      assert old(events) + across + down == old(events) + (across + down);
    }

    /**
     `stepWorld`: abilities, physics, bounds; then tick, time and clock. A delta that is not positive changes
     nothing.
     */
    method Step(dt: real) returns (outcome: Outcome)
      requires Valid()
      modifies this
      ensures Valid()
      ensures outcome == if dt <= 0.0 then Failed(BadDelta) else Done
      ensures outcome.Failed? ==> unchanged(this)
      ensures outcome.Done? ==>
        && tick == old(tick) + 1 && time == old(time) + dt
        && (dashActive <==> old(dashActive) && old(dashTime) > dt)
          && (invulnerable <==> old(invulnerable) && old(invulnTime) > dt)
        && var pulled := Pulled(cfg, old(vy), dashActive, dt);
           && (x, vx) == Contained(Straight(old(x), old(vx), dt), old(vx), cfg.width)
           && (y, vy) == Contained(Straight(old(y), pulled, dt), pulled, cfg.height)
           && events == old(events)
                + (if old(dashActive) && !dashActive then [DashEnded(dashDirection)] else [])
                + (if old(invulnerable) && !invulnerable then [PhaseEnded] else [])
                + Hits(Straight(old(x), old(vx), dt), old(vx), cfg.width, LeftWall, RightWall)
                + Hits(Straight(old(y), pulled, dt), pulled, cfg.height, TopWall, BottomWall)
    {
      hide Tallied, InWorld, Slow, Contained, Hits, Pulled, Straight;
      if dt <= 0.0 {
        return Failed(BadDelta);
      }
      TickAbilities(dt);
      ApplyPhysics(dt);
      HandleBounds();
      tick := tick + 1;
      time := time + dt;
      now := now + dt * 1000.0;
      return Done;
    }

    /** Any commands and any steps, in any order. */
    method Run(inputs: seq<Input>)
      requires Valid()
      modifies this
      ensures Valid()
    {
      hide Tallied, InWorld, Slow;
      var i := 0;
      while i < |inputs|
        invariant i <= |inputs| && Valid()
      {
        match inputs[i] {
          case Act(action, direction) => var _ := Command(action, direction);
          case Wait(dt) => var _ := Step(dt);
        }
        i := i + 1;
      }
    }
  }

  /** Names and directions; up is towards smaller y. */
  lemma DirectionIs(cfg: Config, name: string)
    ensures DirectionOf(name).Some?
            <==> name == "" || name == "right" || name == "left" || name == "up" || name == "down"
    ensures DirectionOf(name).Some? ==>
      var way := Heading(DirectionOf(name).value);
      && (name == "" || name == "right" ==> way == (1.0, 0.0)) && (name == "left" ==> way == (-1.0, 0.0))
      && (name == "up" ==> way == (0.0, -1.0)) && (name == "down" ==> way == (0.0, 1.0))
  {
  }

  datatype Input = Act(action: string, direction: string) | Wait(dt: real)

  function FaultOf(action: string, direction: string): Outcome {
    if action == "dash" then (if DirectionOf(direction).Some? then Done else Failed(UnsupportedDirection))
    else if action == "jump" || action == "phase" then Done
    else Failed(UnknownAction)
  }

  /** The vertical velocity after gravity. */
  function Pulled(cfg: Config, vy: real, dashing: bool, dt: real): real {
    if dashing then vy else Min(cfg.maxFallSpeed, vy + cfg.gravity * dt)
  }

  /** A dash is not pulled; otherwise gravity adds up to the fall limit. */
  lemma PulledIs(cfg: Config, vy: real, dashing: bool, dt: real, faster: real)
    requires faster == vy + cfg.gravity * dt
    ensures dashing ==> Pulled(cfg, vy, dashing, dt) == vy
    ensures !dashing && faster <= cfg.maxFallSpeed ==> Pulled(cfg, vy, dashing, dt) == faster
    ensures !dashing && faster > cfg.maxFallSpeed ==> Pulled(cfg, vy, dashing, dt) == cfg.maxFallSpeed
  {
  }

  function Falling(cfg: Config, vy: real, dts: seq<real>): real {
    if dts == [] then vy else Pulled(cfg, Falling(cfg, vy, dts[..|dts| - 1]), false, dts[|dts| - 1])
  }

  /**
   Over any ticks a falling player is as fast as gravity times the time makes it, up to the limit - however it is
   cut up.
   */
  lemma {:induction false} FallsBy(cfg: Config, vy: real, dts: seq<real>)
    requires cfg.gravity >= 0.0 && dts != [] && forall i :: 0 <= i < |dts| ==> dts[i] > 0.0
    ensures Falling(cfg, vy, dts) == Min(cfg.maxFallSpeed, Straight(vy, cfg.gravity, Sum(dts)))
  {
    hide Straight;
    var front, dt := dts[..|dts| - 1], dts[|dts| - 1];
    var v := Falling(cfg, vy, front);
    NonNegativeProduct(cfg.gravity, dt);
    if front != [] {
      FallsBy(cfg, vy, front);
    } else {
      Standstill(vy, cfg.gravity);
    }
    FallsOn(vy, cfg.gravity, Sum(front), dt);
  }

  lemma Standstill(x: real, v: real)
    ensures Straight(x, v, 0.0) == x
  {
  }

  lemma FallsOn(x: real, v: real, t: real, dt: real)
    ensures Straight(x, v, t + dt) == Straight(x, v, t) + v * dt
  {
  }

  /** An axis is set to the wall it is beyond and turned back; inside it is left alone. */
  lemma ContainedIs(p: real, v: real, size: real)
    requires size >= 0.0
    ensures var (q, w) := Contained(p, v, size);
            && (0.0 <= p <= size ==> q == p && w == v)
            && (p < 0.0 ==> q == 0.0 && w == Abs(v)) && (p > size ==> q == size && w == -Abs(v))
  {
  }

  /** A wall is reported exactly by a player who is beyond it and was moving towards it, and never two at once. */
  lemma HitsIff(p: real, v: real, size: real, low: Wall, high: Wall)
    requires size >= 0.0 && low != high
    ensures var hits := Hits(p, v, size, low, high);
            && hits == (if p < 0.0 && v < 0.0 then [Bounced(low)]
                        else if p > size && v > 0.0 then [Bounced(high)] else [])
  {
  }

  lemma HeadingBounded(cfg: Config, d: Direction)
    ensures Abs(Heading(d).0 * cfg.dashSpeed) <= TopSpeed(cfg) && Abs(Heading(d).1 * cfg.dashSpeed) <= TopSpeed(cfg)
  {
  }

  lemma PullBounded(cfg: Config, vy: real, dt: real)
    requires dt > 0.0
    ensures cfg.gravity >= 0.0 && Abs(vy) <= TopSpeed(cfg) ==> Abs(Pulled(cfg, vy, false, dt)) <= TopSpeed(cfg)
  {
    if cfg.gravity >= 0.0 {
      NonNegativeProduct(cfg.gravity, dt);
    }
  }

  lemma OnlyBounces(p: real, v: real, size: real, low: Wall, high: Wall)
    ensures forall e :: e in Hits(p, v, size, low, high) ==> e.Bounced?
  {
  }

  /** How long a tick must be for a given pull to exceed a given speed. */
  lemma LongEnough(gravity: real, speed: real) returns (dt: real)
    requires gravity < 0.0 && speed >= 0.0
    ensures dt > 0.0 && gravity * dt < -speed
  {
    dt := (speed + 1.0) / -gravity;
    QuotientTimes(speed + 1.0, -gravity, dt);
  }

  lemma QuotientTimes(a: real, b: real, q: real)
    requires a > 0.0 && b > 0.0 && q == a / b
    ensures q > 0.0 && b * q == a && -b * q == -a
  {
  }

  /**
   Gravity keeps within the speed limit, from whatever speed and for whatever tick, exactly if it does not pull up.
   */
  lemma LimitKeptIff(cfg: Config)
    ensures (forall vy: real, dt: real :: dt > 0.0 && Abs(vy) <= TopSpeed(cfg) ==>
             Abs(Pulled(cfg, vy, false, dt)) <= TopSpeed(cfg))
              <==> cfg.gravity >= 0.0
  {
    if cfg.gravity >= 0.0 {
      forall vy: real, dt: real | dt > 0.0 && Abs(vy) <= TopSpeed(cfg)
        ensures Abs(Pulled(cfg, vy, false, dt)) <= TopSpeed(cfg)
      {
        PullBounded(cfg, vy, dt);
      }
    } else {
      var dt := LongEnough(cfg.gravity, TopSpeed(cfg));
      LimitBroken(cfg, dt);
    }
  }

  lemma LimitBroken(cfg: Config, dt: real)
    requires cfg.gravity * dt < -TopSpeed(cfg)
    ensures Abs(Pulled(cfg, 0.0, false, dt)) > TopSpeed(cfg) && Abs(0.0) <= TopSpeed(cfg)
  {
    var pulled := Pulled(cfg, 0.0, false, dt);
    assert pulled <= cfg.gravity * dt;
    assert TopSpeed(cfg) >= 0.0;
  }

  /** So with gravity pulling up a single step from the start, if it is long enough, breaks the limit. */
  method SpeedLimitNeedsGravity(cfg: Config, dt: real) returns (e: Engine)
    requires cfg.gravity < 0.0 && dt > 0.0 && cfg.gravity * dt < -TopSpeed(cfg)
    ensures fresh(e) && e.Valid() && e.cfg == cfg && !e.Slow()
  {
    LimitBroken(cfg, dt);
    e := new Engine(cfg);
    var pulled := Pulled(cfg, 0.0, false, dt);
    ContainedStays(e.y + pulled * dt, pulled, cfg.height);
    hide Count, TopSpeed, Contained, Pulled;
    assert !e.dashActive && e.vy == 0.0;
    var _ := e.Step(dt);
  }
}
