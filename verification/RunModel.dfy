/** The values a run of the game is made of, and the rules that need no state (public/js/game.js). */
module RunModel {
  import opened Options
  import opened JsNumbers
  import opened Skills
  import opened Geometry
  import opened Lists
  import opened Pipes
  import opened PerfectGaps
  import opened Spawning
  import opened Streaks
  import opened GapHistory

  const COMBO_WINDOW_BASE := 10.0
  const COMBO_WINDOW_MIN := 5.0
  const COMBO_WINDOW_DECAY := 5.0 / 39.0
  const PIPE_CAP := 280

  datatype Ramp = Ramp(start: real, end: real, min: real, max: real)

  datatype Extent = Extent(scale: real, min: real, max: real)

  datatype DashConfig = DashConfig(cooldown: real, duration: real, maxBounces: Option<real>, impactIFrames: real)

  datatype Config = Config(
    scoring: Scoring,
    perfectEnabled: bool,
    windowScale: real,
    introScore: real,
    spawnInterval: Ramp,
    leadSeconds: real,
    thickness: Extent,
    orbsEnabled: bool,
    maxOrbs: nat,
    dash: DashConfig,
    dashDestroy: DashConfig,
    phaseCooldown: real,
    phaseDuration: real,
    teleportCooldown: real,
    slowCooldown: real,
    slowDuration: real,
    slowRadius: real,
    slowFactor: real,
    blastCooldown: real,
    blastRadius: real,
    dashDestroys: bool,
    slowExplodes: bool,
    teleportExplodes: bool,
    longPhase: bool)

  /**
   What the model leaves open: the difficulty curve over the time and the score since the intro, and the outcome of
   every draw by position - plans and cadences also by the difficulty they are made at.
   */
  datatype Choices = Choices(
    curve: (real, real) -> real,
    regular: (nat, real) -> Plan,
    special: (nat, real) -> Plan,
    cadence: (nat, real) -> real,
    orb: nat -> Orb,
    orbWait: nat -> real)

  datatype Orb = Orb(x: real, y: real, vx: real, vy: real, r: real, life: real)

  datatype DashMode = NoDash | Ricochet | Destroy

  datatype Player = Player(
    x: real, y: real, r: real, invT: real, dashT: real, dashBounces: nat, dashMode: DashMode, dashDestroyed: bool)

  datatype Field = Field(x: real, y: real, r: real, fac: real, t: real)

  /** What is on the field in the middle of a tick. */
  datatype Scene = Scene(pipes: seq<Pipe>, gates: seq<Gate>, orbs: seq<Orb>, gapMeta: map<nat, GapMeta>)

  datatype Bucket = Bucket(points: nat, count: nat)

  datatype Stats = Stats(
    orbs: Bucket, perfects: Bucket, pipes: Bucket, other: Bucket,
    orbsCollected: nat, perfectsMade: nat, pipesDodged: nat, maxOrbCombo: nat, maxPerfectCombo: nat,
    brokenPipes: nat, maxBrokenPipesInExplosion: nat, abilitiesUsed: nat, skillUsage: PerSkill<nat>)

  function NoStats(): Stats {
    Stats(Bucket(0, 0), Bucket(0, 0), Bucket(0, 0), Bucket(0, 0), 0, 0, 0, 0, 0, 0, 0, 0, PerSkill(0, 0, 0, 0))
  }

  /** The only demands on the configuration: without a positive minimum the spawn loop need not end. */
  predicate Playable(cfg: Config) {
    0.0 < cfg.spawnInterval.min <= cfg.spawnInterval.max
  }

  function SpawnInterval(cfg: Config, d: real): (t: real)
    requires Playable(cfg)
    ensures cfg.spawnInterval.min <= t <= cfg.spawnInterval.max
  {
    var si := cfg.spawnInterval;
    Clamp(Lerp(si.start, si.end, d), si.min, si.max)
  }

  /** A setting of the ramp, within its bounds. */
  function WithinRamp(v: real, ramp: Ramp): real {
    if v < ramp.min then ramp.min else if v > ramp.max then ramp.max else v
  }

  /**
   The interval starts at the first setting and ends at the second, both within the bounds,
     and runs straight between them
   where the bounds allow; if the first is the longer one it never grows with the difficulty.
   */
  lemma IntervalByDifficulty(cfg: Config, d: real, e: real)
    requires Playable(cfg) && 0.0 <= d <= e <= 1.0
    ensures SpawnInterval(cfg, 0.0) == WithinRamp(cfg.spawnInterval.start, cfg.spawnInterval)
    ensures SpawnInterval(cfg, 1.0) == WithinRamp(cfg.spawnInterval.end, cfg.spawnInterval)
    ensures cfg.spawnInterval.start >= cfg.spawnInterval.end ==> SpawnInterval(cfg, e) <= SpawnInterval(cfg, d)
    ensures cfg.spawnInterval.start <= cfg.spawnInterval.end ==> SpawnInterval(cfg, d) <= SpawnInterval(cfg, e)
    ensures var s := cfg.spawnInterval;
            s.min < SpawnInterval(cfg, d) < s.max && s.min < SpawnInterval(cfg, e) < s.max ==>
              SpawnInterval(cfg, e) - SpawnInterval(cfg, d) == (s.end - s.start) * (e - d)
  {
    var s := cfg.spawnInterval;
    LerpIs(s.start, s.end, d, e, (s.end - s.start) * (e - d));
    hide Lerp;
  }

  lemma LerpIs(a: real, b: real, d: real, e: real, rise: real)
    requires d <= e && rise == (b - a) * (e - d)
    ensures Lerp(a, b, 0.0) == a && Lerp(a, b, 1.0) == b
    ensures Lerp(a, b, e) - Lerp(a, b, d) == rise
    ensures (a >= b ==> rise <= 0.0) && (a <= b ==> rise >= 0.0)
  {
    SlopeSign(b - a, e - d, rise);
    assert (b - a) * (e - d) == (b - a) * e - (b - a) * d;
  }

  lemma SlopeSign(slope: real, run: real, rise: real)
    requires run >= 0.0 && rise == slope * run
    ensures (slope <= 0.0 ==> rise <= 0.0) && (slope >= 0.0 ==> rise >= 0.0)
  {
    if slope <= 0.0 {
      NonNegativeProduct(-slope, run);
      assert (-slope) * run == -rise;
    } else {
      NonNegativeProduct(slope, run);
    }
  }

  // ---- difficulty ----

  /** The next evaluation of the difficulty notes the time as the end of the intro. */
  predicate IntroDue(introScore: real, score: real, offset: Option<real>) {
    introScore > 0.0 && offset.None? && score >= introScore
  }

  /** `_introTimeOffset` after an evaluation. */
  function Noted(cfg: Config, score: nat, now: real, offset: Option<real>): Option<real> {
    if IntroDue(cfg.introScore, score as real, offset) then Some(now) else offset
  }

  /** `_difficulty01`, once the offset has been noted: 0 in the intro, then the curve over what came after it. */
  function Difficulty(cfg: Config, curve: (real, real) -> real, score: nat, now: real, offset: Option<real>): (d: real)
    ensures 0.0 <= d <= 1.0
    ensures cfg.introScore > 0.0 && offset.None? ==> d == 0.0
  {
    if cfg.introScore > 0.0 && offset.None? then 0.0
    else
      var scoreOffset := if cfg.introScore > 0.0 then cfg.introScore else 0.0;
      var timeOffset := if offset.Some? then offset.value else 0.0;
      Clamp(curve(Max(0.0, now - timeOffset), Max(0.0, score as real - scoreOffset)), 0.0, 1.0)
  }

  /** Without an intro time and score count from the start, after one from where it ended. */
  lemma DifficultyCounts(cfg: Config, curve: (real, real) -> real, score: nat, now: real, start: real)
    requires 0.0 <= start <= now
    ensures cfg.introScore <= 0.0 && 0.0 <= curve(now, score as real) <= 1.0 ==>
              Difficulty(cfg, curve, score, now, None) == curve(now, score as real)
    ensures 0.0 < cfg.introScore <= score as real ==>
              var level := curve(now - start, score as real - cfg.introScore);
              && (0.0 <= level <= 1.0 ==> Difficulty(cfg, curve, score, now, Some(start)) == level)
              && (level > 1.0 ==> Difficulty(cfg, curve, score, now, Some(start)) == 1.0)
              && (level < 0.0 ==> Difficulty(cfg, curve, score, now, Some(start)) == 0.0)
  {
  }

  /** The intro ends once, at the first evaluation with enough score, and the moment is kept. */
  lemma IntroEnds(cfg: Config, score: nat, now: real, score': nat, later: real)
    requires cfg.introScore > 0.0
    ensures Noted(cfg, score, now, None) == if score as real >= cfg.introScore then Some(now) else None
    ensures score as real >= cfg.introScore ==> Noted(cfg, score', later, Noted(cfg, score, now, None)) == Some(now)
  {
  }

  function ComboWindow(combo: nat): (t: real)
    ensures COMBO_WINDOW_MIN <= t <= COMBO_WINDOW_BASE
    ensures combo <= 1 ==> t == COMBO_WINDOW_BASE
    ensures combo >= 40 ==> t == COMBO_WINDOW_MIN
  {
    var steps := if combo > 0 then combo - 1 else 0;
    Max(COMBO_WINDOW_MIN, COMBO_WINDOW_BASE - steps as real * COMBO_WINDOW_DECAY)
  }

  /** From the first orb to the fortieth the window shrinks by as much with each. */
  lemma WindowShrinks(combo: nat)
    requires 1 <= combo < 40
    ensures 39.0 * (ComboWindow(combo) - ComboWindow(combo + 1)) == 5.0
  {
    assert COMBO_WINDOW_BASE - combo as real * COMBO_WINDOW_DECAY >= COMBO_WINDOW_MIN;
  }

  /** `_pipeSpawnBudget`; `None` is no limit. */
  function SpawnBudget(w: real, h: real): Option<nat> {
    var area := w * h;
    if area <= 0.0 then Some(0)
    else if area < 5000.0 then Some(4)
    else if area < 20000.0 then Some(12)
    else None
  }

  function Margin(w: real, h: real): real {
    Clamp(Min(w, h) * 0.25, 110.0, 240.0)
  }

  function OnField(w: real, h: real): Pipe -> bool {
    (p: Pipe) => !PipeOff(p, w, h, Margin(w, h))
  }

  function GateOnField(w: real, h: real): Gate -> bool {
    (g: Gate) => !GateOff(g, w, h, Margin(w, h))
  }

  function MarkerSize(cfg: Config, w: real, h: real): real {
    var thickness := Clamp(Min(w, h) * cfg.thickness.scale, cfg.thickness.min, cfg.thickness.max);
    Max(Max(12.0, thickness * 0.6), 200.0 - Margin(w, h))
  }

  /** The marker pipe of a special wall stands still just inside the margin: it is never removed as having left. */
  lemma MarkerNeverLeaves(cfg: Config, p: Pipe, w: real, h: real, dt: real, mul: real)
    requires w >= 0.0 && h >= 0.0 && p.vx == 0.0 && p.vy == 0.0
    requires p.x == -200.0 && p.y == -200.0 && p.w == p.h == MarkerSize(cfg, w, h)
    ensures !PipeOff(p, w, h, Margin(w, h))
    ensures var q := PipeMoved(p, dt, mul, w, h);
            q.x == p.x && q.y == p.y && q.w == p.w && q.h == p.h && q.vx == 0.0 && q.vy == 0.0
  {
  }

  function NewGate(spec: GateSpec, gapId: nat): Gate {
    Gate(spec.axisX, spec.pos, spec.pos, spec.v, spec.gapCenter, spec.gapHalf, spec.thick, false, false, false, gapId)
  }

  function SpecsOf(parts: seq<Part>): seq<PipeSpec> {
    if parts == [] then [] else SpecsOf(parts[..|parts| - 1]) + [parts[|parts| - 1].pipe]
  }

  function OrbMoved(o: Orb, dt: real, w: real, h: real): Orb {
    OrbTurned(o.(x := Straight(o.x, o.vx, dt), y := Straight(o.y, o.vy, dt), life := o.life - dt), w, h)
  }

  /** An orb beyond a wall is set to it and turned inwards. */
  function OrbTurned(o: Orb, w: real, h: real): Orb {
    var pad := o.r + 4.0;
    var (x1, vx1) := if o.x < pad then (pad, Abs(o.vx)) else (o.x, o.vx);
    var (x2, vx2) := if x1 > w - pad then (w - pad, -Abs(vx1)) else (x1, vx1);
    var (y1, vy1) := if o.y < pad then (pad, Abs(o.vy)) else (o.y, o.vy);
    var (y2, vy2) := if y1 > h - pad then (h - pad, -Abs(vy1)) else (y1, vy1);
    Orb(x2, y2, vx2, vy2, o.r, o.life)
  }

  /** The orbs and the wait after one tick of the orb timer; draw `d` decides on a new orb and the next wait. */
  function OrbSpawn(cfg: Config, choices: Choices, orbs: seq<Orb>, wait: real, dt: real, d: nat): (seq<Orb>, real) {
    if !cfg.orbsEnabled then (orbs, wait)
    else if wait - dt > 0.0 then (orbs, wait - dt)
    else (if |orbs| < cfg.maxOrbs then orbs + [choices.orb(d)] else orbs, choices.orbWait(d))
  }

  /** The combo after a tick: `before` orbs could be taken, `left` of them were not. */
  function ComboAfter(combo: nat, timer: real, before: nat, left: nat, dt: real): int {
    if left == before && timer <= dt then 0 else combo + before - left
  }

  function OrbsMoved(orbs: seq<Orb>, dt: real, w: real, h: real): (moved: seq<Orb>)
    ensures |moved| == |orbs|
    ensures forall i :: 0 <= i < |orbs| ==> moved[i] == OrbMoved(orbs[i], dt, w, h)
  {
    if orbs == [] then [] else OrbsMoved(orbs[..|orbs| - 1], dt, w, h) + [OrbMoved(orbs[|orbs| - 1], dt, w, h)]
  }

  function Alive(): Orb -> bool {
    (o: Orb) => o.life > 0.0
  }

  function Beyond(p: Player): Orb -> bool {
    (o: Orb) => !Touches(p, o)
  }

  /** `Pipe.update`, slower for a pipe that touches the slow field. */
  function Pushed(p: Pipe, field: Option<Field>, dt: real, w: real, h: real): Pipe {
    var slow := field.Some? && Overlaps(p, field.value.x, field.value.y, field.value.r);
    PipeMoved(p, dt, if slow then field.value.fac else 1.0, w, h)
  }

  function PipesMoved(pipes: seq<Pipe>, field: Option<Field>, dt: real, w: real, h: real): (moved: seq<Pipe>)
    ensures |moved| == |pipes|
    ensures forall i :: 0 <= i < |pipes| ==> moved[i] == Pushed(pipes[i], field, dt, w, h)
  {
    if pipes == [] then []
    else PipesMoved(pipes[..|pipes| - 1], field, dt, w, h) + [Pushed(pipes[|pipes| - 1], field, dt, w, h)]
  }

  /** The orbs left on screen after they have moved and the player has taken those within reach. */
  function OrbsLeft(orbs: seq<Orb>, p: Player, dt: real, w: real, h: real): seq<Orb> {
    Kept(Kept(OrbsMoved(orbs, dt, w, h), Alive()), Beyond(p))
  }

  /** The combo once the orbs within reach have gone. */
  function ComboLeft(combo: nat, timer: real, orbs: seq<Orb>, left: seq<Orb>, dt: real, w: real, h: real): int {
    ComboAfter(combo, timer, |Kept(OrbsMoved(orbs, dt, w, h), Alive())|, |left|, dt)
  }

  predicate Touches(p: Player, o: Orb) {
    CircleCircle(p.x, p.y, p.r, o.x, o.y, o.r)
  }

  /** `dashBounceMax`; `None` is no limit. */
  function DashBounceMax(cfg: DashConfig): Option<nat> {
    if cfg.maxBounces.None? || cfg.maxBounces.value < 0.0 then None else Some(cfg.maxBounces.value.Floor)
  }

  function Cooled(cds: PerSkill<real>, dt: real): PerSkill<real> {
    PerSkill(Max(0.0, cds.dash - dt), Max(0.0, cds.phase - dt), Max(0.0, cds.teleport - dt),
             Max(0.0, cds.slowField - dt))
  }

  /** How long a skill has to cool after use. */
  function CooldownOf(cfg: Config, skill: Skill): real {
    match skill
    case Dash => Max(0.0, (if cfg.dashDestroys then cfg.dashDestroy else cfg.dash).cooldown)
    case Phase => Max(0.0, cfg.phaseCooldown) * (if cfg.longPhase then 2.0 else 1.0)
    case Teleport => Max(0.0, cfg.teleportCooldown) * (if cfg.teleportExplodes then 2.0 else 1.0)
    case SlowField => Max(0.0, if cfg.slowExplodes then cfg.blastCooldown else cfg.slowCooldown)
  }

  function PhaseLength(cfg: Config): real {
    Clamp(if cfg.longPhase then Max(0.0, cfg.phaseDuration) * 2.0 else cfg.phaseDuration, 0.0, 2.0)
  }

  /** The field a slow skill leaves; the exploding kind leaves none. */
  function FieldOf(cfg: Config, p: Player): Option<Field> {
    if cfg.slowExplodes then None
    else Some(Field(p.x, p.y, Clamp(cfg.slowRadius, 40.0, 900.0), Clamp(cfg.slowFactor, 0.10, 1.0),
                    Clamp(cfg.slowDuration, 0.0, 8.0)))
  }

  function Faded(field: Option<Field>, dt: real): Option<Field> {
    if field.None? || field.value.t <= dt then None else Some(field.value.(t := field.value.t - dt))
  }

  // ---- gates ----

  /** The gate's own gap has no broken pipe. */
  predicate GapWhole(g: Gate, meta: map<nat, GapMeta>) {
    g.gapId in meta ==> !meta[g.gapId].broken
  }

  /** The gate earns a perfect this tick. */
  predicate Earns(g: Gate, meta: map<nat, GapMeta>, p: Player, prevX: real, prevY: real, windowScale: real) {
    && !g.perfected && g.entered && GapWhole(g, meta)
    && IsPerfect(g, if g.axisX then p.x else p.y, if g.axisX then prevY else prevX, if g.axisX then p.y else p.x,
                 Clamp(windowScale, 0.0, 1.0))
  }

  /** The gate's flags after the perfect check. */
  function Judged(g: Gate, meta: map<nat, GapMeta>, p: Player, prevX: real, prevY: real, windowScale: real): Gate {
    var crossed := !g.perfected && g.entered && GapWhole(g, meta) &&
                   Crossed(g.prev, g.pos, g.thick * 0.5, if g.axisX then p.x else p.y);
    g.(cleared := g.cleared || crossed, perfected := g.perfected || Earns(g, meta, p, prevX, prevY, windowScale))
  }

  function GatesMoved(gates: seq<Gate>, dt: real, w: real, h: real): (moved: seq<Gate>)
    ensures |moved| == |gates|
    ensures forall i :: 0 <= i < |gates| ==> moved[i] == Moved(gates[i], dt, w, h)
  {
    if gates == [] then [] else GatesMoved(gates[..|gates| - 1], dt, w, h) + [Moved(gates[|gates| - 1], dt, w, h)]
  }

  /** The gates after a tick of play in which the player went from `(prevX, prevY)` to where `p` is. */
  function GatesScored(cfg: Config, gates: seq<Gate>, meta: map<nat, GapMeta>, p: Player, prevX: real, prevY: real,
                       dt: real, w: real, h: real): seq<Gate> {
    var moved := GatesMoved(gates, dt, w, h);
    if cfg.perfectEnabled then AllJudged(moved, meta, p, prevX, prevY, cfg.windowScale) else moved
  }

  function AllJudged(gates: seq<Gate>, meta: map<nat, GapMeta>, p: Player, prevX: real, prevY: real,
                     scale: real): seq<Gate> {
    if gates == [] then []
    else
      var last := |gates| - 1;
      AllJudged(gates[..last], meta, p, prevX, prevY, scale) + [Judged(gates[last], meta, p, prevX, prevY, scale)]
  }

  /** The awards of one tick, in the order of the gates. */
  function Awards(gates: seq<Gate>, meta: map<nat, GapMeta>, p: Player, prevX: real, prevY: real,
                  scale: real): seq<GapEvent> {
    if gates == [] then []
    else
      var g := gates[|gates| - 1];
      Awards(gates[..|gates| - 1], meta, p, prevX, prevY, scale)
      + if Earns(g, meta, p, prevX, prevY, scale) then [Perfected(g.gapId)] else []
  }

  /** Entries that differ at most in their perfected flags. */
  ghost predicate SameGaps(meta: map<nat, GapMeta>, later: map<nat, GapMeta>) {
    (forall g :: g in meta <==> g in later) &&
    forall g :: g in meta ==> meta[g].broken == later[g].broken && meta[g].pipesRemaining == later[g].pipesRemaining
  }

  lemma NoneJudged(gates: seq<Gate>, k: nat, log: seq<GapEvent>, meta: map<nat, GapMeta>, p: Player, prevX: real,
                   prevY: real, scale: real)
    requires k == 0
    ensures gates == AllJudged(gates[..k], meta, p, prevX, prevY, scale) + gates[k..]
    ensures log == log + Awards(gates[..k], meta, p, prevX, prevY, scale)
  {
  }

  lemma EveryOneJudged(gates: seq<Gate>, k: nat, meta: map<nat, GapMeta>, p: Player, prevX: real, prevY: real,
                       scale: real)
    requires k == |gates|
    ensures gates[..k] == gates
    ensures AllJudged(gates[..k], meta, p, prevX, prevY, scale) + gates[k..]
              == AllJudged(gates, meta, p, prevX, prevY, scale)
  {
    assert gates[..k] == gates && gates[k..] == [];
    hide AllJudged;
  }

  /** One more gate judged: the awards given so far do not matter to it. */
  lemma JudgedNext(gates: seq<Gate>, k: nat, meta: map<nat, GapMeta>, later: map<nat, GapMeta>,
                   p: Player, prevX: real, prevY: real, scale: real)
    requires k < |gates| && SameGaps(meta, later)
    ensures var g, done := gates[k], AllJudged(gates[..k], meta, p, prevX, prevY, scale);
            && |done| == k && (done + gates[k..])[k] == g
            && (done + gates[k..])[k := Judged(g, later, p, prevX, prevY, scale)]
                 == AllJudged(gates[..k + 1], meta, p, prevX, prevY, scale) + gates[k + 1..]
            && Awards(gates[..k + 1], meta, p, prevX, prevY, scale)
                 == Awards(gates[..k], meta, p, prevX, prevY, scale)
                    + (if Earns(g, later, p, prevX, prevY, scale) then [Perfected(g.gapId)] else [])
    ensures SameGaps(meta, MarkPerfected(later, gates[k].gapId))
  {
    assert gates[..k + 1][..k] == gates[..k];
    JudgedLength(gates[..k], meta, p, prevX, prevY, scale);
    SameVerdict(gates[k], meta, later, p, prevX, prevY, scale);
    ReplaceNext(AllJudged(gates[..k], meta, p, prevX, prevY, scale), gates, k,
                Judged(gates[k], later, p, prevX, prevY, scale));
    hide Judged, Earns;
  }

  lemma SameVerdict(g: Gate, meta: map<nat, GapMeta>, later: map<nat, GapMeta>, p: Player, prevX: real, prevY: real,
                    scale: real)
    requires SameGaps(meta, later)
    ensures Judged(g, later, p, prevX, prevY, scale) == Judged(g, meta, p, prevX, prevY, scale)
    ensures Earns(g, later, p, prevX, prevY, scale) == Earns(g, meta, p, prevX, prevY, scale)
  {
  }

  lemma {:induction false} JudgedLength(gates: seq<Gate>, meta: map<nat, GapMeta>, p: Player, prevX: real,
                                        prevY: real, scale: real)
    ensures |AllJudged(gates, meta, p, prevX, prevY, scale)| == |gates|
  {
    if gates != [] { JudgedLength(gates[..|gates| - 1], meta, p, prevX, prevY, scale); }
  }

  // ---- gap entries ----

  /** A gap's entry when one of its pipes goes. */
  function WithoutPipe(m: GapMeta, broken: bool): GapMeta {
    m.(broken := m.broken || broken, pipesRemaining := if m.pipesRemaining > 0 then m.pipesRemaining - 1 else 0)
  }

  /** The entry is dropped: all pipes gone and none of them broken. */
  predicate Closes(m: GapMeta, broken: bool) {
    var m' := WithoutPipe(m, broken);
    !m'.broken && m'.pipesRemaining == 0
  }

  function PipeGone(meta: map<nat, GapMeta>, gid: nat, broken: bool): map<nat, GapMeta> {
    if gid == 0 || gid !in meta then meta
    else if Closes(meta[gid], broken) then meta - {gid}
    else meta[gid := WithoutPipe(meta[gid], broken)]
  }

  // ---------------------------------------------------------------------
  // The score ledger: what the counters must be, given the streaks so far.
  // ---------------------------------------------------------------------

  ghost predicate Balanced(cfg: Scoring, score: nat, stats: Stats, combo: nat, perfectCombo: nat,
                           orbStreaks: seq<nat>, perfects: seq<nat>) {
    && orbStreaks != [] && perfects != []
    && combo == Current(orbStreaks) && perfectCombo == Current(perfects)
    && stats.orbs == Bucket(AllPoints(OrbRule(cfg), orbStreaks), Streaks.Sum(orbStreaks))
    && stats.perfects == Bucket(AllPoints(PerfectRule(cfg), perfects), Streaks.Sum(perfects))
    && stats.pipes == Bucket(stats.pipesDodged * PipePoints(cfg), stats.pipesDodged)
    && stats.other == Bucket(0, 0)
    && stats.orbsCollected == stats.orbs.count && stats.perfectsMade == stats.perfects.count
    && stats.maxOrbCombo == Longest(orbStreaks) && stats.maxPerfectCombo == Longest(perfects)
    && score == stats.orbs.points + stats.perfects.points + stats.pipes.points + stats.other.points
    && stats.abilitiesUsed ==
         stats.skillUsage.dash + stats.skillUsage.phase + stats.skillUsage.teleport + stats.skillUsage.slowField
  }

  function Plus(b: Bucket, points: nat): Bucket {
    Bucket(b.points + points, b.count + 1)
  }

  function WithOrb(s: Stats, combo: nat, points: nat): Stats {
    s.(orbsCollected := s.orbsCollected + 1, orbs := Plus(s.orbs, points),
       maxOrbCombo := Larger(s.maxOrbCombo, combo))
  }

  function WithPerfect(s: Stats, streak: nat, points: nat): Stats {
    s.(perfectsMade := s.perfectsMade + 1, perfects := Plus(s.perfects, points),
       maxPerfectCombo := Larger(s.maxPerfectCombo, streak))
  }

  function WithDodge(s: Stats, points: nat): Stats {
    s.(pipesDodged := s.pipesDodged + 1, pipes := Plus(s.pipes, points))
  }

  function WithBroken(s: Stats): Stats {
    s.(brokenPipes := s.brokenPipes + 1)
  }

  function WithMost(s: Stats, n: nat): Stats {
    s.(maxBrokenPipesInExplosion := Larger(s.maxBrokenPipesInExplosion, n))
  }

  /** `n` pipes broken in one blast. */
  function WithBlast(s: Stats, n: nat): Stats {
    WithMost(s.(brokenPipes := s.brokenPipes + n), n)
  }

  function WithSkill(s: Stats, skill: Skill): Stats {
    s.(abilitiesUsed := s.abilitiesUsed + 1, skillUsage := s.skillUsage.Set(skill, s.skillUsage.Get(skill) + 1))
  }

  /** The pipe counters are the same. */
  predicate SameFates(s: Stats, t: Stats) {
    && s.pipesDodged == t.pipesDodged && s.brokenPipes == t.brokenPipes
    && s.maxBrokenPipesInExplosion == t.maxBrokenPipesInExplosion
  }

  lemma BalancedStart(cfg: Scoring, orbs: seq<nat>, perfects: seq<nat>)
    requires orbs == perfects == [0]
    ensures Balanced(cfg, 0, NoStats(), 0, 0, orbs, perfects)
  {
    FirstBooks(OrbRule(cfg), orbs);
    FirstBooks(PerfectRule(cfg), perfects);
  }

  lemma BalancedOrb(cfg: Scoring, score: nat, stats: Stats, combo: nat, perfectCombo: nat, orbs: seq<nat>,
                    perfects: seq<nat>)
    requires Balanced(cfg, score, stats, combo, perfectCombo, orbs, perfects)
    ensures var pts := OrbPoints(cfg, combo + 1);
            Balanced(cfg, score + pts, WithOrb(stats, combo + 1, pts), combo + 1, perfectCombo, Extended(orbs),
                     perfects)
  {
    ExtendedBooks(OrbRule(cfg), orbs);
  }

  lemma BalancedBreak(cfg: Scoring, score: nat, stats: Stats, combo: nat, perfectCombo: nat, orbs: seq<nat>,
                      perfects: seq<nat>)
    requires Balanced(cfg, score, stats, combo, perfectCombo, orbs, perfects)
    ensures Balanced(cfg, score, stats, 0, perfectCombo, orbs + [0], perfects)
    ensures Balanced(cfg, score, stats, combo, 0, orbs, perfects + [0])
  {
    BrokenBooks(OrbRule(cfg), orbs);
    BrokenBooks(PerfectRule(cfg), perfects);
  }

  lemma BalancedPerfect(cfg: Scoring, score: nat, stats: Stats, combo: nat, perfectCombo: nat, orbs: seq<nat>,
                        perfects: seq<nat>)
    requires Balanced(cfg, score, stats, combo, perfectCombo, orbs, perfects)
    ensures var pts := PerfectPoints(cfg, perfectCombo + 1);
            Balanced(cfg, score + pts, WithPerfect(stats, perfectCombo + 1, pts), combo, perfectCombo + 1, orbs,
                     Extended(perfects))
  {
    ExtendedBooks(PerfectRule(cfg), perfects);
  }

  /** The breaking of pipes and the use of skills leave the score alone. */
  lemma BalancedAnyway(cfg: Scoring, score: nat, stats: Stats, combo: nat, perfectCombo: nat, orbs: seq<nat>,
                       perfects: seq<nat>,
                       broken: nat, most: nat, skill: Skill)
    requires Balanced(cfg, score, stats, combo, perfectCombo, orbs, perfects)
    ensures Balanced(cfg, score, stats.(brokenPipes := broken, maxBrokenPipesInExplosion := most), combo,
                     perfectCombo, orbs, perfects)
    ensures Balanced(cfg, score, WithSkill(stats, skill), combo, perfectCombo, orbs, perfects)
  {
    hide OrbRule, PerfectRule;
  }

  lemma OneMoreTimes(n: nat, p: nat)
    ensures (n + 1) * p == n * p + p
  {
  }

  lemma BalancedDodge(cfg: Scoring, score: nat, stats: Stats, combo: nat, perfectCombo: nat, orbs: seq<nat>,
                      perfects: seq<nat>)
    requires Balanced(cfg, score, stats, combo, perfectCombo, orbs, perfects)
    ensures var pts := PipePoints(cfg);
            Balanced(cfg, score + pts, WithDodge(stats, pts), combo, perfectCombo, orbs, perfects)
  {
    OneMoreTimes(stats.pipesDodged, PipePoints(cfg));
  }

  // ---------------------------------------------------------------------
  // The story of the gaps.
  // ---------------------------------------------------------------------

  ghost predicate GatesMatch(past: set<GapEvent>, next: nat, gates: seq<Gate>) {
    && (forall i :: 0 <= i < |gates| ==>
          0 < gates[i].gapId < next && (gates[i].perfected <==> Perfected(gates[i].gapId) in past))
    && (forall i, j :: 0 <= i < j < |gates| ==> gates[i].gapId != gates[j].gapId)
  }

  ghost predicate Consistent(log: seq<GapEvent>, meta: map<nat, GapMeta>, next: nat, gates: seq<Gate>) {
    WellTold(log) && next > 0 && Mirrors(Past(log), meta, next) && GatesMatch(Past(log), next, gates)
  }

  lemma EntriesInRange(log: seq<GapEvent>, meta: map<nat, GapMeta>, next: nat, gates: seq<Gate>)
    requires Consistent(log, meta, next, gates)
    ensures next > 0 && forall g :: g in meta ==> 0 < g < next
  {
  }

  /** Gates that moved are still the same gates. */
  predicate SameGates(gates: seq<Gate>, moved: seq<Gate>) {
    |gates| == |moved| &&
    forall i :: 0 <= i < |gates| ==> moved[i].gapId == gates[i].gapId && moved[i].perfected == gates[i].perfected
  }

  lemma ConsistentSame(log: seq<GapEvent>, meta: map<nat, GapMeta>, next: nat, gates: seq<Gate>, moved: seq<Gate>)
    requires Consistent(log, meta, next, gates) && SameGates(gates, moved)
    ensures Consistent(log, meta, next, moved)
  {
  }

  function MarkPerfected(meta: map<nat, GapMeta>, gid: nat): map<nat, GapMeta> {
    if gid in meta then meta[gid := meta[gid].(perfected := true)] else meta
  }

  lemma GatesUnaffected(past: set<GapEvent>, next: nat, gates: seq<Gate>, e: GapEvent)
    requires GatesMatch(past, next, gates) && !e.Perfected?
    ensures GatesMatch(past + {e}, next, gates)
  {
  }

  lemma Harmless(past: set<GapEvent>, e: GapEvent)
    requires !e.Opened? && !e.Closed?
    ensures forall g :: WasClosed(past + {e}, g) <==> WasClosed(past, g)
    ensures forall g :: Opened(g) in past + {e} <==> Opened(g) in past
  {
  }

  lemma MirrorsPerfected(past: set<GapEvent>, meta: map<nat, GapMeta>, next: nat, gid: nat)
    requires Mirrors(past, meta, next) && 0 < gid < next
    ensures Mirrors(past + {Perfected(gid)}, MarkPerfected(meta, gid), next)
  {
    Harmless(past, Perfected(gid));
    hide WasClosed;
  }

  lemma GatesPerfected(past: set<GapEvent>, next: nat, gates: seq<Gate>, i: nat)
    requires GatesMatch(past, next, gates) && i < |gates|
    ensures GatesMatch(past + {Perfected(gates[i].gapId)}, next, gates[i := gates[i].(perfected := true)])
  {
  }

  lemma ConsistentPerfect(log: seq<GapEvent>, meta: map<nat, GapMeta>, next: nat, gates: seq<Gate>, i: nat)
    requires Consistent(log, meta, next, gates) && i < |gates| && !gates[i].perfected
    ensures var gid := gates[i].gapId;
            Consistent(log + [Perfected(gid)], MarkPerfected(meta, gid), next, gates[i := gates[i].(perfected := true)])
  {
    OneMoreEvent(log, Perfected(gates[i].gapId));
    MirrorsPerfected(Past(log), meta, next, gates[i].gapId);
    GatesPerfected(Past(log), next, gates, i);
  }

  /** What the removal of a pipe adds to the story. */
  function PipeEvents(meta: map<nat, GapMeta>, gid: nat, broken: bool): seq<GapEvent> {
    if gid == 0 then []
    else if broken then [Broken(gid)]
    else if gid in meta && Closes(meta[gid], false) then [Closed(gid, !meta[gid].perfected)]
    else []
  }

  /** What the removal of a gate adds to the story. */
  function GateEvents(meta: map<nat, GapMeta>, gid: nat): seq<GapEvent> {
    if gid in meta then [Closed(gid, !meta[gid].perfected && !meta[gid].broken)] else []
  }

  predicate Resets(events: seq<GapEvent>) {
    events != [] && events[0].Closed? && events[0].reset
  }

  lemma MirrorsBroken(past: set<GapEvent>, meta: map<nat, GapMeta>, next: nat, gid: nat)
    requires Mirrors(past, meta, next) && 0 < gid < next
    ensures Mirrors(past + {Broken(gid)}, PipeGone(meta, gid, true), next)
  {
    Harmless(past, Broken(gid));
    hide WasClosed;
  }

  lemma MirrorsClosed(past: set<GapEvent>, meta: map<nat, GapMeta>, next: nat, gid: nat, reset: bool)
    requires Mirrors(past, meta, next) && gid in meta
    ensures Mirrors(past + {Closed(gid, reset)}, meta - {gid}, next)
  {
  }

  lemma ConsistentPipe(log: seq<GapEvent>, meta: map<nat, GapMeta>, next: nat, gates: seq<Gate>, gid: nat, broken: bool)
    requires Consistent(log, meta, next, gates) && gid < next
    ensures Consistent(log + PipeEvents(meta, gid, broken), PipeGone(meta, gid, broken), next, gates)
  {
    hide GatesMatch, StreaksOf;
    var events := PipeEvents(meta, gid, broken);
    if events == [] {
      assert log + events == log;
    } else {
      OneMoreEvent(log, events[0]);
      GatesUnaffected(Past(log), next, gates, events[0]);
      if broken {
        MirrorsBroken(Past(log), meta, next, gid);
      } else {
        MirrorsClosed(Past(log), meta, next, gid, events[0].reset);
      }
    }
  }

  lemma ConsistentGate(log: seq<GapEvent>, meta: map<nat, GapMeta>, next: nat, gates: seq<Gate>, gid: nat)
    requires Consistent(log, meta, next, gates)
    ensures Consistent(log + GateEvents(meta, gid), meta - {gid}, next, gates)
  {
    var events := GateEvents(meta, gid);
    if events == [] {
      assert log + events == log && meta - {gid} == meta;
    } else {
      OneMoreEvent(log, events[0]);
      GatesUnaffected(Past(log), next, gates, events[0]);
      MirrorsClosed(Past(log), meta, next, gid, events[0].reset);
    }
  }

  lemma GatesWithNew(past: set<GapEvent>, meta: map<nat, GapMeta>, next: nat, gates: seq<Gate>, g: Gate)
    requires Mirrors(past, meta, next) && GatesMatch(past, next, gates)
    requires next > 0 && g.gapId == next && !g.perfected
    ensures GatesMatch(past, next + 1, gates + [g]) && Mirrors(past, meta, next + 1)
  {
  }

  lemma MirrorsOpened(past: set<GapEvent>, meta: map<nat, GapMeta>, next: nat, pipes: nat)
    requires Mirrors(past, meta, next) && next > 0
    ensures Mirrors(past + {Opened(next)}, meta[next := GapMeta(false, false, pipes)], next + 1)
  {
  }

  lemma ConsistentOpen(log: seq<GapEvent>, meta: map<nat, GapMeta>, next: nat, gates: seq<Gate>, g: Gate, pipes: nat)
    requires Consistent(log, meta, next, gates) && g.gapId == next && !g.perfected
    ensures Consistent(log, meta, next + 1, gates + [g])
    ensures Consistent(log + [Opened(next)], meta[next := GapMeta(false, false, pipes)], next + 1, gates + [g])
  {
    OneMoreEvent(log, Opened(next));
    GatesWithNew(Past(log), meta, next, gates, g);
    GatesUnaffected(Past(log), next + 1, gates + [g], Opened(next));
    MirrorsOpened(Past(log), meta, next, pipes);
  }

  lemma ConsistentWithoutGate(log: seq<GapEvent>, meta: map<nat, GapMeta>, next: nat, gates: seq<Gate>, i: nat)
    requires Consistent(log, meta, next, gates) && i < |gates|
    ensures Consistent(log, meta, next, RemoveAt(gates, i))
  {
  }

  /** The streak after the removal of a pipe or gate. */
  lemma StreaksAfter(log: seq<GapEvent>, events: seq<GapEvent>)
    requires |events| <= 1 && (events != [] ==> !events[0].Perfected?)
    ensures StreaksOf(log + events) == if Resets(events) then StreaksOf(log) + [0] else StreaksOf(log)
  {
    if events == [] {
      assert log + events == log;
    } else {
      OneMoreEvent(log, events[0]);
      assert events == [events[0]];
    }
  }

  /** Where a run begins. */
  lemma EmptyLedger(cfg: Scoring, orbs: seq<nat>, log: seq<GapEvent>)
    requires orbs == [0] && log == []
    ensures Balanced(cfg, 0, NoStats(), 0, 0, orbs, StreaksOf(log))
  {
    BalancedStart(cfg, orbs, StreaksOf(log));
  }

  lemma NothingScored(cfg: Scoring, score: nat, stats: Stats, combo: nat, perfectCombo: nat,
                      orbs: seq<nat>, perfects: seq<nat>)
    requires Balanced(cfg, score, stats, combo, perfectCombo, orbs, perfects) && stats == NoStats()
    ensures score == 0
  {
  }

  lemma EmptyStory(log: seq<GapEvent>, meta: map<nat, GapMeta>, gates: seq<Gate>)
    requires log == [] && meta == map[] && gates == []
    ensures Consistent(log, meta, 1, gates)
  {
  }
}
