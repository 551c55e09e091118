/** What the settings of the skills come to (public/js/game.js): cooldowns, lengths, fields and blasts. */
module SkillSettings {
  import opened Options
  import opened JsNumbers
  import opened Geometry
  import opened Lists
  import opened Skills
  import opened Pipes
  import opened RunModel
  import opened PlayerMotion
  import opened Census

  /**
   A use costs its setting; the long phase and the exploding teleport cost twice theirs, a negative setting
   nothing.
   */
  lemma CooldownsAre(cfg: Config)
    ensures var dash := if cfg.dashDestroys then cfg.dashDestroy.cooldown else cfg.dash.cooldown;
            CooldownOf(cfg, Dash) == if dash > 0.0 then dash else 0.0
    ensures CooldownOf(cfg, Phase)
              == if cfg.phaseCooldown <= 0.0 then 0.0
                 else if cfg.longPhase then cfg.phaseCooldown + cfg.phaseCooldown else cfg.phaseCooldown
    ensures CooldownOf(cfg, Teleport)
              == if cfg.teleportCooldown <= 0.0 then 0.0
                 else if cfg.teleportExplodes then cfg.teleportCooldown + cfg.teleportCooldown else cfg.teleportCooldown
    ensures var slow := if cfg.slowExplodes then cfg.blastCooldown else cfg.slowCooldown;
            CooldownOf(cfg, SlowField) == if slow > 0.0 then slow else 0.0
  {
  }

  /** A phase lasts its setting, the long one twice that, never more than two seconds. */
  lemma PhaseLasts(cfg: Config)
    ensures var t := if cfg.longPhase then cfg.phaseDuration + cfg.phaseDuration else cfg.phaseDuration;
            && (0.0 <= t <= 2.0 ==> PhaseLength(cfg) == t)
            && (t < 0.0 ==> PhaseLength(cfg) == 0.0) && (t > 2.0 ==> PhaseLength(cfg) == 2.0)
  {
  }

  /**
   The field stands where the player is, with the settings as far as they are allowed; the exploding kind leaves
   none.
   */
  lemma FieldLeft(cfg: Config, p: Player)
    ensures FieldOf(cfg, p).None? <==> cfg.slowExplodes
    ensures FieldOf(cfg, p).Some? ==>
      var f := FieldOf(cfg, p).value;
      && f.x == p.x && f.y == p.y
      && (40.0 <= cfg.slowRadius <= 900.0 ==> f.r == cfg.slowRadius) && 40.0 <= f.r <= 900.0
      && (cfg.slowRadius > 900.0 ==> f.r == 900.0) && (cfg.slowRadius < 40.0 ==> f.r == 40.0)
      && (0.1 <= cfg.slowFactor <= 1.0 ==> f.fac == cfg.slowFactor) && 0.1 <= f.fac <= 1.0
      && (cfg.slowFactor > 1.0 ==> f.fac == 1.0) && (cfg.slowFactor < 0.1 ==> f.fac == 0.1)
      && (0.0 <= cfg.slowDuration <= 8.0 ==> f.t == cfg.slowDuration) && 0.0 <= f.t <= 8.0
      && (cfg.slowDuration > 8.0 ==> f.t == 8.0) && (cfg.slowDuration < 0.0 ==> f.t == 0.0)
  {
  }

  /**
   Only an exploding teleport and an exploding slow field destroy pipes: around the player, in its size and the set
   one.
   */
  lemma BlastIs(cfg: Config, skill: Skill, p: Player)
    ensures BlastOf(cfg, skill, p).Some?
            <==> (skill == Teleport && cfg.teleportExplodes) || (skill == SlowField && cfg.slowExplodes)
    ensures BlastOf(cfg, skill, p).Some? ==>
      var (x, y, r) := BlastOf(cfg, skill, p).value;
      && x == p.x && y == p.y
      && (skill == Teleport ==> r == if p.r > 1.0 then p.r else 1.0)
      && (skill == SlowField && 20.0 <= cfg.blastRadius <= 900.0 ==> r == cfg.blastRadius)
      && (skill == SlowField && cfg.blastRadius < 20.0 ==> r == 20.0)
      && (skill == SlowField && cfg.blastRadius > 900.0 ==> r == 900.0)
  {
  }

  /** A blast spares exactly the pipes it does not touch, each as often as it was there; without one nothing goes. */
  lemma BlastSpares(pipes: seq<Pipe>, blast: Option<(real, real, real)>, p: Pipe)
    ensures multiset(AfterBlast(pipes, blast))[p] ==
              if blast.Some? && blast.value.2 > 0.0
                 && CircleRect(blast.value.0, blast.value.1, blast.value.2, Rect(p.x, p.y, p.w, p.h)) then 0
              else multiset(pipes)[p]
  {
    if blast.Some? {
      KeptCount(pipes, Spared(blast.value.0, blast.value.1, blast.value.2), p);
    }
    hide CircleRect;
  }

  /**
   A dash may bounce as often as it is set to, rounded down; without a setting, or a negative one, as often as it
   likes.
   */
  lemma BouncesAllowed(cfg: Config)
    ensures var dash := if cfg.dashDestroys then cfg.dashDestroy else cfg.dash;
            && (BounceCap(cfg).None? <==> dash.maxBounces.None? || dash.maxBounces.value < 0.0)
            && (BounceCap(cfg).Some? ==>
                  BounceCap(cfg).value as real <= dash.maxBounces.value < BounceCap(cfg).value as real + 1.0)
  {
  }

  /** A dash begins with its bounces and its destruction unspent, and lasts its setting, never more than 1.2 seconds. */
  lemma DashBegins(p: Player, duration: real, mode: DashMode)
    ensures var q := Dashing(p, duration, mode);
            && q.x == p.x && q.y == p.y && q.r == p.r && q.invT == p.invT
            && q.dashBounces == 0 && !q.dashDestroyed && q.dashMode == mode
            && (0.0 <= duration <= 1.2 ==> q.dashT == duration)
            && (duration < 0.0 ==> q.dashT == 0.0) && (duration > 1.2 ==> q.dashT == 1.2)
  {
  }

  /** What a touch means, case by case; while the player is invulnerable, nothing. */
  lemma TouchMeans(p: Player, pipes: seq<Pipe>, cap: Option<nat>)
    requires FirstTouch(p, pipes) < |pipes|
    ensures var c := CollisionOf(p, pipes, cap);
            && (p.invT > 0.0 ==> c == Missed)
            && (p.invT <= 0.0 && p.dashT <= 0.0 ==> c == Fatal)
            && (p.invT <= 0.0 && p.dashT > 0.0 && p.dashMode == Destroy && !p.dashDestroyed ==> c == Destroyed)
            && (p.invT <= 0.0 && p.dashT > 0.0 && (p.dashMode != Destroy || p.dashDestroyed) ==>
                  c == if cap.None? || p.dashBounces < cap.value then Reflected else Fatal)
  {
  }

  /**
   A dash that destroyed a pipe is over; the player stays where it is and is invulnerable for at least the set
   time.
   */
  lemma DashSpent(p: Player, iFrames: real)
    ensures var q := Spent(p, iFrames);
            && q.x == p.x && q.y == p.y && q.r == p.r
            && q.dashT == 0.0 && q.dashMode == NoDash && q.dashBounces == 0 && q.dashDestroyed
            && (iFrames <= 0.0 ==> q.invT == p.invT) && (iFrames > 0.0 ==> q.invT >= iFrames && q.invT >= p.invT)
            && (q.invT == p.invT || q.invT == iFrames)
  {
  }

  /**
   How many pipes a field of this size may hold: none without an area, few in a tiny one, any number in a normal
   one.
   */
  lemma BudgetIs(w: real, h: real, area: real)
    requires area == w * h
    ensures SpawnBudget(w, h)
              == if area >= 20000.0 then None
                 else if area >= 5000.0 then Some(12) else if area > 0.0 then Some(4) else Some(0)
  {
  }

  /** A use is counted once, for its own skill. */
  lemma UseCounted(s: Stats, skill: Skill, other: Skill)
    ensures var t := WithSkill(s, skill);
            && t.abilitiesUsed == s.abilitiesUsed + 1
            && t.skillUsage.Get(other) == s.skillUsage.Get(other) + (if other == skill then 1 else 0)
            && t == s.(abilitiesUsed := t.abilitiesUsed, skillUsage := t.skillUsage)
  {
  }

  /** A blast adds the pipes it broke, and is the record if it broke more than any before. */
  lemma BlastCounted(s: Stats, n: nat)
    ensures var t := WithBlast(s, n);
            && t.brokenPipes == s.brokenPipes + n
            && t.maxBrokenPipesInExplosion >= n && t.maxBrokenPipesInExplosion >= s.maxBrokenPipesInExplosion
            && (t.maxBrokenPipesInExplosion == n || t.maxBrokenPipesInExplosion == s.maxBrokenPipesInExplosion)
            && t == s.(brokenPipes := t.brokenPipes, maxBrokenPipesInExplosion := t.maxBrokenPipesInExplosion)
  {
  }

  /**
   The marker of a special wall is at least twelve wide, three fifths of a pipe, and wide enough to reach the margin -
   and just as wide as one of these asks for.
   */
  lemma MarkerSizeIs(cfg: Config, w: real, h: real)
    ensures var thick := Clamp(Min(w, h) * cfg.thickness.scale, cfg.thickness.min, cfg.thickness.max);
            var size := MarkerSize(cfg, w, h);
            && size >= 12.0 && 5.0 * size >= 3.0 * thick && -200.0 + size >= -Margin(w, h)
            && (size == 12.0 || 5.0 * size == 3.0 * thick || -200.0 + size == -Margin(w, h))
  {
  }
}
