/**
 The run state machine of public/js/game.js. `Valid` gathers what holds between
 ticks in every state a run can reach: the score ledger, the account of pipes,
 the story of the gaps, and the promises of the spawn scheduler.
 */
module Game {
  import opened Options
  import opened JsNumbers
  import opened Skills
  import opened Geometry
  import opened Lists
  import opened Pipes
  import opened PerfectGaps
  import opened Spawning
  import opened Streaks
  import opened GapHistory
  import opened RunModel
  import opened Census
  import opened Stocks
  import opened PlayerMotion
  import opened Modes

  datatype Input = Start | ToMenu | Act(skill: Skill, cursor: Option<(real, real)>) | Tick(dt: real, vel: (real, real))
                 | Picture

  class Game {
    const cfg: Config
    const W: real
    const H: real
    const choices: Choices

    var mode: Mode
    var timeAlive: real
    var pipeT: real
    var specialT: real
    var orbT: real
    var score: nat
    var stats: Stats
    var combo: nat
    var comboTimer: real
    var perfectCombo: nat
    var player: Player
    var pipes: seq<Pipe>
    var gates: seq<Gate>
    var orbs: seq<Orb>
    var gapMeta: map<nat, GapMeta>
    var nextGapId: nat
    var nextPipeId: nat
    var warnings: seq<Warning>
    var pendingPipe: Option<Plan>
    var pendingSpecial: Option<Plan>
    var cds: PerSkill<real>
    var slowField: Option<Field>
    var draws: nat
    var introTimeOffset: Option<real>

    // History, for the specification only.
    ghost var orbStreaks: seq<nat>
    ghost var gapLog: seq<GapEvent>
    ghost var dodged: seq<nat>
    ghost var broken: seq<nat>
    ghost var dropped: seq<nat>
    ghost var droppedGaps: multiset<nat>
    ghost var intervals: seq<real>
    ghost var regularSpawns: seq<Plan>
    ghost var specialSpawns: seq<Plan>
    ghost var pipePromises: seq<Promise>
    ghost var pipeDeliveries: seq<Delivery>
    ghost var specialPromises: seq<Promise>
    ghost var specialDeliveries: seq<Delivery>

    // -----------------------------------------------------------------
    // What holds between ticks.
    // -----------------------------------------------------------------

    /** Score, buckets and counters all follow from the streaks and the number of pipes dodged. */
    ghost predicate Ledger()
      reads this`score, this`stats, this`combo, this`perfectCombo, this`orbStreaks, this`gapLog
    {
      Balanced(cfg.scoring, score, stats, combo, perfectCombo, orbStreaks, StreaksOf(gapLog))
    }

    /** Every pipe ever spawned is live, dodged, broken or dropped - exactly one of these. */
    ghost predicate Conserved()
      reads this`pipes, this`nextPipeId, this`stats, this`dodged, this`broken, this`dropped
    {
      Censused(pipes, stats, dodged, broken, dropped, nextPipeId)
    }

    /** The gap entries mirror a well-told history; gates carry the awards. */
    ghost predicate Told()
      reads this`gapLog, this`gapMeta, this`nextGapId, this`gates
    {
      Consistent(gapLog, gapMeta, nextGapId, gates)
    }

    /** The entries' pipe counts are right. */
    ghost predicate Counted()
      reads this`pipes, this`gapMeta, this`droppedGaps, this`nextGapId
    {
      GapsCounted(pipes, gapMeta, droppedGaps, nextGapId)
    }

    ghost predicate Books()
      reads this`score, this`stats, this`combo, this`perfectCombo, this`orbStreaks, this`gapLog, this`pipes,
            this`nextPipeId, this`dodged, this`broken, this`dropped, this`gapMeta, this`nextGapId, this`gates,
            this`droppedGaps
    {
      Ledger() && Conserved() && Told() && Counted()
    }

    /** The combo is alive exactly while its timer runs. */
    predicate ComboTimed()
      reads this`combo, this`comboTimer
    {
      combo > 0 <==> comboTimer > 0.0
    }

    /** The pending pipe plan is the one outstanding promise, as of a tick that began at `before`. */
    ghost predicate PipePromised(before: real)
      reads this`timeAlive, this`pipeT, this`pendingPipe, this`pipePromises, this`pipeDeliveries
    {
      Outstanding(pipePromises, pipeDeliveries, pendingPipe, timeAlive, pipeT, before)
    }

    ghost predicate SpecialPromised(before: real)
      reads this`timeAlive, this`specialT, this`pendingSpecial, this`specialPromises, this`specialDeliveries
    {
      Outstanding(specialPromises, specialDeliveries, pendingSpecial, timeAlive, specialT, before)
    }

    /** The warnings not yet over are those of the plans still to come. */
    ghost predicate Warned()
      reads this`timeAlive, this`warnings, this`pendingPipe, this`pendingSpecial, this`pipePromises,
            this`specialPromises
    {
      Shown(warnings, timeAlive, pipePromises, pendingPipe, Forthcoming(specialPromises, pendingSpecial, timeAlive))
    }

    /** The intervals of the regular spawns keep the pace. */
    ghost predicate Pace()
      reads this`timeAlive, this`pipeT, this`intervals
    {
      Within(intervals, cfg.spawnInterval.min, cfg.spawnInterval.max) && Paced(intervals, timeAlive, pipeT)
    }

    /** If no intro offset has been noted, every interval used so far is the one of the intro. */
    ghost predicate SteadyFor(offset: Option<real>)
      reads this`intervals
    {
      cfg.introScore > 0.0 && offset == None ==>
        forall i :: 0 <= i < |intervals| ==> intervals[i] == WithinRamp(cfg.spawnInterval.start, cfg.spawnInterval)
    }

    ghost predicate Steady()
      reads this`intervals, this`introTimeOffset
    {
      SteadyFor(introTimeOffset)
    }

    /** One plan was carried out for every interval used, and with warnings on none that was not announced. */
    ghost predicate PipesForetold()
      reads this`pipeDeliveries, this`regularSpawns, this`intervals
    {
      NoSurprise(cfg.leadSeconds, pipeDeliveries, regularSpawns) && |regularSpawns| == |intervals|
    }

    ghost predicate SpecialsForetold()
      reads this`specialDeliveries, this`specialSpawns
    {
      NoSurprise(cfg.leadSeconds, specialDeliveries, specialSpawns)
    }

    /** Between ticks nothing pending is due and the warnings on show are those of the pending plans. */
    ghost predicate Scheduled()
      reads this`timeAlive, this`pipeT, this`specialT, this`pendingPipe, this`pendingSpecial, this`warnings,
            this`pipePromises, this`pipeDeliveries, this`specialPromises, this`specialDeliveries, this`intervals,
            this`regularSpawns, this`specialSpawns
    {
      && PipesForetold() && SpecialsForetold()
      && PipePromised(timeAlive) && (pendingPipe.Some? ==> pipeT > 0.0)
      && SpecialPromised(timeAlive) && (pendingSpecial.Some? ==> specialT > 0.0)
      && multiset(warnings) == Pending(pipePromises, pendingPipe) + Pending(specialPromises, pendingSpecial)
      && Pace()
      && timeAlive >= 0.0 && (timeAlive > 0.0 ==> pipeT > 0.0 && intervals != [])
    }

    /** The player is in the field and has not bounced more often than allowed. */
    predicate Sporting()
      reads this`player
    {
      InWorld(player, W, H) && WithinBounces(player, BounceCap(cfg))
    }

    ghost predicate Valid()
      reads this
    {
      Playable(cfg) && Books() && ComboTimed() && Scheduled() && Steady() && Sporting()
    }

    /** Every state the object can be in: from the first run on, the books are kept outside the menu. */
    ghost predicate Sound()
      reads this
    {
      Playable(cfg) && (mode != Menu ==> Valid())
    }

    // -----------------------------------------------------------------
    // Start.
    // -----------------------------------------------------------------

    constructor (cfg: Config, w: real, h: real, choices: Choices, r: real)
      requires Playable(cfg)
      ensures this.cfg == cfg && W == w && H == h && this.choices == choices && mode == Menu && player.r == r
    {
      this.cfg, W, H, this.choices := cfg, w, h, choices;
      mode := Menu;
      player := Player(w * 0.5, h * 0.5, r, 0.0, 0.0, 0, NoDash, false);
      cds, stats := PerSkill(0.0, 0.0, 0.0, 0.0), NoStats();
      hide *;
    }

    // The state a run starts from.

    ghost predicate CleanBooks()
      reads this`stats, this`combo, this`perfectCombo, this`gates, this`gapMeta, this`nextGapId, this`orbStreaks,
            this`gapLog
    {
      && stats == NoStats() && combo == perfectCombo == 0
      && gates == [] && gapMeta == map[] && nextGapId == 1 && gapLog == [] && orbStreaks == [0]
    }

    ghost predicate CleanPipes()
      reads this`pipes, this`dodged, this`broken, this`dropped, this`droppedGaps
    {
      pipes == [] && dodged == [] && broken == [] && dropped == [] && droppedGaps == multiset{}
    }

    ghost predicate CleanSchedule()
      reads this`timeAlive, this`pipeT, this`specialT, this`introTimeOffset, this`warnings, this`pendingPipe,
            this`pendingSpecial, this`intervals, this`pipePromises, this`pipeDeliveries, this`specialPromises,
            this`specialDeliveries, this`regularSpawns, this`specialSpawns
    {
      && timeAlive == 0.0 && pipeT == 0.0 && specialT == 1.6 && introTimeOffset == None
      && warnings == [] && pendingPipe == None && pendingSpecial == None
      && NoSpawns()
    }

    predicate CleanPlayer()
      reads this`player, this`orbs, this`slowField, this`cds
    {
      && player == Player(W * 0.5, H * 0.5, player.r, 0.0, 0.0, 0, NoDash, false)
      && orbs == [] && slowField == None && cds == PerSkill(0.0, 0.0, 0.0, 0.0)
    }

    /** The part of `_resetRun` that clears the books; the score itself only when a run starts. */
    method ResetBooks(clearScore: bool)
      modifies this`score, this`stats, this`combo, this`comboTimer, this`perfectCombo, this`gates, this`gapMeta,
               this`nextGapId, this`orbStreaks, this`gapLog
      ensures Told() && ComboTimed()
      ensures score == if clearScore then 0 else old(score)
      ensures CleanBooks()
    {
      hide Consistent, NoStats;
      if clearScore {
        score := 0;
      }
      stats := NoStats();
      combo, comboTimer, perfectCombo := 0, 0.0, 0;
      gates, gapMeta, nextGapId := [], map[], 1;
      orbStreaks, gapLog := [0], [];
      EmptyStory(gapLog, gapMeta, gates);
    }

    method ResetPipes()
      requires CleanBooks()
      modifies this`pipes, this`nextPipeId, this`dodged, this`broken, this`dropped, this`droppedGaps
      ensures Conserved() && Counted()
      ensures CleanPipes()
    {
      pipes, nextPipeId := [], 0;
      dodged, broken, dropped, droppedGaps := [], [], [], multiset{};
    }

    method ResetSchedule()
      requires Playable(cfg)
      modifies this`timeAlive, this`pipeT, this`specialT, this`introTimeOffset, this`orbT, this`draws, this`warnings,
               this`pendingPipe, this`pendingSpecial, this`intervals, this`pipePromises, this`pipeDeliveries,
               this`specialPromises, this`specialDeliveries, this`regularSpawns, this`specialSpawns
      ensures CleanSchedule() && Scheduled() && Steady()
    {
      hide Scheduled, NoSpawns, Steady;
      timeAlive, pipeT, specialT, introTimeOffset := 0.0, 0.0, 1.6, None;
      orbT := choices.orbWait(draws);
      draws := draws + 1;
      warnings, pendingPipe, pendingSpecial := [], None, None;
      ForgetSpawns();
      CleanIsScheduled();
    }

    ghost predicate NoSpawns()
      reads this`intervals, this`pipePromises, this`pipeDeliveries, this`specialPromises, this`specialDeliveries,
            this`regularSpawns, this`specialSpawns
    {
      && intervals == [] && regularSpawns == [] && specialSpawns == []
      && pipePromises == [] && pipeDeliveries == [] && specialPromises == [] && specialDeliveries == []
    }

    ghost method ForgetSpawns()
      modifies this`intervals, this`pipePromises, this`pipeDeliveries, this`specialPromises, this`specialDeliveries,
               this`regularSpawns, this`specialSpawns
      ensures NoSpawns()
    {
      intervals, regularSpawns, specialSpawns := [], [], [];
      pipePromises, pipeDeliveries := [], [];
      specialPromises, specialDeliveries := [], [];
    }

    lemma CleanIsScheduled()
      requires CleanSchedule()
      ensures Scheduled() && Steady()
    {
      NothingPromised(pipePromises, pipeDeliveries, timeAlive, pipeT);
      NothingPromised(specialPromises, specialDeliveries, timeAlive, specialT);
      NothingSpawned(intervals, cfg.spawnInterval.min, cfg.spawnInterval.max, timeAlive, pipeT);
      hide Outstanding, Within, Paced;
    }

    method ResetPlayer()
      modifies this`player, this`orbs, this`slowField, this`cds
      ensures Sporting() && CleanPlayer() && player.r == old(player).r
    {
      hide BounceCap, InWorld, WithinBounces;
      orbs, slowField, cds := [], None, PerSkill(0.0, 0.0, 0.0, 0.0);
      player := Player(W * 0.5, H * 0.5, player.r, 0.0, 0.0, 0, NoDash, false);
      CentreStays(player, BounceCap(cfg), W, H);
    }

    /** `_resetRun`. */
    method ResetRun(clearScore: bool)
      requires Playable(cfg)
      modifies this
      ensures Valid() <==> score == 0
      ensures score == (if clearScore then 0 else old(score)) && mode == old(mode)
      ensures CleanBooks() && CleanPipes() && CleanSchedule() && CleanPlayer() && player.r == old(player).r
    {
      hide Books, Scheduled, Sporting, Playable, ComboTimed, CleanBooks, CleanPipes, CleanSchedule, CleanPlayer;
      ResetAccounts(clearScore);
      ResetField();
    }

    method ResetAccounts(clearScore: bool)
      modifies this`score, this`stats, this`combo, this`comboTimer, this`perfectCombo, this`gates, this`gapMeta,
               this`nextGapId, this`orbStreaks, this`gapLog, this`pipes, this`nextPipeId, this`dodged, this`broken,
               this`dropped, this`droppedGaps
      ensures ComboTimed() && (Books() <==> score == 0)
      ensures score == if clearScore then 0 else old(score)
      ensures CleanBooks() && CleanPipes()
    {
      hide Ledger, Conserved, Told, Counted, ComboTimed, CleanBooks, CleanPipes;
      ResetBooks(clearScore);
      ResetPipes();
      MenuLedgerIff(this);
    }

    method ResetField()
      requires Playable(cfg)
      modifies this`timeAlive, this`pipeT, this`specialT, this`introTimeOffset, this`orbT, this`draws, this`warnings,
               this`pendingPipe, this`pendingSpecial, this`intervals, this`pipePromises, this`pipeDeliveries,
               this`specialPromises, this`specialDeliveries, this`regularSpawns, this`specialSpawns, this`player,
               this`orbs, this`slowField, this`cds
      ensures CleanSchedule() && Scheduled() && Steady() && Sporting() && CleanPlayer() && player.r == old(player).r
    {
      hide Scheduled, Steady, Sporting, Playable, CleanSchedule, CleanPlayer;
      ResetSchedule();
      ResetPlayer();
    }

    method StartRun()
      requires Playable(cfg)
      modifies this
      ensures Valid() && mode == Playing
      ensures score == 0 && CleanBooks() && CleanPipes() && CleanSchedule() && CleanPlayer()
    {
      hide Valid, CleanBooks, CleanPipes, CleanSchedule, CleanPlayer;
      mode := Playing;
      ResetRun(true);
    }

    /** Back to the menu: everything is cleared but the score, for which no bucket accounts unless it is 0. */
    method SetStateMenu()
      requires Playable(cfg)
      modifies this
      ensures mode == Menu && score == old(score) && CleanBooks() && CleanPipes() && CleanSchedule() && CleanPlayer()
      ensures (Ledger() <==> score == 0) && (Valid() <==> score == 0)
    {
      hide Valid, CleanBooks, CleanPipes, CleanSchedule, CleanPlayer;
      mode := Menu;
      ResetRun(false);
      MenuLedgerIff(this);
    }

    // -----------------------------------------------------------------
    // Scoring.
    // -----------------------------------------------------------------

    /** An orb is picked up: the combo grows and pays for its new length. */
    method PickOrb()
      requires Ledger()
      modifies this`score, this`stats, this`combo, this`comboTimer, this`orbStreaks
      ensures Ledger() && orbStreaks == Extended(old(orbStreaks))
      ensures combo == old(combo) + 1 && comboTimer == ComboWindow(combo)
      ensures score == old(score) + OrbPoints(cfg.scoring, combo)
      ensures stats == WithOrb(old(stats), combo, OrbPoints(cfg.scoring, combo))
    {
      BalancedOrb(cfg.scoring, score, stats, combo, perfectCombo, orbStreaks, StreaksOf(gapLog));
      assert orbStreaks != [];
      hide Balanced, OrbPoints, ComboWindow, StreaksOf, Extended;
      combo := combo + 1;
      stats := stats.(maxOrbCombo := Larger(stats.maxOrbCombo, combo));
      comboTimer := ComboWindow(combo);
      var pts := OrbPoints(cfg.scoring, combo);
      stats := stats.(orbsCollected := stats.orbsCollected + 1);
      stats := stats.(orbs := Plus(stats.orbs, pts));
      score := score + pts;
      orbStreaks := Extended(orbStreaks);
    }

    method BreakCombo()
      requires Ledger()
      modifies this`combo, this`comboTimer, this`orbStreaks
      ensures Ledger() && combo == 0 && comboTimer == 0.0
      ensures orbStreaks == old(orbStreaks) + [0]
    {
      hide Balanced, StreaksOf;
      BalancedBreak(cfg.scoring, score, stats, combo, perfectCombo, orbStreaks, StreaksOf(gapLog));
      combo, comboTimer := 0, 0.0;
      orbStreaks := orbStreaks + [0];
    }

    method RecordPipeScore()
      requires Ledger()
      modifies this`score, this`stats
      ensures Ledger()
      ensures score == old(score) + PipePoints(cfg.scoring)
      ensures stats == WithDodge(old(stats), PipePoints(cfg.scoring))
    {
      hide Balanced, PipePoints, StreaksOf;
      BalancedDodge(cfg.scoring, score, stats, combo, perfectCombo, orbStreaks, StreaksOf(gapLog));
      var pts := PipePoints(cfg.scoring);
      stats := stats.(pipesDodged := stats.pipesDodged + 1);
      stats := stats.(pipes := Plus(stats.pipes, pts));
      score := score + pts;
    }

    /** The scoring end of `resolveGapPerfect`: gate `i` is perfected and the streak pays for its new length. */
    method AwardPerfect(i: nat)
      requires i < |gates| && !gates[i].perfected
      requires Ledger() && Told()
      modifies this`score, this`stats, this`perfectCombo, this`gates, this`gapMeta, this`gapLog
      ensures Ledger() && Told()
      ensures gates == old(gates)[i := old(gates)[i].(perfected := true)]
      ensures gapLog == old(gapLog) + [Perfected(old(gates)[i].gapId)]
      ensures gapMeta == MarkPerfected(old(gapMeta), old(gates)[i].gapId)
      ensures perfectCombo == old(perfectCombo) + 1
      ensures score == old(score) + PerfectPoints(cfg.scoring, perfectCombo)
      ensures stats == WithPerfect(old(stats), perfectCombo, PerfectPoints(cfg.scoring, perfectCombo))
    {
      hide Balanced, Consistent, PerfectPoints, WellTold, Follows, Extended, StreaksOf;
      var gid := gates[i].gapId;
      BalancedPerfect(cfg.scoring, score, stats, combo, perfectCombo, orbStreaks, StreaksOf(gapLog));
      ConsistentPerfect(gapLog, gapMeta, nextGapId, gates, i);
      OneMoreEvent(gapLog, Perfected(gid));
      var streak := perfectCombo + 1;
      var pts := PerfectPoints(cfg.scoring, streak);
      gates := gates[i := gates[i].(perfected := true)];
      perfectCombo := streak;
      stats := stats.(maxPerfectCombo := Larger(stats.maxPerfectCombo, streak));
      stats := stats.(perfectsMade := stats.perfectsMade + 1);
      stats := stats.(perfects := Plus(stats.perfects, pts));
      score := score + pts;
      if gid in gapMeta {
        gapMeta := gapMeta[gid := gapMeta[gid].(perfected := true)];
      }
      gapLog := gapLog + [Perfected(gid)];
    }

    // -----------------------------------------------------------------
    // Gaps.
    // -----------------------------------------------------------------

    /** `_onGapPipeRemovedWithFlags`: the streak ends here only when the last pipe of an unbroken, missed gap goes. */
    method OnGapPipeRemoved(gid: nat, shattered: bool)
      requires Ledger() && Told() && gid < nextGapId
      modifies this`perfectCombo, this`gapMeta, this`gapLog
      ensures Ledger() && Told()
      ensures gapMeta == PipeGone(old(gapMeta), gid, shattered)
      ensures gapLog == old(gapLog) + PipeEvents(old(gapMeta), gid, shattered)
      ensures perfectCombo == if Resets(PipeEvents(old(gapMeta), gid, shattered)) then 0 else old(perfectCombo)
    {
      hide Balanced, Consistent, StreaksOf;
      ghost var events := PipeEvents(gapMeta, gid, shattered);
      ConsistentPipe(gapLog, gapMeta, nextGapId, gates, gid, shattered);
      StreaksAfter(gapLog, events);
      BalancedBreak(cfg.scoring, score, stats, combo, perfectCombo, orbStreaks, StreaksOf(gapLog));
      gapLog := gapLog + events;
      if gid != 0 && gid in gapMeta {
        var meta := gapMeta[gid];
        if shattered {
          meta := meta.(broken := true);
        }
        meta := meta.(pipesRemaining := if meta.pipesRemaining > 0 then meta.pipesRemaining - 1 else 0);
        if meta.broken || meta.pipesRemaining > 0 {
          gapMeta := gapMeta[gid := meta];
        } else {
          gapMeta := gapMeta - {gid};
          if !meta.perfected {
            perfectCombo := 0;
          }
        }
      }
    }

    method OnGapGateRemoved(gid: nat)
      requires Ledger() && Told()
      modifies this`perfectCombo, this`gapMeta, this`gapLog
      ensures Ledger() && Told()
      ensures gapMeta == old(gapMeta) - {gid}
      ensures gapLog == old(gapLog) + GateEvents(old(gapMeta), gid)
      ensures perfectCombo == if Resets(GateEvents(old(gapMeta), gid)) then 0 else old(perfectCombo)
    {
      hide Balanced, Consistent, StreaksOf;
      EntriesHere();
      ghost var events := GateEvents(gapMeta, gid);
      ConsistentGate(gapLog, gapMeta, nextGapId, gates, gid);
      StreaksAfter(gapLog, events);
      BalancedBreak(cfg.scoring, score, stats, combo, perfectCombo, orbStreaks, StreaksOf(gapLog));
      gapLog := gapLog + events;
      if gid != 0 && gid in gapMeta {
        var meta := gapMeta[gid];
        gapMeta := gapMeta - {gid};
        if !meta.perfected && !meta.broken {
          perfectCombo := 0;
        }
      } else {
        assert gapMeta - {gid} == gapMeta;
      }
    }

    // -----------------------------------------------------------------
    // Shattered pipes.
    // -----------------------------------------------------------------

    /** `this.pipes.indexOf(pipe)`; the list's length stands for -1. */
    method IndexOf(pipe: Pipe) returns (i: nat)
      ensures i <= |pipes| && pipe !in pipes[..i]
      ensures i < |pipes| ==> pipes[i] == pipe
    {
      i := 0;
      while i < |pipes| && pipes[i] != pipe
        invariant i <= |pipes| && pipe !in pipes[..i]
      {
        i := i + 1;
      }
    }

    /** `_recordBrokenPipe`. */
    method RecordBrokenPipe()
      requires Ledger()
      modifies this`stats
      ensures Ledger() && stats == WithBroken(old(stats))
    {
      hide Balanced, StreaksOf;
      BalancedAnyway(cfg.scoring, score, stats, combo, perfectCombo, orbStreaks, StreaksOf(gapLog),
                     stats.brokenPipes + 1, stats.maxBrokenPipesInExplosion, Dash);
      stats := stats.(brokenPipes := stats.brokenPipes + 1);
    }

    /** `_recordBrokenExplosion`. */
    method RecordBrokenExplosion(count: nat)
      requires Ledger() && Conserved() && count <= stats.brokenPipes
      modifies this`stats
      ensures Ledger() && Conserved() && stats == WithMost(old(stats), count)
    {
      hide Balanced, StreaksOf;
      if count > 0 {
        BalancedAnyway(cfg.scoring, score, stats, combo, perfectCombo, orbStreaks, StreaksOf(gapLog),
                       stats.brokenPipes, Larger(stats.maxBrokenPipesInExplosion, count), Dash);
        stats := stats.(maxBrokenPipesInExplosion := Larger(stats.maxBrokenPipesInExplosion, count));
      }
    }

    /** Pipe `i` goes and its gap counts as broken, which never ends the perfect streak. */
    method BreakPipe(i: nat)
      requires Books() && i < |pipes|
      modifies this`pipes, this`stats, this`perfectCombo, this`gapMeta, this`gapLog, this`broken
      ensures Books() && perfectCombo == old(perfectCombo) && pipes == RemoveAt(old(pipes), i)
      ensures broken == old(broken) + [old(pipes)[i].id] && stats == WithBroken(old(stats))
      ensures gapMeta == PipeGone(old(gapMeta), old(pipes)[i].gapId, true)
    {
      hide Ledger, Told, Censused, GapsCounted, PipeGone, RemoveAt;
      var pipe := pipes[i];
      PipeOut(i, true);
      pipes := RemoveAt(pipes, i);
      OnGapPipeRemoved(pipe.gapId, true);
      RecordBrokenPipe();
      broken := broken + [pipe.id];
    }

    /** `_shatterPipe`. */
    method ShatterPipe(pipe: Pipe) returns (done: bool, ghost at: nat)
      requires Books()
      modifies this`pipes, this`stats, this`perfectCombo, this`gapMeta, this`gapLog, this`broken
      ensures Books() && perfectCombo == old(perfectCombo)
      ensures done <==> pipe in old(pipes)
      ensures done ==> at < |old(pipes)| && old(pipes)[at] == pipe && pipes == RemoveAt(old(pipes), at)
      ensures done ==> broken == old(broken) + [pipe.id] && stats == WithBroken(old(stats))
      ensures !done ==> unchanged(this)
    {
      hide Books, PipeGone, WithBroken, RemoveAt;
      var i := IndexOf(pipe);
      at, done := i, i < |pipes|;
      if done {
        BreakPipe(i);
      }
    }

    /** What taking pipe `i` off the list does to the counts. */
    lemma PipeOut(i: nat, shattered: bool)
      requires Conserved() && Counted() && Told() && i < |pipes|
      ensures var rest := RemoveAt(pipes, i);
              && Censused(rest, WithDodge(stats, PipePoints(cfg.scoring)), dodged + [pipes[i].id], broken, dropped,
                          nextPipeId)
              && Censused(rest, WithBroken(stats), dodged, broken + [pipes[i].id], dropped, nextPipeId)
              && GapsCounted(rest, PipeGone(gapMeta, pipes[i].gapId, shattered), droppedGaps, nextGapId)
      ensures pipes[i].gapId < nextGapId && !pipes[i].scored
    {
      EntriesInRange(gapLog, gapMeta, nextGapId, gates);
      CensusRemoved(pipes, i, stats, PipePoints(cfg.scoring), dodged, broken, dropped, nextPipeId);
      GapsRemoved(pipes, i, gapMeta, droppedGaps, nextGapId, shattered);
      assert !pipes[i].scored;
      hide Censused, Tallied, PipeGone, Consistent;
    }

    lemma OnePlace(i: nat)
      requires Conserved() && i < |pipes|
      ensures forall j :: 0 <= j < |pipes| && pipes[j] == pipes[i] ==> j == i
    {
      forall j | 0 <= j < |pipes| && pipes[j] == pipes[i]
        ensures j == i
      {
        SamePlace(pipes, stats, dodged, broken, dropped, nextPipeId, i, j);
      }
    }

    /** `_destroyPipesInRadius`: exactly the pipes that touch the circle go, the others stay in order. */
    method DestroyPipesInRadius(x: real, y: real, r: real) returns (count: nat)
      requires Books()
      modifies this`pipes, this`stats, this`perfectCombo, this`gapMeta, this`gapLog, this`broken
      ensures Books() && perfectCombo == old(perfectCombo)
      ensures pipes == Kept(old(pipes), Spared(x, y, r))
      ensures |pipes| + count == |old(pipes)| && |broken| == |old(broken)| + count
      ensures stats == WithBlast(old(stats), count)
    {
      hide Ledger, Conserved, Told, Counted, Kept, Overlaps;
      count := 0;
      var i := |pipes|;
      ghost var was, keep := pipes, Spared(x, y, r);
      assert was[i..] == [];
      KeptNone(was[i..], keep);
      while i > 0
        invariant i <= |was| && pipes == was[..i] + Kept(was[i..], keep)
        invariant Books() && perfectCombo == old(perfectCombo)
        invariant |broken| == |old(broken)| + count && |pipes| + count == |was|
        invariant stats == old(stats).(brokenPipes := old(stats).brokenPipes + count)
      {
        i := i - 1;
        var pipe := pipes[i];
        KeptBackwards(was, i, keep);
        assert pipe == was[i];
        if Overlaps(pipe, x, y, r) {
          OnePlace(i);
          var done, at := ShatterPipe(pipe);
          if done {
            count := count + 1;
          }
        }
      }
      RecordBrokenExplosion(count);
    }

    // -----------------------------------------------------------------
    // Spawning.
    // -----------------------------------------------------------------

    method PushPipe(spec: PipeSpec, gapId: nat)
      modifies this`pipes, this`nextPipeId
      ensures pipes == old(pipes) + [NewPipe(spec, old(nextPipeId), gapId)] && nextPipeId == old(nextPipeId) + 1
    {
      pipes := pipes + [NewPipe(spec, nextPipeId, gapId)];
      nextPipeId := nextPipeId + 1;
    }

    /** Pipes that belong to no gap: single pipes, bursts, crossfires and markers. */
    method PushLoosePipes(specs: seq<PipeSpec>)
      requires Books()
      modifies this`pipes, this`nextPipeId
      ensures Books()
      ensures pipes == old(pipes) + NewPipes(specs, old(nextPipeId), 0) && nextPipeId == old(nextPipeId) + |specs|
    {
      hide Ledger, Told, Censused, GapsCounted, NewPipes;
      EntriesHere();
      CensusNew(pipes, specs, 0, stats, dodged, broken, dropped, nextPipeId);
      GapsLoose(pipes, specs, nextPipeId, gapMeta, droppedGaps, nextGapId);
      PushAll(specs, 0);
    }

    lemma EntriesHere()
      requires Told()
      ensures nextGapId > 0 && 0 !in gapMeta && forall g :: g in gapMeta ==> g < nextGapId
    {
      EntriesInRange(gapLog, gapMeta, nextGapId, gates);
    }

    method PushAll(specs: seq<PipeSpec>, gapId: nat)
      modifies this`pipes, this`nextPipeId
      ensures pipes == old(pipes) + NewPipes(specs, old(nextPipeId), gapId) && nextPipeId == old(nextPipeId) + |specs|
    {
      hide NewPipe;
      var k := 0;
      while k < |specs|
        invariant k <= |specs| && nextPipeId == old(nextPipeId) + k
        invariant pipes == old(pipes) + NewPipes(specs[..k], old(nextPipeId), gapId)
      {
        PushPipe(specs[k], gapId);
        assert specs[..k + 1][..k] == specs[..k];
        k := k + 1;
      }
      assert specs[..k] == specs;
    }

    lemma NewWall(specs: seq<PipeSpec>, g: Gate, events: seq<GapEvent>)
      requires Books() && g.gapId == nextGapId && !g.perfected
      requires events == if |specs| > 0 then [Opened(nextGapId)] else []
      ensures var young, meta := NewPipes(specs, nextPipeId, nextGapId), WithEntry(gapMeta, nextGapId, |specs|);
              && Censused(pipes + young, stats, dodged, broken, dropped, nextPipeId + |specs|)
              && GapsCounted(pipes + young, meta, droppedGaps, nextGapId + 1)
              && Consistent(gapLog + events, meta, nextGapId + 1, gates + [g])
      ensures StreaksOf(gapLog + events) == StreaksOf(gapLog)
    {
      hide Balanced, Censused, Consistent, GapsCounted, StreaksOf, NewPipes;
      EntriesHere();
      CensusNew(pipes, specs, nextGapId, stats, dodged, broken, dropped, nextPipeId);
      GapsNewWall(pipes, specs, nextPipeId, gapMeta, droppedGaps, nextGapId);
      ConsistentOpen(gapLog, gapMeta, nextGapId, gates, g, |specs|);
      StreaksAfter(gapLog, events);
      assert specs == [] ==> gapLog + events == gapLog;
    }

    /** `spawnWallFromPlan`: a new gap with its pipes, its gate and - if any pipe was needed - its entry. */
    method SpawnWall(specs: seq<PipeSpec>, gate: GateSpec)
      requires Books()
      modifies this`pipes, this`nextPipeId, this`nextGapId, this`gates, this`gapMeta, this`gapLog
      ensures Books()
      ensures pipes == old(pipes) + NewPipes(specs, old(nextPipeId), old(nextGapId))
      ensures nextPipeId == old(nextPipeId) + |specs| && nextGapId == old(nextGapId) + 1
      ensures gates == old(gates) + [NewGate(gate, old(nextGapId))]
      ensures gapMeta == WithEntry(old(gapMeta), old(nextGapId), |specs|)
      ensures gapLog == old(gapLog) + (if |specs| > 0 then [Opened(old(nextGapId))] else [])
    {
      var gapId := nextGapId;
      hide Balanced, Censused, Consistent, GapsCounted, StreaksOf, NewPipes, RemoveAt;
      NewWall(specs, NewGate(gate, gapId), if |specs| > 0 then [Opened(gapId)] else []);
      nextGapId := nextGapId + 1;
      PushAll(specs, gapId);
      gates := gates + [NewGate(gate, gapId)];
      if |specs| > 0 {
        gapMeta := gapMeta[gapId := GapMeta(false, false, |specs|)];
        gapLog := gapLog + [Opened(gapId)];
      } else {
        assert gapLog == gapLog + [];
      }
    }

    /** A splice from the front: the oldest pipes make way. */
    method TrimPipes(limit: nat)
      requires Conserved() && Counted()
      modifies this`pipes, this`dropped, this`droppedGaps
      ensures Conserved() && Counted()
      ensures pipes == Newest(old(pipes), limit)
      ensures |dropped| == |old(dropped)| + |old(pipes)| - |pipes|
    {
      hide Censused, GapsCounted;
      if |pipes| > limit {
        var n := |pipes| - limit;
        CensusTrimmed(pipes, n, stats, dodged, broken, dropped, nextPipeId);
        GapsTrimmed(pipes, n, gapMeta, droppedGaps, nextGapId);
        dropped, droppedGaps := dropped + Ids(pipes[..n]), droppedGaps + Bag(pipes[..n], GapOf());
        pipes := pipes[n..];
      }
    }

    method PlacePlan(plan: Plan)
      requires Books()
      modifies this`pipes, this`nextPipeId, this`nextGapId, this`gates, this`gapMeta, this`gapLog
      ensures Books()
      ensures Stocked() == Placed(RoomHere(), old(Stocked()), plan)
    {
      hide Books, NewPipes, NewGate, MarkerSize, SpawnBudget, WithEntry;
      match plan {
        case Group(parts) =>
          PushLoosePipes(SpecsOf(parts));
        case Wall(special, specs, gate, _) =>
          if special {
            ghost var was, first := pipes, NewPipes([MarkerSpec(MarkerSize(cfg, W, H))], nextPipeId, 0);
            PushLoosePipes([MarkerSpec(MarkerSize(cfg, W, H))]);
            Associates(was, first, NewPipes(specs, nextPipeId, nextGapId));
          }
          SpawnWall(specs, gate);
      }
    }

    /**
     `_executePlannedSpawn`, within the spawn budget: nothing without room, and the oldest pipes make way for the
     new.
     */
    method ExecutePlan(plan: Plan, ghost regular: bool)
      requires Books()
      modifies this`pipes, this`nextPipeId, this`nextGapId, this`gates, this`gapMeta, this`gapLog, this`dropped,
               this`droppedGaps, this`regularSpawns, this`specialSpawns
      ensures Books()
      ensures regularSpawns == old(regularSpawns) + (if regular then [plan] else [])
      ensures specialSpawns == old(specialSpawns) + (if regular then [] else [plan])
      ensures Stocked() == WithPlan(RoomHere(), old(Stocked()), plan)
      ensures Brought(old(Stocked()), old(regularSpawns), old(specialSpawns))
      ensures !HasRoom(SpawnBudget(W, H), |old(pipes)|) ==>
                pipes == old(pipes) && gates == old(gates) && gapMeta == old(gapMeta) && nextGapId == old(nextGapId)
      ensures HasRoom(SpawnBudget(W, H), |old(pipes)|) ==>
        && pipes ==
          Fitted(SpawnBudget(W, H),
                 old(pipes) + PlanPipes(plan, MarkerSize(cfg, W, H), old(nextPipeId), old(nextGapId)))
        && gates == old(gates) + (if plan.Wall? then [NewGate(plan.gate, old(nextGapId))] else [])
    {
      hide Books, Conserved, Counted, NewGate, MarkerSize, SpawnBudget, PlanPipes, Newest, WithEntry, Brought;
      ghost var stock, regular0, special0 := Stocked(), regularSpawns, specialSpawns;
      regularSpawns := regularSpawns + (if regular then [plan] else []);
      specialSpawns := specialSpawns + (if regular then [] else [plan]);
      var cap := SpawnBudget(W, H);
      if HasRoom(cap, |pipes|) {
        PlacePlan(plan);
        if cap.Some? {
          Retrim(cap.value);
        }
      }
      OneBrought(stock, regular0, special0, plan);
    }

    method Retrim(limit: nat)
      requires Books()
      modifies this`pipes, this`dropped, this`droppedGaps
      ensures Books()
      ensures pipes == Newest(old(pipes), limit)
    {
      hide Ledger, Conserved, Told, Counted, Newest;
      TrimPipes(limit);
    }

    // What plans have brought.

    ghost function Stocked(): Stock
      reads this`pipes, this`nextPipeId, this`gates, this`gapMeta, this`nextGapId
    {
      Stock(pipes, nextPipeId, gates, gapMeta, nextGapId)
    }

    ghost function RoomHere(): Room {
      Room(SpawnBudget(W, H), MarkerSize(cfg, W, H))
    }

    /** The plans carried out since so many of each kind had been: the regular ones and then the special ones. */
    ghost function PlansSince(regular: seq<Plan>, special: seq<Plan>): seq<Plan>
      requires regular <= regularSpawns && special <= specialSpawns
      reads this`regularSpawns, this`specialSpawns
    {
      regularSpawns[|regular|..] + specialSpawns[|special|..]
    }

    /** What is on the field is what the plans carried out since then make of what was there. */
    ghost predicate Brought(before: Stock, regular: seq<Plan>, special: seq<Plan>)
      reads this`pipes, this`nextPipeId, this`gates, this`gapMeta, this`nextGapId, this`regularSpawns,
            this`specialSpawns
    {
      && regular <= regularSpawns && special <= specialSpawns
      && Stocked() == WithPlans(RoomHere(), before, PlansSince(regular, special))
    }

    lemma NothingBrought(before: Stock, regular: seq<Plan>, special: seq<Plan>)
      requires before == Stocked() && regular == regularSpawns && special == specialSpawns
      ensures Brought(before, regular, special)
    {
      assert PlansSince(regular, special) == [];
    }

    lemma OneBrought(before: Stock, regular: seq<Plan>, special: seq<Plan>, plan: Plan)
      requires Stocked() == WithPlan(RoomHere(), before, plan)
      requires (regularSpawns == regular + [plan] && specialSpawns == special)
            || (regularSpawns == regular && specialSpawns == special + [plan])
      ensures Brought(before, regular, special)
    {
      assert PlansSince(regular, special) == [plan];
      WithOnePlan(RoomHere(), before, plan);
      hide WithPlan, WithPlans;
    }

    lemma BroughtIs(before: Stock, regular: seq<Plan>, special: seq<Plan>)
      requires Brought(before, regular, special)
      ensures regular <= regularSpawns && special <= specialSpawns
      ensures Stocked() == WithPlans(RoomHere(), before, regularSpawns[|regular|..] + specialSpawns[|special|..])
    {
    }

    /** In two stretches, the first of them without special plans or the second without regular ones. */
    lemma BroughtTwice(before: Stock, regular: seq<Plan>, special: seq<Plan>,
                       middle: Stock, regular': seq<Plan>, special': seq<Plan>)
      requires regular <= regular' && special <= special'
      requires middle == WithPlans(RoomHere(), before, regular'[|regular|..] + special'[|special|..])
      requires Brought(middle, regular', special') && (special' == special || regular' == regularSpawns)
      ensures Brought(before, regular, special)
    {
      var first, second := regular'[|regular|..] + special'[|special|..], PlansSince(regular', special');
      assert PlansSince(regular, special) == first + second;
      WithMorePlans(RoomHere(), before, first, second);
      hide WithPlans;
    }

    // -----------------------------------------------------------------
    // Plans, warnings and spawns.
    // -----------------------------------------------------------------

    /** The difficulty has been evaluated some number of times, perhaps none, since the offset was `before`. */
    predicate Evaluated(before: Option<real>)
      reads this`introTimeOffset, this`score, this`timeAlive
    {
      introTimeOffset == before || introTimeOffset == Noted(cfg, score, timeAlive, before)
    }

    /** The difficulty as it stands. */
    function CurrentDifficulty(): real
      reads this`introTimeOffset, this`score, this`timeAlive
    {
      Difficulty(cfg, choices.curve, score, timeAlive, introTimeOffset)
    }

    /** `_difficulty01`: the first evaluation at which the score has reached `introScore` notes the time. */
    method Difficulty01() returns (d: real)
      modifies this`introTimeOffset
      ensures introTimeOffset == Noted(cfg, score, timeAlive, old(introTimeOffset)) && d == CurrentDifficulty()
    {
      var introScore := Max(0.0, cfg.introScore);
      if introScore > 0.0 && introTimeOffset.None? && score as real >= introScore {
        introTimeOffset := Some(timeAlive);
      }
      if introScore > 0.0 && introTimeOffset.None? && score as real < introScore {
        return 0.0;
      }
      var scoreOffset := if introScore > 0.0 && introTimeOffset.Some? then introScore else 0.0;
      var timeOffset := if introTimeOffset.Some? then introTimeOffset.value else 0.0;
      d := Clamp(choices.curve(Max(0.0, timeAlive - timeOffset), Max(0.0, score as real - scoreOffset)), 0.0, 1.0);
    }

    method ChoosePipePlan() returns (plan: Plan)
      modifies this`introTimeOffset, this`draws
      ensures introTimeOffset == Noted(cfg, score, timeAlive, old(introTimeOffset)) && draws == old(draws) + 1
      ensures plan == choices.regular(old(draws), CurrentDifficulty())
    {
      var d := Difficulty01();
      plan := choices.regular(draws, d);
      draws := draws + 1;
    }

    method ChooseSpecialPlan() returns (plan: Plan)
      modifies this`introTimeOffset, this`draws
      ensures introTimeOffset == Noted(cfg, score, timeAlive, old(introTimeOffset)) && draws == old(draws) + 1
      ensures plan == choices.special(old(draws), CurrentDifficulty())
    {
      var d := Difficulty01();
      plan := choices.special(draws, d);
      draws := draws + 1;
    }

    /**
     `render`: drawing the pipes takes their colour from the difficulty. So a picture changes nothing but the
     offset of the intro, and that exactly when the score has reached `introScore` and no offset is noted yet.
     */
    method Render()
      requires Sound()
      modifies this`introTimeOffset
      ensures Sound() && introTimeOffset == Noted(cfg, score, timeAlive, old(introTimeOffset))
      ensures introTimeOffset == old(introTimeOffset) <==>
        !IntroDue(cfg.introScore, score as real, old(introTimeOffset))
    {
      hide Books, ComboTimed, Sporting, Scheduled, Playable, SteadyFor;
      ghost var offset := introTimeOffset;
      var _ := Difficulty01();
      if mode != Menu {
        SteadyLater(offset);
      }
    }

    method RegisterWarning(sign: Option<Sign>, spawnAt: real)
      modifies this`warnings
      ensures warnings == old(warnings) + Stamp(SignOf(sign), spawnAt)
    {
      if sign.Some? {
        warnings := warnings + [Warning(sign.value, spawnAt)];
        assert Stamp([sign.value], spawnAt) == [Warning(sign.value, spawnAt)];
      }
    }

    /** `_registerPlanWarnings`. */
    method RegisterPlanWarnings(plan: Plan, spawnAt: real)
      modifies this`warnings
      ensures warnings == old(warnings) + Announced(plan, spawnAt)
    {
      hide Stamp, SignsOf, SignOf;
      match plan {
        case Group(parts) =>
          RegisterGroupWarnings(parts, spawnAt);
        case Wall(_, _, _, sign) =>
          RegisterWarning(sign, spawnAt);
      }
    }

    method RegisterGroupWarnings(parts: seq<Part>, spawnAt: real)
      modifies this`warnings
      ensures warnings == old(warnings) + Stamp(SignsOf(parts), spawnAt)
    {
      hide Stamp, SignsOf, SignOf;
      NoSigns(parts[..0], spawnAt);
      var k := 0;
      while k < |parts|
        invariant k <= |parts|
        invariant warnings == old(warnings) + Stamp(SignsOf(parts[..k]), spawnAt)
      {
        RegisterWarning(parts[k].sign, spawnAt);
        StampNext(parts, k, spawnAt);
        k := k + 1;
      }
      assert parts[..k] == parts;
    }

    /** `_maybeSchedulePipeWarning`: a plan is drawn, and announced, once its spawn is near enough. */
    method MaybeSchedulePipeWarning(ghost before: real)
      requires PipePromised(before) && Warned() && before < timeAlive
      modifies this`pendingPipe, this`warnings, this`draws, this`pipePromises, this`introTimeOffset
      ensures PipePromised(before) && Warned() && Evaluated(old(introTimeOffset))
      ensures pendingPipe.Some? <==> old(pendingPipe).Some? || (cfg.leadSeconds > 0.0 && pipeT <= cfg.leadSeconds)
      ensures old(pendingPipe).Some? ==> pendingPipe == old(pendingPipe)
      ensures pendingPipe.Some? && old(pendingPipe).None? ==>
        && pendingPipe.value == choices.regular(old(draws), CurrentDifficulty())
        && pipePromises == old(pipePromises) + [Promise(pendingPipe.value, timeAlive + Max(0.0, pipeT))]
    {
      hide Shown, Outstanding, Announced, Forthcoming, Noted, Difficulty;
      var lead := cfg.leadSeconds;
      if lead <= 0.0 || pendingPipe.Some? || pipeT > lead {
        return;
      }
      var spawnAt := timeAlive + Max(0.0, pipeT);
      var plan := ChoosePipePlan();
      PromiseMade(pipePromises, pipeDeliveries, plan, timeAlive, pipeT, before);
      ShownPromised(warnings, timeAlive, pipePromises, plan, spawnAt,
                    Forthcoming(specialPromises, pendingSpecial, timeAlive));
      pendingPipe := Some(plan);
      RegisterPlanWarnings(plan, spawnAt);
      pipePromises := pipePromises + [Promise(plan, spawnAt)];
    }

    method MaybeScheduleSpecialWarning(ghost before: real)
      requires SpecialPromised(before) && Warned() && before < timeAlive
      modifies this`pendingSpecial, this`warnings, this`draws, this`specialPromises, this`introTimeOffset
      ensures SpecialPromised(before) && Warned() && Evaluated(old(introTimeOffset))
      ensures pendingSpecial.Some? <==>
        old(pendingSpecial).Some? || (cfg.leadSeconds > 0.0 && specialT <= cfg.leadSeconds)
      ensures old(pendingSpecial).Some? ==> pendingSpecial == old(pendingSpecial)
      ensures pendingSpecial.Some? && old(pendingSpecial).None? ==>
        && pendingSpecial.value == choices.special(old(draws), CurrentDifficulty())
        && specialPromises == old(specialPromises) + [Promise(pendingSpecial.value, timeAlive + Max(0.0, specialT))]
    {
      hide Shown, Outstanding, Announced, Forthcoming, Noted, Difficulty;
      var lead := cfg.leadSeconds;
      if lead <= 0.0 || pendingSpecial.Some? || specialT > lead {
        return;
      }
      var spawnAt := timeAlive + Max(0.0, specialT);
      var plan := ChooseSpecialPlan();
      ShownSwapped(warnings, timeAlive, pipePromises, pendingPipe, specialPromises, pendingSpecial);
      PromiseMade(specialPromises, specialDeliveries, plan, timeAlive, specialT, before);
      ShownPromised(warnings, timeAlive, specialPromises, plan, spawnAt,
                    Forthcoming(pipePromises, pendingPipe, timeAlive));
      pendingSpecial := Some(plan);
      RegisterPlanWarnings(plan, spawnAt);
      specialPromises := specialPromises + [Promise(plan, spawnAt)];
      ShownSwapped(warnings, timeAlive, specialPromises, pendingSpecial, pipePromises, pendingPipe);
    }

    method NextInterval()
      requires Playable(cfg) && Pace() && Steady() && pipeT <= 0.0
      modifies this`pipeT, this`intervals, this`introTimeOffset
      ensures Pace() && Steady() && pipeT == old(pipeT) + SpawnInterval(cfg, CurrentDifficulty())
      ensures introTimeOffset == Noted(cfg, score, timeAlive, old(introTimeOffset))
      ensures intervals == old(intervals) + [pipeT - old(pipeT)]
    {
      hide Within, Paced, SpawnInterval, WithinRamp;
      IntervalByDifficulty(cfg, 0.0, 0.0);
      var d := Difficulty01();
      var interval := SpawnInterval(cfg, d);
      PaceKept(intervals, cfg.spawnInterval.min, cfg.spawnInterval.max, timeAlive, pipeT, interval);
      intervals := intervals + [interval];
      pipeT := pipeT + interval;
    }

    /** The plan for a spawn that is due: the pending one, as promised, or one made up on the spot. */
    method TakePipePlan(ghost before: real, ghost timer: real) returns (plan: Plan)
      requires Outstanding(pipePromises, pipeDeliveries, pendingPipe, timeAlive, timer, before) && timer <= 0.0
        && Warned()
      requires NoSurprise(cfg.leadSeconds, pipeDeliveries, regularSpawns)
        && (cfg.leadSeconds > 0.0 ==> pendingPipe.Some?)
      modifies this`pendingPipe, this`draws, this`pipeDeliveries, this`introTimeOffset
      ensures PipePromised(before) && Warned() && pendingPipe == None && Evaluated(old(introTimeOffset))
      ensures old(pendingPipe).Some? ==>
                plan == old(pendingPipe).value
                  && pipeDeliveries == old(pipeDeliveries) + [Delivery(plan, before, timeAlive)]
      ensures old(pendingPipe).None? ==>
                plan == choices.regular(old(draws), CurrentDifficulty()) && pipeDeliveries == old(pipeDeliveries)
      ensures NoSurprise(cfg.leadSeconds, pipeDeliveries, regularSpawns + [plan])
    {
      hide Shown, Outstanding, Forthcoming, NoSurprise, Noted, Difficulty;
      if pendingPipe.Some? {
        plan := pendingPipe.value;
      } else {
        plan := ChoosePipePlan();
      }
      PromiseHonoured(pipePromises, pipeDeliveries, pendingPipe, plan, timeAlive, timer, pipeT, before);
      NoSurpriseNext(cfg.leadSeconds, pipeDeliveries, regularSpawns, pendingPipe, plan, before, timeAlive);
      ShownDelivered(warnings, timeAlive, pipePromises, pipeDeliveries, pendingPipe, timer, before,
                     Forthcoming(specialPromises, pendingSpecial, timeAlive));
      if pendingPipe.Some? {
        pipeDeliveries := pipeDeliveries + [Delivery(plan, before, timeAlive)];
      }
      pendingPipe := None;
    }

    lemma SteadyLater(before: Option<real>)
      requires SteadyFor(before) && Evaluated(before)
      ensures Steady()
    {
    }

    /** A spawn that is due has been announced, if spawns are announced at all. */
    predicate Announcing()
      reads this`pendingPipe, this`pipeT
    {
      cfg.leadSeconds > 0.0 && pipeT <= cfg.leadSeconds ==> pendingPipe.Some?
    }

    /** One round of the spawn loop. */
    method SpawnPipe(ghost before: real)
      requires Playable(cfg) && Books() && PipePromised(before) && Warned() && Pace() && PipesForetold() && Announcing()
      requires Steady() && pipeT <= 0.0 && before < timeAlive
      modifies this`pipeT, this`pendingPipe, this`draws, this`intervals, this`warnings, this`pipePromises,
               this`pipeDeliveries, this`pipes, this`nextPipeId, this`nextGapId, this`gates, this`gapMeta,
               this`gapLog, this`dropped, this`droppedGaps, this`regularSpawns, this`specialSpawns,
               this`introTimeOffset
      ensures Books() && PipePromised(before) && Warned() && Pace() && PipesForetold() && Announcing() && Steady()
      ensures pipeT >= old(pipeT) + cfg.spawnInterval.min
      ensures intervals == old(intervals) + [pipeT - old(pipeT)] && specialSpawns == old(specialSpawns)
      ensures Evaluated(old(introTimeOffset))
      ensures Brought(old(Stocked()), old(regularSpawns), old(specialSpawns))
    {
      hide Books, Warned, Outstanding, Pace, NoSurprise, IntroDue, Difficulty, Brought, SteadyFor;
      ghost var timer := pipeT;
      NextInterval();
      ghost var offset := introTimeOffset;
      CarryOutPipePlan(before, timer);
      MaybeSchedulePipeWarning(before);
      SteadyLater(offset);
    }

    method CarryOutPipePlan(ghost before: real, ghost timer: real)
      requires Books() && Outstanding(pipePromises, pipeDeliveries, pendingPipe, timeAlive, timer, before)
        && timer <= 0.0
      requires Warned() && (cfg.leadSeconds > 0.0 ==> pendingPipe.Some?)
      requires NoSurprise(cfg.leadSeconds, pipeDeliveries, regularSpawns)
      modifies this`pendingPipe, this`draws, this`pipeDeliveries, this`introTimeOffset, this`pipes, this`nextPipeId,
               this`nextGapId, this`gates, this`gapMeta, this`gapLog, this`dropped, this`droppedGaps,
               this`regularSpawns, this`specialSpawns
      ensures Books() && PipePromised(before) && Warned() && pendingPipe == None && Evaluated(old(introTimeOffset))
      ensures NoSurprise(cfg.leadSeconds, pipeDeliveries, regularSpawns)
      ensures |regularSpawns| == |old(regularSpawns)| + 1 && specialSpawns == old(specialSpawns)
      ensures Brought(old(Stocked()), old(regularSpawns), old(specialSpawns))
    {
      hide Books, Warned, PipePromised, Outstanding, Brought, WithPlan, HasRoom, PlanPipes, Fitted, NoSurprise,
        IntroDue, Difficulty;
      var plan := TakePipePlan(before, timer);
      ExecutePlan(plan, true);
    }

    /** `this.pipeT -= dt`, and the announcement that may follow. */
    method RunDownPipeTimer(dt: real, ghost before: real)
      requires dt > 0.0 && timeAlive == before + dt && Warned()
      requires Outstanding(pipePromises, pipeDeliveries, pendingPipe, before, pipeT, before)
        && (pendingPipe.Some? ==> pipeT > 0.0)
      requires Within(intervals, cfg.spawnInterval.min, cfg.spawnInterval.max) && Paced(intervals, before, pipeT)
      modifies this`pipeT, this`pendingPipe, this`draws, this`warnings, this`pipePromises, this`introTimeOffset
      ensures Evaluated(old(introTimeOffset))
      ensures Warned() && Pace() && PipePromised(before) && Announcing() && pipeT == old(pipeT) - dt
    {
      hide Warned, Outstanding, Within, Paced;
      PromiseWaits(pipePromises, pipeDeliveries, pendingPipe, before, pipeT, dt);
      PaceLater(intervals, before, pipeT, dt);
      pipeT := pipeT - dt;
      MaybeSchedulePipeWarning(before);
    }

    /** Regular spawns of one tick; every round adds at least the shortest interval, so the loop ends. */
    method SpawnPipes(dt: real, ghost before: real)
      requires Playable(cfg) && Books() && PipesForetold() && dt > 0.0 && before >= 0.0 && timeAlive == before + dt
        && Warned()
      requires Outstanding(pipePromises, pipeDeliveries, pendingPipe, before, pipeT, before)
        && (pendingPipe.Some? ==> pipeT > 0.0)
      requires Within(intervals, cfg.spawnInterval.min, cfg.spawnInterval.max) && Paced(intervals, before, pipeT)
      requires Steady()
      modifies this`pipeT, this`pendingPipe, this`draws, this`intervals, this`warnings, this`pipePromises,
               this`pipeDeliveries, this`pipes, this`nextPipeId, this`nextGapId, this`gates, this`gapMeta,
               this`gapLog, this`dropped, this`droppedGaps, this`regularSpawns, this`specialSpawns,
               this`introTimeOffset
      ensures Books() && Warned() && Pace() && PipePromised(timeAlive) && PipesForetold() && Steady()
        && specialSpawns == old(specialSpawns)
      ensures pipeT > 0.0 && intervals != [] && old(intervals) <= intervals && Evaluated(old(introTimeOffset))
      ensures Brought(old(Stocked()), old(regularSpawns), old(specialSpawns))
    {
      hide Books, Warned, Pace, PipePromised, PipesForetold, Outstanding, Within, Paced, Times, Brought, SteadyFor;
      ghost var stock, regular0, special0 := Stocked(), regularSpawns, specialSpawns;
      NothingBrought(stock, regular0, special0);
      ghost var offset := introTimeOffset;
      RunDownPipeTimer(dt, before);
      SteadyLater(offset);
      ghost var fuel := EnoughSteps(-pipeT, cfg.spawnInterval.min);
      while pipeT <= 0.0
        invariant Books() && PipePromised(before) && Warned() && Pace() && PipesForetold() && Announcing()
        invariant specialSpawns == old(specialSpawns) && old(intervals) <= intervals && Evaluated(old(introTimeOffset))
        invariant Times(fuel, cfg.spawnInterval.min) > -pipeT
        invariant Brought(stock, regular0, special0) && Steady()
        decreases fuel
      {
        OneStepLess(fuel, cfg.spawnInterval.min);
        ghost var middle, regular, special := Stocked(), regularSpawns, specialSpawns;
        BroughtIs(stock, regular0, special0);
        SpawnPipe(before);
        BroughtTwice(stock, regular0, special0, middle, regular, special);
        fuel := fuel - 1;
      }
      AllSpawned(before);
    }

    lemma AllSpawned(before: real)
      requires PipePromised(before) && Pace() && timeAlive > 0.0 && pipeT > 0.0
      ensures PipePromised(timeAlive) && intervals != []
    {
      SpawnedByNow(intervals, timeAlive, pipeT);
      ForthcomingPending(pipePromises, pipeDeliveries, pendingPipe, timeAlive, pipeT, before);
    }

    method RunDownSpecialTimer(dt: real, ghost before: real)
      requires dt > 0.0 && timeAlive == before + dt && Warned()
      requires Outstanding(specialPromises, specialDeliveries, pendingSpecial, before, specialT, before)
      requires pendingSpecial.Some? ==> specialT > 0.0
      modifies this`specialT, this`pendingSpecial, this`draws, this`warnings, this`specialPromises, this`introTimeOffset
      ensures Warned() && SpecialPromised(before) && specialT == old(specialT) - dt && Evaluated(old(introTimeOffset))
      ensures cfg.leadSeconds > 0.0 && specialT <= cfg.leadSeconds ==> pendingSpecial.Some?
    {
      hide Warned, Outstanding;
      PromiseWaits(specialPromises, specialDeliveries, pendingSpecial, before, specialT, dt);
      specialT := specialT - dt;
      MaybeScheduleSpecialWarning(before);
    }

    method TakeSpecialPlan(ghost before: real) returns (plan: Plan)
      requires SpecialPromised(before) && specialT <= 0.0 && Warned()
      requires NoSurprise(cfg.leadSeconds, specialDeliveries, specialSpawns)
        && (cfg.leadSeconds > 0.0 ==> pendingSpecial.Some?)
      modifies this`pendingSpecial, this`draws, this`specialDeliveries, this`introTimeOffset
      ensures SpecialPromised(before) && Warned() && pendingSpecial == None && Evaluated(old(introTimeOffset))
      ensures old(pendingSpecial).Some? ==>
                plan == old(pendingSpecial).value
                  && specialDeliveries == old(specialDeliveries) + [Delivery(plan, before, timeAlive)]
      ensures old(pendingSpecial).None? ==>
                plan == choices.special(old(draws), CurrentDifficulty()) && specialDeliveries == old(specialDeliveries)
      ensures NoSurprise(cfg.leadSeconds, specialDeliveries, specialSpawns + [plan])
    {
      hide Shown, Outstanding, Forthcoming, NoSurprise, Noted, Difficulty;
      if pendingSpecial.Some? {
        plan := pendingSpecial.value;
      } else {
        plan := ChooseSpecialPlan();
      }
      PromiseHonoured(specialPromises, specialDeliveries, pendingSpecial, plan, timeAlive, specialT, specialT, before);
      NoSurpriseNext(cfg.leadSeconds, specialDeliveries, specialSpawns, pendingSpecial, plan, before, timeAlive);
      ShownSwapped(warnings, timeAlive, pipePromises, pendingPipe, specialPromises, pendingSpecial);
      ShownDelivered(warnings, timeAlive, specialPromises, specialDeliveries, pendingSpecial, specialT, before,
                     Forthcoming(pipePromises, pendingPipe, timeAlive));
      ShownSwapped(warnings, timeAlive, specialPromises, None, pipePromises, pendingPipe);
      if pendingSpecial.Some? {
        specialDeliveries := specialDeliveries + [Delivery(plan, before, timeAlive)];
      }
      pendingSpecial := None;
    }

    /** Special patterns: at most one a tick, and the next one after a cadence that is drawn. */
    method SpawnSpecial(dt: real, ghost before: real)
      requires Books() && SpecialsForetold() && dt > 0.0 && timeAlive == before + dt && Warned()
      requires Outstanding(specialPromises, specialDeliveries, pendingSpecial, before, specialT, before)
      requires pendingSpecial.Some? ==> specialT > 0.0
      modifies this`specialT, this`pendingSpecial, this`draws, this`warnings, this`specialPromises,
               this`specialDeliveries, this`pipes, this`nextPipeId, this`nextGapId, this`gates, this`gapMeta,
               this`gapLog, this`dropped, this`droppedGaps, this`regularSpawns, this`specialSpawns,
               this`introTimeOffset
      ensures Books() && Warned() && SpecialPromised(timeAlive) && SpecialsForetold()
        && regularSpawns == old(regularSpawns)
      ensures pendingSpecial.Some? ==> specialT > 0.0
      ensures old(specialT) - dt > 0.0 ==> specialT == old(specialT) - dt && specialSpawns == old(specialSpawns)
      ensures old(specialT) - dt <= 0.0 ==>
                && draws > 0 && specialT == choices.cadence(draws - 1, CurrentDifficulty())
                && |specialSpawns| == |old(specialSpawns)| + 1
      ensures Evaluated(old(introTimeOffset))
      ensures Brought(old(Stocked()), old(regularSpawns), old(specialSpawns))
    {
      hide Books, Warned, Outstanding, NoSurprise, IntroDue, Difficulty, Brought;
      NothingBrought(Stocked(), regularSpawns, specialSpawns);
      RunDownSpecialTimer(dt, before);
      if specialT <= 0.0 {
        SpecialThenCadence(before);
      }
      ForthcomingPending(specialPromises, specialDeliveries, pendingSpecial, timeAlive, specialT, before);
    }

    method SpecialThenCadence(ghost before: real)
      requires Books() && SpecialPromised(before) && specialT <= 0.0 && Warned() && SpecialsForetold()
      requires cfg.leadSeconds > 0.0 ==> pendingSpecial.Some?
      modifies this`specialT, this`pendingSpecial, this`draws, this`specialDeliveries, this`introTimeOffset, this`pipes,
               this`nextPipeId, this`nextGapId, this`gates, this`gapMeta, this`gapLog, this`dropped, this`droppedGaps,
               this`regularSpawns, this`specialSpawns
      ensures Books() && SpecialPromised(before) && Warned() && SpecialsForetold() && pendingSpecial == None
      ensures draws > 0 && specialT == choices.cadence(draws - 1, CurrentDifficulty())
      ensures |specialSpawns| == |old(specialSpawns)| + 1 && regularSpawns == old(regularSpawns)
      ensures Brought(old(Stocked()), old(regularSpawns), old(specialSpawns)) && Evaluated(old(introTimeOffset))
    {
      hide Books, Warned, Outstanding, SpecialsForetold, IntroDue, Difficulty, Brought;
      CarryOutSpecialPlan(before);
      NewCadence(before);
    }

    method CarryOutSpecialPlan(ghost before: real)
      requires Books() && SpecialPromised(before) && specialT <= 0.0 && Warned() && SpecialsForetold()
      requires cfg.leadSeconds > 0.0 ==> pendingSpecial.Some?
      modifies this`pendingSpecial, this`draws, this`specialDeliveries, this`introTimeOffset, this`pipes,
               this`nextPipeId, this`nextGapId, this`gates, this`gapMeta, this`gapLog, this`dropped, this`droppedGaps,
               this`regularSpawns, this`specialSpawns
      ensures Books() && SpecialPromised(before) && Warned() && SpecialsForetold() && pendingSpecial == None
      ensures Evaluated(old(introTimeOffset))
      ensures |specialSpawns| == |old(specialSpawns)| + 1 && regularSpawns == old(regularSpawns)
      ensures Brought(old(Stocked()), old(regularSpawns), old(specialSpawns))
    {
      hide Books, Warned, SpecialPromised, Brought, WithPlan, HasRoom, PlanPipes, Fitted, NoSurprise, IntroDue,
        Difficulty;
      var plan := TakeSpecialPlan(before);
      ExecutePlan(plan, false);
    }

    method NewCadence(ghost before: real)
      requires SpecialPromised(before) && pendingSpecial == None
      modifies this`specialT, this`draws, this`introTimeOffset
      ensures introTimeOffset == Noted(cfg, score, timeAlive, old(introTimeOffset))
      ensures SpecialPromised(before) && specialT == choices.cadence(old(draws), CurrentDifficulty())
      ensures draws == old(draws) + 1
    {
      hide Noted, Difficulty;
      var d := Difficulty01();
      specialT := choices.cadence(draws, d);
      draws := draws + 1;
    }

    /** The position of the last draw. */
    function LastDraw(): nat
      reads this`draws
    {
      if draws == 0 then 0 else draws - 1
    }

    /** Orbs appear after a wait that is drawn, and never more than the limit at once. */
    method SpawnOrbs(dt: real)
      modifies this`orbT, this`orbs, this`draws
      ensures (orbs, orbT) == OrbSpawn(cfg, choices, old(orbs), old(orbT), dt, LastDraw())
    {
      if cfg.orbsEnabled {
        orbT := orbT - dt;
        if orbT <= 0.0 {
          if |orbs| < cfg.maxOrbs {
            orbs := orbs + [choices.orb(draws)];
          }
          orbT := choices.orbWait(draws);
          draws := draws + 1;
        }
      }
    }

    /** `_cleanupWarnings`. */
    method CleanupWarnings()
      modifies this`warnings
      ensures warnings == Kept(old(warnings), Upcoming(timeAlive))
    {
      hide Kept;
      ghost var was, keep := warnings, Upcoming(timeAlive);
      var i := |warnings|;
      assert was[i..] == [];
      KeptNone(was[i..], keep);
      while i > 0
        invariant i <= |was| && warnings == was[..i] + Kept(was[i..], keep)
      {
        i := i - 1;
        KeptBackwards(was, i, keep);
        if warnings[i].spawnAt <= timeAlive {
          warnings := RemoveAt(warnings, i);
        }
      }
      assert was[0..] == was;
    }

    /** At the end of the spawn phase the warnings on show are those of the pending plans and no others. */
    method SettleWarnings()
      requires Warned() && Pace() && PipesForetold() && SpecialsForetold() && timeAlive >= 0.0 && pipeT > 0.0
        && intervals != []
      requires PipePromised(timeAlive) && SpecialPromised(timeAlive) && (pendingSpecial.Some? ==> specialT > 0.0)
      modifies this`warnings
      ensures Scheduled()
    {
      hide Shown, Pending, Kept, Outstanding, Pace, PipesForetold, SpecialsForetold;
      LeftOnShow();
      CleanupWarnings();
    }

    lemma LeftOnShow()
      requires Warned() && PipePromised(timeAlive) && SpecialPromised(timeAlive) && timeAlive >= 0.0 && pipeT > 0.0
      requires pendingSpecial.Some? ==> specialT > 0.0
      ensures multiset(Kept(warnings, Upcoming(timeAlive)))
              == Pending(pipePromises, pendingPipe) + Pending(specialPromises, pendingSpecial)
    {
      ForthcomingPending(pipePromises, pipeDeliveries, pendingPipe, timeAlive, pipeT, timeAlive);
      ForthcomingPending(specialPromises, specialDeliveries, pendingSpecial, timeAlive, specialT, timeAlive);
      hide Forthcoming, Pending, Kept, Outstanding;
    }

    // -----------------------------------------------------------------
    // Gates and perfects.
    // -----------------------------------------------------------------

    method UpdateGates(dt: real)
      requires Told()
      modifies this`gates
      ensures Told()
      ensures gates == GatesMoved(old(gates), dt, W, H)
    {
      hide Consistent, GatesMoved;
      ghost var was := gates;
      var i := 0;
      while i < |gates|
        invariant i <= |gates| == |was|
        invariant forall j :: 0 <= j < i ==> gates[j] == Moved(was[j], dt, W, H)
        invariant forall j :: i <= j < |gates| ==> gates[j] == was[j]
      {
        gates := gates[i := Moved(gates[i], dt, W, H)];
        i := i + 1;
      }
      ConsistentSame(gapLog, gapMeta, nextGapId, was, gates);
      assert gates == GatesMoved(was, dt, W, H);
    }

    /** `resolveGapPerfect` for gate `i`. */
    method ResolveGapPerfect(i: nat, axis: real, prevPerp: real, currPerp: real)
      requires i < |gates| && Ledger() && Told()
      modifies this`score, this`stats, this`perfectCombo, this`gates, this`gapMeta, this`gapLog
      ensures Ledger() && Told()
      ensures var g := old(gates)[i];
              var live := !g.perfected && g.entered;
              var crossed := live && Crossed(g.prev, g.pos, g.thick * 0.5, axis);
              var earns := live && IsPerfect(g, axis, prevPerp, currPerp, Clamp(cfg.windowScale, 0.0, 1.0));
              && gates == old(gates)[i := g.(cleared := g.cleared || crossed, perfected := g.perfected || earns)]
              && gapLog == old(gapLog) + (if earns then [Perfected(g.gapId)] else [])
              && gapMeta == (if earns then MarkPerfected(old(gapMeta), g.gapId) else old(gapMeta))
              && perfectCombo == old(perfectCombo) + (if earns then 1 else 0)
      ensures SameFates(old(stats), stats)
    {
      hide Balanced, Consistent, StreaksOf, MarkPerfected, Threshold, SweptPerp, Clamp, PerfectPoints;
      var g := gates[i];
      if g.perfected || !g.entered {
        assert gates[i := g] == gates && gapLog + [] == gapLog;
        return;
      }
      var half := g.thick * 0.5;
      if !(Min(g.prev, g.pos) - half <= axis <= Max(g.prev, g.pos) + half) {
        assert gates[i := g] == gates && gapLog + [] == gapLog;
        return;
      }
      ConsistentSame(gapLog, gapMeta, nextGapId, gates, gates[i := g.(cleared := true)]);
      gates := gates[i := g.(cleared := true)];
      var distance := Abs(SweptPerp(prevPerp, currPerp, g.gapCenter) - g.gapCenter);
      if distance <= Threshold(g.gapHalf, Clamp(cfg.windowScale, 0.0, 1.0)) {
        AwardPerfect(i);
      } else {
        assert gapLog + [] == gapLog;
      }
    }

    method JudgeGate(i: nat, prevX: real, prevY: real)
      requires i < |gates| && Ledger() && Told()
      modifies this`score, this`stats, this`perfectCombo, this`gates, this`gapMeta, this`gapLog
      ensures Ledger() && Told()
      ensures var g := old(gates)[i];
              var earns := Earns(g, old(gapMeta), player, prevX, prevY, cfg.windowScale);
              && gates == old(gates)[i := Judged(g, old(gapMeta), player, prevX, prevY, cfg.windowScale)]
              && gapLog == old(gapLog) + (if earns then [Perfected(g.gapId)] else [])
              && gapMeta == (if earns then MarkPerfected(old(gapMeta), g.gapId) else old(gapMeta))
              && perfectCombo == old(perfectCombo) + (if earns then 1 else 0)
      ensures SameFates(old(stats), stats)
    {
      hide Ledger, Told, MarkPerfected, IsPerfect, Crossed, Clamp;
      var g := gates[i];
      if g.perfected || (g.gapId in gapMeta && gapMeta[g.gapId].broken) {
        assert gates[i := g] == gates && gapLog + [] == gapLog;
        return;
      }
      ResolveGapPerfect(i, if g.axisX then player.x else player.y, if g.axisX then prevY else prevX,
                        if g.axisX then player.y else player.x);
    }

    /** The perfect loop: every gate is judged by its own gap and the player's sweep, whatever happens to the others. */
    method JudgeGates(prevX: real, prevY: real)
      requires Ledger() && Told()
      modifies this`score, this`stats, this`perfectCombo, this`gates, this`gapMeta, this`gapLog
      ensures Ledger() && Told()
      ensures SameGaps(old(gapMeta), gapMeta)
      ensures gates == AllJudged(old(gates), old(gapMeta), player, prevX, prevY, cfg.windowScale)
      ensures gapLog == old(gapLog) + Awards(old(gates), old(gapMeta), player, prevX, prevY, cfg.windowScale)
      ensures perfectCombo == old(perfectCombo) + |gapLog| - |old(gapLog)|
      ensures SameFates(old(stats), stats)
    {
      hide Ledger, Told, Judged, Earns, MarkPerfected, AllJudged, Awards;
      ghost var was, meta := gates, gapMeta;
      var k := 0;
      NoneJudged(was, k, gapLog, meta, player, prevX, prevY, cfg.windowScale);
      while k < |gates|
        invariant k <= |gates| == |was|
        invariant Ledger() && Told() && SameGaps(meta, gapMeta)
        invariant gates == AllJudged(was[..k], meta, player, prevX, prevY, cfg.windowScale) + was[k..]
        invariant gapLog == old(gapLog) + Awards(was[..k], meta, player, prevX, prevY, cfg.windowScale)
        invariant perfectCombo == old(perfectCombo) + |gapLog| - |old(gapLog)| && SameFates(old(stats), stats)
      {
        JudgedNext(was, k, meta, gapMeta, player, prevX, prevY, cfg.windowScale);
        JudgeGate(k, prevX, prevY);
        k := k + 1;
      }
      EveryOneJudged(was, k, meta, player, prevX, prevY, cfg.windowScale);
    }

    // -----------------------------------------------------------------
    // Pipes and orbs move; orbs are picked up.
    // -----------------------------------------------------------------

    method MovePipes(dt: real)
      requires Conserved() && Counted()
      modifies this`pipes
      ensures Conserved() && Counted()
      ensures pipes == PipesMoved(old(pipes), slowField, dt, W, H)
    {
      hide Censused, GapsCounted, Pushed, PipesMoved;
      ghost var was := pipes;
      var i := 0;
      while i < |pipes|
        invariant i <= |pipes| == |was|
        invariant forall j :: 0 <= j < i ==> pipes[j] == Pushed(was[j], slowField, dt, W, H)
        invariant forall j :: i <= j < |pipes| ==> pipes[j] == was[j]
      {
        pipes := pipes[i := Pushed(pipes[i], slowField, dt, W, H)];
        i := i + 1;
      }
      assert pipes == PipesMoved(was, slowField, dt, W, H);
      PushedAreSame(was, pipes, slowField, dt, W, H);
      CensusSame(was, pipes, stats, dodged, broken, dropped, nextPipeId);
      GapsSame(was, pipes, gapMeta, droppedGaps, nextGapId);
    }

    method UpdateOrbs(dt: real)
      modifies this`orbs
      ensures orbs == Kept(OrbsMoved(old(orbs), dt, W, H), Alive())
    {
      hide Kept, OrbMoved;
      ghost var was, moved, keep := orbs, OrbsMoved(orbs, dt, W, H), Alive();
      var i := |orbs|;
      assert moved[i..] == [];
      KeptNone(moved[i..], keep);
      while i > 0
        invariant i <= |was| && orbs == was[..i] + Kept(moved[i..], keep)
      {
        i := i - 1;
        UpdatedThenKept(was, moved, i, keep);
        orbs := orbs[i := OrbMoved(orbs[i], dt, W, H)];
        if orbs[i].life <= 0.0 {
          orbs := RemoveAt(orbs, i);
        }
      }
      assert moved[0..] == moved;
    }

    /** Every orb within reach is taken, each at the points of the combo it brings about. */
    method PickUpOrbs() returns (picked: bool)
      requires Ledger() && ComboTimed()
      modifies this`score, this`stats, this`combo, this`comboTimer, this`orbStreaks, this`orbs
      ensures Ledger() && ComboTimed()
      ensures orbs == Kept(old(orbs), Beyond(player))
      ensures combo + |orbs| == old(combo) + |old(orbs)|
      ensures |orbs| <= |old(orbs)| && (picked <==> |orbs| < |old(orbs)|)
      ensures if picked then comboTimer == ComboWindow(combo) else comboTimer == old(comboTimer)
      ensures SameFates(old(stats), stats)
    {
      hide Ledger, Kept, Touches, OrbPoints, Extended;
      ghost var was, keep := orbs, Beyond(player);
      var i := |orbs|;
      assert was[i..] == [];
      KeptNone(was[i..], keep);
      picked := false;
      while i > 0
        invariant i <= |was| && orbs == was[..i] + Kept(was[i..], keep)
        invariant Ledger() && ComboTimed()
        invariant combo + |orbs| == old(combo) + |was| && (picked <==> |orbs| < |was|) && |orbs| <= |was|
        invariant if picked then comboTimer == ComboWindow(combo) else comboTimer == old(comboTimer)
        invariant SameFates(old(stats), stats)
      {
        i := i - 1;
        KeptBackwards(was, i, keep);
        if Touches(player, orbs[i]) {
          orbs := RemoveAt(orbs, i);
          PickOrb();
          picked := true;
        }
      }
      assert was[0..] == was;
    }

    /** Without a new orb the combo runs down, and breaks when its time is up. */
    method RunDownCombo(dt: real, picked: bool)
      requires Ledger() && ComboTimed()
      modifies this`combo, this`comboTimer, this`orbStreaks
      ensures Ledger() && ComboTimed()
      ensures combo == if !picked && old(comboTimer) <= dt then 0 else old(combo)
      ensures combo > 0 ==> comboTimer == old(comboTimer) - (if picked then 0.0 else dt)
      ensures orbStreaks == if combo < old(combo) then old(orbStreaks) + [0] else old(orbStreaks)
    {
      hide Ledger;
      if combo > 0 {
        if !picked {
          comboTimer := Max(0.0, comboTimer - dt);
          if comboTimer <= 0.0 {
            comboTimer := 0.0;
            BreakCombo();
          }
        }
      } else {
        comboTimer := 0.0;
      }
    }

    // -----------------------------------------------------------------
    // Collision.
    // -----------------------------------------------------------------

    /**
     `_handlePipeCollision`: a destroying dash takes the pipe, a dash with bounces left is reflected, anything else
     is fatal.
     */
    method HandlePipeCollision(pipe: Pipe, hit: Hit, ghost i: nat) returns (outcome: Collision)
      requires Books() && Sporting() && i < |pipes| && pipes[i] == pipe
      modifies this`player, this`mode, this`pipes, this`stats, this`perfectCombo, this`gapMeta, this`gapLog, this`broken
      ensures Books() && Sporting() && perfectCombo == old(perfectCombo)
      ensures outcome == Verdict(old(player), BounceCap(cfg)) && outcome != Missed
      ensures mode == if outcome == Fatal then Over else old(mode)
      ensures outcome == Destroyed ==>
        && player == Spent(old(player), Max(0.0, ActiveDash(cfg).impactIFrames))
        && broken == old(broken) + [pipe.id] && pipes == RemoveAt(old(pipes), i)
      ensures outcome == Reflected ==> player == Rebounded(old(player), hit, W, H)
      ensures outcome == Fatal ==> player == old(player)
      ensures outcome != Destroyed ==> pipes == old(pipes)
    {
      hide Conserved, Ledger, Told, Counted, BounceCap, Rebounded, PipeGone, InWorld;
      if player.dashT > 0.0 {
        if player.dashMode == Destroy && !player.dashDestroyed {
          ghost var was := player;
          OnePlace(i);
          var done, at := ShatterPipe(pipe);
          player := player.(dashDestroyed := true, dashMode := NoDash, dashT := 0.0, dashBounces := 0);
          var iFrames := Max(0.0, ActiveDash(cfg).impactIFrames);
          if iFrames > 0.0 {
            player := player.(invT := Max(player.invT, iFrames));
          }
          SpentStays(was, iFrames, BounceCap(cfg), W, H);
          return Destroyed;
        }
        if BouncesLeft(player, BounceCap(cfg)) {
          ReflectedStays(player, hit, BounceCap(cfg), W, H);
          player := Rebounded(player, hit, W, H);
          return Reflected;
        }
      }
      mode := Over;
      return Fatal;
    }

    /**
     The collision loop: the first pipe that touches the player decides; none does while the player is
     invulnerable.
     */
    method Collide() returns (outcome: Collision)
      requires Books() && Sporting()
      modifies this`player, this`mode, this`pipes, this`stats, this`perfectCombo, this`gapMeta, this`gapLog, this`broken
      ensures Books() && Sporting() && perfectCombo == old(perfectCombo)
      ensures outcome == CollisionOf(old(player), old(pipes), BounceCap(cfg))
      ensures outcome == Missed ==> unchanged(this)
      ensures mode == if outcome == Fatal then Over else old(mode)
      ensures player == PlayerAfter(old(player), old(pipes), cfg, W, H)
      ensures pipes == PipesAfter(old(player), old(pipes), BounceCap(cfg))
    {
      hide Books, Sporting, BounceCap, Verdict, CircleRect, HitAt, Rebounded, Spent, ActiveDash, FirstTouch, RemoveAt;
      if player.invT > 0.0 {
        return Missed;
      }
      var i := 0;
      while i < |pipes|
        invariant i <= |pipes|
        invariant unchanged(this) && forall j :: 0 <= j < i ==> !Touched(player, pipes[j])
      {
        var hit := CircleRectInfo(player.x, player.y, player.r, Box(pipes[i]));
        InfoAgrees(player.x, player.y, player.r, Box(pipes[i]));
        if hit.Some? {
          FirstTouchIs(player, pipes, i);
          outcome := HandlePipeCollision(pipes[i], hit.value, i);
          return;
        }
        i := i + 1;
      }
      FirstTouchIs(player, pipes, i);
      return Missed;
    }

    // -----------------------------------------------------------------
    // What leaves the field.
    // -----------------------------------------------------------------

    method ScorePipe(i: nat)
      requires Ledger() && i < |pipes|
      modifies this`pipes, this`score, this`stats
      ensures Ledger()
      ensures old(pipes)[i].scored ==> unchanged(this)
      ensures !old(pipes)[i].scored ==>
        && pipes == old(pipes)[i := old(pipes)[i].(scored := true)]
        && stats == WithDodge(old(stats), PipePoints(cfg.scoring)) && score == old(score) + PipePoints(cfg.scoring)
    {
      hide Ledger, PipePoints;
      if !pipes[i].scored {
        pipes := pipes[i := pipes[i].(scored := true)];
        RecordPipeScore();
      }
    }

    /** Pipe `i` has left the field: it is scored once, its gap loses a pipe, and it goes. */
    method RemoveDodged(i: nat)
      requires Books() && i < |pipes|
      modifies this`pipes, this`score, this`stats, this`perfectCombo, this`gapMeta, this`gapLog, this`dodged
      ensures Books() && pipes == RemoveAt(old(pipes), i)
      ensures dodged == old(dodged) + [old(pipes)[i].id]
      ensures stats == WithDodge(old(stats), PipePoints(cfg.scoring)) && score == old(score) + PipePoints(cfg.scoring)
      ensures gapMeta == PipeGone(old(gapMeta), old(pipes)[i].gapId, false)
      ensures perfectCombo ==
        if Resets(PipeEvents(old(gapMeta), old(pipes)[i].gapId, false)) then 0 else old(perfectCombo)
    {
      hide Ledger, Told, Censused, GapsCounted, PipeGone, PipeEvents, PipePoints, RemoveAt, Resets, WithDodge;
      var p := pipes[i];
      PipeOut(i, false);
      RemoveChanged(pipes, i, p.(scored := true));
      ScorePipe(i);
      OnGapPipeRemoved(p.gapId, false);
      pipes := RemoveAt(pipes, i);
      dodged := dodged + [p.id];
    }

    method RemoveOffPipes()
      requires Books()
      modifies this`pipes, this`score, this`stats, this`perfectCombo, this`gapMeta, this`gapLog, this`dodged
      ensures Books()
      ensures pipes == Kept(old(pipes), OnField(W, H))
      ensures |pipes| + |dodged| == |old(pipes)| + |old(dodged)|
      ensures stats.brokenPipes == old(stats).brokenPipes
    {
      hide Books, Kept, PipeOff, Margin, PipeGone, PipeEvents, PipePoints;
      ghost var was, keep := pipes, OnField(W, H);
      var m := Margin(W, H);
      var i := |pipes|;
      assert was[i..] == [];
      KeptNone(was[i..], keep);
      while i > 0
        invariant i <= |was| && pipes == was[..i] + Kept(was[i..], keep)
        invariant Books() && |pipes| + |dodged| == |was| + |old(dodged)| && stats.brokenPipes == old(stats).brokenPipes
      {
        i := i - 1;
        KeptBackwards(was, i, keep);
        if PipeOff(pipes[i], W, H, m) {
          RemoveDodged(i);
        }
      }
      assert was[0..] == was;
    }

    method RemoveGate(i: nat)
      requires Ledger() && Told() && Counted() && i < |gates|
      modifies this`gates, this`perfectCombo, this`gapMeta, this`gapLog
      ensures Ledger() && Told() && Counted() && gates == RemoveAt(old(gates), i)
      ensures gapMeta == old(gapMeta) - {old(gates)[i].gapId}
      ensures gapLog == old(gapLog) + GateEvents(old(gapMeta), old(gates)[i].gapId)
      ensures perfectCombo == if Resets(GateEvents(old(gapMeta), old(gates)[i].gapId)) then 0 else old(perfectCombo)
    {
      hide Balanced, Consistent, GapsCounted, StreaksOf, GateEvents;
      var gate := gates[i];
      GapsWithout(pipes, gapMeta, droppedGaps, nextGapId, gate.gapId);
      OnGapGateRemoved(gate.gapId);
      ConsistentWithoutGate(gapLog, gapMeta, nextGapId, gates, i);
      gates := RemoveAt(gates, i);
    }

    method RemoveOffGates()
      requires Ledger() && Told() && Counted()
      modifies this`gates, this`perfectCombo, this`gapMeta, this`gapLog
      ensures Ledger() && Told() && Counted()
      ensures gates == Kept(old(gates), GateOnField(W, H))
    {
      hide Ledger, Told, Counted, Kept, GateOff, Margin, GateEvents;
      ghost var was, keep := gates, GateOnField(W, H);
      var m := Margin(W, H);
      var i := |gates|;
      assert was[i..] == [];
      KeptNone(was[i..], keep);
      while i > 0
        invariant i <= |was| && gates == was[..i] + Kept(was[i..], keep)
        invariant Ledger() && Told() && Counted()
      {
        i := i - 1;
        KeptBackwards(was, i, keep);
        if GateOff(gates[i], W, H, m) {
          RemoveGate(i);
        }
      }
      assert was[0..] == was;
    }

    // -----------------------------------------------------------------
    // A tick.
    // -----------------------------------------------------------------

    /** Clock, cooldowns, the slow field and the player's own movement; `vel` is the velocity its controls come to. */
    method AdvanceTimers(dt: real, vel: (real, real))
      requires Sporting()
      modifies this`timeAlive, this`cds, this`slowField, this`player
      ensures Sporting() && timeAlive == old(timeAlive) + dt
      ensures player.dashBounces <= old(player).dashBounces ==>
                At(player, old(player).x + vel.0 * dt, old(player).y + vel.1 * dt, W, H)
      ensures player == Walked(old(player), dt, vel, BounceCap(cfg), W, H)
      ensures cds == Cooled(old(cds), dt)
      ensures slowField == Faded(old(slowField), dt)
    {
      hide BounceCap, InWorld, WithinBounces, Walked, At;
      timeAlive := timeAlive + dt;
      cds := Cooled(cds, dt);
      if slowField.Some? {
        slowField := Some(slowField.value.(t := Max(0.0, slowField.value.t - dt)));
        if slowField.value.t <= 0.0 {
          slowField := None;
        }
      }
      WalkedStays(player, dt, vel, BounceCap(cfg), W, H);
      WalkedTo(player, dt, vel, BounceCap(cfg), W, H);
      player := Walked(player, dt, vel, BounceCap(cfg), W, H);
    }

    /** What the scheduler brings into a tick that began at `before`. */
    ghost predicate Pledged(before: real)
      reads this`pipeT, this`specialT, this`pendingPipe, this`pendingSpecial, this`warnings, this`pipePromises,
            this`pipeDeliveries, this`specialPromises, this`specialDeliveries, this`intervals, this`regularSpawns,
            this`specialSpawns
    {
      && PipesForetold() && SpecialsForetold()
      && Within(intervals, cfg.spawnInterval.min, cfg.spawnInterval.max) && Paced(intervals, before, pipeT)
      && Outstanding(pipePromises, pipeDeliveries, pendingPipe, before, pipeT, before)
        && (pendingPipe.Some? ==> pipeT > 0.0)
      && Outstanding(specialPromises, specialDeliveries, pendingSpecial, before, specialT, before)
      && (pendingSpecial.Some? ==> specialT > 0.0)
      && multiset(warnings) == Pending(pipePromises, pendingPipe) + Pending(specialPromises, pendingSpecial)
    }

    lemma PledgedBetweenTicks()
      requires Scheduled()
      ensures Pledged(timeAlive)
    {
    }

    lemma WarnedAtStart(before: real)
      requires Pledged(before)
      ensures Warned()
    {
      ShownLater(warnings, timeAlive, pipePromises, pendingPipe, specialPromises, pendingSpecial);
    }

    /** Everything that spawns, and the warnings. */
    method SpawnPhase(dt: real, ghost before: real)
      requires Playable(cfg) && Books() && Pledged(before) && Steady() && dt > 0.0 && before >= 0.0
        && timeAlive == before + dt
      modifies this`pipeT, this`specialT, this`orbT, this`orbs, this`pendingPipe, this`pendingSpecial, this`draws,
               this`intervals, this`warnings, this`pipePromises, this`pipeDeliveries, this`specialPromises,
               this`specialDeliveries, this`pipes, this`nextPipeId, this`nextGapId, this`gates, this`gapMeta,
               this`gapLog, this`dropped, this`droppedGaps, this`regularSpawns, this`specialSpawns,
               this`introTimeOffset
      ensures Books() && Scheduled() && Steady() && old(intervals) <= intervals && Evaluated(old(introTimeOffset))
      ensures (orbs, orbT) == OrbSpawn(cfg, choices, old(orbs), old(orbT), dt, LastDraw())
      ensures |specialSpawns| == |old(specialSpawns)| + (if old(specialT) - dt > 0.0 then 0 else 1)
      ensures Brought(old(Stocked()), old(regularSpawns), old(specialSpawns))
    {
      hide Books, Outstanding, Within, Paced, Pending, Warned, PipePromised, SpecialPromised, Pace, Pledged,
           PipesForetold, SpecialsForetold, Scheduled, OrbSpawn, Brought, Steady;
      SpawnPatterns(dt, before);
      SpawnOrbs(dt);
      SettleWarnings();
    }

    /** The regular spawns of a tick and then the special one. */
    method SpawnPatterns(dt: real, ghost before: real)
      requires Playable(cfg) && Books() && Pledged(before) && Steady() && dt > 0.0 && before >= 0.0
        && timeAlive == before + dt
      modifies this`pipeT, this`specialT, this`pendingPipe, this`pendingSpecial, this`draws, this`intervals,
               this`warnings, this`pipePromises, this`pipeDeliveries, this`specialPromises, this`specialDeliveries,
               this`pipes, this`nextPipeId, this`nextGapId, this`gates, this`gapMeta, this`gapLog, this`dropped,
               this`droppedGaps, this`regularSpawns, this`specialSpawns, this`introTimeOffset
      ensures Books() && Warned() && Pace() && PipesForetold() && SpecialsForetold() && pipeT > 0.0 && intervals != []
      ensures PipePromised(timeAlive) && SpecialPromised(timeAlive) && (pendingSpecial.Some? ==> specialT > 0.0)
      ensures Steady() && old(intervals) <= intervals && Evaluated(old(introTimeOffset))
      ensures |specialSpawns| == |old(specialSpawns)| + (if old(specialT) - dt > 0.0 then 0 else 1)
      ensures Brought(old(Stocked()), old(regularSpawns), old(specialSpawns))
    {
      hide Books, Outstanding, Within, Paced, Pending, Warned, PipePromised, SpecialPromised, Pace, PipesForetold,
           SpecialsForetold, IntroDue, Difficulty, Brought, SteadyFor;
      ghost var stock, regular0, special0 := Stocked(), regularSpawns, specialSpawns;
      WarnedAtStart(before);
      SpawnPipes(dt, before);
      ghost var middle, regular, special := Stocked(), regularSpawns, specialSpawns;
      BroughtIs(stock, regular0, special0);
      ghost var offset := introTimeOffset;
      SpawnSpecial(dt, before);
      SteadyLater(offset);
      BroughtTwice(stock, regular0, special0, middle, regular, special);
    }

    /** Gates and perfects, pipes, orbs and the combo, in this order. */
    method ScorePhase(dt: real, prevX: real, prevY: real)
      requires Books() && ComboTimed()
      modifies this`score, this`stats, this`combo, this`comboTimer, this`perfectCombo, this`orbStreaks, this`gapLog,
               this`gates, this`gapMeta, this`pipes, this`orbs
      ensures Books() && ComboTimed()
      ensures gates == GatesScored(cfg, old(gates), old(gapMeta), player, prevX, prevY, dt, W, H)
      ensures pipes == PipesMoved(old(pipes), slowField, dt, W, H)
      ensures orbs == OrbsLeft(old(orbs), player, dt, W, H)
      ensures combo == ComboLeft(old(combo), old(comboTimer), old(orbs), orbs, dt, W, H)
    {
      hide Ledger, Conserved, Told, Counted, GatesScored, ComboAfter, ComboTimed, Kept, OrbsMoved, PipesMoved;
      GatePhase(dt, prevX, prevY);
      MovePipes(dt);
      UpdateOrbs(dt);
      PickUpAndRunDown(dt);
    }

    method GatePhase(dt: real, prevX: real, prevY: real)
      requires Books()
      modifies this`score, this`stats, this`perfectCombo, this`gates, this`gapMeta, this`gapLog
      ensures Books()
      ensures gates == GatesScored(cfg, old(gates), old(gapMeta), player, prevX, prevY, dt, W, H)
    {
      hide Ledger, Conserved, Told, Counted, AllJudged, Awards, GatesMoved;
      UpdateGates(dt);
      if cfg.perfectEnabled {
        JudgePhase(prevX, prevY);
      }
    }

    method JudgePhase(prevX: real, prevY: real)
      requires Books()
      modifies this`score, this`stats, this`perfectCombo, this`gates, this`gapMeta, this`gapLog
      ensures Books()
      ensures gates == AllJudged(old(gates), old(gapMeta), player, prevX, prevY, cfg.windowScale)
      ensures gapLog == old(gapLog) + Awards(old(gates), old(gapMeta), player, prevX, prevY, cfg.windowScale)
      ensures perfectCombo == old(perfectCombo) + |gapLog| - |old(gapLog)|
    {
      hide Ledger, Told, AllJudged, Awards, Censused, GapsCounted, SameFates, SameGaps;
      ghost var stats0, meta0 := stats, gapMeta;
      JudgeGates(prevX, prevY);
      CensusAnyway(pipes, stats0, stats, dodged, broken, dropped, nextPipeId);
      GapsPerfected(pipes, meta0, gapMeta, droppedGaps, nextGapId);
    }

    method PickUpAndRunDown(dt: real)
      requires Ledger() && Conserved() && ComboTimed()
      modifies this`score, this`stats, this`combo, this`comboTimer, this`orbStreaks, this`orbs
      ensures Ledger() && Conserved() && ComboTimed()
      ensures orbs == Kept(old(orbs), Beyond(player))
      ensures combo == ComboAfter(old(combo), old(comboTimer), |old(orbs)|, |orbs|, dt)
    {
      hide Ledger, Censused, SameFates, Kept, ComboWindow;
      ghost var stats0 := stats;
      var picked := PickUpOrbs();
      CensusAnyway(pipes, stats0, stats, dodged, broken, dropped, nextPipeId);
      RunDownCombo(dt, picked);
    }

    /** Pipes and gates that have left, and the cap on pipes. */
    method LeavePhase()
      requires Books()
      modifies this`pipes, this`gates, this`score, this`stats, this`perfectCombo, this`gapMeta, this`gapLog,
               this`dodged, this`dropped, this`droppedGaps
      ensures Books() && |pipes| <= PIPE_CAP
      ensures gates == Kept(old(gates), GateOnField(W, H))
      ensures pipes == Newest(Kept(old(pipes), OnField(W, H)), PIPE_CAP)
    {
      hide Ledger, Conserved, Told, Counted, Kept, OnField, GateOnField;
      RemoveOffPipes();
      RemoveOffGates();
      TrimPipes(PIPE_CAP);
    }

    /** The scene shows what the plans carried out since then make of what was there. */
    ghost predicate SceneOf(scene: Scene, before: Stock, regular: seq<Plan>, special: seq<Plan>)
      reads this`nextPipeId, this`nextGapId, this`regularSpawns, this`specialSpawns
    {
      && regular <= regularSpawns && special <= specialSpawns
      && Stock(scene.pipes, nextPipeId, scene.gates, scene.gapMeta, nextGapId)
           == WithPlans(RoomHere(), before, PlansSince(regular, special))
    }

    lemma SceneNow(scene: Scene, before: Stock, regular: seq<Plan>, special: seq<Plan>)
      requires Brought(before, regular, special)
      requires scene.pipes == pipes && scene.gates == gates && scene.gapMeta == gapMeta
      ensures SceneOf(scene, before, regular, special)
    {
    }

    /** The beginning of a tick: the clocks run on, and `scene` is what is on the field once everything has spawned. */
    twostate predicate Begun(dt: real, scene: Scene)
      reads this`timeAlive, this`cds, this`slowField, this`orbT, this`introTimeOffset, this`intervals,
            this`regularSpawns, this`specialSpawns, this`nextPipeId, this`nextGapId, this`draws
    {
      && timeAlive == old(timeAlive) + dt && cds == Cooled(old(cds), dt) && slowField == Faded(old(slowField), dt)
      && SceneOf(scene, old(Stocked()), old(regularSpawns), old(specialSpawns))
      && (scene.orbs, orbT) == OrbSpawn(cfg, choices, old(orbs), old(orbT), dt, LastDraw())
      && old(intervals) <= intervals
      && (introTimeOffset == old(introTimeOffset)
          || introTimeOffset == Noted(cfg, old(score), timeAlive, old(introTimeOffset)))
      && |specialSpawns| == |old(specialSpawns)| + (if old(specialT) - dt > 0.0 then 0 else 1)
    }

    method BeginTick(dt: real, vel: (real, real)) returns (ghost scene: Scene)
      requires Valid() && dt > 0.0
      modifies this`timeAlive, this`cds, this`slowField, this`player, this`pipeT, this`specialT, this`orbT, this`orbs,
               this`pendingPipe, this`pendingSpecial, this`draws, this`intervals, this`warnings, this`pipePromises,
               this`pipeDeliveries, this`specialPromises, this`specialDeliveries, this`pipes, this`nextPipeId,
               this`nextGapId, this`gates, this`gapMeta, this`gapLog, this`dropped, this`droppedGaps,
               this`regularSpawns, this`specialSpawns, this`introTimeOffset
      ensures Valid() && Begun(dt, scene) && scene == Scene(pipes, gates, orbs, gapMeta)
      ensures player == Walked(old(player), dt, vel, BounceCap(cfg), W, H)
    {
      hide Books, ComboTimed, Sporting, Scheduled, Steady, Pledged, Playable, Cooled, Faded, Walked, BounceCap,
        OrbSpawn, Noted,
           Brought, SceneOf;
      ghost var before, stock, regular0, special0 := timeAlive, Stocked(), regularSpawns, specialSpawns;
      PledgedBetweenTicks();
      SoFar();
      AdvanceTimers(dt, vel);
      SpawnPhase(dt, before);
      scene := Scene(pipes, gates, orbs, gapMeta);
      SceneNow(scene, stock, regular0, special0);
    }

    /** The tick up to the collisions. */
    method Progress(dt: real, vel: (real, real)) returns (ghost scene: Scene)
      requires Valid() && dt > 0.0
      modifies this`timeAlive, this`cds, this`slowField, this`player, this`pipeT, this`specialT, this`orbT, this`orbs,
               this`pendingPipe, this`pendingSpecial, this`draws, this`intervals, this`warnings, this`pipePromises,
               this`pipeDeliveries, this`specialPromises, this`specialDeliveries, this`pipes, this`nextPipeId,
               this`nextGapId, this`gates, this`gapMeta, this`gapLog, this`dropped, this`droppedGaps, this`score,
               this`stats, this`combo, this`comboTimer, this`perfectCombo, this`orbStreaks, this`regularSpawns,
               this`specialSpawns, this`introTimeOffset
      ensures Valid() && Begun(dt, scene)
      ensures player == Walked(old(player), dt, vel, BounceCap(cfg), W, H)
      ensures pipes == PipesMoved(scene.pipes, slowField, dt, W, H)
      ensures gates == GatesScored(cfg, scene.gates, scene.gapMeta, player, old(player).x, old(player).y, dt, W, H)
      ensures orbs == OrbsLeft(scene.orbs, player, dt, W, H)
      ensures combo == ComboLeft(old(combo), old(comboTimer), scene.orbs, orbs, dt, W, H)
    {
      hide Books, ComboTimed, Sporting, Scheduled, Steady, Playable, Walked, BounceCap, PipesMoved, GatesScored,
        OrbsLeft,
           ComboLeft, Begun;
      var prevX, prevY := player.x, player.y;
      scene := BeginTick(dt, vel);
      ScorePhase(dt, prevX, prevY);
    }

    lemma SoFar()
      requires Scheduled()
      ensures timeAlive >= 0.0
    {
    }

    /**
     `update`: one tick of play; nothing happens outside play. What has spawned moves, gates are judged and orbs taken
     where the player went, the first touch decides, and - unless it was fatal - what has left the field goes.
     */
    method Update(dt: real, vel: (real, real)) returns (ghost scene: Scene)
      requires Sound() && dt > 0.0
      modifies this
      ensures Sound()
      ensures old(mode) != Playing ==> unchanged(this)
      ensures old(mode) == Playing ==>
        var p, cap := Walked(old(player), dt, vel, BounceCap(cfg), W, H), BounceCap(cfg);
        var moved := PipesMoved(scene.pipes, slowField, dt, W, H);
        var judged := GatesScored(cfg, scene.gates, scene.gapMeta, p, old(player).x, old(player).y, dt, W, H);
        && Begun(dt, scene)
        && orbs == OrbsLeft(scene.orbs, p, dt, W, H)
        && combo == ComboLeft(old(combo), old(comboTimer), scene.orbs, orbs, dt, W, H)
        && mode == (if CollisionOf(p, moved, cap) == Fatal then Over else Playing)
        && player == PlayerAfter(p, moved, cfg, W, H)
        && (old(player).dashT <= dt ==>
              At(player, old(player).x + vel.0 * dt, old(player).y + vel.1 * dt, W, H))
        && (InPaddedField(old(player), old(player).x + vel.0 * dt, old(player).y + vel.1 * dt, W, H)
            && player.dashBounces <= old(player).dashBounces ==>
              player.x == old(player).x + vel.0 * dt && player.y == old(player).y + vel.1 * dt)
        && (mode == Over ==> pipes == PipesAfter(p, moved, cap) && gates == judged)
        && (mode == Playing ==>
              && pipes == Newest(Kept(PipesAfter(p, moved, cap), OnField(W, H)), PIPE_CAP)
              && gates == Kept(judged, GateOnField(W, H)))
    {
      hide Books, ComboTimed, Sporting, Scheduled, Steady, Playable, Cooled, Faded, Walked, CollisionOf, PlayerAfter,
           PipesAfter, Kept, Newest, BounceCap, PipesMoved, GatesScored, OrbsLeft, OnField, GateOnField, OrbsMoved,
           ComboLeft, Begun, At, WithinBounces, InPaddedField;
      if mode != Playing {
        scene := Scene(pipes, gates, orbs, gapMeta);
        return;
      }
      ghost var was := player;
      WithinItsBounces();
      scene := Progress(dt, vel);
      ghost var moved := pipes;
      CollidePhase();
      Carried(was, dt, vel, moved);
    }

    lemma Carried(was: Player, dt: real, vel: (real, real), moved: seq<Pipe>)
      requires WithinBounces(was, BounceCap(cfg)) && dt >= 0.0
      requires player == PlayerAfter(Walked(was, dt, vel, BounceCap(cfg), W, H), moved, cfg, W, H)
      ensures was.dashT <= dt ==> At(player, was.x + vel.0 * dt, was.y + vel.1 * dt, W, H)
      ensures InPaddedField(was, was.x + vel.0 * dt, was.y + vel.1 * dt, W, H)
              && player.dashBounces <= was.dashBounces ==>
                player.x == was.x + vel.0 * dt && player.y == was.y + vel.1 * dt
    {
      TickTo(was, dt, vel, moved, cfg, W, H, was.x + vel.0 * dt, was.y + vel.1 * dt);
      hide PlayerAfter, Walked, At, WithinBounces;
    }

    lemma WithinItsBounces()
      requires Valid()
      ensures WithinBounces(player, BounceCap(cfg))
    {
    }

    /** The first touch decides, and - unless it was fatal - what has left the field goes. */
    method CollidePhase()
      requires Valid() && mode == Playing
      modifies this`player, this`mode, this`pipes, this`gates, this`score, this`stats, this`perfectCombo, this`gapMeta,
               this`gapLog, this`dodged, this`broken, this`dropped, this`droppedGaps
      ensures Valid()
      ensures mode == if CollisionOf(old(player), old(pipes), BounceCap(cfg)) == Fatal then Over else Playing
      ensures player == PlayerAfter(old(player), old(pipes), cfg, W, H)
      ensures mode == Over ==> pipes == PipesAfter(old(player), old(pipes), BounceCap(cfg)) && gates == old(gates)
      ensures mode == Playing ==>
        && pipes == Newest(Kept(PipesAfter(old(player), old(pipes), BounceCap(cfg)), OnField(W, H)), PIPE_CAP)
        && gates == Kept(old(gates), GateOnField(W, H))
    {
      hide Books, ComboTimed, Sporting, Scheduled, Steady, Playable, CollisionOf, PlayerAfter, PipesAfter, Kept, Newest,
           BounceCap, OnField, GateOnField;
      var outcome := Collide();
      if outcome == Fatal {
        return;
      }
      LeavePhase();
    }

    // -----------------------------------------------------------------
    // Skills.
    // -----------------------------------------------------------------

    method UseDash()
      requires Sporting()
      modifies this`player, this`cds
      ensures Sporting()
      ensures player == Dashing(old(player), ActiveDash(cfg).duration, if cfg.dashDestroys then Destroy else Ricochet)
      ensures cds == old(cds).(dash := CooldownOf(cfg, Dash))
    {
      hide Clamp;
      var d := ActiveDash(cfg);
      player := player.(dashT := Clamp(d.duration, 0.0, 1.2), dashBounces := 0, dashDestroyed := false);
      player := player.(dashMode := if cfg.dashDestroys then Destroy else Ricochet);
      cds := cds.(dash := Max(0.0, d.cooldown));
    }

    method UsePhase()
      requires Sporting()
      modifies this`player, this`cds
      ensures Sporting()
      ensures player == old(player).(invT := Max(old(player).invT, PhaseLength(cfg)))
      ensures cds == old(cds).(phase := CooldownOf(cfg, Phase))
    {
      hide BounceCap, PhaseLength;
      player := player.(invT := Max(player.invT, PhaseLength(cfg)));
      cds := cds.(phase := CooldownOf(cfg, Phase));
    }

    /** Without a cursor on the field nothing happens. */
    method UseTeleport(cursor: Option<(real, real)>) returns (used: bool, count: nat)
      requires Books() && Sporting()
      modifies this`player, this`cds, this`pipes, this`stats, this`perfectCombo, this`gapMeta, this`gapLog, this`broken
      ensures Books() && Sporting() && perfectCombo == old(perfectCombo)
      ensures used <==> cursor.Some?
      ensures !used ==> unchanged(this) && count == 0
      ensures used ==>
        && player == Bounded(old(player).(x := cursor.value.0, y := cursor.value.1), W, H)
        && cds == old(cds).(teleport := CooldownOf(cfg, Teleport))
        && pipes == AfterBlast(old(pipes), BlastOf(cfg, Teleport, player))
      ensures |pipes| + count == |old(pipes)| && stats == WithBlast(old(stats), count)
    {
      hide Books, BounceCap, Kept, InWorld;
      count, used := 0, cursor.Some?;
      if !used {
        return;
      }
      player := Bounded(player.(x := cursor.value.0, y := cursor.value.1), W, H);
      cds := cds.(teleport := CooldownOf(cfg, Teleport));
      if cfg.teleportExplodes {
        count := DestroyPipesInRadius(player.x, player.y, Max(player.r, 1.0));
      }
    }

    method UseSlowField() returns (count: nat)
      requires Books()
      modifies this`slowField, this`cds, this`pipes, this`stats, this`perfectCombo, this`gapMeta, this`gapLog,
               this`broken
      ensures Books() && perfectCombo == old(perfectCombo)
      ensures cds == old(cds).(slowField := CooldownOf(cfg, SlowField))
      ensures slowField == FieldOf(cfg, player)
      ensures pipes == AfterBlast(old(pipes), BlastOf(cfg, SlowField, player))
      ensures |pipes| + count == |old(pipes)| && stats == WithBlast(old(stats), count)
    {
      hide Books, Kept, Clamp;
      count := 0;
      cds := cds.(slowField := CooldownOf(cfg, SlowField));
      if cfg.slowExplodes {
        slowField := None;
        count := DestroyPipesInRadius(player.x, player.y, Clamp(cfg.blastRadius, 20.0, 900.0));
      } else {
        slowField := Some(Field(player.x, player.y, Clamp(cfg.slowRadius, 40.0, 900.0),
                                Clamp(cfg.slowFactor, 0.10, 1.0), Clamp(cfg.slowDuration, 0.0, 8.0)));
      }
    }

    method RecordSkill(skill: Skill)
      requires Ledger() && Conserved()
      modifies this`stats
      ensures Ledger() && Conserved() && stats == WithSkill(old(stats), skill)
    {
      hide Balanced, StreaksOf, Censused;
      BalancedAnyway(cfg.scoring, score, stats, combo, perfectCombo, orbStreaks, StreaksOf(gapLog),
                     stats.brokenPipes, stats.maxBrokenPipesInExplosion, skill);
      CensusAnyway(pipes, stats, WithSkill(stats, skill), dodged, broken, dropped, nextPipeId);
      stats := stats.(abilitiesUsed := stats.abilitiesUsed + 1);
      stats := stats.(skillUsage := stats.skillUsage.Set(skill, stats.skillUsage.Get(skill) + 1));
    }

    /** `_useSkill`: a skill that is still cooling does nothing; one that is used is counted and has to cool. */
    method UseSkill(skill: Skill, cursor: Option<(real, real)>) returns (used: bool, count: nat)
      requires Books() && Sporting()
      modifies this`player, this`cds, this`slowField, this`pipes, this`stats, this`perfectCombo, this`gapMeta,
               this`gapLog, this`broken
      ensures Books() && Sporting() && perfectCombo == old(perfectCombo)
      ensures used <==> old(cds).Get(skill) <= 0.0 && (skill == Teleport ==> cursor.Some?)
      ensures !used ==> unchanged(this)
      ensures used ==>
        && cds == old(cds).Set(skill, CooldownOf(cfg, skill))
        && pipes == AfterBlast(old(pipes), BlastOf(cfg, skill, player))
        && |pipes| + count == |old(pipes)|
        && stats == WithSkill(WithBlast(old(stats), count), skill)
    {
      hide Ledger, Conserved, Told, Counted, Sporting, CooldownOf, AfterBlast, WithBlast, WithSkill, Dashing, Bounded;
      used, count := false, 0;
      if cds.Get(skill) > 0.0 {
        return;
      }
      used := true;
      NoBlast(pipes, stats, cfg, skill, player);
      match skill {
        case Dash => UseDash();
        case Phase => UsePhase();
        case Teleport => used, count := UseTeleport(cursor);
        case SlowField => count := UseSlowField();
      }
      if used {
        RecordSkill(skill);
      }
    }

    method HandleAction(skill: Skill, cursor: Option<(real, real)>) returns (used: bool, count: nat)
      requires Sound()
      modifies this
      ensures Sound() && mode == old(mode) && score == old(score) && combo == old(combo)
        && perfectCombo == old(perfectCombo)
      ensures timeAlive == old(timeAlive) && introTimeOffset == old(introTimeOffset)
      ensures used <==> old(mode) == Playing && old(cds).Get(skill) <= 0.0 && (skill == Teleport ==> cursor.Some?)
      ensures !used ==> unchanged(this)
      ensures used ==>
        && cds == old(cds).Set(skill, CooldownOf(cfg, skill))
        && pipes == AfterBlast(old(pipes), BlastOf(cfg, skill, player))
        && stats == WithSkill(WithBlast(old(stats), count), skill)
    {
      hide Books, ComboTimed, Scheduled, Steady, Sporting, Playable, CooldownOf, AfterBlast, WithBlast, WithSkill,
        BlastOf;
      used, count := false, 0;
      if mode == Playing {
        used, count := UseSkill(skill, cursor);
      }
    }

    // -----------------------------------------------------------------
    // Whole sessions.
    // -----------------------------------------------------------------

    /** Whatever is done to a game, its books are in order whenever it is not in the menu. */
    method Session(inputs: seq<Input>)
      requires Sound() && forall i :: 0 <= i < |inputs| && inputs[i].Tick? ==> inputs[i].dt > 0.0
      modifies this
      ensures Sound()
    {
      hide Valid, Playable;
      var i := 0;
      while i < |inputs|
        invariant i <= |inputs| && Sound()
      {
        match inputs[i] {
          case Start => StartRun();
          case ToMenu => SetStateMenu();
          case Act(skill, cursor) => var _, _ := HandleAction(skill, cursor);
          case Tick(dt, vel) => ghost var _ := Update(dt, vel);
          case Picture => Render();
        }
        i := i + 1;
      }
    }
  }

  // -------------------------------------------------------------------
  // What every reachable state of a run amounts to.
  // -------------------------------------------------------------------

  /**
   With whole settings the score is the combo sums of the orb streaks, the bonus times the triangular numbers of
   the perfect streaks, and the price of a pipe for each one dodged; the buckets say the same,
     item by item. A price that is
   not whole is rounded down, a negative one is 0.
   */
  lemma ScoreLaw(g: Game, base: nat, step: nat, bonus: nat, price: nat)
    requires g.Ledger()
    requires g.cfg.scoring.orbBase == base as real && g.cfg.scoring.orbComboBonus == step as real
    requires g.cfg.scoring.perfectBonus == bonus as real
    ensures g.stats.orbs == Bucket(ComboSum(base, step, g.orbStreaks), g.stats.orbsCollected)
    ensures g.stats.perfects == Bucket(bonus * SumTriangles(StreaksOf(g.gapLog)), g.stats.perfectsMade)
    ensures g.stats.pipes == Bucket(g.stats.pipesDodged * PipePoints(g.cfg.scoring), g.stats.pipesDodged)
    ensures g.score == ComboSum(base, step, g.orbStreaks) + bonus * SumTriangles(StreaksOf(g.gapLog))
                       + g.stats.pipesDodged * PipePoints(g.cfg.scoring)
    ensures g.cfg.scoring.pipeDodge == price as real ==>
      && g.stats.pipes == Bucket(g.stats.pipesDodged * price, g.stats.pipesDodged)
      && g.score == ComboSum(base, step, g.orbStreaks) + bonus * SumTriangles(StreaksOf(g.gapLog))
                    + g.stats.pipesDodged * price
    ensures g.cfg.scoring.pipeDodge < 0.0 ==> g.stats.pipes == Bucket(0, g.stats.pipesDodged)
    ensures g.cfg.scoring.pipeDodge >= 0.0 ==>
      var paid := PipePoints(g.cfg.scoring); paid as real <= g.cfg.scoring.pipeDodge < paid as real + 1.0
  {
    PipePriceIs(g.cfg.scoring, price);
    OrbPointsAreComboSums(g.cfg.scoring, base, step, g.orbStreaks);
    PerfectPointsAreTriangular(g.cfg.scoring, bonus, StreaksOf(g.gapLog));
    hide OrbRule, PerfectRule, ComboSum, SumTriangles, PipePoints, StreaksOf;
  }

  /**
   What is on the field after the spawns of a tick: the newest of the pipes that were there, untouched and in order,
     then
   new ones numbered on; every gate and entry that was there, and new ones for new gaps.
   */
  lemma SpawnsOnlyAdd(g: Game, scene: Scene, before: Stock, regular: seq<Plan>, special: seq<Plan>)
    requires g.SceneOf(scene, before, regular, special)
    ensures var after := Stock(scene.pipes, g.nextPipeId, scene.gates, scene.gapMeta, g.nextGapId);
            Joined(before, after) && Walled(before, after)
  {
    PlansOnlyAdd(g.RoomHere(), before, g.PlansSince(regular, special));
    hide WithPlans, Joined, Walled;
  }

  /** With the books cleared, as in the menu, the ledger balances exactly if there is no score left over. */
  lemma MenuLedgerIff(g: Game)
    requires g.CleanBooks()
    ensures g.Ledger() <==> g.score == 0
  {
    hide Balanced, NoStats, StreaksOf;
    if g.score == 0 {
      EmptyLedger(g.cfg.scoring, g.orbStreaks, g.gapLog);
    }
    if g.Ledger() {
      NothingScored(g.cfg.scoring, g.score, g.stats, g.combo, g.perfectCombo, g.orbStreaks, StreaksOf(g.gapLog));
    }
  }

  /** No pipe is lost and none is counted twice. */
  lemma PipeLaw(g: Game)
    requires g.Conserved()
    ensures |g.pipes| + g.stats.pipesDodged + g.stats.brokenPipes + |g.dropped| == g.nextPipeId
    ensures forall k: nat :: k in g.dodged ==> k !in g.broken && k !in g.dropped
    ensures forall k: nat :: k in g.broken ==> k !in g.dropped
    ensures forall i :: 0 <= i < |g.pipes| ==>
              g.pipes[i].id !in g.dodged && g.pipes[i].id !in g.broken && g.pipes[i].id !in g.dropped
    ensures g.stats.maxBrokenPipesInExplosion <= g.stats.brokenPipes
  {
    CountsAddUp(g.pipes, g.dodged, g.broken, g.dropped, g.nextPipeId);
    OneFateEach(g.pipes, g.dodged, g.broken, g.dropped, g.nextPipeId);
    hide Accounted;
  }

  /**
   A gap ends the perfect streak at most once, and never once it was perfected or one of its pipes was broken; it is
   awarded at most once; and when its entry goes, the streak ends exactly if it was neither perfected nor broken.
   */
  lemma GapLaw(g: Game, i: nat, j: nat)
    requires g.Told() && i < j < |g.gapLog| && g.gapLog[i].gap == g.gapLog[j].gap
    ensures !g.gapLog[i].Opened? ==> g.gapLog[j] != Closed(g.gapLog[i].gap, true)
    ensures g.gapLog[i].Perfected? ==> g.gapLog[j] != g.gapLog[i]
    ensures g.gapLog[j].Closed? ==>
      (g.gapLog[j].reset <==>
         forall k :: 0 <= k < j ==> g.gapLog[k] != Perfected(g.gapLog[j].gap) && g.gapLog[k] != Broken(g.gapLog[j].gap))
  {
    if !g.gapLog[i].Opened? {
      ResetOnceAndNeverAfter(g.gapLog, i, j);
    }
    if g.gapLog[i].Perfected? {
      AwardedOnce(g.gapLog, i, j);
    }
    if g.gapLog[j].Closed? {
      ResetIffMissed(g.gapLog, j);
    }
    hide WellTold, Mirrors, GatesMatch;
  }

  /**
   After `T` seconds the number `n` of regular spawns satisfies  T / max < n <= T / min + 1,  whatever the ticks
   were.
   */
  lemma SpawnLaw(g: Game)
    requires Playable(g.cfg) && g.Scheduled() && g.timeAlive > 0.0
    ensures var n := |g.regularSpawns|;
            && g.timeAlive < n as real * g.cfg.spawnInterval.max
            && n as real * g.cfg.spawnInterval.min <= g.timeAlive + g.cfg.spawnInterval.min
  {
    SpawnCountBounds(g.intervals, g.timeAlive, g.pipeT, g.cfg.spawnInterval.min, g.cfg.spawnInterval.max);
    hide Outstanding, Pending, NoSurprise, Within, Paced;
  }

  /**
   While no offset has been noted in a game with an intro: every interval is the clamped first setting `t`,
     and the number
   `n` of regular spawns after `T` seconds is exactly the one with  (n - 1) t <= T < n t.
   */
  lemma IntroLaw(g: Game)
    requires g.Valid() && g.cfg.introScore > 0.0 && g.introTimeOffset == None
    ensures var t := WithinRamp(g.cfg.spawnInterval.start, g.cfg.spawnInterval);
            && (forall i :: 0 <= i < |g.intervals| ==> g.intervals[i] == t)
            && (g.timeAlive > 0.0 ==>
                  var n := |g.regularSpawns|;
                  n > 0 && (n - 1) as real * t <= g.timeAlive < n as real * t)
  {
    var t := WithinRamp(g.cfg.spawnInterval.start, g.cfg.spawnInterval);
    hide Outstanding, Pending, NoSurprise, Paced, WithinRamp;
    if g.timeAlive > 0.0 {
      RampInBounds(g.cfg);
      SteadyCount(g.intervals, g.timeAlive, g.pipeT, t);
    }
  }

  lemma SteadyCount(intervals: seq<real>, now: real, timer: real, t: real)
    requires t > 0.0 && (forall i :: 0 <= i < |intervals| ==> intervals[i] == t)
    requires Paced(intervals, now, timer) && timer > 0.0 && intervals != []
    ensures (|intervals| - 1) as real * t <= now < |intervals| as real * t
  {
    assert Within(intervals, t, t);
    SpawnCountBounds(intervals, now, timer, t, t);
    OneLess(|intervals|, t);
    hide Paced;
  }

  lemma RampInBounds(cfg: Config)
    requires Playable(cfg)
    ensures WithinRamp(cfg.spawnInterval.start, cfg.spawnInterval) > 0.0
  {
  }

  lemma OneLess(n: nat, t: real)
    ensures (n - 1) as real * t == n as real * t - t
  {
    assert (n - 1) as real == n as real - 1.0;
  }

  /**
   With warnings on, every regular spawn carried out was the plan announced in its turn, and at the first tick whose
   time had reached the announced moment; a plan still pending is announced for the moment its timer runs out.
   */
  lemma PromiseLaw(g: Game, i: nat)
    requires g.Scheduled() && g.cfg.leadSeconds > 0.0
    ensures |g.regularSpawns| == |g.pipeDeliveries| <= |g.pipePromises| <= |g.regularSpawns| + 1
    ensures i < |g.regularSpawns| ==>
      && g.regularSpawns[i] == g.pipePromises[i].plan
      && g.pipeDeliveries[i].before < g.pipePromises[i].spawnAt <= g.pipeDeliveries[i].at
    ensures g.pendingPipe.Some? ==>
      && g.pipePromises != []
      && g.pipePromises[|g.pipePromises| - 1] == Promise(g.pendingPipe.value, g.timeAlive + g.pipeT)
  {
    PlansAt(g.pipeDeliveries);
    hide PlansOf, Pending, Within, Paced;
  }
}
