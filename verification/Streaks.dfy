/**
 The points a run earns by streaks: orbs picked up in a combo and perfect gaps
 in a row (public/js/mechanics.js, public/js/perfectGaps.js). A run is summarised
 by the lengths of its streaks, the last one being the streak still going.
 */
module Streaks {
  import opened JsNumbers

  /** The scoring part of the configuration. */
  datatype Scoring = Scoring(orbBase: real, orbComboBonus: real, pipeDodge: real, perfectBonus: real)

  /** A number of points as `_addScore` books it: floored and never negative. */
  function Booked(points: real): nat {
    if points < 0.0 then 0 else points.Floor
  }

  /** Points of the orb that brings the combo to `n`; `Math.round` rounds halves up. */
  function OrbPoints(cfg: Scoring, n: nat): nat {
    var steps := if n > 0 then n - 1 else 0;
    (Max(0.0, cfg.orbBase) + Max(0.0, cfg.orbComboBonus) * steps as real + 0.5).Floor
  }

  /** Points of the perfect that brings the streak to `n`. */
  function PerfectPoints(cfg: Scoring, n: nat): nat {
    Booked(Max(0.0, cfg.perfectBonus) * n as real)
  }

  function PipePoints(cfg: Scoring): nat {
    Booked(Max(0.0, cfg.pipeDodge))
  }

  /** A whole price is paid as it is, any other positive one rounded down, and a negative one not at all. */
  lemma PipePriceIs(cfg: Scoring, price: nat)
    ensures cfg.pipeDodge == price as real ==> PipePoints(cfg) == price
    ensures cfg.pipeDodge >= 0.0 ==> PipePoints(cfg) as real <= cfg.pipeDodge < PipePoints(cfg) as real + 1.0
    ensures cfg.pipeDodge < 0.0 ==> PipePoints(cfg) == 0
  {
  }

  /** An orb pays the base and the bonus for every orb before it in the combo, rounded to the nearest, halves up. */
  lemma OrbPointsAreRounded(cfg: Scoring, n: nat, exact: real)
    requires n > 0 && cfg.orbBase >= 0.0 && cfg.orbComboBonus >= 0.0
    requires exact == cfg.orbBase + cfg.orbComboBonus * (n - 1) as real
    ensures OrbPoints(cfg, n) as real - 0.5 <= exact < OrbPoints(cfg, n) as real + 0.5
  {
  }

  /** The perfect that brings the streak to `n` pays `n` times the bonus, rounded down. */
  lemma PerfectPointsAreFloored(cfg: Scoring, n: nat, exact: real)
    requires cfg.perfectBonus >= 0.0 && exact == cfg.perfectBonus * n as real
    ensures PerfectPoints(cfg, n) as real <= exact < PerfectPoints(cfg, n) as real + 1.0
    ensures cfg.perfectBonus == 0.0 ==> PerfectPoints(cfg, n) == 0
  {
    NonNegativeProduct(cfg.perfectBonus, n as real);
  }

  function OrbRule(cfg: Scoring): nat -> nat {
    (n: nat) => OrbPoints(cfg, n)
  }

  function PerfectRule(cfg: Scoring): nat -> nat {
    (n: nat) => PerfectPoints(cfg, n)
  }

  /** What a streak of length `n` has earned in all: `rule(1) + ... + rule(n)`. */
  function StreakPoints(rule: nat -> nat, n: nat): nat {
    if n == 0 then 0 else StreakPoints(rule, n - 1) + rule(n)
  }

  function AllPoints(rule: nat -> nat, streaks: seq<nat>): nat {
    if streaks == [] then 0 else AllPoints(rule, streaks[..|streaks| - 1]) + StreakPoints(rule, streaks[|streaks| - 1])
  }

  function Sum(streaks: seq<nat>): nat {
    if streaks == [] then 0 else Sum(streaks[..|streaks| - 1]) + streaks[|streaks| - 1]
  }

  function Longest(streaks: seq<nat>): nat {
    if streaks == [] then 0
    else
      var rest := Longest(streaks[..|streaks| - 1]);
      if streaks[|streaks| - 1] > rest then streaks[|streaks| - 1] else rest
  }

  function Current(streaks: seq<nat>): nat
    requires streaks != []
  {
    streaks[|streaks| - 1]
  }

  /** The streak still going grows by one. */
  function Extended(streaks: seq<nat>): seq<nat>
    requires streaks != []
  {
    streaks[..|streaks| - 1] + [Current(streaks) + 1]
  }

  lemma FirstBooks(rule: nat -> nat, s: seq<nat>)
    requires s == [0]
    ensures Current(s) == 0 && AllPoints(rule, s) == 0 && Sum(s) == 0 && Longest(s) == 0
  {
    assert s[..0] == [];
  }

  lemma ExtendedBooks(rule: nat -> nat, streaks: seq<nat>)
    requires streaks != []
    ensures var s := Extended(streaks);
            && s != [] && Current(s) == Current(streaks) + 1
            && AllPoints(rule, s) == AllPoints(rule, streaks) + rule(Current(streaks) + 1)
            && Sum(s) == Sum(streaks) + 1
            && Longest(s) == (if Current(s) > Longest(streaks) then Current(s) else Longest(streaks))
  {
    var s := Extended(streaks);
    assert s[..|s| - 1] == streaks[..|streaks| - 1];
  }

  lemma BrokenBooks(rule: nat -> nat, streaks: seq<nat>)
    ensures var s := streaks + [0];
            && Current(s) == 0
            && AllPoints(rule, s) == AllPoints(rule, streaks)
            && Sum(s) == Sum(streaks)
            && Longest(s) == Longest(streaks)
  {
    assert (streaks + [0])[..|streaks|] == streaks;
  }

  // Closed forms for whole-number settings.

  function Triangle(n: nat): nat {
    n * (n + 1) / 2
  }

  function SumTriangles(streaks: seq<nat>): nat {
    if streaks == [] then 0 else SumTriangles(streaks[..|streaks| - 1]) + Triangle(streaks[|streaks| - 1])
  }

  lemma TriangleGrows(n: nat)
    ensures Triangle(n + 1) == Triangle(n) + n + 1
  {
    assert (n + 1) * (n + 2) == n * (n + 1) + 2 * (n + 1);
  }

  lemma Distribute(a: nat, x: nat, y: nat)
    ensures a * (x + y) == a * x + a * y
  {
  }

  lemma WholeProduct(a: nat, n: nat)
    ensures a as real * n as real == (a * n) as real
  {
  }

  lemma WholePerfect(cfg: Scoring, bonus: nat, n: nat)
    requires cfg.perfectBonus == bonus as real
    ensures PerfectPoints(cfg, n) == bonus * n
  {
    WholeProduct(bonus, n);
  }

  lemma {:induction false} PerfectStreakPoints(cfg: Scoring, bonus: nat, n: nat)
    requires cfg.perfectBonus == bonus as real
    ensures StreakPoints(PerfectRule(cfg), n) == bonus * Triangle(n)
  {
    if n > 0 {
      PerfectStreakPoints(cfg, bonus, n - 1);
      WholePerfect(cfg, bonus, n);
      TriangleGrows(n - 1);
      Distribute(bonus, Triangle(n - 1), n);
    }
  }

  /** With a whole bonus, perfects earn the bonus times the triangular numbers of the streak lengths. */
  lemma {:induction false} PerfectPointsAreTriangular(cfg: Scoring, bonus: nat, streaks: seq<nat>)
    requires cfg.perfectBonus == bonus as real
    ensures AllPoints(PerfectRule(cfg), streaks) == bonus * SumTriangles(streaks)
  {
    if streaks != [] {
      var front, n := streaks[..|streaks| - 1], streaks[|streaks| - 1];
      PerfectPointsAreTriangular(cfg, bonus, front);
      PerfectStreakPoints(cfg, bonus, n);
      Distribute(bonus, SumTriangles(front), Triangle(n));
    }
  }

  lemma WholeOrb(cfg: Scoring, base: nat, bonus: nat, n: nat)
    requires cfg.orbBase == base as real && cfg.orbComboBonus == bonus as real
    ensures OrbPoints(cfg, n + 1) == base + bonus * n
  {
    WholeProduct(bonus, n);
  }

  /** What a combo of length `n` earns: the base for every orb, the bonus for every earlier orb. */
  function ComboPoints(base: nat, bonus: nat, n: nat): nat {
    base * n + (if n == 0 then 0 else bonus * Triangle(n - 1))
  }

  lemma ComboGrows(base: nat, bonus: nat, n: nat)
    ensures ComboPoints(base, bonus, n + 1) == ComboPoints(base, bonus, n) + base + bonus * n
  {
    Distribute(base, n, 1);
    if n > 0 {
      TriangleGrows(n - 1);
      Distribute(bonus, Triangle(n - 1), n);
    }
  }

  lemma {:induction false} OrbStreakPoints(cfg: Scoring, base: nat, bonus: nat, n: nat)
    requires cfg.orbBase == base as real && cfg.orbComboBonus == bonus as real
    ensures StreakPoints(OrbRule(cfg), n) == ComboPoints(base, bonus, n)
  {
    if n > 0 {
      OrbStreakPoints(cfg, base, bonus, n - 1);
      WholeOrb(cfg, base, bonus, n - 1);
      ComboGrows(base, bonus, n - 1);
    }
  }

  function ComboSum(base: nat, bonus: nat, streaks: seq<nat>): nat {
    if streaks == [] then 0
    else ComboSum(base, bonus, streaks[..|streaks| - 1]) + ComboPoints(base, bonus, streaks[|streaks| - 1])
  }

  /** With whole settings, orbs earn the combo sums of the combo lengths. */
  lemma {:induction false} OrbPointsAreComboSums(cfg: Scoring, base: nat, bonus: nat, streaks: seq<nat>)
    requires cfg.orbBase == base as real && cfg.orbComboBonus == bonus as real
    ensures AllPoints(OrbRule(cfg), streaks) == ComboSum(base, bonus, streaks)
  {
    if streaks != [] {
      OrbPointsAreComboSums(cfg, base, bonus, streaks[..|streaks| - 1]);
      OrbStreakPoints(cfg, base, bonus, streaks[|streaks| - 1]);
    }
  }
}
