/**
 Achievement evaluation (public/js/achievements.js): one finished run is added
 to the stored progress, every definition is checked, and a percentage is kept
 for definitions with several per-run requirements.
 */
module Achievements {
  import opened Options
  import opened JsNumbers
  import opened Skills

  const CAP := 1_000_000_000

  /** A statistic as it arrives: absent, null, a number that is not finite, or a number. */
  datatype Num = Undefined | Null | NotFinite | Fin(v: real)

  predicate Given(n: Num) {
    n.NotFinite? || n.Fin?
  }

  function AtMost(n: nat): (r: nat)
    ensures r <= CAP
  {
    if n > CAP then CAP else n
  }

  function ClampScore(n: Num): (r: nat)
    ensures r <= CAP
  {
    if n.Fin? && n.v >= 0.0 then AtMost(n.v.Floor) else 0
  }

  function ClampPercent(p: real): real {
    if p < 0.0 then 0.0 else if p > 1.0 then 1.0 else p
  }

  /** A percentage is brought to the nearest one there is: no other is closer. */
  lemma ClampedIsNearest(p: real, q: real)
    requires 0.0 <= q <= 1.0
    ensures 0.0 <= ClampPercent(p) <= 1.0
    ensures Abs(ClampPercent(p) - p) <= Abs(q - p)
  {
  }

  datatype RunKey =
    | MinScore | MaxOrbs | MaxAbilities | MinOrbs | MinPerfects | MinPipesDodged
    | MinOrbCombo | MinPerfectCombo | MinRunTime | MinBrokenPipesInExplosion | MinBrokenPipesInRun

  datatype TotalKey =
    | TotalScore | TotalRuns | TotalOrbs | TotalPerfects | TotalPipesDodged | TotalRunTime | TotalBrokenPipes

  /** The order of the requirement table. */
  const RUN_KEYS: seq<RunKey> :=
    [MinScore, MaxOrbs, MaxAbilities, MinOrbs, MinPerfects, MinPipesDodged,
     MinOrbCombo, MinPerfectCombo, MinRunTime, MinBrokenPipesInExplosion, MinBrokenPipesInRun]

  datatype Requirement = Requirement(
    run: map<RunKey, real>,
    totals: map<TotalKey, real>,
    skills: Option<PerSkill<real>>)

  datatype Definition = Definition(id: string, requirement: Requirement)

  /** One finished run. `stats` has the statistic each per-run requirement looks at. */
  datatype Run = Run(score: Num, stats: map<RunKey, Num>, skillUsage: Option<PerSkill<Num>>, now: real)

  datatype Totals = Totals(
    score: nat, runs: nat, orbs: nat, perfects: nat, pipesDodged: nat, runTime: nat, brokenPipes: nat)

  datatype Progress = Progress(
    bestScore: nat,
    totals: Totals,
    skills: PerSkill<nat>,
    bestRun: map<string, real>)

  datatype State = State(unlocked: map<string, real>, progress: Progress)

  /** Figures the caller may supply in place of the stored ones. */
  datatype Supplied = Supplied(bestScore: Option<nat>, totalScore: Option<nat>, totalRuns: Option<nat>)

  const NOTHING_SUPPLIED := Supplied(None, None, None)

  // ---- the run's statistics ----

  function Stat(run: Run, k: RunKey): Num {
    match k
    case MinScore => run.score
    case MaxOrbs => if MinOrbs in run.stats then run.stats[MinOrbs] else Undefined
    case _ => if k in run.stats then run.stats[k] else Undefined
  }

  function Value(run: Run, k: RunKey): nat {
    ClampScore(Stat(run, k))
  }

  predicate HasValue(run: Run, k: RunKey) {
    k == MinScore || Given(Stat(run, k))
  }

  /** What a run adds to each total; a statistic that is not given adds nothing. */
  function Gain(run: Run, k: TotalKey): nat {
    match k
    case TotalScore => Value(run, MinScore)
    case TotalRuns => 1
    case TotalOrbs => Value(run, MinOrbs)
    case TotalPerfects => Value(run, MinPerfects)
    case TotalPipesDodged => Value(run, MinPipesDodged)
    case TotalRunTime => Value(run, MinRunTime)
    case TotalBrokenPipes => Value(run, MinBrokenPipesInRun)
  }

  /** A figure counts rounded down and up to the cap; what is missing, negative or not finite counts nothing. */
  lemma FigureIs(n: Num)
    ensures n.Fin? && 0.0 <= n.v <= CAP as real ==> ClampScore(n) as real <= n.v < ClampScore(n) as real + 1.0
    ensures n.Fin? && n.v > CAP as real ==> ClampScore(n) == CAP
    ensures (n.Fin? && n.v < 0.0) || !n.Fin? ==> ClampScore(n) == 0
  {
  }

  /** Which statistic feeds which total, and that a run counts as one. */
  lemma GainIs(run: Run, n: Num)
    ensures run.score == n ==> Gain(run, TotalScore) == ClampScore(n)
    ensures Gain(run, TotalRuns) == 1
    ensures MinOrbs in run.stats && run.stats[MinOrbs] == n ==> Gain(run, TotalOrbs) == ClampScore(n)
    ensures MinPerfects in run.stats && run.stats[MinPerfects] == n ==> Gain(run, TotalPerfects) == ClampScore(n)
    ensures MinPipesDodged in run.stats && run.stats[MinPipesDodged] == n ==>
              Gain(run, TotalPipesDodged) == ClampScore(n)
    ensures MinRunTime in run.stats && run.stats[MinRunTime] == n ==> Gain(run, TotalRunTime) == ClampScore(n)
    ensures MinBrokenPipesInRun in run.stats && run.stats[MinBrokenPipesInRun] == n ==>
              Gain(run, TotalBrokenPipes) == ClampScore(n)
    ensures run.stats == map[] ==>
      && Gain(run, TotalOrbs) == Gain(run, TotalPerfects) == Gain(run, TotalPipesDodged) == 0
      && Gain(run, TotalRunTime) == Gain(run, TotalBrokenPipes) == 0
  {
  }

  // ---- stored state ----

  function TotalOf(t: Totals, k: TotalKey): nat {
    match k
    case TotalScore => t.score
    case TotalRuns => t.runs
    case TotalOrbs => t.orbs
    case TotalPerfects => t.perfects
    case TotalPipesDodged => t.pipesDodged
    case TotalRunTime => t.runTime
    case TotalBrokenPipes => t.brokenPipes
  }

  function Total(p: Progress, k: TotalKey): nat {
    TotalOf(p.totals, k)
  }

  /** Every total computed by one rule. */
  function EachTotal(rule: TotalKey -> nat): Totals {
    Totals(rule(TotalScore), rule(TotalRuns), rule(TotalOrbs), rule(TotalPerfects),
           rule(TotalPipesDodged), rule(TotalRunTime), rule(TotalBrokenPipes))
  }

  lemma EachTotalFollows(rule: TotalKey -> nat, k: TotalKey)
    ensures TotalOf(EachTotal(rule), k) == rule(k)
  {
  }

  function Percent(p: Progress, id: string): real {
    if id in p.bestRun then ClampPercent(p.bestRun[id]) else 0.0
  }

  /** The test `state.unlocked[id]`: present and not zero. */
  predicate Unlocked(s: State, id: string) {
    id in s.unlocked && s.unlocked[id] != 0.0
  }

  function CapSkills(s: PerSkill<nat>): PerSkill<nat> {
    PerSkill(AtMost(s.dash), AtMost(s.phase), AtMost(s.teleport), AtMost(s.slowField))
  }

  function NormalizeProgress(p: Progress): Progress {
    Progress(
      AtMost(p.bestScore),
      EachTotal(k => AtMost(Total(p, k))),
      CapSkills(p.skills),
      map id | id in p.bestRun :: ClampPercent(p.bestRun[id]))
  }

  /** `normalizeAchievementState`: timestamps are floored, and only positive ones survive. */
  function Normalize(s: State): State {
    State(map id | id in s.unlocked && s.unlocked[id] > 0.0 :: s.unlocked[id].Floor as real,
          NormalizeProgress(s.progress))
  }

  function AddSkills(s: PerSkill<nat>, use: Option<PerSkill<Num>>): PerSkill<nat> {
    match use
    case None => s
    case Some(u) => PerSkill(
      AtMost(s.dash + ClampScore(u.dash)), AtMost(s.phase + ClampScore(u.phase)),
      AtMost(s.teleport + ClampScore(u.teleport)), AtMost(s.slowField + ClampScore(u.slowField)))
  }

  /** The stored figure a total starts from. */
  function Base(p: Progress, given: Supplied, k: TotalKey): nat {
    if k == TotalScore && given.totalScore.Some? then AtMost(given.totalScore.value)
    else if k == TotalRuns && given.totalRuns.Some? then AtMost(given.totalRuns.value)
    else Total(p, k)
  }

  /** The progress after a run, before the definitions are looked at. */
  function AddRun(p: Progress, run: Run, given: Supplied): Progress {
    var supplied := if given.bestScore.Some? then AtMost(given.bestScore.value) else 0;
    Progress(
      Larger(Larger(Value(run, MinScore), supplied), p.bestScore),
      EachTotal(k => AtMost(Base(p, given, k) + Gain(run, k))),
      AddSkills(p.skills, run.skillUsage),
      p.bestRun)
  }

  /** The stored figures after a run, field by field. */
  lemma AddRunIs(p: Progress, run: Run)
    ensures var q := AddRun(p, run, NOTHING_SUPPLIED);
            && q.totals.score == AtMost(p.totals.score + Gain(run, TotalScore))
            && q.totals.runs == AtMost(p.totals.runs + 1)
            && q.totals.orbs == AtMost(p.totals.orbs + Gain(run, TotalOrbs))
            && q.totals.perfects == AtMost(p.totals.perfects + Gain(run, TotalPerfects))
            && q.totals.pipesDodged == AtMost(p.totals.pipesDodged + Gain(run, TotalPipesDodged))
            && q.totals.runTime == AtMost(p.totals.runTime + Gain(run, TotalRunTime))
            && q.totals.brokenPipes == AtMost(p.totals.brokenPipes + Gain(run, TotalBrokenPipes))
            && q.bestScore == (if ClampScore(run.score) > p.bestScore then ClampScore(run.score) else p.bestScore)
            && q.bestRun == p.bestRun
  {
    hide ClampScore, AtMost, AddSkills;
  }

  /** Each skill's count grows by its own uses. */
  lemma SkillsAdd(have: PerSkill<nat>, use: PerSkill<Num>, skill: Skill)
    ensures AddSkills(have, Some(use)).Get(skill) == AtMost(have.Get(skill) + ClampScore(use.Get(skill)))
    ensures AddSkills(have, None) == have
  {
  }

  /** A figure the caller supplies takes the place of the stored total; a supplied best score competes with both. */
  lemma SuppliedCounts(p: Progress, run: Run, best: nat, score: nat, runs: nat)
    ensures var q := AddRun(p, run, Supplied(Some(best), Some(score), Some(runs)));
            && q.totals.score == AtMost(AtMost(score) + ClampScore(run.score))
              && q.totals.runs == AtMost(AtMost(runs) + 1)
            && (q.bestScore == p.bestScore || q.bestScore == AtMost(best) || q.bestScore == ClampScore(run.score))
            && q.bestScore >= p.bestScore && q.bestScore >= AtMost(best) && q.bestScore >= ClampScore(run.score)
  {
  }

  // ---- the boolean checks ----

  predicate IsMax(k: RunKey) {
    k == MaxOrbs || k == MaxAbilities
  }

  predicate IsBroken(k: RunKey) {
    k == MinBrokenPipesInExplosion || k == MinBrokenPipesInRun
  }

  /** One per-run check. The two broken-pipe checks test for null only, so they accept a missing statistic as 0. */
  predicate RunCheck(run: Run, k: RunKey, target: real) {
    if IsMax(k) then HasValue(run, k) && Value(run, k) as real <= target
    else if IsBroken(k) then Stat(run, k) != Null && Value(run, k) as real >= target
    else HasValue(run, k) && Value(run, k) as real >= target
  }

  /**
   What a check compares: a maximum with the figure of its kind, a minimum with its own, for figures that are
   given.
   */
  lemma CheckIs(run: Run, k: RunKey, target: real, n: nat)
    requires n <= CAP
    ensures k != MinScore && k != MaxOrbs && k != MaxAbilities && k in run.stats && run.stats[k] == Fin(n as real) ==>
              (RunCheck(run, k, target) <==> n as real >= target)
    ensures k == MinScore && run.score == Fin(n as real) ==> (RunCheck(run, k, target) <==> n as real >= target)
    ensures k == MaxOrbs && MinOrbs in run.stats && run.stats[MinOrbs] == Fin(n as real) ==>
              (RunCheck(run, k, target) <==> n as real <= target)
    ensures k == MaxAbilities && MaxAbilities in run.stats && run.stats[MaxAbilities] == Fin(n as real) ==>
              (RunCheck(run, k, target) <==> n as real <= target)
  {
  }

  /** A missing statistic fails every check but those of broken pipes, which take it for 0; null fails those too. */
  lemma CheckOfMissing(run: Run, k: RunKey, target: real)
    ensures k != MinScore && Stat(run, k) == Undefined ==>
      (RunCheck(run, k, target) <==>
         (k == MinBrokenPipesInExplosion || k == MinBrokenPipesInRun) && target <= 0.0)
    ensures k != MinScore && Stat(run, k) == Null ==> !RunCheck(run, k, target)
  {
  }

  predicate ScoreOnly(req: Requirement) {
    req.run.Keys <= {MinScore} && req.totals == map[] && req.skills.None?
  }

  predicate MeetsScore(req: Requirement, p: Progress, run: Run) {
    var minScore := if MinScore in req.run then req.run[MinScore] else 0.0;
    (if ScoreOnly(req) then p.bestScore else Value(run, MinScore)) as real >= minScore
  }

  predicate SkillsMet(need: Option<PerSkill<real>>, have: PerSkill<nat>) {
    match need
    case None => true
    case Some(n) =>
      && (n.dash <= 0.0 || have.dash as real >= n.dash)
      && (n.phase <= 0.0 || have.phase as real >= n.phase)
      && (n.teleport <= 0.0 || have.teleport as real >= n.teleport)
      && (n.slowField <= 0.0 || have.slowField as real >= n.slowField)
  }

  /** The conjunction of all checks of a definition; `p` is the progress with the run added. */
  predicate Met(req: Requirement, p: Progress, run: Run) {
    && MeetsScore(req, p, run)
    && (forall k :: k in req.run && k != MinScore ==> RunCheck(run, k, req.run[k]))
    && (forall k :: k in req.totals ==> Total(p, k) as real >= req.totals[k])
    && SkillsMet(req.skills, p.skills)
  }

  // ---- the progress meter ----

  /** A ratio as a share of the whole. */
  function Share(a: real, b: real): real
    requires b != 0.0
  {
    ClampPercent(a / b)
  }

  /** How far a run got with one requirement. */
  function EntryPercent(run: Run, k: RunKey, target: real): real {
    if !HasValue(run, k) then 0.0
    else
      var value := Value(run, k) as real;
      if IsMax(k) then
        if target <= 0.0 then (if value <= target then 1.0 else 0.0)
        else if value <= target then 1.0
        else Share(target, value)
      else if target <= 0.0 then 1.0
      else Share(value, target)
  }

  /**
   A minimum is shown as the share reached, a maximum as the share kept to; a target that is no target is all or
   nothing.
   */
  lemma EntryIs(run: Run, k: RunKey, target: real)
    requires HasValue(run, k)
    ensures var value := Value(run, k) as real;
            var share := EntryPercent(run, k, target);
            && (k != MaxOrbs && k != MaxAbilities && target > 0.0 ==>
                  share * target == if value < target then value else target)
            && (k != MaxOrbs && k != MaxAbilities && target <= 0.0 ==> share == 1.0)
            && ((k == MaxOrbs || k == MaxAbilities) && value <= target ==> share == 1.0)
            && ((k == MaxOrbs || k == MaxAbilities) && 0.0 < target < value ==> share * value == target)
            && ((k == MaxOrbs || k == MaxAbilities) && target <= 0.0 && value > target ==> share == 0.0)
  {
    var value := Value(run, k) as real;
    if IsMax(k) && 0.0 < target < value {
      ShareIs(target, value);
    } else if !IsMax(k) && target > 0.0 {
      ShareIs(value, target);
    }
    hide Value, HasValue, Share;
  }

  lemma ShareIs(a: real, b: real)
    requires a >= 0.0 && b > 0.0
    ensures Share(a, b) * b == if a < b then a else b
  {
    QuotientAtMostOne(a, b);
    assert a / b * b == a;
  }

  function EntriesFrom(req: Requirement, keys: seq<RunKey>): seq<RunKey> {
    if keys == [] then []
    else (if keys[0] in req.run then [keys[0]] else []) + EntriesFrom(req, keys[1..])
  }

  /** The per-run requirements of a definition, in the table's order. */
  function Entries(req: Requirement): seq<RunKey> {
    EntriesFrom(req, RUN_KEYS)
  }

  function SumPercent(req: Requirement, run: Run, keys: seq<RunKey>): real
    requires forall k :: k in keys ==> k in req.run
  {
    if keys == [] then 0.0 else EntryPercent(run, keys[0], req.run[keys[0]]) + SumPercent(req, run, keys[1..])
  }

  lemma {:induction false} EntriesAreKeys(req: Requirement, keys: seq<RunKey>)
    ensures forall k :: k in EntriesFrom(req, keys) <==> k in keys && k in req.run
  {
    if keys != [] {
      EntriesAreKeys(req, keys[1..]);
    }
  }

  /** `computeRunRequirementPercent`: no meter below two per-run requirements. */
  function RunPercent(req: Requirement, run: Run): Option<real> {
    EntriesAreKeys(req, RUN_KEYS);
    var keys := Entries(req);
    if |keys| <= 1 then None
    else Some(Share(SumPercent(req, run, keys), |keys| as real))
  }

  /** The meter is the average of its entries. */
  lemma MeterIsAverage(req: Requirement, run: Run, percent: real, sum: real, n: real)
    requires |Entries(req)| >= 2 && forall k :: k in Entries(req) ==> k in req.run
    requires RunPercent(req, run) == Some(percent)
    requires sum == SumPercent(req, run, Entries(req)) && n == |Entries(req)| as real
    ensures percent * n == sum
  {
    SumIsFull(req, run, Entries(req));
    MeterValue(req, run, sum, n);
    AverageIs(percent, sum, n);
    hide RunPercent, SumPercent, Share, Entries;
  }

  lemma AverageIs(percent: real, sum: real, n: real)
    requires 0.0 <= sum <= n && n > 0.0 && percent == Share(sum, n)
    ensures percent * n == sum
  {
    ShareIs(sum, n);
    hide Share;
  }

  lemma MeterValue(req: Requirement, run: Run, sum: real, n: real)
    requires |Entries(req)| >= 2 && forall k :: k in Entries(req) ==> k in req.run
    requires sum == SumPercent(req, run, Entries(req)) && n == |Entries(req)| as real
    ensures RunPercent(req, run) == Some(Share(sum, n))
  {
    hide SumPercent, Share, Entries;
  }

  // ---- the evaluation ----

  /** One definition of the loop. */
  function CheckDefinition(s: State, run: Run, def: Definition): State {
    if Unlocked(s, def.id) then s
    else
      var pct := RunPercent(def.requirement, run);
      var bestRun :=
        if pct.Some? && pct.value > Percent(s.progress, def.id) then s.progress.bestRun[def.id := pct.value]
        else s.progress.bestRun;
      State(
        if Met(def.requirement, s.progress, run) then s.unlocked[def.id := run.now] else s.unlocked,
        s.progress.(bestRun := bestRun))
  }

  function CheckAll(s: State, run: Run, defs: seq<Definition>): State {
    if defs == [] then s else CheckDefinition(CheckAll(s, run, defs[..|defs| - 1]), run, defs[|defs| - 1])
  }

  function Added(s: State, run: Run, given: Supplied): State {
    var n := Normalize(s);
    n.(progress := AddRun(n.progress, run, given))
  }

  function Evaluate(s: State, run: Run, given: Supplied, defs: seq<Definition>): State {
    CheckAll(Added(s, run, given), run, defs)
  }

  /** The body of the definitions loop. */
  method CheckOne(s: State, run: Run, def: Definition) returns (state: State, newly: bool)
    ensures state == CheckDefinition(s, run, def)
    ensures newly <==> !Unlocked(s, def.id) && Met(def.requirement, s.progress, run)
  {
    if Unlocked(s, def.id) { return s, false; }
    var bestRun, unlocked := s.progress.bestRun, s.unlocked;
    var pct := RunPercent(def.requirement, run);
    if pct.Some? && pct.value > Percent(s.progress, def.id) {
      bestRun := bestRun[def.id := pct.value];
    }
    newly := Met(def.requirement, s.progress, run);
    if newly {
      unlocked := unlocked[def.id := run.now];
    }
    state := State(unlocked, s.progress.(bestRun := bestRun));
  }

  /** `ids` are the ids unlocked in `after` and not in `before`. */
  ghost predicate Lists(ids: seq<string>, before: State, after: State) {
    forall id :: id in ids <==> Unlocked(after, id) && !Unlocked(before, id)
  }

  lemma ListsGrow(ids: seq<string>, start: State, s: State, run: Run, def: Definition)
    requires Lists(ids, start, s) && run.now != 0.0
    requires forall id :: Unlocked(start, id) ==> Unlocked(s, id)
    ensures var s' := CheckDefinition(s, run, def);
            && (forall id :: Unlocked(start, id) ==> Unlocked(s', id))
            && Lists(if !Unlocked(s, def.id) && Met(def.requirement, s.progress, run) then ids + [def.id] else ids,
                     start, s')
  {
    OnlyNewlyUnlocks(s, run, def);
  }

  lemma CheckAllNext(s: State, run: Run, defs: seq<Definition>, i: nat)
    requires i < |defs|
    ensures CheckAll(s, run, defs[..i + 1]) == CheckDefinition(CheckAll(s, run, defs[..i]), run, defs[i])
  {
    assert defs[..i + 1][..i] == defs[..i];
  }

  /** `evaluateRunForAchievements`, with the list of what this run unlocked. */
  method EvaluateRunForAchievements(previous: State, run: Run, given: Supplied, defs: seq<Definition>)
    returns (state: State, unlocked: seq<string>)
    ensures state == Evaluate(previous, run, given, defs)
    ensures run.now != 0.0 ==> Lists(unlocked, Normalize(previous), state)
  {
    state := Added(previous, run, given);
    unlocked := [];
    ghost var start := state;
    for i := 0 to |defs|
      invariant state == CheckAll(start, run, defs[..i])
      invariant run.now != 0.0 ==> Lists(unlocked, start, state)
      invariant run.now != 0.0 ==> forall id :: Unlocked(start, id) ==> Unlocked(state, id)
    {
      CheckAllNext(start, run, defs, i);
      if run.now != 0.0 { ListsGrow(unlocked, start, state, run, defs[i]); }
      var newly;
      state, newly := CheckOne(state, run, defs[i]);
      if newly {
        unlocked := unlocked + [defs[i].id];
      }
    }
    assert defs[..|defs|] == defs;
  }

  /** A definition touches the unlock of its own id only, and only to set it. */
  lemma OnlyNewlyUnlocks(s: State, run: Run, def: Definition)
    ensures var s' := CheckDefinition(s, run, def);
            && (forall id :: id != def.id ==> (Unlocked(s', id) <==> Unlocked(s, id)))
            && (run.now != 0.0 ==>
                  (Unlocked(s', def.id) <==> Unlocked(s, def.id) || Met(def.requirement, s.progress, run)))
            && (Unlocked(s, def.id) ==> s' == s)
            && s'.progress == s.progress.(bestRun := s'.progress.bestRun)
  {
  }

  // ---------------------------------------------------------------------
  // The meter against the checks.
  // ---------------------------------------------------------------------

  /**
   The one kind of entry on which meter and check disagree: a broken-pipe target of at most 0 and no statistic at
   all.
   */
  predicate Disagrees(run: Run, k: RunKey, target: real) {
    IsBroken(k) && Stat(run, k) == Undefined && target <= 0.0
  }

  lemma QuotientAtMostOne(a: real, b: real)
    requires b > 0.0 && a >= 0.0
    ensures a / b >= 0.0 && (a / b >= 1.0 <==> a >= b)
  {
  }

  /** A requirement is shown as complete exactly when its check passes, except in that one case. */
  lemma EntryMatchesCheck(run: Run, k: RunKey, target: real)
    ensures 0.0 <= EntryPercent(run, k, target) <= 1.0
    ensures (EntryPercent(run, k, target) == 1.0 <==> RunCheck(run, k, target)) <==> !Disagrees(run, k, target)
  {
    var value := Value(run, k) as real;
    if IsMax(k) && 0.0 < target < value {
      QuotientAtMostOne(target, value);
    } else if !IsMax(k) && target > 0.0 {
      QuotientAtMostOne(value, target);
    }
  }

  /** The sum of the entries is full exactly when every entry is. */
  lemma {:induction false} SumIsFull(req: Requirement, run: Run, keys: seq<RunKey>)
    requires forall k :: k in keys ==> k in req.run
    ensures 0.0 <= SumPercent(req, run, keys) <= |keys| as real
    ensures SumPercent(req, run, keys) == |keys| as real <==>
              forall k :: k in keys ==> EntryPercent(run, k, req.run[k]) == 1.0
  {
    if keys != [] {
      EntryMatchesCheck(run, keys[0], req.run[keys[0]]);
      SumIsFull(req, run, keys[1..]);
      assert forall k :: k in keys <==> k == keys[0] || k in keys[1..];
    }
  }

  lemma AllRunKeys(k: RunKey)
    ensures k in RUN_KEYS
  {
    match k
    case MinScore => assert RUN_KEYS[0] == k;
    case MaxOrbs => assert RUN_KEYS[1] == k;
    case MaxAbilities => assert RUN_KEYS[2] == k;
    case MinOrbs => assert RUN_KEYS[3] == k;
    case MinPerfects => assert RUN_KEYS[4] == k;
    case MinPipesDodged => assert RUN_KEYS[5] == k;
    case MinOrbCombo => assert RUN_KEYS[6] == k;
    case MinPerfectCombo => assert RUN_KEYS[7] == k;
    case MinRunTime => assert RUN_KEYS[8] == k;
    case MinBrokenPipesInExplosion => assert RUN_KEYS[9] == k;
    case MinBrokenPipesInRun => assert RUN_KEYS[10] == k;
  }

  /** The meter is full exactly when every per-run requirement shows complete. */
  lemma MeterIsFull(req: Requirement, run: Run)
    requires |Entries(req)| >= 2
    ensures RunPercent(req, run).Some? && 0.0 <= RunPercent(req, run).value <= 1.0
    ensures RunPercent(req, run) == Some(1.0) <==>
              forall k :: k in req.run ==> EntryPercent(run, k, req.run[k]) == 1.0
  {
    var keys := Entries(req);
    EntriesAreKeys(req, RUN_KEYS);
    SumIsFull(req, run, keys);
    QuotientAtMostOne(SumPercent(req, run, keys), |keys| as real);
    forall k | k in req.run
      ensures k in keys
    {
      AllRunKeys(k);
    }
  }

  /** No entry is of the disagreeing kind. */
  predicate Agreeable(req: Requirement, run: Run) {
    forall k :: k in req.run ==> !Disagrees(run, k, req.run[k])
  }

  /** Some requirement's own check is not passed. */
  predicate FailsSomewhere(req: Requirement, run: Run) {
    exists k :: k in req.run && !RunCheck(run, k, req.run[k])
  }

  /**
   For a definition with several per-run requirements and nothing else, the stored meter reaches 100 %
   on the very runs that unlock it - exactly when no broken-pipe requirement with a target of at most
   0 meets a run without that statistic, or the run fails the check of another requirement.
   */
  lemma MeterAgreesWithUnlock(req: Requirement, p: Progress, run: Run)
    requires |Entries(req)| >= 2 && req.totals == map[] && req.skills == None
    ensures (RunPercent(req, run) == Some(1.0) <==> Met(req, p, run)) <==>
              Agreeable(req, run) || FailsSomewhere(req, run)
  {
    MeterIsFull(req, run);
    TwoEntriesAreNotScoreOnly(req);
    forall k | k in req.run
      ensures (EntryPercent(run, k, req.run[k]) == 1.0 <==> RunCheck(run, k, req.run[k]))
              <==> !Disagrees(run, k, req.run[k])
    {
      EntryMatchesCheck(run, k, req.run[k]);
    }
    assert MinScore in req.run ==> (MeetsScore(req, p, run) <==> RunCheck(run, MinScore, req.run[MinScore]));
  }

  lemma {:induction false} EntriesDistinct(req: Requirement, keys: seq<RunKey>)
    requires forall i, j :: 0 <= i < j < |keys| ==> keys[i] != keys[j]
    ensures forall i, j :: 0 <= i < j < |EntriesFrom(req, keys)| ==>
      EntriesFrom(req, keys)[i] != EntriesFrom(req, keys)[j]
  {
    if keys != [] {
      EntriesDistinct(req, keys[1..]);
      EntriesAreKeys(req, keys[1..]);
    }
  }

  lemma TwoEntriesAreNotScoreOnly(req: Requirement)
    requires |Entries(req)| >= 2
    ensures !ScoreOnly(req)
  {
    EntriesDistinct(req, RUN_KEYS);
    EntriesAreKeys(req, RUN_KEYS);
    var keys := Entries(req);
    assert keys[0] in keys && keys[1] in keys;
    assert keys[0] in req.run.Keys && keys[1] in req.run.Keys;
  }

  // ---------------------------------------------------------------------
  // Whole histories.
  // ---------------------------------------------------------------------

  /** A history: `step` for every run, in order. */
  function FoldRuns<S, R>(step: (S, R) -> S, s: S, runs: seq<R>): S {
    if runs == [] then s else step(FoldRuns(step, s, runs[..|runs| - 1]), runs[|runs| - 1])
  }

  function SumOver<R>(gain: R -> nat, runs: seq<R>): nat {
    if runs == [] then 0 else SumOver(gain, runs[..|runs| - 1]) + gain(runs[|runs| - 1])
  }

  function Evaluator(defs: seq<Definition>): (State, Run) -> State {
    (s: State, run: Run) => Evaluate(s, run, NOTHING_SUPPLIED, defs)
  }

  /** The state after these runs, each evaluated against the same definitions with nothing supplied from outside. */
  function After(s: State, runs: seq<Run>, defs: seq<Definition>): State {
    FoldRuns(Evaluator(defs), s, runs)
  }

  /** Everything these runs add to one total. */
  function TotalGain(runs: seq<Run>, k: TotalKey): nat {
    SumOver(GainOf(k), runs)
  }

  function GainOf(k: TotalKey): Run -> nat {
    (run: Run) => Gain(run, k)
  }

  function TotalIn(k: TotalKey): State -> nat {
    (s: State) => Total(s.progress, k)
  }

  function BestOf(start: nat, runs: seq<Run>): nat {
    if runs == [] then start else Larger(Value(runs[|runs| - 1], MinScore), BestOf(start, runs[..|runs| - 1]))
  }

  lemma {:induction false} ChecksKeepTotals(s: State, run: Run, defs: seq<Definition>)
    ensures var p := CheckAll(s, run, defs).progress;
            p == s.progress.(bestRun := p.bestRun)
  {
    if defs != [] {
      ChecksKeepTotals(s, run, defs[..|defs| - 1]);
      OnlyNewlyUnlocks(CheckAll(s, run, defs[..|defs| - 1]), run, defs[|defs| - 1]);
    }
  }

  lemma AddedTotals(s: State, run: Run, k: TotalKey)
    ensures Total(Added(s, run, NOTHING_SUPPLIED).progress, k) == AddCapped(Total(s.progress, k), Gain(run, k))
  {
    var p := NormalizeProgress(s.progress);
    EachTotalFollows(k => AtMost(Total(s.progress, k)), k);
    EachTotalFollows(k => AtMost(Base(p, NOTHING_SUPPLIED, k) + Gain(run, k)), k);
  }

  lemma EvaluateTotals(s: State, run: Run, defs: seq<Definition>, k: TotalKey)
    ensures Total(Evaluate(s, run, NOTHING_SUPPLIED, defs).progress, k) == AddCapped(Total(s.progress, k), Gain(run, k))
  {
    AddedTotals(s, run, k);
    ChecksKeepTotals(Added(s, run, NOTHING_SUPPLIED), run, defs);
  }

  function AddCapped(total: nat, gain: nat): nat {
    AtMost(AtMost(total) + gain)
  }

  /** Capping after every addition or once at the end comes to the same. */
  lemma CappingOnceIsEnough(start: nat, sum: nat, gain: nat, before: nat)
    requires AtMost(before) == AtMost(start + sum)
    ensures AddCapped(before, gain) == AtMost(start + (sum + gain))
  {
  }

  lemma AfterTotals(s: State, runs: seq<Run>, defs: seq<Definition>, k: TotalKey)
    requires runs != []
    ensures Total(After(s, runs, defs).progress, k) ==
              AddCapped(Total(After(s, runs[..|runs| - 1], defs).progress, k), Gain(runs[|runs| - 1], k))
  {
    EvaluateTotals(After(s, runs[..|runs| - 1], defs), runs[|runs| - 1], defs, k);
  }

  lemma {:induction false} CappedFold<S(!new), R(!new)>(
      step: (S, R) -> S, total: S -> nat, gain: R -> nat, s: S, runs: seq<R>)
    requires forall t, run :: total(step(t, run)) == AddCapped(total(t), gain(run))
    ensures AtMost(total(FoldRuns(step, s, runs))) == AtMost(total(s) + SumOver(gain, runs))
    ensures runs != [] ==> total(FoldRuns(step, s, runs)) <= CAP
  {
    if runs != [] {
      var front := runs[..|runs| - 1];
      CappedFold(step, total, gain, s, front);
      CappingOnceIsEnough(total(s), SumOver(gain, front), gain(runs[|runs| - 1]), total(FoldRuns(step, s, front)));
    }
  }

  lemma EvaluatorAdds(defs: seq<Definition>, k: TotalKey)
    ensures forall t, run :: TotalIn(k)(Evaluator(defs)(t, run)) == AddCapped(TotalIn(k)(t), GainOf(k)(run))
  {
    forall t, run
      ensures TotalIn(k)(Evaluator(defs)(t, run)) == AddCapped(TotalIn(k)(t), GainOf(k)(run))
    {
      hide Evaluate, Total, Gain, AddCapped;
      EvaluateTotals(t, run, defs, k);
    }
  }

  /** Totals saturate: each is the sum of everything ever gained, capped once at the end. */
  lemma TotalsSaturate(s: State, runs: seq<Run>, defs: seq<Definition>, k: TotalKey)
    requires runs != []
    ensures Total(After(s, runs, defs).progress, k) == AtMost(Total(s.progress, k) + TotalGain(runs, k))
  {
    EvaluatorAdds(defs, k);
    hide Evaluator, GainOf, FoldRuns, SumOver, Total, AddCapped;
    CappedFold(Evaluator(defs), TotalIn(k), GainOf(k), s, runs);
  }

  lemma {:induction false} BestScoreIsBest(s: State, runs: seq<Run>, defs: seq<Definition>)
    requires runs != []
    ensures After(s, runs, defs).progress.bestScore == AtMost(BestOf(s.progress.bestScore, runs))
  {
    var front, run := runs[..|runs| - 1], runs[|runs| - 1];
    ChecksKeepTotals(Added(After(s, front, defs), run, NOTHING_SUPPLIED), run, defs);
    if front != [] {
      BestScoreIsBest(s, front, defs);
    }
  }

  // Unlocks.

  /** Every stored timestamp is one that the next normalization keeps. */
  predicate Durable(s: State) {
    forall id :: id in s.unlocked ==> s.unlocked[id] >= 1.0
  }

  predicate LateClock(runs: seq<Run>) {
    forall i :: 0 <= i < |runs| ==> runs[i].now >= 1.0
  }

  /** An id is unlocked after the checks exactly when it was before, or some definition with that id is met. */
  lemma {:induction false} UnlockedIffMet(s: State, run: Run, defs: seq<Definition>, id: string)
    requires run.now != 0.0
    ensures Unlocked(CheckAll(s, run, defs), id) <==>
              Unlocked(s, id) || exists d :: d in defs && d.id == id && Met(d.requirement, s.progress, run)
  {
    if defs != [] {
      var front, def := defs[..|defs| - 1], defs[|defs| - 1];
      UnlockedIffMet(s, run, front, id);
      ChecksKeepTotals(s, run, front);
      OnlyNewlyUnlocks(CheckAll(s, run, front), run, def);
      assert Met(def.requirement, CheckAll(s, run, front).progress, run) <==> Met(def.requirement, s.progress, run);
      assert forall d :: d in defs <==> d in front || d == def;
    }
  }

  lemma {:induction false} ChecksStayDurable(s: State, run: Run, defs: seq<Definition>)
    requires Durable(s) && run.now >= 1.0
    ensures Durable(CheckAll(s, run, defs))
  {
    if defs != [] {
      ChecksStayDurable(s, run, defs[..|defs| - 1]);
    }
  }

  lemma NormalizeKeeps(s: State)
    requires Durable(s)
    ensures Durable(Normalize(s))
    ensures forall id :: Unlocked(Normalize(s), id) <==> Unlocked(s, id)
  {
  }

  lemma EvaluateStaysDurable(s: State, run: Run, defs: seq<Definition>)
    requires Durable(s) && run.now >= 1.0
    ensures Durable(Evaluate(s, run, NOTHING_SUPPLIED, defs))
  {
    NormalizeKeeps(s);
    ChecksStayDurable(Added(s, run, NOTHING_SUPPLIED), run, defs);
  }

  lemma {:induction false} AfterStaysDurable(s: State, runs: seq<Run>, defs: seq<Definition>)
    requires Durable(s) && LateClock(runs)
    ensures Durable(After(s, runs, defs))
  {
    if runs != [] {
      AfterStaysDurable(s, runs[..|runs| - 1], defs);
      EvaluateStaysDurable(After(s, runs[..|runs| - 1], defs), runs[|runs| - 1], defs);
    }
  }

  /** What was unlocked once stays unlocked, whatever runs follow. */
  lemma {:induction false} UnlocksNeverDisappear(s: State, runs: seq<Run>, defs: seq<Definition>, id: string)
    requires Durable(s) && LateClock(runs) && Unlocked(s, id)
    ensures Unlocked(After(s, runs, defs), id)
  {
    if runs != [] {
      var front, run := runs[..|runs| - 1], runs[|runs| - 1];
      UnlocksNeverDisappear(s, front, defs, id);
      AfterStaysDurable(s, front, defs);
      NormalizeKeeps(After(s, front, defs));
      UnlockedIffMet(Added(After(s, front, defs), run, NOTHING_SUPPLIED), run, defs, id);
    }
  }

  /** An unlock is kept by the next evaluation, if nothing earns it again, exactly when its timestamp is at least 1. */
  lemma UnlockSurvives(s: State, run: Run, defs: seq<Definition>, id: string)
    requires Unlocked(s, id) && run.now != 0.0
    requires forall d :: d in defs && d.id == id ==>
      !Met(d.requirement, Added(s, run, NOTHING_SUPPLIED).progress, run)
    ensures Unlocked(Evaluate(s, run, NOTHING_SUPPLIED, defs), id) <==> s.unlocked[id] >= 1.0
  {
    UnlockedIffMet(Added(s, run, NOTHING_SUPPLIED), run, defs, id);
  }

  /** The definition asks for one total only. */
  predicate AsksTotal(def: Definition, k: TotalKey, target: real) {
    def.requirement == Requirement(map[], map[k := target], None)
  }

  /** The definition asks for a score only. */
  predicate AsksScore(def: Definition, target: real) {
    def.requirement == Requirement(map[MinScore := target], map[], None)
  }

  ghost predicate OnlyOneWithId(defs: seq<Definition>, def: Definition) {
    def in defs && forall d :: d in defs && d.id == def.id ==> d == def
  }

  lemma MetTotal(def: Definition, k: TotalKey, target: real, p: Progress, run: Run)
    requires AsksTotal(def, k, target)
    ensures Met(def.requirement, p, run) <==> Total(p, k) as real >= target
  {
    assert k in def.requirement.totals;
  }

  lemma MetScore(def: Definition, target: real, p: Progress, run: Run)
    requires AsksScore(def, target)
    ensures Met(def.requirement, p, run) <==> p.bestScore as real >= target
  {
    assert MinScore in def.requirement.run;
  }

  /** The definition asks for a number of uses of one skill only. */
  predicate AsksSkill(def: Definition, skill: Skill, target: real) {
    def.requirement == Requirement(map[], map[], Some(PerSkill(0.0, 0.0, 0.0, 0.0).Set(skill, target)))
  }

  lemma MetSkill(def: Definition, skill: Skill, target: real, p: Progress, run: Run)
    requires AsksSkill(def, skill, target)
    ensures Met(def.requirement, p, run) <==> target <= 0.0 || p.skills.Get(skill) as real >= target
  {
  }

  lemma TotalsGrow(s: State, runs: seq<Run>, defs: seq<Definition>, k: TotalKey)
    requires |runs| > 1
    ensures Total(After(s, runs[..|runs| - 1], defs).progress, k) <= Total(After(s, runs, defs).progress, k)
  {
    var front := runs[..|runs| - 1];
    TotalsSaturate(s, front, defs, k);
    AfterTotals(s, runs, defs, k);
  }

  /** One evaluation, for a definition that is alone with its id. */
  lemma EvaluateUnlocks(s: State, run: Run, defs: seq<Definition>, def: Definition)
    requires Durable(s) && run.now >= 1.0 && OnlyOneWithId(defs, def)
    ensures var s' := Evaluate(s, run, NOTHING_SUPPLIED, defs);
            Unlocked(s', def.id) <==> Unlocked(s, def.id) || Met(def.requirement, s'.progress, run)
  {
    var a := Added(s, run, NOTHING_SUPPLIED);
    NormalizeKeeps(s);
    UnlockedIffMet(a, run, defs, def.id);
    ChecksKeepTotals(a, run, defs);
    assert Met(def.requirement, CheckAll(a, run, defs).progress, run) <==> Met(def.requirement, a.progress, run);
  }

  /**
   A threshold on one total is unlocked, after any history, exactly when the final total reaches it (or it was
   before).
   */
  lemma {:induction false} TotalUnlockIff(s: State, runs: seq<Run>, defs: seq<Definition>, def: Definition,
                                          k: TotalKey, target: real)
    requires Durable(s) && LateClock(runs) && runs != []
    requires OnlyOneWithId(defs, def) && AsksTotal(def, k, target)
    ensures var end := After(s, runs, defs);
            Unlocked(end, def.id) <==> Unlocked(s, def.id) || Total(end.progress, k) as real >= target
  {
    var front, run := runs[..|runs| - 1], runs[|runs| - 1];
    var before := After(s, front, defs);
    AfterStaysDurable(s, front, defs);
    EvaluateUnlocks(before, run, defs, def);
    MetTotal(def, k, target, After(s, runs, defs).progress, run);
    if front != [] {
      TotalUnlockIff(s, front, defs, def, k, target);
      TotalsGrow(s, runs, defs, k);
    }
  }

  /** A threshold on the score alone is unlocked exactly when the best score reaches it (or it was before). */
  lemma {:induction false} ScoreUnlockIff(s: State, runs: seq<Run>, defs: seq<Definition>, def: Definition,
                                          target: real)
    requires Durable(s) && LateClock(runs) && runs != []
    requires OnlyOneWithId(defs, def) && AsksScore(def, target)
    ensures var end := After(s, runs, defs);
            Unlocked(end, def.id) <==> Unlocked(s, def.id) || end.progress.bestScore as real >= target
  {
    var front, run := runs[..|runs| - 1], runs[|runs| - 1];
    AfterStaysDurable(s, front, defs);
    EvaluateUnlocks(After(s, front, defs), run, defs, def);
    MetScore(def, target, After(s, runs, defs).progress, run);
    if front != [] {
      ScoreUnlockIff(s, front, defs, def, target);
      BestScoreIsBest(s, runs, defs);
      BestScoreIsBest(s, front, defs);
    }
  }

  // Definition order.

  ghost predicate SameDefinitions(defs: seq<Definition>, other: seq<Definition>) {
    forall d :: d in defs <==> d in other
  }

  ghost predicate SameOutcome(s: State, t: State) {
    && (forall id :: Unlocked(s, id) <==> Unlocked(t, id))
    && t.progress == s.progress.(bestRun := t.progress.bestRun)
  }

  lemma NormalizeIgnoresMeter(p: Progress, bestRun: map<string, real>)
    ensures var q := NormalizeProgress(p.(bestRun := bestRun));
            q == NormalizeProgress(p).(bestRun := q.bestRun)
  {
  }

  lemma AddRunIgnoresMeter(p: Progress, bestRun: map<string, real>, run: Run)
    ensures AddRun(p.(bestRun := bestRun), run, NOTHING_SUPPLIED) ==
              AddRun(p, run, NOTHING_SUPPLIED).(bestRun := bestRun)
  {
  }

  lemma AddedSame(s: State, t: State, run: Run)
    requires Durable(s) && Durable(t) && SameOutcome(s, t)
    ensures SameOutcome(Added(s, run, NOTHING_SUPPLIED), Added(t, run, NOTHING_SUPPLIED))
  {
    NormalizeKeeps(s);
    NormalizeKeeps(t);
    assert forall id :: Unlocked(Added(s, run, NOTHING_SUPPLIED), id) <==> Unlocked(Normalize(s), id);
    assert forall id :: Unlocked(Added(t, run, NOTHING_SUPPLIED), id) <==> Unlocked(Normalize(t), id);
    NormalizeIgnoresMeter(s.progress, t.progress.bestRun);
    AddRunIgnoresMeter(NormalizeProgress(s.progress), NormalizeProgress(t.progress).bestRun, run);
  }

  lemma MetIgnoresMeter(req: Requirement, p: Progress, bestRun: map<string, real>, run: Run)
    ensures Met(req, p, run) <==> Met(req, p.(bestRun := bestRun), run)
  {
  }

  lemma ChecksOrderFree(a: State, b: State, run: Run, defs: seq<Definition>, other: seq<Definition>)
    requires SameOutcome(a, b) && SameDefinitions(defs, other) && run.now != 0.0
    ensures SameOutcome(CheckAll(a, run, defs), CheckAll(b, run, other))
  {
    ChecksKeepTotals(a, run, defs);
    ChecksKeepTotals(b, run, other);
    forall id
      ensures Unlocked(CheckAll(a, run, defs), id) <==> Unlocked(CheckAll(b, run, other), id)
    {
      UnlockedIffMet(a, run, defs, id);
      UnlockedIffMet(b, run, other, id);
      forall d: Definition
        ensures Met(d.requirement, a.progress, run) <==> Met(d.requirement, b.progress, run)
      {
        MetIgnoresMeter(d.requirement, a.progress, b.progress.bestRun, run);
      }
    }
  }

  lemma EvaluateOrderFree(s: State, t: State, run: Run, defs: seq<Definition>, other: seq<Definition>)
    requires Durable(s) && Durable(t) && run.now >= 1.0
    requires SameDefinitions(defs, other) && SameOutcome(s, t)
    ensures SameOutcome(Evaluate(s, run, NOTHING_SUPPLIED, defs), Evaluate(t, run, NOTHING_SUPPLIED, other))
  {
    AddedSame(s, t, run);
    ChecksOrderFree(Added(s, run, NOTHING_SUPPLIED), Added(t, run, NOTHING_SUPPLIED), run, defs, other);
  }

  /** Reordering or repeating definitions never changes what a history unlocks. */
  lemma {:induction false} UnlocksOrderFree(s: State, runs: seq<Run>, defs: seq<Definition>, other: seq<Definition>)
    requires Durable(s) && LateClock(runs) && SameDefinitions(defs, other)
    ensures SameOutcome(After(s, runs, defs), After(s, runs, other))
  {
    if runs != [] {
      var front, run := runs[..|runs| - 1], runs[|runs| - 1];
      UnlocksOrderFree(s, front, defs, other);
      AfterStaysDurable(s, front, defs);
      AfterStaysDurable(s, front, other);
      EvaluateOrderFree(After(s, front, defs), After(s, front, other), run, defs, other);
    }
  }

  // The stored meter.

  lemma CheckKeepsPercent(s: State, run: Run, def: Definition, id: string)
    ensures Percent(s.progress, id) <= Percent(CheckDefinition(s, run, def).progress, id) <= 1.0
  {
    if |Entries(def.requirement)| >= 2 {
      MeterIsFull(def.requirement, run);
    }
  }

  lemma {:induction false} ChecksKeepPercent(s: State, run: Run, defs: seq<Definition>, id: string)
    ensures Percent(s.progress, id) <= Percent(CheckAll(s, run, defs).progress, id) <= 1.0
  {
    if defs != [] {
      ChecksKeepPercent(s, run, defs[..|defs| - 1], id);
      CheckKeepsPercent(CheckAll(s, run, defs[..|defs| - 1]), run, defs[|defs| - 1], id);
    }
  }

  /** The stored best percentage of a definition stays in [0, 1] and never goes down. */
  lemma {:induction false} BestPercentNeverDrops(s: State, runs: seq<Run>, defs: seq<Definition>, id: string)
    ensures 0.0 <= Percent(s.progress, id) <= Percent(After(s, runs, defs).progress, id) <= 1.0
  {
    if runs != [] {
      var front, run := runs[..|runs| - 1], runs[|runs| - 1];
      BestPercentNeverDrops(s, front, defs, id);
      ChecksKeepPercent(Added(After(s, front, defs), run, NOTHING_SUPPLIED), run, defs, id);
    }
  }

  /** The best meter of a history, starting from the one stored. */
  function BestMeter(stored: real, runs: seq<Run>, req: Requirement): real {
    if runs == [] then stored
    else
      var best := BestMeter(stored, runs[..|runs| - 1], req);
      var meter := RunPercent(req, runs[|runs| - 1]);
      if meter.Some? && meter.value > best then meter.value else best
  }

  /** The better of the stored meter and the one of this run. */
  lemma BestOfOne(stored: real, run: Run, req: Requirement)
    ensures BestMeter(stored, [run], req) ==
              (match RunPercent(req, run) case None => stored case Some(m) => Max(stored, m))
  {
    assert [run][..0] == [];
  }

  /** One check of a definition still locked keeps the better of the stored meter and this run's. */
  lemma CheckKeepsBest(s: State, run: Run, def: Definition)
    requires !Unlocked(s, def.id)
    ensures Percent(CheckDefinition(s, run, def).progress, def.id) ==
              BestMeter(Percent(s.progress, def.id), [run], def.requirement)
  {
    BestOfOne(Percent(s.progress, def.id), run, def.requirement);
    if |Entries(def.requirement)| >= 2 {
      MeterIsFull(def.requirement, run);
    }
  }

  lemma {:induction false} ChecksKeepBest(s: State, run: Run, defs: seq<Definition>, def: Definition)
    requires forall d :: d in defs && d.id == def.id ==> d == def
    ensures Percent(CheckAll(s, run, defs).progress, def.id) ==
              if !Unlocked(s, def.id) && def in defs
              then BestMeter(Percent(s.progress, def.id), [run], def.requirement)
              else Percent(s.progress, def.id)
    ensures Unlocked(s, def.id) ==> Unlocked(CheckAll(s, run, defs), def.id)
    ensures def !in defs && Unlocked(CheckAll(s, run, defs), def.id) ==> Unlocked(s, def.id)
  {
    if defs != [] {
      var front, last := defs[..|defs| - 1], defs[|defs| - 1];
      ChecksKeepBest(s, run, front, def);
      assert def in defs <==> def in front || last == def;
      var c := CheckAll(s, run, front);
      if last == def && !Unlocked(c, def.id) {
        CheckKeepsBest(c, run, def);
        BestOfOne(Percent(s.progress, def.id), run, def.requirement);
        BestOfOne(Percent(c.progress, def.id), run, def.requirement);
      }
    }
  }

  lemma EvaluateKeepsBest(s: State, run: Run, defs: seq<Definition>, def: Definition)
    requires Durable(s) && OnlyOneWithId(defs, def)
    ensures Percent(Evaluate(s, run, NOTHING_SUPPLIED, defs).progress, def.id) ==
              if Unlocked(s, def.id) then Percent(s.progress, def.id)
              else BestMeter(Percent(s.progress, def.id), [run], def.requirement)
  {
    NormalizeKeeps(s);
    var a := Added(s, run, NOTHING_SUPPLIED);
    assert Percent(a.progress, def.id) == Percent(s.progress, def.id);
    ChecksKeepBest(a, run, defs, def);
  }

  /**
   Up to the run that unlocks a definition, its stored meter is the best any run reached (or the one it started
   from).
   */
  lemma {:induction false} StoredMeterIsBest(s: State, runs: seq<Run>, defs: seq<Definition>, def: Definition)
    requires Durable(s) && LateClock(runs) && OnlyOneWithId(defs, def)
    requires runs != [] ==> !Unlocked(After(s, runs[..|runs| - 1], defs), def.id)
    ensures Percent(After(s, runs, defs).progress, def.id) ==
              BestMeter(Percent(s.progress, def.id), runs, def.requirement)
  {
    if runs != [] {
      var front, run := runs[..|runs| - 1], runs[|runs| - 1];
      AfterStaysDurable(s, front, defs);
      if front != [] {
        AfterStaysDurable(s, front[..|front| - 1], defs);
        EvaluateUnlocks(After(s, front[..|front| - 1], defs), front[|front| - 1], defs, def);
      }
      StoredMeterIsBest(s, front, defs, def);
      EvaluateKeepsBest(After(s, front, defs), run, defs, def);
      BestOfOne(Percent(After(s, front, defs).progress, def.id), run, def.requirement);
    }
  }

  /** Once a definition is unlocked, its stored meter is left as it is. */
  lemma {:induction false} UnlockedMeterStays(s: State, runs: seq<Run>, defs: seq<Definition>, def: Definition)
    requires Durable(s) && LateClock(runs) && OnlyOneWithId(defs, def) && Unlocked(s, def.id)
    ensures Percent(After(s, runs, defs).progress, def.id) == Percent(s.progress, def.id)
  {
    if runs != [] {
      var front := runs[..|runs| - 1];
      UnlockedMeterStays(s, front, defs, def);
      UnlocksNeverDisappear(s, front, defs, def.id);
      AfterStaysDurable(s, front, defs);
      EvaluateKeepsBest(After(s, front, defs), runs[|runs| - 1], defs, def);
    }
  }
}
