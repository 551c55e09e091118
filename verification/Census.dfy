/**
 The pipes of a run, counted (public/js/game.js): every pipe made is on the list
 or has met one fate, and every gap's entry knows how many of its pipes are left.
 */
module Census {
  import opened Options
  import opened JsNumbers
  import opened Lists
  import opened Skills
  import opened Pipes
  import opened Spawning
  import opened GapHistory
  import opened RunModel

  // ---- new pipes ----

  function NewPipe(spec: PipeSpec, id: nat, gapId: nat): Pipe {
    Pipe(id, gapId, spec.x, spec.y, spec.w, spec.h, spec.vx, spec.vy, false, false)
  }

  function NewPipes(specs: seq<PipeSpec>, id: nat, gapId: nat): (ps: seq<Pipe>)
    ensures |ps| == |specs|
  {
    if specs == [] then []
    else NewPipes(specs[..|specs| - 1], id, gapId) + [NewPipe(specs[|specs| - 1], id + |specs| - 1, gapId)]
  }

  lemma {:induction false} NewPipesAre(specs: seq<PipeSpec>, id: nat, gapId: nat)
    ensures var ps := NewPipes(specs, id, gapId);
            forall i :: 0 <= i < |ps| ==> ps[i] == NewPipe(specs[i], id + i, gapId)
  {
    if specs != [] {
      NewPipesAre(specs[..|specs| - 1], id, gapId);
    }
  }

  /** The pipes a plan brings, whether or not there is room for them. */
  function PlanPipes(plan: Plan, marker: real, id: nat, gapId: nat): seq<Pipe> {
    match plan
    case Group(parts) => NewPipes(SpecsOf(parts), id, 0)
    case Wall(special, specs, _, _) =>
      if special then NewPipes([MarkerSpec(marker)], id, 0) + NewPipes(specs, id + 1, gapId)
      else NewPipes(specs, id, gapId)
  }

  function MarkerSpec(size: real): PipeSpec {
    PipeSpec(-200.0, -200.0, size, size, 0.0, 0.0)
  }

  /** The newest pipes within a limit: what a splice from the front leaves. */
  function Newest(pipes: seq<Pipe>, limit: nat): seq<Pipe> {
    if |pipes| > limit then pipes[|pipes| - limit..] else pipes
  }

  /** Whether a plan may spawn at all, and what remains when it has; `None` is no limit. */
  predicate HasRoom(cap: Option<nat>, count: nat) {
    cap.None? || count < cap.value
  }

  function Fitted(cap: Option<nat>, pipes: seq<Pipe>): seq<Pipe> {
    if cap.Some? then Newest(pipes, cap.value) else pipes
  }

  function Ids(pipes: seq<Pipe>): seq<nat> {
    if pipes == [] then [] else Ids(pipes[..|pipes| - 1]) + [pipes[|pipes| - 1].id]
  }

  lemma {:induction false} IdsAreBag(pipes: seq<Pipe>)
    ensures multiset(Ids(pipes)) == Bag(pipes, IdOf()) && |Ids(pipes)| == |pipes|
  {
    if pipes != [] {
      IdsAreBag(pipes[..|pipes| - 1]);
    }
  }

  // ---- everyone accounted for ----

  ghost predicate Censused(pipes: seq<Pipe>, stats: Stats, dodged: seq<nat>, broken: seq<nat>, dropped: seq<nat>,
                           next: nat) {
    && Accounted(pipes, dodged, broken, dropped, next)
    && |dodged| == stats.pipesDodged && |broken| == stats.brokenPipes
    && stats.maxBrokenPipesInExplosion <= stats.brokenPipes
    && (forall i :: 0 <= i < |pipes| ==> !pipes[i].scored)
  }

  lemma Moves(a: multiset<nat>, x: multiset<nat>, b: multiset<nat>, c: multiset<nat>, d: multiset<nat>)
    ensures a + x + b + c + d == a + (b + x) + c + d
    ensures a + x + b + c + d == a + b + (c + x) + d
    ensures a + x + b + c + d == a + b + c + (d + x)
    ensures a + x + b + c + d == a + b + c + d + x
  {
  }

  lemma AccountedRemoved(pipes: seq<Pipe>, i: nat, dodged: seq<nat>, broken: seq<nat>, dropped: seq<nat>, next: nat)
    requires i < |pipes| && Accounted(pipes, dodged, broken, dropped, next)
    ensures Accounted(RemoveAt(pipes, i), dodged + [pipes[i].id], broken, dropped, next)
    ensures Accounted(RemoveAt(pipes, i), dodged, broken + [pipes[i].id], dropped, next)
  {
    var id := pipes[i].id;
    BagRemoveAt(pipes, i, IdOf());
    assert IdOf()(pipes[i]) == id;
    assert multiset(dodged + [id]) == multiset(dodged) + multiset{id};
    assert multiset(broken + [id]) == multiset(broken) + multiset{id};
    Moves(Bag(RemoveAt(pipes, i), IdOf()), multiset{id}, multiset(dodged), multiset(broken), multiset(dropped));
  }

  lemma AccountedTrimmed(pipes: seq<Pipe>, n: nat, dodged: seq<nat>, broken: seq<nat>, dropped: seq<nat>, next: nat)
    requires n <= |pipes| && Accounted(pipes, dodged, broken, dropped, next)
    ensures Accounted(pipes[n..], dodged, broken, dropped + Ids(pipes[..n]), next)
  {
    assert pipes == pipes[..n] + pipes[n..];
    BagAppend(pipes[..n], pipes[n..], IdOf());
    IdsAreBag(pipes[..n]);
    var gone := Bag(pipes[..n], IdOf());
    assert gone + Bag(pipes[n..], IdOf()) == Bag(pipes[n..], IdOf()) + gone;
    assert multiset(dropped + Ids(pipes[..n])) == multiset(dropped) + gone;
    Moves(Bag(pipes[n..], IdOf()), gone, multiset(dodged), multiset(broken), multiset(dropped));
  }

  lemma {:induction false} NumberedOn(young: seq<Pipe>, next: nat)
    requires forall i :: 0 <= i < |young| ==> young[i].id == next + i
    ensures Below(next + |young|) == Below(next) + Bag(young, IdOf())
  {
    hide *;
    if young != [] {
      var front := young[..|young| - 1];
      NumberedOn(front, next);
      LastNumber(young, front, next + |front|);
      Appended(Below(next), Bag(front, IdOf()), Below(next + |front|), next + |front|);
    } else {
      NothingBelow(young, next);
    }
  }

  lemma Appended(a: multiset<nat>, b: multiset<nat>, joined: multiset<nat>, n: nat)
    requires joined == a + b
    ensures joined + multiset{n} == a + (b + multiset{n})
  {
  }

  lemma LastNumber(young: seq<Pipe>, front: seq<Pipe>, n: nat)
    requires young != [] && front == young[..|young| - 1] && young[|young| - 1].id == n
    ensures Below(n + 1) == Below(n) + multiset{n}
    ensures Bag(young, IdOf()) == Bag(front, IdOf()) + multiset{n}
  {
  }

  lemma NothingBelow(young: seq<Pipe>, next: nat)
    requires young == []
    ensures Below(next) == Below(next) + Bag(young, IdOf())
  {
  }

  lemma AccountedGrown(pipes: seq<Pipe>, young: seq<Pipe>, dodged: seq<nat>, broken: seq<nat>, dropped: seq<nat>,
                       next: nat)
    requires Accounted(pipes, dodged, broken, dropped, next)
    requires forall i :: 0 <= i < |young| ==> young[i].id == next + i
    ensures Accounted(pipes + young, dodged, broken, dropped, next + |young|)
  {
    BagAppend(pipes, young, IdOf());
    NumberedOn(young, next);
    Moves(Bag(pipes, IdOf()), Bag(young, IdOf()), multiset(dodged), multiset(broken), multiset(dropped));
  }

  lemma CensusRemoved(pipes: seq<Pipe>, i: nat, stats: Stats, pts: nat,
                      dodged: seq<nat>, broken: seq<nat>, dropped: seq<nat>, next: nat)
    requires i < |pipes| && Censused(pipes, stats, dodged, broken, dropped, next)
    ensures Censused(RemoveAt(pipes, i), WithDodge(stats, pts), dodged + [pipes[i].id], broken, dropped, next)
    ensures Censused(RemoveAt(pipes, i), WithBroken(stats), dodged, broken + [pipes[i].id], dropped, next)
  {
    AccountedRemoved(pipes, i, dodged, broken, dropped, next);
    hide Accounted;
  }

  lemma CensusTrimmed(pipes: seq<Pipe>, n: nat, stats: Stats, dodged: seq<nat>, broken: seq<nat>, dropped: seq<nat>,
                      next: nat)
    requires n <= |pipes| && Censused(pipes, stats, dodged, broken, dropped, next)
    ensures Censused(pipes[n..], stats, dodged, broken, dropped + Ids(pipes[..n]), next)
    ensures |Ids(pipes[..n])| == n
  {
    IdsAreBag(pipes[..n]);
    AccountedTrimmed(pipes, n, dodged, broken, dropped, next);
    hide Accounted;
  }

  lemma CensusGrown(pipes: seq<Pipe>, young: seq<Pipe>, stats: Stats, dodged: seq<nat>, broken: seq<nat>,
                    dropped: seq<nat>, next: nat)
    requires Censused(pipes, stats, dodged, broken, dropped, next)
    requires forall i :: 0 <= i < |young| ==> young[i].id == next + i && !young[i].scored
    ensures Censused(pipes + young, stats, dodged, broken, dropped, next + |young|)
  {
    AccountedGrown(pipes, young, dodged, broken, dropped, next);
    hide Accounted;
  }

  lemma CensusNew(pipes: seq<Pipe>, specs: seq<PipeSpec>, gapId: nat, stats: Stats,
                  dodged: seq<nat>, broken: seq<nat>, dropped: seq<nat>, next: nat)
    requires Censused(pipes, stats, dodged, broken, dropped, next)
    ensures Censused(pipes + NewPipes(specs, next, gapId), stats, dodged, broken, dropped, next + |specs|)
  {
    hide *;
    NewPipesFresh(specs, next, gapId);
    CensusGrown(pipes, NewPipes(specs, next, gapId), stats, dodged, broken, dropped, next);
  }

  lemma NewPipesFresh(specs: seq<PipeSpec>, id: nat, gapId: nat)
    ensures var ps := NewPipes(specs, id, gapId);
            |ps| == |specs| && forall i :: 0 <= i < |ps| ==> ps[i].id == id + i && !ps[i].scored
  {
    NewPipesAre(specs, id, gapId);
    hide NewPipes;
  }

  lemma CensusAnyway(pipes: seq<Pipe>, stats: Stats, later: Stats, dodged: seq<nat>, broken: seq<nat>,
                     dropped: seq<nat>, next: nat)
    requires Censused(pipes, stats, dodged, broken, dropped, next) && SameFates(stats, later)
    ensures Censused(pipes, later, dodged, broken, dropped, next)
  {
    hide Accounted;
  }

  /** Pipes that moved are still the same pipes. */
  predicate SamePipes(pipes: seq<Pipe>, moved: seq<Pipe>) {
    |pipes| == |moved| &&
    forall i :: 0 <= i < |pipes| ==>
      moved[i].id == pipes[i].id && moved[i].gapId == pipes[i].gapId && moved[i].scored == pipes[i].scored
  }

  lemma CensusSame(pipes: seq<Pipe>, moved: seq<Pipe>, stats: Stats, dodged: seq<nat>, broken: seq<nat>,
                   dropped: seq<nat>, next: nat)
    requires Censused(pipes, stats, dodged, broken, dropped, next) && SamePipes(pipes, moved)
    ensures Censused(moved, stats, dodged, broken, dropped, next)
  {
    BagSame(pipes, moved, IdOf());
  }

  lemma PushedAreSame(pipes: seq<Pipe>, moved: seq<Pipe>, field: Option<Field>, dt: real, w: real, h: real)
    requires |moved| == |pipes| && forall i :: 0 <= i < |pipes| ==> moved[i] == Pushed(pipes[i], field, dt, w, h)
    ensures SamePipes(pipes, moved)
  {
    hide Overlaps;
  }

  function Spared(x: real, y: real, r: real): Pipe -> bool {
    (p: Pipe) => !Overlaps(p, x, y, r)
  }

  /** The circle in which a skill destroys pipes, if any. */
  function BlastOf(cfg: Config, skill: Skill, p: Player): Option<(real, real, real)> {
    match skill
    case Teleport => if cfg.teleportExplodes then Some((p.x, p.y, Max(p.r, 1.0))) else None
    case SlowField => if cfg.slowExplodes then Some((p.x, p.y, Clamp(cfg.blastRadius, 20.0, 900.0))) else None
    case _ => None
  }

  function AfterBlast(pipes: seq<Pipe>, blast: Option<(real, real, real)>): seq<Pipe> {
    if blast.Some? then Kept(pipes, Spared(blast.value.0, blast.value.1, blast.value.2)) else pipes
  }

  lemma NoBlast(pipes: seq<Pipe>, stats: Stats, cfg: Config, skill: Skill, p: Player)
    ensures AfterBlast(pipes, None) == pipes && WithBlast(stats, 0) == stats
  {
  }

  /** A pipe is in one place only. */
  lemma SamePlace(pipes: seq<Pipe>, stats: Stats, dodged: seq<nat>, broken: seq<nat>, dropped: seq<nat>, next: nat,
                  i: nat, j: nat)
    requires Censused(pipes, stats, dodged, broken, dropped, next)
    requires i < |pipes| && j < |pipes| && pipes[i] == pipes[j]
    ensures i == j
  {
    if i < j {
      DistinctIds(pipes, dodged, broken, dropped, next, i, j);
    } else if j < i {
      DistinctIds(pipes, dodged, broken, dropped, next, j, i);
    }
  }

  // ---- what the entries count ----

  /**
   Every entry counts the pipes of its gap that are still around or were dropped by a cap; an unbroken one has some
   left.
   */
  ghost predicate Tallied(pipes: seq<Pipe>, meta: map<nat, GapMeta>, droppedGaps: multiset<nat>) {
    forall g :: g in meta ==>
      && meta[g].pipesRemaining == Bag(pipes, GapOf())[g] + droppedGaps[g]
      && (!meta[g].broken ==> meta[g].pipesRemaining > 0)
  }

  ghost predicate GapsCounted(pipes: seq<Pipe>, meta: map<nat, GapMeta>, droppedGaps: multiset<nat>, next: nat) {
    && Tallied(pipes, meta, droppedGaps)
    && (forall i :: 0 <= i < |pipes| ==> pipes[i].gapId < next)
    && (forall g :: g in droppedGaps ==> g < next)
  }

  lemma GapsRemoved(pipes: seq<Pipe>, i: nat, meta: map<nat, GapMeta>, droppedGaps: multiset<nat>, next: nat,
                    broken: bool)
    requires i < |pipes| && GapsCounted(pipes, meta, droppedGaps, next) && 0 !in meta
    ensures GapsCounted(RemoveAt(pipes, i), PipeGone(meta, pipes[i].gapId, broken), droppedGaps, next)
  {
    TalliedRemoved(pipes, i, meta, droppedGaps, broken);
    hide Tallied, PipeGone;
  }

  lemma TalliedRemoved(pipes: seq<Pipe>, i: nat, meta: map<nat, GapMeta>, droppedGaps: multiset<nat>, broken: bool)
    requires i < |pipes| && Tallied(pipes, meta, droppedGaps) && 0 !in meta
    ensures Tallied(RemoveAt(pipes, i), PipeGone(meta, pipes[i].gapId, broken), droppedGaps)
  {
    var gid, after := pipes[i].gapId, PipeGone(meta, pipes[i].gapId, broken);
    var was, now := Bag(pipes, GapOf()), Bag(RemoveAt(pipes, i), GapOf());
    assert was == now + multiset{gid} by {
      BagRemoveAt(pipes, i, GapOf());
      assert GapOf()(pipes[i]) == gid;
    }
    forall g | g in after
      ensures after[g].pipesRemaining == now[g] + droppedGaps[g]
      ensures !after[g].broken ==> after[g].pipesRemaining > 0
    {
      assert g in meta;
      assert was[g] == now[g] + (if g == gid then 1 else 0);
    }
  }

  lemma GapsTrimmed(pipes: seq<Pipe>, n: nat, meta: map<nat, GapMeta>, droppedGaps: multiset<nat>, next: nat)
    requires n <= |pipes| && GapsCounted(pipes, meta, droppedGaps, next)
    ensures GapsCounted(pipes[n..], meta, droppedGaps + Bag(pipes[..n], GapOf()), next)
  {
    var front, back := pipes[..n], pipes[n..];
    assert pipes == front + back;
    BagAppend(front, back, GapOf());
    BagWithin(front, GapOf(), next);
  }

  lemma {:induction false} BagWithin<T>(s: seq<T>, key: T -> nat, next: nat)
    requires forall i :: 0 <= i < |s| ==> key(s[i]) < next
    ensures forall g :: g in Bag(s, key) ==> g < next
  {
    if s != [] {
      BagWithin(s[..|s| - 1], key, next);
    }
  }

  lemma {:induction false} BagOfOne<T>(s: seq<T>, key: T -> nat, k: nat)
    requires forall i :: 0 <= i < |s| ==> key(s[i]) == k
    ensures forall g: nat :: Bag(s, key)[g] == if g == k then |s| else 0
  {
    if s != [] {
      BagOfOne(s[..|s| - 1], key, k);
    }
  }

  /** Pipes that belong to no gap change no count. */
  lemma GapsGrown(pipes: seq<Pipe>, young: seq<Pipe>, meta: map<nat, GapMeta>, droppedGaps: multiset<nat>, next: nat)
    requires GapsCounted(pipes, meta, droppedGaps, next) && 0 !in meta && next > 0
    requires forall i :: 0 <= i < |young| ==> young[i].gapId == 0
    ensures GapsCounted(pipes + young, meta, droppedGaps, next)
  {
    BagAppend(pipes, young, GapOf());
    BagOfOne(young, GapOf(), 0);
  }

  lemma GapsLoose(pipes: seq<Pipe>, specs: seq<PipeSpec>, id: nat, meta: map<nat, GapMeta>,
                  droppedGaps: multiset<nat>, next: nat)
    requires GapsCounted(pipes, meta, droppedGaps, next) && 0 !in meta && next > 0
    ensures GapsCounted(pipes + NewPipes(specs, id, 0), meta, droppedGaps, next)
  {
    NewPipesAre(specs, id, 0);
    GapsGrown(pipes, NewPipes(specs, id, 0), meta, droppedGaps, next);
    hide GapsCounted;
  }

  function WithEntry(meta: map<nat, GapMeta>, gapId: nat, count: nat): map<nat, GapMeta> {
    if count > 0 then meta[gapId := GapMeta(false, false, count)] else meta
  }

  lemma GapsWalled(pipes: seq<Pipe>, young: seq<Pipe>, meta: map<nat, GapMeta>, droppedGaps: multiset<nat>, next: nat)
    requires GapsCounted(pipes, meta, droppedGaps, next) && (forall g :: g in meta ==> g < next)
    requires forall i :: 0 <= i < |young| ==> young[i].gapId == next
    ensures GapsCounted(pipes + young, WithEntry(meta, next, |young|), droppedGaps, next + 1)
  {
    WalledTally(pipes, young, meta, droppedGaps, next);
    hide Bag, Tallied, WithEntry;
  }

  lemma WalledTally(pipes: seq<Pipe>, young: seq<Pipe>, meta: map<nat, GapMeta>, droppedGaps: multiset<nat>, next: nat)
    requires GapsCounted(pipes, meta, droppedGaps, next) && (forall g :: g in meta ==> g < next)
    requires forall i :: 0 <= i < |young| ==> young[i].gapId == next
    ensures Tallied(pipes + young, WithEntry(meta, next, |young|), droppedGaps)
  {
    GapUnused(pipes, meta, droppedGaps, next);
    BagAppend(pipes, young, GapOf());
    BagOfOne(young, GapOf(), next);
    TalliedWith(pipes, young, meta, droppedGaps, next);
    hide Bag, Tallied, WithEntry;
  }

  lemma GapUnused(pipes: seq<Pipe>, meta: map<nat, GapMeta>, droppedGaps: multiset<nat>, next: nat)
    requires GapsCounted(pipes, meta, droppedGaps, next)
    ensures Bag(pipes, GapOf())[next] == 0 && droppedGaps[next] == 0
  {
    hide Bag, Tallied;
    BagWithin(pipes, GapOf(), next);
  }

  lemma TalliedWith(pipes: seq<Pipe>, young: seq<Pipe>, meta: map<nat, GapMeta>, droppedGaps: multiset<nat>, next: nat)
    requires Tallied(pipes, meta, droppedGaps) && (forall g :: g in meta ==> g < next)
    requires Bag(pipes + young, GapOf()) == Bag(pipes, GapOf()) + Bag(young, GapOf())
    requires forall g: nat :: Bag(young, GapOf())[g] == if g == next then |young| else 0
    requires Bag(pipes, GapOf())[next] == 0 && droppedGaps[next] == 0
    ensures Tallied(pipes + young, WithEntry(meta, next, |young|), droppedGaps)
  {
    hide Bag;
  }

  lemma GapsNewWall(pipes: seq<Pipe>, specs: seq<PipeSpec>, id: nat, meta: map<nat, GapMeta>,
                    droppedGaps: multiset<nat>, next: nat)
    requires GapsCounted(pipes, meta, droppedGaps, next) && (forall g :: g in meta ==> g < next)
    ensures GapsCounted(pipes + NewPipes(specs, id, next), WithEntry(meta, next, |specs|), droppedGaps, next + 1)
  {
    NewPipesAre(specs, id, next);
    GapsWalled(pipes, NewPipes(specs, id, next), meta, droppedGaps, next);
    hide GapsCounted;
  }

  lemma GapsWithout(pipes: seq<Pipe>, meta: map<nat, GapMeta>, droppedGaps: multiset<nat>, next: nat, gid: nat)
    requires GapsCounted(pipes, meta, droppedGaps, next)
    ensures GapsCounted(pipes, meta - {gid}, droppedGaps, next)
  {
    hide Bag;
  }

  /** A perfect changes no count. */
  lemma GapsPerfected(pipes: seq<Pipe>, meta: map<nat, GapMeta>, later: map<nat, GapMeta>, droppedGaps: multiset<nat>,
                      next: nat)
    requires GapsCounted(pipes, meta, droppedGaps, next) && SameGaps(meta, later)
    ensures GapsCounted(pipes, later, droppedGaps, next)
  {
    hide Bag;
  }

  lemma GapsSame(pipes: seq<Pipe>, moved: seq<Pipe>, meta: map<nat, GapMeta>, droppedGaps: multiset<nat>, next: nat)
    requires GapsCounted(pipes, meta, droppedGaps, next) && SamePipes(pipes, moved)
    ensures GapsCounted(moved, meta, droppedGaps, next)
  {
    BagSame(pipes, moved, GapOf());
  }
}
