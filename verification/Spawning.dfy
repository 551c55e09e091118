/**
 Spawn plans and their warnings (public/js/game.js, public/js/pipes/pipeSpawner.js):
 what is promised when a plan is warned of, and how many regular spawns a
 stretch of play can hold.
 */
module Spawning {
  import opened Options
  import opened JsNumbers
  import opened Lists

  datatype PipeSpec = PipeSpec(x: real, y: real, w: real, h: real, vx: real, vy: real)

  datatype GateSpec = GateSpec(axisX: bool, pos: real, v: real, gapCenter: real, gapHalf: real, thick: real)

  /** What a warning shows: side, kind, edge segments and thickness. A plan whose segments are empty shows none. */
  datatype Sign = Sign(side: nat, wall: bool, segments: seq<(real, real)>, thickness: real)

  datatype Part = Part(pipe: PipeSpec, sign: Option<Sign>)

  /** A single pipe, a burst or a crossfire is a group of pipes; a special wall brings a marker pipe along. */
  datatype Plan =
    | Group(parts: seq<Part>)
    | Wall(special: bool, pipes: seq<PipeSpec>, gate: GateSpec, sign: Option<Sign>)

  datatype Warning = Warning(sign: Sign, spawnAt: real)

  function SignOf(sign: Option<Sign>): seq<Sign> {
    if sign.Some? then [sign.value] else []
  }

  function SignsOf(parts: seq<Part>): seq<Sign> {
    if parts == [] then []
    else SignsOf(parts[..|parts| - 1]) + SignOf(parts[|parts| - 1].sign)
  }

  function Signs(plan: Plan): seq<Sign> {
    match plan
    case Group(parts) => SignsOf(parts)
    case Wall(_, _, _, sign) => SignOf(sign)
  }

  /** The warnings a plan is announced by. */
  function Announced(plan: Plan, spawnAt: real): seq<Warning> {
    Stamp(Signs(plan), spawnAt)
  }

  function Stamp(signs: seq<Sign>, spawnAt: real): seq<Warning> {
    if signs == [] then [] else Stamp(signs[..|signs| - 1], spawnAt) + [Warning(signs[|signs| - 1], spawnAt)]
  }

  lemma StampAppend(signs: seq<Sign>, more: seq<Sign>, spawnAt: real)
    requires |more| <= 1
    ensures Stamp(signs + more, spawnAt) == Stamp(signs, spawnAt) + Stamp(more, spawnAt)
  {
    if more == [] {
      assert signs + more == signs;
    } else {
      assert (signs + more)[..|signs|] == signs;
      assert more[..0] == [];
    }
  }

  lemma NoSigns(parts: seq<Part>, spawnAt: real)
    requires parts == []
    ensures Stamp(SignsOf(parts), spawnAt) == []
  {
  }

  lemma StampNext(parts: seq<Part>, k: nat, spawnAt: real)
    requires k < |parts|
    ensures Stamp(SignsOf(parts[..k + 1]), spawnAt) ==
      Stamp(SignsOf(parts[..k]), spawnAt) + Stamp(SignOf(parts[k].sign), spawnAt)
  {
    assert parts[..k + 1][..k] == parts[..k];
    StampAppend(SignsOf(parts[..k]), SignOf(parts[k].sign), spawnAt);
  }

  lemma {:induction false} StampedAt(signs: seq<Sign>, spawnAt: real)
    ensures forall w :: w in Stamp(signs, spawnAt) ==> w.spawnAt == spawnAt
  {
    if signs != [] { StampedAt(signs[..|signs| - 1], spawnAt); }
  }

  /** The signs of a plan: one for every part that shows any, or the one of the wall. */
  lemma {:induction false} SignsAre(parts: seq<Part>, sign: Sign)
    ensures sign in SignsOf(parts) <==> exists i :: 0 <= i < |parts| && parts[i].sign == Some(sign)
    ensures |SignsOf(parts)| <= |parts|
  {
    if parts != [] {
      var front, last := parts[..|parts| - 1], parts[|parts| - 1];
      SignsAre(front, sign);
      assert last == parts[|parts| - 1];
      assert forall i :: 0 <= i < |front| ==> front[i] == parts[i];
    }
  }

  lemma {:induction false} StampIs(signs: seq<Sign>, spawnAt: real)
    ensures |Stamp(signs, spawnAt)| == |signs|
    ensures forall i :: 0 <= i < |signs| ==> Stamp(signs, spawnAt)[i] == Warning(signs[i], spawnAt)
  {
    if signs != [] { StampIs(signs[..|signs| - 1], spawnAt); }
  }

  /** A plan is announced by exactly the signs its parts show, or its wall shows, each for the moment of its spawn. */
  lemma AnnouncedIff(plan: Plan, spawnAt: real, w: Warning)
    ensures w in Announced(plan, spawnAt) <==>
      && w.spawnAt == spawnAt
      && match plan
         case Group(parts) => exists i :: 0 <= i < |parts| && parts[i].sign == Some(w.sign)
         case Wall(_, _, _, sign) => sign == Some(w.sign)
  {
    var signs := Signs(plan);
    StampIs(signs, spawnAt);
    if plan.Group? {
      SignsAre(plan.parts, w.sign);
    }
    if w.spawnAt == spawnAt && w.sign in signs {
      var i :| 0 <= i < |signs| && signs[i] == w.sign;
      assert Stamp(signs, spawnAt)[i] == w;
    }
  }

  /** A plan as it was announced, and as it was carried out: at `at`, the tick before having ended at `before`. */
  datatype Promise = Promise(plan: Plan, spawnAt: real)
  datatype Delivery = Delivery(plan: Plan, before: real, at: real)

  function PlansOf(deliveries: seq<Delivery>): seq<Plan> {
    if deliveries == [] then [] else PlansOf(deliveries[..|deliveries| - 1]) + [deliveries[|deliveries| - 1].plan]
  }

  lemma {:induction false} PlansAt(deliveries: seq<Delivery>)
    ensures |PlansOf(deliveries)| == |deliveries|
    ensures forall i :: 0 <= i < |deliveries| ==> PlansOf(deliveries)[i] == deliveries[i].plan
  {
    if deliveries != [] { PlansAt(deliveries[..|deliveries| - 1]); }
  }

  lemma PlansNext(deliveries: seq<Delivery>, d: Delivery)
    ensures PlansOf(deliveries + [d]) == PlansOf(deliveries) + [d.plan]
  {
    assert (deliveries + [d])[..|deliveries|] == deliveries;
  }

  /**
   With warnings switched on, the plans carried out are the ones delivered on a promise: no spawn comes
   unannounced.
   */
  ghost predicate NoSurprise(lead: real, deliveries: seq<Delivery>, spawns: seq<Plan>) {
    lead > 0.0 ==> PlansOf(deliveries) == spawns
  }

  lemma NoSurpriseNext(lead: real, deliveries: seq<Delivery>, spawns: seq<Plan>, pending: Option<Plan>,
                       plan: Plan, before: real, now: real)
    requires NoSurprise(lead, deliveries, spawns)
    requires lead > 0.0 ==> pending == Some(plan)
    ensures NoSurprise(lead, if pending.Some? then deliveries + [Delivery(plan, before, now)] else deliveries,
                       spawns + [plan])
  {
    PlansNext(deliveries, Delivery(plan, before, now));
  }

  /** Each delivery is of the plan promised in its place, at the first tick whose time has reached `spawnAt`. */
  ghost predicate Honoured(promises: seq<Promise>, deliveries: seq<Delivery>) {
    && |deliveries| <= |promises|
    && forall i :: 0 <= i < |deliveries| ==>
         && deliveries[i].plan == promises[i].plan
         && deliveries[i].before < promises[i].spawnAt <= deliveries[i].at
  }

  /** A pending plan is the one promise not yet kept: due when the timer runs out, and not due at `before`. */
  ghost predicate Outstanding(promises: seq<Promise>, deliveries: seq<Delivery>, pending: Option<Plan>,
                              now: real, timer: real, before: real) {
    && Honoured(promises, deliveries)
    && |promises| == |deliveries| + (if pending.Some? then 1 else 0)
    && (pending.Some? ==>
          var p := promises[|promises| - 1];
          && p.plan == pending.value
          && before < p.spawnAt
          && (if timer > 0.0 then p.spawnAt == now + timer else p.spawnAt <= now))
  }

  /** The warnings that belong to a pending plan. */
  ghost function Pending(promises: seq<Promise>, pending: Option<Plan>): multiset<Warning> {
    if pending.Some? && promises != [] then
      var p := promises[|promises| - 1];
      multiset(Announced(p.plan, p.spawnAt))
    else multiset{}
  }

  // ---- promises, step by step ----

  lemma NothingPromised(promises: seq<Promise>, deliveries: seq<Delivery>, now: real, timer: real)
    requires promises == [] && deliveries == []
    ensures Outstanding(promises, deliveries, None, now, timer, now)
  {
  }

  /** Time passes: nothing that was pending was due before. */
  lemma PromiseWaits(promises: seq<Promise>, deliveries: seq<Delivery>, pending: Option<Plan>, now: real, timer: real,
                     dt: real)
    requires Outstanding(promises, deliveries, pending, now, timer, now)
    requires (pending.Some? ==> timer > 0.0) && dt > 0.0
    ensures Outstanding(promises, deliveries, pending, now + dt, timer - dt, now)
  {
  }

  lemma PromiseMade(promises: seq<Promise>, deliveries: seq<Delivery>, plan: Plan, now: real, timer: real, before: real)
    requires Outstanding(promises, deliveries, None, now, timer, before) && before < now
    ensures Outstanding(promises + [Promise(plan, now + Max(0.0, timer))], deliveries, Some(plan), now, timer, before)
  {
  }

  lemma PromiseHonoured(promises: seq<Promise>, deliveries: seq<Delivery>, pending: Option<Plan>, plan: Plan,
                        now: real, timer: real, later: real, before: real)
    requires Outstanding(promises, deliveries, pending, now, timer, before) && timer <= 0.0
    requires pending.Some? ==> plan == pending.value
    ensures Outstanding(promises, if pending.Some? then deliveries + [Delivery(plan, before, now)] else deliveries,
                        None, now, later, before)
  {
  }

  // ---- warnings on show ----

  function Upcoming(now: real): Warning -> bool {
    (w: Warning) => w.spawnAt > now
  }

  /** The warnings of a pending plan that is still to come. */
  ghost function Forthcoming(promises: seq<Promise>, pending: Option<Plan>, now: real): multiset<Warning> {
    if promises != [] && promises[|promises| - 1].spawnAt > now then Pending(promises, pending) else multiset{}
  }

  /** The warnings not yet over are those of the pending plan, and `rest`. */
  ghost predicate Shown(warnings: seq<Warning>, now: real, promises: seq<Promise>, pending: Option<Plan>,
                        rest: multiset<Warning>) {
    multiset(Kept(warnings, Upcoming(now))) == Forthcoming(promises, pending, now) + rest
  }

  lemma ForthcomingCount(promises: seq<Promise>, pending: Option<Plan>, now: real, w: Warning)
    ensures Forthcoming(promises, pending, now)[w] == if w.spawnAt > now then Pending(promises, pending)[w] else 0
  {
    if pending.Some? && promises != [] {
      var p := promises[|promises| - 1];
      StampedAt(Signs(p.plan), p.spawnAt);
      assert w in Announced(p.plan, p.spawnAt) ==> w.spawnAt == p.spawnAt;
    }
  }

  /** All warnings on show being pending, those of them that time has not overtaken stay on show. */
  lemma ShownLater(warnings: seq<Warning>, now: real, promises: seq<Promise>, pending: Option<Plan>,
                   promises': seq<Promise>, pending': Option<Plan>)
    requires multiset(warnings) == Pending(promises, pending) + Pending(promises', pending')
    ensures Shown(warnings, now, promises, pending, Forthcoming(promises', pending', now))
  {
    hide Forthcoming, Pending;
    forall w: Warning
      ensures multiset(Kept(warnings, Upcoming(now)))[w] ==
        (Forthcoming(promises, pending, now) + Forthcoming(promises', pending', now))[w]
    {
      KeptCount(warnings, Upcoming(now), w);
      ForthcomingCount(promises, pending, now, w);
      ForthcomingCount(promises', pending', now, w);
      assert multiset(warnings)[w] == Pending(promises, pending)[w] + Pending(promises', pending')[w];
    }
  }

  lemma ShownPromised(warnings: seq<Warning>, now: real, promises: seq<Promise>, plan: Plan, spawnAt: real,
                      rest: multiset<Warning>)
    requires Shown(warnings, now, promises, None, rest)
    ensures Shown(warnings + Announced(plan, spawnAt), now, promises + [Promise(plan, spawnAt)], Some(plan), rest)
  {
    var extra := Announced(plan, spawnAt);
    KeptAppend(warnings, extra, Upcoming(now));
    StampedAt(Signs(plan), spawnAt);
    if spawnAt > now {
      KeptAll(extra, Upcoming(now));
    } else {
      KeptNone(extra, Upcoming(now));
    }
  }

  lemma ShownSwapped(warnings: seq<Warning>, now: real, promises: seq<Promise>, pending: Option<Plan>,
                     promises': seq<Promise>, pending': Option<Plan>)
    requires Shown(warnings, now, promises, pending, Forthcoming(promises', pending', now))
    ensures Shown(warnings, now, promises', pending', Forthcoming(promises, pending, now))
  {
    hide Forthcoming;
  }

  lemma ShownDelivered(warnings: seq<Warning>, now: real, promises: seq<Promise>, deliveries: seq<Delivery>,
                       pending: Option<Plan>, timer: real, before: real, rest: multiset<Warning>)
    requires Outstanding(promises, deliveries, pending, now, timer, before) && timer <= 0.0
    requires Shown(warnings, now, promises, pending, rest)
    ensures Shown(warnings, now, promises, None, rest)
  {
  }

  /** A pending plan whose timer still runs is to come. */
  lemma ForthcomingPending(promises: seq<Promise>, deliveries: seq<Delivery>, pending: Option<Plan>, now: real,
                           timer: real,
                   before: real)
    requires Outstanding(promises, deliveries, pending, now, timer, before) && (pending.Some? ==> timer > 0.0)
    ensures Forthcoming(promises, pending, now) == Pending(promises, pending)
    ensures Outstanding(promises, deliveries, pending, now, timer, now)
  {
  }

  // ---- how often ----

  ghost predicate Within(intervals: seq<real>, min: real, max: real) {
    forall i :: 0 <= i < |intervals| ==> min <= intervals[i] <= max
  }

  /** The intervals used so far run from the start of play to the next spawn, and the last spawn was due. */
  ghost predicate Paced(intervals: seq<real>, now: real, timer: real) {
    && Sum(intervals) == now + timer
    && (intervals != [] ==> Sum(intervals[..|intervals| - 1]) <= now)
  }

  lemma NothingSpawned(intervals: seq<real>, min: real, max: real, now: real, timer: real)
    requires intervals == [] && now + timer == 0.0
    ensures Within(intervals, min, max) && Paced(intervals, now, timer)
  {
  }

  lemma PaceLater(intervals: seq<real>, now: real, timer: real, dt: real)
    requires Paced(intervals, now, timer) && dt > 0.0
    ensures Paced(intervals, now + dt, timer - dt)
  {
  }

  lemma PaceKept(intervals: seq<real>, min: real, max: real, now: real, timer: real, interval: real)
    requires Within(intervals, min, max) && Paced(intervals, now, timer) && timer <= 0.0 && min <= interval <= max
    ensures Within(intervals + [interval], min, max) && Paced(intervals + [interval], now, timer + interval)
  {
    assert (intervals + [interval])[..|intervals|] == intervals;
  }

  lemma SpawnedByNow(intervals: seq<real>, now: real, timer: real)
    requires Paced(intervals, now, timer) && now > 0.0 && timer > 0.0
    ensures intervals != []
  {
  }

  lemma {:induction false} SumBounds(intervals: seq<real>, min: real, max: real)
    requires Within(intervals, min, max)
    ensures Times(|intervals|, min) <= Sum(intervals) <= Times(|intervals|, max)
  {
    if intervals != [] {
      SumBounds(intervals[..|intervals| - 1], min, max);
    }
  }

  /**
   After `now` seconds of play, whatever the tick lengths and the difficulty, the number `n` of regular
   spawns satisfies  now / max < n <= now / min + 1.
   */
  lemma SpawnCountBounds(intervals: seq<real>, now: real, timer: real, min: real, max: real)
    requires 0.0 < min <= max && Within(intervals, min, max)
    requires Paced(intervals, now, timer) && timer > 0.0 && intervals != []
    ensures var n := |intervals|;
            now < n as real * max && n as real * min <= now + min
  {
    var n := |intervals|;
    SumBounds(intervals, min, max);
    var earlier := intervals[..n - 1];
    SumBounds(earlier, min, max);
    assert Times(n, min) == Times(|earlier|, min) + min;
    TimesIsProduct(n, max);
    TimesIsProduct(n, min);
  }
}
