/** What plans bring to the field (public/js/game.js, public/js/pipes/pipeSpawner.js), as a function of the plans. */
module Stocks {
  import opened Options
  import opened Lists
  import opened Pipes
  import opened PerfectGaps
  import opened Spawning
  import opened GapHistory
  import opened RunModel
  import opened Census

  /** Everything a plan can change. */
  datatype Stock = Stock(
    pipes: seq<Pipe>, nextPipeId: nat, gates: seq<Gate>, gapMeta: map<nat, GapMeta>, nextGapId: nat)

  /** The spawn budget, and the size of a marker pipe. */
  datatype Room = Room(cap: Option<nat>, marker: real)

  /** The entry of a wall counts the wall's own pipes, not its marker. */
  function Placed(room: Room, s: Stock, plan: Plan): Stock {
    var young := PlanPipes(plan, room.marker, s.nextPipeId, s.nextGapId);
    match plan
    case Group(_) => s.(pipes := s.pipes + young, nextPipeId := s.nextPipeId + |young|)
    case Wall(_, specs, gate, _) =>
      Stock(s.pipes + young, s.nextPipeId + |young|, s.gates + [NewGate(gate, s.nextGapId)],
            WithEntry(s.gapMeta, s.nextGapId, |specs|), s.nextGapId + 1)
  }

  /** One plan carried out within the budget. */
  function WithPlan(room: Room, s: Stock, plan: Plan): Stock {
    if HasRoom(room.cap, |s.pipes|) then
      var placed := Placed(room, s, plan);
      placed.(pipes := Fitted(room.cap, placed.pipes))
    else s
  }

  function WithPlans(room: Room, s: Stock, plans: seq<Plan>): Stock {
    if plans == [] then s
    else WithPlan(room, WithPlans(room, s, plans[..|plans| - 1]), plans[|plans| - 1])
  }

  lemma WithOnePlan(room: Room, s: Stock, plan: Plan)
    ensures WithPlans(room, s, [plan]) == WithPlan(room, s, plan)
  {
    var plans := [plan];
    assert plans[..0] == [];
    hide WithPlan;
  }

  lemma {:induction false} WithMorePlans(room: Room, s: Stock, plans: seq<Plan>, more: seq<Plan>)
    ensures WithPlans(room, s, plans + more) == WithPlans(room, WithPlans(room, s, plans), more)
  {
    hide WithPlan;
    if more == [] {
      assert plans + more == plans;
    } else {
      var n := |more| - 1;
      WithMorePlans(room, s, plans, more[..n]);
      assert (plans + more)[..|plans| + n] == plans + more[..n];
    }
  }

  /** Of old and new pipes the newest are left; the new ones are numbered on, and no gate or score knows them yet. */
  ghost predicate Joined(s: Stock, later: Stock) {
    && s.nextPipeId <= later.nextPipeId
    && |later.pipes| <= |s.pipes| + (later.nextPipeId - s.nextPipeId)
    && forall i :: 0 <= i < |later.pipes| ==> Keeps(s, later, i)
  }

  /** Pipe `i` of the later ones, `place` on the list of all that were there or have come. */
  ghost predicate Keeps(s: Stock, later: Stock, i: nat)
    requires i < |later.pipes| && s.nextPipeId <= later.nextPipeId
    requires |later.pipes| <= |s.pipes| + (later.nextPipeId - s.nextPipeId)
  {
    var place := |s.pipes| + (later.nextPipeId - s.nextPipeId) - |later.pipes| + i;
    if place < |s.pipes| then later.pipes[i] == s.pipes[place]
    else Fresh(later.pipes[i]) && later.pipes[i].id == s.nextPipeId + (place - |s.pipes|)
  }

  predicate Fresh(p: Pipe) {
    !p.entered && !p.scored
  }

  /** Old gates and entries stay as they are; new ones belong to new gaps. */
  ghost predicate Walled(s: Stock, later: Stock) {
    && s.nextGapId <= later.nextGapId && s.gates <= later.gates
    && (forall i :: |s.gates| <= i < |later.gates| ==>
          s.nextGapId <= later.gates[i].gapId < later.nextGapId && !later.gates[i].perfected)
    && (forall g :: g in s.gapMeta && g < s.nextGapId ==> g in later.gapMeta && later.gapMeta[g] == s.gapMeta[g])
    && (forall g :: g in later.gapMeta && g !in s.gapMeta ==> s.nextGapId <= g < later.nextGapId)
  }

  lemma JoinedTwice(s: Stock, t: Stock, u: Stock)
    requires Joined(s, t) && Joined(t, u)
    ensures Joined(s, u)
  {
    forall i | 0 <= i < |u.pipes|
      ensures Keeps(s, u, i)
    {
      assert Keeps(t, u, i);
      var place := |t.pipes| + (u.nextPipeId - t.nextPipeId) - |u.pipes| + i;
      if place < |t.pipes| {
        assert Keeps(s, t, place);
      }
    }
  }

  lemma WalledTwice(s: Stock, t: Stock, u: Stock)
    requires Walled(s, t) && Walled(t, u)
    ensures Walled(s, u)
  {
  }

  lemma YoungAre(plan: Plan, marker: real, id: nat, gapId: nat)
    ensures var young := PlanPipes(plan, marker, id, gapId);
            forall i :: 0 <= i < |young| ==> young[i].id == id + i && Fresh(young[i])
  {
    match plan
    case Group(parts) =>
      NewPipesAre(SpecsOf(parts), id, 0);
    case Wall(special, specs, _, _) =>
      NewPipesAre([MarkerSpec(marker)], id, 0);
      NewPipesAre(specs, id + 1, gapId);
      NewPipesAre(specs, id, gapId);
  }

  /** A new pipe is the planned one: its place, size and speed, and the gap it belongs to. */
  predicate AsPlanned(p: Pipe, spec: PipeSpec, gapId: nat) {
    p.x == spec.x && p.y == spec.y && p.w == spec.w && p.h == spec.h && p.vx == spec.vx && p.vy == spec.vy
    && p.gapId == gapId
  }

  lemma {:induction false} SpecsAre(parts: seq<Part>)
    ensures |SpecsOf(parts)| == |parts|
    ensures forall i :: 0 <= i < |parts| ==> SpecsOf(parts)[i] == parts[i].pipe
  {
    if parts != [] { SpecsAre(parts[..|parts| - 1]); }
  }

  lemma PlannedPipes(specs: seq<PipeSpec>, id: nat, gapId: nat)
    ensures forall i :: 0 <= i < |specs| ==> AsPlanned(NewPipes(specs, id, gapId)[i], specs[i], gapId)
  {
    NewPipesAre(specs, id, gapId);
    hide NewPipes;
  }

  /** What a group brings: the pipes of its parts in order, which belong to no gap. */
  lemma GroupBrings(parts: seq<Part>, marker: real, id: nat, gapId: nat)
    ensures var young := PlanPipes(Group(parts), marker, id, gapId);
            |young| == |parts| && forall i :: 0 <= i < |parts| ==> AsPlanned(young[i], parts[i].pipe, 0)
  {
    SpecsAre(parts);
    PlannedPipes(SpecsOf(parts), id, 0);
    hide NewPipes, SpecsOf, AsPlanned;
  }

  /**
   What a wall brings: its pipes, which belong to the new gap - after a motionless marker beyond the corner, if it is a
   special one.
   */
  lemma WallBrings(plan: Plan, marker: real, id: nat, gapId: nat)
    requires plan.Wall?
    ensures var young, specs, first := PlanPipes(plan, marker, id, gapId), plan.pipes, if plan.special then 1 else 0;
            && |young| == first + |specs|
            && (plan.special ==> AsPlanned(young[0], PipeSpec(-200.0, -200.0, marker, marker, 0.0, 0.0), 0))
            && forall i :: 0 <= i < |specs| ==> AsPlanned(young[first + i], specs[i], gapId)
  {
    PlannedPipes([MarkerSpec(marker)], id, 0);
    PlannedPipes(plan.pipes, id + 1, gapId);
    PlannedPipes(plan.pipes, id, gapId);
    assert [MarkerSpec(marker)][0] == MarkerSpec(marker);
    hide NewPipes, AsPlanned;
  }

  /** A new gate stands where it is planned, has not moved, entered or been judged, and belongs to the new gap. */
  lemma GateBrought(spec: GateSpec, gapId: nat)
    ensures var g := NewGate(spec, gapId);
            && g.axisX == spec.axisX && g.pos == g.prev == spec.pos && g.v == spec.v && g.gapCenter == spec.gapCenter
            && g.gapHalf == spec.gapHalf && g.thick == spec.thick
            && !g.entered && !g.cleared && !g.perfected && g.gapId == gapId
  {
  }

  /** What is left within the budget is as much as there is room for. */
  lemma FittedCount(cap: Option<nat>, pipes: seq<Pipe>)
    ensures |Fitted(cap, pipes)| == if cap.Some? && cap.value < |pipes| then cap.value else |pipes|
    ensures HasRoom(cap, |pipes|) <==> cap.None? || |pipes| < cap.value
  {
  }

  lemma FittedIsTail(cap: Option<nat>, pipes: seq<Pipe>)
    ensures |Fitted(cap, pipes)| <= |pipes|
    ensures Fitted(cap, pipes) == pipes[|pipes| - |Fitted(cap, pipes)|..]
  {
  }

  lemma TailJoins(s: Stock, young: seq<Pipe>, d: nat, later: Stock)
    requires forall i :: 0 <= i < |young| ==> young[i].id == s.nextPipeId + i && Fresh(young[i])
    requires d <= |s.pipes| + |young| && later.pipes == (s.pipes + young)[d..]
    requires later.nextPipeId == s.nextPipeId + |young|
    ensures Joined(s, later)
  {
    forall i | 0 <= i < |later.pipes|
      ensures Keeps(s, later, i)
    {
      assert later.pipes[i] == (s.pipes + young)[d + i];
    }
  }

  lemma PlanJoins(room: Room, s: Stock, plan: Plan)
    ensures Joined(s, WithPlan(room, s, plan))
  {
    hide PlanPipes, Fitted, Joined, Keeps;
    var later := WithPlan(room, s, plan);
    if HasRoom(room.cap, |s.pipes|) {
      var young := PlanPipes(plan, room.marker, s.nextPipeId, s.nextGapId);
      YoungAre(plan, room.marker, s.nextPipeId, s.nextGapId);
      FittedIsTail(room.cap, s.pipes + young);
      TailJoins(s, young, |s.pipes + young| - |later.pipes|, later);
    } else {
      TailJoins(s, [], 0, s);
    }
  }

  lemma PlanWalls(room: Room, s: Stock, plan: Plan)
    ensures Walled(s, WithPlan(room, s, plan))
  {
    hide PlanPipes, Fitted;
  }

  /** Whatever is carried out: what is left of the old pipes comes first, untouched, and no gate or entry changes. */
  lemma {:induction false} PlansOnlyAdd(room: Room, s: Stock, plans: seq<Plan>)
    ensures Joined(s, WithPlans(room, s, plans)) && Walled(s, WithPlans(room, s, plans))
  {
    if plans != [] {
      var n := |plans| - 1;
      var t := WithPlans(room, s, plans[..n]);
      PlansOnlyAdd(room, s, plans[..n]);
      PlanJoins(room, t, plans[n]);
      PlanWalls(room, t, plans[n]);
      JoinedTwice(s, t, WithPlan(room, t, plans[n]));
      WalledTwice(s, t, WithPlan(room, t, plans[n]));
      hide WithPlan, Joined, Walled;
    }
  }
}
