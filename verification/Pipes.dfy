/** Pipes (public/js/entities.js), and the account of where each of them went. */
module Pipes {
  import opened Geometry
  import opened Lists

  /** `id` stands for the object's identity; `gapId` is 0 for a pipe that belongs to no wall. */
  datatype Pipe = Pipe(
    id: nat, gapId: nat, x: real, y: real, w: real, h: real, vx: real, vy: real, entered: bool, scored: bool)

  function Box(p: Pipe): Rect {
    Rect(p.x, p.y, p.w, p.h)
  }

  /** `Pipe.update`. */
  function PipeMoved(p: Pipe, dt: real, mul: real, w: real, h: real): Pipe {
    var x, y := p.x + p.vx * dt * mul, p.y + p.vy * dt * mul;
    var onScreen := x + p.w >= 0.0 && x <= w && y + p.h >= 0.0 && y <= h;
    p.(x := x, y := y, entered := p.entered || onScreen)
  }

  /** `Pipe.off`. */
  predicate PipeOff(p: Pipe, w: real, h: real, m: real) {
    p.x > w + m || p.x + p.w < -m || p.y > h + m || p.y + p.h < -m
  }

  /** `_pipeOverlapsCircle`. */
  predicate Overlaps(p: Pipe, x: real, y: real, r: real) {
    r > 0.0 && CircleRect(x, y, r, Box(p))
  }

  function IdOf(): Pipe -> nat {
    (p: Pipe) => p.id
  }

  function GapOf(): Pipe -> nat {
    (p: Pipe) => p.gapId
  }

  /** The numbers below `n`, each once. */
  function Below(n: nat): multiset<nat> {
    if n == 0 then multiset{} else Below(n - 1) + multiset{n - 1}
  }

  lemma {:induction false} BelowOnce(n: nat)
    ensures |Below(n)| == n
    ensures forall k: nat :: Below(n)[k] == if k < n then 1 else 0
  {
    if n > 0 {
      BelowOnce(n - 1);
    }
  }

  /**
   Every pipe made so far - their ids are the numbers below `next` - is on the
   list or has met exactly one fate.
   */
  ghost predicate Accounted(pipes: seq<Pipe>, dodged: seq<nat>, broken: seq<nat>, dropped: seq<nat>, next: nat) {
    Bag(pipes, IdOf()) + multiset(dodged) + multiset(broken) + multiset(dropped) == Below(next)
  }

  /** So the counts add up to the number of pipes made. */
  lemma CountsAddUp(pipes: seq<Pipe>, dodged: seq<nat>, broken: seq<nat>, dropped: seq<nat>, next: nat)
    requires Accounted(pipes, dodged, broken, dropped, next)
    ensures |pipes| + |dodged| + |broken| + |dropped| == next
  {
    BagSize(pipes, IdOf());
    BelowOnce(next);
    assert |multiset(dodged)| == |dodged| && |multiset(broken)| == |broken| && |multiset(dropped)| == |dropped|;
  }

  /** No pipe has two fates, and a pipe on the list has none. */
  lemma OneFateEach(pipes: seq<Pipe>, dodged: seq<nat>, broken: seq<nat>, dropped: seq<nat>, next: nat)
    requires Accounted(pipes, dodged, broken, dropped, next)
    ensures forall k: nat :: k in dodged ==> k !in broken && k !in dropped
    ensures forall k: nat :: k in broken ==> k !in dropped
    ensures forall i :: 0 <= i < |pipes| ==>
              pipes[i].id !in dodged && pipes[i].id !in broken && pipes[i].id !in dropped && pipes[i].id < next
  {
    BelowOnce(next);
    forall k: nat | k in dodged
      ensures k !in broken && k !in dropped
    {
      OneAtMost(pipes, dodged, broken, dropped, next, k);
    }
    forall k: nat | k in broken
      ensures k !in dropped
    {
      OneAtMost(pipes, dodged, broken, dropped, next, k);
    }
    forall i | 0 <= i < |pipes|
      ensures pipes[i].id !in dodged && pipes[i].id !in broken && pipes[i].id !in dropped && pipes[i].id < next
    {
      BagCounts(pipes, IdOf(), pipes[i].id);
      assert IdOf()(pipes[i]) == pipes[i].id;
      OneAtMost(pipes, dodged, broken, dropped, next, pipes[i].id);
    }
  }

  /** Identities on the list are distinct. */
  lemma DistinctIds(pipes: seq<Pipe>, dodged: seq<nat>, broken: seq<nat>, dropped: seq<nat>, next: nat, i: nat, j: nat)
    requires Accounted(pipes, dodged, broken, dropped, next) && i < j < |pipes|
    ensures pipes[i].id != pipes[j].id
  {
    var rest := RemoveAt(pipes, i);
    BagRemoveAt(pipes, i, IdOf());
    assert IdOf()(rest[j - 1]) == pipes[j].id;
    BagCounts(rest, IdOf(), pipes[j].id);
    OneAtMost(pipes, dodged, broken, dropped, next, pipes[j].id);
  }

  lemma OneAtMost(pipes: seq<Pipe>, dodged: seq<nat>, broken: seq<nat>, dropped: seq<nat>, next: nat, k: nat)
    requires Accounted(pipes, dodged, broken, dropped, next)
    ensures Bag(pipes, IdOf())[k] + multiset(dodged)[k] + multiset(broken)[k] + multiset(dropped)[k]
              == if k < next then 1 else 0
  {
    BelowOnce(next);
    assert (Bag(pipes, IdOf()) + multiset(dodged) + multiset(broken) + multiset(dropped))[k] == Below(next)[k];
  }
}
