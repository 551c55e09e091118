/**
 The life of the gaps in walls, told as a list of events: what the bookkeeping
 in public/js/game.js may and may not do to the perfect streak.
 */
module GapHistory {
  import opened Streaks

  datatype GapEvent =
    | Opened(gap: nat)               // a wall with pipes was spawned
    | Perfected(gap: nat)            // a perfect was awarded
    | Broken(gap: nat)               // one of the wall's pipes was shattered
    | Closed(gap: nat, reset: bool)  // the entry was dropped; `reset`: the perfect streak was reset

  /** The entry of `_gapMeta`. */
  datatype GapMeta = GapMeta(perfected: bool, broken: bool, pipesRemaining: nat)

  /** The events of a history. */
  function Past(log: seq<GapEvent>): set<GapEvent> {
    if log == [] then {} else Past(log[..|log| - 1]) + {log[|log| - 1]}
  }

  lemma {:induction false} PastHas(log: seq<GapEvent>, i: nat)
    requires i < |log|
    ensures log[i] in Past(log)
  {
    if i < |log| - 1 {
      PastHas(log[..|log| - 1], i);
    }
  }

  predicate WasClosed(past: set<GapEvent>, g: nat) {
    Closed(g, true) in past || Closed(g, false) in past
  }

  /** The rules every new event obeys, given those before it. */
  predicate Follows(past: set<GapEvent>, e: GapEvent) {
    match e
    case Opened(g) => forall x :: x in past ==> x.gap < g
    case Perfected(g) => e !in past
    case Broken(g) => true
    case Closed(g, reset) =>
      && Opened(g) in past
      && !WasClosed(past, g)
      && (reset <==> Perfected(g) !in past && Broken(g) !in past)
  }

  predicate WellTold(log: seq<GapEvent>) {
    log != [] ==> WellTold(log[..|log| - 1]) && Follows(Past(log[..|log| - 1]), log[|log| - 1])
  }

  /** The streaks of perfects a history amounts to. */
  function StreaksOf(log: seq<GapEvent>): (s: seq<nat>)
    ensures s != []
  {
    if log == [] then [0]
    else
      var s := StreaksOf(log[..|log| - 1]);
      match log[|log| - 1]
      case Perfected(_) => Extended(s)
      case Closed(_, true) => s + [0]
      case _ => s
  }

  lemma OneMoreEvent(log: seq<GapEvent>, e: GapEvent)
    ensures Past(log + [e]) == Past(log) + {e}
    ensures WellTold(log + [e]) <==> WellTold(log) && Follows(Past(log), e)
    ensures StreaksOf(log + [e]) ==
              match e { case Perfected(_) => Extended(StreaksOf(log))
                        case Closed(_, true) => StreaksOf(log) + [0]
                        case _ => StreaksOf(log) }
  {
    assert (log + [e])[..|log|] == log;
  }

  /** Every event of a well-told history obeys the rules in its place. */
  lemma {:induction false} EachFollows(log: seq<GapEvent>, j: nat)
    requires WellTold(log) && j < |log|
    ensures Follows(Past(log[..j]), log[j])
  {
    if j < |log| - 1 {
      EachFollows(log[..|log| - 1], j);
      assert log[..|log| - 1][..j] == log[..j];
    }
  }

  /** A gap resets the streak at most once, and never after one of its pipes was broken or it was perfected. */
  lemma ResetOnceAndNeverAfter(log: seq<GapEvent>, i: nat, j: nat)
    requires WellTold(log) && i < j < |log| && log[i].gap == log[j].gap
    requires log[i].Perfected? || log[i].Broken? || log[i].Closed?
    ensures log[j] != Closed(log[i].gap, true)
  {
    EachFollows(log, j);
    PastHas(log[..j], i);
  }

  /** When a gap's entry is dropped, the streak is reset exactly if the gap was neither perfected nor broken so far. */
  lemma ResetIffMissed(log: seq<GapEvent>, j: nat)
    requires WellTold(log) && j < |log| && log[j].Closed?
    ensures log[j].reset <==>
              forall i :: 0 <= i < j ==> log[i] != Perfected(log[j].gap) && log[i] != Broken(log[j].gap)
  {
    EachFollows(log, j);
    forall i | 0 <= i < j
      ensures log[i] in Past(log[..j])
    {
      PastHas(log[..j], i);
    }
    forall e | e in Past(log[..j])
      ensures exists i :: 0 <= i < j && log[i] == e
    {
      PastIs(log[..j], e);
    }
  }

  lemma {:induction false} PastIs(log: seq<GapEvent>, e: GapEvent)
    requires e in Past(log)
    ensures e in log
  {
    if e != log[|log| - 1] {
      PastIs(log[..|log| - 1], e);
    }
  }

  /** No gap is awarded twice. */
  lemma AwardedOnce(log: seq<GapEvent>, i: nat, j: nat)
    requires WellTold(log) && i < j < |log| && log[i].Perfected?
    ensures log[j] != log[i]
  {
    EachFollows(log, j);
    PastHas(log[..j], i);
  }

  /** The live entries mirror the history: one for every gap opened and not yet closed, with its flags. */
  ghost predicate Mirrors(past: set<GapEvent>, meta: map<nat, GapMeta>, next: nat) {
    && (forall e :: e in past ==> 0 < e.gap < next)
    && (forall g :: g in meta <==> Opened(g) in past && !WasClosed(past, g))
    && (forall g :: g in meta ==>
          (meta[g].perfected <==> Perfected(g) in past) && (meta[g].broken <==> Broken(g) in past))
  }
}
