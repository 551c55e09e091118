/**
 How many ticks a live run makes (public/js/main.js, `frame`): as many as the clamped time of its frames pays for.
 */
module FrameTime {
  import opened Options
  import opened RandomPrograms
  import opened GameTicks
  import opened Modes
  import opened LiveRecording
  import opened LateFrames
  import opened Hearing

  /** The time a frame is given: never negative, and at most a twentieth of a second. */
  function Granted(lastTs: real, ts: real): real {
    if ts <= lastTs then 0.0 else if ts - lastTs >= 50.0 then 0.05 else (ts - lastTs) / 1000.0
  }

  function LastStamp(lastTs: real, events: seq<Event>): real {
    if events == [] then lastTs
    else if events[|events| - 1].Frame? then events[|events| - 1].ts
    else LastStamp(lastTs, events[..|events| - 1])
  }

  function AllGranted(lastTs: real, events: seq<Event>): real {
    if events == [] then 0.0
    else
      var front, ev := events[..|events| - 1], events[|events| - 1];
      AllGranted(lastTs, front) + if ev.Frame? then Granted(LastStamp(lastTs, front), ev.ts) else 0.0
  }

  function InTicks(n: nat): real {
    n as real / 480.0
  }

  /** The ticks of a frame use the time up to less than a tick, as long as the game is played. */
  lemma {:induction false} DrainUses<G(!new)>(gm: Game<G>, s: Live<G>)
    requires Wf(gm, s) && !s.ended && s.acc >= 0.0
    ensures var s' := DrainAcc(gm, s);
            && s'.acc >= 0.0 && !s'.ended && s'.lastTs == s.lastTs && |s'.ticks| >= |s.ticks|
            && (gm.mode(s'.g) == Playing ==>
                  gm.mode(s.g) == Playing && s'.acc < 1.0 / 480.0
                  && s'.acc + InTicks(|s'.ticks|) == s.acc + InTicks(|s.ticks|))
    decreases TicksDue(s.acc)
  {
    if s.acc >= SIM_DT {
      if gm.mode(s.g) != Playing {
        IdleTick(gm, s);
      }
      TickUsesTime(gm, s);
      var t := LiveTick(gm, s);
      assert t.acc == s.acc - 1.0 / 480.0;
      assert gm.mode(s.g) == Playing ==> InTicks(|t.ticks|) == InTicks(|s.ticks|) + 1.0 / 480.0;
      if gm.mode(t.g) != Over {
        DrainUses(gm, t);
      }
    }
  }

  lemma GrantedIs<G>(s: Live<G>, ts: real)
    ensures AddFrame(s, ts) == s.(acc := s.acc + Granted(s.lastTs, ts), lastTs := ts)
  {
  }

  /**
   In a run that is still played and recorded,
     the ticks recorded and the time kept are the time its frames were given, and
   what is kept is less than a tick.
   */
  lemma {:induction false} TicksPaidFor<G(!new)>(
      gm: Game<G>, base: Stream, input: Input, lastTs: real, events: seq<Event>)
    requires Sound(gm) && Unfinished(events)
    ensures var s := Run(gm, StartGame(gm, base, input, lastTs), events);
            && s.acc >= 0.0 && !s.ended && s.lastTs == LastStamp(lastTs, events)
            && (gm.mode(s.g) == Playing ==>
                  s.acc < 1.0 / 480.0 && s.acc + InTicks(|s.ticks|) == AllGranted(lastTs, events))
  {
    if events != [] {
      var front, ev := events[..|events| - 1], events[|events| - 1];
      assert ev in events;
      TicksPaidFor(gm, base, input, lastTs, front);
      var s := Run(gm, StartGame(gm, base, input, lastTs), front);
      if ev.Frame? {
        GrantedIs(s, ev.ts);
        DrainUses(gm, AddFrame(s, ev.ts));
      }
    }
  }
}
