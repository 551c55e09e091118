/**
 The fixed-step loop of engine/fixedStepLoop.js over the action queue of
 engine/actionQueue.js: no time is lost, commands reach the engine in order
 before the next step, and cutting a time span into pieces changes nothing.
 */
module FixedStepLoop {
  import opened Options
  import opened JsNumbers
  import opened Lists

  const EPS := 0.000000001

  /** A call the loop makes on its engine. */
  datatype Call<A> = Command(a: A) | Step

  /** What the loop holds, together with the calls made so far. */
  datatype State<A> = State(accumulator: real, queue: seq<A>, trace: seq<Call<A>>)

  /** How many whole steps `time` pays for, with the loop's tolerance. */
  function StepsDue(time: real, h: real): nat
    requires h > 0.0
  {
    if time + EPS < h then 0 else ((time + EPS) / h).Floor
  }

  function Commands<A>(queue: seq<A>): seq<Call<A>> {
    if queue == [] then [] else Commands(queue[..|queue| - 1]) + [Command(queue[|queue| - 1])]
  }

  function Steps<A>(n: nat): seq<Call<A>> {
    if n == 0 then [] else Steps(n - 1) + [Step]
  }

  /** `n` steps: the queue is delivered before the first of them. */
  function Burst<A>(queue: seq<A>, n: nat): seq<Call<A>> {
    if n == 0 then [] else Commands(queue) + Steps(n)
  }

  function AdvanceBy<A>(h: real, s: State<A>, dt: real, n: nat): State<A> {
    State(s.accumulator + dt - Times(n, h), if n > 0 then [] else s.queue, s.trace + Burst(s.queue, n))
  }

  /** The number of steps due is the one number of steps that uses the time up to less than a step. */
  lemma StepsDueBracket(time: real, h: real)
    requires h > 0.0
    ensures var n := StepsDue(time, h);
            && (n > 0 ==> Times(n, h) <= time + EPS)
            && time + EPS < Times(n + 1, h)
  {
    if time + EPS >= h {
      FloorBracket(time + EPS, h);
      var n := StepsDue(time, h);
      TimesIsProduct(n, h);
    }
  }

  lemma StepsDueUnique(time: real, h: real, n: nat)
    requires h > 0.0
    requires n > 0 ==> Times(n, h) <= time + EPS
    requires time + EPS < Times(n + 1, h)
    ensures n == StepsDue(time, h)
  {
    var m := StepsDue(time, h);
    StepsDueBracket(time, h);
    if n < m { TimesGrows(n + 1, m, h); }
    if m < n { TimesGrows(m + 1, n, h); }
  }

  lemma StepFits(steps: nat, due: nat, time: real, h: real)
    requires h > 0.0 && Times(steps, h) + h <= time < Times(due + 1, h)
    ensures steps < due
  {
    if due < steps + 1 {
      TimesGrows(due + 1, steps + 1, h);
    }
  }

  lemma NoBurst<A>(trace: seq<Call<A>>, queue: seq<A>, n: nat, h: real)
    requires n == 0
    ensures trace + Burst(queue, n) == trace && Times(n, h) == 0.0
  {
  }

  /** One more step: the first delivers the queue, the others find it empty. */
  lemma BurstGrows<A>(trace: seq<Call<A>>, queue: seq<A>, n: nat)
    ensures trace + Burst(queue, n + 1) == trace + Burst(queue, n) + Commands(if n > 0 then [] else queue) + [Step]
  {
    assert Steps<A>(n + 1) == Steps<A>(n) + [Step];
    if n > 0 {
      var none: seq<A> := [];
      assert Commands(none) == [];
      Associates(Commands(queue), Steps<A>(n), [Step]);
      assert Burst(queue, n + 1) == Burst(queue, n) + [Step];
    } else {
      assert Burst(queue, n + 1) == Commands(queue) + [Step];
    }
  }

  /** What a trace says: how many steps were made, and which commands were given in which order. */
  function StepsIn<A>(trace: seq<Call<A>>): nat {
    if trace == [] then 0 else StepsIn(trace[..|trace| - 1]) + if trace[|trace| - 1].Step? then 1 else 0
  }

  function CommandsIn<A>(trace: seq<Call<A>>): seq<A> {
    if trace == [] then []
    else CommandsIn(trace[..|trace| - 1]) + if trace[|trace| - 1].Command? then [trace[|trace| - 1].a] else []
  }

  lemma OneMoreCall<A>(trace: seq<Call<A>>, c: Call<A>)
    ensures StepsIn(trace + [c]) == StepsIn(trace) + if c.Step? then 1 else 0
    ensures CommandsIn(trace + [c]) == CommandsIn(trace) + if c.Command? then [c.a] else []
  {
    assert (trace + [c])[..|trace|] == trace;
  }

  lemma {:induction false} OnlyCommands<A>(trace: seq<Call<A>>, queue: seq<A>)
    ensures StepsIn(trace + Commands(queue)) == StepsIn(trace)
    ensures CommandsIn(trace + Commands(queue)) == CommandsIn(trace) + queue
  {
    hide StepsIn, CommandsIn;
    if queue == [] {
      assert trace + Commands(queue) == trace;
    } else {
      var front, last := queue[..|queue| - 1], queue[|queue| - 1];
      OnlyCommands(trace, front);
      OneMoreCall(trace + Commands(front), Command(last));
      Associates(trace, Commands(front), [Command(last)]);
      assert queue == front + [last];
      Associates(CommandsIn(trace), front, [last]);
    }
  }

  lemma {:induction false} OnlySteps<A>(trace: seq<Call<A>>, n: nat)
    ensures StepsIn(trace + Steps(n)) == StepsIn(trace) + n
    ensures CommandsIn(trace + Steps(n)) == CommandsIn(trace)
  {
    hide StepsIn, CommandsIn;
    if n == 0 {
      assert trace + Steps(n) == trace;
    } else {
      OnlySteps(trace, n - 1);
      OneMoreCall(trace + Steps(n - 1), Step);
      Associates(trace, Steps<A>(n - 1), [Step]);
    }
  }

  /** A burst of `n` steps gives the waiting commands exactly if it makes a step. */
  lemma BurstIs<A>(trace: seq<Call<A>>, queue: seq<A>, n: nat)
    ensures StepsIn(trace + Burst(queue, n)) == StepsIn(trace) + n
    ensures CommandsIn(trace + Burst(queue, n)) + (if n > 0 then [] else queue) == CommandsIn(trace) + queue
  {
    if n == 0 {
      assert trace + Burst(queue, n) == trace;
    } else {
      OnlyCommands(trace, queue);
      OnlySteps(trace + Commands(queue), n);
      Associates(trace, Commands(queue), Steps<A>(n));
    }
  }

  class Loop<A> {
    const stepSeconds: real
    const maxSteps: real
    /** Whether the engine takes a command or throws on it. */
    const accepts: A -> bool
    var accumulator: real
    var queue: seq<A>
    ghost var trace: seq<Call<A>>

    ghost predicate Valid()
      reads this
    {
      stepSeconds > 0.0 && maxSteps > 0.0 && accumulator >= -EPS
    }

    ghost function View(): State<A>
      reads this
    {
      State(accumulator, queue, trace)
    }

    /** The engine refuses none of these. */
    ghost predicate Willing(commands: seq<A>) {
      forall a :: a in commands ==> accepts(a)
    }

    constructor (stepSeconds: real, maxSteps: real, accepts: A -> bool)
      requires stepSeconds > 0.0 && maxSteps > 0.0
      ensures Valid() && View() == State(0.0, [], [])
      ensures this.stepSeconds == stepSeconds && this.maxSteps == maxSteps && this.accepts == accepts
    {
      this.stepSeconds, this.maxSteps, this.accepts := stepSeconds, maxSteps, accepts;
      accumulator, queue, trace := 0.0, [], [];
    }

    method Enqueue(a: A)
      requires Valid()
      modifies this`queue
      ensures Valid() && queue == old(queue) + [a]
    {
      queue := queue + [a];
    }

    /** Empties the queue first, so a command that throws takes those behind it with it. */
    method DeliverQueue() returns (ok: bool)
      modifies this`queue, this`trace
      ensures queue == []
      ensures ok <==> forall a :: a in old(queue) ==> accepts(a)
      ensures ok ==> trace == old(trace) + Commands(old(queue))
      ensures !ok ==> exists k :: 0 <= k < |old(queue)| && !accepts(old(queue)[k])
                                  && trace == old(trace) + Commands(old(queue)[..k])
      ensures StepsIn(trace) == StepsIn(old(trace))
    {
      hide StepsIn, CommandsIn;
      var actions := queue;
      queue := [];
      for k := 0 to |actions|
        invariant queue == []
        invariant forall a :: a in actions[..k] ==> accepts(a)
        invariant trace == old(trace) + Commands(actions[..k]) && StepsIn(trace) == StepsIn(old(trace))
      {
        OneMoreCall(trace, Command(actions[k]));
        if !accepts(actions[k]) { return false; }
        assert actions[..k + 1] == actions[..k] + [actions[k]];
        assert actions[..k + 1][..k] == actions[..k];
        trace := trace + [Command(actions[k])];
      }
      assert actions[..|actions|] == actions;
      ok := true;
    }

    /**
     `advance`. A negative or non-finite (`None`) duration is an error that changes nothing; so does
     a command the engine refuses end the call, with the time already added. Otherwise the loop makes
     the steps that are due, at most `maxSteps` of them, and keeps the rest of the time.
     */
    method Advance(dt: Option<real>) returns (ok: bool, steps: nat)
      requires Valid()
      modifies this
      ensures dt.None? || dt.value < 0.0 ==> !ok && View() == old(View())
      ensures dt.Some? && dt.value >= 0.0 ==>
        var due := StepsDue(old(accumulator) + dt.value, stepSeconds);
        && (ok <==> due == 0 || forall a :: a in old(queue) ==> accepts(a))
        && (!ok ==> Valid() && accumulator == old(accumulator) + dt.value && queue == [])
        && (!ok ==> StepsIn(trace) == StepsIn(old(trace)))
        && (ok ==> Valid() && steps == (if due < Ceil(maxSteps) then due else Ceil(maxSteps)))
        && (ok ==> View() == AdvanceBy(stepSeconds, old(View()), dt.value, steps))
    {
      hide StepsDue, Times, Burst, Commands;
      steps := 0;
      if dt.None? || dt.value < 0.0 { return false, 0; }
      accumulator := accumulator + dt.value;
      ghost var time, held := accumulator, queue;
      StepsDueBracket(time, stepSeconds);
      NoBurst(trace, held, steps, stepSeconds);
      ghost var due := StepsDue(time, stepSeconds);
      while accumulator + EPS >= stepSeconds && steps as real < maxSteps
        invariant accumulator == time - Times(steps, stepSeconds) && accumulator >= -EPS
        invariant steps <= Ceil(maxSteps) && steps <= due
        invariant steps > 0 ==> forall a :: a in held ==> accepts(a)
        invariant queue == if steps > 0 then [] else held
        invariant trace == old(trace) + Burst(held, steps)
        decreases Ceil(maxSteps) - steps
      {
        StepFits(steps, due, time + EPS, stepSeconds);
        BurstGrows(old(trace), held, steps);
        OneStepLess(steps + 1, stepSeconds);
        var delivered := MakeStep();
        if !delivered { return false, steps; }
        steps := steps + 1;
      }
      if steps < due { TimesGrows(steps + 1, due, stepSeconds); }
      OneStepLess(steps + 1, stepSeconds);
      ok := true;
    }

    /**
     Any uses, errors included. No time is ever lost: what is kept and the steps made are the time given, and what is
     kept is never negative beyond the tolerance. And unless the engine refuses a command, the commands given and those
     still waiting are what was enqueued, each once and in order.
     */
    method Run(uses: seq<Use<A>>)
      requires Valid()
      modifies this
      ensures Valid()
      ensures accumulator + Times(StepsIn(trace), stepSeconds)
              == old(accumulator) + Times(StepsIn(old(trace)), stepSeconds) + TimeGiven(uses)
      ensures Willing(old(queue) + Enqueued(uses)) ==>
                CommandsIn(trace) + queue == CommandsIn(old(trace)) + old(queue) + Enqueued(uses)
    {
      hide Times, StepsIn, CommandsIn, StepsDue, Burst, Willing;
      ghost var steps0 := StepsIn(trace);
      ghost var all := CommandsIn(trace) + queue;
      assert queue + Enqueued(uses[..0]) == queue;
      var i := 0;
      while i < |uses|
        invariant i <= |uses| && Valid()
        invariant accumulator + Times(StepsIn(trace), stepSeconds)
                  == old(accumulator) + Times(steps0, stepSeconds) + TimeGiven(uses[..i])
        invariant Willing(old(queue) + Enqueued(uses[..i])) ==>
                    CommandsIn(trace) + queue == all + Enqueued(uses[..i]) && Willing(queue)
      {
        OneMoreUse(uses, i);
        ghost var more := if uses[i].Enqueue? then [uses[i].a] else [];
        Associates(old(queue), Enqueued(uses[..i]), more);
        Associates(all, Enqueued(uses[..i]), more);
        Associates(CommandsIn(trace), queue, more);
        WillingBoth(old(queue) + Enqueued(uses[..i]), more);
        WillingBoth(queue, more);
        match uses[i] {
          case Enqueue(a) => Enqueue(a);
          case Advance(dt) => AdvanceKeepingCount(dt);
        }
        i := i + 1;
      }
      assert uses[..i] == uses;
    }

    lemma WillingBoth(commands: seq<A>, more: seq<A>)
      ensures Willing(commands + more) <==> Willing(commands) && Willing(more)
    {
      assert forall a :: a in commands ==> a in commands + more;
      assert forall a :: a in more ==> a in commands + more;
    }

    /** `advance`, by what it does to the number of steps and the list of commands. */
    method AdvanceKeepingCount(dt: Option<real>)
      requires Valid()
      modifies this
      ensures Valid()
      ensures accumulator + Times(StepsIn(trace), stepSeconds)
              == old(accumulator) + Times(StepsIn(old(trace)), stepSeconds)
                 + if dt.Some? && dt.value >= 0.0 then dt.value else 0.0
      ensures Willing(old(queue)) ==>
                CommandsIn(trace) + queue == CommandsIn(old(trace)) + old(queue) && Willing(queue)
    {
      hide Times, StepsIn, CommandsIn, StepsDue, Burst;
      ghost var was := View();
      var ok, steps := Advance(dt);
      if ok {
        BurstIs(was.trace, was.queue, steps);
        TimesAdds(StepsIn(was.trace), steps, stepSeconds);
      }
    }

    /** One step, with the commands that wait before it. */
    method MakeStep() returns (delivered: bool)
      modifies this`queue, this`trace, this`accumulator
      ensures queue == []
      ensures delivered <==> forall a :: a in old(queue) ==> accepts(a)
      ensures !delivered ==> accumulator == old(accumulator) && StepsIn(trace) == StepsIn(old(trace))
      ensures delivered ==>
        trace == old(trace) + Commands(old(queue)) + [Step] && accumulator == old(accumulator) - stepSeconds
    {
      delivered := DeliverQueue();
      if delivered {
        trace := trace + [Step];
        accumulator := accumulator - stepSeconds;
      }
    }
  }

  // ---------------------------------------------------------------------
  // Any use of a loop.
  // ---------------------------------------------------------------------

  /** What is done to a loop; a duration of `None` is one that is not finite. */
  datatype Use<A> = Enqueue(a: A) | Advance(dt: Option<real>)

  /** The time a loop is given: a refused duration adds nothing. */
  function TimeGiven<A>(uses: seq<Use<A>>): real {
    if uses == [] then 0.0
    else
      var last := uses[|uses| - 1];
      TimeGiven(uses[..|uses| - 1])
        + if last.Advance? && last.dt.Some? && last.dt.value >= 0.0 then last.dt.value else 0.0
  }

  lemma OneMoreUse<A>(uses: seq<Use<A>>, i: nat)
    requires i < |uses|
    ensures TimeGiven(uses[..i + 1]) == TimeGiven(uses[..i]) + match uses[i]
              case Enqueue(_) => 0.0
              case Advance(dt) => if dt.Some? && dt.value >= 0.0 then dt.value else 0.0
    ensures Enqueued(uses[..i + 1]) == Enqueued(uses[..i]) + if uses[i].Enqueue? then [uses[i].a] else []
  {
    assert uses[..i + 1][..i] == uses[..i];
  }

  function Enqueued<A>(uses: seq<Use<A>>): seq<A> {
    if uses == [] then []
    else Enqueued(uses[..|uses| - 1]) + if uses[|uses| - 1].Enqueue? then [uses[|uses| - 1].a] else []
  }

  // ---------------------------------------------------------------------
  // Cutting time into pieces.
  // ---------------------------------------------------------------------

  /** One call of `advance` with room for `cap` steps. */
  function AdvanceOnce<A>(h: real, cap: nat, s: State<A>, dt: real): State<A>
    requires h > 0.0
  {
    var due := StepsDue(s.accumulator + dt, h);
    AdvanceBy(h, s, dt, if due < cap then due else cap)
  }

  function AdvanceAll<A>(h: real, cap: nat, s: State<A>, dts: seq<real>): State<A>
    requires h > 0.0
  {
    if dts == [] then s else AdvanceOnce(h, cap, AdvanceAll(h, cap, s, dts[..|dts| - 1]), dts[|dts| - 1])
  }

  lemma {:induction false} StepsAdd<A>(i: nat, j: nat)
    ensures Steps<A>(i + j) == Steps<A>(i) + Steps<A>(j)
  {
    if j > 0 { StepsAdd<A>(i, j - 1); }
  }

  /** Two bursts in a row: what the first did not deliver the second does. */
  lemma BurstsJoin<A>(queue: seq<A>, i: nat, j: nat)
    ensures Burst(queue, i) + Burst(if i > 0 then [] else queue, j) == Burst(queue, i + j)
  {
    if i > 0 && j > 0 {
      StepsAdd<A>(i, j);
      hide Steps, Commands;
      BurstAlone<A>(j);
      Associates(Commands(queue), Steps<A>(i), Steps<A>(j));
    } else if i > 0 {
      assert Burst(queue, i) + [] == Burst(queue, i);
    } else {
      assert [] + Burst(queue, j) == Burst(queue, j);
    }
  }

  lemma BurstAlone<A>(n: nat)
    requires n > 0
    ensures Burst<A>([], n) == Steps<A>(n)
  {
    assert Commands<A>([]) == [];
  }

  predicate NonNegative(dts: seq<real>) {
    forall i :: 0 <= i < |dts| ==> dts[i] >= 0.0
  }

  lemma {:induction false} SumGrows(dts: seq<real>)
    requires NonNegative(dts)
    ensures Sum(dts) >= 0.0
  {
    if dts != [] {
      SumGrows(dts[..|dts| - 1]);
    }
  }

  lemma DueGrows(a: real, b: real, h: real)
    requires h > 0.0 && a <= b
    ensures StepsDue(a, h) <= StepsDue(b, h)
  {
    StepsDueBracket(a, h);
    StepsDueBracket(b, h);
    if StepsDue(b, h) < StepsDue(a, h) {
      TimesGrows(StepsDue(b, h) + 1, StepsDue(a, h), h);
    }
  }

  /**
   Feeding a span of time in pieces - however many, however uneven, empty ones included - makes the
   same calls on the engine and leaves the same rest as feeding it at once, whenever the whole span
   does not run into `maxSteps`.
   */
  lemma {:induction false} SplittingIsInvisible<A>(h: real, cap: nat, s: State<A>, dts: seq<real>)
    requires h > 0.0 && -EPS <= s.accumulator && s.accumulator + EPS < h && NonNegative(dts)
    requires StepsDue(s.accumulator + Sum(dts), h) <= cap
    ensures AdvanceAll(h, cap, s, dts) == AdvanceOnce(h, cap, s, Sum(dts))
  {
    hide AdvanceOnce, StepsDue, Times;
    if dts == [] {
      NothingDue(h, cap, s);
    } else {
      var front, dt := dts[..|dts| - 1], dts[|dts| - 1];
      SumGrows(front);
      DueGrows(s.accumulator + Sum(front), s.accumulator + Sum(dts), h);
      SplittingIsInvisible(h, cap, s, front);
      SplitInTwo(h, cap, s, Sum(front), dt);
    }
  }

  lemma NothingDue<A>(h: real, cap: nat, s: State<A>)
    requires h > 0.0 && -EPS <= s.accumulator && s.accumulator + EPS < h
    ensures AdvanceOnce(h, cap, s, 0.0) == s
  {
    assert s.trace + [] == s.trace;
  }

  lemma AdvancesJoin<A>(h: real, s: State<A>, d: real, i: nat, e: real, j: nat)
    ensures AdvanceBy(h, AdvanceBy(h, s, d, i), e, j) == AdvanceBy(h, s, d + e, i + j)
  {
    TimesAdds(i, j, h);
    BurstsJoin(s.queue, i, j);
    hide Burst, Times;
    Associates(s.trace, Burst(s.queue, i), Burst(if i > 0 then [] else s.queue, j));
  }

  /** The steps due in two pieces add up. */
  lemma DueAdds(a: real, e: real, h: real)
    requires h > 0.0 && a >= -EPS && e >= 0.0
    ensures var i := StepsDue(a, h);
            i + StepsDue(a - Times(i, h) + e, h) == StepsDue(a + e, h)
  {
    var i := StepsDue(a, h);
    StepsDueBracket(a, h);
    var rest := a - Times(i, h) + e;
    var j := StepsDue(rest, h);
    StepsDueBracket(rest, h);
    TimesAdds(i, j, h);
    StepsDueUnique(a + e, h, i + j);
  }

  lemma SplitInTwo<A>(h: real, cap: nat, s: State<A>, d: real, e: real)
    requires h > 0.0 && s.accumulator + d >= -EPS && e >= 0.0
    requires StepsDue(s.accumulator + d + e, h) <= cap
    ensures AdvanceOnce(h, cap, AdvanceOnce(h, cap, s, d), e) == AdvanceOnce(h, cap, s, d + e)
  {
    var i := StepsDue(s.accumulator + d, h);
    var rest := s.accumulator + d - Times(i, h);
    var j := StepsDue(rest + e, h);
    DueAdds(s.accumulator + d, e, h);
    AdvancesJoin(h, s, d, i, e, j);
    Uncapped(h, cap, s, d, i);
    Uncapped(h, cap, s, d + e, i + j);
    Uncapped(h, cap, AdvanceBy(h, s, d, i), e, j);
    hide AdvanceOnce, StepsDue, Times, Burst;
  }

  lemma Uncapped<A>(h: real, cap: nat, s: State<A>, dt: real, n: nat)
    requires h > 0.0 && n == StepsDue(s.accumulator + dt, h) && n <= cap
    ensures AdvanceOnce(h, cap, s, dt) == AdvanceBy(h, s, dt, n)
  {
  }
}
