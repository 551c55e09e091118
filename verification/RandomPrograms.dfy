/**
 The game seen as a deterministic program that may draw random numbers, and
 the three random sources such a program can be run against: the recorder
 used by a live run, the tape player and the seeded generator used by a replay
 (public/js/util.js).
 */
module RandomPrograms {
  import opened Options

  /** The values a seeded generator yields, by position. */
  type Stream = nat -> real

  /** A computation of a `G`; `budget` bounds the draws that follow the one it asks for. */
  datatype Prog<G> =
    | Done(g: G)
    | Draw(budget: nat, next: real -> Prog<G>)

  function Draws<G>(p: Prog<G>): nat {
    match p
    case Done(_) => 0
    case Draw(budget, _) => budget + 1
  }

  /** The program finishes within its budget, whatever it draws. */
  ghost predicate Bounded<G(!new)>(p: Prog<G>)
    decreases Draws(p)
  {
    match p
    case Done(_) => true
    case Draw(budget, next) => forall r :: Draws(next(r)) <= budget && Bounded(next(r))
  }

  /** The function installed by `setRandSource`, with its hidden counters. */
  datatype Source =
    | Recorder(base: Stream, tape: seq<real>)
    | Player(tape: seq<real>, i: nat)
    | Seeded(base: Stream, n: nat)

  /** One call of the source; `None` is the player's "tape underrun" error. */
  function Next(s: Source): Option<(real, Source)> {
    match s
    case Recorder(base, tape) => Some((base(|tape|), Recorder(base, tape + [base(|tape|)])))
    case Player(tape, i) => if i < |tape| then Some((tape[i], Player(tape, i + 1))) else None
    case Seeded(base, n) => Some((base(n), Seeded(base, n + 1)))
  }

  datatype Outcome<G> = Ok(g: G, src: Source) | Underrun

  /** A recorder never underruns, keeps its generator and only extends the tape, by what the generator yields next. */
  ghost predicate Extends(before: Source, after: Source) {
    && before.Recorder? && after.Recorder? && before.base == after.base && before.tape <= after.tape
    && forall i :: |before.tape| <= i < |after.tape| ==> after.tape[i] == after.base(i)
  }

  function Exec<G(!new)>(p: Prog<G>, s: Source): (r: Outcome<G>)
    requires Bounded(p)
    ensures s.Recorder? ==> r.Ok? && Extends(s, r.src)
    decreases Draws(p)
  {
    match p
    case Done(g) => Ok(g, s)
    case Draw(_, next) =>
      match Next(s)
      case None => Underrun
      case Some((v, s')) => Exec(next(v), s')
  }

  /** `rep` stands where `rec` stands: same generator, or a finished tape that continues `rec`'s. */
  ghost predicate Mirrors(rec: Source, rep: Source, full: seq<real>) {
    && rec.Recorder?
    && rec.tape <= full
    && (rep == Player(full, |rec.tape|) || rep == Seeded(rec.base, |rec.tape|))
  }

  /** Whatever the recorder served, its mirror serves again, and ends where the recorder ended. */
  lemma {:induction false} ExecMirrors<G(!new)>(p: Prog<G>, rec: Source, rep: Source, full: seq<real>)
    requires Bounded(p)
    requires Mirrors(rec, rep, full) && Exec(p, rec).src.tape <= full
    ensures var live := Exec(p, rec);
            var again := Exec(p, rep);
            again.Ok? && again.g == live.g && Mirrors(live.src, again.src, full)
            && (rep.Player? <==> again.src.Player?)
    decreases Draws(p)
  {
    match p
    case Done(_) =>
    case Draw(_, next) =>
      var v := rec.base(|rec.tape|);
      var rec' := Recorder(rec.base, rec.tape + [v]);
      assert Next(rec) == Some((v, rec'));
      assert rec'.tape <= Exec(next(v), rec').src.tape <= full;
      assert v == rec'.tape[|rec.tape|] == full[|rec.tape|];
      ExecMirrors(next(v), rec', Next(rep).value.1, full);
  }

  /** Whatever it draws, the program ends in a result with this property. */
  ghost predicate Always<G(!new)>(p: Prog<G>, good: G -> bool)
    requires Bounded(p)
    decreases Draws(p)
  {
    match p
    case Done(g) => good(g)
    case Draw(_, next) => forall r :: Always(next(r), good)
  }

  lemma {:induction false} AlwaysHolds<G(!new)>(p: Prog<G>, good: G -> bool, src: Source)
    requires Bounded(p) && Always(p, good)
    ensures Exec(p, src).Ok? ==> good(Exec(p, src).g)
    decreases Draws(p)
  {
    match p
    case Done(_) =>
    case Draw(_, next) =>
      if Next(src).Some? {
        var (v, src') := Next(src).value;
        assert Bounded(next(v)) && Always(next(v), good);
        AlwaysHolds(next(v), good, src');
      }
  }

  /** A recorded program that begins with a draw lengthens the tape. */
  lemma DrawLengthensTape<G(!new)>(p: Prog<G>, src: Source)
    requires Bounded(p) && src.Recorder?
    ensures |Exec(p, src).src.tape| >= |src.tape| + (if p.Draw? then 1 else 0)
  {
    match p
    case Done(_) =>
    case Draw(_, next) =>
      var (v, src') := Next(src).value;
      assert Bounded(next(v)) && Extends(src', Exec(next(v), src').src);
  }
}
