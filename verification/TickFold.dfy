/**
 Ticks applied one after another, with pictures drawn in between: the meaning every
 playback scheduler is measured against. Drawing a picture may itself change the
 state, so a replay has a schedule: how many pictures were drawn after each tick.
 */
module TickFold {
  import opened Options

  /**
   `apply` is one replayed tick (`None`: it threw); `over` the game-over test; `render` what drawing a picture
   does.
   */
  datatype Machine<!S, !T> = Machine(apply: (S, T) -> Option<S>, over: S -> bool, render: S -> S)

  /** Game over freezes everything, and no picture starts or ends a game. */
  ghost predicate Freezes<S(!new), T(!new)>(m: Machine<S, T>) {
    && (forall s, t :: m.over(s) ==> m.apply(s, t) == Some(s))
    && (forall s :: m.over(m.render(s)) == m.over(s))
  }

  predicate Stopped<S, T>(m: Machine<S, T>, s: Option<S>) {
    s.None? || m.over(s.value)
  }

  /** `n` pictures in a row. */
  function Rendered<S, T>(m: Machine<S, T>, s: S, n: nat): S {
    if n == 0 then s else m.render(Rendered(m, s, n - 1))
  }

  /** The ticks without any picture. */
  function Fold<S, T>(m: Machine<S, T>, s: Option<S>, ticks: seq<T>): Option<S> {
    if ticks == [] then s
    else
      match Fold(m, s, ticks[..|ticks| - 1])
      case None => None
      case Some(s') => m.apply(s', ticks[|ticks| - 1])
  }

  /** The ticks with `shows[k]` pictures before tick `k`. */
  function Play<S, T>(m: Machine<S, T>, s: Option<S>, ticks: seq<T>, shows: seq<nat>): Option<S>
    requires |shows| == |ticks|
  {
    if ticks == [] then s
    else
      var n := |ticks| - 1;
      match Play(m, s, ticks[..n], shows[..n])
      case None => None
      case Some(s') => m.apply(Rendered(m, s', shows[n]), ticks[n])
  }

  /** The same, with the pictures after the last tick as well. */
  function Seen<S, T>(m: Machine<S, T>, s: Option<S>, ticks: seq<T>, shows: seq<nat>): Option<S>
    requires |shows| == |ticks| + 1
  {
    match Play(m, s, ticks, shows[..|ticks|])
    case None => None
    case Some(s') => Some(Rendered(m, s', shows[|ticks|]))
  }

  function Zeros(n: nat): (z: seq<nat>)
    ensures |z| == n
  {
    if n == 0 then [] else Zeros(n - 1) + [0]
  }

  /** One tick more. */
  lemma PlayNext<S(!new), T(!new)>(m: Machine<S, T>, s: Option<S>, ticks: seq<T>, shows: seq<nat>, k: nat)
    requires k < |ticks| && |shows| == k + 1
    ensures Play(m, s, ticks[..k + 1], shows) ==
              match Seen(m, s, ticks[..k], shows) { case None => None case Some(x) => m.apply(x, ticks[k]) }
  {
    assert ticks[..k + 1][..k] == ticks[..k];
    assert ticks[..k + 1][k] == ticks[k];
  }

  /** One picture more. */
  lemma SeenAgain<S(!new), T(!new)>(m: Machine<S, T>, s: Option<S>, ticks: seq<T>, shows: seq<nat>)
    requires |shows| == |ticks| + 1 && Seen(m, s, ticks, shows).Some?
    ensures Seen(m, s, ticks, shows[|ticks| := shows[|ticks|] + 1]) == Some(m.render(Seen(m, s, ticks, shows).value))
  {
    assert shows[|ticks| := shows[|ticks|] + 1][..|ticks|] == shows[..|ticks|];
  }

  /** A tick after which no picture has been drawn yet. */
  lemma SeenFresh<S(!new), T(!new)>(m: Machine<S, T>, s: Option<S>, ticks: seq<T>, shows: seq<nat>)
    requires |shows| == |ticks|
    ensures Seen(m, s, ticks, shows + [0]) == Play(m, s, ticks, shows)
  {
    assert (shows + [0])[..|ticks|] == shows;
  }

  /** What is seen after the first `n` ticks of a longer schedule. */
  function At<S, T>(m: Machine<S, T>, s: Option<S>, ticks: seq<T>, shows: seq<nat>, n: nat): Option<S>
    requires n <= |ticks| && |shows| == |ticks| + 1
  {
    Seen(m, s, ticks[..n], shows[..n + 1])
  }

  lemma AtNext<S(!new), T(!new)>(m: Machine<S, T>, s: Option<S>, ticks: seq<T>, shows: seq<nat>, n: nat)
    requires n < |ticks| && |shows| == |ticks| + 1
    ensures At(m, s, ticks, shows, n + 1) ==
              match At(m, s, ticks, shows, n)
              case None => None
              case Some(x) =>
                match m.apply(x, ticks[n])
                case None => None
                case Some(y) => Some(Rendered(m, y, shows[n + 1]))
  {
    PlayNext(m, s, ticks, shows[..n + 1], n);
    assert shows[..n + 2][..n + 1] == shows[..n + 1];
  }

  lemma AtEnd<S(!new), T(!new)>(m: Machine<S, T>, s: Option<S>, ticks: seq<T>, shows: seq<nat>)
    requires |shows| == |ticks| + 1
    ensures At(m, s, ticks, shows, |ticks|) == Seen(m, s, ticks, shows)
  {
    assert ticks[..|ticks|] == ticks && shows[..|ticks| + 1] == shows;
  }

  /** Once stopped, the ticks left over change nothing. */
  lemma {:induction false} StoppedAbsorbs<S(!new), T(!new)>(
      m: Machine<S, T>, s: Option<S>, ticks: seq<T>, shows: seq<nat>, k: nat)
    requires Freezes(m) && k <= |ticks| && |shows| == k + 1 && Stopped(m, Seen(m, s, ticks[..k], shows))
    ensures Seen(m, s, ticks, shows + Zeros(|ticks| - k)) == Seen(m, s, ticks[..k], shows)
  {
    var n := |ticks|;
    hide Seen, Freezes, Stopped;
    if k == n {
      assert ticks[..k] == ticks && shows + Zeros(n - k) == shows;
    } else {
      var front := ticks[..n - 1];
      assert front[..k] == ticks[..k];
      StoppedAbsorbs(m, s, front, shows, k);
      var before := shows + Zeros(n - 1 - k);
      assert shows + Zeros(n - k) == before + [0];
      AbsorbsOne(m, s, ticks, before);
    }
  }

  lemma AbsorbsOne<S(!new), T(!new)>(m: Machine<S, T>, s: Option<S>, ticks: seq<T>, shows: seq<nat>)
    requires Freezes(m) && ticks != [] && |shows| == |ticks|
    requires Stopped(m, Seen(m, s, ticks[..|ticks| - 1], shows))
    ensures Seen(m, s, ticks, shows + [0]) == Seen(m, s, ticks[..|ticks| - 1], shows)
  {
    hide Seen, Play;
    PlayNext(m, s, ticks, shows, |ticks| - 1);
    assert ticks[..|ticks|] == ticks;
    SeenFresh(m, s, ticks, shows);
  }

  /** Once a tick has thrown, so has everything after it. */
  lemma {:induction false} ThrownStays<S(!new), T(!new)>(
      m: Machine<S, T>, s: Option<S>, ticks: seq<T>, shows: seq<nat>, k: nat)
    requires k <= |ticks| && |shows| == |ticks| && Play(m, s, ticks[..k], shows[..k]) == None
    ensures Play(m, s, ticks, shows) == None
  {
    if k == |ticks| {
      assert ticks[..k] == ticks && shows[..k] == shows;
    } else {
      var n := |ticks| - 1;
      assert ticks[..n][..k] == ticks[..k] && shows[..n][..k] == shows[..k];
      ThrownStays(m, s, ticks[..n], shows[..n], k);
    }
  }

  // ---- when the schedule does not matter ----

  predicate Still<S(==), T>(m: Machine<S, T>, s: Option<S>) {
    s.Some? ==> m.render(s.value) == s.value
  }

  /** No picture changes any of the states the ticks lead through. */
  ghost predicate Inert<S(!new), T(!new)>(m: Machine<S, T>, s: Option<S>, ticks: seq<T>) {
    forall k :: 0 <= k <= |ticks| ==> Still(m, Fold(m, s, ticks[..k]))
  }

  lemma {:induction false} RenderedStill<S(!new), T(!new)>(m: Machine<S, T>, s: S, n: nat)
    requires m.render(s) == s
    ensures Rendered(m, s, n) == s
  {
    if n > 0 { RenderedStill(m, s, n - 1); }
  }

  lemma InertFront<S(!new), T(!new)>(m: Machine<S, T>, s: Option<S>, ticks: seq<T>, k: nat)
    requires Inert(m, s, ticks) && k <= |ticks|
    ensures Inert(m, s, ticks[..k]) && Still(m, Fold(m, s, ticks[..k]))
  {
    forall j | 0 <= j <= k
      ensures Still(m, Fold(m, s, ticks[..k][..j]))
    {
      assert ticks[..k][..j] == ticks[..j];
    }
  }

  lemma {:induction false} InertPlay<S(!new), T(!new)>(m: Machine<S, T>, s: Option<S>, ticks: seq<T>, shows: seq<nat>)
    requires Inert(m, s, ticks) && |shows| == |ticks|
    ensures Play(m, s, ticks, shows) == Fold(m, s, ticks)
  {
    if ticks != [] {
      var n := |ticks| - 1;
      InertFront(m, s, ticks, n);
      InertPlay(m, s, ticks[..n], shows[..n]);
      if Fold(m, s, ticks[..n]).Some? {
        RenderedStill(m, Fold(m, s, ticks[..n]).value, shows[n]);
      }
    }
  }

  lemma InertSeen<S(!new), T(!new)>(m: Machine<S, T>, s: Option<S>, ticks: seq<T>, shows: seq<nat>)
    requires Inert(m, s, ticks) && |shows| == |ticks| + 1
    ensures Seen(m, s, ticks, shows) == Fold(m, s, ticks)
  {
    InertPlay(m, s, ticks, shows[..|ticks|]);
    InertFront(m, s, ticks, |ticks|);
    assert ticks[..|ticks|] == ticks;
    if Fold(m, s, ticks).Some? {
      RenderedStill(m, Fold(m, s, ticks).value, shows[|ticks|]);
    }
  }

  /** Every schedule of pictures shows the same state after the first `k` ticks. */
  ghost predicate SameForAll<S(!new), T(!new)>(m: Machine<S, T>, s: Option<S>, ticks: seq<T>, k: nat)
    requires k <= |ticks|
  {
    forall shows: seq<nat> :: |shows| == k + 1 ==> Seen(m, s, ticks[..k], shows) == Fold(m, s, ticks[..k])
  }

  /** The schedule never shows in a state, at any tick, exactly if no picture changes a state on the way. */
  lemma EveryScheduleIff<S(!new), T(!new)>(m: Machine<S, T>, s: Option<S>, ticks: seq<T>)
    ensures (forall k :: 0 <= k <= |ticks| ==> SameForAll(m, s, ticks, k)) <==> Inert(m, s, ticks)
  {
    if Inert(m, s, ticks) {
      forall k, shows: seq<nat> | 0 <= k <= |ticks| && |shows| == k + 1
        ensures Seen(m, s, ticks[..k], shows) == Fold(m, s, ticks[..k])
      {
        InertFront(m, s, ticks, k);
        InertSeen(m, s, ticks[..k], shows);
      }
    }
    if forall k :: 0 <= k <= |ticks| ==> SameForAll(m, s, ticks, k) {
      forall k | 0 <= k <= |ticks|
        ensures Still(m, Fold(m, s, ticks[..k]))
      {
        assert SameForAll(m, s, ticks, k);
        var none := Zeros(k + 1);
        assert Seen(m, s, ticks[..k], none) == Fold(m, s, ticks[..k]);
        if Fold(m, s, ticks[..k]).Some? {
          SeenAgain(m, s, ticks[..k], none);
        }
      }
    }
  }
}
