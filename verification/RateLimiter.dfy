/**
 The fixed-window client rate limiter of public/js/api.js and what its windows
 imply for a sliding interval: over any run of calls with a non-decreasing
 clock, how many calls can have been let through in any stretch of time.
 */
module RateLimiter {
  import opened Options

  /** Milliseconds are integers, as `Date.now()` gives them. */
  datatype Limit = Limit(limit: nat, windowMs: nat)
  datatype Entry = Entry(count: nat, reset: int)

  predicate Usable(cfg: Limit) {
    cfg.limit > 0 && cfg.windowMs > 0
  }

  /** The table, with the default row for every other endpoint. */
  function LimitFor(name: string): (cfg: Limit)
    ensures Usable(cfg)
  {
    match name
    case "/api/me" => Limit(8, 5_000)
    case "/api/sync" => Limit(8, 5_000)
    case "/api/register" => Limit(3, 10_000)
    case "/api/score" => Limit(5, 10_000)
    case "/api/run/best" => Limit(3, 20_000)
    case "/api/cosmetics/trail" => Limit(6, 10_000)
    case "/api/cosmetics/icon" => Limit(6, 10_000)
    case "/api/cosmetics/pipe_texture" => Limit(6, 10_000)
    case "/api/shop/purchase" => Limit(6, 10_000)
    case "/api/binds" => Limit(8, 10_000)
    case "/api/settings" => Limit(8, 10_000)
    case "/api/icon-registry" => Limit(8, 10_000)
    case "/api/highscores" => Limit(10, 5_000)
    case "/api/stats" => Limit(10, 10_000)
    case "/api/trail-styles" => Limit(6, 10_000)
    case "/trail_previews" => Limit(4, 5_000)
    case _ => Limit(30, 10_000)
  }

  const LOGIN := ["/api/me", "/api/sync"]
  const SETTINGS := ["/api/binds", "/api/settings", "/api/icon-registry"]
  const DRESSING := ["/api/cosmetics/trail", "/api/cosmetics/icon", "/api/cosmetics/pipe_texture", "/api/shop/purchase",
                     "/api/trail-styles"]
  const SINGLE := ["/api/register", "/api/score", "/api/run/best", "/api/highscores", "/api/stats", "/trail_previews"]

  /** The rows of the table by what they allow: how many calls in how many milliseconds. */
  lemma LimitsAre(name: string)
    ensures name in LOGIN ==> LimitFor(name) == Limit(8, 5_000)
    ensures name in SETTINGS ==> LimitFor(name) == Limit(8, 10_000)
    ensures name in DRESSING ==> LimitFor(name) == Limit(6, 10_000)
    ensures name == "/api/register" ==> LimitFor(name) == Limit(3, 10_000)
    ensures name == "/api/score" ==> LimitFor(name) == Limit(5, 10_000)
    ensures name == "/api/run/best" ==> LimitFor(name) == Limit(3, 20_000)
    ensures name == "/api/highscores" ==> LimitFor(name) == Limit(10, 5_000)
    ensures name == "/api/stats" ==> LimitFor(name) == Limit(10, 10_000)
    ensures name == "/trail_previews" ==> LimitFor(name) == Limit(4, 5_000)
    ensures name !in LOGIN + SETTINGS + DRESSING + SINGLE ==> LimitFor(name) == Limit(30, 10_000)
  {
  }

  /** One call against an endpoint's entry: the new entry, and whether the call is refused. */
  function Hit(cfg: Limit, e: Option<Entry>, now: int): (Option<Entry>, bool) {
    if e.None? || now >= e.value.reset then (Some(Entry(1, now + cfg.windowMs)), false)
    else if e.value.count >= cfg.limit then (e, true)
    else (Some(e.value.(count := e.value.count + 1)), false)
  }

  /** The module-level table of entries. */
  class ClientRateState {
    var entries: map<string, Entry>

    constructor ()
      ensures entries == map[]
    {
      entries := map[];
    }

    function Lookup(name: string): Option<Entry>
      reads this
    {
      if name in entries then Some(entries[name]) else None
    }

    /** `hitClientRateLimit`: endpoints do not influence each other. */
    method HitClientRateLimit(name: string, now: int) returns (refused: bool)
      modifies this
      ensures (Lookup(name), refused) == Hit(LimitFor(name), old(Lookup(name)), now)
      ensures forall other :: other != name ==> Lookup(other) == old(Lookup(other))
    {
      var cfg := LimitFor(name);
      if name !in entries || now >= entries[name].reset {
        entries := entries[name := Entry(1, now + cfg.windowMs)];
        return false;
      }
      var entry := entries[name];
      if entry.count >= cfg.limit { return true; }
      entries := entries[name := entry.(count := entry.count + 1)];
      refused := false;
    }
  }

  // ---------------------------------------------------------------------
  // Runs of one endpoint: `calls` are the clock readings, oldest first.
  // ---------------------------------------------------------------------

  predicate ClockRuns(calls: seq<int>) {
    forall i, j :: 0 <= i < j < |calls| ==> calls[i] <= calls[j]
  }

  function EntryAfter(cfg: Limit, calls: seq<int>): Option<Entry> {
    if calls == [] then None else Hit(cfg, EntryAfter(cfg, calls[..|calls| - 1]), calls[|calls| - 1]).0
  }

  /** Whether the last of these calls is refused. */
  predicate Refused(cfg: Limit, calls: seq<int>)
    requires calls != []
  {
    Hit(cfg, EntryAfter(cfg, calls[..|calls| - 1]), calls[|calls| - 1]).1
  }

  /** How many calls made at a time in [a, b) were let through. */
  function Accepted(cfg: Limit, calls: seq<int>, a: int, b: int): nat {
    if calls == [] then 0
    else
      Accepted(cfg, calls[..|calls| - 1], a, b) +
      (if a <= calls[|calls| - 1] < b && !Refused(cfg, calls) then 1 else 0)
  }

  /** The windows of a run, latest outermost: when each was opened and how many calls it has let through. */
  datatype Windows = NoWindow | Window(earlier: Windows, start: int, accepted: nat)

  /**
   The windows by their own definition: a call opens one when none is open, and is let through while there is room.
   */
  function WindowsOf(cfg: Limit, calls: seq<int>): Windows {
    if calls == [] then NoWindow
    else
      var ws := WindowsOf(cfg, calls[..|calls| - 1]);
      var now := calls[|calls| - 1];
      if ws.NoWindow? || now >= ws.start + cfg.windowMs then Window(ws, now, 1)
      else if ws.accepted < cfg.limit then ws.(accepted := ws.accepted + 1)
      else ws
  }

  predicate Spaced(cfg: Limit, ws: Windows) {
    ws.Window? ==>
      && 1 <= ws.accepted <= cfg.limit
      && Spaced(cfg, ws.earlier)
      && (ws.earlier.Window? ==> ws.earlier.start + cfg.windowMs <= ws.start)
  }

  /** The entry is the last window; a call is refused exactly when that window is still open and used up. */
  lemma {:induction false} EntryIsLastWindow(cfg: Limit, calls: seq<int>)
    requires Usable(cfg)
    ensures var ws := WindowsOf(cfg, calls);
            && Spaced(cfg, ws)
            && EntryAfter(cfg, calls) ==
                 if ws.NoWindow? then None else Some(Entry(ws.accepted, ws.start + cfg.windowMs))
    ensures calls != [] ==>
      var ws := WindowsOf(cfg, calls[..|calls| - 1]);
      Refused(cfg, calls) <==>
        ws.Window? && calls[|calls| - 1] < ws.start + cfg.windowMs && ws.accepted == cfg.limit
  {
    if calls != [] {
      EntryIsLastWindow(cfg, calls[..|calls| - 1]);
    }
  }

  /** The window reaches into the times [a, b). */
  predicate Reaches(cfg: Limit, start: int, a: int, b: int) {
    a - cfg.windowMs < start < b
  }

  function Reaching(cfg: Limit, ws: Windows, a: int, b: int): nat {
    if ws.NoWindow? then 0
    else Reaching(cfg, ws.earlier, a, b) + (if Reaches(cfg, ws.start, a, b) then 1 else 0)
  }

  /** Some window opened before `a` is still open at `a`. */
  predicate Straddles(cfg: Limit, ws: Windows, a: int, b: int) {
    ws.Window? && ((Reaches(cfg, ws.start, a, b) && ws.start < a) || Straddles(cfg, ws.earlier, a, b))
  }

  /** What the reaching windows can have let through in [a, b): an opening call before `a` does not count. */
  function Capacity(cfg: Limit, ws: Windows, a: int, b: int): int {
    if ws.NoWindow? then 0
    else
      Capacity(cfg, ws.earlier, a, b) +
      (if Reaches(cfg, ws.start, a, b) then ws.accepted - (if ws.start < a then 1 else 0) else 0)
  }

  lemma {:induction false} AcceptedFitsWindows(cfg: Limit, calls: seq<int>, a: int, b: int)
    requires Usable(cfg) && ClockRuns(calls)
    ensures Accepted(cfg, calls, a, b) <= Capacity(cfg, WindowsOf(cfg, calls), a, b)
    ensures var ws := WindowsOf(cfg, calls);
            calls != [] ==> ws.Window? && ws.start <= calls[|calls| - 1]
  {
    if calls != [] {
      AcceptedFitsWindows(cfg, calls[..|calls| - 1], a, b);
      EntryIsLastWindow(cfg, calls);
    }
  }

  /** The least time from the first to the last of `m` window starts. */
  function Spread(cfg: Limit, m: nat): nat {
    if m <= 1 then 0 else Spread(cfg, m - 1) + cfg.windowMs
  }

  lemma {:induction false} FewWindowsReach(cfg: Limit, ws: Windows, a: int, b: int)
    requires Usable(cfg) && Spaced(cfg, ws)
    ensures var m := Reaching(cfg, ws, a, b);
            m > 0 ==>
              var first := if Straddles(cfg, ws, a, b) then a - cfg.windowMs + 1 else a;
              first + Spread(cfg, m) <= ws.start && first + Spread(cfg, m) < b
  {
    if ws.Window? {
      FewWindowsReach(cfg, ws.earlier, a, b);
    }
  }

  lemma {:induction false} CapacityBound(cfg: Limit, ws: Windows, a: int, b: int)
    requires Usable(cfg) && Spaced(cfg, ws)
    ensures Capacity(cfg, ws, a, b) <=
              Reaching(cfg, ws, a, b) * cfg.limit - (if Straddles(cfg, ws, a, b) then 1 else 0)
  {
    if ws.Window? {
      var m := Reaching(cfg, ws.earlier, a, b);
      CapacityBound(cfg, ws.earlier, a, b);
      assert (m + 1) * cfg.limit == m * cfg.limit + cfg.limit;
    }
  }

  lemma {:induction false} SpreadIsProduct(cfg: Limit, m: nat)
    requires m > 0
    ensures Spread(cfg, m) == (m - 1) * cfg.windowMs
  {
    if m > 1 { SpreadIsProduct(cfg, m - 1); }
  }

  lemma MulLe(x: int, y: int, w: nat)
    requires x <= y
    ensures x * w <= y * w
  {
  }

  lemma WindowCount(m: nat, w: nat, span: nat, cover: nat, slack: nat)
    requires m > 0 && w > 0 && cover * w >= span && slack <= 1
    requires (m - 1) * w < span + (if slack == 1 then w - 1 else 0)
    ensures m <= cover + slack
  {
    assert (cover + slack) * w == cover * w + slack * w;
    if m > cover + slack {
      MulLe(cover + slack, m - 1, w);
    }
  }

  /**
   Any stretch of `span` milliseconds lets through fewer than `limit` times
   one more than the number of windows it takes to cover it.
   */
  lemma SlidingBound(cfg: Limit, calls: seq<int>, a: int, span: nat, cover: nat)
    requires Usable(cfg) && ClockRuns(calls)
    requires span > 0 && cover * cfg.windowMs >= span
    ensures Accepted(cfg, calls, a, a + span) < (cover + 1) * cfg.limit
  {
    var ws := WindowsOf(cfg, calls);
    EntryIsLastWindow(cfg, calls);
    AcceptedFitsWindows(cfg, calls, a, a + span);
    WindowsInSpan(cfg, ws, a, span, cover);
    CapacityBound(cfg, ws, a, a + span);
    var slack := if Straddles(cfg, ws, a, a + span) then 1 else 0;
    FewEnough(Reaching(cfg, ws, a, a + span), cover, slack, cfg.limit);
    hide Reaching, Capacity, Straddles, Accepted, WindowsOf, ClockRuns, Spaced;
  }

  lemma WindowsInSpan(cfg: Limit, ws: Windows, a: int, span: nat, cover: nat)
    requires Usable(cfg) && Spaced(cfg, ws) && span > 0 && cover * cfg.windowMs >= span
    ensures Reaching(cfg, ws, a, a + span) <= cover + if Straddles(cfg, ws, a, a + span) then 1 else 0
  {
    var m := Reaching(cfg, ws, a, a + span);
    FewWindowsReach(cfg, ws, a, a + span);
    if m > 0 {
      SpreadIsProduct(cfg, m);
      WindowCount(m, cfg.windowMs, span, cover, if Straddles(cfg, ws, a, a + span) then 1 else 0);
    }
    hide Reaching, Straddles, Spread, Spaced;
  }

  lemma FewEnough(m: nat, cover: nat, slack: nat, limit: nat)
    requires m <= cover + slack && slack <= 1 && limit > 0
    ensures m * limit - slack < (cover + 1) * limit
  {
    MulLe(m, cover + slack, limit);
    MulLe(cover + slack, cover + 1, limit);
    if slack == 0 {
      assert (cover + 1) * limit == (cover + slack) * limit + limit;
    }
  }

  /** In particular a sliding window never sees `2 * limit` accepted calls. */
  lemma OneWindowBound(cfg: Limit, calls: seq<int>, a: int)
    requires Usable(cfg) && ClockRuns(calls)
    ensures Accepted(cfg, calls, a, a + cfg.windowMs) <= 2 * cfg.limit - 1
  {
    SlidingBound(cfg, calls, a, cfg.windowMs, 1);
  }

  /** `n` more calls at one time, while the last window is open and has room for them. */
  lemma {:induction false} TopUp(cfg: Limit, calls: seq<int>, now: int, n: nat, a: int, b: int)
    requires Usable(cfg) && a <= now < b
    requires var ws := WindowsOf(cfg, calls);
             ws.Window? && now < ws.start + cfg.windowMs && ws.accepted + n <= cfg.limit
    ensures var all := calls + seq(n, _ => now);
            var ws := WindowsOf(cfg, calls);
            && Accepted(cfg, all, a, b) == Accepted(cfg, calls, a, b) + n
            && WindowsOf(cfg, all) == ws.(accepted := ws.accepted + n)
  {
    var all := calls + seq(n, _ => now);
    if n == 0 {
      assert all == calls;
    } else {
      TopUp(cfg, calls, now, n - 1, a, b);
      assert all[..|all| - 1] == calls + seq(n - 1, _ => now);
      EntryIsLastWindow(cfg, all);
    }
  }

  /** One call when no window is open. */
  lemma Opens(cfg: Limit, calls: seq<int>, now: int, a: int, b: int)
    requires Usable(cfg)
    requires var ws := WindowsOf(cfg, calls);
             ws.NoWindow? || now >= ws.start + cfg.windowMs
    ensures var all := calls + [now];
            && Accepted(cfg, all, a, b) == Accepted(cfg, calls, a, b) + (if a <= now < b then 1 else 0)
            && WindowsOf(cfg, all) == Window(WindowsOf(cfg, calls), now, 1)
  {
    assert (calls + [now])[..|calls|] == calls;
    EntryIsLastWindow(cfg, calls + [now]);
  }

  /** The worst run: one call, then a full burst on each side of the end of its window. */
  function TwoBursts(cfg: Limit): seq<int>
    requires Usable(cfg)
  {
    [0] + seq(cfg.limit - 1, _ => cfg.windowMs - 1) + [cfg.windowMs] + seq(cfg.limit - 1, _ => cfg.windowMs)
  }

  lemma TwoBurstsRunForward(cfg: Limit)
    requires Usable(cfg)
    ensures ClockRuns(TwoBursts(cfg))
  {
    var n := cfg.limit - 1;
    forall i | 0 <= i < |TwoBursts(cfg)|
      ensures TwoBursts(cfg)[i] == if i == 0 then 0 else if i <= n then cfg.windowMs - 1 else cfg.windowMs
    {
    }
  }

  /** The bound is reached, for every limit, by a run whose clock runs forward. */
  lemma OneWindowBoundIsTight(cfg: Limit)
    requires Usable(cfg) && cfg.windowMs >= 2
    ensures ClockRuns(TwoBursts(cfg))
    ensures Accepted(cfg, TwoBursts(cfg), 1, 1 + cfg.windowMs) == 2 * cfg.limit - 1
  {
    TwoBurstsRunForward(cfg);
    hide ClockRuns;
    var w, n := cfg.windowMs, cfg.limit - 1;
    var one := [] + [0];
    var first := one + seq(n, _ => w - 1);
    var second := first + [w];
    assert one == [0];
    Opens(cfg, [], 0, 1, 1 + w);
    assert WindowsOf(cfg, one) == Window(NoWindow, 0, 1) && Accepted(cfg, one, 1, 1 + w) == 0;
    TopUp(cfg, one, w - 1, n, 1, 1 + w);
    assert WindowsOf(cfg, first).start == 0 && Accepted(cfg, first, 1, 1 + w) == n;
    Opens(cfg, first, w, 1, 1 + w);
    assert WindowsOf(cfg, second).start == w && Accepted(cfg, second, 1, 1 + w) == n + 1;
    TopUp(cfg, second, w, n, 1, 1 + w);
    assert TwoBursts(cfg) == second + seq(n, _ => w);
  }
}
