/**
 The engine's event log (engine/eventLog.js) and the adapter that derives animation
 events from it (engine/eventAdapters.js). `history` is everything pushed since the
 last clear; `states` remembers what the log held at each version.
 */
module EventLog {
  import opened Options
  import opened JsNumbers

  datatype Entry<P, M> = Entry(kind: string, payload: P, meta: M, time: real)

  /** An entry as an adapter returns it; without a time of its own it takes that of its source. */
  datatype Derived<P, M> = Derived(kind: string, payload: P, meta: M, time: Option<real>)

  /** What a log of a certain size holds of a history; a fractional size counts as the next whole number. */
  function Held<T>(history: seq<T>, size: Option<real>): seq<T>
    requires size.Some? ==> size.value > 0.0
  {
    if size.None? || |history| <= Ceil(size.value) then history else history[|history| - Ceil(size.value)..]
  }

  /** One more entry, and the same entries are held whether one trims a trimmed log or the whole history. */
  lemma HeldPush<T>(history: seq<T>, size: Option<real>, e: T)
    requires size.Some? ==> size.value > 0.0
    ensures Held(Held(history, size) + [e], size) == Held(history + [e], size)
  {
  }

  lemma HeldSome<T>(history: seq<T>, size: Option<real>)
    requires size.Some? ==> size.value > 0.0
    ensures Held(history, size) == [] <==> history == []
  {
  }

  /** The entry a derived event becomes. */
  function Settled<P, M>(source: Entry<P, M>, d: Derived<P, M>): Entry<P, M> {
    Entry(d.kind, d.payload, d.meta, if d.time.Some? then d.time.value else source.time)
  }

  /** The entries an emit adds after its own: one for each derived event that has a type, in order. */
  function Settling<P, M>(source: Entry<P, M>, ds: seq<Derived<P, M>>): seq<Entry<P, M>> {
    if ds == [] then []
    else Settling(source, ds[..|ds| - 1]) + if ds[|ds| - 1].kind == "" then [] else [Settled(source, ds[|ds| - 1])]
  }

  predicate NonDecreasing<P, M>(s: seq<Entry<P, M>>) {
    forall i, j :: 0 <= i < j < |s| ==> s[i].time <= s[j].time
  }

  predicate UpTo<P, M>(s: seq<Entry<P, M>>, now: real) {
    forall i :: 0 <= i < |s| ==> s[i].time <= now
  }

  lemma {:induction false} SettlingAtOnce<P, M>(source: Entry<P, M>, ds: seq<Derived<P, M>>)
    requires forall d :: d in ds ==> d.time.None?
    ensures forall e :: e in Settling(source, ds) ==> e.time == source.time
  {
    if ds != [] { SettlingAtOnce(source, ds[..|ds| - 1]); }
  }

  /** Times stay in order as long as the clock does not run backwards and no derived event brings its own time. */
  lemma TimesInOrder<P, M>(history: seq<Entry<P, M>>, source: Entry<P, M>, ds: seq<Derived<P, M>>)
    requires NonDecreasing(history) && UpTo(history, source.time) && forall d :: d in ds ==> d.time.None?
    ensures NonDecreasing(history + [source] + Settling(source, ds))
      && UpTo(history + [source] + Settling(source, ds), source.time)
  {
    SettlingAtOnce(source, ds);
    var more := Settling(source, ds);
    assert forall i :: 0 <= i < |more| ==> more[i] in more;
  }

  lemma HeldInOrder<P, M>(history: seq<Entry<P, M>>, size: Option<real>)
    requires (size.Some? ==> size.value > 0.0) && NonDecreasing(history)
    ensures NonDecreasing(Held(history, size))
  {
  }

  class EventLog<P, M> {
    const maxSize: Option<real>
    var events: seq<Entry<P, M>>
    var version: nat

    ghost var history: seq<Entry<P, M>>
    ghost var states: seq<seq<Entry<P, M>>>

    ghost predicate Valid()
      reads this
    {
      && (maxSize.Some? ==> maxSize.value > 0.0)
      && events == Held(history, maxSize)
      && |states| == version + 1 && states[version] == events
    }

    constructor (maxSize: Option<real>)
      ensures Valid() && events == [] && version == 0 && history == []
      ensures this.maxSize == if maxSize.Some? && maxSize.value > 0.0 then maxSize else None
    {
      this.maxSize := if maxSize.Some? && maxSize.value > 0.0 then maxSize else None;
      events, version, history, states := [], 0, [], [[]];
    }

    /** `_pushEntry`. No version is ever given to two different contents: `states` only grows. */
    method PushEntry(entry: Entry<P, M>)
      requires Valid()
      modifies this
      ensures Valid() && history == old(history) + [entry]
      ensures version == old(version) + 1 && states == old(states) + [events]
    {
      HeldPush(history, maxSize, entry);
      events := events + [entry];
      if maxSize.Some? && |events| as real > maxSize.value {
        var excess := |events| as real - maxSize.value;
        events := events[excess.Floor..];
      }
      version := version + 1;
      history := history + [entry];
      states := states + [events];
    }

    /** `emit`, given what each adapter makes of the entry: every derived entry directly follows its source. */
    method Emit(kind: string, payload: P, meta: M, now: real, derived: seq<Derived<P, M>>) returns (entry: Entry<P, M>)
      requires Valid()
      modifies this
      ensures Valid() && entry == Entry(kind, payload, meta, now)
      ensures history == old(history) + [entry] + Settling(entry, derived)
      ensures version == old(version) + 1 + |Settling(entry, derived)| && old(states) <= states
      ensures old(NonDecreasing(history) && UpTo(history, now)) && (forall d :: d in derived ==> d.time.None?) ==>
                NonDecreasing(history) && UpTo(history, now) && NonDecreasing(events)
    {
      entry := Entry(kind, payload, meta, now);
      PushEntry(entry);
      var k := 0;
      while k < |derived|
        invariant k <= |derived| && Valid() && old(states) <= states
        invariant history == old(history) + [entry] + Settling(entry, derived[..k])
        invariant version == old(version) + 1 + |Settling(entry, derived[..k])|
      {
        assert derived[..k + 1][..k] == derived[..k];
        if derived[k].kind != "" {
          PushEntry(Settled(entry, derived[k]));
        }
        k := k + 1;
      }
      assert derived[..k] == derived;
      if NonDecreasing(old(history)) && UpTo(old(history), now) && (forall d :: d in derived ==> d.time.None?) {
        TimesInOrder(old(history), entry, derived);
        HeldInOrder(history, maxSize);
      }
    }

    /** `clear`: an empty log keeps its version. */
    method Clear()
      requires Valid()
      modifies this
      ensures Valid() && events == [] && history == []
      ensures version == old(version) + (if old(history) == [] then 0 else 1) && old(states) <= states
    {
      HeldSome(history, maxSize);
      if |events| > 0 {
        events := [];
        version := version + 1;
        history := [];
        states := states + [events];
      }
    }

    /**
     Any uses of a log. The version only grows, it grows with every entry and every clear that removes something, and so
     two moments with the same version hold the same entries. Times stay in order as long as the clock does not
     run backwards and no derived event brings its own.
     */
    method Run(uses: seq<Use<P, M>>)
      requires Valid()
      modifies this
      ensures Valid() && version >= old(version)
      ensures version == old(version) <==> Idle(old(history), uses)
      ensures version == old(version) ==> events == old(events) && history == old(history)
      ensures Orderly(old(history), uses) ==> NonDecreasing(history) && NonDecreasing(events)
    {
      hide Settling, Held, NonDecreasing, UpTo, Orderly, Idle;
      StartsIdle(history, uses);
      var i := 0;
      while i < |uses|
        invariant i <= |uses| && Valid() && version >= old(version) && old(states) <= states
        invariant version == old(version) ==> history == old(history)
        invariant version == old(version) <==> Idle(old(history), uses[..i])
        invariant Orderly(old(history), uses) ==> Orderly(history, uses[i..])
      {
        ghost var was := history;
        IdleNext(old(history), uses, i);
        match uses[i] {
          case Emit(kind, payload, meta, now, derived) => var _ := Emit(kind, payload, meta, now, derived);
          case Clear => Clear();
        }
        OrderlyNext(was, uses, i, history);
        i := i + 1;
      }
      assert uses[..i] == uses;
      SameVersionSameContents(old(states), states, version);
      OrderlyHeld(history, uses[i..], maxSize);
    }
  }

  /** What is done to a log, with the clock's time and what the adapters make of an entry. */
  datatype Use<P, M> = Emit(kind: string, payload: P, meta: M, now: real, derived: seq<Derived<P, M>>) | Clear

  /** Nothing is emitted, and nothing is there to be cleared. */
  ghost predicate Idle<P, M>(history: seq<Entry<P, M>>, uses: seq<Use<P, M>>) {
    && (forall i :: 0 <= i < |uses| ==> uses[i].Clear?)
    && (uses == [] || history == [])
  }

  lemma StartsIdle<P, M>(history: seq<Entry<P, M>>, uses: seq<Use<P, M>>)
    ensures Idle(history, uses[..0]) && uses[0..] == uses
  {
  }

  lemma IdleNext<P, M>(history: seq<Entry<P, M>>, uses: seq<Use<P, M>>, i: nat)
    requires i < |uses|
    ensures Idle(history, uses[..i + 1]) <==> Idle(history, uses[..i]) && uses[i].Clear? && history == []
  {
    assert uses[..i + 1] == uses[..i] + [uses[i]];
  }

  /** The clock does not run backwards and no derived event brings a time of its own. */
  ghost predicate Orderly<P, M>(history: seq<Entry<P, M>>, uses: seq<Use<P, M>>) {
    && NonDecreasing(history)
    && (forall i :: 0 <= i < |uses| && uses[i].Emit? ==>
          UpTo(history, uses[i].now) && forall d :: d in uses[i].derived ==> d.time.None?)
    && (forall i, j :: 0 <= i < j < |uses| && uses[i].Emit? && uses[j].Emit? ==> uses[i].now <= uses[j].now)
  }

  lemma OrderlyNext<P, M>(history: seq<Entry<P, M>>, uses: seq<Use<P, M>>, i: nat, later: seq<Entry<P, M>>)
    requires i < |uses|
    requires match uses[i]
             case Clear => later == []
             case Emit(_, _, _, now, derived) =>
               NonDecreasing(history) && UpTo(history, now) && (forall d :: d in derived ==> d.time.None?) ==>
                 NonDecreasing(later) && UpTo(later, now)
    ensures Orderly(history, uses[i..]) ==> Orderly(later, uses[i + 1..])
  {
    if Orderly(history, uses[i..]) {
      var rest := uses[i..];
      assert rest[0] == uses[i] && uses[i + 1..] == rest[1..];
      if uses[i].Emit? {
        assert UpTo(history, rest[0].now) && NonDecreasing(later);
        forall j | 0 <= j < |rest[1..]| && rest[1..][j].Emit?
          ensures UpTo(later, rest[1..][j].now)
        {
          assert rest[1..][j] == rest[j + 1] && rest[0].now <= rest[j + 1].now;
        }
      }
    }
  }

  lemma OrderlyHeld<P, M>(history: seq<Entry<P, M>>, uses: seq<Use<P, M>>, size: Option<real>)
    requires size.Some? ==> size.value > 0.0
    ensures Orderly(history, uses) ==> NonDecreasing(history) && NonDecreasing(Held(history, size))
  {
    if Orderly(history, uses) {
      HeldInOrder(history, size);
    }
  }

  lemma SameVersionSameContents<T>(early: seq<T>, late: seq<T>, version: nat)
    requires early <= late
    ensures version < |early| ==> early[version] == late[version]
  {
    assert late[..|early|] == early;
  }
}

/** Animation events derived from skill and score events (engine/eventAdapters.js). */
module AnimationEvents {
  import opened Options
  import opened EventLog

  const DEFAULT_PLAYER_ID := "player-1"

  /** The part of a payload the adapter looks at; an absent or empty string is "". */
  datatype Payload = Payload(
    failed: bool,
    result: string,
    cooling: bool,
    triggerId: string,
    variant: string,
    behavior: string,
    direction: string,
    value: Option<real>,
    delta: Option<real>,
    combo: Option<real>,
    comboIndex: Option<real>,
    multiplier: Option<real>)

  /** What the adapter sees of the world. */
  datatype Context = Context(playerId: Option<string>, orbs: Option<real>, perfect: Option<real>)

  datatype Detail =
    | Score(kind: string, delta: real, total: Option<real>)
    | Directed(direction: string)
    | Varied(variant: string)
    | Plain

  datatype Animation = Animation(
    time: real, playerId: string, skill: Option<string>, combo: Option<real>, comboIndex: Option<real>,
    multiplier: Option<real>, detail: Detail)

  datatype Body = Given(payload: Payload) | Derivation(animation: Animation)

  type Note = Entry<Body, string>

  predicate StartsWith(s: string, prefix: string) {
    |prefix| <= |s| && s[..|prefix|] == prefix
  }

  /** `shouldSuppress`; derived payloads carry none of the marks. */
  predicate Suppressed(e: Note) {
    e.payload.Given? &&
    var p := e.payload.payload;
    p.failed || p.result == "cooldown" || p.result == "failed" || p.cooling
  }

  function TriggerOf(e: Note): string {
    if e.payload.Given? then e.payload.payload.triggerId else ""
  }

  /** `type:triggerId`. */
  function TrackKey(e: Note): Option<string> {
    if TriggerOf(e) == "" then None else Some(e.kind + ":" + TriggerOf(e))
  }

  /** The entry is one the adapter deals with at all. */
  predicate Considered(e: Note) {
    e.kind != "" && !StartsWith(e.kind, "anim:") && !Suppressed(e)
  }

  function Variant(e: Note): string {
    if e.payload.Given? && e.payload.payload.variant != "" then e.payload.payload.variant
    else if e.payload.Given? && e.payload.payload.behavior != "" then e.payload.payload.behavior
    else if e.kind == "ability:teleport:explode" then "explode"
    else "normal"
  }

  function Amount(e: Note): real {
    if e.payload.Given? && e.payload.payload.value.Some? then e.payload.payload.value.value
    else if e.payload.Given? && e.payload.payload.delta.Some? then e.payload.payload.delta.value
    else 1.0
  }

  function Base(e: Note, c: Context, skill: Option<string>, detail: Detail): Body {
    var who := if c.playerId.Some? then c.playerId.value else DEFAULT_PLAYER_ID;
    if e.payload.Given? then
      var p := e.payload.payload;
      Derivation(Animation(e.time, who, skill, p.combo, p.comboIndex, p.multiplier, detail))
    else
      Derivation(Animation(e.time, who, skill, None, None, None, detail))
  }

  function Made(kind: string, body: Body, source: string): Option<Derived<Body, string>> {
    Some(Derived(kind, body, source, None))
  }

  /** The animation an entry calls for, tracking aside. */
  function AnimationOf(e: Note, c: Context): Option<Derived<Body, string>> {
    if e.kind == "score:orb" then Made("anim:orbPickup", Base(e, c, None, Score("orb", Amount(e), c.orbs)), e.kind)
    else if e.kind == "score:perfect" then
      Made("anim:perfectGap", Base(e, c, None, Score("perfect", Amount(e), c.perfect)), e.kind)
    else if e.kind == "dash:start" then
      var way := if e.payload.Given? then e.payload.payload.direction else "";
      Made("anim:dash", Base(e, c, Some("dash"), if way == "" then Plain else Directed(way)), e.kind)
    else if e.kind == "ability:phase:start" then Made("anim:phase", Base(e, c, Some("phase"), Plain), e.kind)
    else if StartsWith(e.kind, "ability:teleport") then
      Made(if Variant(e) == "explode" then "anim:explode" else "anim:teleport",
           Base(e, c, Some("teleport"), Varied(Variant(e))), e.kind)
    else None
  }

  /** No animation calls for another, and none brings a time of its own. */
  lemma AnimationsEnd(e: Note, c: Context)
    ensures AnimationOf(e, c).Some? ==>
              StartsWith(AnimationOf(e, c).value.kind, "anim:") && AnimationOf(e, c).value.time == None
  {
  }

  /** The fields every animation has. */
  predicate Dressed(a: Animation, e: Note, c: Context, skill: string) {
    && a.time == e.time && a.playerId == (if c.playerId.Some? then c.playerId.value else "player-1")
    && a.skill == (if skill == "" then None else Some(skill))
    && (e.payload.Given? ==>
          && a.combo == e.payload.payload.combo && a.comboIndex == e.payload.payload.comboIndex
          && a.multiplier == e.payload.payload.multiplier)
  }

  /**
   A score calls for its own animation, of its value, or else of its delta, or else of one; the total is the
   context's.
   */
  lemma ScoreAnimated(e: Note, c: Context, amount: real)
    requires e.kind == "score:orb" || e.kind == "score:perfect"
    requires e.payload.Given? ==>
      var p := e.payload.payload;
      (p.value.Some? ==> amount == p.value.value)
      && (p.value.None? && p.delta.Some? ==> amount == p.delta.value)
      && (p.value.None? && p.delta.None? ==> amount == 1.0)
    requires !e.payload.Given? ==> amount == 1.0
    ensures AnimationOf(e, c).Some? && AnimationOf(e, c).value.payload.Derivation?
    ensures var d := AnimationOf(e, c).value; var a := d.payload.animation;
            && d.meta == e.kind && Dressed(a, e, c, "")
            && (e.kind == "score:orb" ==> d.kind == "anim:orbPickup" && a.detail == Score("orb", amount, c.orbs))
            && (e.kind == "score:perfect" ==>
                  d.kind == "anim:perfectGap" && a.detail == Score("perfect", amount, c.perfect))
  {
    if e.kind == "score:orb" {
      assert e.kind[6] == 'o';
    } else {
      assert e.kind[6] == 'p';
    }
  }

  /** So do dashes, with their direction if any, and phases. */
  lemma MoveAnimated(e: Note, c: Context)
    requires e.kind == "dash:start" || e.kind == "ability:phase:start"
    ensures AnimationOf(e, c).Some? && AnimationOf(e, c).value.payload.Derivation?
    ensures var d := AnimationOf(e, c).value; var a := d.payload.animation;
            && d.meta == e.kind
            && (e.kind == "ability:phase:start" ==>
                d.kind == "anim:phase" && Dressed(a, e, c, "phase") && a.detail == Plain)
            && (e.kind == "dash:start" ==>
                  var way := if e.payload.Given? then e.payload.payload.direction else "";
                  d.kind == "anim:dash" && Dressed(a, e, c, "dash")
                  && a.detail == if way == "" then Plain else Directed(way))
  {
    if e.kind == "dash:start" {
      assert e.kind[0] == 'd';
    } else {
      assert e.kind[0] == 'a';
    }
  }

  /** A teleport calls for an explosion exactly if its variant, or else its behavior, or else its kind says so. */
  lemma TeleportAnimated(e: Note, c: Context, variant: string)
    requires StartsWith(e.kind, "ability:teleport")
    requires var p := if e.payload.Given? then (e.payload.payload.variant, e.payload.payload.behavior) else ("", "");
             && (p.0 != "" ==> variant == p.0) && (p.0 == "" && p.1 != "" ==> variant == p.1)
             && (p.0 == "" && p.1 == "" ==>
                   variant == if e.kind == "ability:teleport:explode" then "explode" else "normal")
    ensures AnimationOf(e, c).Some? && AnimationOf(e, c).value.payload.Derivation?
    ensures var d := AnimationOf(e, c).value;
            && d.meta == e.kind && Dressed(d.payload.animation, e, c, "teleport")
            && d.payload.animation.detail == Varied(variant)
            && d.kind == if variant == "explode" then "anim:explode" else "anim:teleport"
  {
    assert e.kind[..16] == "ability:teleport";
    assert e.kind[0] == 'a' && e.kind[8] == 't';
  }

  /** Nothing else calls for an animation. */
  lemma NothingElseAnimated(e: Note, c: Context)
    ensures AnimationOf(e, c).Some? <==>
      || e.kind == "score:orb" || e.kind == "score:perfect" || e.kind == "dash:start" || e.kind == "ability:phase:start"
      || StartsWith(e.kind, "ability:teleport")
  {
  }

  /** What is passed over: a failed or cooling use, by any of its marks. */
  lemma SuppressedIff(e: Note)
    ensures Suppressed(e) <==>
      match e.payload
      case Given(p) => p.failed || p.cooling || p.result == "failed" || p.result == "cooldown"
      case Derivation(_) => false
  {
  }

  class AnimationAdapter {
    var seenTriggerIds: set<string>
    ghost var offered: seq<Note>

    ghost predicate Valid()
      reads this
    {
      seenTriggerIds == Keys(offered)
    }

    constructor ()
      ensures Valid() && offered == []
    {
      seenTriggerIds, offered := {}, [];
    }

    /** The adapter derives an animation from an entry unless the entry is passed over or its key was used before. */
    method React(entry: Note, context: Context) returns (derived: seq<Derived<Body, string>>)
      requires Valid()
      modifies this
      ensures Valid() && offered == old(offered) + [entry]
      ensures derived == Reaction(old(offered), entry, context)
    {
      KeysNext(offered, entry);
      ghost var before := offered;
      offered := offered + [entry];
      if entry.kind == "" || StartsWith(entry.kind, "anim:") {
        return [];
      }
      if Suppressed(entry) {
        return [];
      }
      var trackKey := TrackKey(entry);
      if trackKey.Some? && trackKey.value in seenTriggerIds {
        return [];
      }
      if trackKey.Some? {
        seenTriggerIds := seenTriggerIds + {trackKey.value};
      }
      var animation := AnimationOf(entry, context);
      derived := if animation.Some? then [animation.value] else [];
    }
  }

  /** The keys used up by a list of entries: those of the entries that were dealt with. */
  function Keys(offered: seq<Note>): set<string> {
    if offered == [] then {}
    else
      var last := offered[|offered| - 1];
      Keys(offered[..|offered| - 1]) + if Considered(last) && TrackKey(last).Some? then {TrackKey(last).value} else {}
  }

  lemma KeysNext(offered: seq<Note>, e: Note)
    ensures Keys(offered + [e]) ==
              Keys(offered) + if Considered(e) && TrackKey(e).Some? then {TrackKey(e).value} else {}
  {
    assert (offered + [e])[..|offered|] == offered;
  }

  function Reaction(offered: seq<Note>, e: Note, c: Context): seq<Derived<Body, string>> {
    if Considered(e) && (TrackKey(e).Some? ==> TrackKey(e).value !in Keys(offered)) && AnimationOf(e, c).Some?
    then [AnimationOf(e, c).value] else []
  }

  lemma {:induction false} KeyUsed(offered: seq<Note>, key: string)
    ensures key in Keys(offered) <==>
              exists j :: 0 <= j < |offered| && Considered(offered[j]) && TrackKey(offered[j]) == Some(key)
  {
    if offered != [] {
      var front, last := offered[..|offered| - 1], offered[|offered| - 1];
      KeyUsed(front, key);
      if j :| 0 <= j < |offered| && Considered(offered[j]) && TrackKey(offered[j]) == Some(key) {
        if j < |front| {
          assert front[j] == offered[j];
        }
      }
      if key in Keys(front) {
        var j :| 0 <= j < |front| && Considered(front[j]) && TrackKey(front[j]) == Some(key);
        assert offered[j] == front[j];
      } else if Considered(last) && TrackKey(last) == Some(key) {
        assert offered[|offered| - 1] == last;
      }
    }
  }

  /**
   Exactly when an entry produces an animation: it is of a kind that calls for one, it is not passed over, and no
   earlier entry that was not passed over had the same key. An entry without a trigger is never held back.
   */
  lemma ProducesIff(offered: seq<Note>, e: Note, c: Context)
    ensures Reaction(offered, e, c) != [] <==>
      && Considered(e) && AnimationOf(e, c).Some?
      && (TrackKey(e) == None ||
          !exists j :: 0 <= j < |offered| && Considered(offered[j]) && TrackKey(offered[j]) == TrackKey(e))
    ensures |Reaction(offered, e, c)| <= 1
  {
    if TrackKey(e).Some? {
      KeyUsed(offered, TrackKey(e).value);
    }
  }

  /** So of all entries with one key at most one ever produces anything. */
  lemma OncePerKey(offered: seq<Note>, i: nat, j: nat, c: Context, c': Context)
    requires i < j < |offered| && TrackKey(offered[i]).Some? && TrackKey(offered[i]) == TrackKey(offered[j])
    requires Reaction(offered[..i], offered[i], c) != []
    ensures Reaction(offered[..j], offered[j], c') == []
  {
    ProducesIff(offered[..i], offered[i], c);
    ProducesIff(offered[..j], offered[j], c');
    assert offered[..j][i] == offered[i];
  }

  function Plainly(kind: string, trigger: string): Note {
    Entry(kind, Given(Payload(false, "", false, trigger, "", "", "", None, None, None, None, None)), "", 0.0)
  }

  /** Keys are not unique to a trigger: different kinds and triggers can share one, and then the second goes without. */
  lemma KeysCollide(c: Context)
    ensures var first, second := Plainly("ability:teleport:x", "y"), Plainly("ability:teleport", "x:y");
            && TriggerOf(first) != TriggerOf(second)
            && Reaction([], second, c) != [] && Reaction([first], second, c) == []
  {
    var first, second := Plainly("ability:teleport:x", "y"), Plainly("ability:teleport", "x:y");
    assert first.kind + ":" + "y" == second.kind + ":" + "x:y" by {
      assert first.kind == second.kind + ":x";
      assert ":x" + ":" + "y" == ":" + "x:y";
    }
    assert TrackKey(first) == TrackKey(second);
    assert StartsWith(first.kind, "ability:teleport") && StartsWith(second.kind, "ability:teleport");
    assert !StartsWith(first.kind, "anim:") && !StartsWith(second.kind, "anim:") by {
      assert first.kind[1] == second.kind[1] == 'b';
      assert "anim:"[1] == 'n';
    }
    assert [first][..0] == [];
    ProducesIff([], second, c);
    ProducesIff([first], second, c);
    assert [first][0] == first;
  }

  /** The engine's `emit`: one log with one animation adapter (engine/gameEngine.js). */
  method Emit(log: EventLog<Body, string>, adapter: AnimationAdapter,
              kind: string, payload: Payload, meta: string, now: real, context: Context)
    requires log.Valid() && adapter.Valid()
    modifies log, adapter
    ensures log.Valid() && adapter.Valid()
    ensures var entry := Entry(kind, Given(payload), meta, now);
            && adapter.offered == old(adapter.offered) + [entry]
            && log.history ==
              old(log.history) + [entry] + Settling(entry, Reaction(old(adapter.offered), entry, context))
    ensures old(NonDecreasing(log.history) && UpTo(log.history, now)) ==>
              NonDecreasing(log.history) && UpTo(log.history, now) && NonDecreasing(log.events)
  {
    var entry := Entry(kind, Given(payload), meta, now);
    var derived := adapter.React(entry, context);
    AnimationsEnd(entry, context);
    var _ := log.Emit(kind, Given(payload), meta, now, derived);
  }
}
