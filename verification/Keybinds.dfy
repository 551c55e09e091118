/** Key bindings and how rebinding keeps them apart (public/js/keybinds.js). */
module Keybinds {
  import opened Options
  import opened Skills

  datatype Bind = Key(code: string) | Mouse(button: int)

  type Binds = PerSkill<Bind>

  predicate IsBlank(c: char) {
    c == ' ' || c == '\t' || c == '\n' || c == '\r'
  }

  function Trim(s: string): string {
    if s == "" then ""
    else if IsBlank(s[0]) then Trim(s[1..])
    else if IsBlank(s[|s| - 1]) then Trim(s[..|s| - 1])
    else s
  }

  predicate IsAlphanumeric(s: string) {
    forall i :: 0 <= i < |s| ==> 'A' <= s[i] <= 'Z' || 'a' <= s[i] <= 'z' || '0' <= s[i] <= '9'
  }

  function NormalizeBind(b: Bind): Option<Bind> {
    match b
    case Key(raw) =>
      var code := Trim(raw);
      if code == "" || |code| > 32 || !IsAlphanumeric(code) then None else Some(Key(code))
    case Mouse(button) => if 0 <= button <= 2 then Some(b) else None
  }

  /** Blanks around a text that neither begins nor ends with one are taken off, and nothing else. */
  lemma {:induction false} TrimIs(before: string, s: string, after: string)
    requires (forall i :: 0 <= i < |before| ==> IsBlank(before[i])) && forall i :: 0 <= i < |after| ==>
      IsBlank(after[i])
    requires s != "" && !IsBlank(s[0]) && !IsBlank(s[|s| - 1])
    ensures Trim(before + s + after) == s
    decreases |before| + |after|
  {
    var all := before + s + after;
    if before != "" {
      assert all[0] == before[0];
      assert all[1..] == before[1..] + s + after;
      TrimIs(before[1..], s, after);
    } else if after != "" {
      assert all[0] == s[0];
      assert all[|all| - 1] == after[|after| - 1];
      assert all[..|all| - 1] == before + s + after[..|after| - 1];
      TrimIs(before, s, after[..|after| - 1]);
    } else {
      assert all == s;
    }
  }

  predicate Letter(c: char) {
    'A' <= c <= 'Z' || 'a' <= c <= 'z' || '0' <= c <= '9'
  }

  /**
   Which bindings can be used: a key code of 1 to 32 letters and digits, blanks around it aside, and three buttons.
   */
  lemma NormalizeIs(before: string, code: string, after: string, button: int)
    requires (forall i :: 0 <= i < |before| ==> IsBlank(before[i])) && forall i :: 0 <= i < |after| ==>
      IsBlank(after[i])
    requires code != "" && forall i :: 0 <= i < |code| ==> !IsBlank(code[i])
    ensures NormalizeBind(Key(before + code + after))
              == if |code| <= 32 && forall i :: 0 <= i < |code| ==> Letter(code[i]) then Some(Key(code)) else None
    ensures NormalizeBind(Mouse(button))
              == if button == 0 || button == 1 || button == 2 then Some(Mouse(button)) else None
  {
    TrimIs(before, code, after);
    assert IsAlphanumeric(code) <==> forall i :: 0 <= i < |code| ==> Letter(code[i]);
  }

  /** A binding as `normalizeBind` lets it through. */
  predicate IsNormal(b: Bind) {
    NormalizeBind(b) == Some(b)
  }

  lemma {:induction false} TrimTwice(s: string)
    ensures Trim(Trim(s)) == Trim(s)
  {
    if s != "" {
      if IsBlank(s[0]) {
        TrimTwice(s[1..]);
      } else if IsBlank(s[|s| - 1]) {
        TrimTwice(s[..|s| - 1]);
      }
    }
  }

  lemma NormalizeTwice(b: Bind)
    ensures NormalizeBind(b).Some? ==> IsNormal(NormalizeBind(b).value)
  {
    if b.Key? {
      TrimTwice(b.code);
    }
  }

  function Token(b: Bind): string {
    match b
    case Key(code) => "k:" + code
    case Mouse(button) =>
      "m:" + (if button == 0 then "0" else if button == 1 then "1" else if button == 2 then "2" else "?")
  }

  /** Among bindings that can be stored, equal tokens mean equal bindings. */
  lemma TokensTellApart(a: Bind, b: Bind)
    requires IsNormal(a) && IsNormal(b) && Token(a) == Token(b)
    ensures a == b
  {
    assert Token(a)[0] == Token(b)[0];
    assert Token(a)[2..] == Token(b)[2..];
    if a.Key? {
      assert Token(a)[2..] == a.code;
      assert b.Key? && Token(b)[2..] == b.code;
    } else {
      assert Token(a)[2] == Token(b)[2];
    }
  }

  const ORDER: seq<Skill> := [Dash, Phase, Teleport, SlowField]

  predicate AllNormal(binds: Binds) {
    forall s: Skill :: IsNormal(binds.Get(s))
  }

  /** No two of the actions in `among` share a token. */
  predicate Distinct(binds: Binds, among: set<Skill>) {
    forall s, t :: s in among && t in among && s != t ==> Token(binds.Get(s)) != Token(binds.Get(t))
  }

  function Everything(): set<Skill> {
    {Dash, Phase, Teleport, SlowField}
  }

  datatype Rebind = Rebind(binds: Binds, changed: bool, swappedWith: Option<Skill>)

  /** `applyRebindWithSwap`: the action gets the binding, and whoever had it first gets the action's old one. */
  method ApplyRebindWithSwap(binds: Binds, action: Skill, newBind: Bind) returns (r: Rebind)
    ensures NormalizeBind(newBind).None? ==> r == Rebind(binds, false, None)
    ensures NormalizeBind(newBind).Some? ==> Rebound(binds, action, NormalizeBind(newBind).value, r)
  {
    hide Token, NormalizeBind;
    var nb := NormalizeBind(newBind);
    if nb.None? {
      return Rebind(binds, false, None);
    }
    var other: Option<Skill> := None;
    var k := 0;
    while k < |ORDER| && other.None?
      invariant k <= |ORDER|
      invariant other.None? ==> forall j :: 0 <= j < k ==>
        ORDER[j] == action || Token(binds.Get(ORDER[j])) != Token(nb.value)
      invariant other.Some? ==> other.value != action && Token(binds.Get(other.value)) == Token(nb.value)
    {
      if ORDER[k] != action && Token(binds.Get(ORDER[k])) == Token(nb.value) {
        other := Some(ORDER[k]);
      }
      k := k + 1;
    }
    assert other.None? ==> forall s: Skill :: s == action || Token(binds.Get(s)) != Token(nb.value) by {
      if other.None? {
        assert ORDER[0] == Dash && ORDER[1] == Phase && ORDER[2] == Teleport && ORDER[3] == SlowField;
      }
    }
    var out := binds.Set(action, nb.value);
    if other.Some? {
      out := out.Set(other.value, binds.Get(action));
    }
    r := Rebind(out, true, other);
  }

  /** What a rebinding that goes through comes to. */
  ghost predicate Rebound(binds: Binds, action: Skill, nb: Bind, r: Rebind) {
    && r.changed
    && r.binds.Get(action) == nb
    && (r.swappedWith.None? ==> forall s: Skill :: s != action ==> Token(binds.Get(s)) != Token(nb))
    && (r.swappedWith.Some? ==>
          && r.swappedWith.value != action && Token(binds.Get(r.swappedWith.value)) == Token(nb)
          && r.binds.Get(r.swappedWith.value) == binds.Get(action))
    && (forall s: Skill :: s != action && r.swappedWith != Some(s) ==> r.binds.Get(s) == binds.Get(s))
  }

  /**
   Exactly when the tokens are distinct after a rebinding: if a swap took place, when they were before; if not, when
   those of the other actions were. So a set of distinct bindings stays one, and every action stays bound.
   */
  lemma DistinctAfterIff(binds: Binds, action: Skill, nb: Bind, r: Rebind)
    requires Rebound(binds, action, nb, r)
    ensures Distinct(r.binds, Everything()) <==>
              Distinct(binds, if r.swappedWith.Some? then Everything() else Everything() - {action})
    ensures Distinct(binds, Everything()) ==> Distinct(r.binds, Everything())
    ensures AllNormal(binds) && IsNormal(nb) ==> AllNormal(r.binds)
  {
    hide Token, NormalizeBind;
  }

  /** An action and what the player pressed for it. */
  datatype Press = Press(action: Skill, bind: Bind)

  /**
   Any sequence of rebindings, refused ones included, keeps distinct bindings distinct and usable ones usable; and the
   action that was rebound last has what was pressed for it.
   */
  method RebindAll(binds: Binds, presses: seq<Press>) returns (out: Binds)
    ensures Distinct(binds, Everything()) ==> Distinct(out, Everything())
    ensures AllNormal(binds) ==> AllNormal(out)
    ensures presses != [] ==>
      var last := presses[|presses| - 1];
      NormalizeBind(last.bind).Some? ==> out.Get(last.action) == NormalizeBind(last.bind).value
    ensures (forall i :: 0 <= i < |presses| ==> NormalizeBind(presses[i].bind).None?) ==> out == binds
  {
    hide Token, NormalizeBind, IsNormal, Distinct;
    out := binds;
    for i := 0 to |presses|
      invariant Distinct(binds, Everything()) ==> Distinct(out, Everything())
      invariant AllNormal(binds) ==> AllNormal(out)
      invariant i > 0 && NormalizeBind(presses[i - 1].bind).Some? ==>
        out.Get(presses[i - 1].action) == NormalizeBind(presses[i - 1].bind).value
      invariant (forall j :: 0 <= j < i ==> NormalizeBind(presses[j].bind).None?) ==> out == binds
    {
      var r := ApplyRebindWithSwap(out, presses[i].action, presses[i].bind);
      var nb := NormalizeBind(presses[i].bind);
      NormalizeTwice(presses[i].bind);
      if nb.Some? {
        DistinctAfterIff(out, presses[i].action, nb.value, r);
      }
      out := r.binds;
    }
  }

  /** Taking the old binding back undoes the rebinding, swap and all. */
  lemma RebindBack(binds: Binds, action: Skill, nb: Bind, r: Rebind, back: Rebind)
    requires AllNormal(binds) && IsNormal(nb) && Distinct(binds, Everything())
    requires Rebound(binds, action, nb, r) && Rebound(r.binds, action, binds.Get(action), back)
    ensures back.binds == binds
  {
    DistinctAfterIff(binds, action, nb, r);
    forall s: Skill
      ensures back.binds.Get(s) == binds.Get(s)
    {
      BackFor(binds, action, nb, r, back, s);
    }
    SameEverywhere(back.binds, binds);
  }

  lemma SameEverywhere(a: Binds, b: Binds)
    requires forall s: Skill :: a.Get(s) == b.Get(s)
    ensures a == b
  {
    assert a.Get(Dash) == b.Get(Dash) && a.Get(Phase) == b.Get(Phase);
    assert a.Get(Teleport) == b.Get(Teleport) && a.Get(SlowField) == b.Get(SlowField);
  }

  lemma BackFor(binds: Binds, action: Skill, nb: Bind, r: Rebind, back: Rebind, s: Skill)
    requires AllNormal(binds) && IsNormal(nb) && Distinct(binds, Everything())
    requires Rebound(binds, action, nb, r) && Rebound(r.binds, action, binds.Get(action), back)
    ensures back.binds.Get(s) == binds.Get(s)
  {
    if r.swappedWith.Some? {
      var other := r.swappedWith.value;
      assert IsNormal(binds.Get(other));
      TokensTellApart(binds.Get(other), nb);
      assert other in Everything() && action in Everything();
      assert Token(r.binds.Get(other)) == Token(binds.Get(action));
    }
    hide Token, NormalizeBind;
  }

  function Defaults(): Binds {
    PerSkill(Key("Space"), Mouse(2), Mouse(0), Key("KeyE"))
  }

  /** What was stored for an action, if it can be used. */
  function Usable(stored: PerSkill<Option<Bind>>, s: Skill): Option<Bind> {
    if stored.Get(s).Some? then NormalizeBind(stored.Get(s).value) else None
  }

  function Either(stored: Option<Bind>, base: Bind): Bind {
    if stored.Some? then stored.value else base
  }

  /** `mergeBinds`: what was stored, where it can be used. */
  function MergeBinds(base: Binds, stored: PerSkill<Option<Bind>>): Binds {
    PerSkill(Either(Usable(stored, Dash), base.dash), Either(Usable(stored, Phase), base.phase),
             Either(Usable(stored, Teleport), base.teleport), Either(Usable(stored, SlowField), base.slowField))
  }

  lemma MergedAt(base: Binds, stored: PerSkill<Option<Bind>>, s: Skill)
    ensures MergeBinds(base, stored).Get(s) == Either(Usable(stored, s), base.Get(s))
  {
  }

  /** The usable stored bindings have tokens of their own, and none that a binding kept from `base` has. */
  ghost predicate Compatible(base: Binds, stored: PerSkill<Option<Bind>>) {
    && (forall s, t: Skill :: s != t && Usable(stored, s).Some? && Usable(stored, t).Some? ==>
          Token(Usable(stored, s).value) != Token(Usable(stored, t).value))
    && (forall s, t: Skill :: Usable(stored, s).Some? && Usable(stored, t).None? ==>
          Token(Usable(stored, s).value) != Token(base.Get(t)))
  }

  /** Exactly when loading keeps bindings apart; every binding it yields can be used. */
  lemma MergeApartIff(base: Binds, stored: PerSkill<Option<Bind>>)
    requires Distinct(base, Everything()) && AllNormal(base)
    ensures Distinct(MergeBinds(base, stored), Everything()) <==> Compatible(base, stored)
    ensures AllNormal(MergeBinds(base, stored))
  {
    forall s: Skill
      ensures s in Everything() && IsNormal(MergeBinds(base, stored).Get(s))
      ensures MergeBinds(base, stored).Get(s) == Either(Usable(stored, s), base.Get(s))
    {
      MergedAt(base, stored, s);
      if stored.Get(s).Some? {
        NormalizeTwice(stored.Get(s).value);
      }
    }
    hide Token, NormalizeBind, IsNormal, MergeBinds, Usable, Everything;
  }

  /** What was saved is loaded again, whatever the bindings to fall back on; what could not be used is not. */
  lemma LoadSavedIff(base: Binds, binds: Binds)
    ensures MergeBinds(base, Saved(binds)) == binds <==>
              forall s: Skill :: IsNormal(binds.Get(s))
                || (NormalizeBind(binds.Get(s)).None? && binds.Get(s) == base.Get(s))
  {
    forall s: Skill
      ensures MergeBinds(base, Saved(binds)).Get(s) == Either(NormalizeBind(binds.Get(s)), base.Get(s))
    {
      MergedAt(base, Saved(binds), s);
    }
    hide NormalizeBind, MergeBinds;
    if forall s: Skill :: MergeBinds(base, Saved(binds)).Get(s) == binds.Get(s) {
      SameEverywhere(MergeBinds(base, Saved(binds)), binds);
    }
  }

  /** `saveGuestBinds`: everything is stored. */
  function Saved(binds: Binds): PerSkill<Option<Bind>> {
    PerSkill(Some(binds.dash), Some(binds.phase), Some(binds.teleport), Some(binds.slowField))
  }

  /** Loading does not keep bindings apart: a stored dash on the default button of phase gives two actions one token. */
  lemma MergeCanCollide()
    ensures Distinct(Defaults(), Everything())
    ensures !Distinct(MergeBinds(Defaults(), PerSkill(Some(Mouse(2)), None, None, None)), Everything())
  {
    var merged := MergeBinds(Defaults(), PerSkill(Some(Mouse(2)), None, None, None));
    assert merged.Get(Dash) == merged.Get(Phase) == Mouse(2);
    assert Dash in Everything() && Phase in Everything();
    var d := Defaults();
    assert Token(d.Get(Dash)) == "k:" + "Space" && Token(d.Get(SlowField)) == "k:" + "KeyE";
    assert Token(d.Get(Dash))[0] == Token(d.Get(SlowField))[0] == 'k';
    assert Token(d.Get(Dash))[2] == 'S' && Token(d.Get(SlowField))[2] == 'K';
    assert Token(d.Get(Phase))[0] == Token(d.Get(Teleport))[0] == 'm';
    assert Token(d.Get(Phase))[2] == '2' && Token(d.Get(Teleport))[2] == '0';
  }
}
