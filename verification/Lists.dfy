/** Lists as the game edits them: filtered by a backwards loop, spliced, and counted by a key of their items. */
module Lists {
  function Kept<T>(s: seq<T>, keep: T -> bool): seq<T> {
    if s == [] then [] else (if keep(s[0]) then [s[0]] else []) + Kept(s[1..], keep)
  }

  function RemoveAt<T>(s: seq<T>, i: nat): (r: seq<T>)
    requires i < |s|
    ensures |r| == |s| - 1
  {
    s[..i] + s[i + 1..]
  }

  lemma RemoveChanged<T>(s: seq<T>, i: nat, x: T)
    requires i < |s|
    ensures RemoveAt(s[i := x], i) == RemoveAt(s, i)
  {
  }

  /** One step of a forward loop that has replaced the items before `k`. */
  lemma ReplaceNext<T>(done: seq<T>, s: seq<T>, k: nat, x: T)
    requires |done| == k < |s|
    ensures (done + s[k..])[k] == s[k]
    ensures (done + s[k..])[k := x] == done + [x] + s[k + 1..]
  {
  }

  /** One step of a backwards loop that has filtered the part of the list behind `i`. */
  lemma KeptBackwards<T>(s: seq<T>, i: nat, keep: T -> bool)
    requires i < |s|
    ensures keep(s[i]) ==> s[..i] + Kept(s[i..], keep) == s[..i + 1] + Kept(s[i + 1..], keep)
    ensures !keep(s[i]) ==>
      s[..i] + Kept(s[i..], keep) == RemoveAt(s[..i + 1] + Kept(s[i + 1..], keep), i)
  {
    assert s[i..][1..] == s[i + 1..];
  }

  /** The same for a loop that also updates the item before it decides. */
  lemma UpdatedThenKept<T>(s: seq<T>, updated: seq<T>, i: nat, keep: T -> bool)
    requires i < |s| == |updated|
    ensures (s[..i + 1] + Kept(updated[i + 1..], keep))[i] == s[i]
    ensures var now := (s[..i + 1] + Kept(updated[i + 1..], keep))[i := updated[i]];
            s[..i] + Kept(updated[i..], keep) == if keep(updated[i]) then now else RemoveAt(now, i)
  {
    assert updated[i..][1..] == updated[i + 1..];
  }

  lemma Associates<T>(a: seq<T>, b: seq<T>, c: seq<T>)
    ensures a + b + c == a + (b + c)
  {
  }

  lemma KeptCons<T>(x: T, s: seq<T>, keep: T -> bool)
    ensures Kept([x] + s, keep) == (if keep(x) then [x] else []) + Kept(s, keep)
  {
    assert ([x] + s)[1..] == s;
  }

  lemma {:induction false} KeptAppend<T>(s: seq<T>, t: seq<T>, keep: T -> bool)
    ensures Kept(s + t, keep) == Kept(s, keep) + Kept(t, keep)
  {
    if s == [] {
      assert s + t == t;
    } else {
      var x, rest := s[0], s[1..];
      assert s == [x] + rest;
      Associates([x], rest, t);
      KeptAppend(rest, t, keep);
      KeptCons(x, rest, keep);
      KeptCons(x, rest + t, keep);
      hide Kept;
      Associates(if keep(x) then [x] else [], Kept(rest, keep), Kept(t, keep));
    }
  }

  lemma {:induction false} KeptAll<T>(s: seq<T>, keep: T -> bool)
    requires forall x :: x in s ==> keep(x)
    ensures Kept(s, keep) == s
  {
    if s != [] { KeptAll(s[1..], keep); }
  }

  lemma {:induction false} KeptNone<T>(s: seq<T>, keep: T -> bool)
    requires forall x :: x in s ==> !keep(x)
    ensures Kept(s, keep) == []
  {
    if s != [] { KeptNone(s[1..], keep); }
  }

  lemma {:induction false} KeptCount<T>(s: seq<T>, keep: T -> bool, x: T)
    ensures multiset(Kept(s, keep))[x] == if keep(x) then multiset(s)[x] else 0
  {
    if s != [] {
      KeptCount(s[1..], keep, x);
      assert s == [s[0]] + s[1..];
    }
  }

  /** The keys of a list, counted. */
  function Bag<T>(s: seq<T>, key: T -> nat): multiset<nat> {
    if s == [] then multiset{} else Bag(s[..|s| - 1], key) + multiset{key(s[|s| - 1])}
  }

  lemma BagSnoc<T>(s: seq<T>, x: T, key: T -> nat)
    ensures Bag(s + [x], key) == Bag(s, key) + multiset{key(x)}
  {
    assert (s + [x])[..|s|] == s;
  }

  lemma Regroup(a: multiset<nat>, b: multiset<nat>, c: multiset<nat>)
    ensures a + b + c == a + (b + c) && a + b + c == a + c + b
  {
  }

  lemma {:induction false} BagAppend<T>(s: seq<T>, t: seq<T>, key: T -> nat)
    ensures Bag(s + t, key) == Bag(s, key) + Bag(t, key)
  {
    if t == [] {
      assert s + t == s;
    } else {
      var front, x := t[..|t| - 1], t[|t| - 1];
      assert s + t == s + front + [x];
      BagAppend(s, front, key);
      BagSnoc(s + front, x, key);
      Regroup(Bag(s, key), Bag(front, key), multiset{key(x)});
    }
  }

  lemma BagAround<T>(a: seq<T>, x: T, b: seq<T>, key: T -> nat)
    ensures Bag(a + [x] + b, key) == Bag(a + b, key) + multiset{key(x)}
  {
    BagAppend(a, b, key);
    BagAppend(a + [x], b, key);
    BagSnoc(a, x, key);
    Regroup(Bag(a, key), multiset{key(x)}, Bag(b, key));
  }

  lemma BagRemoveAt<T>(s: seq<T>, i: nat, key: T -> nat)
    requires i < |s|
    ensures Bag(s, key) == Bag(RemoveAt(s, i), key) + multiset{key(s[i])}
  {
    hide Bag;
    SplitAt(s, i);
    BagAround(s[..i], s[i], s[i + 1..], key);
  }

  lemma SplitAt<T>(s: seq<T>, i: nat)
    requires i < |s|
    ensures s == s[..i] + [s[i]] + s[i + 1..]
  {
  }

  /** Changing items without touching their keys leaves the bag alone. */
  lemma {:induction false} BagSame<T>(s: seq<T>, t: seq<T>, key: T -> nat)
    requires |s| == |t| && forall i :: 0 <= i < |s| ==> key(s[i]) == key(t[i])
    ensures Bag(s, key) == Bag(t, key)
  {
    if s != [] {
      BagSame(s[..|s| - 1], t[..|t| - 1], key);
    }
  }

  lemma {:induction false} BagSize<T>(s: seq<T>, key: T -> nat)
    ensures |Bag(s, key)| == |s|
  {
    if s != [] {
      BagSize(s[..|s| - 1], key);
    }
  }

  lemma {:induction false} BagCounts<T>(s: seq<T>, key: T -> nat, k: nat)
    ensures Bag(s, key)[k] > 0 <==> exists i :: 0 <= i < |s| && key(s[i]) == k
  {
    if s != [] {
      var front := s[..|s| - 1];
      BagCounts(front, key, k);
      if key(s[|s| - 1]) == k {
        assert Bag(s, key)[k] > 0;
      } else if Bag(front, key)[k] > 0 {
        var i :| 0 <= i < |front| && key(front[i]) == k;
        assert key(s[i]) == k;
      }
      forall i | 0 <= i < |s| && key(s[i]) == k
        ensures Bag(s, key)[k] > 0
      {
        if i < |front| {
          assert key(front[i]) == k;
        }
      }
    }
  }
}
