/**
 The bounded, time-sorted snapshot buffer of engine/snapshotBuffer.js: it
 holds the latest entries of everything added, in order of time and arrival,
 however the additions were ordered and however often it was trimmed before.
 */
module SnapshotBuffer {
  import opened Options
  import opened JsNumbers

  datatype Entry<T> = Entry(time: real, snapshot: T)

  predicate Sorted<T>(s: seq<Entry<T>>) {
    forall i, j :: 0 <= i < j < |s| ==> s[i].time <= s[j].time
  }

  /** How many entries are not later than `time`. */
  function NotLater<T>(s: seq<Entry<T>>, time: real): (p: nat)
    ensures p <= |s|
  {
    if s == [] then 0 else NotLater(s[..|s| - 1], time) + (if s[|s| - 1].time <= time then 1 else 0)
  }

  /** In a sorted buffer those entries are a prefix. */
  lemma {:induction false} NotLaterIsPrefix<T>(s: seq<Entry<T>>, time: real)
    requires Sorted(s)
    ensures forall i :: 0 <= i < |s| ==> (i < NotLater(s, time) <==> s[i].time <= time)
  {
    if s != [] {
      var front := s[..|s| - 1];
      NotLaterIsPrefix(front, time);
      forall i | 0 <= i < |s|
        ensures i < NotLater(s, time) <==> s[i].time <= time
      {
        if i < |s| - 1 {
          assert front[i] == s[i];
        }
      }
    }
  }

  function Insert<T>(s: seq<Entry<T>>, e: Entry<T>): (r: seq<Entry<T>>)
    ensures |r| == |s| + 1
  {
    var p := NotLater(s, e.time);
    s[..p] + [e] + s[p..]
  }

  lemma InsertSorted<T>(s: seq<Entry<T>>, e: Entry<T>)
    requires Sorted(s)
    ensures Sorted(Insert(s, e))
  {
    NotLaterIsPrefix(s, e.time);
  }

  /** `entries.sort` by time: a stable sort, entries of equal time keep their order. */
  function StableSort<T>(s: seq<Entry<T>>): (r: seq<Entry<T>>)
    ensures |r| == |s|
  {
    if s == [] then [] else Insert(StableSort(s[..|s| - 1]), s[|s| - 1])
  }

  lemma {:induction false} StableSortSorted<T>(s: seq<Entry<T>>)
    ensures Sorted(StableSort(s))
  {
    if s != [] {
      StableSortSorted(s[..|s| - 1]);
      InsertSorted(StableSort(s[..|s| - 1]), s[|s| - 1]);
    }
  }

  /** A sorted sequence sorts to itself. */
  lemma {:induction false} SortedIsFixed<T>(s: seq<Entry<T>>)
    requires Sorted(s)
    ensures StableSort(s) == s
  {
    if s != [] {
      var front := s[..|s| - 1];
      SortedIsFixed(front);
      AllNotLater(front, s[|s| - 1].time);
      hide NotLater;
    }
  }

  lemma AllNotLater<T>(s: seq<Entry<T>>, time: real)
    requires Sorted(s) && (s != [] ==> s[|s| - 1].time <= time)
    ensures NotLater(s, time) == |s|
  {
    NotLaterIsPrefix(s, time);
  }

  function LastK<T>(s: seq<T>, k: nat): seq<T> {
    if |s| > k then s[|s| - k..] else s
  }

  /** Slicing off `length - maxSize`, truncated, leaves just the capacity. */
  lemma TrimCount(n: nat, maxSize: real)
    requires maxSize > 0.0 && n as real > maxSize
    ensures (n as real - maxSize).Floor == (if n > Ceil(maxSize) then n - Ceil(maxSize) else 0)
    ensures n <= Ceil(maxSize) + 1 ==> n >= Ceil(maxSize)
  {
  }

  lemma SortOneMore<T>(s: seq<Entry<T>>, e: Entry<T>)
    requires Sorted(s)
    ensures StableSort(s + [e]) == Insert(s, e) && Sorted(Insert(s, e))
  {
    assert (s + [e])[..|s|] == s;
    SortedIsFixed(s);
    InsertSorted(s, e);
  }

  /** How far `time` lies between two others. */
  function Fraction(a: real, time: real, b: real): (t: real)
    requires a < time < b
    ensures 0.0 < t < 1.0
  {
    Quotient(time - a, b - a)
  }

  /** The point that far between the two is the time itself: 0 would be `a` and 1 would be `b`. */
  lemma FractionIsWeight(a: real, time: real, b: real)
    requires a < time < b
    ensures a + Fraction(a, time, b) * (b - a) == time
    ensures (1.0 - Fraction(a, time, b)) * a + Fraction(a, time, b) * b == time
  {
    QuotientTimes(time - a, b - a);
    var t := Fraction(a, time, b);
    assert (1.0 - t) * a + t * b == a + t * (b - a);
  }

  lemma QuotientTimes(x: real, d: real)
    requires 0.0 < x < d
    ensures Quotient(x, d) * d == x
  {
  }

  function Quotient(x: real, d: real): (t: real)
    requires 0.0 < x < d
    ensures 0.0 < t < 1.0
  {
    FromProduct(x / d, d, x);
    x / d
  }

  lemma FromProduct(t: real, d: real, x: real)
    requires d > 0.0 && t * d == x && 0.0 < x < d
    ensures 0.0 < t < 1.0
  {
    if t >= 1.0 {
      NotShorter(t, d, x);
    } else if t <= 0.0 {
      NotPositive(t, d, x);
    }
  }

  lemma NotShorter(t: real, d: real, x: real)
    requires d > 0.0 && t * d == x && t >= 1.0
    ensures x >= d
  {
    NonNegativeProduct(t - 1.0, d);
    assert (t - 1.0) * d == x - d;
  }

  lemma NotPositive(t: real, d: real, x: real)
    requires d > 0.0 && t * d == x && t <= 0.0
    ensures x <= 0.0
  {
    NonNegativeProduct(-t, d);
    assert (-t) * d == -x;
  }

  class SnapshotBuffer<T> {
    /** Any positive number; what it keeps is its ceiling. */
    const maxSize: real
    var entries: seq<Entry<T>>
    /** Everything added since the last clear. */
    ghost var adds: seq<Entry<T>>

    predicate Usable()
      reads this`entries
    {
      maxSize > 0.0 && Sorted(entries) && |entries| <= Ceil(maxSize)
    }

    ghost predicate Valid()
      reads this
    {
      Usable() && entries == BufferAfter(Ceil(maxSize), adds)
    }

    constructor (maxSize: real)
      requires maxSize > 0.0
      ensures Valid() && entries == [] && adds == [] && this.maxSize == maxSize
    {
      this.maxSize := maxSize;
      entries, adds := [], [];
    }

    /** `add`; a time that is not a finite number (`None`) is rejected and changes nothing. */
    method Add(time: Option<real>, snapshot: T) returns (added: bool)
      requires Valid()
      modifies this
      ensures Valid() && added == time.Some?
      ensures !added ==> unchanged(this)
      ensures added ==>
        && entries == LastK(Insert(old(entries), Entry(time.value, snapshot)), Ceil(maxSize))
        && adds == old(adds) + [Entry(time.value, snapshot)]
    {
      if time.None? { return false; }
      hide Insert, LastK, Sorted;
      Place(Entry(time.value, snapshot));
      assert (adds + [Entry(time.value, snapshot)])[..|adds|] == adds;
      adds := adds + [Entry(time.value, snapshot)];
      added := true;
    }

    /** Push, sort and trim. */
    method Place(e: Entry<T>)
      requires Usable()
      modifies this`entries
      ensures Usable() && entries == LastK(Insert(old(entries), e), Ceil(maxSize))
    {
      hide Insert, StableSort;
      SortOneMore(entries, e);
      entries := entries + [e];
      entries := StableSort(entries);
      if |entries| as real > maxSize {
        TrimCount(|entries|, maxSize);
        entries := entries[(|entries| as real - maxSize).Floor..];
      }
    }

    method Clear()
      requires Valid()
      modifies this
      ensures Valid() && entries == [] && adds == []
    {
      entries, adds := [], [];
    }

    /** Any additions and clears: the buffer holds the last additions since the last clear, by time and arrival. */
    method Run(inputs: seq<Input<T>>) returns (ghost order: seq<nat>)
      requires Valid()
      modifies this
      ensures Valid() && adds == AddsAfter(old(adds), inputs)
      ensures Ranking(adds, order) && Listed(adds, LastK(order, Ceil(maxSize)), entries)
    {
      hide *;
      assert inputs[..0] == [];
      NothingYet(old(adds), inputs[..0]);
      for i := 0 to |inputs|
        invariant Valid() && adds == AddsAfter(old(adds), inputs[..i])
      {
        AddsOneMore(old(adds), inputs, i);
        match inputs[i] {
          case Add(time, snapshot) => var _ := Add(time, snapshot);
          case Clear => Clear();
        }
      }
      assert inputs[..|inputs|] == inputs;
      order := Ranks();
    }

    lemma Ranks() returns (order: seq<nat>)
      requires Valid()
      ensures Ranking(adds, order) && Listed(adds, LastK(order, Ceil(maxSize)), entries)
      ensures entries == [] <==> adds == []
    {
      order := BufferHoldsLatest(Ceil(maxSize), adds);
    }

    /** `latest`: of all that was added since the last clear, the latest in time, and of those the last to arrive. */
    method Latest() returns (r: Option<T>, ghost last: nat)
      requires Valid()
      ensures r.None? <==> adds == []
      ensures r.Some? ==> LatestOf(adds, last) && r.value == adds[last].snapshot
    {
      hide BufferAfter;
      r := if |entries| > 0 then Some(entries[|entries| - 1].snapshot) else None;
      ghost var order := Ranks();
      last := if adds == [] then 0 else order[|order| - 1];
      if adds != [] {
        RanksLast(adds, order, last);
      }
    }

    /**
     `earliest`: of all that was added since the last clear, the first that the rest of the ranking leaves room
     for.
     */
    method Earliest() returns (r: Option<T>, ghost order: seq<nat>)
      requires Valid()
      ensures Ranking(adds, order) && (r.None? <==> adds == [])
      ensures r.Some? ==>
        r.value == adds[order[if |adds| < Ceil(maxSize) then 0 else |adds| - Ceil(maxSize)]].snapshot
    {
      hide BufferAfter, Before, Sorted;
      r := if |entries| > 0 then Some(entries[0].snapshot) else None;
      order := Ranks();
    }

    /**
     `sample`. `interpolate` need only be defined on two neighbours and a fraction strictly between
     0 and 1, so these are the only calls made. Between two entries the answer is theirs; on an inner
     entry's own time it is the first to arrive with that time; outside it is the nearest end.
     */
    method Sample(time: real, interpolate: Option<(T, T, real) --> T>) returns (r: Option<T>)
      requires Valid()
      requires interpolate.Some? ==>
        forall i, j, t :: 0 <= i && j == i + 1 && j < |entries| && 0.0 < t < 1.0 ==>
          interpolate.value.requires(entries[i].snapshot, entries[j].snapshot, t)
      ensures entries == [] <==> r == None
      ensures entries != [] && time <= entries[0].time ==> r == Some(entries[0].snapshot)
      ensures entries != [] && entries[0].time < time && entries[|entries| - 1].time <= time ==>
        r == Some(entries[|entries| - 1].snapshot)
      ensures forall i, j :: 0 <= i && j == i + 1 && j < |entries| && entries[i].time < time == entries[j].time
                             && time < entries[|entries| - 1].time ==>
        r == Some(entries[j].snapshot)
      ensures forall i, j :: 0 <= i && j == i + 1 && j < |entries| && entries[i].time < time < entries[j].time ==>
        r == if interpolate.None? then Some(entries[i].snapshot)
             else Some(interpolate.value(entries[i].snapshot, entries[j].snapshot,
                                         Fraction(entries[i].time, time, entries[j].time)))
    {
      hide BufferAfter;
      if |entries| == 0 { return None; }
      if time <= entries[0].time { return Some(entries[0].snapshot); }
      var last := entries[|entries| - 1];
      if time >= last.time { return Some(last.snapshot); }
      var i := Bracket(time);
      var current := entries[i];
      if current.time == time { return Some(current.snapshot); }
      var before := entries[i - 1];
      if interpolate.Some? {
        var t := Fraction(before.time, time, current.time);
        return Some(interpolate.value(before.snapshot, current.snapshot, t));
      }
      r := Some(before.snapshot);
    }

    /** The one place where the times reach `time`. */
    method Bracket(time: real) returns (i: nat)
      requires Usable() && entries != [] && entries[0].time < time < entries[|entries| - 1].time
      ensures 0 < i < |entries|
      ensures forall j :: 0 <= j < |entries| ==> (j < i <==> entries[j].time < time)
    {
      i := 1;
      while i < |entries| && entries[i].time < time
        invariant 0 < i < |entries| && entries[i - 1].time < time
      {
        i := i + 1;
      }
    }
  }

  // ---------------------------------------------------------------------
  // Whole histories: `adds` is everything added since the last clear.
  // ---------------------------------------------------------------------

  /** What is done to a buffer; a time of `None` is one that is not a finite number. */
  datatype Input<T> = Add(time: Option<real>, snapshot: T) | Clear

  /** What has been added since the last clear. */
  function AddsAfter<T>(adds: seq<Entry<T>>, inputs: seq<Input<T>>): seq<Entry<T>> {
    if inputs == [] then adds
    else
      var sofar := AddsAfter(adds, inputs[..|inputs| - 1]);
      match inputs[|inputs| - 1]
      case Add(time, snapshot) => if time.Some? then sofar + [Entry(time.value, snapshot)] else sofar
      case Clear => []
  }

  lemma NothingYet<T>(adds: seq<Entry<T>>, inputs: seq<Input<T>>)
    requires inputs == []
    ensures AddsAfter(adds, inputs) == adds
  {
  }

  lemma AddsOneMore<T>(adds: seq<Entry<T>>, inputs: seq<Input<T>>, i: nat)
    requires i < |inputs|
    ensures AddsAfter(adds, inputs[..i + 1]) ==
              match inputs[i]
              case Add(time, snapshot) =>
                AddsAfter(adds, inputs[..i]) + (if time.Some? then [Entry(time.value, snapshot)] else [])
              case Clear => []
  {
    assert inputs[..i + 1][..i] == inputs[..i];
  }

  /** The buffer of capacity `k` after these additions. */
  function BufferAfter<T>(k: nat, adds: seq<Entry<T>>): seq<Entry<T>> {
    if adds == [] then []
    else LastK(Insert(BufferAfter(k, adds[..|adds| - 1]), adds[|adds| - 1]), k)
  }

  /** Trimming early loses nothing that trimming late would keep. */
  lemma TrimCommutes<T>(s: seq<Entry<T>>, e: Entry<T>, k: nat)
    requires Sorted(s) && k > 0
    ensures LastK(Insert(LastK(s, k), e), k) == LastK(Insert(s, e), k)
  {
    var d := if |s| > k then |s| - k else 0;
    var p := NotLater(s, e.time);
    PrefixCount(s, s[d..], d, e.time);
    TrimmedCuts(s, e, p, if p >= d then p - d else 0, d, k);
    hide NotLater, Sorted;
  }

  lemma TrimmedCuts<X>(s: seq<X>, e: X, p: nat, q: nat, d: nat, k: nat)
    requires p <= |s| && k > 0 && d == (if |s| > k then |s| - k else 0) && q == (if p >= d then p - d else 0)
    ensures LastK(s, k) == s[d..]
    ensures LastK(s[d..][..q] + [e] + s[d..][q..], k) == LastK(s[..p] + [e] + s[p..], k)
  {
    if p >= d {
      TrimmedBefore(s, e, p, q, d, k);
    } else {
      TrimmedAfter(s, e, p, q, d, k);
    }
  }

  lemma TrimmedBefore<X>(s: seq<X>, e: X, p: nat, q: nat, d: nat, k: nat)
    requires d + q == p <= |s| && (d == 0 || d + k == |s|)
    ensures LastK(s[d..][..q] + [e] + s[d..][q..], k) == LastK(s[..p] + [e] + s[p..], k)
  {
    hide LastK;
    CutBefore(s, e, p, q, d);
    LastKOfDrop(s[..p] + [e] + s[p..], d, k);
  }

  lemma TrimmedAfter<X>(s: seq<X>, e: X, p: nat, q: nat, d: nat, k: nat)
    requires p < d && q == 0 && d + k == |s| && k > 0
    ensures LastK(s[d..][..q] + [e] + s[d..][q..], k) == LastK(s[..p] + [e] + s[p..], k)
  {
    CutAfter(s, e, p, d);
    ConsLastK(e, s[d..], q, k);
  }

  lemma LastKOfDrop<X>(u: seq<X>, d: nat, k: nat)
    requires d == 0 || d + k <= |u|
    ensures LastK(u[d..], k) == LastK(u, k)
  {
  }

  lemma ConsLastK<X>(e: X, l: seq<X>, q: nat, k: nat)
    requires q == 0 && k == |l|
    ensures LastK(l[..q] + [e] + l[q..], k) == l
  {
  }

  lemma CutBefore<X>(s: seq<X>, e: X, p: nat, q: nat, d: nat)
    requires d + q == p <= |s|
    ensures (s[..p] + [e] + s[p..])[d..] == s[d..][..q] + [e] + s[d..][q..]
  {
  }

  lemma CutAfter<X>(s: seq<X>, e: X, p: nat, d: nat)
    requires p < d <= |s|
    ensures (s[..p] + [e] + s[p..])[d + 1..] == s[d..]
  {
  }

  lemma PrefixCount<T>(s: seq<Entry<T>>, l: seq<Entry<T>>, d: nat, time: real)
    requires Sorted(s) && d <= |s| && l == s[d..]
    ensures NotLater(l, time) == if NotLater(s, time) >= d then NotLater(s, time) - d else 0
  {
    NotLaterIsPrefix(s, time);
    NotLaterIsPrefix(l, time);
    var p := NotLater(s, time);
    var q := NotLater(l, time);
    if q < |l| {
      assert l[q] == s[d + q];
    }
    if q > 0 {
      assert l[q - 1] == s[d + q - 1];
    }
  }

  /** The buffer is the tail of the full sorted history. */
  lemma {:induction false} BufferIsTail<T>(k: nat, adds: seq<Entry<T>>)
    requires k > 0
    ensures BufferAfter(k, adds) == LastK(StableSort(adds), k)
  {
    if adds != [] {
      var front := adds[..|adds| - 1];
      BufferIsTail(k, front);
      StableSortSorted(front);
      TrimCommutes(StableSort(front), adds[|adds| - 1], k);
    }
  }

  // Which additions those are, by time and arrival.

  /** Addition `i` comes before addition `j`: earlier in time, or as early and added before. */
  predicate Before<T>(adds: seq<Entry<T>>, i: nat, j: nat)
    requires i < |adds| && j < |adds|
  {
    adds[i].time < adds[j].time || (adds[i].time == adds[j].time && i < j)
  }

  /** `order` ranks the additions: all of them, each once, each before the next. */
  ghost predicate Ranking<T>(adds: seq<Entry<T>>, order: seq<nat>) {
    && |order| == |adds|
    && (forall i :: 0 <= i < |order| ==> order[i] < |adds|)
    && (forall i, j :: 0 <= i < j < |order| ==> Before(adds, order[i], order[j]))
    && (forall n: nat :: n < |adds| ==> n in order)
  }

  /** `s` is the additions that `order` names. */
  ghost predicate Listed<T>(adds: seq<Entry<T>>, order: seq<nat>, s: seq<Entry<T>>) {
    |s| == |order| && forall i :: 0 <= i < |order| ==> order[i] < |adds| && s[i] == adds[order[i]]
  }

  /** The stable sort follows such a ranking. */
  lemma {:induction false} SortRanks<T>(adds: seq<Entry<T>>) returns (order: seq<nat>)
    ensures Ranking(adds, order)
    ensures Listed(adds, order, StableSort(adds))
  {
    if adds == [] {
      order := [];
    } else {
      var n := |adds| - 1;
      var front := adds[..n];
      var inner := SortRanks(front);
      var sorted := StableSort(front);
      StableSortSorted(front);
      NotLaterIsPrefix(sorted, adds[n].time);
      var p := NotLater(sorted, adds[n].time);
      order := inner[..p] + [n] + inner[p..];
      ListedOneMore(adds, inner, sorted, p);
      RankOneMore(adds, inner, p);
      hide Ranking, Listed, NotLater;
    }
  }

  lemma ListedOneMore<T>(adds: seq<Entry<T>>, inner: seq<nat>, sorted: seq<Entry<T>>, p: nat)
    requires adds != [] && Listed(adds[..|adds| - 1], inner, sorted) && p <= |inner|
    requires forall i :: 0 <= i < |sorted| ==> (i < p <==> sorted[i].time <= adds[|adds| - 1].time)
    ensures Listed(adds, inner[..p] + [|adds| - 1] + inner[p..], sorted[..p] + [adds[|adds| - 1]] + sorted[p..])
    ensures forall i :: 0 <= i < |inner| ==> (i < p <==> adds[inner[i]].time <= adds[|adds| - 1].time)
  {
  }

  lemma RankOneMore<T>(adds: seq<Entry<T>>, inner: seq<nat>, p: nat)
    requires adds != [] && p <= |inner|
    requires Ranking(adds[..|adds| - 1], inner)
    requires forall i :: 0 <= i < |inner| ==> (i < p <==> adds[inner[i]].time <= adds[|adds| - 1].time)
    ensures Ranking(adds, inner[..p] + [|adds| - 1] + inner[p..])
  {
    PlacedOrder(adds, inner, p);
    PlacedAll(inner, |adds| - 1, p);
  }

  lemma PlacedOrder<T>(adds: seq<Entry<T>>, inner: seq<nat>, p: nat)
    requires adds != [] && p <= |inner|
    requires Ranking(adds[..|adds| - 1], inner)
    requires forall i :: 0 <= i < |inner| ==> (i < p <==> adds[inner[i]].time <= adds[|adds| - 1].time)
    ensures var order := inner[..p] + [|adds| - 1] + inner[p..];
            forall i, j :: 0 <= i < j < |order| ==> Before(adds, order[i], order[j])
  {
    var n := |adds| - 1;
    var order := inner[..p] + [n] + inner[p..];
    forall i, j | 0 <= i < j < |order|
      ensures Before(adds, order[i], order[j])
    {
      var i' := if i < p then i else i - 1;
      var j' := if j < p then j else j - 1;
      if i != p && j != p {
        assert Before(adds[..n], inner[i'], inner[j']);
      }
    }
  }

  lemma PlacedAll(inner: seq<nat>, n: nat, p: nat)
    requires p <= |inner| && forall k: nat :: k < n ==> k in inner
    ensures forall k: nat :: k < n + 1 ==> k in inner[..p] + [n] + inner[p..]
  {
    forall k: nat | k < n + 1
      ensures k in inner[..p] + [n] + inner[p..]
    {
      assert inner == inner[..p] + inner[p..];
      assert k == n || k in inner;
    }
  }

  /**
   After any additions the buffer holds exactly the last `k` of them by time and
   arrival, in that order; being a ranking, `order` puts every addition it dropped before every one it kept.
   */
  lemma BufferHoldsLatest<T>(k: nat, adds: seq<Entry<T>>) returns (order: seq<nat>)
    requires k > 0
    ensures Ranking(adds, order)
    ensures |BufferAfter(k, adds)| == if |adds| < k then |adds| else k
    ensures Listed(adds, LastK(order, k), BufferAfter(k, adds))
  {
    order := SortRanks(adds);
    BufferIsTail(k, adds);
    ListedTail(adds, order, StableSort(adds), k);
  }

  lemma ListedTail<T>(adds: seq<Entry<T>>, order: seq<nat>, sorted: seq<Entry<T>>, k: nat)
    requires Listed(adds, order, sorted)
    ensures |LastK(sorted, k)| == if |sorted| < k then |sorted| else k
    ensures Listed(adds, LastK(order, k), LastK(sorted, k))
  {
  }

  /** Addition `last` is the latest of all, and the last to arrive of those. */
  predicate LatestOf<T>(adds: seq<Entry<T>>, last: nat) {
    last < |adds| && forall i: nat :: i < |adds| && i != last ==> Before(adds, i, last)
  }

  lemma RanksLast<T>(adds: seq<Entry<T>>, order: seq<nat>, last: nat)
    requires Ranking(adds, order) && order != [] && order[|order| - 1] == last
    ensures LatestOf(adds, last)
  {
    forall i: nat | i < |adds| && i != last
      ensures Before(adds, i, last)
    {
      assert i in order;
      var p :| 0 <= p < |order| && order[p] == i;
    }
  }

  predicate DistinctTimes<T>(adds: seq<Entry<T>>) {
    forall i, j :: 0 <= i < j < |adds| ==> adds[i].time != adds[j].time
  }

  lemma {:induction false} SortPermutes<T>(s: seq<Entry<T>>)
    ensures multiset(StableSort(s)) == multiset(s)
  {
    if s != [] {
      var front, e := s[..|s| - 1], s[|s| - 1];
      SortPermutes(front);
      var sorted := StableSort(front);
      var p := NotLater(sorted, e.time);
      assert s == front + [e];
      assert sorted == sorted[..p] + sorted[p..];
    }
  }

  lemma LastIsLatest<T>(s: seq<Entry<T>>, x: Entry<T>)
    requires Sorted(s) && x in multiset(s)
    ensures s != [] && x.time <= s[|s| - 1].time
  {
    assert x in s;
  }

  lemma FrontMultiset<T>(s: seq<T>)
    requires s != []
    ensures multiset(s) == multiset(s[..|s| - 1]) + multiset{s[|s| - 1]}
  {
    assert s == s[..|s| - 1] + [s[|s| - 1]];
  }

  predicate StrictlySorted<T>(s: seq<Entry<T>>) {
    forall i, j :: 0 <= i < j < |s| ==> s[i].time < s[j].time
  }

  lemma LastsAgree<T>(s: seq<Entry<T>>, t: seq<Entry<T>>)
    requires StrictlySorted(s) && Sorted(t) && multiset(s) == multiset(t) && s != [] && t != []
    ensures s[|s| - 1] == t[|t| - 1]
  {
    var x, y := s[|s| - 1], t[|t| - 1];
    assert x in multiset(s) && y in multiset(t);
    LastIsLatest(t, x);
    LastIsLatest(s, y);
    assert y in s;
  }

  lemma FrontsAgree<T>(s: seq<Entry<T>>, t: seq<Entry<T>>)
    requires s != [] && t != [] && multiset(s) == multiset(t) && s[|s| - 1] == t[|t| - 1]
    ensures multiset(s[..|s| - 1]) == multiset(t[..|t| - 1])
  {
    FrontMultiset(s);
    FrontMultiset(t);
    assert multiset(s[..|s| - 1]) == multiset(s) - multiset{s[|s| - 1]};
    assert multiset(t[..|t| - 1]) == multiset(t) - multiset{t[|t| - 1]};
  }

  lemma Rejoin<X>(s: seq<X>, t: seq<X>)
    requires s != [] && t != [] && s[..|s| - 1] == t[..|t| - 1] && s[|s| - 1] == t[|t| - 1]
    ensures s == t
  {
    assert s == s[..|s| - 1] + [s[|s| - 1]] && t == t[..|t| - 1] + [t[|t| - 1]];
  }

  /** Two sorted arrangements of the same entries, no two entries of one time, are the same. */
  lemma {:induction false} SortedUnique<T>(s: seq<Entry<T>>, t: seq<Entry<T>>)
    requires StrictlySorted(s) && Sorted(t) && |s| == |t| && multiset(s) == multiset(t)
    ensures s == t
  {
    if s != [] {
      LastsAgree(s, t);
      FrontsAgree(s, t);
      SortedUnique(s[..|s| - 1], t[..|t| - 1]);
      Rejoin(s, t);
    }
  }

  lemma SortStrict<T>(s: seq<Entry<T>>)
    requires DistinctTimes(s)
    ensures StrictlySorted(StableSort(s))
  {
    var order := SortRanks(s);
    forall i, j | 0 <= i < j < |s|
      ensures StableSort(s)[i].time < StableSort(s)[j].time
    {
      assert Before(s, order[i], order[j]);
    }
  }

  /** With distinct times the contents do not depend on the order of arrival. */
  lemma ArrivalOrderIrrelevant<T>(k: nat, adds: seq<Entry<T>>, other: seq<Entry<T>>)
    requires k > 0 && DistinctTimes(adds) && multiset(adds) == multiset(other)
    ensures BufferAfter(k, adds) == BufferAfter(k, other)
  {
    assert |multiset(adds)| == |adds| && |multiset(other)| == |other|;
    SortPermutes(adds);
    SortPermutes(other);
    SortStrict(adds);
    StableSortSorted(other);
    SortedUnique(StableSort(adds), StableSort(other));
    BufferIsTail(k, adds);
    BufferIsTail(k, other);
  }
}
