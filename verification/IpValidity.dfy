/**
  Which entity an address belonged to, and when. Each address carries a list of assignments, sorted by
  start time; one holds from its start until the next one starts.
*/
module IpValidity {
  datatype Option<T> = None | Some(value: T)

  datatype Span = Span(start: int, uid: int)

  ghost predicate Sorted(spans: seq<Span>) {
    forall i, j :: 0 <= i < j < |spans| ==> spans[i].start <= spans[j].start
  }

  /** The owner at time `t`, by scanning for the last assignment that has started. */
  function Owner(spans: seq<Span>, t: int): Option<int> {
    if spans == [] then None
    else if spans[|spans| - 1].start <= t then Some(spans[|spans| - 1].uid)
    else Owner(spans[..|spans| - 1], t)
  }

  /** The first `n` assignments have started by `t`, the others have not. */
  ghost predicate Started(spans: seq<Span>, t: int, n: nat) {
    && n <= |spans|
    && (forall i :: 0 <= i < n ==> spans[i].start <= t)
    && (forall i :: n <= i < |spans| ==> spans[i].start > t)
  }

  lemma {:induction false} OwnerIsLastStarted(spans: seq<Span>, t: int, n: nat)
    requires Started(spans, t, n)
    ensures Owner(spans, t) == if n == 0 then None else Some(spans[n - 1].uid)
  {
    if n < |spans| {
      OwnerIsLastStarted(spans[..|spans| - 1], t, n);
    }
  }

  /** Order of assignments as pairs: by start, ties by entity. */
  predicate PairLess(a: Span, b: Span) {
    a.start < b.start || (a.start == b.start && a.uid < b.uid)
  }

  /** How many assignments have started by `t`. */
  method Bisect(spans: seq<Span>, t: int) returns (n: nat)
    requires Sorted(spans)
    ensures Started(spans, t, n)
  {
    var lo, hi := 0, |spans|;
    while lo < hi
      invariant 0 <= lo <= hi <= |spans|
      invariant forall i :: 0 <= i < lo ==> spans[i].start <= t
      invariant forall i :: hi <= i < |spans| ==> spans[i].start > t
    {
      var mid := (lo + hi) / 2;
      if t < spans[mid].start {
        hi := mid;
      } else {
        lo := mid + 1;
      }
    }
    n := lo;
  }

  function Inserted(spans: seq<Span>, p: nat, s: Span): seq<Span>
    requires p <= |spans|
  {
    spans[..p] + [s] + spans[p..]
  }

  /** Everything before position `p` starts no later than `t`, everything from it on no earlier. */
  ghost predicate Fits(spans: seq<Span>, t: int, p: nat) {
    && p <= |spans|
    && (forall i :: 0 <= i < p ==> spans[i].start <= t)
    && (forall i :: p <= i < |spans| ==> spans[i].start >= t)
  }

  /** Sorted as pairs: ties are in order of entity. Merges that rename ties may break this. */
  ghost predicate TiesInOrder(spans: seq<Span>) {
    forall i, j :: 0 <= i < j < |spans| ==> !PairLess(spans[j], spans[i])
  }

  /** No assignment that starts at `t` names a later entity. */
  ghost predicate NoLaterTie(spans: seq<Span>, t: int, uid: int) {
    forall i :: 0 <= i < |spans| && spans[i].start == t ==> spans[i].uid <= uid
  }

  /**
    Where a pair goes in a list that is sorted by start time only: entity merges rename ties without
    reordering them, so the binary search may run over ties in any order.
  */
  method Seat(spans: seq<Span>, s: Span) returns (p: nat)
    requires Sorted(spans)
    ensures Fits(spans, s.start, p) && (p < |spans| ==> PairLess(s, spans[p]))
    ensures TiesInOrder(spans) ==> SplitsAt(spans, p, p, s)
  {
    var lo, hi := 0, |spans|;
    while lo < hi
      invariant 0 <= lo <= hi <= |spans|
      invariant forall i :: 0 <= i < lo ==> spans[i].start <= s.start
      invariant forall i :: hi <= i < |spans| ==> spans[i].start >= s.start
      invariant hi < |spans| ==> PairLess(s, spans[hi])
      invariant TiesInOrder(spans) ==> SplitsAt(spans, lo, hi, s)
    {
      var mid := (lo + hi) / 2;
      if PairLess(s, spans[mid]) {
        hi := mid;
      } else {
        lo := mid + 1;
      }
    }
    p := lo;
  }

  /** Insertion keeps the list sorted by start, and ties in order if they were. */
  method Insort(spans: seq<Span>, s: Span) returns (more: seq<Span>, ghost p: nat)
    requires Sorted(spans)
    ensures Fits(spans, s.start, p) && more == Inserted(spans, p, s)
    ensures Sorted(more)
    ensures forall i :: p <= i < |spans| && spans[i].start == s.start ==>
      exists j :: 0 <= j < |spans| && spans[j].start == s.start && s.uid < spans[j].uid
    ensures TiesInOrder(spans) ==> TiesInOrder(more)
  {
    var k := Seat(spans, s);
    more, p := spans[..k] + [s] + spans[k..], k;
    InsertedSorted(spans, p, s);
    if TiesInOrder(spans) {
      InsertedInOrder(spans, p, s);
    }
    hide TiesInOrder, SplitsAt;
    forall i | p <= i < |spans| && spans[i].start == s.start
      ensures exists j :: 0 <= j < |spans| && spans[j].start == s.start && s.uid < spans[j].uid
    {
      assert s.start <= spans[p].start <= spans[i].start && PairLess(s, spans[p]);
    }
  }

  lemma InsertedSorted(spans: seq<Span>, p: nat, s: Span)
    requires Sorted(spans) && Fits(spans, s.start, p)
    ensures Sorted(Inserted(spans, p, s))
  {
  }

  /** Everything before `lo` is no later than `s` as a pair, everything from `hi` on is later. */
  ghost predicate SplitsAt(spans: seq<Span>, lo: nat, hi: nat, s: Span) {
    && (forall i :: 0 <= i < lo && i < |spans| ==> !PairLess(s, spans[i]))
    && (forall i :: hi <= i < |spans| ==> PairLess(s, spans[i]))
  }

  lemma InsertedInOrder(spans: seq<Span>, p: nat, s: Span)
    requires p <= |spans| && TiesInOrder(spans) && SplitsAt(spans, p, p, s)
    ensures TiesInOrder(Inserted(spans, p, s))
  {
    var more := Inserted(spans, p, s);
    assert forall i :: 0 <= i < p ==> more[i] == spans[i];
    assert forall i :: p < i < |more| ==> more[i] == spans[i - 1];
  }

  /** A new assignment never changes the owner at an earlier time. */
  lemma ObservingKeepsThePast(spans: seq<Span>, p: nat, s: Span, t: int)
    requires Sorted(spans) && Fits(spans, s.start, p) && t < s.start
    ensures Owner(Inserted(spans, p, s), t) == Owner(spans, t)
  {
    var more := Inserted(spans, p, s);
    var n := CountStarted(spans, t);
    assert n == 0 || spans[n - 1].start <= t;
    assert Started(more, t, n);
    OwnerIsLastStarted(more, t, n);
    OwnerIsLastStarted(spans, t, n);
  }

  lemma {:induction false} CountStarted(spans: seq<Span>, t: int) returns (n: nat)
    requires Sorted(spans)
    ensures Started(spans, t, n)
  {
    if spans == [] || spans[|spans| - 1].start <= t {
      n := |spans|;
    } else {
      n := CountStarted(spans[..|spans| - 1], t);
    }
  }

  /** From its start on, the new assignment decides until an assignment placed after it has started. */
  lemma ObservingOwnsUntilTheNext(spans: seq<Span>, p: nat, s: Span, t: int)
    requires Sorted(spans) && Fits(spans, s.start, p) && s.start <= t
    ensures Owner(Inserted(spans, p, s), t) == if p < |spans| && spans[p].start <= t then Owner(spans, t) else Some(s.uid)
  {
    var more := Inserted(spans, p, s);
    var n := CountStarted(spans, t);
    assert p == 0 || spans[p - 1].start <= s.start;
    assert Started(more, t, n + 1);
    OwnerIsLastStarted(more, t, n + 1);
    OwnerIsLastStarted(spans, t, n);
  }

  lemma InsertedContains(spans: seq<Span>, p: nat, s: Span)
    requires p <= |spans|
    ensures Inserted(spans, p, s)[p] == s
    ensures forall t, uid :: NoLaterTie(Inserted(spans, p, s), t, uid) <==> NoLaterTie(spans, t, uid) && (s.start == t ==> s.uid <= uid)
  {
    var more := Inserted(spans, p, s);
    assert forall i :: 0 <= i < p ==> more[i] == spans[i];
    assert forall i :: p <= i < |spans| ==> more[i + 1] == spans[i];
    forall t, uid ensures NoLaterTie(more, t, uid) <==> NoLaterTie(spans, t, uid) && (s.start == t ==> s.uid <= uid) {
      if NoLaterTie(more, t, uid) {
        assert more[p] == s;
        forall i | 0 <= i < |spans| && spans[i].start == t ensures spans[i].uid <= uid {
          assert more[if i < p then i else i + 1] == spans[i];
        }
      }
    }
  }

  /** Whoever owns the address at `t` is, with ties in order, the latest entity of the ties at `t`. */
  lemma OwnerIsLatestTie(spans: seq<Span>, t: int, uid: int)
    requires TiesInOrder(spans) && exists i :: 0 <= i < |spans| && spans[i] == Span(t, uid)
    ensures Owner(spans, t) == Some(uid) <==> NoLaterTie(spans, t, uid)
  {
    assert Sorted(spans);
    var i :| 0 <= i < |spans| && spans[i] == Span(t, uid);
    var n := CountStarted(spans, t);
    OwnerIsLastStarted(spans, t, n);
    assert !PairLess(spans[n - 1], spans[i]);
    assert forall j :: 0 <= j < |spans| && spans[j].start == t ==> j < n && (j == n - 1 || !PairLess(spans[n - 1], spans[j]));
  }

  /**
    With ties in order, an entity observed at `t` owns the address at `t` if and only if no assignment
    that starts at `t` names a later entity; whatever the order of ties, that is enough.
  */
  method Observe(spans: seq<Span>, s: Span) returns (more: seq<Span>, ghost p: nat)
    requires Sorted(spans)
    ensures Fits(spans, s.start, p) && more == Inserted(spans, p, s) && Sorted(more)
    ensures TiesInOrder(spans) ==> TiesInOrder(more) && (Owner(more, s.start) == Some(s.uid) <==> NoLaterTie(spans, s.start, s.uid))
    ensures NoLaterTie(spans, s.start, s.uid) ==> Owner(more, s.start) == Some(s.uid)
  {
    more, p := Insort(spans, s);
    InsertedContains(spans, p, s);
    ObservingOwnsUntilTheNext(spans, p, s, s.start);
    if TiesInOrder(spans) {
      OwnerIsLatestTie(more, s.start, s.uid);
    }
  }

  /** Entity 9 holds the address from 5 on; entity 3, observed at 5 as well, does not become its owner. */
  method TieKeepsItsOwner() returns (more: seq<Span>)
    ensures more == [Span(5, 3), Span(5, 9)] && Owner([Span(5, 9)], 5) == Some(9) && Owner(more, 5) == Some(9)
  {
    ghost var p;
    more, p := Observe([Span(5, 9)], Span(5, 3));
    assert !NoLaterTie([Span(5, 9)], 5, 3) by { assert [Span(5, 9)][0].start == 5; }
    assert [Span(5, 9)][..0] == [] && Owner([Span(5, 9)], 5) == Some(9);
    OwnerOfTwo(p, more);
  }

  lemma OwnerOfTwo(p: nat, more: seq<Span>)
    requires p <= 1 && more == Inserted([Span(5, 9)], p, Span(5, 3))
    ensures more == if p == 0 then [Span(5, 3), Span(5, 9)] else [Span(5, 9), Span(5, 3)]
    ensures Owner(more, 5) == Some(if p == 0 then 9 else 3)
  {
  }

  // ---------------------------------------------------------------------------------------------
  // Merging and dropping entities
  // ---------------------------------------------------------------------------------------------

  function Rename(uid: int, gone: int, into: int): int {
    if uid == gone then into else uid
  }

  function Renamed(spans: seq<Span>, gone: int, into: int): (r: seq<Span>)
    ensures |r| == |spans|
    ensures forall i :: 0 <= i < |spans| ==> r[i] == Span(spans[i].start, Rename(spans[i].uid, gone, into))
  {
    seq(|spans|, i requires 0 <= i < |spans| => Span(spans[i].start, Rename(spans[i].uid, gone, into)))
  }

  /** A merge hands the absorbed entity's addresses to the kept one, at every time, and nothing else. */
  lemma MergingRenamesOwners(spans: seq<Span>, gone: int, into: int, t: int)
    requires Sorted(spans)
    ensures Sorted(Renamed(spans, gone, into))
    ensures Owner(Renamed(spans, gone, into), t) ==
      var was := Owner(spans, t); if was == Some(gone) then Some(into) else was
  {
    var n := CountStarted(spans, t);
    OwnerIsLastStarted(spans, t, n);
    OwnerIsLastStarted(Renamed(spans, gone, into), t, n);
  }

  /** Assignments of entities that are still known. */
  function Kept(spans: seq<Span>, live: set<int>): (r: seq<Span>) {
    if spans == [] then []
    else
      var rest := Kept(spans[..|spans| - 1], live);
      if spans[|spans| - 1].uid in live then rest + [spans[|spans| - 1]] else rest
  }

  lemma {:induction false} KeptIsSorted(spans: seq<Span>, live: set<int>)
    requires Sorted(spans)
    ensures Sorted(Kept(spans, live))
    ensures forall s :: s in Kept(spans, live) <==> s in spans && s.uid in live
  {
    if spans != [] {
      var init, last := spans[..|spans| - 1], spans[|spans| - 1];
      KeptIsSorted(init, live);
      assert spans == init + [last];
      SortedSnoc(spans, Kept(init, live));
    }
  }

  lemma SortedSnoc(spans: seq<Span>, fewer: seq<Span>)
    requires spans != [] && Sorted(spans) && Sorted(fewer) && forall s :: s in fewer ==> s in spans
    ensures Sorted(fewer + [spans[|spans| - 1]])
  {
    var last := spans[|spans| - 1];
    assert forall s :: s in spans ==> s.start <= last.start;
    assert forall i :: 0 <= i < |fewer| ==> fewer[i] in fewer;
  }

  /** Dropping entities keeps the owner at `t` if and only if that owner itself is kept (or there was none). */
  lemma {:induction false} DroppingKeepsOwner(spans: seq<Span>, live: set<int>, t: int)
    requires Sorted(spans)
    ensures var was, now := Owner(spans, t), Owner(Kept(spans, live), t);
      && (now == was <==> was.None? || was.value in live)
      && (now.Some? ==> now.value in live)
  {
    if spans != [] {
      var init, last := spans[..|spans| - 1], spans[|spans| - 1];
      DroppingKeepsOwner(init, live, t);
      var rest := Kept(init, live);
      assert (rest + [last])[..|rest|] == rest;
    }
  }

  /**
    An assignment is meant to hold until the address is next seen elsewhere. Dropping the entity that
    took the address over gives it back to the earlier holder, at times after the takeover.
  */
  lemma DroppingCanRevive()
    ensures exists spans: seq<Span>, live, t ::
      Sorted(spans) && Owner(spans, t) == Some(2) && Owner(Kept(spans, live), t) == Some(1)
  {
    var spans := [Span(0, 1), Span(10, 2)];
    assert spans[..1] == [Span(0, 1)] && spans[..1][..0] == [];
    assert Kept(spans[..1], {1}) == [Span(0, 1)];
    assert Kept(spans, {1}) == [Span(0, 1)];
    assert Sorted(spans) && Owner(spans, 20) == Some(2) && Owner(Kept(spans, {1}), 20) == Some(1);
  }
}
