/**
  Event-time ordered timelines: one per entity, kept sorted by (time, uid), searched by bisection.
*/
module Timelines {
  import opened Chains
  import opened ClusterIds

  datatype Stamp = Stamp(time: int, uid: Uid)
  type Timeline = seq<Stamp>

  predicate Before(a: Stamp, b: Stamp) {
    a.time < b.time || (a.time == b.time && a.uid < b.uid)
  }

  ghost predicate Sorted(line: Timeline) {
    forall i, j :: 0 <= i < j < |line| ==> Before(line[i], line[j])
  }

  /** Where `s` belongs: the number of leading stamps before it. */
  function Position(line: Timeline, s: Stamp): (k: nat)
    ensures k <= |line|
    ensures forall i :: 0 <= i < k ==> Before(line[i], s)
    ensures k < |line| ==> !Before(line[k], s)
  {
    if line == [] || !Before(line[0], s) then 0
    else
      var k := Position(line[1..], s);
      assert forall i :: 0 < i < |line| ==> line[i] == line[1..][i - 1];
      1 + k
  }

  lemma {:induction false} PositionUnique(line: Timeline, s: Stamp, k: nat)
    requires k <= |line|
    requires forall i :: 0 <= i < k ==> Before(line[i], s)
    requires forall i :: k <= i < |line| ==> !Before(line[i], s)
    ensures k == Position(line, s)
  {
    if 0 < k {
      PositionUnique(line[1..], s, k - 1);
    }
  }

  /** Bisection finds that place. */
  method Bisect(line: Timeline, s: Stamp) returns (low: nat)
    requires Sorted(line)
    ensures low == Position(line, s)
  {
    low := 0;
    var high := |line|;
    while low < high
      invariant low <= high <= |line|
      invariant forall i :: 0 <= i < low ==> Before(line[i], s)
      invariant forall i :: high <= i < |line| ==> !Before(line[i], s)
    {
      var mid := (low + high) / 2;
      if Before(line[mid], s) {
        low := mid + 1;
      } else {
        high := mid;
      }
    }
    PositionUnique(line, s, low);
  }

  function Placed(line: Timeline, s: Stamp): Timeline {
    var k := Position(line, s);
    line[..k] + [s] + line[k..]
  }

  lemma PlacedFacts(line: Timeline, s: Stamp)
    requires Sorted(line) && s !in line
    ensures Sorted(Placed(line, s))
    ensures forall k :: k in Placed(line, s) <==> k == s || k in line
  {
    var k := Position(line, s);
    var p := Placed(line, s);
    forall i | k <= i < |line| ensures Before(s, line[i]) {
      assert line[k] != s && !Before(line[k], s);
    }
    forall x ensures x in p <==> x == s || x in line {
      if x in line {
        var i :| 0 <= i < |line| && line[i] == x;
        assert p[if i < k then i else i + 1] == x;
      }
      assert p[k] == s;
    }
  }

  function Filter(line: Timeline, uid: Uid): (rest: Timeline)
    ensures forall k :: k in rest <==> k in line && k.uid != uid
  {
    if line == [] then []
    else if line[0].uid == uid then Filter(line[1..], uid)
    else [line[0]] + Filter(line[1..], uid)
  }

  lemma {:induction false} FilterSorted(line: Timeline, uid: Uid)
    requires Sorted(line)
    ensures Sorted(Filter(line, uid))
  {
    if line != [] {
      FilterSorted(line[1..], uid);
      var rest := Filter(line[1..], uid);
      forall j | 0 <= j < |rest| ensures Before(line[0], rest[j]) {
        assert rest[j] in line[1..];
      }
    }
  }

  /** Keep the stamps whose alert is still live. */
  function Keep(line: Timeline, live: set<Uid>): (rest: Timeline)
    ensures forall k :: k in rest <==> k in line && k.uid in live
  {
    if line == [] then []
    else if line[0].uid in live then [line[0]] + Keep(line[1..], live)
    else Keep(line[1..], live)
  }

  lemma {:induction false} KeepSorted(line: Timeline, live: set<Uid>)
    requires Sorted(line)
    ensures Sorted(Keep(line, live))
  {
    if line != [] {
      KeepSorted(line[1..], live);
      var rest := Keep(line[1..], live);
      forall j | 0 <= j < |rest| ensures Before(line[0], rest[j]) {
        assert rest[j] in line[1..];
      }
    }
  }

  /** `n` is the timeline predecessor or successor of `s`, within the window. */
  predicate Adjacent(line: Timeline, window: int, s: Stamp, n: Uid) {
    IsPrev(line, window, s, n) || IsNext(line, window, s, n)
  }

  predicate IsPrev(line: Timeline, window: int, s: Stamp, n: Uid) {
    var k := Position(line, s);
    k > 0 && line[k - 1].uid == n && s.time - line[k - 1].time <= window
  }

  predicate IsNext(line: Timeline, window: int, s: Stamp, n: Uid) {
    var k := Position(line, s);
    k < |line| && line[k].uid == n && line[k].time - s.time <= window
  }

  function LineOf(timelines: map<Ent, Timeline>, e: Ent): Timeline {
    if e in timelines then timelines[e] else []
  }

  ghost predicate LineOn(line: Timeline, book: Book, e: Ent) {
    && Sorted(line)
    && forall k :: k in line ==> k.uid in book && k.time == book[k.uid].time && e in book[k.uid].entities
  }

  /** The timelines index exactly the recorded alerts, each under every entity it resolved to. */
  ghost predicate Indexes(timelines: map<Ent, Timeline>, book: Book) {
    && (forall e :: e in timelines ==> LineOn(timelines[e], book, e))
    && (forall u, e :: u in book && e in book[u].entities ==>
      Stamp(book[u].time, u) in LineOf(timelines, e))
  }

  /** The edges an insertion draws on one timeline. */
  predicate Draws(line: Timeline, window: int, s: Stamp, edge: Edge) {
    (IsPrev(line, window, s, edge.0) && edge.1 == s.uid) || (IsNext(line, window, s, edge.1) && edge.0 == s.uid)
  }

  function DrawnOn(line: Timeline, window: int, s: Stamp): (drawn: set<Edge>)
    ensures forall edge :: edge in drawn <==> Draws(line, window, s, edge)
  {
    var k := Position(line, s);
    (if k > 0 && s.time - line[k - 1].time <= window then {(line[k - 1].uid, s.uid)} else {})
    + (if k < |line| && line[k].time - s.time <= window then {(s.uid, line[k].uid)} else {})
  }

  /** All edges an insertion draws, over the timelines of its entities. */
  function Drawn(timelines: map<Ent, Timeline>, ents: seq<Ent>, window: int, s: Stamp): (drawn: set<Edge>)
    ensures forall edge :: edge in drawn <==>
      exists t :: t in ents && Draws(LineOf(timelines, t), window, s, edge)
  {
    if ents == [] then {}
    else
      var n := |ents| - 1;
      assert ents == ents[..n] + [ents[n]];
      Drawn(timelines, ents[..n], window, s) + DrawnOn(LineOf(timelines, ents[n]), window, s)
  }

  /** Whatever on a timeline is within the window of a new stamp has one of its two neighbours between them. */
  lemma NeighbourBetween(line: Timeline, window: int, s: Stamp, sb: Stamp) returns (n: Stamp)
    requires Sorted(line) && sb in line && sb.uid != s.uid
    requires -window <= s.time - sb.time <= window
    ensures n in line && -window <= sb.time - n.time <= window
    ensures Draws(line, window, s, (n.uid, s.uid)) || Draws(line, window, s, (s.uid, n.uid))
  {
    var i :| 0 <= i < |line| && line[i] == sb;
    var k := Position(line, s);
    if i < k {
      n := line[k - 1];
      assert i < k - 1 ==> Before(line[i], line[k - 1]);
      assert Before(n, s);
      assert IsPrev(line, window, s, n.uid);
    } else {
      n := line[k];
      assert k < i ==> Before(line[k], line[i]);
      assert !Before(n, s);
      assert IsNext(line, window, s, n.uid);
    }
  }

  /** What is near a new alert is near one of its two neighbours on a shared timeline. */
  lemma NeighbourBridges(timelines: map<Ent, Timeline>, book: Book, window: int, s: Stamp, ents: set<Ent>, b: Uid)
    returns (e: Ent, p: Uid)
    requires Indexes(timelines, book) && s.uid !in book
    requires b != s.uid && Near(book[s.uid := Record(s.time, ents)], window, s.uid, b)
    ensures e in ents && p != s.uid && Near(book, window, b, p)
    ensures Draws(LineOf(timelines, e), window, s, (p, s.uid)) || Draws(LineOf(timelines, e), window, s, (s.uid, p))
  {
    assert ents * book[b].entities != {};
    e :| e in ents * book[b].entities;
    var line := LineOf(timelines, e);
    assert LineOn(line, book, e);
    var n := NeighbourBetween(line, window, s, Stamp(book[b].time, b));
    p := n.uid;
    assert e in timelines && n in timelines[e];
    assert e in book[b].entities * book[p].entities;
  }

  /** Adjacent stamps really are near. */
  lemma DrawnIsNear(timelines: map<Ent, Timeline>, book: Book, window: int, s: Stamp, ents: set<Ent>, e: Ent, edge: Edge)
    requires Indexes(timelines, book) && s.uid !in book && e in ents
    requires Draws(LineOf(timelines, e), window, s, edge)
    ensures Near(book[s.uid := Record(s.time, ents)], window, edge.0, edge.1)
  {
    var line := LineOf(timelines, e);
    var k := Position(line, s);
    var n := if IsPrev(line, window, s, edge.0) && edge.1 == s.uid then line[k - 1] else line[k];
    assert n in line && LineOn(line, book, e);
    assert e in ents * book[n.uid].entities && e in book[n.uid].entities * ents;
  }

  lemma PlacedLine(line: Timeline, book: Book, s: Stamp, ents: set<Ent>, e: Ent)
    requires LineOn(line, book, e) && s.uid !in book
    ensures LineOn(line, book[s.uid := Record(s.time, ents)], e)
    ensures e in ents ==> LineOn(Placed(line, s), book[s.uid := Record(s.time, ents)], e)
    ensures forall k :: k in Placed(line, s) <==> k == s || k in line
  {
    PlacedFacts(line, s);
  }

  /** Putting a new alert on each of its timelines keeps them an index. */
  lemma PlacedKeepsIndexes(before: map<Ent, Timeline>, after: map<Ent, Timeline>, book: Book, s: Stamp, ents: set<Ent>)
    requires Indexes(before, book) && s.uid !in book
    requires after.Keys == before.Keys + ents
    requires forall t :: t in after ==> after[t] == if t in ents then Placed(LineOf(before, t), s) else before[t]
    ensures Indexes(after, book[s.uid := Record(s.time, ents)])
  {
    var now := book[s.uid := Record(s.time, ents)];
    forall t | t in after ensures LineOn(after[t], now, t) {
      PlacedLine(LineOf(before, t), book, s, ents, t);
    }
    forall u, e | u in now && e in now[u].entities ensures Stamp(now[u].time, u) in LineOf(after, e) {
      assert LineOn(LineOf(before, e), book, e);
      PlacedLine(LineOf(before, e), book, s, ents, e);
      if u != s.uid {
        assert Stamp(book[u].time, u) in LineOf(before, e);
      }
    }
  }

  function Filtered(timelines: map<Ent, Timeline>, uid: Uid): map<Ent, Timeline> {
    map t | t in timelines :: Filter(timelines[t], uid)
  }

  lemma FilterKeepsIndexes(timelines: map<Ent, Timeline>, book: Book, uid: Uid)
    requires Indexes(timelines, book)
    ensures Indexes(Filtered(timelines, uid), book - {uid})
  {
    var after := Filtered(timelines, uid);
    forall t | t in after ensures LineOn(after[t], book - {uid}, t) {
      assert LineOn(timelines[t], book, t);
      FilterSorted(timelines[t], uid);
    }
    forall u, e | u in book - {uid} && e in (book - {uid})[u].entities
      ensures Stamp((book - {uid})[u].time, u) in LineOf(after, e)
    {
      assert Stamp(book[u].time, u) in LineOf(timelines, e);
    }
  }

  lemma KeepKeepsIndexes(timelines: map<Ent, Timeline>, after: map<Ent, Timeline>, book: Book, gone: set<Uid>)
    requires Indexes(timelines, book)
    requires after.Keys <= timelines.Keys
    requires forall t :: t in timelines ==> LineOf(after, t) == Keep(timelines[t], book.Keys - gone)
    ensures Indexes(after, book - gone)
  {
    forall t | t in after ensures LineOn(after[t], book - gone, t) {
      assert LineOn(timelines[t], book, t);
      KeepSorted(timelines[t], book.Keys - gone);
      assert LineOf(after, t) == after[t];
    }
    forall u, e | u in book - gone && e in (book - gone)[u].entities
      ensures Stamp((book - gone)[u].time, u) in LineOf(after, e)
    {
      assert Stamp(book[u].time, u) in LineOf(timelines, e);
    }
  }
}
