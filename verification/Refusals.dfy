/**
  Refused revisions: exactly when the two checks behind a refusal are right about the alerts, and an
  engine that refuses although they are not.

  The graph lacks the edge between the two timeline neighbours of an alert that once lay between
  them. Asking the timelines instead, with the alert taken out, gives the right answer.
*/
module Refusals {
  import opened Chains
  import opened ClusterIds
  import opened Timelines
  import opened Clusters
  import opened Engine
  import opened Runs

  // ---------------------------------------------------------------------------------------------
  // Consecutive stamps
  // ---------------------------------------------------------------------------------------------

  /** Consecutive stamps of some timeline, within the window. */
  function Consecutive(timelines: map<Ent, Timeline>, window: int): set<Edge> {
    set t, i | t in timelines && 0 <= i < |timelines[t]| - 1 && Close(timelines[t], i, window) :: (timelines[t][i].uid, timelines[t][i + 1].uid)
  }

  predicate Close(line: Timeline, i: nat, window: int)
    requires i < |line| - 1
  {
    line[i + 1].time - line[i].time <= window
  }

  /** What is closed under consecutive stamps holds both or neither of two stamps within the window. */
  lemma {:induction false} LineCarries(line: Timeline, window: int, i: nat, j: nat, s: set<Uid>)
    requires Sorted(line) && i <= j < |line| && line[j].time - line[i].time <= window
    requires forall k :: 0 <= k < |line| - 1 && Close(line, k, window) ==> (line[k].uid in s <==> line[k + 1].uid in s)
    ensures line[i].uid in s <==> line[j].uid in s
    decreases j - i
  {
    if i < j {
      assert Before(line[i], line[i + 1]);
      assert i + 1 < j ==> Before(line[i + 1], line[j]);
      assert Close(line, i, window);
      LineCarries(line, window, i + 1, j, s);
    }
  }

  lemma ConsecutiveIsNear(timelines: map<Ent, Timeline>, book: Book, window: int, e: Edge)
    requires Indexes(timelines, book) && e in Consecutive(timelines, window)
    ensures Near(book, window, e.0, e.1)
  {
    var t, i :| t in timelines && 0 <= i < |timelines[t]| - 1 && Close(timelines[t], i, window)
      && e == (timelines[t][i].uid, timelines[t][i + 1].uid);
    var line := timelines[t];
    assert LineOn(line, book, t);
    assert line[i] in line && line[i + 1] in line && Before(line[i], line[i + 1]);
    assert t in book[e.0].entities * book[e.1].entities;
  }

  lemma ConsecutiveCarries(timelines: map<Ent, Timeline>, book: Book, window: int, s: set<Uid>, a: Uid, b: Uid)
    requires Indexes(timelines, book) && EdgeClosed(Consecutive(timelines, window), s)
    requires a in s && Near(book, window, a, b)
    ensures b in s
  {
    var t :| t in book[a].entities * book[b].entities;
    var sa, sb := Stamp(book[a].time, a), Stamp(book[b].time, b);
    assert sa in LineOf(timelines, t) && sb in LineOf(timelines, t);
    var line := timelines[t];
    assert LineOn(line, book, t);
    var i :| 0 <= i < |line| && line[i] == sa;
    var j :| 0 <= j < |line| && line[j] == sb;
    forall k | 0 <= k < |line| - 1 && Close(line, k, window) ensures line[k].uid in s <==> line[k + 1].uid in s {
      assert (line[k].uid, line[k + 1].uid) in Consecutive(timelines, window);
    }
    if i <= j {
      LineCarries(line, window, i, j, s);
    } else {
      LineCarries(line, window, j, i, s);
    }
  }

  /** Consecutive stamps have the connectivity of the full nearness relation. */
  lemma ConsecutiveIsFaithful(timelines: map<Ent, Timeline>, book: Book, window: int)
    requires Indexes(timelines, book)
    ensures Faithful(book, window, Consecutive(timelines, window))
  {
    var graph := Consecutive(timelines, window);
    forall e | e in graph ensures Near(book, window, e.0, e.1) {
      ConsecutiveIsNear(timelines, book, window, e);
    }
    forall s: set<Uid>, a, b | EdgeClosed(graph, s) && a in s && Near(book, window, a, b) ensures b in s {
      ConsecutiveCarries(timelines, book, window, s, a, b);
    }
  }

  // ---------------------------------------------------------------------------------------------
  // The first check
  // ---------------------------------------------------------------------------------------------

  ghost predicate AllLinked(book: Book, window: int, c: set<Uid>) {
    forall a, b :: a in c && b in c ==> Linked(book, window, a, b)
  }

  /** In a faithful graph a set of alerts is linked if and only if it is connected. */
  lemma LinkedIffConnected(book: Book, window: int, edges: set<Edge>, c: set<Uid>)
    requires Faithful(book, window, edges) && c <= book.Keys
    ensures AllLinked(book, window, c) <==> Connected(edges, c)
  {
    if Connected(edges, c) {
      forall a, b | a in c && b in c ensures Linked(book, window, a, b) {
        ConnectedIsLinked(book, window, edges, c, a, b);
      }
    }
    if AllLinked(book, window, c) {
      forall s: set<Uid> | EdgeClosed(edges, s) && s * c != {} ensures c <= s {
        LinkedIsInside(book, window, edges, c, s);
      }
    }
  }

  lemma LinkedIsInside(book: Book, window: int, edges: set<Edge>, c: set<Uid>, s: set<Uid>)
    requires Faithful(book, window, edges) && c <= book.Keys && AllLinked(book, window, c)
    requires EdgeClosed(edges, s) && s * c != {}
    ensures c <= s
  {
    var t := s * book.Keys;
    forall e | e in edges ensures e.0 in t <==> e.1 in t {
      assert Near(book, window, e.0, e.1);
    }
    assert NearClosed(book, window, t);
    NonEmpty(s * c);
    var a :| a in s * c;
    forall b | b in c ensures b in s {
      assert Linked(book, window, a, b);
      var p :| Walk(book, window, p) && p[0] == a && p[|p| - 1] == b;
      WalkStaysInside(book, window, p, t, |p| - 1);
    }
  }

  /** The other members of the alert's chain. */
  ghost function Others(e: CorrelationEngine, u: Uid): set<Uid>
    requires u in e.filed && e.filed[u] in e.clusters
    reads e
  {
    Members(e.clusters[e.filed[u]]) - {u}
  }

  /** The first check refuses: without the alert, the graph of its chain falls apart. */
  ghost predicate FallsApart(e: CorrelationEngine, u: Uid)
    requires u in e.filed && e.filed[u] in e.clusters
    reads e
  {
    !Connected(Induced(e.edges, Others(e, u)), Others(e, u))
  }

  /** The other members are linked without the alert if and only if its timelines, with it taken out, connect them. */
  lemma RestIsLinkedIff(e: CorrelationEngine, u: Uid)
    requires e.Valid() && u in e.filed && e.filed[u] in e.clusters
    ensures AllLinked(e.Known() - {u}, e.window, Others(e, u)) <==>
      Connected(Consecutive(Filtered(e.timelines, u), e.window), Others(e, u))
  {
    var rest, lines := e.Known() - {u}, Filtered(e.timelines, u);
    FiledIsLive(e.clusters, e.filed, e.Known(), e.edges, u);
    BlockIsComponent(e.clusters, e.filed, e.Known(), e.edges, e.filed[u]);
    FilterKeepsIndexes(e.timelines, e.Known(), u);
    hide Blocks, BookOf, Indexes, Faithful, Connected, AllLinked, EdgeClosed;
    ConsecutiveIsFaithful(lines, rest, e.window);
    LinkedIffConnected(rest, e.window, Consecutive(lines, e.window), Others(e, u));
  }

  /** A refusal by the first check although the others are linked without the alert. */
  ghost predicate Unwarranted(e: CorrelationEngine, u: Uid)
    requires u in e.filed && e.filed[u] in e.clusters
    reads e, e.ids
  {
    FallsApart(e, u) && AllLinked(e.Known() - {u}, e.window, Others(e, u))
  }

  /** The refusal is unwarranted if and only if the graph falls apart and the filtered timelines do not. Passing is never wrong. */
  lemma UnwarrantedIff(e: CorrelationEngine, u: Uid)
    requires e.Valid() && u in e.filed && e.filed[u] in e.clusters
    ensures Unwarranted(e, u) <==>
      FallsApart(e, u) && Connected(Consecutive(Filtered(e.timelines, u), e.window), Others(e, u))
    ensures !FallsApart(e, u) ==> AllLinked(e.Known() - {u}, e.window, Others(e, u))
  {
    RestIsLinkedIff(e, u);
    if !FallsApart(e, u) {
      PassingIsRight(e, u);
    }
  }

  lemma PassingIsRight(e: CorrelationEngine, u: Uid)
    requires e.Valid() && u in e.filed && e.filed[u] in e.clusters && !FallsApart(e, u)
    ensures AllLinked(e.Known() - {u}, e.window, Others(e, u))
  {
    var id, book := e.filed[u], e.Known();
    FiledIsLive(e.clusters, e.filed, book, e.edges, u);
    BlockIsComponent(e.clusters, e.filed, book, e.edges, id);
    InducedIsWithout(e.edges, Members(e.clusters[id]), u);
    DetachKeepsFaithful(book, e.window, e.edges, u, Members(e.clusters[id]));
    hide Blocks, BookOf, Indexes, Faithful, Connected, AllLinked, EdgeClosed;
    LinkedIffConnected(book - {u}, e.window, Without(e.edges, u), Others(e, u));
  }

  /** A revision that is applied never splits a chain: what stays behind is still linked without it. */
  lemma AppliedRevisionKeepsRestLinked(e: CorrelationEngine, a: Alert, ents: Entities, u: Uid, v: Uid)
    requires e.Valid() && a.uid in e.filed && e.filed[a.uid] in e.clusters
    requires MayMove(e.edges, e.timelines, e.filed, e.window, a, ents, e.filed[a.uid], Others(e, a.uid))
    requires u in Others(e, a.uid) && v in Others(e, a.uid)
    ensures Linked(e.Known() - {a.uid}, e.window, u, v)
  {
    PassingIsRight(e, a.uid);
  }

  // ---------------------------------------------------------------------------------------------
  // The second check
  // ---------------------------------------------------------------------------------------------

  /** The revised alert is near some other member of its chain. */
  ghost predicate NearOthers(e: CorrelationEngine, a: Alert, ents: Entities)
    requires a.uid in e.filed && e.filed[a.uid] in e.clusters
    reads e
  {
    exists n :: n in Others(e, a.uid) && Near(e.Known()[a.uid := RecordFor(a, ents)], e.window, a.uid, n)
  }

  lemma MetOnLine(lines: map<Ent, Timeline>, rest: Book, window: int, s: Stamp, ents: set<Ent>, t: Ent, n: Uid)
    requires Indexes(lines, rest) && s.uid !in rest && t in ents && Adjacent(LineOf(lines, t), window, s, n)
    ensures n in rest && Near(rest[s.uid := Record(s.time, ents)], window, s.uid, n)
  {
    var line := LineOf(lines, t);
    var edge := if IsPrev(line, window, s, n) then (n, s.uid) else (s.uid, n);
    assert Draws(line, window, s, edge);
    DrawnIsNear(lines, rest, window, s, ents, t, edge);
    NearSymmetric(rest[s.uid := Record(s.time, ents)], window, edge.0, edge.1);
    var k := Position(line, s);
    assert LineOn(line, rest, t);
    assert k > 0 ==> line[k - 1] in line;
    assert k < |line| ==> line[k] in line;
  }

  lemma MetIsNear(timelines: map<Ent, Timeline>, book: Book, window: int, a: Alert, ents: Entities, n: Uid)
    requires Indexes(timelines, book) && WouldMeet(timelines, window, a, ents, n)
    ensures n != a.uid && Near(book[a.uid := RecordFor(a, ents)], window, a.uid, n)
  {
    hide Indexes, Adjacent, Near;
    var s, lines, rest := StampFor(a), Filtered(timelines, a.uid), book - {a.uid};
    var j :| 0 <= j < |ents| && Adjacent(Filter(LineOf(timelines, ents[j]), a.uid), window, s, n);
    FilterKeepsIndexes(timelines, book, a.uid);
    assert LineOf(lines, ents[j]) == Filter(LineOf(timelines, ents[j]), a.uid);
    MetOnLine(lines, rest, window, s, SetOf(ents), ents[j], n);
    assert rest[s.uid := Record(s.time, SetOf(ents))] == book[a.uid := RecordFor(a, ents)];
  }

  lemma NearIsBridged(timelines: map<Ent, Timeline>, book: Book, window: int, a: Alert, ents: Entities, n: Uid) returns (p: Uid)
    requires Indexes(timelines, book) && n != a.uid && Near(book[a.uid := RecordFor(a, ents)], window, a.uid, n)
    ensures WouldMeet(timelines, window, a, ents, p) && p != a.uid && Near(book, window, n, p)
  {
    var s, lines, rest := StampFor(a), Filtered(timelines, a.uid), book - {a.uid};
    FilterKeepsIndexes(timelines, book, a.uid);
    assert rest[s.uid := Record(s.time, SetOf(ents))] == book[a.uid := RecordFor(a, ents)];
    var t;
    t, p := NeighbourBridges(lines, rest, window, s, SetOf(ents), n);
    var j :| 0 <= j < |ents| && ents[j] == t;
    assert LineOf(lines, t) == Filter(LineOf(timelines, t), a.uid);
    assert Adjacent(Filter(LineOf(timelines, ents[j]), a.uid), window, s, p);
  }

  /** Placed anew, the alert meets its chain again if and only if it is near some other member of it. */
  lemma SecondCheckIsNearness(e: CorrelationEngine, a: Alert, ents: Entities)
    requires e.Valid() && a.uid in e.filed && e.filed[a.uid] in e.clusters
    ensures Meets(e.timelines, e.filed, e.window, a, ents, e.filed[a.uid]) <==> NearOthers(e, a, ents)
  {
    var book, id := e.Known(), e.filed[a.uid];
    FiledIsLive(e.clusters, e.filed, book, e.edges, a.uid);
    FiledIffMember(e.clusters, e.filed, book, e.edges, id);
    LiveIsChain(e.clusters, e.filed, book, e.window, e.edges, id);
    hide Blocks, BookOf, Indexes, Faithful, WouldMeet, Near, Linked;
    if Meets(e.timelines, e.filed, e.window, a, ents, id) {
      var n :| WouldMeet(e.timelines, e.window, a, ents, n) && n in e.filed && e.filed[n] == id;
      MetIsNear(e.timelines, book, e.window, a, ents, n);
      assert n in Others(e, a.uid);
    }
    if NearOthers(e, a, ents) {
      var n :| n in Others(e, a.uid) && Near(book[a.uid := RecordFor(a, ents)], e.window, a.uid, n);
      var p := NearIsBridged(e.timelines, book, e.window, a, ents, n);
      NearIsLinked(book, e.window, n, p);
      assert p in Members(e.clusters[id]);
    }
  }

  lemma FiledIffMember(table: Table, filed: map<Uid, string>, book: Book, edges: set<Edge>, id: string)
    requires Blocks(table, filed, book, edges, {}) && Live(table, id)
    ensures forall u :: u in Members(table[id]) <==> u in filed && filed[u] == id
  {
    assert forall u :: u in Members(table[id]) <==> u in table[id].alerts;
  }

  lemma NearIsLinked(book: Book, window: int, a: Uid, b: Uid)
    requires Near(book, window, a, b)
    ensures Linked(book, window, a, b)
  {
    var p := [a, b];
    assert Walk(book, window, p) && p[0] == a && p[|p| - 1] == b;
  }

  /** Both checks together: when a re-placement is refused. */
  lemma RefusedIff(e: CorrelationEngine, a: Alert, ents: Entities)
    requires e.Valid() && a.uid in e.filed && e.filed[a.uid] in e.clusters
    ensures !MayMove(e.edges, e.timelines, e.filed, e.window, a, ents, e.filed[a.uid], Others(e, a.uid)) <==>
      Others(e, a.uid) != {} && (FallsApart(e, a.uid) || !NearOthers(e, a, ents))
  {
    SecondCheckIsNearness(e, a, ents);
  }

  // ---------------------------------------------------------------------------------------------
  // An unwarranted refusal
  // ---------------------------------------------------------------------------------------------

  const Together: Entities := [7]

  function Event(uid: Uid, time: int): Alert {
    Alert(uid, time, 0, 0, 0)
  }

  /** A buffer with exactly these three alerts holds them in event order. */
  lemma BufferInOrder(buffer: seq<Alert>, uids: set<Uid>, a: Alert, b: Alert, d: Alert)
    requires BufferOk(buffer, uids) && forall x :: x in buffer <==> x == a || x == b || x == d
    requires a.time < b.time < d.time && a.uid != b.uid && b.uid != d.uid && a.uid != d.uid
    ensures buffer == [a, b, d]
  {
    assert a in buffer && b in buffer && d in buffer;
    var i :| 0 <= i < |buffer| && buffer[i] == a;
    var j :| 0 <= j < |buffer| && buffer[j] == b;
    var k :| 0 <= k < |buffer| && buffer[k] == d;
    InEventOrder(buffer, uids);
    hide BufferOk;
    assert forall m :: 0 <= m < |buffer| ==> buffer[m] in buffer;
    assert i < j < k;
    assert i == 0 && j == 1 && k == 2 && |buffer| == 3 by {
      assert buffer[0] in buffer && buffer[1] in buffer && buffer[2] in buffer && buffer[|buffer| - 1] in buffer;
    }
  }

  lemma InEventOrder(buffer: seq<Alert>, uids: set<Uid>)
    requires BufferOk(buffer, uids)
    ensures forall m, n :: 0 <= m < n < |buffer| ==> Before(StampFor(buffer[m]), StampFor(buffer[n]))
  {
    var line := Stamps(buffer);
    forall m, n | 0 <= m < n < |buffer| ensures Before(StampFor(buffer[m]), StampFor(buffer[n])) {
      assert Before(line[m], line[n]);
    }
  }

  const First: Alert := Event(1, 0)
  const Second: Alert := Event(2, 30)
  const Third: Alert := Event(3, 50)
  const Facts: Book := map[1 := Record(0, {7}), 2 := Record(30, {7}), 3 := Record(50, {7})]

  /** One more alert of the batch, placed on the only timeline. */
  lemma OneMoreWoven(init: seq<Alert>, a: Alert, line: Timeline, resolve: Alert -> Entities)
    requires resolve(a) == Together && LineOf(Lined(map[], init, resolve), 7) == line && Position(line, StampFor(a)) == |line|
    ensures LineOf(Lined(map[], init + [a], resolve), 7) == line + [StampFor(a)]
    ensures Woven({}, map[], init + [a], resolve, 60) == Woven({}, map[], init, resolve, 60) + DrawnOn(line, 60, StampFor(a))
    ensures Enter(map[], init + [a], resolve) == Enter(map[], init, resolve)[a.uid := Record(a.time, {7})]
  {
    assert (init + [a])[..|init|] == init;
    assert SetOf(Together) == {7} && Together[..0] == [];
    assert Placed(line, StampFor(a)) == line + [StampFor(a)];
  }

  lemma NothingWoven(resolve: Alert -> Entities)
    ensures Lined(map[], [], resolve) == map[] && Woven({}, map[], [], resolve, 60) == {} && Enter(map[], [], resolve) == map[]
  {
  }

  lemma DrawnInOrder()
    ensures var (s1, s2, s3) := (Stamp(0, 1), Stamp(30, 2), Stamp(50, 3));
      && Position([], s1) == 0 && Position([s1], s2) == 1 && Position([s1, s2], s3) == 2
      && DrawnOn([], 60, s1) == {} && DrawnOn([s1], 60, s2) == {(1, 2)} && DrawnOn([s1, s2], 60, s3) == {(2, 3)}
  {
    var s1, s2, s3 := Stamp(0, 1), Stamp(30, 2), Stamp(50, 3);
    PositionUnique([], s1, 0);
    PositionUnique([s1], s2, 1);
    PositionUnique([s1, s2], s3, 2);
  }

  /** What evaluating the three alerts leaves: two edges, and the facts. */
  lemma ThreeWoven(resolve: Alert -> Entities)
    requires forall a :: resolve(a) == Together
    ensures Woven({}, map[], [First, Second, Third], resolve, 60) == {(1, 2), (2, 3)}
    ensures Enter(map[], [First, Second, Third], resolve) == Facts
  {
    hide Woven, Lined, Enter, Position, DrawnOn, Drawn;
    var s1, s2 := Stamp(0, 1), Stamp(30, 2);
    DrawnInOrder();
    NothingWoven(resolve);
    OneMoreWoven([], First, [], resolve);
    assert [] + [First] == [First] && [] + [s1] == [s1];
    OneMoreWoven([First], Second, [s1], resolve);
    assert [First] + [Second] == [First, Second] && [s1] + [s2] == [s1, s2];
    OneMoreWoven([First, Second], Third, [s1, s2], resolve);
    assert [First, Second] + [Third] == [First, Second, Third];
  }

  lemma FactsAreNear()
    ensures Near(Facts, 60, 2, 1) && Near(Facts, 60, 2, 3) && Near(Facts - {2}, 60, 1, 3)
    ensures Near(Facts[2 := Record(31, {7})], 60, 2, 1)
    ensures AllLinked(Facts - {2}, 60, {1, 3})
  {
    assert 7 in {7} * {7};
    var rest := Facts - {2};
    NearSymmetric(rest, 60, 1, 3);
    NearIsLinked(rest, 60, 1, 3);
    NearIsLinked(rest, 60, 3, 1);
    assert Near(rest, 60, 1, 1) && Near(rest, 60, 3, 3);
    NearIsLinked(rest, 60, 1, 1);
    NearIsLinked(rest, 60, 3, 3);
  }

  lemma TwoEdgesFallApart()
    ensures !Connected(Induced({(1, 2), (2, 3)}, {1, 3}), {1, 3})
  {
    assert Induced({(1, 2), (2, 3)}, {1, 3}) == {};
    assert EdgeClosed({}, {1}) && 1 in {1} * {1, 3} && 3 !in {1};
  }

  lemma ChainOfTwo(chain: set<Uid>)
    requires IsChain(Facts, 60, chain) && 2 in chain
    ensures chain == {1, 2, 3}
  {
    hide Near, Linked;
    FactsAreNear();
    NearIsLinked(Facts, 60, 2, 1);
    NearIsLinked(Facts, 60, 2, 3);
  }

  lemma ThreeAreOneChain(e: CorrelationEngine)
    requires e.Valid() && e.Known() == Facts && e.window == 60
    ensures 2 in e.filed && e.filed[2] in e.clusters && Others(e, 2) == {1, 3}
  {
    hide Blocks, Faithful, Indexes, Anchored, Covers, Injective, Climbing, BufferOk, Near, Linked, BookOf, IsChain;
    assert e.nodes == Facts.Keys by { e.KnownKeys(); }
    e.FiledUnder(2);
    LiveIsChain(e.clusters, e.filed, Facts, 60, e.edges, e.filed[2]);
    ChainOfTwo(Members(e.clusters[e.filed[2]]));
  }

  /**
    Alerts 1, 2 and 3 at times 0, 30 and 50 on one entity, window 60, arriving in order. Moving 2 to
    31 is refused because 1 and 3 would be cut off from each other, although they are near each other
    and near the moved alert: they were never timeline neighbours, so the graph has no edge between them.
  */
  method RefusalCanBeUnwarranted(ids: ClusterIdGenerator) returns (e: CorrelationEngine, r: Revision)
    requires ids.Valid()
    modifies ids
    ensures e.Valid() && e.Known() == Facts && e.window == 60 && r.kind == Review
    ensures 2 in e.filed && e.filed[2] in e.clusters && Others(e, 2) == {1, 3}
    ensures Unwarranted(e, 2) && NearOthers(e, Event(2, 31), Together)
  {
    hide Blocks, Faithful, Indexes, Anchored, Covers, Injective, Climbing, Connected, Near, Linked, AllLinked, BookOf, BufferOk;
    e := ThreeArrived(ids);
    ThreeAreOneChain(e);
    TwoEdgesFallApart();
    FactsAreNear();
    MovedIsRefused(e);
    assert SetOf(Together) == {7} && RecordFor(Event(2, 31), Together) == Record(31, {7});
    assert 1 in Others(e, 2) && Near(e.Known()[2 := RecordFor(Event(2, 31), Together)], 60, 2, 1);
    r := e.Revise(Event(2, 31), Together);
  }

  /** The engine after the three alerts arrived. */
  method ThreeBuffered(ids: ClusterIdGenerator) returns (e: CorrelationEngine)
    requires ids.Valid()
    modifies ids
    ensures fresh(e) && e.ids == ids && e.Valid() && e.window == 60 && e.grace == 0 && e.Known() == map[] && e.edges == {} && e.timelines == map[]
    ensures e.buffer == [First, Second, Third]
  {
    hide Blocks, Faithful, Indexes, Anchored, Covers, Injective, Climbing, BookOf, BufferOk;
    e := new CorrelationEngine(60, 0, ids);
    e.Add(First);
    e.Add(Second);
    e.Add(Third);
    BufferInOrder(e.buffer, e.bufferedUids, First, Second, Third);
  }

  /** The engine after they were evaluated. */
  method ThreeArrived(ids: ClusterIdGenerator) returns (e: CorrelationEngine)
    requires ids.Valid()
    modifies ids
    ensures fresh(e) && e.ids == ids && e.Valid() && e.window == 60 && e.Known() == Facts && e.edges == {(1, 2), (2, 3)} && e.buffer == []
  {
    hide Blocks, Faithful, Indexes, Anchored, Covers, Injective, Climbing, Woven, Enter, BookOf, BufferOk;
    var resolve := (a: Alert) => Together;
    e := ThreeBuffered(ids);
    SelectAll(e.buffer, DueTest(true, e.maxEventTime, 0));
    ThreeWoven(resolve);
    SelectNone(e.buffer, LaterTest(true, e.maxEventTime, 0));
    hide Select;
    e.Evaluate(true, resolve);
  }

  lemma MovedIsRefused(e: CorrelationEngine)
    requires e.Valid() && e.Known() == Facts && e.edges == {(1, 2), (2, 3)} && e.buffer == []
    requires 2 in e.filed && e.filed[2] in e.clusters && Others(e, 2) == {1, 3}
    ensures 2 !in e.bufferedUids && 2 in e.alerts && e.alerts[2].time == 30
    ensures !MayMove(e.edges, e.timelines, e.filed, e.window, Event(2, 31), Together, e.filed[2], {1, 3})
  {
    TwoEdgesFallApart();
    hide Blocks, Faithful, Indexes, Anchored, Covers, Injective, Climbing, Connected, Meets;
    assert 2 in e.Known() && e.Known()[2] == Record(30, {7});
  }
}
