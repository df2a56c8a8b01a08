/**
  The correlation engine: incremental timelines, graph and clusters, updated in place by
  insertions in any order, revisions and pruning.
*/
module Engine {
  import opened Chains
  import opened ClusterIds
  import opened Timelines
  import opened Clusters

  /**
    A normalized alert, reduced to what the engine distinguishes: `who` stands for its device, user
    and network fields, `what` for severity, title, ATT&CK and process, `text` for the rest.
  */
  datatype Alert = Alert(uid: Uid, time: int, who: nat, what: nat, text: nat)

  /** One resolution: the distinct entities an alert touches. */
  type Entities = s: seq<Ent> | forall i, j :: 0 <= i < j < |s| ==> s[i] != s[j]

  datatype Kind = Buffered | Unknown | Unchanged | Rescored | Reclustered | Review
  datatype Revision = Revision(kind: Kind, cluster: Option<string>)

  function SetOf(s: seq<Ent>): set<Ent> { set e | e in s }

  function StampFor(a: Alert): Stamp { Stamp(a.time, a.uid) }

  function RecordFor(a: Alert, ents: Entities): Record { Record(a.time, SetOf(ents)) }

  ghost function BookOf(nodes: set<Uid>, alerts: map<Uid, Alert>, resolved: map<Uid, Entities>): Book {
    map u | u in nodes && u in alerts && u in resolved :: RecordFor(alerts[u], resolved[u])
  }

  // ---------------------------------------------------------------------------------------------
  // The buffer
  // ---------------------------------------------------------------------------------------------

  function Stamps(buffer: seq<Alert>): (line: Timeline)
    ensures |line| == |buffer| && forall i :: 0 <= i < |line| ==> line[i] == StampFor(buffer[i])
  {
    seq(|buffer|, i requires 0 <= i < |buffer| => StampFor(buffer[i]))
  }

  function UidsOf(buffer: seq<Alert>): set<Uid> {
    set a | a in buffer :: a.uid
  }

  ghost predicate BufferOk(buffer: seq<Alert>, uids: set<Uid>) {
    && Sorted(Stamps(buffer))
    && (forall a, b :: a in buffer && b in buffer && a.uid == b.uid ==> a == b)
    && uids == UidsOf(buffer)
  }

  /** `insort` by (time, uid). */
  method Insort(buffer: seq<Alert>, a: Alert) returns (r: seq<Alert>)
    requires BufferOk(buffer, UidsOf(buffer)) && a.uid !in UidsOf(buffer)
    ensures BufferOk(r, UidsOf(buffer) + {a.uid})
    ensures forall b :: b in r <==> b == a || b in buffer
  {
    var k := Bisect(Stamps(buffer), StampFor(a));
    r := buffer[..k] + [a] + buffer[k..];
    InsortOk(buffer, a, r);
  }

  lemma InsortOk(buffer: seq<Alert>, a: Alert, r: seq<Alert>)
    requires BufferOk(buffer, UidsOf(buffer)) && a.uid !in UidsOf(buffer)
    requires var k := Position(Stamps(buffer), StampFor(a)); r == buffer[..k] + [a] + buffer[k..]
    ensures BufferOk(r, UidsOf(buffer) + {a.uid})
    ensures forall b :: b in r <==> b == a || b in buffer
  {
    var line, s := Stamps(buffer), StampFor(a);
    var k := Position(line, s);
    InsertedMembers(buffer, a, k);
    NotOnLine(buffer, a);
    PlacedFacts(line, s);
    StampsPlaced(buffer, a);
    hide Position, Sorted, Placed, Stamps, UidsOf;
  }

  lemma StampsPlaced(buffer: seq<Alert>, a: Alert)
    ensures var k := Position(Stamps(buffer), StampFor(a));
      Stamps(buffer[..k] + [a] + buffer[k..]) == Placed(Stamps(buffer), StampFor(a))
  {
    hide Position;
  }

  lemma BufferedUids(buffer: seq<Alert>, uids: set<Uid>)
    requires BufferOk(buffer, uids)
    ensures uids == UidsOf(buffer)
  {
  }

  lemma NotOnLine(buffer: seq<Alert>, a: Alert)
    requires a.uid !in UidsOf(buffer)
    ensures StampFor(a) !in Stamps(buffer)
  {
    forall i | 0 <= i < |buffer| ensures Stamps(buffer)[i] != StampFor(a) {
      assert buffer[i] in buffer && buffer[i].uid in UidsOf(buffer);
    }
  }

  lemma InsertedMembers(buffer: seq<Alert>, a: Alert, k: nat)
    requires k <= |buffer| && a.uid !in UidsOf(buffer)
    ensures var r := buffer[..k] + [a] + buffer[k..];
      && (forall b :: b in r <==> b == a || b in buffer)
      && UidsOf(r) == UidsOf(buffer) + {a.uid}
    ensures forall b :: b in buffer ==> b.uid != a.uid
  {
    assert buffer == buffer[..k] + buffer[k..];
    assert forall b :: b in buffer ==> b.uid in UidsOf(buffer);
  }

  /** The alerts of the buffer that satisfy a test, in order. */
  function Select(buffer: seq<Alert>, test: Alert -> bool): (r: seq<Alert>)
    ensures forall a :: a in r <==> a in buffer && test(a)
  {
    if buffer == [] then []
    else if test(buffer[0]) then [buffer[0]] + Select(buffer[1..], test)
    else Select(buffer[1..], test)
  }

  lemma {:induction false} SelectSorted(buffer: seq<Alert>, test: Alert -> bool)
    requires Sorted(Stamps(buffer))
    ensures Sorted(Stamps(Select(buffer, test)))
  {
    if buffer != [] {
      var tail := buffer[1..];
      assert forall i :: 0 <= i < |tail| ==> Stamps(tail)[i] == Stamps(buffer)[i + 1];
      SelectSorted(tail, test);
      var rest := Select(tail, test);
      forall j | 0 <= j < |rest| ensures Before(StampFor(buffer[0]), Stamps(rest)[j]) {
        assert rest[j] in tail;
        var i :| 0 <= i < |tail| && tail[i] == rest[j];
        assert Stamps(buffer)[i + 1] == StampFor(rest[j]) && Stamps(buffer)[0] == StampFor(buffer[0]);
      }
    }
  }

  // ---------------------------------------------------------------------------------------------
  // Merge pointers
  // ---------------------------------------------------------------------------------------------

  /** Following merge pointers always climbs, so it ends: at a live chain, or at a pruned one. */
  ghost predicate Climbing(table: Table, rank: map<string, nat>, clock: nat) {
    forall c :: c in table ==> c in rank && rank[c] < clock && Climbs(table, rank, c)
  }

  ghost predicate Climbs(table: Table, rank: map<string, nat>, c: string)
    requires c in table && c in rank
  {
    var up := table[c].mergedInto;
    up.Some? && up.value in table && up.value in rank ==> rank[c] < rank[up.value]
  }

  /** The anchor of a live chain is filed under that chain. */
  ghost predicate Anchored(table: Table, filed: map<Uid, string>, anchors: map<Uid, string>) {
    forall a :: a in anchors && Live(table, anchors[a]) ==> a in filed && filed[a] == anchors[a]
  }

  class CorrelationEngine {
    const window: int
    const grace: int
    const ids: ClusterIdGenerator

    /** Graph nodes; the alerts that are on the timelines. */
    var nodes: set<Uid>
    var edges: set<Edge>
    var alerts: map<Uid, Alert>
    var resolved: map<Uid, Entities>
    var timelines: map<Ent, Timeline>

    var buffer: seq<Alert>
    var bufferedUids: set<Uid>
    var maxEventTime: Option<int>

    var clusters: Table
    var filed: map<Uid, string>

    ghost var rank: map<string, nat>
    ghost var clock: nat

    /** The recorded facts: event time and resolution of every correlated alert. */
    ghost function Known(): Book
      reads this`nodes, this`alerts, this`resolved
    {
      BookOf(nodes, alerts, resolved)
    }

    /** The member sets of the live chains. */
    ghost function Chains(): set<set<Uid>>
      reads this`clusters
    {
      set c | c in clusters && clusters[c].mergedInto.None? :: Members(clusters[c])
    }

    ghost predicate CoreValid()
      reads this`nodes, this`alerts, this`resolved, this`timelines, this`edges
    {
      && nodes <= alerts.Keys && nodes <= resolved.Keys
      && (forall u :: u in alerts ==> alerts[u].uid == u)
      && Indexes(timelines, Known())
      && Faithful(Known(), window, edges)
    }

    ghost predicate IdsValid()
      reads this`clusters, this`filed, this`rank, this`clock, ids
    {
      && ids.Valid()
      && clusters.Keys <= ids.issued
      && Anchored(clusters, filed, ids.byAnchor)
      && Climbing(clusters, rank, clock)
    }

    ghost predicate BufferValid()
      reads this`buffer, this`bufferedUids, this`alerts
    {
      BufferOk(buffer, bufferedUids) && bufferedUids !! alerts.Keys
    }

    ghost predicate Valid()
      reads this, ids
    {
      && CoreValid() && nodes == alerts.Keys == resolved.Keys
      && Blocks(clusters, filed, Known(), edges, {})
      && IdsValid()
      && BufferValid()
    }

    constructor (window: int, grace: int, ids: ClusterIdGenerator)
      requires ids.Valid()
      ensures Valid() && this.window == window && this.grace == grace && this.ids == ids
      ensures Known() == map[] && buffer == [] && Chains() == {} && edges == {} && timelines == map[] && filed == map[]
      ensures maxEventTime == None && bufferedUids == {} && alerts == map[] && nodes == {}
    {
      this.window, this.grace, this.ids := window, grace, ids;
      nodes, edges, alerts, resolved, timelines := {}, {}, map[], map[], map[];
      buffer, bufferedUids, maxEventTime := [], {}, None;
      clusters, filed := map[], map[];
      rank, clock := map[], 0;
    }

    // -------------------------------------------------------------------------------------------
    // The theorem
    // -------------------------------------------------------------------------------------------

    /**
      In every valid state the live chains are exactly the classes of the transitive closure of
      "shares a recorded entity and lies within the window".
    */
    lemma ChainsAreTheClosure()
      requires Valid()
      ensures IsPartition(Known(), window, Chains())
      ensures forall u :: u in nodes ==> FiledOnce(u)
    {
      var book := Known();
      forall c | Live(clusters, c) ensures IsChain(book, window, Members(clusters[c])) {
        LiveIsChain(clusters, filed, book, window, edges, c);
      }
      forall u | u in nodes ensures FiledOnce(u) {
        assert Live(clusters, filed[u]) && u in clusters[filed[u]].alerts;
      }
      forall u | u in book ensures exists c :: c in Chains() && u in c {
        assert FiledOnce(u);
        assert Members(clusters[filed[u]]) in Chains();
      }
    }

    /** The alert is a member of exactly one live chain, the one it is filed under. */
    ghost predicate FiledOnce(u: Uid)
      reads this
    {
      && u in filed && Live(clusters, filed[u])
      && forall c :: Live(clusters, c) ==> (u in Members(clusters[c]) <==> c == filed[u])
    }

    // -------------------------------------------------------------------------------------------
    // Intake
    // -------------------------------------------------------------------------------------------

    /** Buffer one alert; an alert already buffered or correlated is ignored. */
    method Add(a: Alert)
      requires Valid()
      modifies this`buffer, this`bufferedUids, this`maxEventTime
      ensures Valid()
      ensures a.uid in nodes || a.uid in old(bufferedUids) ==>
        buffer == old(buffer) && bufferedUids == old(bufferedUids) && maxEventTime == old(maxEventTime)
      ensures a.uid !in nodes && a.uid !in old(bufferedUids) ==>
        && (forall b :: b in buffer <==> b == a || b in old(buffer))
        && bufferedUids == old(bufferedUids) + {a.uid}
        && maxEventTime == Some(if old(maxEventTime).Some? && old(maxEventTime).value >= a.time
                                then old(maxEventTime).value else a.time)
    {
      hide Blocks, Indexes, Faithful, BookOf, Anchored, Climbing, Covers, Injective, BufferOk;
      BufferedUids(buffer, bufferedUids);
      if a.uid in alerts || a.uid in bufferedUids {
        return;
      }
      buffer := Insort(buffer, a);
      bufferedUids := bufferedUids + {a.uid};
      if maxEventTime.None? || a.time > maxEventTime.value {
        maxEventTime := Some(a.time);
      }
    }

    /** Put a stamp on one timeline and draw the edges to its neighbours there. */
    method PlaceOn(t: Ent, s: Stamp)
      requires Sorted(LineOf(timelines, t)) && forall n :: n in LineOf(timelines, t) ==> n.uid != s.uid
      modifies this`edges, this`timelines
      ensures timelines == old(timelines)[t := Placed(LineOf(old(timelines), t), s)]
      ensures edges == old(edges) + DrawnOn(LineOf(old(timelines), t), window, s)
    {
      var line := LineOf(timelines, t);
      var position := Bisect(line, s);
      if position > 0 {
        var prev := line[position - 1];
        if s.time - prev.time <= window && prev.uid != s.uid {
          edges := edges + {(prev.uid, s.uid)};
        }
      }
      if position < |line| {
        var next := line[position];
        if next.time - s.time <= window && next.uid != s.uid {
          edges := edges + {(s.uid, next.uid)};
        }
      }
      timelines := timelines[t := line[..position] + [s] + line[position..]];
    }

    /** Put a stamp on the timelines of all its entities. */
    method PlaceAll(s: Stamp, ents: Entities, ghost book: Book)
      requires Indexes(timelines, book) && s.uid !in book
      modifies this`edges, this`timelines
      ensures Indexes(timelines, book[s.uid := Record(s.time, SetOf(ents))])
      ensures edges == old(edges) + Drawn(old(timelines), ents, window, s)
      ensures timelines == PlacedOn(old(timelines), ents, s)
    {
      hide Indexes, Drawn, DrawnOn, Placed, SetOf;
      ghost var lines := timelines;
      assert SetOf(ents[..0]) == {} && Drawn(lines, ents[..0], window, s) == {} by {
        NothingDrawn(lines, ents[..0], window, s);
      }
      for i := 0 to |ents|
        invariant timelines.Keys == lines.Keys + SetOf(ents[..i])
        invariant forall t :: t in timelines ==>
          timelines[t] == if t in SetOf(ents[..i]) then Placed(LineOf(lines, t), s) else lines[t]
        invariant edges == old(edges) + Drawn(lines, ents[..i], window, s)
      {
        var t := ents[i];
        DrawnStep(lines, ents, window, s, i);
        LineIsFresh(lines, book, s, t);
        PlaceOn(t, s);
      }
      assert ents[..|ents|] == ents;
      PlacedKeepsIndexes(lines, timelines, book, s, SetOf(ents));
    }

    /** Put one alert into the graph. */
    method InsertAlert(a: Alert, ents: Entities)
      requires CoreValid() && a.uid !in nodes
      modifies this`nodes, this`edges, this`alerts, this`resolved, this`timelines
      ensures CoreValid()
      ensures nodes == old(nodes) + {a.uid}
      ensures alerts == old(alerts)[a.uid := a] && resolved == old(resolved)[a.uid := ents]
      ensures Known() == old(Known())[a.uid := RecordFor(a, ents)]
      ensures edges == old(edges) + Drawn(old(timelines), ents, window, StampFor(a))
      ensures timelines == PlacedOn(old(timelines), ents, StampFor(a))
      ensures forall e :: e in edges - old(edges) ==> e.0 == a.uid || e.1 == a.uid
    {
      hide Indexes, Faithful, Drawn, PlacedOn, BookOf;
      ghost var book, graph, lines := Known(), edges, timelines;
      KnownKeys();
      InsertionIsFaithful(lines, book, window, graph, StampFor(a), ents);
      DrawnTouches(lines, ents, window, StampFor(a));
      KnownWith(nodes, alerts, resolved, a, ents);
      alerts := alerts[a.uid := a];
      resolved := resolved[a.uid := ents];
      nodes := nodes + {a.uid};
      PlaceAll(StampFor(a), ents, book);
    }

    // -------------------------------------------------------------------------------------------
    // Clusters
    // -------------------------------------------------------------------------------------------

    /** `sorted(component, key=(time, uid))` */
    method SortMembers(comp: set<Uid>) returns (members: seq<Uid>)
      requires comp <= nodes && nodes <= alerts.Keys && nodes <= resolved.Keys
      ensures forall u :: u in members <==> u in comp
      ensures forall i, j :: 0 <= i < j < |members| ==> Before(StampOf(Known(), members[i]), StampOf(Known(), members[j]))
    {
      var line: Timeline := [];
      var todo := comp;
      while todo != {}
        invariant todo <= comp && Sorted(line)
        invariant forall k :: k in line ==> k.uid in comp - todo && k == StampOf(Known(), k.uid)
        invariant forall u :: u in comp - todo ==> StampOf(Known(), u) in line
        decreases todo
      {
        NonEmpty(todo);
        var u :| u in todo;
        var s := Stamp(alerts[u].time, u);
        assert s == StampOf(Known(), u);
        PlacedFacts(line, s);
        var k := Bisect(line, s);
        line := line[..k] + [s] + line[k..];
        todo := todo - {u};
      }
      members := seq(|line|, i requires 0 <= i < |line| => line[i].uid);
      forall u | u in comp ensures u in members {
        assert StampOf(Known(), u) in line;
        var i :| 0 <= i < |line| && line[i] == StampOf(Known(), u);
        assert members[i] == u;
      }
      forall i | 0 <= i < |members| ensures members[i] in comp && StampOf(Known(), members[i]) == line[i] {
        assert line[i] in line;
      }
    }

    /** Follow merge pointers; `None` stands for the pointer leading to a chain that was pruned. */
    method LiveCluster(id: string) returns (r: Option<string>)
      requires Climbing(clusters, rank, clock)
      ensures r.Some? ==> Live(clusters, r.value)
      ensures Live(clusters, id) ==> r == Some(id)
    {
      var c := id;
      while c in clusters && clusters[c].mergedInto.Some?
        invariant Live(clusters, id) ==> c == id
        decreases if c in clusters then clock - rank[c] else 0
      {
        assert Climbs(clusters, rank, c);
        c := clusters[c].mergedInto.value;
      }
      return if c in clusters then Some(c) else None;
    }

    /** The live chains that have an alert in the component. */
    method LiveIn(comp: set<Uid>, ghost pending: set<Uid>) returns (liveIds: set<string>)
      requires Blocks(clusters, filed, Known(), edges, pending)
      ensures forall c :: c in liveIds <==> Touches(clusters, comp, c)
    {
      var existing := set u | u in comp && u in filed :: filed[u];
      liveIds := set c | c in existing && clusters[c].mergedInto.None?;
      forall c | Touches(clusters, comp, c) ensures c in liveIds {
        var u := Common(Members(clusters[c]), comp);
        assert u in clusters[c].alerts;
      }
      forall c | c in liveIds ensures Touches(clusters, comp, c) {
        var u :| u in comp && u in filed && filed[u] == c;
        assert u in Members(clusters[c]);
      }
    }

    /** Point every other chain at the one that keeps its id. */
    method MergeInto(id: string, liveIds: set<string>)
      requires liveIds <= clusters.Keys
      modifies this`clusters
      ensures clusters.Keys == old(clusters).Keys
      ensures forall c :: c in clusters ==>
        clusters[c] == if c in liveIds && c != id then old(clusters)[c].(mergedInto := Some(id)) else old(clusters)[c]
    {
      var losers := liveIds - {id};
      while losers != {}
        invariant losers <= liveIds - {id}
        invariant clusters.Keys == old(clusters).Keys
        invariant forall c :: c in clusters ==>
          clusters[c] == if c in liveIds && c != id && c !in losers then old(clusters)[c].(mergedInto := Some(id)) else old(clusters)[c]
        decreases losers
      {
        var c :| c in losers;
        clusters := clusters[c := clusters[c].(mergedInto := Some(id))];
        losers := losers - {c};
      }
    }

    /**
      The id the component will carry: a new one (or the anchor's old one) when no live chain has
      an alert in it, otherwise the earliest of those chains, into which the others are merged.
    */
    method ChooseId(comp: set<Uid>, first: Uid, ghost pending: set<Uid>) returns (id: string)
      requires CoreValid() && first in comp && comp <= nodes
      requires Blocks(clusters, filed, Known(), edges, pending) && IdsValid()
      modifies this`clusters, ids
      ensures Chosen(old(clusters), clusters, comp, id) && EarliestWins(old(clusters), comp, id)
      ensures ids.Valid() && AnchorStep(old(ids.byAnchor), ids.byAnchor, first, id)
      ensures Touches(old(clusters), comp, id) || (first in ids.byAnchor && ids.byAnchor[first] == id)
      ensures clusters.Keys + {id} <= ids.issued
    {
      hide BookOf, Covers, Faithful, Indexes, Connected, EdgeClosed, Climbing, Summarised;
      ghost var before, anchors := clusters, ids.byAnchor;
      var liveIds := LiveIn(comp, pending);
      if liveIds == {} {
        var name: string := *;
        id := ids.NextId(alerts[first].time, name, Some(first));
        ReturnedIdIsNotLive(before, filed, comp, anchors, ids.byAnchor, first, id, old(ids.issued));
      } else {
        id := PickEarliest(clusters, liveIds);
        MergeInto(id, liveIds);
      }
    }

    /** File a whole component under one chain. */
    method AssignCluster(comp: set<Uid>, ghost pending: set<Uid>) returns (id: string)
      requires CoreValid() && comp != {} && comp <= nodes
      requires EdgeClosed(edges, comp) && Connected(edges, comp)
      requires Blocks(clusters, filed, Known(), edges, pending) && IdsValid()
      modifies this`clusters, this`filed, this`rank, this`clock, ids
      ensures Blocks(clusters, filed, Known(), edges, pending - comp) && IdsValid()
      ensures Assigned(old(clusters), clusters, comp, id) && filed == File(old(filed), comp, id)
      ensures EarliestWins(old(clusters), comp, id)
      ensures forall c :: Touches(old(clusters), comp, c) ==> id in old(clusters) && old(clusters)[id].first <= old(clusters)[c].first
    {
      hide BookOf, Covers, Blocks, Anchored, Injective, File, Faithful, Indexes, Connected, EdgeClosed, Assigned, Chosen, EarliestWins, Climbing, Summarised, AnchorStep;
      ghost var before, anchors, files, book, graph := clusters, ids.byAnchor, filed, Known(), edges;
      var c := Summarise(comp);
      id := ChooseId(comp, c.alerts[0], pending);
      ghost var chosen := clusters;
      EarliestIsFirst(before, comp, id);
      clusters := clusters[id := c];
      filed := File(filed, comp, id);
      rank := rank[id := clock];
      clock := clock + 1;
      assert Known() == book && edges == graph;
      assert Assigned(before, clusters, comp, id) by {
        ChosenIsAssigned(before, chosen, comp, id, c);
      }
      assert Blocks(clusters, filed, book, graph, pending - comp) by {
        AssignKeepsBlocks(before, clusters, files, book, graph, pending, comp, id);
      }
      assert Climbing(clusters, rank, clock) by {
        AssignKeepsClimbing(before, clusters, old(rank), old(clock), comp, id);
      }
      AnchorsStayFiled(before, clusters, files, book, graph, pending, comp, id, anchors, ids.byAnchor, c.alerts[0]);
    }

    /** The chain record of a component: members in event-time order, first and last time. */
    method Summarise(comp: set<Uid>) returns (c: Cluster)
      requires comp != {} && comp <= nodes && nodes <= alerts.Keys && nodes <= resolved.Keys
      ensures Members(c) == comp && c.mergedInto.None? && Summarised(c, Known())
      ensures forall i, j :: 0 <= i < j < |c.alerts| && c.alerts[i] in alerts && c.alerts[j] in alerts ==>
        alerts[c.alerts[i]].time < alerts[c.alerts[j]].time || (alerts[c.alerts[i]].time == alerts[c.alerts[j]].time && c.alerts[i] < c.alerts[j])
      ensures c.alerts != [] && c.alerts[0] in comp
    {
      var members := SortMembers(comp);
      NonEmpty(comp);
      c := Cluster(members, alerts[members[0]].time, alerts[members[|members| - 1]].time, None);
      assert forall u :: u in Members(c) <==> u in comp;
    }

    /** Re-examine the component of every new node. */
    method RebuildClusters(newNodes: seq<Uid>)
      requires CoreValid() && IdsValid() && (forall u :: u in newNodes ==> u in nodes)
      requires Blocks(clusters, filed, Known(), edges, set u | u in newNodes)
      modifies this`clusters, this`filed, this`rank, this`clock, ids
      ensures Blocks(clusters, filed, Known(), edges, {}) && IdsValid() && Known() == old(Known())
    {
      hide BookOf, Blocks, Faithful, Indexes, Climbing, Anchored, Covers, Injective, Connected, EdgeClosed, Assigned, EarliestWins;
      EdgesInside();
      var seen: set<Uid> := {};
      ghost var pending, book := (set u | u in newNodes), Known();
      assert pending - seen == pending;
      for i := 0 to |newNodes|
        invariant Known() == book
        invariant Blocks(clusters, filed, book, edges, pending - seen) && IdsValid()
        invariant forall j :: 0 <= j < i ==> newNodes[j] in seen
      {
        var node := newNodes[i];
        if node !in seen {
          var comp := Component(nodes, edges, node);
          var id := AssignCluster(comp, pending - seen);
          assert pending - seen - comp == pending - (seen + comp);
          seen := seen + comp;
        }
      }
      assert pending - seen == {};
    }

    lemma KnownKeys()
      requires CoreValid()
      ensures Known().Keys == nodes
    {
    }

    lemma EdgesInside()
      requires CoreValid()
      ensures forall e :: e in edges ==> e.0 in nodes && e.1 in nodes
    {
      forall e | e in edges ensures e.0 in nodes && e.1 in nodes {
        assert Near(Known(), window, e.0, e.1);
      }
    }

    // -------------------------------------------------------------------------------------------
    // Evaluation
    // -------------------------------------------------------------------------------------------

    /** Insert a batch of alerts that are not in the graph yet; they stay pending. */
    method InsertAll(due: seq<Alert>, resolve: Alert -> Entities)
      requires CoreValid() && nodes == alerts.Keys == resolved.Keys
      requires Batch(due, nodes)
      requires Blocks(clusters, filed, Known(), edges, {})
      modifies this`nodes, this`edges, this`alerts, this`resolved, this`timelines
      ensures CoreValid() && nodes == alerts.Keys == resolved.Keys
      ensures Known() == Enter(old(Known()), due, resolve)
      ensures edges == Woven(old(edges), old(timelines), due, resolve, window)
      ensures nodes == old(nodes) + UidsOf(due)
      ensures Holding(old(alerts), alerts, due)
      ensures Blocks(clusters, filed, Known(), edges, UidsOf(due))
    {
      hide BookOf, Blocks, Faithful, Indexes, Drawn, UidsOf, Batch, PlacedOn, Holding;
      EmptyBatch(due[..0]);
      HoldingNone(alerts, due[..0]);
      for i := 0 to |due|
        invariant CoreValid() && nodes == alerts.Keys == resolved.Keys
        invariant Known() == Enter(old(Known()), due[..i], resolve)
        invariant edges == Woven(old(edges), old(timelines), due[..i], resolve, window)
        invariant timelines == Lined(old(timelines), due[..i], resolve)
        invariant nodes == old(nodes) + UidsOf(due[..i])
        invariant Holding(old(alerts), alerts, due[..i])
        invariant Blocks(clusters, filed, Known(), edges, UidsOf(due[..i]))
      {
        var a := due[i];
        BatchStep(due, old(nodes), i);
        KnownKeys();
        ghost var book, graph := Known(), edges;
        HoldingOne(old(alerts), alerts, due, i);
        InsertAlert(a, resolve(a));
        InsertKeepsBlocks(clusters, filed, book, graph, UidsOf(due[..i]), a.uid, RecordFor(a, resolve(a)), edges, window);
        assert due[..i + 1][..i] == due[..i] && due[..i + 1][i] == a;
      }
      assert due[..|due|] == due;
    }

    /**
      Correlate the buffered alerts that lie at or behind the watermark, all of them when flushing; the
      others stay buffered. `resolve` is the entity resolver's answer for each.
    */
    method Evaluate(flush: bool, resolve: Alert -> Entities)
      requires Valid()
      modifies this`nodes, this`edges, this`alerts, this`resolved, this`timelines
      modifies this`buffer, this`bufferedUids, this`clusters, this`filed, this`rank, this`clock, ids
      ensures Valid()
      ensures BehindTheWatermark(old(buffer), buffer, old(alerts), alerts, flush, maxEventTime, grace)
      ensures !flush && maxEventTime.None? ==> Known() == old(Known())
      ensures buffer == Select(old(buffer), LaterTest(flush, maxEventTime, grace))
      ensures Known() == Enter(old(Known()), Select(old(buffer), DueTest(flush, maxEventTime, grace)), resolve)
      ensures edges == Woven(old(edges), old(timelines), Select(old(buffer), DueTest(flush, maxEventTime, grace)), resolve, window)
    {
      hide BookOf, Blocks, Faithful, Indexes, Anchored, Covers, Injective, Climbing, UidsOf, BufferOk, Batch, Enter, Select, DueTest, Woven, Holding;
      var ready := Select(buffer, DueTest(flush, maxEventTime, grace));
      var later := Select(buffer, LaterTest(flush, maxEventTime, grace));
      SplitBuffer(buffer, bufferedUids, nodes, flush, maxEventTime, grace);
      ghost var before, waiting, known := alerts, buffer, Known();
      NothingReady(waiting, flush, maxEventTime, grace, known, resolve);
      buffer, bufferedUids := later, UidsOf(later);
      InsertAll(ready, resolve);
      SplitAtTheWatermark(waiting, before, alerts, flush, maxEventTime, grace);
      hide BehindTheWatermark;
      if |ready| > 0 {
        TouchedUids(ready);
        RebuildClusters(UidSeq(ready));
      } else {
        EmptyBatch(ready);
      }
    }

    // -------------------------------------------------------------------------------------------
    // Revisions
    // -------------------------------------------------------------------------------------------

    /** Keep the newest payload of an alert whose event time did not change. */
    method Restate(a: Alert)
      requires CoreValid() && a.uid in nodes && a.time == alerts[a.uid].time
      modifies this`alerts
      ensures CoreValid() && alerts == old(alerts)[a.uid := a] && Known() == old(Known())
    {
      ghost var book := Known();
      alerts := alerts[a.uid := a];
      assert Known() == book;
    }

    /** Recompute the summary of one chain: same members, same id. */
    method Refresh(id: string)
      requires CoreValid() && nodes == alerts.Keys == resolved.Keys
      requires Blocks(clusters, filed, Known(), edges, {}) && IdsValid() && Live(clusters, id)
      modifies this`clusters, this`filed, this`rank, this`clock, ids
      ensures Blocks(clusters, filed, Known(), edges, {}) && IdsValid()
      ensures filed == old(filed) && Chains() == old(Chains())
    {
      hide BookOf, Blocks, Faithful, Indexes, Anchored, Covers, Injective, Climbing, Connected, EdgeClosed, Summarised;
      ghost var table, files, book := clusters, filed, Known();
      BlockIsComponent(table, files, book, edges, id);
      KnownKeys();
      var done := AssignCluster(Members(clusters[id]), {});
      assert {} - Members(table[id]) == {};
      RefreshChangesNothing(table, clusters, files, book, edges, id, done);
    }

    /** Apply an updated payload of an alert that is already known. */
    method Revise(a: Alert, ents: Entities) returns (r: Revision)
      requires Valid()
      modifies this`nodes, this`edges, this`alerts, this`resolved, this`timelines
      modifies this`buffer, this`clusters, this`filed, this`rank, this`clock, ids
      ensures Valid()
      ensures alerts.Keys == old(alerts.Keys)
      ensures a.uid in old(bufferedUids) ==>
        && r.kind == Buffered
        && forall b :: b in buffer <==> b == a || (b in old(buffer) && b.uid != a.uid)
      ensures a.uid !in old(bufferedUids) ==> buffer == old(buffer)
      ensures a.uid !in old(bufferedUids) && a.uid !in old(alerts) ==> r.kind == Unknown
      ensures a.uid !in old(bufferedUids) && a.uid in old(alerts) ==>
        var id := old(filed)[a.uid];
        var others := Members(old(clusters)[id]) - {a.uid};
        var mayMove := MayMove(old(edges), old(timelines), old(filed), window, a, ents, id, others);
        r.kind == Expected(old(alerts)[a.uid], a, mayMove)
      ensures r.kind != Reclustered ==>
        && Known() == old(Known()) && filed == old(filed) && Chains() == old(Chains())
        && timelines == old(timelines) && edges == old(edges)
      ensures r.kind == Review ==> clusters == old(clusters)
      ensures alerts == if r.kind in {Unchanged, Rescored, Reclustered} then old(alerts)[a.uid := a] else old(alerts)
      ensures resolved == if r.kind == Reclustered then old(resolved)[a.uid := ents] else old(resolved)
      ensures r.kind in {Unchanged, Rescored, Review} ==> r.cluster == Some(old(filed)[a.uid])
      ensures r.kind == Reclustered ==>
        && Known() == old(Known())[a.uid := RecordFor(a, ents)]
        && r.cluster == Some(filed[a.uid])
        && forall u :: u in Members(old(clusters)[old(filed)[a.uid]]) ==> u in filed && filed[u] == filed[a.uid]
    {
      hide BookOf, Blocks, Faithful, Indexes, Anchored, Covers, Injective, Climbing, MayMove, Connected, EdgeClosed;
      if a.uid in bufferedUids {
        SwapBuffered(a);
        return Revision(Buffered, None);
      }
      if a.uid !in alerts {
        return Revision(Unknown, None);
      }
      var was := alerts[a.uid];
      FiledUnder(a.uid);
      var id := filed[a.uid];
      if a.time == was.time && a.who == was.who {
        Restate(a);
        if a.what != was.what {
          Refresh(id);
          return Revision(Rescored, Some(id));
        }
        return Revision(Unchanged, Some(id));
      }
      r := Reevaluate(a, ents);
    }

    method SwapBuffered(a: Alert)
      requires BufferValid() && a.uid in bufferedUids
      modifies this`buffer
      ensures BufferValid()
      ensures forall b :: b in buffer <==> b == a || (b in old(buffer) && b.uid != a.uid)
    {
      var rest := Select(buffer, (b: Alert) => b.uid != a.uid);
      SelectSorted(buffer, (b: Alert) => b.uid != a.uid);
      buffer := Insort(rest, a);
      assert UidsOf(rest) + {a.uid} == bufferedUids by {
        forall u | u in bufferedUids && u != a.uid ensures u in UidsOf(rest) {
          var b: Alert :| b in old(buffer) && b.uid == u;
          assert b in rest;
        }
      }
    }

    /** The alerts a revised alert would be linked to if it were placed with its new identity and time. */
    method NeighboursIfPlaced(a: Alert, ents: Entities) returns (found: set<Uid>)
      requires forall t :: t in timelines ==> Sorted(timelines[t])
      ensures forall n :: n in found <==> WouldMeet(timelines, window, a, ents, n)
    {
      found := {};
      for i := 0 to |ents|
        invariant forall n :: n in found <==>
          exists j :: 0 <= j < i && Adjacent(Filter(LineOf(timelines, ents[j]), a.uid), window, StampFor(a), n)
      {
        FilterSorted(LineOf(timelines, ents[i]), a.uid);
        var near := OnLine(Filter(LineOf(timelines, ents[i]), a.uid), StampFor(a));
        found := found + near;
      }
    }

    method OnLine(line: Timeline, s: Stamp) returns (near: set<Uid>)
      requires Sorted(line)
      ensures forall n :: n in near <==> Adjacent(line, window, s, n)
    {
      near := {};
      var spot := Bisect(line, s);
      if spot > 0 && s.time - line[spot - 1].time <= window {
        near := near + {line[spot - 1].uid};
      }
      if spot < |line| && line[spot].time - s.time <= window {
        near := near + {line[spot].uid};
      }
    }

    /**
      Remove an alert from graph and timelines. The gap it leaves is not bridged, so the graph stays
      faithful to what is left only if the rest of its component hangs together without it.
    */
    method Detach(uid: Uid, ghost comp: set<Uid>)
      requires CoreValid() && uid in comp && comp <= nodes && EdgeClosed(edges, comp)
      modifies this`nodes, this`edges, this`timelines
      ensures Known() == old(Known()) - {uid} && Indexes(timelines, Known())
      ensures Connected(edges, comp - {uid}) ==> CoreValid()
      ensures nodes == old(nodes) - {uid} && edges == Without(old(edges), uid) && timelines == Filtered(old(timelines), uid)
    {
      hide Indexes, Faithful, Connected, EdgeClosed, BookOf;
      ghost var book, graph := Known(), edges;
      KnownKeys();
      FilterKeepsIndexes(timelines, book, uid);
      if Connected(Without(graph, uid), comp - {uid}) {
        DetachKeepsFaithful(book, window, graph, uid, comp);
      }
      nodes := nodes - {uid};
      edges := Without(edges, uid);
      timelines := Filtered(timelines, uid);
      assert nodes + {uid} == old(nodes);
      KnownWithout(book, uid);
    }

    /** `number_connected_components(subgraph(others)) <= 1` */
    method OnePiece(others: set<Uid>) returns (r: bool)
      requires others != {}
      ensures r <==> Connected(Induced(edges, others), others)
    {
      NonEmpty(others);
      var u :| u in others;
      var comp := Component(others, Induced(edges, others), u);
      r := comp == others;
      if !r {
        assert comp * others != {} by { assert u in comp * others; }
        assert !(others <= comp);
      }
    }

    /**
      Re-place an alert whose identity or time changed. Nothing is touched unless the rest of its
      chain holds together without it and it meets that chain again where it is placed.
    */
    method Reevaluate(a: Alert, ents: Entities) returns (r: Revision)
      requires Valid() && a.uid in nodes
      modifies this`nodes, this`edges, this`alerts, this`resolved, this`timelines
      modifies this`clusters, this`filed, this`rank, this`clock, ids
      ensures Valid() && nodes == old(nodes)
      ensures r.kind == Review || r.kind == Reclustered
      ensures var id := old(filed)[a.uid];
        var others := Members(old(clusters)[id]) - {a.uid};
        r.kind == Reclustered <==> MayMove(old(edges), old(timelines), old(filed), window, a, ents, id, others)
      ensures r.kind == Review ==>
        && nodes == old(nodes) && edges == old(edges) && alerts == old(alerts) && resolved == old(resolved)
        && timelines == old(timelines) && clusters == old(clusters) && filed == old(filed)
      ensures r.kind == Review ==> r.cluster == Some(old(filed)[a.uid])
      ensures r.kind == Reclustered ==>
        && alerts == old(alerts)[a.uid := a] && resolved == old(resolved)[a.uid := ents]
        && Known() == old(Known())[a.uid := RecordFor(a, ents)]
        && a.uid in filed && r.cluster == Some(filed[a.uid])
        && forall u :: u in Members(old(clusters)[old(filed)[a.uid]]) ==> u in filed && filed[u] == filed[a.uid]
    {
      hide BookOf, Blocks, Faithful, Indexes, Anchored, Covers, Injective, Climbing, BufferOk, MayMove, Connected, EdgeClosed;
      FiledUnder(a.uid);
      var id := filed[a.uid];
      var ok := CheckMove(a, ents, id);
      if !ok {
        return Revision(Review, Some(id));
      }
      ghost var others := Members(clusters[id]);
      Move(a, ents, id);
      ghost var moved := edges;
      assert (set u | u in [a.uid]) == {a.uid};
      RebuildClusters([a.uid]);
      KnownKeys();
      ChainKeptTogether(clusters, filed, Known(), moved, others, a.uid);
      return Revision(Reclustered, Some(filed[a.uid]));
    }

    /** The two checks that decide whether a moved alert can be re-placed deterministically. */
    method CheckMove(a: Alert, ents: Entities, id: string) returns (ok: bool)
      requires Valid() && a.uid in nodes && id in clusters && filed[a.uid] == id
      ensures ok <==> MayMove(edges, timelines, filed, window, a, ents, id, Members(clusters[id]) - {a.uid})
    {
      hide BookOf, Blocks, Faithful, Indexes, Anchored, Covers, Injective, Climbing, BufferOk;
      var others := Members(clusters[id]) - {a.uid};
      if |others| > 1 {
        var whole := OnePiece(others);
        if !whole {
          return false;
        }
      } else {
        SmallIsConnected(Induced(edges, others), others);
      }
      if others != {} {
        SortedLines();
        var found := NeighboursIfPlaced(a, ents);
        var here := LiveCluster(id);
        FiledUnder(a.uid);
        var met := MeetsAgain(found, here.value);
        MeetsIffFound(timelines, filed, window, a, ents, id, found);
        return met;
      }
      return true;
    }

    /** Some neighbour belongs to the live chain `id`. */
    method MeetsAgain(found: set<Uid>, id: string) returns (met: bool)
      requires Climbing(clusters, rank, clock) && Blocks(clusters, filed, Known(), edges, {})
      ensures met <==> exists n :: n in found && n in filed && filed[n] == id
    {
      hide Blocks, Climbing;
      AllFiledLive();
      met := false;
      var todo := found;
      while todo != {}
        invariant todo <= found && (met <==> exists n :: n in found - todo && n in filed && filed[n] == id)
        decreases todo
      {
        NonEmpty(todo);
        var n :| n in todo;
        if n in filed {
          var c := LiveCluster(filed[n]);
          met := met || c == Some(id);
        }
        assert found - (todo - {n}) == (found - todo) + {n};
        todo := todo - {n};
      }
      assert found - todo == found;
    }

    lemma AllFiledLive()
      requires Blocks(clusters, filed, Known(), edges, {})
      ensures forall u :: u in filed ==> Live(clusters, filed[u])
    {
    }

    /** Take the alert out and put it back with its new identity and time. */
    method Move(a: Alert, ents: Entities, id: string)
      requires CoreValid() && nodes == alerts.Keys == resolved.Keys && a.uid in nodes
      requires Blocks(clusters, filed, Known(), edges, {}) && a.uid in filed && filed[a.uid] == id && id in clusters
      requires MayMove(edges, timelines, filed, window, a, ents, id, Members(clusters[id]) - {a.uid})
      modifies this`nodes, this`edges, this`alerts, this`resolved, this`timelines
      ensures CoreValid() && nodes == alerts.Keys == resolved.Keys == old(nodes)
      ensures alerts == old(alerts)[a.uid := a] && resolved == old(resolved)[a.uid := ents]
      ensures Known() == old(Known())[a.uid := RecordFor(a, ents)]
      ensures Blocks(clusters, filed, Known(), edges, {a.uid})
      ensures Connected(edges, Members(clusters[id]))
    {
      hide BookOf, Blocks, Faithful, Indexes, Connected, EdgeClosed, Drawn, Rejoins, MayMove;
      var uid := a.uid;
      ghost var book, graph, before := Known(), edges, timelines;
      RemovalIsFaithful(book, window, graph, timelines, clusters, filed, a, ents, id);
      FiledIsLive(clusters, filed, book, graph, uid);
      BlockIsComponent(clusters, filed, book, graph, id);
      KnownKeys();
      Detach(uid, Members(clusters[id]));
      ghost var lines := timelines;
      InsertAlert(a, ents);
      assert Known() == book[uid := RecordFor(a, ents)] by {
        KnownKeys();
        assert (book - {uid})[uid := RecordFor(a, ents)] == book[uid := RecordFor(a, ents)];
      }
      RelinkedOrAlone(before, lines, filed, clusters, book, graph, window, a, ents, id);
      ReinsertKeepsBlocks(clusters, filed, book, graph, window, uid, id, RecordFor(a, ents), edges);
    }

    lemma FiledUnder(u: Uid)
      requires Valid() && u in nodes
      ensures u in filed && Live(clusters, filed[u]) && u in Members(clusters[filed[u]])
    {
      assert u in Known();
      assert u in clusters[filed[u]].alerts;
    }

    lemma KnownWithout(book: Book, uid: Uid)
      requires nodes <= alerts.Keys && nodes <= resolved.Keys
      requires book == BookOf(nodes + {uid}, alerts, resolved) && uid !in nodes
      ensures Known() == book - {uid}
    {
    }

    lemma SortedLines()
      requires CoreValid()
      ensures forall t :: t in timelines ==> Sorted(timelines[t])
    {
      forall t | t in timelines ensures Sorted(timelines[t]) {
        assert LineOn(timelines[t], Known(), t);
      }
    }

    // -------------------------------------------------------------------------------------------
    // Retention
    // -------------------------------------------------------------------------------------------

    /** Live chains that ended before the cutoff. */
    ghost predicate Doomed(c: string, cutoff: int)
      reads this`clusters
    {
      Live(clusters, c) && clusters[c].last < cutoff
    }

    /** Drop whole chains that ended before the cutoff. */
    method PruneBefore(cutoff: int) returns (pruned: nat)
      requires Valid()
      modifies this`nodes, this`edges, this`alerts, this`resolved, this`timelines, this`clusters, this`filed
      ensures Valid()
      ensures Known() == old(Known()) - Expired(old(clusters), old(filed), cutoff)
      ensures filed == old(filed) - Expired(old(clusters), old(filed), cutoff)
      ensures forall c :: Live(clusters, c) <==> Live(old(clusters), c) && old(clusters)[c].last >= cutoff
      ensures forall c :: Live(clusters, c) ==> clusters[c] == old(clusters)[c]
      ensures forall c :: c in clusters <==>
        c in old(clusters) && !(Live(old(clusters), c) && old(clusters)[c].last < cutoff)
        && !(old(clusters)[c].mergedInto.Some? && old(clusters)[c].mergedInto.value in old(clusters)
             && Live(old(clusters), old(clusters)[c].mergedInto.value) && old(clusters)[old(clusters)[c].mergedInto.value].last < cutoff)
      ensures forall c :: c in clusters ==> clusters[c] == old(clusters)[c]
      ensures pruned == |set c | c in old(clusters) && Live(old(clusters), c) && old(clusters)[c].last < cutoff|
    {
      hide EdgeClosed, BookOf, Blocks, Faithful, Indexes, Anchored, Covers, Injective, Climbing, BufferOk, Expired, Apart;
      ghost var book, graph := Known(), edges;
      var doomed, gone := FindDoomed(cutoff);
      ExpiredIsClosed(clusters, filed, book, graph, cutoff, doomed, gone);
      Release(gone);
      assert bufferedUids !! alerts.Keys;
      assert doomed == set c | c in old(clusters) && Live(old(clusters), c) && old(clusters)[c].last < cutoff;
      hide Dooms;
      Strike(cutoff, doomed, gone, book, graph);
      return |doomed|;
    }

    /** Strike the doomed chains, and the merge losers that pointed at one, off the table. */
    method Strike(ghost cutoff: int, doomed: set<string>, gone: set<Uid>, ghost book: Book, ghost graph: set<Edge>)
      requires Blocks(clusters, filed, book, graph, {}) && Dooms(clusters, cutoff, doomed, gone) && EdgeClosed(graph, gone)
      requires IdsValid() && FiledInDoomed(filed, doomed, gone)
      modifies this`clusters, this`filed
      ensures Blocks(clusters, filed, book - gone, Apart(graph, gone), {}) && IdsValid()
      ensures filed == old(filed) - gone && clusters == Survivors(old(clusters), doomed)
      ensures forall c :: Live(clusters, c) <==> Live(old(clusters), c) && old(clusters)[c].last >= cutoff
      ensures forall c :: Live(clusters, c) ==> clusters[c] == old(clusters)[c]
    {
      hide Survivors, Apart, Dooms, FiledInDoomed, EdgeClosed, Blocks, Anchored, Covers, Injective, Climbing;
      PruneKeepsBlocks(clusters, filed, book, graph, cutoff, doomed, gone);
      PruneKeepsIds(clusters, filed, book, graph, rank, clock, ids.byAnchor, doomed, gone);
      SurvivorsFacts(clusters, doomed, cutoff, gone);
      filed := filed - gone;
      clusters := Survivors(clusters, doomed);
    }

    /** Release alerts, graph nodes and timeline entries of whole components. */
    method Release(gone: set<Uid>)
      requires CoreValid() && nodes == alerts.Keys == resolved.Keys && EdgeClosed(edges, gone) && gone <= Known().Keys
      modifies this`nodes, this`edges, this`alerts, this`resolved, this`timelines
      ensures CoreValid() && nodes == alerts.Keys == resolved.Keys == old(nodes) - gone
      ensures Known() == old(Known()) - gone && edges == Apart(old(edges), gone)
    {
      hide Kept, Apart, EdgeClosed, BookOf, Faithful, Indexes;
      ghost var book, lines := Known(), timelines;
      KnownKeys();
      DropKeepsFaithful(book, window, edges, gone);
      KeepKeepsIndexes(lines, Kept(lines, nodes - gone), book, gone);
      alerts := alerts - gone;
      resolved := resolved - gone;
      nodes := nodes - gone;
      edges := Apart(edges, gone);
      timelines := Kept(timelines, nodes);
      KnownPruned(book, old(nodes), old(alerts), old(resolved), gone);
    }

    /** The chains that ended before the cutoff, and their alerts. */
    method FindDoomed(cutoff: int) returns (doomed: set<string>, gone: set<Uid>)
      ensures Dooms(clusters, cutoff, doomed, gone)
    {
      doomed := set c | c in clusters && clusters[c].mergedInto.None? && clusters[c].last < cutoff;
      gone := {};
      var todo := doomed;
      while todo != {}
        invariant todo <= doomed
        invariant forall u :: u in gone <==> exists c :: c in doomed - todo && u in clusters[c].alerts
        decreases todo
      {
        var c :| c in todo;
        gone := gone + Members(clusters[c]);
        todo := todo - {c};
      }
    }

    lemma KnownPruned(book: Book, n: set<Uid>, al: map<Uid, Alert>, re: map<Uid, Entities>, gone: set<Uid>)
      requires book == BookOf(n, al, re) && n <= al.Keys && n <= re.Keys
      requires nodes == n - gone && alerts == al - gone && resolved == re - gone
      ensures Known() == book - gone
    {
    }
  }

  /** Behind the watermark, or everything when flushing. */
  function DueTest(flush: bool, maxEventTime: Option<int>, grace: int): Alert -> bool {
    (a: Alert) => flush || (maxEventTime.Some? && a.time <= maxEventTime.value - grace)
  }

  function LaterTest(flush: bool, maxEventTime: Option<int>, grace: int): Alert -> bool {
    (a: Alert) => !(flush || (maxEventTime.Some? && a.time <= maxEventTime.value - grace))
  }

  /** The book after entering a batch of alerts. */
  function Enter(book: Book, due: seq<Alert>, resolve: Alert -> Entities): Book {
    if due == [] then book
    else
      var a := due[|due| - 1];
      Enter(book, due[..|due| - 1], resolve)[a.uid := RecordFor(a, resolve(a))]
  }

  /** The timelines after placing a stamp on those of its entities. */
  function PlacedOn(timelines: map<Ent, Timeline>, ents: seq<Ent>, s: Stamp): map<Ent, Timeline> {
    map t | t in timelines.Keys + SetOf(ents) :: if t in SetOf(ents) then Placed(LineOf(timelines, t), s) else timelines[t]
  }

  /** The timelines after inserting a batch, and the graph: each alert is joined to its neighbours of the moment. */
  function Lined(timelines: map<Ent, Timeline>, due: seq<Alert>, resolve: Alert -> Entities): map<Ent, Timeline> {
    if due == [] then timelines
    else
      var a := due[|due| - 1];
      PlacedOn(Lined(timelines, due[..|due| - 1], resolve), resolve(a), StampFor(a))
  }

  function Woven(edges: set<Edge>, timelines: map<Ent, Timeline>, due: seq<Alert>, resolve: Alert -> Entities, window: int): set<Edge> {
    if due == [] then edges
    else
      var init, a := due[..|due| - 1], due[|due| - 1];
      Woven(edges, timelines, init, resolve, window) + Drawn(Lined(timelines, init, resolve), resolve(a), window, StampFor(a))
  }

  /** Distinct alerts, none of them known. */
  ghost predicate Batch(due: seq<Alert>, known: set<Uid>) {
    && (forall i, j :: 0 <= i < j < |due| ==> due[i].uid != due[j].uid)
    && UidsOf(due) !! known
  }

  /** What the two tests select, said with the watermark itself. */
  lemma WatermarkSplits(buffer: seq<Alert>, flush: bool, mark: Option<int>, grace: int)
    ensures var ready, later := Select(buffer, DueTest(flush, mark, grace)), Select(buffer, LaterTest(flush, mark, grace));
      && (flush ==> later == [] && forall b :: b in buffer ==> b in ready)
      && (!flush && mark.None? ==> ready == [] && later == buffer)
      && (!flush && mark.Some? ==>
        && (forall b :: b in later <==> b in buffer && b.time > mark.value - grace)
        && (forall b :: b in ready <==> b in buffer && b.time <= mark.value - grace))
      && (forall b :: b in ready ==> b in buffer)
  {
    if flush {
      SelectNone(buffer, LaterTest(flush, mark, grace));
    } else if mark.None? {
      SelectNone(buffer, DueTest(flush, mark, grace));
      SelectAll(buffer, LaterTest(flush, mark, grace));
    }
  }

  lemma {:induction false} SelectAll(buffer: seq<Alert>, test: Alert -> bool)
    requires forall a :: a in buffer ==> test(a)
    ensures Select(buffer, test) == buffer
  {
    if buffer != [] {
      SelectAll(buffer[1..], test);
    }
  }

  lemma {:induction false} SelectNone(buffer: seq<Alert>, test: Alert -> bool)
    requires forall a :: a in buffer ==> !test(a)
    ensures Select(buffer, test) == []
  {
    if buffer != [] {
      SelectNone(buffer[1..], test);
    }
  }

  lemma HoldingFacts(before: map<Uid, Alert>, after: map<Uid, Alert>, due: seq<Alert>)
    requires UidsOf(due) !! before.Keys && Holding(before, after, due)
    ensures forall u :: u in before ==> u in after && after[u] == before[u]
    ensures forall u :: u in after ==> u in before || after[u] in due
    ensures forall b :: b in due ==> b.uid in after && after[b.uid] == b
    ensures due == [] ==> after == before
  {
  }

  /** The payloads of a batch, filed beside those known before. */
  ghost predicate Holding(before: map<Uid, Alert>, after: map<Uid, Alert>, due: seq<Alert>) {
    && after.Keys == before.Keys + UidsOf(due)
    && (forall u :: u in before && u !in UidsOf(due) ==> after[u] == before[u])
    && (forall b :: b in due ==> b.uid in after && after[b.uid] == b)
  }

  /**
    What an evaluation takes out of the buffer: everything when flushing, nothing before the first alert,
    otherwise exactly what lies at or behind the watermark. It is filed with its payload; the rest waits.
  */
  ghost predicate BehindTheWatermark(waiting: seq<Alert>, still: seq<Alert>, before: map<Uid, Alert>, after: map<Uid, Alert>,
                                     flush: bool, mark: Option<int>, grace: int) {
    && (flush ==> still == [] && forall b :: b in waiting ==> b.uid in after && after[b.uid] == b)
    && (!flush && mark.None? ==> still == waiting && after == before)
    && (!flush && mark.Some? ==>
      && (forall b :: b in still <==> b in waiting && b.time > mark.value - grace)
      && (forall b :: b in waiting && b.time <= mark.value - grace ==> b.uid in after && after[b.uid] == b)
      && (forall u :: u in after && u !in before ==> after[u].time <= mark.value - grace))
    && (forall u :: u in before ==> u in after && after[u] == before[u])
    && (forall u :: u in after ==> u in before || after[u] in waiting)
  }

  lemma SplitAtTheWatermark(waiting: seq<Alert>, before: map<Uid, Alert>, after: map<Uid, Alert>, flush: bool, mark: Option<int>, grace: int)
    requires Holding(before, after, Select(waiting, DueTest(flush, mark, grace))) && Batch(Select(waiting, DueTest(flush, mark, grace)), before.Keys)
    ensures BehindTheWatermark(waiting, Select(waiting, LaterTest(flush, mark, grace)), before, after, flush, mark, grace)
  {
    WatermarkSplits(waiting, flush, mark, grace);
    HoldingFacts(before, after, Select(waiting, DueTest(flush, mark, grace)));
    hide Holding, Batch, DueTest, LaterTest, Select;
  }

  lemma NothingReady(waiting: seq<Alert>, flush: bool, mark: Option<int>, grace: int, book: Book, resolve: Alert -> Entities)
    ensures !flush && mark.None? ==> Enter(book, Select(waiting, DueTest(flush, mark, grace)), resolve) == book
  {
    if !flush && mark.None? {
      SelectNone(waiting, DueTest(flush, mark, grace));
    }
  }

  lemma HoldingNone(alerts: map<Uid, Alert>, due: seq<Alert>)
    requires due == []
    ensures Holding(alerts, alerts, due)
  {
  }

  lemma HoldingOne(before: map<Uid, Alert>, now: map<Uid, Alert>, due: seq<Alert>, i: nat)
    requires i < |due| && Holding(before, now, due[..i]) && due[i].uid !in UidsOf(due[..i])
    ensures Holding(before, now[due[i].uid := due[i]], due[..i + 1])
  {
    var a := due[i];
    assert due[..i + 1] == due[..i] + [a];
    forall b | b in due[..i] ensures b.uid != a.uid {
      assert b.uid in UidsOf(due[..i]);
    }
    assert UidsOf(due[..i + 1]) == UidsOf(due[..i]) + {a.uid};
  }

  lemma EmptyBatch(due: seq<Alert>)
    requires due == []
    ensures UidsOf(due) == {}
  {
  }

  lemma BatchStep(due: seq<Alert>, known: set<Uid>, i: nat)
    requires Batch(due, known) && i < |due|
    ensures due[i].uid !in known + UidsOf(due[..i])
    ensures UidsOf(due[..i + 1]) == UidsOf(due[..i]) + {due[i].uid}
  {
    assert due[i] in due && due[i].uid in UidsOf(due);
    assert due[..i + 1] == due[..i] + [due[i]];
  }

  lemma TouchedUids(due: seq<Alert>)
    ensures (set u | u in UidSeq(due)) == UidsOf(due)
  {
    forall u | u in UidsOf(due) ensures u in UidSeq(due) {
      var a :| a in due && a.uid == u;
      var i :| 0 <= i < |due| && due[i] == a;
      assert UidSeq(due)[i] == u;
    }
  }

  /** Splitting a buffer by a test and its negation. */
  lemma SplitBuffer(buffer: seq<Alert>, uids: set<Uid>, known: set<Uid>, flush: bool, mark: Option<int>, grace: int)
    requires BufferOk(buffer, uids) && uids !! known
    ensures var ready, later := Select(buffer, DueTest(flush, mark, grace)), Select(buffer, LaterTest(flush, mark, grace));
      && Batch(ready, known)
      && BufferOk(later, UidsOf(later)) && UidsOf(later) !! known + UidsOf(ready)
  {
    var test, rest := DueTest(flush, mark, grace), LaterTest(flush, mark, grace);
    var ready, later := Select(buffer, test), Select(buffer, rest);
    SelectSorted(buffer, test);
    SelectSorted(buffer, rest);
    assert forall a: Alert :: a in buffer ==> a.uid in uids;
    DistinctReady(ready);
    forall u | u in UidsOf(later) ensures u !in known + UidsOf(ready) {
      var a :| a in later && a.uid == u;
      assert forall b: Alert :: b in ready ==> b.uid != u;
    }
  }

  function UidSeq(s: seq<Alert>): (r: seq<Uid>)
    ensures |r| == |s| && forall i :: 0 <= i < |r| ==> r[i] == s[i].uid
  {
    seq(|s|, i requires 0 <= i < |s| => s[i].uid)
  }

  lemma DistinctReady(ready: seq<Alert>)
    requires Sorted(Stamps(ready)) && forall a, b :: a in ready && b in ready && a.uid == b.uid ==> a == b
    ensures forall i, j :: 0 <= i < j < |ready| ==> ready[i].uid != ready[j].uid
  {
    forall i, j | 0 <= i < j < |ready| ensures ready[i].uid != ready[j].uid {
      assert Before(Stamps(ready)[i], Stamps(ready)[j]);
      assert ready[i] in ready && ready[j] in ready;
    }
  }

  /** A freshly inserted alert is pending; the blocks of the others stand. */
  lemma InsertKeepsBlocks(table: Table, filed: map<Uid, string>, book: Book, edges: set<Edge>, pending: set<Uid>,
                          x: Uid, rec: Record, more: set<Edge>, window: int)
    requires Blocks(table, filed, book, edges, pending) && x !in book
    requires edges <= more && Faithful(book[x := rec], window, more)
    requires forall e :: e in more - edges ==> e.0 == x || e.1 == x
    ensures Blocks(table, filed, book[x := rec], more, pending + {x})
  {
    var now := book[x := rec];
    forall c | Live(table, c) ensures Connected(more, Members(table[c])) {
      ConnectedGrows(edges, more, Members(table[c]));
    }
    forall e | e in more
      ensures e.0 in now && e.1 in now && (e.0 in pending + {x} || e.1 in pending + {x} || SameBlock(filed, e))
    {
      assert Near(now, window, e.0, e.1);
      if e !in edges { assert e in more - edges; }
    }
    forall c | Live(table, c) && Members(table[c]) !! pending + {x} ensures Summarised(table[c], now) {
      SummaryFrame(table[c], book, now);
    }
  }

  lemma SummaryFrame(c: Cluster, book: Book, now: Book)
    requires Summarised(c, book)
    requires forall u :: u in c.alerts ==> u in now && u in book && now[u].time == book[u].time
    ensures Summarised(c, now)
  {
    forall i | 0 <= i < |c.alerts| ensures StampOf(now, c.alerts[i]) == StampOf(book, c.alerts[i]) {
      assert c.alerts[i] in c.alerts;
    }
    assert c.alerts[0] in c.alerts && c.alerts[|c.alerts| - 1] in c.alerts;
  }

  /** An id handed out for a component without a live chain is not the id of any live chain. */
  lemma ReturnedIdIsNotLive(before: Table, filed: map<Uid, string>, comp: set<Uid>,
                            anchors: map<Uid, string>, now: map<Uid, string>, first: Uid, id: string, issued: set<string>)
    requires Anchored(before, filed, anchors)
    requires forall u :: u in filed ==> Live(before, filed[u]) && u in before[filed[u]].alerts
    requires !Touches(before, comp, id)
    requires before.Keys <= issued
    requires first in comp && first in now && now[first] == id
    requires now == anchors || (now == anchors[first := id] && id !in issued)
    ensures !Live(before, id)
  {
    forall u | u in comp && u in filed ensures Touches(before, comp, filed[u]) {
      assert u in Members(before[filed[u]]);
    }
  }

  lemma AssignKeepsClimbing(before: Table, after: Table, rank: map<string, nat>, clock: nat, comp: set<Uid>, id: string)
    requires Climbing(before, rank, clock) && Assigned(before, after, comp, id)
    ensures Climbing(after, rank[id := clock], clock + 1)
  {
    var now := rank[id := clock];
    forall c | c in after ensures c in now && now[c] < clock + 1 && Climbs(after, now, c) {
      if c != id {
        assert c in before && Climbs(before, rank, c);
      }
    }
  }

  lemma DrawnTouches(lines: map<Ent, Timeline>, ents: seq<Ent>, window: int, s: Stamp)
    ensures forall e :: e in Drawn(lines, ents, window, s) ==> e.0 == s.uid || e.1 == s.uid
  {
  }

  lemma KnownWith(nodes: set<Uid>, alerts: map<Uid, Alert>, resolved: map<Uid, Entities>, a: Alert, ents: Entities)
    requires nodes <= alerts.Keys && nodes <= resolved.Keys && a.uid !in nodes
    ensures BookOf(nodes + {a.uid}, alerts[a.uid := a], resolved[a.uid := ents]) == BookOf(nodes, alerts, resolved)[a.uid := RecordFor(a, ents)]
  {
  }

  lemma NothingDrawn(lines: map<Ent, Timeline>, ents: seq<Ent>, window: int, s: Stamp)
    requires ents == []
    ensures SetOf(ents) == {} && Drawn(lines, ents, window, s) == {}
  {
  }

  lemma DrawnStep(lines: map<Ent, Timeline>, ents: Entities, window: int, s: Stamp, i: nat)
    requires i < |ents|
    ensures ents[i] !in SetOf(ents[..i]) && SetOf(ents[..i + 1]) == SetOf(ents[..i]) + {ents[i]}
    ensures Drawn(lines, ents[..i + 1], window, s)
      == Drawn(lines, ents[..i], window, s) + DrawnOn(LineOf(lines, ents[i]), window, s)
  {
    assert ents[..i + 1][..i] == ents[..i];
    assert ents[..i + 1] == ents[..i] + [ents[i]];
  }

  lemma LineIsFresh(lines: map<Ent, Timeline>, book: Book, s: Stamp, t: Ent)
    requires Indexes(lines, book) && s.uid !in book
    ensures Sorted(LineOf(lines, t)) && forall n :: n in LineOf(lines, t) ==> n.uid != s.uid
  {
    assert t in lines ==> LineOn(lines[t], book, t);
  }

  lemma LiveIsChain(table: Table, filed: map<Uid, string>, book: Book, window: int, edges: set<Edge>, c: string)
    requires Blocks(table, filed, book, edges, {}) && Faithful(book, window, edges) && Live(table, c)
    ensures IsChain(book, window, Members(table[c]))
  {
    BlockIsClosed(table, filed, book, edges, c);
    forall u | u in Members(table[c]) ensures u in book {
      assert u in table[c].alerts;
    }
    ComponentIsChain(book, window, edges, Members(table[c]));
  }

  /** The table after the id is chosen and before the component is written under it. */
  ghost predicate Chosen(before: Table, after: Table, comp: set<Uid>, id: string) {
    && after.Keys == before.Keys
    && (forall c :: c in before ==>
      after[c] == if Touches(before, comp, c) && c != id then before[c].(mergedInto := Some(id)) else before[c])
    && (Live(before, id) ==> Touches(before, comp, id))
  }

  /** Chains merged: the one that began earliest keeps its id. */
  ghost predicate EarliestWins(before: Table, comp: set<Uid>, id: string) {
    forall c :: Touches(before, comp, c) ==> Touches(before, comp, id) && !Earlier(before, c, id)
  }

  lemma EarliestIsFirst(before: Table, comp: set<Uid>, id: string)
    requires EarliestWins(before, comp, id)
    ensures forall c :: Touches(before, comp, c) ==> id in before && before[id].first <= before[c].first
  {
    forall c | Touches(before, comp, c) ensures id in before && before[id].first <= before[c].first {
      assert Touches(before, comp, id) && !Earlier(before, c, id);
    }
  }

  ghost predicate AnchorStep(anchors: map<Uid, string>, now: map<Uid, string>, first: Uid, id: string) {
    now == anchors || (now == anchors[first := id] && id !in anchors.Values && first !in anchors)
  }

  lemma ChosenIsAssigned(before: Table, table: Table, comp: set<Uid>, id: string, c: Cluster)
    requires Chosen(before, table, comp, id) && c.mergedInto.None? && Members(c) == comp
    ensures Assigned(before, table[id := c], comp, id)
  {
  }

  /** Every anchor of a live chain stays filed under its id through an assignment. */
  lemma AnchorsStayFiled(before: Table, after: Table, filed: map<Uid, string>, book: Book, edges: set<Edge>,
                         pending: set<Uid>, comp: set<Uid>, id: string,
                         anchors: map<Uid, string>, now: map<Uid, string>, first: Uid)
    requires Blocks(before, filed, book, edges, pending) && EdgeClosed(edges, comp)
    requires Assigned(before, after, comp, id) && first in comp
    requires Anchored(before, filed, anchors)
    requires Injective(now) && AnchorStep(anchors, now, first, id)
    requires Touches(before, comp, id) || (first in now && now[first] == id)
    ensures Anchored(after, File(filed, comp, id), now)
  {
    forall a | a in now && Live(after, now[a]) ensures a in File(filed, comp, id) && File(filed, comp, id)[a] == now[a] {
      var c := now[a];
      if c == id {
        if a != first && Touches(before, comp, id) {
          assert a in anchors && anchors[a] == id;
          InsideOrApart(before, filed, book, edges, pending, comp, id);
          assert filed[a] == id && a in before[id].alerts;
          assert a in Members(before[id]);
        }
      } else {
        assert a in anchors && anchors[a] == c;
        assert c in before && Live(before, c) && !Touches(before, comp, c);
        assert filed[a] == c && a in before[c].alerts;
        assert a in Members(before[c]);
      }
    }
  }

  lemma InsertionIsFaithful(lines: map<Ent, Timeline>, book: Book, window: int, graph: set<Edge>, s: Stamp, ents: seq<Ent>)
    requires Indexes(lines, book) && Faithful(book, window, graph) && s.uid !in book
    ensures Faithful(book[s.uid := Record(s.time, SetOf(ents))], window, graph + Drawn(lines, ents, window, s))
  {
    var now := book[s.uid := Record(s.time, SetOf(ents))];
    var added := Drawn(lines, ents, window, s);
    forall e | e in added ensures (e.0 == s.uid || e.1 == s.uid) && Near(now, window, e.0, e.1) {
      var t :| t in ents && Draws(LineOf(lines, t), window, s, e);
      DrawnIsNear(lines, book, window, s, SetOf(ents), t, e);
    }
    forall b | b != s.uid && Near(now, window, s.uid, b) ensures Bridged(book, window, added, s.uid, b) {
      var e, p := NeighbourBridges(lines, book, window, s, SetOf(ents), b);
      assert e in ents;
      assert (p, s.uid) in added || (s.uid, p) in added;
    }
    InsertKeepsFaithful(book, window, graph, s.uid, Record(s.time, SetOf(ents)), added);
  }

  // ---------------------------------------------------------------------------------------------
  // Facts about revisions
  // ---------------------------------------------------------------------------------------------

  function Induced(edges: set<Edge>, s: set<Uid>): (r: set<Edge>) {
    set e | e in edges && e.0 in s && e.1 in s
  }

  /** `n` would be a timeline neighbour of the revised alert, its old entries set aside. */
  ghost predicate WouldMeet(timelines: map<Ent, Timeline>, window: int, a: Alert, ents: Entities, n: Uid) {
    exists j :: 0 <= j < |ents| && Adjacent(Filter(LineOf(timelines, ents[j]), a.uid), window, StampFor(a), n)
  }

  /** The revised alert would meet a member of chain `id` again. */
  ghost predicate Meets(timelines: map<Ent, Timeline>, filed: map<Uid, string>, window: int,
                        a: Alert, ents: Entities, id: string) {
    exists n :: WouldMeet(timelines, window, a, ents, n) && n in filed && filed[n] == id
  }

  /** When a revision may be applied: the rest of the chain holds together, and the alert meets it again. */
  ghost predicate MayMove(edges: set<Edge>, timelines: map<Ent, Timeline>, filed: map<Uid, string>, window: int,
                          a: Alert, ents: Entities, id: string, others: set<Uid>) {
    others == {} || (Connected(Induced(edges, others), others) && Meets(timelines, filed, window, a, ents, id))
  }

  /** The outcome of revising a correlated alert. */
  ghost function Expected(was: Alert, a: Alert, mayMove: bool): Kind {
    if a.time != was.time || a.who != was.who then (if mayMove then Reclustered else Review)
    else if a.what != was.what then Rescored
    else Unchanged
  }

  lemma FiledIsLive(table: Table, filed: map<Uid, string>, book: Book, edges: set<Edge>, u: Uid)
    requires Blocks(table, filed, book, edges, {}) && u in filed
    ensures Live(table, filed[u]) && u in Members(table[filed[u]])
  {
  }

  lemma BlockIsComponent(table: Table, filed: map<Uid, string>, book: Book, edges: set<Edge>, id: string)
    requires Blocks(table, filed, book, edges, {}) && Live(table, id)
    ensures Members(table[id]) != {} && Members(table[id]) <= book.Keys
    ensures EdgeClosed(edges, Members(table[id])) && Connected(edges, Members(table[id]))
  {
    BlockIsClosed(table, filed, book, edges, id);
    BlockMembersKnown(table, filed, book, edges);
    forall u | u in Members(table[id]) ensures u in book {
      assert u in table[id].alerts;
    }
  }

  /** Re-assigning a whole live chain files it under the id it already has. */
  lemma RefreshChangesNothing(before: Table, after: Table, filed: map<Uid, string>, book: Book, edges: set<Edge>,
                              id: string, done: string)
    requires Blocks(before, filed, book, edges, {}) && Live(before, id)
    requires Assigned(before, after, Members(before[id]), done) && EarliestWins(before, Members(before[id]), done)
    ensures done == id && File(filed, Members(before[id]), done) == filed
    ensures forall c :: Live(after, c) <==> Live(before, c)
    ensures forall c :: Live(after, c) ==> Members(after[c]) == Members(before[c])
  {
    var m := Members(before[id]);
    OnlyTouchesItself(before, filed, book, edges, id);
    hide Summarised, Connected;
    assert File(filed, m, done) == filed by {
      forall u | u in m ensures u in filed && filed[u] == id {
        assert u in before[id].alerts;
      }
    }
    hide Blocks;
  }

  /** A live chain meets itself and no other. */
  lemma OnlyTouchesItself(table: Table, filed: map<Uid, string>, book: Book, edges: set<Edge>, id: string)
    requires Blocks(table, filed, book, edges, {}) && Live(table, id)
    ensures forall c :: Touches(table, Members(table[id]), c) <==> c == id
  {
    var m := Members(table[id]);
    forall c | Touches(table, m, c) ensures c == id {
      var u := Common(Members(table[c]), m);
      assert u in table[c].alerts && u in table[id].alerts;
    }
    NonEmpty(m);
    assert m * m == m;
    assert !(m !! m);
  }

  lemma MeetsIffFound(timelines: map<Ent, Timeline>, filed: map<Uid, string>, window: int,
                      a: Alert, ents: Entities, id: string, found: set<Uid>)
    requires forall n :: n in found <==> WouldMeet(timelines, window, a, ents, n)
    ensures Meets(timelines, filed, window, a, ents, id) <==> exists n :: n in found && n in filed && filed[n] == id
  {
  }

  lemma InducedIsWithout(edges: set<Edge>, m: set<Uid>, x: Uid)
    requires Connected(Induced(edges, m - {x}), m - {x})
    ensures Connected(Without(edges, x), m - {x})
  {
    ConnectedGrows(Induced(edges, m - {x}), Without(edges, x), m - {x});
  }

  lemma SmallIsConnected(edges: set<Edge>, s: set<Uid>)
    requires |s| <= 1
    ensures Connected(edges, s)
  {
    forall t: set<Uid> | EdgeClosed(edges, t) && t * s != {} ensures s <= t {
      NonEmpty(t * s);
      var u :| u in t * s;
      assert {u} <= s && |s - {u}| == 0;
    }
  }

  /** With the alert back next to a member of its old chain, only its own block needs another look. */
  lemma ReinsertKeepsBlocks(table: Table, filed: map<Uid, string>, book: Book, edges: set<Edge>, window: int,
                            x: Uid, id: string, rec: Record, more: set<Edge>)
    requires Blocks(table, filed, book, edges, {}) && x in filed && filed[x] == id
    requires Connected(Without(edges, x), Members(table[id]) - {x})
    requires Without(edges, x) <= more && (forall e :: e in more - Without(edges, x) ==> e.0 == x || e.1 == x)
    requires Faithful(book[x := rec], window, more)
    requires Members(table[id]) == {x} || Rejoins(more, Members(table[id]), x)
    ensures Blocks(table, filed, book[x := rec], more, {x})
    ensures Connected(more, Members(table[id]))
  {
    hide Connected, EdgeClosed, NearClosed, Near, Summarised;
    var now := book[x := rec];
    ReinsertKeepsConnected(table, filed, book, edges, x, id, more);
    NearInside(now, window);
    forall e | e in more ensures e.0 in now && e.1 in now && (e.0 in {x} || e.1 in {x} || SameBlock(filed, e)) {
      assert Near(now, window, e.0, e.1);
      if e.0 != x && e.1 != x {
        assert e in Without(edges, x) && e in edges;
      }
    }
    BlockMembersKnown(table, filed, book, edges);
    forall c | Live(table, c) && Members(table[c]) !! {x} ensures Summarised(table[c], now) {
      assert x !in Members(table[c]);
      SummaryFrame(table[c], book, now);
    }
  }

  lemma NearInside(book: Book, window: int)
    ensures forall a, b :: Near(book, window, a, b) ==> a in book && b in book
  {
  }

  lemma BlockMembersKnown(table: Table, filed: map<Uid, string>, book: Book, edges: set<Edge>)
    requires Blocks(table, filed, book, edges, {})
    ensures forall c, u :: Live(table, c) && u in table[c].alerts ==> u in book && u in Members(table[c])
    ensures forall c :: Live(table, c) ==> Summarised(table[c], book)
  {
    assert forall c :: Live(table, c) ==> Members(table[c]) !! {};
  }

  lemma ReinsertKeepsConnected(table: Table, filed: map<Uid, string>, book: Book, edges: set<Edge>,
                               x: Uid, id: string, more: set<Edge>)
    requires Blocks(table, filed, book, edges, {}) && x in filed && filed[x] == id
    requires Connected(Without(edges, x), Members(table[id]) - {x}) && Without(edges, x) <= more
    requires Members(table[id]) == {x} || Rejoins(more, Members(table[id]), x)
    ensures forall c :: Live(table, c) ==> Connected(more, Members(table[c]))
  {
    forall c | Live(table, c) ensures Connected(more, Members(table[c])) {
      assert x in table[c].alerts <==> c == id;
      if c == id {
        RejoinedIsConnected(edges, more, Members(table[c]), x);
      } else {
        BlockIsClosed(table, filed, book, edges, c);
        ApartIsConnected(edges, more, Members(table[c]), x);
      }
    }
  }

  ghost predicate Rejoins(edges: set<Edge>, m: set<Uid>, x: Uid) {
    exists n :: n in m && n != x && Joins(edges, n, x)
  }

  predicate Joins(edges: set<Edge>, a: Uid, b: Uid) {
    (a, b) in edges || (b, a) in edges
  }

  lemma RejoinedIsConnected(edges: set<Edge>, more: set<Edge>, m: set<Uid>, x: Uid)
    requires x in m && Connected(Without(edges, x), m - {x}) && Without(edges, x) <= more
    requires m == {x} || Rejoins(more, m, x)
    ensures Connected(more, m)
  {
    ConnectedGrows(Without(edges, x), more, m - {x});
    forall s: set<Uid> | EdgeClosed(more, s) && s * m != {} ensures m <= s {
      NonEmpty(s * m);
      var u :| u in s * m;
      if m != {x} {
        var n :| n in m && n != x && Joins(more, n, x);
        assert n in s <==> x in s by {
          if (n, x) in more { assert (n, x).0 in s <==> (n, x).1 in s; }
          else { assert (x, n).0 in s <==> (x, n).1 in s; }
        }
        var v := if u == x then n else u;
        assert v in s * (m - {x});
        assert m - {x} <= s;
      }
    }
  }

  lemma ApartIsConnected(edges: set<Edge>, more: set<Edge>, m: set<Uid>, x: Uid)
    requires x !in m && Connected(edges, m) && EdgeClosed(edges, m) && Without(edges, x) <= more
    ensures Connected(more, m)
  {
    forall s: set<Uid> | EdgeClosed(more, s) && s * m != {} ensures m <= s {
      var t := s * m;
      forall e | e in edges ensures e.0 in t <==> e.1 in t {
        assert e.0 in m <==> e.1 in m;
        if e.0 in m { assert e in Without(edges, x); }
      }
      assert t * m == t;
      assert m <= t;
    }
  }

  /** Re-insertion draws an edge to a member of the old chain. */
  lemma RelinkedByInsertion(before: map<Ent, Timeline>, lines: map<Ent, Timeline>, filed: map<Uid, string>, table: Table,
                            book: Book, edges: set<Edge>, window: int, a: Alert, ents: Entities, id: string)
    requires Blocks(table, filed, book, edges, {}) && a.uid in filed && filed[a.uid] == id
    requires lines == Filtered(before, a.uid)
    requires Meets(before, filed, window, a, ents, id)
    ensures Rejoins(Without(edges, a.uid) + Drawn(lines, ents, window, StampFor(a)), Members(table[id]), a.uid)
  {
    var n :| WouldMeet(before, window, a, ents, n) && n in filed && filed[n] == id;
    var j :| 0 <= j < |ents| && Adjacent(Filter(LineOf(before, ents[j]), a.uid), window, StampFor(a), n);
    assert LineOf(lines, ents[j]) == Filter(LineOf(before, ents[j]), a.uid);
    AdjacentJoins(lines, window, a, ents, ents[j], n);
    assert n in table[id].alerts && n in Members(table[id]);
    var added := Drawn(lines, ents, window, StampFor(a));
    assert Joins(Without(edges, a.uid) + added, n, a.uid);
  }

  lemma RelinkedOrAlone(before: map<Ent, Timeline>, lines: map<Ent, Timeline>, filed: map<Uid, string>, table: Table,
                        book: Book, edges: set<Edge>, window: int, a: Alert, ents: Entities, id: string)
    requires Blocks(table, filed, book, edges, {}) && a.uid in filed && filed[a.uid] == id
    requires lines == Filtered(before, a.uid)
    requires MayMove(edges, before, filed, window, a, ents, id, Members(table[id]) - {a.uid})
    ensures Members(table[id]) == {a.uid}
      || Rejoins(Without(edges, a.uid) + Drawn(lines, ents, window, StampFor(a)), Members(table[id]), a.uid)
  {
    if Members(table[id]) - {a.uid} == {} {
      assert a.uid in Members(table[id]);
      assert Members(table[id]) == {a.uid};
    } else {
      RelinkedByInsertion(before, lines, filed, table, book, edges, window, a, ents, id);
    }
  }

  /** What detaching leaves is still a faithful graph and index, because the move was checked first. */
  lemma RemovalIsFaithful(book: Book, window: int, edges: set<Edge>, timelines: map<Ent, Timeline>,
                          table: Table, filed: map<Uid, string>, a: Alert, ents: Entities, id: string)
    requires Faithful(book, window, edges) && Indexes(timelines, book)
    requires Blocks(table, filed, book, edges, {}) && a.uid in filed && filed[a.uid] == id
    requires MayMove(edges, timelines, filed, window, a, ents, id, Members(table[id]) - {a.uid})
    ensures Connected(Without(edges, a.uid), Members(table[id]) - {a.uid})
    ensures Faithful(book - {a.uid}, window, Without(edges, a.uid))
    ensures Indexes(Filtered(timelines, a.uid), book - {a.uid})
  {
    var m := Members(table[id]);
    assert m - {a.uid} == {} ==> |m - {a.uid}| <= 1;
    if m - {a.uid} == {} {
      SmallIsConnected(Induced(edges, m - {a.uid}), m - {a.uid});
    }
    InducedIsWithout(edges, m, a.uid);
    BlockIsClosed(table, filed, book, edges, id);
    BlockMembersKnown(table, filed, book, edges);
    DetachKeepsFaithful(book, window, edges, a.uid, m);
    FilterKeepsIndexes(timelines, book, a.uid);
  }

  lemma AdjacentJoins(lines: map<Ent, Timeline>, window: int, a: Alert, ents: Entities, t: Ent, n: Uid)
    requires t in ents && Adjacent(LineOf(lines, t), window, StampFor(a), n)
    requires forall k :: k in LineOf(lines, t) ==> k.uid != a.uid
    ensures Joins(Drawn(lines, ents, window, StampFor(a)), n, a.uid) && n != a.uid
  {
    var line, s := LineOf(lines, t), StampFor(a);
    var k := Position(line, s);
    assert k > 0 ==> line[k - 1] in line;
    assert k < |line| ==> line[k] in line;
    assert Draws(line, window, s, (n, a.uid)) || Draws(line, window, s, (a.uid, n));
  }

  /** A connected set that meets a settled block lies inside it. */
  lemma ChainKeptTogether(table: Table, filed: map<Uid, string>, book: Book, edges: set<Edge>, m: set<Uid>, x: Uid)
    requires Blocks(table, filed, book, edges, {}) && x in m && x in book && Connected(edges, m)
    ensures x in filed && forall u :: u in m ==> u in filed && filed[u] == filed[x]
  {
    var block := Members(table[filed[x]]);
    BlockIsClosed(table, filed, book, edges, filed[x]);
    assert x in block * m;
    assert m <= block;
    forall u | u in m ensures u in filed && filed[u] == filed[x] {
      assert u in table[filed[x]].alerts;
    }
  }

  // ---------------------------------------------------------------------------------------------
  // Facts about pruning
  // ---------------------------------------------------------------------------------------------

  /** The alerts of the live chains that ended before the cutoff. */
  ghost function Expired(table: Table, filed: map<Uid, string>, cutoff: int): set<Uid> {
    set u | u in filed && filed[u] in table && table[filed[u]].last < cutoff
  }

  /** The timelines cut down to live alerts; an emptied timeline disappears. */
  function Kept(timelines: map<Ent, Timeline>, live: set<Uid>): (r: map<Ent, Timeline>)
    ensures forall t :: t in timelines ==> LineOf(r, t) == Keep(timelines[t], live)
    ensures r.Keys <= timelines.Keys
  {
    map t | t in timelines && Keep(timelines[t], live) != [] :: Keep(timelines[t], live)
  }

  lemma SurvivorsFacts(table: Table, doomed: set<string>, cutoff: int, gone: set<Uid>)
    requires Dooms(table, cutoff, doomed, gone)
    ensures forall c :: Live(Survivors(table, doomed), c) <==> Live(table, c) && table[c].last >= cutoff
    ensures forall c :: c in Survivors(table, doomed) ==> c in table && Survivors(table, doomed)[c] == table[c]
  {
  }

  /** Doomed chains go, and so do merge losers that pointed at one. */
  function Survivors(table: Table, doomed: set<string>): Table {
    map c | c in table && c !in doomed && !(table[c].mergedInto.Some? && table[c].mergedInto.value in doomed) :: table[c]
  }

  ghost predicate Dooms(table: Table, cutoff: int, doomed: set<string>, gone: set<Uid>) {
    && (forall c :: c in doomed <==> Live(table, c) && table[c].last < cutoff)
    && (forall u :: u in gone <==> exists c :: c in doomed && u in table[c].alerts)
  }

  ghost predicate FiledInDoomed(filed: map<Uid, string>, doomed: set<string>, gone: set<Uid>) {
    forall u :: u in gone <==> u in filed && filed[u] in doomed
  }

  lemma ExpiredIsClosed(table: Table, filed: map<Uid, string>, book: Book, edges: set<Edge>,
                        cutoff: int, doomed: set<string>, gone: set<Uid>)
    requires Blocks(table, filed, book, edges, {})
    requires Dooms(table, cutoff, doomed, gone)
    ensures EdgeClosed(edges, gone) && gone <= book.Keys && gone == Expired(table, filed, cutoff)
    ensures FiledInDoomed(filed, doomed, gone)
  {
    forall u ensures u in gone <==> u in filed && filed[u] in doomed {
      if u in gone {
        var c :| c in doomed && u in table[c].alerts;
        assert Live(table, c);
      }
    }
    forall e | e in edges ensures e.0 in gone <==> e.1 in gone {
      assert SameBlock(filed, e);
    }
    forall u ensures u in gone <==> u in Expired(table, filed, cutoff) {
      if u in filed { assert Live(table, filed[u]); }
    }
  }

  lemma PruneKeepsBlocks(table: Table, filed: map<Uid, string>, book: Book, edges: set<Edge>,
                         cutoff: int, doomed: set<string>, gone: set<Uid>)
    requires Blocks(table, filed, book, edges, {}) && Dooms(table, cutoff, doomed, gone)
    requires EdgeClosed(edges, gone)
    requires FiledInDoomed(filed, doomed, gone)
    ensures Blocks(Survivors(table, doomed), filed - gone, book - gone, Apart(edges, gone), {})
    ensures forall c :: Live(Survivors(table, doomed), c) <==> Live(table, c) && c !in doomed
  {
    var now, left, less := Survivors(table, doomed), filed - gone, Apart(edges, gone);
    forall c | Live(now, c)
      ensures Members(now[c]) != {} && Connected(less, Members(now[c])) && Summarised(now[c], book - gone)
      ensures forall u :: u in now[c].alerts ==> u in left && left[u] == c
    {
      PrunedChain(table, filed, book, edges, doomed, gone, c);
    }
    forall e | e in less ensures e.0 in book - gone && e.1 in book - gone && SameBlock(left, e) {
      assert SameBlock(filed, e);
    }
    hide Connected, Summarised, EdgeClosed;
  }

  /** A surviving chain keeps its members, its connections and its summary. */
  lemma PrunedChain(table: Table, filed: map<Uid, string>, book: Book, edges: set<Edge>,
                    doomed: set<string>, gone: set<Uid>, c: string)
    requires Blocks(table, filed, book, edges, {}) && EdgeClosed(edges, gone) && FiledInDoomed(filed, doomed, gone)
    requires Live(Survivors(table, doomed), c)
    ensures var k := table[c];
      && Survivors(table, doomed)[c] == k && Members(k) != {} && Connected(Apart(edges, gone), Members(k))
      && Summarised(k, book - gone)
      && forall u :: u in k.alerts ==> u in filed - gone && (filed - gone)[u] == c
  {
    BlockMembersKnown(table, filed, book, edges);
    BlockIsClosed(table, filed, book, edges, c);
    forall u | u in table[c].alerts ensures u !in gone && u in filed && filed[u] == c {
      assert u in Members(table[c]);
    }
    hide FiledInDoomed, Blocks;
    DropConnected(edges, Apart(edges, gone), Members(table[c]), gone);
    SummaryFrame(table[c], book, book - gone);
  }

  lemma DropConnected(edges: set<Edge>, less: set<Edge>, m: set<Uid>, gone: set<Uid>)
    requires Connected(edges, m) && EdgeClosed(edges, m) && m !! gone && less == Apart(edges, gone)
    ensures Connected(less, m)
  {
    forall s: set<Uid> | EdgeClosed(less, s) && s * m != {} ensures m <= s {
      var t := s * m;
      forall e | e in edges ensures e.0 in t <==> e.1 in t {
        assert e.0 in m <==> e.1 in m;
        if e.0 in m { assert e in less; }
      }
      assert t * m == t;
      assert m <= t;
    }
  }

  lemma PruneKeepsIds(table: Table, filed: map<Uid, string>, book: Book, edges: set<Edge>, rank: map<string, nat>, clock: nat,
                      anchors: map<Uid, string>, doomed: set<string>, gone: set<Uid>)
    requires Climbing(table, rank, clock) && Anchored(table, filed, anchors)
    requires FiledInDoomed(filed, doomed, gone)
    ensures Climbing(Survivors(table, doomed), rank, clock) && Anchored(Survivors(table, doomed), filed - gone, anchors)
  {
    var now := Survivors(table, doomed);
    forall c | c in now ensures c in rank && rank[c] < clock && Climbs(now, rank, c) {
      assert Climbs(table, rank, c);
    }
    forall a | a in anchors && Live(now, anchors[a]) ensures a in filed - gone && (filed - gone)[a] == anchors[a] {
      assert Live(table, anchors[a]);
    }
  }
}
