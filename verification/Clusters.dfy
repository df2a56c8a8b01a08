/**
  The cluster table: which chain every correlated alert is filed under, and which chains were
  merged away. `Blocks` is the invariant; `pending` names the alerts whose component still has to
  be looked at again.
*/
module Clusters {
  import opened Chains
  import opened ClusterIds
  import opened Timelines

  /** `alerts` in event-time order; a merge loser points at the chain that absorbed it. */
  datatype Cluster = Cluster(alerts: seq<Uid>, first: int, last: int, mergedInto: Option<string>)
  type Table = map<string, Cluster>

  predicate Live(table: Table, id: string) {
    id in table && table[id].mergedInto.None?
  }

  function Members(c: Cluster): set<Uid> {
    set u | u in c.alerts
  }

  // ---------------------------------------------------------------------------------------------
  // "The earlier id wins"
  // ---------------------------------------------------------------------------------------------

  /** Lexicographic order on ids. */
  predicate Less(a: string, b: string) {
    b != "" && (a == "" || a[0] < b[0] || (a[0] == b[0] && Less(a[1..], b[1..])))
  }

  lemma {:induction false} LessTransitive(a: string, b: string, c: string)
    requires Less(a, b) && Less(b, c)
    ensures Less(a, c)
  {
    if a != "" && a[0] == b[0] && b[0] == c[0] {
      LessTransitive(a[1..], b[1..], c[1..]);
    }
  }

  lemma {:induction false} LessTotal(a: string, b: string)
    ensures Less(a, b) || Less(b, a) || a == b
    ensures !(Less(a, b) && Less(b, a))
    ensures !Less(a, a)
  {
    if a != "" && b != "" {
      LessTotal(a[1..], b[1..]);
      LessTotal(a[1..], a[1..]);
      assert a == [a[0]] + a[1..] && b == [b[0]] + b[1..];
    } else if a != "" {
      LessTotal(a[1..], a[1..]);
    }
  }

  /** Order of `(first_time_ms, cluster_id)`. */
  predicate Earlier(table: Table, a: string, b: string)
    requires a in table && b in table
  {
    table[a].first < table[b].first || (table[a].first == table[b].first && Less(a, b))
  }

  ghost predicate Earliest(table: Table, ids: set<string>, keep: string) {
    && keep in ids
    && forall c :: c in ids && c in table && keep in table ==> !Earlier(table, c, keep)
  }

  /** The minimum over a set of ids. */
  method PickEarliest(table: Table, ids: set<string>) returns (keep: string)
    requires ids != {} && ids <= table.Keys
    ensures Earliest(table, ids, keep)
  {
    keep :| keep in ids;
    var rest := ids - {keep};
    LessTotal(keep, keep);
    while rest != {}
      invariant rest <= ids && keep in ids
      invariant forall c :: c in ids - rest ==> !Earlier(table, c, keep)
      decreases rest
    {
      var c :| c in rest;
      if Earlier(table, c, keep) {
        forall d | d in ids - rest + {c} ensures !Earlier(table, d, c) {
          LessTotal(c, c);
          if d != c && Earlier(table, d, c) && table[d].first == table[c].first == table[keep].first {
            LessTransitive(d, c, keep);
          }
        }
        keep := c;
      }
      rest := rest - {c};
    }
  }

  // ---------------------------------------------------------------------------------------------
  // The invariant
  // ---------------------------------------------------------------------------------------------

  /** The stored summary of a chain: members in event-time order, first and last time. */
  ghost predicate Summarised(c: Cluster, book: Book) {
    && c.alerts != []
    && Members(c) <= book.Keys
    && (forall i, j :: 0 <= i < j < |c.alerts| ==>
      Before(StampOf(book, c.alerts[i]), StampOf(book, c.alerts[j])))
    && c.first == book[c.alerts[0]].time
    && c.last == book[c.alerts[|c.alerts| - 1]].time
  }

  ghost function StampOf(book: Book, u: Uid): Stamp {
    Stamp(if u in book then book[u].time else 0, u)
  }

  predicate SameBlock(filed: map<Uid, string>, e: Edge) {
    e.0 in filed && e.1 in filed && filed[e.0] == filed[e.1]
  }

  ghost predicate Blocks(table: Table, filed: map<Uid, string>, book: Book, edges: set<Edge>, pending: set<Uid>) {
    && filed.Keys <= book.Keys <= filed.Keys + pending
    && (forall u :: u in filed ==> Live(table, filed[u]) && u in table[filed[u]].alerts)
    && (forall c :: Live(table, c) ==> Members(table[c]) != {} && Connected(edges, Members(table[c])))
    && (forall c, u :: Live(table, c) && u in table[c].alerts ==> u in filed && filed[u] == c)
    && (forall e :: e in edges ==> e.0 in book && e.1 in book && (e.0 in pending || e.1 in pending || SameBlock(filed, e)))
    && (forall c :: Live(table, c) && Members(table[c]) !! pending ==> Summarised(table[c], book))
  }

  /** With nothing pending, every live chain is a whole component. */
  lemma BlockIsClosed(table: Table, filed: map<Uid, string>, book: Book, edges: set<Edge>, c: string)
    requires Blocks(table, filed, book, edges, {}) && Live(table, c)
    ensures EdgeClosed(edges, Members(table[c]))
  {
    hide Summarised, Connected;
    MemberIffFiled(table, filed, book, edges, {}, c);
    var m := Members(table[c]);
    forall e | e in edges ensures e.0 in m <==> e.1 in m {
      assert SameBlock(filed, e);
      var a, b: Uid := e.0, e.1;
      assert (a in m <==> filed[a] == c) && (b in m <==> filed[b] == c);
    }
  }

  /** The members of a live chain are exactly the alerts filed under it. */
  lemma MemberIffFiled(table: Table, filed: map<Uid, string>, book: Book, edges: set<Edge>, pending: set<Uid>, c: string)
    requires Blocks(table, filed, book, edges, pending) && Live(table, c)
    ensures forall u :: u in Members(table[c]) <==> u in filed && filed[u] == c
  {
    hide Summarised, Connected;
    assert forall u :: u in Members(table[c]) <==> u in table[c].alerts;
  }

  /** A live chain lies inside a component or apart from it. */
  lemma InsideOrApart(table: Table, filed: map<Uid, string>, book: Book, edges: set<Edge>, pending: set<Uid>,
                      comp: set<Uid>, c: string)
    requires Blocks(table, filed, book, edges, pending) && Live(table, c) && EdgeClosed(edges, comp)
    ensures Members(table[c]) <= comp || Members(table[c]) !! comp
  {
    assert Connected(edges, Members(table[c]));
    var m := Members(table[c]);
    assert comp * m == {} || m <= comp;
    assert forall u :: u in m && u in comp ==> u in comp * m;
  }

  /** Live chains with an alert in the component: the ones `_assign_cluster` finds. */
  ghost predicate Touches(table: Table, comp: set<Uid>, c: string) {
    Live(table, c) && !(Members(table[c]) !! comp)
  }

  /** How `_assign_cluster` changes the table: `id` takes the whole component, other chains found in it are merged. */
  ghost predicate Assigned(before: Table, after: Table, comp: set<Uid>, id: string) {
    && after.Keys == before.Keys + {id}
    && Live(after, id) && Members(after[id]) == comp
    && (forall c :: c in before && c != id ==>
      after[c] == if Touches(before, comp, c) then before[c].(mergedInto := Some(id)) else before[c])
    && (Live(before, id) ==> Touches(before, comp, id))
  }

  function File(filed: map<Uid, string>, comp: set<Uid>, id: string): map<Uid, string> {
    filed + map u | u in comp :: id
  }

  lemma AssignKeepsBlocks(before: Table, after: Table, filed: map<Uid, string>, book: Book, edges: set<Edge>,
                          pending: set<Uid>, comp: set<Uid>, id: string)
    requires Blocks(before, filed, book, edges, pending)
    requires comp != {} && comp <= book.Keys && EdgeClosed(edges, comp) && Connected(edges, comp)
    requires Assigned(before, after, comp, id) && Summarised(after[id], book)
    ensures Blocks(after, File(filed, comp, id), book, edges, pending - comp)
  {
    hide Connected, Summarised, EdgeClosed;
    AssignFiles(before, after, filed, book, edges, pending, comp, id);
    OthersStand(before, after, comp, id);
    AssignEdges(filed, book, edges, pending, comp, id);
    hide Connected, Summarised, EdgeClosed;
    forall c | Live(after, c) && Members(after[c]) !! pending - comp ensures Summarised(after[c], book) {
      if c != id {
        assert Members(before[c]) !! pending;
      }
    }
    hide Assigned;
  }

  /** Live chains other than the one assigned are as they were, and lie apart from the component. */
  lemma OthersStand(before: Table, after: Table, comp: set<Uid>, id: string)
    requires Assigned(before, after, comp, id)
    ensures forall c :: Live(after, c) && c != id ==> Live(before, c) && after[c] == before[c] && Members(before[c]) !! comp
  {
    forall c | Live(after, c) && c != id ensures Live(before, c) && after[c] == before[c] && Members(before[c]) !! comp {
      assert c in before;
    }
  }

  lemma AssignEdges(filed: map<Uid, string>, book: Book, edges: set<Edge>, pending: set<Uid>, comp: set<Uid>, id: string)
    requires EdgeClosed(edges, comp)
    requires forall e :: e in edges ==> e.0 in book && e.1 in book && (e.0 in pending || e.1 in pending || SameBlock(filed, e))
    ensures forall e :: e in edges ==>
      e.0 in book && e.1 in book && (e.0 in pending - comp || e.1 in pending - comp || SameBlock(File(filed, comp, id), e))
  {
    forall e | e in edges
      ensures e.0 in pending - comp || e.1 in pending - comp || SameBlock(File(filed, comp, id), e)
    {
      assert e.0 in comp <==> e.1 in comp;
      assert e.0 in pending || e.1 in pending || SameBlock(filed, e);
    }
  }

  lemma AssignFiles(before: Table, after: Table, filed: map<Uid, string>, book: Book, edges: set<Edge>,
                    pending: set<Uid>, comp: set<Uid>, id: string)
    requires Blocks(before, filed, book, edges, pending)
    requires comp <= book.Keys && EdgeClosed(edges, comp)
    requires Assigned(before, after, comp, id)
    ensures var now := File(filed, comp, id);
      && (forall u :: u in now ==> Live(after, now[u]) && u in after[now[u]].alerts)
      && (forall c, u :: Live(after, c) && u in after[c].alerts ==> u in now && now[u] == c)
  {
    var now := File(filed, comp, id);
    forall u | u in now ensures Live(after, now[u]) && u in after[now[u]].alerts {
      if u in comp {
        assert u in Members(after[id]);
      } else {
        var c := filed[u];
        InsideOrApart(before, filed, book, edges, pending, comp, c);
        assert u in Members(before[c]);
        assert !Touches(before, comp, c);
        assert c in before;
      }
    }
    forall c, u | Live(after, c) && u in after[c].alerts ensures u in now && now[u] == c {
      assert u in Members(after[c]);
      if c != id {
        assert c in before && Live(before, c) && u in before[c].alerts;
        assert u in Members(before[c]);
      }
    }
  }
}
