/**
  What an attack chain is, said without any algorithm: two correlated alerts are near when they
  share a recorded entity and their event times differ by at most the window; a chain is a class
  of the transitive closure of that relation.

  The second half relates this to a graph. A set of alerts is closed when no relation leaves it,
  and chains are exactly the minimal non-empty closed sets. Arguing with closed sets instead of
  paths is what keeps the proofs about inserting, detaching and pruning short.
*/
module Chains {

  /** Alert uids and entity uids: the correlator only compares them for equality and order. */
  type Uid = int
  type Ent = nat
  type Edge = (Uid, Uid)

  /** What correlation remembers of one alert: its event time and the entities it resolved to. */
  datatype Record = Record(time: int, entities: set<Ent>)
  type Book = map<Uid, Record>

  lemma NonEmpty(s: set<Uid>)
    ensures s == {} || exists u :: u in s
  {
    if forall u :: u !in s {
      assert s == {};
    }
  }

  lemma Meeting(s: set<Uid>, t: set<Uid>)
    ensures s !! t || exists u :: u in s && u in t
  {
    if forall u :: u in s ==> u !in t {
      assert s !! t;
    }
  }

  lemma Common(s: set<Uid>, t: set<Uid>) returns (u: Uid)
    requires !(s !! t)
    ensures u in s && u in t
  {
    Meeting(s, t);
    u :| u in s && u in t;
  }

  predicate Near(book: Book, window: int, a: Uid, b: Uid) {
    && a in book && b in book
    && book[a].entities * book[b].entities != {}
    && -window <= book[a].time - book[b].time <= window
  }

  /** A walk along the near relation. */
  ghost predicate Walk(book: Book, window: int, p: seq<Uid>) {
    && |p| > 0 && p[0] in book
    && forall i :: 0 <= i < |p| - 1 ==> Near(book, window, p[i], p[i + 1])
  }

  /** The transitive closure of near. */
  ghost predicate Linked(book: Book, window: int, a: Uid, b: Uid) {
    exists p :: Walk(book, window, p) && p[0] == a && p[|p| - 1] == b
  }

  ghost predicate IsChain(book: Book, window: int, c: set<Uid>) {
    && c != {} && c <= book.Keys
    && forall a, b :: a in c ==> (b in c <==> Linked(book, window, a, b))
  }

  /** The partition of all recorded alerts into chains. */
  ghost predicate IsPartition(book: Book, window: int, chains: set<set<Uid>>) {
    && (forall c :: c in chains ==> IsChain(book, window, c))
    && (forall u :: u in book ==> exists c :: c in chains && u in c)
  }

  /** The declarative partition is unique: nothing but the recorded facts decides it. */
  lemma PartitionUnique(book: Book, window: int, p: set<set<Uid>>, q: set<set<Uid>>)
    requires IsPartition(book, window, p) && IsPartition(book, window, q)
    ensures p == q
  {
    PartitionIncluded(book, window, p, q);
    PartitionIncluded(book, window, q, p);
  }

  lemma PartitionIncluded(book: Book, window: int, p: set<set<Uid>>, q: set<set<Uid>>)
    requires IsPartition(book, window, p) && IsPartition(book, window, q)
    ensures p <= q
  {
    hide Linked;
    forall c | c in p ensures c in q {
      assert IsChain(book, window, c);
      NonEmpty(c);
      var a :| a in c;
      var d :| d in q && a in d;
      assert IsChain(book, window, d);
      ChainsThatMeet(book, window, c, d, a);
    }
  }

  lemma ChainsThatMeet(book: Book, window: int, c: set<Uid>, d: set<Uid>, a: Uid)
    requires IsChain(book, window, c) && IsChain(book, window, d) && a in c && a in d
    ensures c == d
  {
    hide Linked;
    forall b ensures b in c <==> b in d {
      assert b in c <==> Linked(book, window, a, b);
    }
  }

  // ---------------------------------------------------------------------------------------------
  // Closed sets and the graph
  // ---------------------------------------------------------------------------------------------

  ghost predicate NearClosed(book: Book, window: int, s: set<Uid>) {
    forall a, b :: a in s && Near(book, window, a, b) ==> b in s
  }

  ghost predicate EdgeClosed(edges: set<Edge>, s: set<Uid>) {
    forall e :: e in edges ==> (e.0 in s <==> e.1 in s)
  }

  /** No closed set cuts `c` in two. */
  ghost predicate Connected(edges: set<Edge>, c: set<Uid>) {
    forall s: set<Uid> :: EdgeClosed(edges, s) && s * c != {} ==> c <= s
  }

  /** The graph has exactly the connectivity of the near relation (not all of its edges). */
  ghost predicate Faithful(book: Book, window: int, edges: set<Edge>) {
    && (forall e :: e in edges ==> Near(book, window, e.0, e.1))
    && (forall s: set<Uid> :: s <= book.Keys && EdgeClosed(edges, s) ==> NearClosed(book, window, s))
  }

  lemma NearSymmetric(book: Book, window: int, a: Uid, b: Uid)
    ensures Near(book, window, a, b) == Near(book, window, b, a)
  {
    if a in book && b in book {
      assert book[a].entities * book[b].entities == book[b].entities * book[a].entities;
    }
  }

  lemma WalkStaysInside(book: Book, window: int, p: seq<Uid>, s: set<Uid>, i: nat)
    requires Walk(book, window, p) && NearClosed(book, window, s)
    requires p[0] in s && i < |p|
    ensures p[i] in s
  {
    if i > 0 {
      WalkStaysInside(book, window, p, s, i - 1);
      assert Near(book, window, p[i - 1], p[i]);
    }
  }

  lemma WalkExtends(book: Book, window: int, a: Uid, b: Uid, c: Uid)
    requires Linked(book, window, a, b) && Near(book, window, b, c)
    ensures Linked(book, window, a, c)
  {
    var p :| Walk(book, window, p) && p[0] == a && p[|p| - 1] == b;
    var q := p + [c];
    assert Walk(book, window, q);
    assert q[0] == a && q[|q| - 1] == c;
  }

  /** Inside a connected set of a graph whose edges are near pairs, everything is linked. */
  lemma ConnectedIsLinked(book: Book, window: int, edges: set<Edge>, c: set<Uid>, a: Uid, b: Uid)
    requires forall e :: e in edges ==> Near(book, window, e.0, e.1)
    requires Connected(edges, c) && c <= book.Keys && a in c && b in c
    ensures Linked(book, window, a, b)
  {
    var reach := set u | u in book.Keys && Linked(book, window, a, u);
    forall e | e in edges ensures e.0 in reach <==> e.1 in reach {
      NearSymmetric(book, window, e.0, e.1);
      if e.0 in reach { WalkExtends(book, window, a, e.0, e.1); }
      if e.1 in reach { WalkExtends(book, window, a, e.1, e.0); }
    }
    assert Walk(book, window, [a]) && [a][0] == a;
    assert a in reach * c;
  }

  /** A connected closed set of a faithful graph is a class of the declarative closure. */
  lemma ComponentIsChain(book: Book, window: int, edges: set<Edge>, c: set<Uid>)
    requires Faithful(book, window, edges)
    requires c != {} && c <= book.Keys && EdgeClosed(edges, c) && Connected(edges, c)
    ensures IsChain(book, window, c)
  {
    forall a, b | a in c ensures b in c <==> Linked(book, window, a, b) {
      if Linked(book, window, a, b) {
        var p :| Walk(book, window, p) && p[0] == a && p[|p| - 1] == b;
        WalkStaysInside(book, window, p, c, |p| - 1);
      }
      if b in c {
        ConnectedIsLinked(book, window, edges, c, a, b);
      }
    }
  }

  /** Connectivity survives adding edges. */
  lemma ConnectedGrows(edges: set<Edge>, more: set<Edge>, c: set<Uid>)
    requires Connected(edges, c) && edges <= more
    ensures Connected(more, c)
  {
    forall s: set<Uid> | EdgeClosed(more, s) && s * c != {} ensures c <= s {
      assert EdgeClosed(edges, s);
    }
  }

  /**
    Inserting an alert next to its timeline neighbours keeps the graph faithful: whatever the new
    alert is near on some entity, it already has an edge to something near that alert.
  */
  lemma InsertKeepsFaithful(book: Book, window: int, edges: set<Edge>, x: Uid, rec: Record, added: set<Edge>)
    requires Faithful(book, window, edges) && x !in book
    requires forall e :: e in added ==> (e.0 == x || e.1 == x) && Near(book[x := rec], window, e.0, e.1)
    requires forall b :: b != x && Near(book[x := rec], window, x, b) ==> Bridged(book, window, added, x, b)
    ensures Faithful(book[x := rec], window, edges + added)
  {
    var now := book[x := rec];
    forall e | e in edges + added ensures Near(now, window, e.0, e.1) {
      if e in edges { assert Near(book, window, e.0, e.1); }
    }
    forall s: set<Uid> | s <= now.Keys && EdgeClosed(edges + added, s) ensures NearClosed(now, window, s) {
      var t := s - {x};
      assert EdgeClosed(edges, t) by {
        forall e | e in edges ensures e.0 in t <==> e.1 in t {
          assert e in edges + added;
          assert Near(book, window, e.0, e.1);
        }
      }
      assert NearClosed(book, window, t);
      forall a, b | a in s && Near(now, window, a, b) ensures b in s {
        if a == x && b != x {
          BridgeCarries(book, window, edges, added, x, b, s);
        } else if b == x && a != x {
          NearSymmetric(now, window, a, b);
          BridgeCarries(book, window, edges, added, x, a, s);
        } else if a != x && b != x {
          assert Near(book, window, a, b);
        }
      }
    }
  }

  /** Some neighbour of `x` in the graph is near `b` (or is `b`). */
  ghost predicate Bridged(book: Book, window: int, added: set<Edge>, x: Uid, b: Uid) {
    exists p :: p != x && Near(book, window, b, p) && ((p, x) in added || (x, p) in added)
  }

  lemma BridgeCarries(book: Book, window: int, edges: set<Edge>, added: set<Edge>, x: Uid, b: Uid, s: set<Uid>)
    requires x !in book && b in book
    requires Bridged(book, window, added, x, b)
    requires EdgeClosed(edges + added, s) && NearClosed(book, window, s - {x})
    ensures x in s <==> b in s
  {
    var p :| p != x && Near(book, window, b, p) && ((p, x) in added || (x, p) in added);
    NearSymmetric(book, window, b, p);
    if (p, x) in added {
      assert (p, x) in edges + added;
    } else {
      assert (x, p) in edges + added;
    }
    assert p in s <==> x in s;
  }

  /**
    Removing an alert without bridging the gap it leaves keeps the graph faithful, provided the
    rest of its component hangs together without it.
  */
  lemma DetachKeepsFaithful(book: Book, window: int, edges: set<Edge>, x: Uid, c: set<Uid>)
    requires Faithful(book, window, edges)
    requires x in c && c <= book.Keys && EdgeClosed(edges, c)
    requires Connected(Without(edges, x), c - {x})
    ensures Faithful(book - {x}, window, Without(edges, x))
  {
    var less, rest, others := book - {x}, Without(edges, x), c - {x};
    forall e | e in rest ensures Near(less, window, e.0, e.1) {
      assert Near(book, window, e.0, e.1);
    }
    forall s: set<Uid> | s <= less.Keys && EdgeClosed(rest, s) ensures NearClosed(less, window, s) {
      var t := if s * others != {} then s + {x} else s;
      forall e | e in edges ensures e.0 in t <==> e.1 in t {
        assert e.0 in c <==> e.1 in c;
        if e in rest {
        } else if e.0 == x {
          assert e.1 in c;
        } else {
          assert e.0 in c;
        }
      }
      assert t <= book.Keys && EdgeClosed(edges, t);
      assert NearClosed(book, window, t);
      forall a, b | a in s && Near(less, window, a, b) ensures b in s {
        assert Near(book, window, a, b);
      }
    }
  }

  function Without(edges: set<Edge>, x: Uid): (rest: set<Edge>) {
    set e | e in edges && e.0 != x && e.1 != x
  }

  function Apart(edges: set<Edge>, gone: set<Uid>): set<Edge> {
    set e | e in edges && e.0 !in gone && e.1 !in gone
  }

  /** Removing a union of whole components keeps the graph faithful. */
  lemma DropKeepsFaithful(book: Book, window: int, edges: set<Edge>, gone: set<Uid>)
    requires Faithful(book, window, edges) && gone <= book.Keys && EdgeClosed(edges, gone)
    ensures Faithful(book - gone, window, Apart(edges, gone))
  {
    var kept := Apart(edges, gone);
    forall e | e in kept ensures Near(book - gone, window, e.0, e.1) {
      assert Near(book, window, e.0, e.1);
    }
    forall s: set<Uid> | s <= (book - gone).Keys && EdgeClosed(kept, s) ensures NearClosed(book - gone, window, s) {
      forall e | e in edges ensures e.0 in s <==> e.1 in s {
        assert e.0 in gone <==> e.1 in gone;
        if e.0 !in gone { assert e in kept; }
      }
      assert NearClosed(book, window, s);
      forall a, b | a in s && Near(book - gone, window, a, b) ensures b in s {
        assert Near(book, window, a, b);
      }
    }
  }

  /** Breadth-first search; the networkx connected-component call. */
  method Component(nodes: set<Uid>, edges: set<Edge>, start: Uid) returns (c: set<Uid>)
    requires start in nodes
    requires forall e :: e in edges ==> e.0 in nodes && e.1 in nodes
    ensures start in c && c <= nodes
    ensures EdgeClosed(edges, c) && Connected(edges, c)
  {
    c := {start};
    var frontier := {start};
    while frontier != {}
      invariant start in c && frontier <= c <= nodes
      invariant forall e :: e in edges && e.0 in c && e.0 !in frontier ==> e.1 in c
      invariant forall e :: e in edges && e.1 in c && e.1 !in frontier ==> e.0 in c
      invariant forall s: set<Uid> :: EdgeClosed(edges, s) && start in s ==> c <= s
      decreases nodes - c, frontier
    {
      NonEmpty(frontier);
      var u :| u in frontier;
      var next := set v | v in nodes && v !in c && ((u, v) in edges || (v, u) in edges);
      ghost var before := c;
      forall s: set<Uid> | EdgeClosed(edges, s) && start in s ensures c + next <= s {
        forall v | v in next ensures v in s {
          assert u in s;
          if (u, v) in edges { assert (u, v).0 in s <==> (u, v).1 in s; }
          else { assert (v, u).0 in s <==> (v, u).1 in s; }
        }
      }
      forall e | e in edges && (e.0 == u || e.1 == u) ensures e.0 in c + next && e.1 in c + next {
        assert e == (e.0, e.1);
      }
      if next == {} { assert frontier - {u} < frontier; } else {
        NonEmpty(next);
        var v :| v in next;
        assert v in nodes - before && v !in nodes - (before + next);
        assert nodes - (before + next) < nodes - before;
      }
      c := c + next;
      frontier := frontier - {u} + next;
    }
    forall s: set<Uid> | EdgeClosed(edges, s) && s * c != {} ensures c <= s {
      var t := c - s;
      assert EdgeClosed(edges, t);
      NonEmpty(s * c);
      var meet :| meet in s * c;
      assert meet in c && meet !in t && start !in t;
    }
  }
}
