/**
  Whole runs of the correlation engine: the closure theorem in every reachable state, and
  arrival order and evaluation timing that do not matter.
*/
module Runs {
  import opened Chains
  import opened ClusterIds
  import opened Timelines
  import opened Clusters
  import opened Engine

  datatype Step =
    | AddStep(alert: Alert)
    | EvaluateStep(flush: bool, resolve: Alert -> Entities)
    | ReviseStep(revised: Alert, entities: Entities)
    | PruneStep(cutoff: int)

  /** Any run, from any valid state, ends with the chains equal to the closure classes. */
  method Run(e: CorrelationEngine, steps: seq<Step>)
    requires e.Valid()
    modifies e, e.ids
    ensures e.Valid()
    ensures IsPartition(e.Known(), e.window, e.Chains())
    ensures forall u :: u in e.alerts ==> e.FiledOnce(u)
  {
    for i := 0 to |steps|
      invariant e.Valid()
    {
      match steps[i] {
        case AddStep(a) => e.Add(a);
        case EvaluateStep(flush, resolve) => e.Evaluate(flush, resolve);
        case ReviseStep(a, ents) => var r := e.Revise(a, ents);
        case PruneStep(cutoff) => var n := e.PruneBefore(cutoff);
      }
    }
    e.ChainsAreTheClosure();
  }

  // ---------------------------------------------------------------------------------------------
  // Confluence
  // ---------------------------------------------------------------------------------------------

  datatype Arrival = Arrive(alert: Alert) | Tick(flush: bool)

  /** Everything taken in so far, correlated or not: the first alert of each uid. */
  function Pool(run: seq<Arrival>, resolve: Alert -> Entities): Book {
    if run == [] then map[]
    else
      var before, last := Pool(run[..|run| - 1], resolve), run[|run| - 1];
      if last.Arrive? && last.alert.uid !in before
      then before[last.alert.uid := RecordFor(last.alert, resolve(last.alert))]
      else before
  }

  function Arrived(run: seq<Arrival>): set<Alert> {
    set i | 0 <= i < |run| && run[i].Arrive? :: run[i].alert
  }

  ghost predicate DistinctUids(alerts: set<Alert>) {
    forall a, b :: a in alerts && b in alerts && a.uid == b.uid ==> a == b
  }

  lemma {:induction false} PoolFacts(run: seq<Arrival>, resolve: Alert -> Entities)
    requires DistinctUids(Arrived(run))
    ensures forall a :: a in Arrived(run) ==>
      a.uid in Pool(run, resolve) && Pool(run, resolve)[a.uid] == RecordFor(a, resolve(a))
    ensures forall u :: u in Pool(run, resolve) ==> exists a :: a in Arrived(run) && a.uid == u
  {
    if run != [] {
      var n := |run| - 1;
      var init, last := run[..n], run[n];
      assert Arrived(run) == Arrived(init) + (if last.Arrive? then {last.alert} else {}) by {
        forall a | a in Arrived(run) && !(last.Arrive? && a == last.alert) ensures a in Arrived(init) {
          var i :| 0 <= i < |run| && run[i].Arrive? && run[i].alert == a;
          assert init[i] == run[i];
        }
        forall a | a in Arrived(init) ensures a in Arrived(run) {
          var i :| 0 <= i < |init| && init[i].Arrive? && init[i].alert == a;
          assert init[i] == run[i];
        }
      }
      PoolFacts(init, resolve);
    }
  }

  /** What was taken in depends on the alerts, not on the order they came in or were evaluated. */
  lemma PoolIsOrderFree(p: seq<Arrival>, q: seq<Arrival>, resolve: Alert -> Entities)
    requires Arrived(p) == Arrived(q) && DistinctUids(Arrived(p))
    ensures Pool(p, resolve) == Pool(q, resolve)
  {
    PoolFacts(p, resolve);
    PoolFacts(q, resolve);
    var x, y := Pool(p, resolve), Pool(q, resolve);
    forall u ensures u in x <==> u in y {
      if u in x {
        var a :| a in Arrived(p) && a.uid == u;
      }
      if u in y {
        var a :| a in Arrived(q) && a.uid == u;
      }
    }
    forall u | u in x ensures x[u] == y[u] {
      var a :| a in Arrived(p) && a.uid == u;
    }
  }

  /** Two runs over the same alerts end in the same chains. */
  lemma Confluence(p: seq<Arrival>, q: seq<Arrival>, resolve: Alert -> Entities, window: int,
                   chainsP: set<set<Uid>>, chainsQ: set<set<Uid>>)
    requires Arrived(p) == Arrived(q) && DistinctUids(Arrived(p))
    requires IsPartition(Pool(p, resolve), window, chainsP)
    requires IsPartition(Pool(q, resolve), window, chainsQ)
    ensures chainsP == chainsQ
  {
    PoolIsOrderFree(p, q, resolve);
    PartitionUnique(Pool(p, resolve), window, chainsP, chainsQ);
  }

  lemma {:induction false} EnterKeys(book: Book, due: seq<Alert>, resolve: Alert -> Entities)
    ensures Enter(book, due, resolve).Keys == book.Keys + UidsOf(due)
  {
    if due != [] {
      var n := |due| - 1;
      EnterKeys(book, due[..n], resolve);
      assert due == due[..n] + [due[n]];
    }
  }

  /** A batch leaves the records of other alerts alone. */
  lemma {:induction false} EnterOld(book: Book, due: seq<Alert>, resolve: Alert -> Entities, u: Uid)
    requires u in book && u !in UidsOf(due)
    ensures u in Enter(book, due, resolve) && Enter(book, due, resolve)[u] == book[u]
  {
    if due != [] {
      var n := |due| - 1;
      assert due == due[..n] + [due[n]];
      assert due[n] in due && due[n].uid in UidsOf(due);
      assert UidsOf(due[..n]) <= UidsOf(due);
      EnterOld(book, due[..n], resolve, u);
    }
  }

  /** A batch records each of its alerts. */
  lemma {:induction false} EnterNew(book: Book, due: seq<Alert>, resolve: Alert -> Entities, i: nat)
    requires i < |due| && forall j, k :: 0 <= j < k < |due| ==> due[j].uid != due[k].uid
    ensures due[i].uid in Enter(book, due, resolve)
    ensures Enter(book, due, resolve)[due[i].uid] == RecordFor(due[i], resolve(due[i]))
  {
    var n := |due| - 1;
    if i < n {
      EnterNew(book, due[..n], resolve, i);
    }
  }

  lemma EnterFacts(book: Book, due: seq<Alert>, resolve: Alert -> Entities)
    requires Batch(due, book.Keys)
    ensures Enter(book, due, resolve).Keys == book.Keys + UidsOf(due)
    ensures forall a :: a in due ==>
      a.uid in Enter(book, due, resolve) && Enter(book, due, resolve)[a.uid] == RecordFor(a, resolve(a))
    ensures forall u :: u in book ==> u in Enter(book, due, resolve) && Enter(book, due, resolve)[u] == book[u]
  {
    hide Enter, UidsOf;
    EnterKeys(book, due, resolve);
    forall a | a in due
      ensures a.uid in Enter(book, due, resolve) && Enter(book, due, resolve)[a.uid] == RecordFor(a, resolve(a))
    {
      var i :| 0 <= i < |due| && due[i] == a;
      EnterNew(book, due, resolve, i);
    }
    forall u | u in book ensures u in Enter(book, due, resolve) && Enter(book, due, resolve)[u] == book[u] {
      EnterOld(book, due, resolve, u);
    }
  }

  /** Correlated plus buffered. */
  ghost function Taken(e: CorrelationEngine, resolve: Alert -> Entities): Book
    reads e
  {
    Enter(e.Known(), e.buffer, resolve)
  }

  lemma BufferIsBatch(buffer: seq<Alert>, uids: set<Uid>, known: set<Uid>)
    requires BufferOk(buffer, uids) && uids !! known
    ensures Batch(buffer, known)
  {
    DistinctReady(buffer);
  }

  lemma TakenAfterAdd(book: Book, before: seq<Alert>, after: seq<Alert>, a: Alert, resolve: Alert -> Entities)
    requires Batch(before, book.Keys) && Batch(after, book.Keys)
    requires forall b :: b in after <==> b == a || b in before
    requires a.uid !in UidsOf(before) && a.uid !in book
    ensures Enter(book, after, resolve) == Enter(book, before, resolve)[a.uid := RecordFor(a, resolve(a))]
  {
    hide Enter, Batch;
    EnterFacts(book, before, resolve);
    EnterFacts(book, after, resolve);
    var x, y := Enter(book, after, resolve), Enter(book, before, resolve)[a.uid := RecordFor(a, resolve(a))];
    assert UidsOf(after) == UidsOf(before) + {a.uid};
    forall u | u in x ensures x[u] == y[u] {
      if u !in book {
        var b :| b in after && b.uid == u;
      }
    }
  }

  lemma TakenAfterEvaluate(book: Book, buffer: seq<Alert>, ready: seq<Alert>, later: seq<Alert>, resolve: Alert -> Entities)
    requires Batch(buffer, book.Keys) && Batch(ready, book.Keys) && Batch(later, book.Keys + UidsOf(ready))
    requires forall a :: a in buffer <==> a in ready || a in later
    ensures Enter(Enter(book, ready, resolve), later, resolve) == Enter(book, buffer, resolve)
  {
    hide Enter, Batch;
    var mid := Enter(book, ready, resolve);
    EnterFacts(book, buffer, resolve);
    EnterFacts(book, ready, resolve);
    EnterFacts(mid, later, resolve);
    var x, y := Enter(mid, later, resolve), Enter(book, buffer, resolve);
    assert UidsOf(buffer) == UidsOf(ready) + UidsOf(later);
    forall u | u in x ensures x[u] == y[u] {
      if u in book {
        assert u in mid;
      } else {
        var b :| b in buffer && b.uid == u;
        assert b in ready ==> b.uid in mid;
      }
    }
  }

  /** Run arrivals and evaluations in the given order, then flush. */
  method Replay(e: CorrelationEngine, run: seq<Arrival>, resolve: Alert -> Entities)
    requires e.Valid() && e.Known() == map[] && e.buffer == []
    modifies e, e.ids
    ensures e.Valid() && e.buffer == []
    ensures e.Known() == Pool(run, resolve)
    ensures IsPartition(Pool(run, resolve), e.window, e.Chains())
  {
    for i := 0 to |run|
      invariant e.Valid() && Taken(e, resolve) == Pool(run[..i], resolve)
    {
      assert run[..i + 1][..i] == run[..i];
      match run[i] {
        case Arrive(a) => AddOne(e, a, resolve);
        case Tick(flush) => EvaluateOnce(e, flush, resolve);
      }
    }
    assert run[..|run|] == run;
    EvaluateOnce(e, true, resolve);
    e.ChainsAreTheClosure();
  }

  method AddOne(e: CorrelationEngine, a: Alert, resolve: Alert -> Entities)
    requires e.Valid()
    modifies e
    ensures e.Valid()
    ensures Taken(e, resolve) == if a.uid in old(Taken(e, resolve)) then old(Taken(e, resolve))
      else old(Taken(e, resolve))[a.uid := RecordFor(a, resolve(a))]
  {
    hide Blocks, Faithful, Indexes, Anchored, Covers, Injective, Climbing, BufferOk, Batch, BookOf, UidsOf;
    ghost var book, before := e.Known(), e.buffer;
    e.KnownKeys();
    BufferIsBatch(before, e.bufferedUids, book.Keys);
    EnterFacts(book, before, resolve);
    BufferUids(before, e.bufferedUids);
    e.Add(a);
    BufferIsBatch(e.buffer, e.bufferedUids, book.Keys);
    assert e.Known() == book;
    if a.uid !in Enter(book, before, resolve) {
      TakenAfterAdd(book, before, e.buffer, a, resolve);
    }
  }

  lemma BufferUids(buffer: seq<Alert>, uids: set<Uid>)
    requires BufferOk(buffer, uids)
    ensures uids == UidsOf(buffer)
  {
  }

  method EvaluateOnce(e: CorrelationEngine, flush: bool, resolve: Alert -> Entities)
    requires e.Valid()
    modifies e, e.ids
    ensures e.Valid()
    ensures Taken(e, resolve) == old(Taken(e, resolve))
    ensures flush ==> e.buffer == [] && e.Known() == Taken(e, resolve)
  {
    hide Blocks, Faithful, Indexes, Anchored, Covers, Injective, Climbing, BufferOk, Batch, BookOf, UidsOf;
    ghost var book, before := e.Known(), e.buffer;
    ghost var ready := Select(before, DueTest(flush, e.maxEventTime, e.grace));
    e.KnownKeys();
    BufferIsBatch(before, e.bufferedUids, book.Keys);
    SplitBuffer(before, e.bufferedUids, book.Keys, flush, e.maxEventTime, e.grace);
    EnterFacts(book, ready, resolve);
    e.Evaluate(flush, resolve);
    LaterIsBatch(e.buffer, book.Keys, ready);
    TakenAfterEvaluate(book, before, ready, e.buffer, resolve);
    if flush {
      assert forall a :: a !in e.buffer;
    }
  }

  lemma LaterIsBatch(later: seq<Alert>, known: set<Uid>, ready: seq<Alert>)
    requires BufferOk(later, UidsOf(later)) && UidsOf(later) !! known + UidsOf(ready)
    ensures Batch(later, known + UidsOf(ready))
  {
    DistinctReady(later);
  }

  /** Two engines, two arrival orders, any evaluations in between: the same chains. */
  method ReplayBoth(e: CorrelationEngine, f: CorrelationEngine, p: seq<Arrival>, q: seq<Arrival>, resolve: Alert -> Entities)
    requires {e, e.ids} !! {f, f.ids} && e.window == f.window
    requires e.Valid() && e.Known() == map[] && e.buffer == []
    requires f.Valid() && f.Known() == map[] && f.buffer == []
    requires Arrived(p) == Arrived(q) && DistinctUids(Arrived(p))
    modifies e, e.ids, f, f.ids
    ensures e.Valid() && f.Valid() && e.Chains() == f.Chains()
  {
    hide Blocks, Faithful, Indexes, Anchored, Covers, Injective, Climbing, BufferOk, BookOf, IsPartition, Pool, Arrived, DistinctUids;
    Replay(e, p, resolve);
    Replay(f, q, resolve);
    Confluence(p, q, resolve, e.window, e.Chains(), f.Chains());
  }

  // ---------------------------------------------------------------------------------------------
  // Repeated revisions
  // ---------------------------------------------------------------------------------------------

  /** A revision that was taken over is known from then on: sending it again changes nothing. Otherwise the answer stays the same. */
  method ReviseTwice(e: CorrelationEngine, a: Alert, ents: Entities) returns (first: Revision, second: Revision)
    requires e.Valid()
    modifies e, e.ids
    ensures e.Valid()
    ensures first.kind in {Unchanged, Rescored, Reclustered} ==> second.kind == Unchanged && a.uid in e.alerts && e.alerts[a.uid] == a
    ensures first.kind in {Buffered, Unknown, Review} ==> second.kind == first.kind
  {
    hide Blocks, Faithful, Indexes, Anchored, Covers, Injective, Climbing, BufferOk, BookOf, MayMove;
    first := e.Revise(a, ents);
    second := e.Revise(a, ents);
  }
}
