/**
  Ingestion as a whole: pages are committed, batches of work are fed to the pipeline, old payloads are
  purged, and the process may die and restart between any two transactions.
*/
module Ingestion {
  import opened LedgerModel
  import opened Ledgers
  import opened Pipelines

  /** The item exists exactly if its revision is one of a detection that is no duplicate; then it is bounded, and has its payload until resolved. */
  ghost predicate Accounted(l: Ledger, k: Key)
    reads l
  {
    && (k in l.work <==> k.id in l.history && WantedOf(l, k))
    && (k in l.work ==>
      && k in l.fails && l.fails[k] <= MaxAttempts
      && (k.id, k.revision) in l.revisions && l.revisions[(k.id, k.revision)].hash == Stored(l.history[k.id])[k.revision - 1]
      && (l.work[k].state == Processed || l.work[k].state == Quarantined || l.revisions[(k.id, k.revision)].kept)
      && (l.work[k].state == Quarantined ==> l.work[k].attempts >= MaxAttempts))
  }

  ghost predicate WantedOf(l: Ledger, k: Key)
    requires k.id in l.history
    reads l
  {
    && k.id in l.events && k.id.detection && l.events[k.id].duplicateOf.None? && 1 <= k.revision <= |Stored(l.history[k.id])|
    && k.operation == (if k.revision == 1 then Correlate else Revise)
  }

  /** Every revision of a detection that is no duplicate has exactly one work item, and nothing else has. */
  lemma OneItemPerRevision(l: Ledger, k: Key)
    requires l.Valid()
    ensures Accounted(l, k)
  {
    hide Stored;
    assert k in l.work <==> Wanted(l.events, k);
    assert k.id in l.events ==> RevisedOne(k.id, l.events[k.id], l.revisions, l.history[k.id]);
    assert k in l.work ==> Bounded(l.work[k], l.fails[k]);
  }

  predicate Resolved(s: WorkState) {
    s == Processed || s == Retryable || s == Quarantined
  }

  /** A processed row has had its effect in this process. */
  ghost predicate Effected(k: Key, log: seq<Fact>) {
    if k.operation == Correlate then Took(k.id) in log else Applied(k.id) in log
  }

  /** One item fed to the pipeline: what became of it there, and whether its id was remembered. */
  datatype Feeding = Feeding(id: Id, first: bool, verdict: Verdict, known: bool)

  function FeedingOf(k: Key, verdict: Verdict, known: bool): Feeding {
    Feeding(k.id, k.operation == Correlate, verdict, known)
  }

  /** The ids that entered the correlator: first versions that were new and passed. */
  ghost function Admitted(feeds: seq<Feeding>): multiset<Id> {
    if feeds == [] then multiset{}
    else
      var f := feeds[|feeds| - 1];
      Admitted(feeds[..|feeds| - 1]) + if f.first && f.verdict == Passes && !f.known then multiset{f.id} else multiset{}
  }

  /** The ids that were taken in: first versions that were new and did not raise. */
  ghost function TakenIn(feeds: seq<Feeding>): multiset<Id> {
    if feeds == [] then multiset{}
    else
      var f := feeds[|feeds| - 1];
      TakenIn(feeds[..|feeds| - 1]) + if f.first && f.verdict != Raises && !f.known then multiset{f.id} else multiset{}
  }

  lemma FedMore(feeds: seq<Feeding>, f: Feeding)
    ensures Admitted(feeds + [f]) == Admitted(feeds) + if f.first && f.verdict == Passes && !f.known then multiset{f.id} else multiset{}
    ensures TakenIn(feeds + [f]) == TakenIn(feeds) + if f.first && f.verdict != Raises && !f.known then multiset{f.id} else multiset{}
  {
    assert (feeds + [f])[..|feeds|] == feeds;
  }

  /** No first version of the id was suppressed. */
  ghost predicate NeverSuppressed(feeds: seq<Feeding>, id: Id) {
    forall i :: 0 <= i < |feeds| && feeds[i].first && feeds[i].id == id ==> feeds[i].verdict != Suppressed
  }

  /** Whoever was taken in without ever being suppressed entered the correlator each time. */
  lemma {:induction false} TakenInIsAdmitted(feeds: seq<Feeding>, id: Id)
    requires NeverSuppressed(feeds, id)
    ensures Admitted(feeds)[id] == TakenIn(feeds)[id]
  {
    if feeds != [] {
      var init := feeds[..|feeds| - 1];
      assert forall i :: 0 <= i < |init| ==> init[i] == feeds[i];
      TakenInIsAdmitted(init, id);
    }
  }

  ghost predicate FeedsOf(feeds: seq<Feeding>, rows: seq<Key>, verdict: Key -> Verdict) {
    |feeds| == |rows| && forall i :: 0 <= i < |rows| ==> feeds[i] == FeedingOf(rows[i], verdict(rows[i]), feeds[i].known)
  }

  lemma NothingFed(rows: seq<Key>, verdict: Key -> Verdict)
    ensures FeedsOf([], rows[..0], verdict) && Admitted([]) == multiset{}
  {
  }

  lemma OneMoreFeed(feeds: seq<Feeding>, f: Feeding, rows: seq<Key>, n: nat, verdict: Key -> Verdict)
    requires n < |rows| && FeedsOf(feeds, rows[..n], verdict) && f == FeedingOf(rows[n], verdict(rows[n]), f.known)
    ensures FeedsOf(feeds + [f], rows[..n + 1], verdict)
    ensures Admitted(feeds + [f]) == Admitted(feeds) + if f.first && f.verdict == Passes && !f.known then multiset{f.id} else multiset{}
  {
    FedMore(feeds, f);
    assert rows[..n + 1] == rows[..n] + [rows[n]];
  }

  /** How a handled row ended: a first version that did not raise is processed, a raising revision is not. */
  ghost predicate Handled(k: Key, work: Work, log: seq<Fact>, verdict: Verdict) {
    && k in work && Resolved(work[k].state) && (work[k].state == Processed ==> Effected(k, log))
    && (k.operation == Correlate && verdict != Raises ==> work[k].state == Processed)
    && (k.operation == Revise && verdict == Raises ==> work[k].state != Processed)
  }

  /** The first `n` rows are handled, the rest as they were claimed, all else as it was. */
  ghost predicate HandledUpTo(rows: seq<Key>, n: nat, claimed: Work, work: Work, log: seq<Fact>, verdict: Key -> Verdict)
    requires n <= |rows|
  {
    && work.Keys == claimed.Keys
    && (forall k :: k in claimed && k !in rows[..n] ==> work[k] == claimed[k])
    && (forall k :: k in rows[..n] ==> Handled(k, work, log, verdict(k)))
  }

  lemma HandledMore(rows: seq<Key>, n: nat, claimed: Work, was: Work, work: Work, before: seq<Fact>, log: seq<Fact>, verdict: Key -> Verdict)
    requires n < |rows| && Distinct(rows) && HandledUpTo(rows, n, claimed, was, before, verdict) && before <= log
    requires work.Keys == was.Keys && forall x :: x in was && x != rows[n] ==> work[x] == was[x]
    requires Handled(rows[n], work, log, verdict(rows[n]))
    ensures HandledUpTo(rows, n + 1, claimed, work, log, verdict)
  {
    hide Resolved;
    assert rows[..n + 1] == rows[..n] + [rows[n]];
    StillEffected(before, log);
    forall k | k in rows[..n] ensures Handled(k, work, log, verdict(k)) {
      assert Handled(k, was, before, verdict(k));
    }
  }

  /** One row of the batch. */
  method HandleRow(l: Ledger, p: Pipeline, rows: seq<Key>, n: nat, ghost claimed: Work, verdict: Key -> Verdict, retryAt: int,
                   ghost feeds: seq<Feeding>, ghost entered: multiset<Id>) returns (ghost more: seq<Feeding>)
    requires l.Valid() && p.Valid() && n < |rows| && Distinct(rows)
    requires forall k :: k in rows ==> k in claimed && claimed[k].state == Claimed
    requires HandledUpTo(rows, n, claimed, l.work, p.log, verdict)
    requires FeedsOf(feeds, rows[..n], verdict) && p.entered == entered + Admitted(feeds)
    modifies l`work, l`fails, p
    ensures l.Valid() && p.Valid() && old(p.log) <= p.log
    ensures HandledUpTo(rows, n + 1, claimed, l.work, p.log, verdict)
    ensures FeedsOf(more, rows[..n + 1], verdict) && p.entered == entered + Admitted(more)
  {
    hide Revised, AliasesOk, HandedOver, AttemptsBounded, PayloadsKept, Conserved, InOrder, NoRepeats, Handled, Due, Intakes, Times, FeedsOf, Admitted;
    assert rows[n] !in rows[..n] && rows[n] in rows;
    ghost var was, before := l.work, p.log;
    ghost var f := FeedingOf(rows[n], verdict(rows[n]), rows[n].id in p.seen);
    OneMoreFeed(feeds, f, rows, n, verdict);
    HandleItem(l, p, rows[n], verdict(rows[n]), retryAt);
    more := feeds + [f];
    HandledMore(rows, n, claimed, was, l.work, before, p.log, verdict);
  }

  /** Claim a batch and feed it to the pipeline; no claimed item is left hanging, none lacks its payload. */
  method ProcessBatch(l: Ledger, p: Pipeline, now: int, limit: nat, lease: int, verdict: Key -> Verdict, retryAt: int) returns (rows: seq<Key>, ghost feeds: seq<Feeding>)
    requires l.Valid() && p.Valid()
    modifies l`work, l`fails, p
    ensures l.Valid() && p.Valid() && old(p.log) <= p.log
    ensures forall k :: k in rows ==> Handled(k, l.work, p.log, verdict(k))
    ensures FeedsOf(feeds, rows, verdict) && p.entered == old(p.entered) + Admitted(feeds)
    ensures l.work.Keys == old(l.work).Keys && forall k :: k in old(l.work) && k !in rows ==> l.work[k] == old(l.work)[k]
  {
    hide Revised, AliasesOk, HandedOver, AttemptsBounded, PayloadsKept, Conserved, InOrder, NoRepeats, Handled, Due, Intakes, Times, FeedsOf, Admitted;
    rows := l.ClaimBatch(now, limit, lease);
    ghost var claimed := l.work;
    assert forall k :: k in rows ==> k in claimed && claimed[k].state == Claimed;
    feeds := [];
    ghost var entered := p.entered;
    NothingFed(rows, verdict);
    for n := 0 to |rows|
      invariant l.Valid() && p.Valid() && old(p.log) <= p.log
      invariant HandledUpTo(rows, n, claimed, l.work, p.log, verdict)
      invariant FeedsOf(feeds, rows[..n], verdict) && p.entered == entered + Admitted(feeds)
    {
      feeds := HandleRow(l, p, rows, n, claimed, verdict, retryAt, feeds, entered);
    }
    assert rows[..|rows|] == rows;
  }

  /** One claimed item: its payload is opened and handled, and the item is acknowledged or fails. */
  method HandleItem(l: Ledger, p: Pipeline, k: Key, verdict: Verdict, retryAt: int)
    requires l.Valid() && p.Valid() && k in l.work && l.work[k].state == Claimed
    modifies l`work, l`fails, p
    ensures l.Valid() && p.Valid() && old(p.log) <= p.log
    ensures l.work.Keys == old(l.work).Keys && k in l.work && forall x :: x in old(l.work) && x != k ==> l.work[x] == old(l.work)[x]
    ensures Handled(k, l.work, p.log, verdict)
    ensures k.operation == Revise ==> (l.work[k].state == Processed <==> k.id in old(p.seen) && verdict != Raises)
    ensures k.operation == Correlate ==> (l.work[k].state == Processed <==> k.id in old(p.seen) || verdict != Raises)
    ensures p.entered == if k.operation == Correlate && k.id !in old(p.seen) && verdict == Passes then old(p.entered) + multiset{k.id} else old(p.entered)
  {
    hide Revised, AliasesOk, HandedOver, AttemptsBounded, PayloadsKept, Conserved, InOrder, NoRepeats, Effected;
    PayloadIsThere(l.revisions, l.work, k);
    var raised := Handle(p, k, verdict);
    if raised {
      var _ := l.Fail(k, retryAt);
    } else {
      l.Ack(k);
    }
  }

  /**
    A first version is processed, a later one revises. A first version raises only if it is new and
    handling it raises; it enters the correlator exactly if it is new and passes.
  */
  method Handle(p: Pipeline, k: Key, verdict: Verdict) returns (raised: bool)
    requires p.Valid()
    modifies p
    ensures p.Valid() && old(p.log) <= p.log
    ensures !raised ==> Effected(k, p.log)
    ensures k.operation == Correlate ==>
      && (raised <==> k.id !in old(p.seen) && verdict == Raises)
      && p.entered == (if k.id !in old(p.seen) && verdict == Passes then old(p.entered) + multiset{k.id} else old(p.entered))
      && p.log == (if k.id in old(p.seen) || raised then old(p.log) else old(p.log) + [Took(k.id)])
    ensures k.operation == Revise ==>
      && (raised <==> k.id !in old(p.seen) || verdict == Raises)
      && p.entered == old(p.entered) && p.log == (if raised then old(p.log) else old(p.log) + [Applied(k.id)])
  {
    hide InOrder, Intakes;
    if k.operation == Revise {
      raised := p.Revise(k.id, verdict);
    } else {
      SeenWasTaken(p.log, p.seen, p.dropped, k.id);
      raised := p.Process(k.id, verdict);
    }
  }

  lemma SeenWasTaken(log: seq<Fact>, seen: seq<Id>, dropped: multiset<Id>, id: Id)
    requires Conserved(log, seen, dropped)
    ensures id in seen ==> Took(id) in log
  {
    if id in seen {
      assert multiset(seen)[id] > 0;
      TimesPositive(log, id);
    }
  }

  lemma StillEffected(before: seq<Fact>, after: seq<Fact>)
    requires before <= after
    ensures forall k: Key :: Effected(k, before) ==> Effected(k, after)
  {
  }

  lemma PayloadIsThere(revisions: Revisions, work: Work, k: Key)
    requires PayloadsKept(revisions, work) && k in work && Unresolved(work[k].state)
    ensures (k.id, k.revision) in revisions && revisions[(k.id, k.revision)].kept
  {
  }

  /** Every id replayed so far was taken in unless it raised, entered the correlator if it passed, and nothing else did. */
  ghost predicate Replayed(done: seq<Id>, verdict: Id -> Verdict, log: seq<Fact>, entered: multiset<Id>) {
    && (forall id :: id in done && verdict(id) != Raises ==> Took(id) in log)
    && (forall id :: Took(id) in log ==> id in done && (verdict(id) == Passes ==> entered[id] >= 1))
    && (forall id :: entered[id] > 0 ==> id in done)
  }

  ghost predicate Remembered(log: seq<Fact>, seen: seq<Id>) {
    forall id :: Took(id) in log ==> id in seen
  }

  lemma NothingReplayed(verdict: Id -> Verdict)
    ensures Replayed([], verdict, [], multiset{}) && Remembered([], [])
  {
  }

  lemma ReplayedMore(done: seq<Id>, id: Id, verdict: Id -> Verdict, log: seq<Fact>, entered: multiset<Id>, seen: seq<Id>)
    requires Replayed(done, verdict, log, entered)
    ensures Took(id) in log || verdict(id) == Raises ==> Replayed(done + [id], verdict, log, entered)
    ensures verdict(id) != Raises ==>
      Replayed(done + [id], verdict, log + [Took(id)], if verdict(id) == Passes then entered + multiset{id} else entered)
    ensures Remembered(log, seen) ==> Remembered(log + [Took(id)], seen + [id])
  {
  }

  /** One more detection of recent history. */
  method ReplayOne(p: Pipeline, done: seq<Id>, id: Id, verdict: Id -> Verdict)
    requires p.Valid() && Replayed(done, verdict, p.log, p.entered)
    modifies p
    ensures p.Valid() && Replayed(done + [id], verdict, p.log, p.entered)
    ensures Intakes(p.log) <= Intakes(old(p.log)) + 1 && |p.seen| <= |old(p.seen)| + 1
    ensures |old(p.seen)| < p.maxSeen && Remembered(old(p.log), old(p.seen)) ==> Remembered(p.log, p.seen)
  {
    hide Conserved, InOrder, NoRepeats, Times, Replayed, Remembered;
    LogMore(p.log, Took(id), id);
    SeenWasTaken(p.log, p.seen, p.dropped, id);
    ReplayedMore(done, id, verdict, p.log, p.entered, p.seen);
    var _ := p.Process(id, verdict(id));
  }

  /** A new process: recent history is replayed into an empty pipeline, then interrupted work is released. */
  method Restart(l: Ledger, bound: nat, replayed: seq<Id>, verdict: Id -> Verdict) returns (p: Pipeline)
    requires l.Valid()
    modifies l`work
    ensures l.Valid() && l.work == Recovered(old(l.work))
    ensures fresh(p) && p.Valid() && p.maxSeen == bound
    ensures |replayed| <= bound ==> forall id :: p.entered[id] <= 1
    ensures Replayed(replayed, verdict, p.log, p.entered) && (|replayed| <= bound ==> Remembered(p.log, p.seen))
  {
    hide Revised, AliasesOk, HandedOver, AttemptsBounded, PayloadsKept, Conserved, InOrder, NoRepeats, Replayed, Remembered;
    p := new Pipeline(bound);
    NothingReplayed(verdict);
    assert replayed[..0] == [];
    for n := 0 to |replayed|
      invariant fresh(p) && p.Valid() && p.maxSeen == bound && Intakes(p.log) <= n
      invariant l.Valid() && l.work == old(l.work)
      invariant Replayed(replayed[..n], verdict, p.log, p.entered) && |p.seen| <= n && (|replayed| <= bound ==> Remembered(p.log, p.seen))
    {
      assert replayed[..n + 1] == replayed[..n] + [replayed[n]];
      ReplayOne(p, replayed[..n], replayed[n], verdict);
    }
    assert replayed[..|replayed|] == replayed;
    hide Replayed, Remembered;
    if |replayed| <= bound {
      forall id ensures p.entered[id] <= 1 { p.EntersOnce(id); }
    }
    l.RecoverClaimed();
  }

  // ---------------------------------------------------------------------------------------------
  // The running system, one transaction or one pipeline call at a time
  // ---------------------------------------------------------------------------------------------

  /** Where the worker stands; a crash loses this, and the pipeline with it. */
  datatype Worker = Down | Busy(rows: seq<Key>) | Fed(item: Key, raised: bool, rows: seq<Key>)

  function Rows(w: Worker): seq<Key> {
    match w
    case Down => []
    case Busy(rows) => rows
    case Fed(item, _, rows) => [item] + rows
  }

  /** What the worker holds is claimed, each item once. */
  ghost predicate InFlight(work: Work, w: Worker) {
    Distinct(Rows(w)) && forall k :: k in Rows(w) ==> k in work && work[k].state == Claimed
  }

  /** One step: a transaction, a call into the pipeline, or a failure of the process or of one cycle. */
  datatype Event =
    | Page(stream: (string, string), items: seq<PageItem>, next: Option<Cursor>, now: int)
    | Claim(now: int, limit: nat, lease: int)
    | Feed(verdict: Verdict)
    | Settle(retryAt: int)
    | Abandon
    | Purge(cutoff: int)
    | Crash
    | Replay(id: Id, outcome: Verdict)
    | Resume

  class Runtime {
    const ledger: Ledger
    const bound: nat
    var pipeline: Pipeline
    var worker: Worker
    /** Items acknowledged since this process started. */
    ghost var acked: set<Key>
    /** What this process fed to the pipeline, in order. */
    ghost var feeds: seq<Feeding>

    ghost predicate Valid()
      reads this, ledger, pipeline
    {
      && ledger.Valid() && pipeline.Valid() && pipeline.maxSeen == bound
      && InFlight(ledger.work, worker)
      && (worker.Fed? && !worker.raised ==> Effected(worker.item, pipeline.log))
      && (forall k :: k in acked ==> k in ledger.work && ledger.work[k].state == Processed && Effected(k, pipeline.log))
      && FedExactly(feeds, pipeline.log, pipeline.entered)
    }

    constructor (bound: nat)
      ensures Valid() && fresh(ledger) && fresh(pipeline) && this.bound == bound && ledger.history == map[]
    {
      ledger := new Ledger();
      this.bound := bound;
      pipeline := new Pipeline(bound);
      worker, acked, feeds := Down, {}, [];
    }

    /** A page of a source is committed. */
    method CommitPage(stream: (string, string), items: seq<PageItem>, next: Option<Cursor>, now: int)
      requires Valid()
      modifies ledger
      ensures Valid() && ledger.history == AllDelivered(old(ledger.history), items)
    {
      hide Revised, AliasesOk, HandedOver, AttemptsBounded, PayloadsKept, Conserved, InOrder, NoRepeats, Effected;
      var _ := ledger.CommitPage(stream, items, next, now);
    }

    /** The idle worker claims a batch, items whose lease ran out included. */
    method ClaimBatch(now: int, limit: nat, lease: int)
      requires Valid()
      modifies this`worker, ledger`work
      ensures Valid()
      ensures old(worker) != Busy([]) ==> worker == old(worker) && ledger.work == old(ledger.work)
      ensures old(worker) == Busy([]) ==>
        && worker.Busy? && ledger.work == Taken(old(ledger.work), worker.rows, now + lease)
        && (forall k :: k in worker.rows ==> k in old(ledger.work) && Due(old(ledger.work)[k], now))
        && (|worker.rows| < limit ==> forall k :: k in old(ledger.work) && Due(old(ledger.work)[k], now) ==> k in worker.rows)
    {
      hide Revised, AliasesOk, HandedOver, AttemptsBounded, PayloadsKept, Conserved, InOrder, NoRepeats, Effected, Due;
      if worker == Busy([]) {
        ghost var before := ledger.work;
        var rows := ledger.ClaimBatch(now, limit, lease);
        ProcessedIsNotDue(before, now, rows);
        worker := Busy(rows);
      }
    }

    /** The next claimed item goes through the pipeline; its payload is still there. */
    method Feed(verdict: Verdict)
      requires Valid()
      modifies this`worker, this`feeds, pipeline
      ensures Valid()
      ensures old(worker).Busy? && old(worker).rows != [] ==>
        && worker.Fed? && worker.item == old(worker).rows[0] && worker.rows == old(worker).rows[1..]
        && feeds == old(feeds) + [FeedingOf(worker.item, verdict, worker.item.id in old(pipeline.seen))]
        && (worker.item.operation == Revise ==>
          (worker.raised <==> worker.item.id !in old(pipeline.seen) || verdict == Raises) && pipeline.entered == old(pipeline.entered))
        && (worker.item.operation == Correlate ==>
          && (worker.raised <==> worker.item.id !in old(pipeline.seen) && verdict == Raises)
          && pipeline.entered == (if worker.item.id !in old(pipeline.seen) && verdict == Passes
                                  then old(pipeline.entered) + multiset{worker.item.id} else old(pipeline.entered)))
      ensures !(old(worker).Busy? && old(worker).rows != []) ==>
        worker == old(worker) && feeds == old(feeds) && pipeline.entered == old(pipeline.entered) && pipeline.log == old(pipeline.log)
    {
      hide Revised, AliasesOk, HandedOver, AttemptsBounded, PayloadsKept, Conserved, InOrder, NoRepeats, Effected, FedExactly, InFlight;
      if worker.Busy? && worker.rows != [] {
        var k, rest := worker.rows[0], worker.rows[1..];
        NextIsHeld(ledger.work, worker.rows);
        PayloadIsThere(ledger.revisions, ledger.work, k);
        ghost var before, f := pipeline.log, FeedingOf(k, verdict, k.id in pipeline.seen);
        FedOneMore(feeds, f, before, pipeline.entered);
        var raised := Handle(pipeline, k, verdict);
        feeds := feeds + [f];
        StillEffected(before, pipeline.log);
        worker := Fed(k, raised, rest);
      }
    }

    /** The fed item is acknowledged, or its failure recorded. */
    method Settle(retryAt: int)
      requires Valid()
      modifies this`worker, this`acked, ledger`work, ledger`fails
      ensures Valid()
      ensures old(worker).Fed? ==> worker == Busy(old(worker).rows) && Recorded(ledger.work, old(worker).item, old(worker).raised)
      ensures forall k :: k in old(ledger.work) && !(old(worker).Fed? && k == old(worker).item) ==> k in ledger.work && ledger.work[k] == old(ledger.work)[k]
      ensures !old(worker).Fed? ==> worker == old(worker)
    {
      hide Revised, AliasesOk, HandedOver, AttemptsBounded, PayloadsKept, Conserved, InOrder, NoRepeats, Effected, InFlight, FedExactly;
      if worker.Fed? {
        var k := worker.item;
        ghost var was, wasWorker := ledger.work, worker;
        HeldIsClaimed(was, wasWorker);
        if worker.raised {
          var _ := ledger.Fail(k, retryAt);
        } else {
          ledger.Ack(k);
          acked := acked + {k};
        }
        RestIsHeld(was, ledger.work, wasWorker);
        worker := Busy(worker.rows);
      }
    }

    /** An error ends the batch: what is still claimed waits for its lease to run out. */
    method Abandon()
      requires Valid()
      modifies this`worker
      ensures Valid() && ledger.work == old(ledger.work) && worker == if old(worker).Down? then Down else Busy([])
    {
      hide Revised, AliasesOk, HandedOver, AttemptsBounded, PayloadsKept, Conserved, InOrder, NoRepeats, Effected;
      if !worker.Down? {
        worker := Busy([]);
      }
    }

    /** Retention runs. */
    method Purge(cutoff: int)
      requires Valid()
      modifies ledger`events, ledger`revisions
      ensures Valid() && OldDropped(old(ledger.events), ledger.events, old(ledger.revisions), ledger.revisions, ledger.work, cutoff)
    {
      hide Revised, AliasesOk, HandedOver, AttemptsBounded, PayloadsKept, Conserved, InOrder, NoRepeats, Effected, OldDropped;
      var _ := ledger.PurgeRaw(cutoff);
    }

    /** The process dies: the tables stay as they are, everything in memory is lost. */
    method Crash()
      requires Valid()
      modifies this
      ensures Valid() && fresh(pipeline) && worker == Down && feeds == [] && acked == {} && ledger.work == old(ledger.work)
    {
      hide Revised, AliasesOk, HandedOver, AttemptsBounded, PayloadsKept, Conserved, InOrder, NoRepeats, Effected, InFlight, FedExactly;
      NothingInMemory(ledger.work);
      pipeline := new Pipeline(bound);
      worker, acked, feeds := Down, {}, [];
    }

    /** Startup replays one recent detection. */
    method Replay(id: Id, outcome: Verdict)
      requires Valid()
      modifies this`feeds, pipeline
      ensures Valid()
      ensures worker.Down? ==>
        && feeds == old(feeds) + [Feeding(id, true, outcome, id in old(pipeline.seen))]
        && (outcome != Raises ==> Took(id) in pipeline.log)
        && pipeline.entered == (if id !in old(pipeline.seen) && outcome == Passes then old(pipeline.entered) + multiset{id} else old(pipeline.entered))
    {
      hide Revised, AliasesOk, HandedOver, AttemptsBounded, PayloadsKept, Conserved, InOrder, NoRepeats, Effected;
      if worker.Down? {
        ghost var before, f := pipeline.log, Feeding(id, true, outcome, id in pipeline.seen);
        FedOneMore(feeds, f, before, pipeline.entered);
        SeenWasTaken(pipeline.log, pipeline.seen, pipeline.dropped, id);
        var _ := pipeline.Process(id, outcome);
        feeds := feeds + [f];
        StillEffected(before, pipeline.log);
        hide FedExactly;
      }
    }

    /** Startup releases what the dead process had claimed, and the worker starts. */
    method Resume()
      requires Valid()
      modifies this`worker, ledger`work
      ensures Valid()
      ensures old(worker).Down? ==> worker == Busy([]) && ledger.work == Recovered(old(ledger.work))
    {
      hide Revised, AliasesOk, HandedOver, AttemptsBounded, PayloadsKept, Conserved, InOrder, NoRepeats, Effected;
      if worker.Down? {
        ledger.RecoverClaimed();
        worker := Busy([]);
      }
    }

    /** Any event; only a page delivers. */
    method Perform(e: Event)
      requires Valid()
      modifies this, ledger, pipeline
      ensures Valid() && (pipeline == old(pipeline) || fresh(pipeline))
      ensures ledger.history == AllDelivered(old(ledger.history), PageOf(e))
    {
      hide Valid;
      match e
      case Page(stream, items, next, now) => CommitPage(stream, items, next, now);
      case Claim(now, limit, lease) => ClaimBatch(now, limit, lease);
      case Feed(verdict) => Feed(verdict);
      case Settle(retryAt) => Settle(retryAt);
      case Abandon => Abandon();
      case Purge(cutoff) => Purge(cutoff);
      case Crash => Crash();
      case Replay(id, outcome) => Replay(id, outcome);
      case Resume => Resume();
    }

    /** What any reachable state promises. */
    lemma Promises(k: Key, id: Id)
      requires Valid()
      ensures Accounted(ledger, k)
      ensures Intakes(pipeline.log) <= bound ==> pipeline.entered[id] <= 1
      ensures k in acked ==> ledger.work[k].state == Processed && Effected(k, pipeline.log)
      ensures InOrder(pipeline.log) && pipeline.entered == Admitted(feeds)
      ensures k in acked && k.operation == Correlate && NeverSuppressed(feeds, k.id) ==> pipeline.entered[k.id] >= 1
    {
      hide Revised, AliasesOk, HandedOver, AttemptsBounded, PayloadsKept, Conserved, InOrder, NoRepeats, Accounted;
      OneItemPerRevision(ledger, k);
      if NeverSuppressed(feeds, k.id) {
        TakenInIsAdmitted(feeds, k.id);
        TimesPositive(pipeline.log, k.id);
      }
      if Intakes(pipeline.log) <= bound {
        pipeline.EntersOnce(id);
      }
    }
  }

  /** The correlator got exactly the first versions that were new and passed; the log took in those that did not raise. */
  ghost predicate FedExactly(feeds: seq<Feeding>, log: seq<Fact>, entered: multiset<Id>) {
    entered == Admitted(feeds) && forall id :: Times(log, id) == TakenIn(feeds)[id]
  }

  lemma FedOneMore(feeds: seq<Feeding>, f: Feeding, log: seq<Fact>, entered: multiset<Id>)
    requires FedExactly(feeds, log, entered)
    ensures FedExactly(feeds + [f],
      if !f.first then (if f.known && f.verdict != Raises then log + [Applied(f.id)] else log)
      else if f.known || f.verdict == Raises then log else log + [Took(f.id)],
      if f.first && f.verdict == Passes && !f.known then entered + multiset{f.id} else entered)
  {
    FedMore(feeds, f);
    forall id
      ensures Times(log + [Took(f.id)], id) == Times(log, id) + (if id == f.id then 1 else 0)
      ensures Times(log + [Applied(f.id)], id) == Times(log, id)
    {
      LogMore(log, Took(f.id), id);
      LogMore(log, Applied(f.id), id);
    }
  }

  /** The item is processed, or it failed and will be retried or is quarantined. */
  predicate Recorded(work: Work, k: Key, raised: bool) {
    k in work && Resolved(work[k].state) && (work[k].state == Processed <==> !raised)
  }

  lemma NothingInMemory(work: Work)
    ensures InFlight(work, Down) && FedExactly([], [], multiset{})
  {
  }

  lemma NextIsHeld(work: Work, rows: seq<Key>)
    requires InFlight(work, Busy(rows)) && rows != []
    ensures rows[0] in work && work[rows[0]].state == Claimed
    ensures forall raised :: InFlight(work, Fed(rows[0], raised, rows[1..]))
  {
    assert rows == [rows[0]] + rows[1..];
  }

  lemma HeldIsClaimed(work: Work, w: Worker)
    requires InFlight(work, w) && w.Fed?
    ensures w.item in work && work[w.item].state == Claimed
  {
    assert Rows(w)[0] == w.item && w.item in Rows(w);
  }

  lemma RestIsHeld(before: Work, after: Work, w: Worker)
    requires InFlight(before, w) && w.Fed? && forall k :: k in before && k != w.item ==> k in after && after[k] == before[k]
    ensures InFlight(after, Busy(w.rows))
  {
    assert forall i :: 0 <= i < |w.rows| ==> Rows(w)[i + 1] == w.rows[i];
    assert Rows(w)[0] == w.item;
    forall k | k in w.rows ensures k in Rows(w) && k != w.item {
      var i :| 0 <= i < |w.rows| && w.rows[i] == k;
      assert Rows(w)[i + 1] == k;
    }
  }

  lemma ProcessedIsNotDue(work: Work, now: int, rows: seq<Key>)
    requires forall k :: k in rows ==> k in work && Due(work[k], now)
    ensures forall k :: k in work && work[k].state == Processed ==> k !in rows
  {
  }

  function PageOf(e: Event): seq<PageItem> {
    if e.Page? then e.items else []
  }

  function AllPages(events: seq<Event>): seq<PageItem> {
    if events == [] then []
    else AllPages(events[..|events| - 1]) + PageOf(events[|events| - 1])
  }

  lemma {:induction false} DeliveredInPages(history: History, a: seq<PageItem>, b: seq<PageItem>)
    ensures AllDelivered(AllDelivered(history, a), b) == AllDelivered(history, a + b)
  {
    if b == [] {
      assert a + b == a;
    } else {
      var init := b[..|b| - 1];
      DeliveredInPages(history, a, init);
      assert (a + b)[..|a + b| - 1] == a + init;
    }
  }

  /**
    A crash after items were claimed and the first was fed, before anything was acknowledged: every
    claimed item is pending again after the restart, with one more attempt and no failure.
  */
  method CrashBeforeAck(s: Runtime, k: Key, now: int, limit: nat, lease: int, verdict: Verdict) returns (taken: bool)
    requires s.Valid() && s.worker == Busy([]) && k in s.ledger.work && s.ledger.work[k].state != Claimed
    modifies s, s.ledger, s.pipeline
    ensures s.Valid() && k in s.ledger.work && s.ledger.fails == old(s.ledger.fails)
    ensures taken ==> Due(old(s.ledger.work)[k], now) && s.ledger.work[k].state == Pending && s.ledger.work[k].attempts == old(s.ledger.work)[k].attempts + 1
    ensures !taken ==> s.ledger.work[k] == old(s.ledger.work)[k]
  {
    hide Revised, AliasesOk, HandedOver, AttemptsBounded, PayloadsKept, Conserved, InOrder, NoRepeats, Effected, Due;
    s.ClaimBatch(now, limit, lease);
    taken := k in s.worker.rows;
    s.Feed(verdict);
    s.Crash();
    s.Resume();
  }

  /**
    Any run, with pages, purges, lost acknowledgements and crashes between any two transactions: every
    revision of a detection that is no duplicate has its one item, failed at most eight times, with its
    payload kept until it is resolved; an item acknowledged by this process took effect in it; and no
    id entered the correlator twice while no more ids than the bound were taken in. An acknowledged first
    version that was never suppressed did enter it: within the bound, exactly once.
  */
  method Run(events: seq<Event>, bound: nat) returns (s: Runtime)
    ensures s.Valid() && s.bound == bound && s.ledger.history == AllDelivered(map[], AllPages(events))
    ensures forall k :: Accounted(s.ledger, k)
    ensures forall k :: k in s.acked ==> s.ledger.work[k].state == Processed && Effected(k, s.pipeline.log)
    ensures InOrder(s.pipeline.log)
    ensures Intakes(s.pipeline.log) <= bound ==> forall id :: s.pipeline.entered[id] <= 1
    ensures s.pipeline.entered == Admitted(s.feeds)
    ensures forall k :: k in s.acked && k.operation == Correlate && NeverSuppressed(s.feeds, k.id) ==> s.pipeline.entered[k.id] >= 1
  {
    hide Revised, AliasesOk, HandedOver, AttemptsBounded, PayloadsKept, Conserved, InOrder, NoRepeats, Accounted, InFlight, Effected, Admitted, FedExactly, NeverSuppressed;
    s := new Runtime(bound);
    for n := 0 to |events|
      invariant s.Valid() && fresh(s) && fresh(s.ledger) && fresh(s.pipeline) && s.bound == bound
      invariant s.ledger.history == AllDelivered(map[], AllPages(events[..n]))
    {
      assert events[..n + 1][..n] == events[..n];
      DeliveredInPages(map[], AllPages(events[..n]), PageOf(events[n]));
      s.Perform(events[n]);
    }
    assert events[..|events|] == events;
    s.Promises(Key(Id(true, ""), 1, Correlate), Id(true, ""));
    forall k ensures Accounted(s.ledger, k)
      && (k in s.acked && k.operation == Correlate && NeverSuppressed(s.feeds, k.id) ==> s.pipeline.entered[k.id] >= 1)
    {
      s.Promises(k, k.id);
    }
    if Intakes(s.pipeline.log) <= bound {
      forall id ensures s.pipeline.entered[id] <= 1 {
        s.pipeline.EntersOnce(id);
      }
    }
  }
}
