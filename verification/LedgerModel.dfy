/**
  The durable tables of ingestion: events, their revisions, aliases, and the work items handed to
  correlation; and what must hold of them between any two transactions.
*/
module LedgerModel {
  datatype Option<T> = None | Some(value: T)

  /** A canonical id is an injective hash over, among other things, the kind of record. */
  datatype Id = Id(detection: bool, name: string)

  datatype Alias = Alias(scope: string, scheme: string, value: string)

  /** `content` is the payload (and its hash by the vault); `stated` the hash the connector computed. */
  datatype Delivery = Delivery(stated: int, content: int)

  datatype PageItem = PageItem(id: Id, aliases: seq<Alias>, delivery: Delivery)

  datatype Event = Event(hash: int, revision: nat, duplicateOf: Option<Id>, kept: bool, observed: int)

  /** The snapshot of one revision; `kept` until retention drops its payload. */
  datatype Snap = Snap(hash: int, kept: bool, committed: int)

  datatype Operation = Correlate | Revise
  datatype Key = Key(id: Id, revision: nat, operation: Operation)
  datatype WorkState = Pending | Claimed | Processed | Retryable | Quarantined
  datatype Item = Item(state: WorkState, attempts: nat, due: int, lease: int, created: int)

  const MaxAttempts: nat := 8

  type Events = map<Id, Event>
  type Revisions = map<(Id, nat), Snap>
  type Aliases = map<Alias, Id>
  type Work = map<Key, Item>

  // ---------------------------------------------------------------------------------------------
  // Revisions are the delivery history without consecutive repeats
  // ---------------------------------------------------------------------------------------------

  /** The hashes stored after a history of deliveries of one id. */
  function Stored(history: seq<Delivery>): seq<int> {
    if history == [] then []
    else
      var before, d := Stored(history[..|history| - 1]), history[|history| - 1];
      if before != [] && before[|before| - 1] == d.stated then before else before + [d.content]
  }

  /** Consecutive repeats removed. */
  function Squeezed(xs: seq<int>): seq<int> {
    if xs == [] then []
    else if |xs| > 1 && xs[|xs| - 2] == xs[|xs| - 1] then Squeezed(xs[..|xs| - 1])
    else Squeezed(xs[..|xs| - 1]) + [xs[|xs| - 1]]
  }

  function Contents(history: seq<Delivery>): (r: seq<int>)
    ensures |r| == |history|
  {
    seq(|history|, i requires 0 <= i < |history| => history[i].content)
  }

  ghost predicate Agreed(history: seq<Delivery>) {
    forall i :: 0 <= i < |history| ==> history[i].stated == history[i].content
  }

  lemma {:induction false} SqueezedEnds(xs: seq<int>)
    requires xs != []
    ensures Squeezed(xs) != [] && Squeezed(xs)[|Squeezed(xs)| - 1] == xs[|xs| - 1]
  {
    if |xs| > 1 && xs[|xs| - 2] == xs[|xs| - 1] {
      SqueezedEnds(xs[..|xs| - 1]);
    }
  }

  /** Where connector and vault agree on the hash, the revisions are the history without consecutive repeats. */
  lemma {:induction false} StoredIsSqueezed(history: seq<Delivery>)
    requires Agreed(history)
    ensures Stored(history) == Squeezed(Contents(history))
  {
    if history != [] {
      var init := history[..|history| - 1];
      StoredIsSqueezed(init);
      assert Contents(history)[..|history| - 1] == Contents(init);
      if init != [] {
        SqueezedEnds(Contents(init));
      }
    }
  }

  /** A repeated delivery is ignored if and only if the two hashes agree on it. */
  lemma RepeatIsIgnoredIffAgreed(history: seq<Delivery>, d: Delivery)
    requires Stored(history) != [] && Stored(history)[|Stored(history)| - 1] == d.content
    ensures Stored(history + [d]) == Stored(history) <==> d.stated == d.content
  {
    assert (history + [d])[..|history|] == history;
  }

  // ---------------------------------------------------------------------------------------------
  // The invariant
  // ---------------------------------------------------------------------------------------------

  type History = map<Id, seq<Delivery>>

  /** The revisions of `id` are numbered 1..n, carry the stored hashes, and the latest row agrees with the last. */
  ghost predicate RevisedOne(id: Id, e: Event, revisions: Revisions, history: seq<Delivery>) {
    && history != [] && e.revision == |Stored(history)| && e.revision > 0 && e.hash == Stored(history)[e.revision - 1]
    && forall r :: 1 <= r <= e.revision ==> (id, r) in revisions && revisions[(id, r)].hash == Stored(history)[r - 1]
  }

  ghost predicate Revised(events: Events, revisions: Revisions, history: History) {
    && events.Keys == history.Keys
    && (forall id :: id in events ==> RevisedOne(id, events[id], revisions, history[id]))
    && (forall k :: k in revisions ==> k.0 in events && 1 <= k.1 <= events[k.0].revision)
  }

  /** Which work items there must be: one per revision of a detection that is not a duplicate. */
  predicate Wanted(events: Events, k: Key) {
    && k.id in events && 1 <= k.revision <= events[k.id].revision
    && events[k.id].duplicateOf.None? && k.id.detection
    && k.operation == (if k.revision == 1 then Correlate else Revise)
  }

  ghost predicate HandedOver(events: Events, work: Work) {
    forall k :: k in work <==> Wanted(events, k)
  }

  predicate Unresolved(s: WorkState) {
    s == Pending || s == Claimed || s == Retryable
  }

  /** Work that is not resolved still has its payload. */
  ghost predicate PayloadsKept(revisions: Revisions, work: Work) {
    forall k :: k in work && Unresolved(work[k].state) ==> (k.id, k.revision) in revisions && revisions[(k.id, k.revision)].kept
  }

  /** How often an item may have failed, by its state. */
  predicate Bounded(i: Item, fails: nat) {
    && fails <= i.attempts
    && fails <= MaxAttempts
    && (i.state == Claimed ==> fails < i.attempts)
    && (i.state == Retryable ==> i.attempts < MaxAttempts)
    && (Unresolved(i.state) ==> fails < MaxAttempts)
    && (i.state == Quarantined ==> i.attempts >= MaxAttempts && fails >= 1)
  }

  ghost predicate AttemptsBounded(work: Work, fails: map<Key, nat>) {
    work.Keys == fails.Keys && forall k :: k in work ==> Bounded(work[k], fails[k])
  }

  // ---------------------------------------------------------------------------------------------
  // Aliases
  // ---------------------------------------------------------------------------------------------

  /** What was known of an id when it was first committed. */
  datatype Birth = Birth(rank: nat, aliases: set<Alias>)

  ghost predicate AliasesOk(events: Events, aliases: Aliases, births: map<Id, Birth>) {
    && events.Keys == births.Keys
    && (forall a :: a in aliases ==> aliases[a] in events && a in births[aliases[a]].aliases)
    && (forall id :: id in events ==> BirthOk(id, events, aliases, births))
  }

  /** Every alias is held; by the event itself, unless it is a duplicate of an earlier holder. */
  ghost predicate BirthOk(id: Id, events: Events, aliases: Aliases, births: map<Id, Birth>)
    requires id in events && id in births
  {
    && births[id].rank < |events|
    && (forall a :: a in births[id].aliases ==> a in aliases)
    && match events[id].duplicateOf
       case None => forall a :: a in births[id].aliases ==> a in aliases && aliases[a] == id
       case Some(j) => j in births && births[j].rank < births[id].rank && exists a :: a in births[id].aliases && a in aliases && aliases[a] == j
  }

  /** No two events that are not duplicates share an alias. */
  lemma NoSharedAlias(events: Events, aliases: Aliases, births: map<Id, Birth>, x: Id, y: Id)
    requires AliasesOk(events, aliases, births) && x in events && y in events && x != y
    requires events[x].duplicateOf.None? && events[y].duplicateOf.None?
    ensures births[x].aliases !! births[y].aliases
  {
    assert BirthOk(x, events, aliases, births) && BirthOk(y, events, aliases, births);
  }

  /** Following `duplicate_of` goes strictly back in commit order and ends at an event that is no duplicate. */
  function Root(events: Events, aliases: Aliases, births: map<Id, Birth>, id: Id): (root: Id)
    requires AliasesOk(events, aliases, births) && id in events
    ensures root in events && events[root].duplicateOf.None?
    ensures births[root].rank <= births[id].rank && (events[id].duplicateOf.Some? ==> births[root].rank < births[id].rank)
    decreases births[id].rank
  {
    assert BirthOk(id, events, aliases, births);
    if events[id].duplicateOf.None? then id else Root(events, aliases, births, events[id].duplicateOf.value)
  }

  // ---------------------------------------------------------------------------------------------
  // What one committed revision changes
  // ---------------------------------------------------------------------------------------------

  lemma NextStored(id: Id, was: Event, e: Event, revisions: Revisions, history: seq<Delivery>, d: Delivery, now: int)
    requires RevisedOne(id, was, revisions, history) && d.stated != was.hash
    requires e.hash == d.content && e.revision == was.revision + 1
    ensures RevisedOne(id, e, revisions[(id, e.revision) := Snap(d.content, true, now)], history + [d])
  {
    assert (history + [d])[..|history|] == history;
  }

  lemma RevisionAdded(events: Events, revisions: Revisions, history: History, id: Id, d: Delivery, e: Event, now: int)
    requires Revised(events, revisions, history) && id in events
    requires d.stated != events[id].hash
    requires e.hash == d.content && e.revision == events[id].revision + 1
    ensures Revised(events[id := e], revisions[(id, e.revision) := Snap(d.content, true, now)], history[id := history[id] + [d]])
  {
    hide Stored;
    var r2 := revisions[(id, e.revision) := Snap(d.content, true, now)];
    NextStored(id, events[id], e, revisions, history[id], d, now);
    forall x | x in events && x != id ensures RevisedOne(x, events[x], r2, history[x]) {
      assert RevisedOne(x, events[x], revisions, history[x]);
    }
  }

  lemma FirstRevision(events: Events, revisions: Revisions, history: History, id: Id, d: Delivery, e: Event, now: int)
    requires Revised(events, revisions, history) && id !in events && e.hash == d.content && e.revision == 1
    ensures (id, 1) !in revisions
    ensures Revised(events[id := e], revisions[(id, 1) := Snap(d.content, true, now)], history[id := [d]])
  {
    var r2 := revisions[(id, 1) := Snap(d.content, true, now)];
    assert [d][..0] == [] && Stored([]) == [];
    assert Stored([d]) == [d.content];
    assert RevisedOne(id, e, r2, [d]);
    forall x | x in events ensures RevisedOne(x, events[x], r2, history[x]) {
      assert RevisedOne(x, events[x], revisions, history[x]);
    }
  }

  lemma RepeatStored(id: Id, e: Event, revisions: Revisions, history: seq<Delivery>, d: Delivery)
    requires RevisedOne(id, e, revisions, history) && d.stated == e.hash
    ensures RevisedOne(id, e, revisions, history + [d])
  {
    assert (history + [d])[..|history|] == history;
  }

  lemma RepeatAdded(events: Events, revisions: Revisions, history: History, id: Id, d: Delivery)
    requires Revised(events, revisions, history) && id in events && d.stated == events[id].hash
    ensures Revised(events, revisions, history[id := history[id] + [d]])
  {
    hide Stored;
    RepeatStored(id, events[id], revisions, history[id], d);
    hide RevisedOne;
  }
}
