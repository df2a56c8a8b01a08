/**
  The ledger and the work queue: each method is one transaction on the durable tables.
*/
module Ledgers {
  import opened LedgerModel

  datatype Accepted = Accepted(id: Id, revision: nat, isUpdate: bool, duplicateOf: Option<Id>)

  // ---------------------------------------------------------------------------------------------
  // Steps on the tables
  // ---------------------------------------------------------------------------------------------

  function HistoryOf(history: History, id: Id): seq<Delivery> {
    if id in history then history[id] else []
  }

  function Delivered(history: History, id: Id, d: Delivery): History {
    history[id := HistoryOf(history, id) + [d]]
  }

  function AllDelivered(history: History, items: seq<PageItem>): History {
    if items == [] then history
    else
      var last := items[|items| - 1];
      Delivered(AllDelivered(history, items[..|items| - 1]), last.id, last.delivery)
  }

  /** Free aliases go to `id`; held ones stay with their holder. */
  function Registered(aliases: Aliases, list: seq<Alias>, id: Id): Aliases {
    map a | a in aliases.Keys + (set x | x in list) :: if a in aliases then aliases[a] else id
  }

  /** The first alias in the list that somebody else holds names the earlier event. */
  ghost predicate EarlierHolder(aliases: Aliases, list: seq<Alias>, earlier: Option<Id>) {
    if earlier.None? then forall i :: 0 <= i < |list| ==> list[i] !in aliases
    else exists i :: 0 <= i < |list| && list[i] in aliases && aliases[list[i]] == earlier.value && forall j :: 0 <= j < i ==> list[j] !in aliases
  }

  lemma OldBirthKept(events: Events, aliases: Aliases, births: map<Id, Birth>, id: Id, list: seq<Alias>, e: Event, x: Id)
    requires x in events && x in births && id !in events && id !in births && BirthOk(x, events, aliases, births)
    ensures BirthOk(x, events[id := e], Registered(aliases, list, id), births[id := Birth(|events|, set y | y in list)])
  {
    var e2, a2, b2 := events[id := e], Registered(aliases, list, id), births[id := Birth(|events|, set y | y in list)];
    assert e2[x] == events[x] && b2[x] == births[x] && |e2| == |events| + 1;
    assert forall a :: a in aliases ==> a in a2 && a2[a] == aliases[a];
  }

  lemma NewBirthOk(events: Events, aliases: Aliases, births: map<Id, Birth>, id: Id, list: seq<Alias>, earlier: Option<Id>, e: Event)
    requires AliasesOk(events, aliases, births) && id !in events && EarlierHolder(aliases, list, earlier) && e.duplicateOf == earlier
    ensures BirthOk(id, events[id := e], Registered(aliases, list, id), births[id := Birth(|events|, set y | y in list)])
  {
    var a2, b2 := Registered(aliases, list, id), births[id := Birth(|events|, set y | y in list)];
    var i := FirstHeld(aliases, list, earlier);
    hide EarlierHolder;
    if earlier.Some? {
      var holder := earlier.value;
      assert holder in events && holder in births && BirthOk(holder, events, aliases, births);
      assert births[holder].rank < |events| && b2[holder] == births[holder];
      assert list[i] in b2[id].aliases && a2[list[i]] == holder;
    } else {
      NoneHeld(aliases, list, id);
    }
    assert |events[id := e]| == |events| + 1;
    hide AliasesOk;
  }

  lemma NoneHeld(aliases: Aliases, list: seq<Alias>, id: Id)
    requires EarlierHolder(aliases, list, None)
    ensures forall a :: a in (set y | y in list) ==> a in Registered(aliases, list, id) && Registered(aliases, list, id)[a] == id
  {
  }

  lemma BirthAdded(events: Events, aliases: Aliases, births: map<Id, Birth>, id: Id, list: seq<Alias>, earlier: Option<Id>, e: Event)
    requires AliasesOk(events, aliases, births) && id !in events && EarlierHolder(aliases, list, earlier) && e.duplicateOf == earlier
    ensures AliasesOk(events[id := e], Registered(aliases, list, id), births[id := Birth(|events|, set x | x in list)])
  {
    hide BirthOk, EarlierHolder;
    var e2, a2, b2 := events[id := e], Registered(aliases, list, id), births[id := Birth(|events|, set x | x in list)];
    NewBirthOk(events, aliases, births, id, list, earlier, e);
    forall x | x in events ensures BirthOk(x, e2, a2, b2) {
      OldBirthKept(events, aliases, births, id, list, e, x);
    }
    HoldersKept(events, aliases, births, id, list, e);
    hide Registered;
  }

  lemma HoldersKept(events: Events, aliases: Aliases, births: map<Id, Birth>, id: Id, list: seq<Alias>, e: Event)
    requires events.Keys == births.Keys && forall a :: a in aliases ==> aliases[a] in events && a in births[aliases[a]].aliases
    ensures var (e2, a2, b2) := (events[id := e], Registered(aliases, list, id), births[id := Birth(|events|, set x | x in list)]);
      e2.Keys == b2.Keys && (id !in events ==> forall a :: a in a2 ==> a2[a] in e2 && a in b2[a2[a]].aliases)
  {
  }

  lemma BirthKept(events: Events, aliases: Aliases, births: map<Id, Birth>, id: Id, e: Event)
    requires AliasesOk(events, aliases, births) && id in events && e.duplicateOf == events[id].duplicateOf
    ensures AliasesOk(events[id := e], aliases, births)
  {
    var e2 := events[id := e];
    assert |e2| == |events| by { assert e2.Keys == events.Keys; assert |e2.Keys| == |e2| && |events.Keys| == |events|; }
    forall x | x in e2 ensures BirthOk(x, e2, aliases, births) {
      assert BirthOk(x, events, aliases, births);
    }
  }

  function NewKey(id: Id, revision: nat): Key {
    Key(id, revision, if revision == 1 then Correlate else Revise)
  }

  function Handed(work: Work, e: Event, id: Id, now: int): Work {
    if e.duplicateOf.None? && id.detection then work[NewKey(id, e.revision) := Item(Pending, 0, now, 0, now)] else work
  }

  lemma WorkAdded(events: Events, revisions: Revisions, work: Work, fails: map<Key, nat>, id: Id, e: Event, now: int)
    requires HandedOver(events, work) && PayloadsKept(revisions, work) && AttemptsBounded(work, fails)
    requires if id in events then e.revision == events[id].revision + 1 && e.duplicateOf == events[id].duplicateOf else e.revision == 1
    requires forall k :: k in revisions ==> k.0 in events && 1 <= k.1 <= events[k.0].revision
    ensures NewKey(id, e.revision) !in work
    ensures var w := Handed(work, e, id, now);
      var r := revisions[(id, e.revision) := Snap(e.hash, true, now)];
      var f := if w == work then fails else fails[NewKey(id, e.revision) := 0];
      HandedOver(events[id := e], w) && PayloadsKept(r, w) && AttemptsBounded(w, f) && OnlyAdded(work, w, fails, f)
  {
    var e2, w := events[id := e], Handed(work, e, id, now);
    forall k ensures k in w <==> Wanted(e2, k) {
      assert k in work <==> Wanted(events, k);
    }
    assert !Wanted(events, NewKey(id, e.revision));
  }

  // ---------------------------------------------------------------------------------------------
  // Pages
  // ---------------------------------------------------------------------------------------------

  /** Every item is the latest stored revision of its id. */
  predicate Settled(events: Events, items: seq<PageItem>) {
    forall i :: 0 <= i < |items| ==> items[i].id in events && events[items[i].id].hash == items[i].delivery.stated
  }

  predicate OnePayload(items: seq<PageItem>) {
    forall i, j :: 0 <= i < |items| && 0 <= j < |items| && items[i].id == items[j].id ==> items[i].delivery == items[j].delivery
  }

  predicate HashesAgree(items: seq<PageItem>) {
    forall i :: 0 <= i < |items| ==> items[i].delivery.stated == items[i].delivery.content
  }

  datatype Cursor = Cursor(value: string, complete: bool)

  class Ledger {
    var events: Events
    var revisions: Revisions
    var aliases: Aliases
    var work: Work
    var cursors: map<(string, string), Cursor>
    /** Everything ever delivered, per id, in order. */
    ghost var history: History
    /** Rank and aliases of every id at its first commit. */
    ghost var births: map<Id, Birth>
    /** Failed attempts per work item. */
    ghost var fails: map<Key, nat>

    ghost predicate Valid()
      reads this
    {
      && Revised(events, revisions, history) && AliasesOk(events, aliases, births)
      && HandedOver(events, work) && PayloadsKept(revisions, work) && AttemptsBounded(work, fails)
    }

    constructor ()
      ensures Valid() && events == map[] && work == map[] && history == map[]
    {
      events, revisions, aliases, work, cursors := map[], map[], map[], map[], map[];
      history, births, fails := map[], map[], map[];
    }

    /** Register the aliases of a new event; the result is an earlier holder. */
    method ClaimAliases(id: Id, list: seq<Alias>) returns (earlier: Option<Id>)
      requires forall a :: a in aliases ==> aliases[a] != id
      modifies this`aliases
      ensures aliases == Registered(old(aliases), list, id) && EarlierHolder(old(aliases), list, earlier)
    {
      earlier := None;
      for k := 0 to |list|
        invariant aliases == Registered(old(aliases), list[..k], id)
        invariant EarlierHolder(old(aliases), list[..k], earlier)
      {
        NextAlias(old(aliases), aliases, list, k, id, earlier);
        hide EarlierHolder, Registered;
        if list[k] !in aliases {
          aliases := aliases[list[k] := id];
        } else if aliases[list[k]] != id && earlier.None? {
          earlier := Some(aliases[list[k]]);
        }
      }
      assert list[..|list|] == list;
    }

    /** A first delivery: aliases are claimed, revision 1 is stored, and work is queued unless it is a duplicate. */
    method IngestNew(item: PageItem, now: int) returns (accepted: Accepted)
      requires Valid() && item.id !in events
      modifies this`events, this`revisions, this`aliases, this`work, this`history, this`births, this`fails
      ensures Valid() && history == Delivered(old(history), item.id, item.delivery)
      ensures EarlierHolder(old(aliases), item.aliases, accepted.duplicateOf) && aliases == Registered(old(aliases), item.aliases, item.id)
      ensures events == old(events)[item.id := Event(item.delivery.content, 1, accepted.duplicateOf, true, now)]
      ensures revisions == old(revisions)[(item.id, 1) := Snap(item.delivery.content, true, now)]
      ensures work == Handed(old(work), events[item.id], item.id, now) && OnlyAdded(old(work), work, old(fails), fails)
      ensures (item.id, 1) !in old(revisions) && accepted == Accepted(item.id, 1, false, accepted.duplicateOf)
    {
      hide Revised, AliasesOk, HandedOver, PayloadsKept, AttemptsBounded, EarlierHolder, Registered, OnlyAdded;
      assert [] + [item.delivery] == [item.delivery];
      NoAliasYet(events, aliases, births, item.id);
      ghost var held := aliases;
      var duplicateOf := ClaimAliases(item.id, item.aliases);
      var e := Event(item.delivery.content, 1, duplicateOf, true, now);
      NewIsFirst(events, revisions, history, item.id);
      BirthAdded(events, held, births, item.id, item.aliases, duplicateOf, e);
      FirstRevision(events, revisions, history, item.id, item.delivery, e, now);
      WorkAdded(events, revisions, work, fails, item.id, e, now);
      births := births[item.id := Birth(|events|, set x | x in item.aliases)];
      events := events[item.id := e];
      revisions := revisions[(item.id, 1) := Snap(item.delivery.content, true, now)];
      history := Delivered(history, item.id, item.delivery);
      if duplicateOf.None? && item.id.detection {
        Enqueue(NewKey(item.id, 1), now);
      }
      accepted := Accepted(item.id, 1, false, duplicateOf);
    }

    /** Queue a work item unless there is one already. */
    method Enqueue(k: Key, now: int)
      modifies this`work, this`fails
      ensures k !in old(work) ==> work == old(work)[k := Item(Pending, 0, now, 0, now)] && fails == old(fails)[k := 0]
      ensures k in old(work) ==> work == old(work) && fails == old(fails)
    {
      if k !in work {
        work := work[k := Item(Pending, 0, now, 0, now)];
        fails := fails[k := 0];
      }
    }

    /** A changed payload of a known id: the next revision, and a `revise` item unless it is a duplicate. */
    method IngestUpdate(item: PageItem, now: int) returns (accepted: Accepted)
      requires Valid() && item.id in events && events[item.id].hash != item.delivery.stated
      modifies this`events, this`revisions, this`work, this`history, this`fails
      ensures Valid() && history == Delivered(old(history), item.id, item.delivery)
      ensures var was := old(events)[item.id];
        && events == old(events)[item.id := Event(item.delivery.content, was.revision + 1, was.duplicateOf, true, now)]
        && revisions == old(revisions)[(item.id, was.revision + 1) := Snap(item.delivery.content, true, now)]
        && work == Handed(old(work), events[item.id], item.id, now) && OnlyAdded(old(work), work, old(fails), fails)
        && (item.id, was.revision + 1) !in old(revisions)
        && was.revision >= 1 && accepted == Accepted(item.id, was.revision + 1, true, was.duplicateOf)
    {
      hide Revised, AliasesOk, HandedOver, PayloadsKept, AttemptsBounded, OnlyAdded;
      var was := events[item.id];
      var e := Event(item.delivery.content, was.revision + 1, was.duplicateOf, true, now);
      KnownHasHistory(events, revisions, history, item.id);
      BirthKept(events, aliases, births, item.id, e);
      RevisionAdded(events, revisions, history, item.id, item.delivery, e, now);
      WorkAdded(events, revisions, work, fails, item.id, e, now);
      events := events[item.id := e];
      revisions := revisions[(item.id, e.revision) := Snap(item.delivery.content, true, now)];
      history := Delivered(history, item.id, item.delivery);
      if was.duplicateOf.None? && item.id.detection {
        Enqueue(NewKey(item.id, e.revision), now);
      }
      accepted := Accepted(item.id, e.revision, true, was.duplicateOf);
    }

    /** One record of a page. */
    method IngestOne(item: PageItem, now: int) returns (accepted: Option<Accepted>)
      requires Valid()
      modifies this`events, this`revisions, this`aliases, this`work, this`history, this`births, this`fails
      ensures Valid() && history == Delivered(old(history), item.id, item.delivery)
      ensures accepted.None? <==> Settled(old(events), [item])
      ensures accepted.None? ==> events == old(events) && revisions == old(revisions) && aliases == old(aliases) && work == old(work)
      ensures item.id in events && events[item.id].hash == if accepted.Some? then item.delivery.content else item.delivery.stated
      ensures forall x :: x in old(events) ==> x in events && events[x].duplicateOf == old(events)[x].duplicateOf && (x != item.id ==> events[x] == old(events)[x])
      ensures OnlyAdded(old(work), work, old(fails), fails)
      ensures accepted.Some? ==> Describes(accepted.value, events, old(revisions), revisions)
    {
      hide Revised, AliasesOk, HandedOver, PayloadsKept, AttemptsBounded;
      assert [item][0] == item;
      if item.id in events && events[item.id].hash == item.delivery.stated {
        KnownHasHistory(events, revisions, history, item.id);
        RepeatAdded(events, revisions, history, item.id, item.delivery);
        history := Delivered(history, item.id, item.delivery);
        return None;
      }
      var stored: Accepted;
      if item.id in events {
        stored := IngestUpdate(item, now);
      } else {
        stored := IngestNew(item, now);
      }
      accepted := Some(stored);
    }

    /** A page of records and the cursor behind it, in one transaction. */
    method CommitPage(stream: (string, string), items: seq<PageItem>, next: Option<Cursor>, now: int) returns (accepted: seq<Accepted>)
      requires Valid()
      modifies this
      ensures Valid() && history == AllDelivered(old(history), items)
      ensures Lists(accepted, events, old(revisions), revisions)
      ensures OnlyAdded(old(work), work, old(fails), fails)
      ensures accepted == [] <==> Settled(old(events), items)
      ensures accepted == [] ==> events == old(events) && revisions == old(revisions) && aliases == old(aliases) && work == old(work)
      ensures HashesAgree(items) ==> (Settled(events, items) <==> OnePayload(items))
      ensures cursors == if next.Some? then old(cursors)[stream := next.value] else old(cursors)
    {
      hide Revised, AliasesOk, HandedOver, PayloadsKept, AttemptsBounded, Settled, LatestOf, OnePayload, HashesAgree, OnlyAdded, Lists, Describes;
      NothingYet(events, items);
      NothingListed(events, revisions, work, fails);
      accepted := [];
      for k := 0 to |items|
        invariant Valid() && history == AllDelivered(old(history), items[..k]) && cursors == old(cursors)
        invariant Lists(accepted, events, old(revisions), revisions) && OnlyAdded(old(work), work, old(fails), fails)
        invariant accepted == [] <==> Settled(old(events), items[..k])
        invariant accepted == [] ==> events == old(events) && revisions == old(revisions) && aliases == old(aliases) && work == old(work)
        invariant HashesAgree(items) ==> LatestOf(events, items[..k])
      {
        ghost var was, wasRevisions, wasWork, wasFails := events, revisions, work, fails;
        var record := IngestOne(items[k], now);
        AddedOnwards(old(work), wasWork, work, old(fails), wasFails, fails);
        ListedOnwards(accepted, was, events, old(revisions), wasRevisions, revisions, record);
        assert items[..k + 1][..k] == items[..k];
        SettledMore(old(events), items, k);
        LatestMore(was, events, items, k);
        if record.Some? {
          accepted := accepted + [record.value];
        }
      }
      assert items[..|items|] == items;
      if HashesAgree(items) {
        LatestIffOne(events, items);
      }
      if next.Some? {
        cursors := cursors[stream := next.value];
      }
    }

    /** Committing the same page again stores nothing if and only if the page has one payload per id. */
    method CommitTwice(stream: (string, string), items: seq<PageItem>, next: Option<Cursor>, now: int, later: int) returns (again: seq<Accepted>)
      requires Valid() && HashesAgree(items)
      modifies this
      ensures Valid() && (again == [] <==> OnePayload(items))
    {
      var _ := CommitPage(stream, items, next, now);
      again := CommitPage(stream, items, next, later);
    }

    // -------------------------------------------------------------------------------------------
    // The work queue
    // -------------------------------------------------------------------------------------------

    /** The oldest of the given items. */
    method Oldest(due: set<Key>) returns (k: Key)
      requires due != {} && due <= work.Keys
      ensures k in due && forall x :: x in due ==> work[k].created <= work[x].created
    {
      k :| k in due;
      var left := due - {k};
      while left != {}
        invariant left <= due && k in due
        invariant forall x :: x in due && x !in left ==> work[k].created <= work[x].created
        decreases |left|
      {
        var x :| x in left;
        left := left - {x};
        if work[x].created < work[k].created {
          k := x;
        }
      }
    }

    /** The oldest due items, at most `limit` of them. */
    method SelectDue(now: int, limit: nat) returns (rows: seq<Key>)
      ensures Distinct(rows) && |rows| <= limit
      ensures forall k :: k in rows ==> k in work && Due(work[k], now)
      ensures |rows| < limit ==> forall k :: k in work && Due(work[k], now) ==> k in rows
      ensures forall k, r :: r in rows && k in work && Due(work[k], now) && k !in rows ==> work[r].created <= work[k].created
    {
      var due := set k | k in work && Due(work[k], now);
      rows := [];
      while due != {} && |rows| < limit
        invariant |rows| <= limit && Distinct(rows)
        invariant forall k :: k in due <==> k in work && Due(work[k], now) && k !in rows
        invariant forall k :: k in rows ==> k in work && Due(work[k], now)
        invariant forall k, r :: r in rows && k in due ==> work[r].created <= work[k].created
        decreases |due|
      {
        var k := Oldest(due);
        rows := rows + [k];
        due := due - {k};
      }
    }

    /** Claim a batch: every claimed item counts one more attempt. */
    method ClaimBatch(now: int, limit: nat, lease: int) returns (rows: seq<Key>)
      requires Valid()
      modifies this`work
      ensures Valid() && Distinct(rows) && |rows| <= limit
      ensures forall k :: k in rows ==> k in old(work) && Due(old(work)[k], now)
      ensures |rows| < limit ==> forall k :: k in old(work) && Due(old(work)[k], now) ==> k in rows
      ensures forall k, r :: r in rows && k in old(work) && Due(old(work)[k], now) && k !in rows ==> old(work)[r].created <= old(work)[k].created
      ensures forall k :: k in old(work) ==>
        (Due(old(work)[k], now) <==>
          || (old(work)[k].state in {Pending, Retryable} && old(work)[k].due <= now)
          || (old(work)[k].state == Claimed && old(work)[k].lease < now))
      ensures work == Taken(old(work), rows, now + lease)
    {
      hide Revised, AliasesOk, HandedOver, PayloadsKept, AttemptsBounded;
      rows := SelectDue(now, limit);
      ghost var before := work;
      assert Taken(before, rows[..0], now + lease) == before;
      for n := 0 to |rows|
        invariant work == Taken(before, rows[..n], now + lease)
      {
        TakenOne(before, rows, n, now + lease);
        work := work[rows[n] := Item(Claimed, work[rows[n]].attempts + 1, work[rows[n]].due, now + lease, work[rows[n]].created)];
      }
      assert rows[..|rows|] == rows;
      ClaimingKeeps(events, revisions, before, fails, rows, now, lease);
    }

    method Ack(k: Key)
      requires Valid() && k in work && work[k].state == Claimed
      modifies this`work
      ensures Valid() && work == old(work)[k := old(work)[k].(state := Processed, lease := 0)]
    {
      ItemChanges(events, revisions, work, fails, k, work[k].(state := Processed, lease := 0), fails[k]);
      assert fails[k := fails[k]] == fails;
      hide Revised, AliasesOk, HandedOver, PayloadsKept, AttemptsBounded;
      work := work[k := work[k].(state := Processed, lease := 0)];
    }

    /** A failed attempt: retried later, or quarantined when it was the last. */
    method Fail(k: Key, retryAt: int) returns (state: WorkState)
      requires Valid() && k in work && work[k].state == Claimed
      modifies this`work, this`fails
      ensures Valid() && fails == old(fails)[k := old(fails)[k] + 1]
      ensures state == if old(work)[k].attempts >= 8 then Quarantined else Retryable
      ensures work == old(work)[k := old(work)[k].(state := state, due := retryAt, lease := 0)]
    {
      hide Revised, AliasesOk, HandedOver, PayloadsKept, Bounded;
      state := if work[k].attempts >= MaxAttempts then Quarantined else Retryable;
      var i := work[k].(state := state, due := retryAt, lease := 0);
      FailedIsBounded(work[k], i, fails[k]);
      ItemChanges(events, revisions, work, fails, k, i, fails[k] + 1);
      hide AttemptsBounded;
      work := work[k := i];
      fails := fails[k := fails[k] + 1];
    }

    /** Startup: what the dead process had claimed is pending again. */
    method RecoverClaimed()
      requires Valid()
      modifies this`work
      ensures Valid() && work == Recovered(old(work))
    {
      hide Revised, AliasesOk, HandedOver, PayloadsKept, AttemptsBounded;
      RecoveringKeeps(events, revisions, work, fails);
      work := map k | k in work :: if work[k].state == Claimed then work[k].(state := Pending, lease := 0) else work[k];
    }

    // -------------------------------------------------------------------------------------------
    // Retention
    // -------------------------------------------------------------------------------------------

    /** Drop payloads from before `cutoff`, except of events with unresolved work. Hashes stay. */
    method PurgeRaw(cutoff: int) returns (dropped: nat)
      requires Valid()
      modifies this`events, this`revisions
      ensures Valid()
      ensures events == PurgedEvents(old(events), work, cutoff) && revisions == PurgedRevisions(old(revisions), work, cutoff)
      ensures OldDropped(old(events), events, old(revisions), revisions, work, cutoff)
      ensures dropped == |Dropped(old(events), events)|
    {
      hide Revised, AliasesOk, HandedOver, PayloadsKept, AttemptsBounded, HasUnresolved, OldDropped;
      PurgeKeeps(events, revisions, aliases, births, work, history, cutoff);
      DroppedByPurge(events, work, cutoff);
      PurgeMeans(events, revisions, work, cutoff);
      dropped := |set id | id in events && events[id].kept && PurgeableEvent(events, work, id, cutoff)|;
      events := map id | id in events :: if PurgeableEvent(events, work, id, cutoff) then events[id].(kept := false) else events[id];
      revisions := map k | k in revisions :: if revisions[k].committed < cutoff && !HasUnresolved(work, k.0) then revisions[k].(kept := false) else revisions[k];
    }
  }

  /** One more alias of the list: registered if it is free; the first that somebody else holds decides. */
  lemma NextAlias(before: Aliases, now: Aliases, list: seq<Alias>, k: nat, id: Id, earlier: Option<Id>)
    requires k < |list| && now == Registered(before, list[..k], id) && EarlierHolder(before, list[..k], earlier)
    requires forall a :: a in before ==> before[a] != id
    ensures Registered(before, list[..k + 1], id) == if list[k] !in now then now[list[k] := id] else now
    ensures EarlierHolder(before, list[..k + 1], if list[k] in now && now[list[k]] != id && earlier.None? then Some(now[list[k]]) else earlier)
  {
    var more := list[..k + 1];
    assert more == list[..k] + [list[k]];
    var i := FirstHeld(before, list[..k], earlier);
    assert more[if earlier.Some? then i else k] == list[if earlier.Some? then i else k];
  }

  lemma FirstHeld(aliases: Aliases, list: seq<Alias>, earlier: Option<Id>) returns (i: nat)
    requires EarlierHolder(aliases, list, earlier)
    ensures earlier.None? ==> i == |list|
    ensures earlier.Some? ==> i < |list| && list[i] in aliases && aliases[list[i]] == earlier.value && forall j :: 0 <= j < i ==> list[j] !in aliases
  {
    if earlier.None? {
      i := |list|;
    } else {
      i :| 0 <= i < |list| && list[i] in aliases && aliases[list[i]] == earlier.value && forall j :: 0 <= j < i ==> list[j] !in aliases;
    }
  }

  lemma NoAliasYet(events: Events, aliases: Aliases, births: map<Id, Birth>, id: Id)
    requires AliasesOk(events, aliases, births) && id !in events
    ensures forall a :: a in aliases ==> aliases[a] != id
  {
  }

  lemma NewIsFirst(events: Events, revisions: Revisions, history: History, id: Id)
    requires Revised(events, revisions, history) && id !in events
    ensures HistoryOf(history, id) == [] && forall k :: k in revisions ==> k.0 in events && 1 <= k.1 <= events[k.0].revision
  {
  }

  lemma KnownHasHistory(events: Events, revisions: Revisions, history: History, id: Id)
    requires Revised(events, revisions, history) && id in events
    ensures id in history && forall k :: k in revisions ==> k.0 in events && 1 <= k.1 <= events[k.0].revision
    ensures events[id].revision >= 1
  {
  }

  /** Work is only ever added, pending and untried. */
  ghost predicate OnlyAdded(before: Work, after: Work, fails: map<Key, nat>, now: map<Key, nat>) {
    && (forall k :: k in before ==> k in after && after[k] == before[k])
    && (forall k :: k in fails ==> k in now && now[k] == fails[k])
    && (forall k :: k in after && k !in before ==> after[k].state == Pending && after[k].attempts == 0)
  }

  /** The record is exactly what was stored: one new revision, an update unless it is the first. */
  ghost predicate Describes(a: Accepted, events: Events, before: Revisions, after: Revisions) {
    && (a.id, a.revision) !in before && (a.id, a.revision) in after && after == before[(a.id, a.revision) := after[(a.id, a.revision)]]
    && a.id in events && a.duplicateOf == events[a.id].duplicateOf && a.isUpdate == (a.revision > 1)
  }

  /** The list names every revision stored since, each once, and says of each whether it is an update or a duplicate. */
  ghost predicate Lists(accepted: seq<Accepted>, events: Events, before: Revisions, after: Revisions) {
    && (forall k :: k in before ==> k in after && after[k] == before[k])
    && (forall i, j :: 0 <= i < j < |accepted| ==> (accepted[i].id, accepted[i].revision) != (accepted[j].id, accepted[j].revision))
    && (forall k :: k in after ==> k in before || Listed(accepted, k))
    && (forall i :: 0 <= i < |accepted| ==> ListedRight(accepted[i], events, before, after))
  }

  ghost predicate Listed(accepted: seq<Accepted>, k: (Id, nat)) {
    exists i :: 0 <= i < |accepted| && (accepted[i].id, accepted[i].revision) == k
  }

  predicate ListedRight(a: Accepted, events: Events, before: Revisions, after: Revisions) {
    && (a.id, a.revision) !in before && (a.id, a.revision) in after
    && a.id in events && a.duplicateOf == events[a.id].duplicateOf && a.isUpdate == (a.revision > 1)
  }

  lemma NothingListed(events: Events, revisions: Revisions, work: Work, fails: map<Key, nat>)
    ensures Lists([], events, revisions, revisions) && OnlyAdded(work, work, fails, fails)
  {
  }

  lemma AddedOnwards(a: Work, b: Work, d: Work, f: map<Key, nat>, g: map<Key, nat>, h: map<Key, nat>)
    requires OnlyAdded(a, b, f, g) && OnlyAdded(b, d, g, h)
    ensures OnlyAdded(a, d, f, h)
  {
  }

  lemma ListedOnwards(accepted: seq<Accepted>, was: Events, events: Events, start: Revisions, before: Revisions, after: Revisions, record: Option<Accepted>)
    requires Lists(accepted, was, start, before)
    requires forall x :: x in was ==> x in events && events[x].duplicateOf == was[x].duplicateOf
    requires if record.Some? then Describes(record.value, events, before, after) else after == before
    ensures Lists(if record.Some? then accepted + [record.value] else accepted, events, start, after)
  {
    if record.Some? {
      var more, a := accepted + [record.value], record.value;
      forall i | 0 <= i < |accepted| ensures (accepted[i].id, accepted[i].revision) != (a.id, a.revision) {
        assert ListedRight(accepted[i], was, start, before);
      }
      forall k | k in after && k !in start ensures Listed(more, k) {
        if k in before {
          assert Listed(accepted, k);
          var i :| 0 <= i < |accepted| && (accepted[i].id, accepted[i].revision) == k;
          assert more[i] == accepted[i];
        } else {
          assert more[|accepted|] == a;
        }
      }
      forall i | 0 <= i < |more| ensures ListedRight(more[i], events, start, after) {
        assert i < |accepted| ==> ListedRight(accepted[i], was, start, before);
      }
    } else {
      forall i | 0 <= i < |accepted| ensures ListedRight(accepted[i], events, start, after) {
        assert ListedRight(accepted[i], was, start, before);
      }
    }
  }

  lemma NothingYet(events: Events, items: seq<PageItem>)
    ensures Settled(events, items[..0]) && LatestOf(events, items[..0])
  {
  }

  lemma SettledMore(events: Events, items: seq<PageItem>, k: nat)
    requires k < |items|
    ensures Settled(events, items[..k + 1]) <==> Settled(events, items[..k]) && Settled(events, [items[k]])
  {
    assert items[..k + 1][k] == items[k];
    assert forall i :: 0 <= i < k ==> items[..k + 1][i] == items[..k][i];
    assert [items[k]][0] == items[k];
  }

  /** The stored hash of every id of the page is that of its last item. */
  ghost predicate LatestOf(events: Events, items: seq<PageItem>) {
    forall i :: 0 <= i < |items| && IsLast(items, i) ==> items[i].id in events && events[items[i].id].hash == items[i].delivery.stated
  }

  ghost predicate IsLast(items: seq<PageItem>, i: nat)
    requires i < |items|
  {
    forall j :: i < j < |items| ==> items[j].id != items[i].id
  }

  lemma LatestMore(was: Events, events: Events, items: seq<PageItem>, k: nat)
    requires k < |items| && items[k].id in events
    requires HashesAgree(items) ==> LatestOf(was, items[..k])
    requires events[items[k].id].hash == items[k].delivery.stated || events[items[k].id].hash == items[k].delivery.content
    requires forall x :: x in was ==> x in events && (x != items[k].id ==> events[x] == was[x])
    ensures HashesAgree(items) ==> LatestOf(events, items[..k + 1])
  {
    if HashesAgree(items) {
      var more, init := items[..k + 1], items[..k];
      forall i | 0 <= i < |more| && IsLast(more, i)
        ensures more[i].id in events && events[more[i].id].hash == more[i].delivery.stated
      {
        if i < k {
          assert more[k].id != more[i].id;
          assert IsLast(init, i) by {
            forall j | i < j < |init| ensures init[j].id != init[i].id { assert more[j].id != more[i].id; }
          }
        }
      }
    }
  }

  lemma LastOne(items: seq<PageItem>, i: nat) returns (j: nat)
    requires i < |items|
    ensures i <= j < |items| && items[j].id == items[i].id && IsLast(items, j)
    decreases |items| - i
  {
    if IsLast(items, i) {
      j := i;
    } else {
      var m :| i < m < |items| && items[m].id == items[i].id;
      j := LastOne(items, m);
    }
  }

  lemma LatestIffOne(events: Events, items: seq<PageItem>)
    requires LatestOf(events, items) && HashesAgree(items)
    ensures Settled(events, items) <==> OnePayload(items)
  {
    if OnePayload(items) {
      forall i | 0 <= i < |items| ensures items[i].id in events && events[items[i].id].hash == items[i].delivery.stated {
        var j := LastOne(items, i);
      }
    }
  }

  // ---------------------------------------------------------------------------------------------
  // Work items
  // ---------------------------------------------------------------------------------------------

  predicate Distinct(rows: seq<Key>) {
    forall i, j :: 0 <= i < j < |rows| ==> rows[i] != rows[j]
  }

  /** Claimable: waiting and due, or claimed under a lease that ran out. */
  predicate Due(i: Item, now: int) {
    ((i.state == Pending || i.state == Retryable) && i.due <= now) || (i.state == Claimed && i.lease < now)
  }

  function Taken(work: Work, rows: seq<Key>, until: int): Work {
    map k | k in work :: if k in rows then Item(Claimed, work[k].attempts + 1, work[k].due, until, work[k].created) else work[k]
  }

  lemma TakenOne(work: Work, rows: seq<Key>, n: nat, until: int)
    requires n < |rows| && Distinct(rows) && rows[n] in work
    ensures rows[n] in Taken(work, rows[..n], until) && Taken(work, rows[..n], until)[rows[n]] == work[rows[n]]
    ensures Taken(work, rows[..n + 1], until) ==
      Taken(work, rows[..n], until)[rows[n] := Item(Claimed, work[rows[n]].attempts + 1, work[rows[n]].due, until, work[rows[n]].created)]
  {
    assert rows[..n + 1] == rows[..n] + [rows[n]];
  }

  lemma ClaimingKeeps(events: Events, revisions: Revisions, work: Work, fails: map<Key, nat>, rows: seq<Key>, now: int, lease: int)
    requires HandedOver(events, work) && PayloadsKept(revisions, work) && AttemptsBounded(work, fails)
    requires forall k :: k in rows ==> k in work && Due(work[k], now)
    ensures var w := Taken(work, rows, now + lease); HandedOver(events, w) && PayloadsKept(revisions, w) && AttemptsBounded(w, fails)
  {
    var w := Taken(work, rows, now + lease);
    assert w.Keys == work.Keys;
    forall k | k in w ensures Bounded(w[k], fails[k]) {
      assert Bounded(work[k], fails[k]);
    }
    hide Wanted;
  }

  /** An item may move on to any state in which its payload and attempts are accounted for. */
  lemma ItemChanges(events: Events, revisions: Revisions, work: Work, fails: map<Key, nat>, k: Key, i: Item, n: nat)
    requires HandedOver(events, work) && PayloadsKept(revisions, work) && AttemptsBounded(work, fails)
    requires k in work && Unresolved(work[k].state) && (Bounded(work[k], fails[k]) ==> Bounded(i, n))
    ensures HandedOver(events, work[k := i]) && PayloadsKept(revisions, work[k := i]) && AttemptsBounded(work[k := i], fails[k := n])
  {
    hide Wanted;
  }

  lemma FailedIsBounded(was: Item, i: Item, fails: nat)
    requires was.state == Claimed && Bounded(was, fails) && i.attempts == was.attempts
    requires i.state == if was.attempts >= MaxAttempts then Quarantined else Retryable
    ensures Bounded(i, fails + 1)
  {
  }

  function Recovered(work: Work): Work {
    map k | k in work :: if work[k].state == Claimed then work[k].(state := Pending, lease := 0) else work[k]
  }

  lemma RecoveringKeeps(events: Events, revisions: Revisions, work: Work, fails: map<Key, nat>)
    requires HandedOver(events, work) && PayloadsKept(revisions, work) && AttemptsBounded(work, fails)
    ensures HandedOver(events, Recovered(work)) && PayloadsKept(revisions, Recovered(work)) && AttemptsBounded(Recovered(work), fails)
  {
    var w := Recovered(work);
    assert w.Keys == work.Keys;
    forall k | k in w ensures Bounded(w[k], fails[k]) {
      assert Bounded(work[k], fails[k]);
    }
    hide Wanted;
  }

  // ---------------------------------------------------------------------------------------------
  // Retention
  // ---------------------------------------------------------------------------------------------

  predicate HasUnresolved(work: Work, id: Id) {
    exists k :: k in work && k.id == id && Unresolved(work[k].state)
  }

  predicate PurgeableEvent(events: Events, work: Work, id: Id, cutoff: int)
    requires id in events
  {
    events[id].observed < cutoff && !HasUnresolved(work, id)
  }

  function PurgedEvents(events: Events, work: Work, cutoff: int): Events {
    map id | id in events :: if PurgeableEvent(events, work, id, cutoff) then events[id].(kept := false) else events[id]
  }

  function PurgedRevisions(revisions: Revisions, work: Work, cutoff: int): Revisions {
    map k | k in revisions :: if revisions[k].committed < cutoff && !HasUnresolved(work, k.0) then revisions[k].(kept := false) else revisions[k]
  }

  /** The events whose payload was dropped. */
  function Dropped(before: Events, after: Events): set<Id> {
    set id | id in before && id in after && before[id].kept && !after[id].kept
  }

  /** A payload is gone exactly if it was from before the cutoff and no work of its event is pending, claimed or retryable. */
  ghost predicate OldDropped(events: Events, now: Events, revisions: Revisions, left: Revisions, work: Work, cutoff: int) {
    && now.Keys == events.Keys && left.Keys == revisions.Keys
    && (forall id :: id in events ==>
      now[id] == events[id].(kept := events[id].kept && (events[id].observed >= cutoff || Needed(work, id))))
    && (forall r :: r in revisions ==>
      left[r] == revisions[r].(kept := revisions[r].kept && (revisions[r].committed >= cutoff || Needed(work, r.0))))
  }

  ghost predicate Needed(work: Work, id: Id) {
    exists k :: k in work && k.id == id && work[k].state in {Pending, Claimed, Retryable}
  }

  lemma PurgeMeans(events: Events, revisions: Revisions, work: Work, cutoff: int)
    ensures OldDropped(events, PurgedEvents(events, work, cutoff), revisions, PurgedRevisions(revisions, work, cutoff), work, cutoff)
  {
    forall id ensures HasUnresolved(work, id) <==> Needed(work, id) {
      UnresolvedMeans(work, id);
    }
    hide HasUnresolved, Needed;
  }

  lemma UnresolvedMeans(work: Work, id: Id)
    ensures HasUnresolved(work, id) <==> Needed(work, id)
  {
  }

  lemma DroppedByPurge(events: Events, work: Work, cutoff: int)
    ensures (set id | id in events && events[id].kept && PurgeableEvent(events, work, id, cutoff))
         == Dropped(events, PurgedEvents(events, work, cutoff))
  {
    hide PurgeableEvent;
  }

  lemma PurgeKeepsRevisions(events: Events, revisions: Revisions, work: Work, history: History, cutoff: int)
    requires Revised(events, revisions, history)
    ensures Revised(PurgedEvents(events, work, cutoff), PurgedRevisions(revisions, work, cutoff), history)
  {
    hide HasUnresolved, Stored;
    var e, r := PurgedEvents(events, work, cutoff), PurgedRevisions(revisions, work, cutoff);
    forall id | id in e ensures RevisedOne(id, e[id], r, history[id]) {
      assert RevisedOne(id, events[id], revisions, history[id]);
    }
  }

  lemma PurgeKeepsAliases(events: Events, aliases: Aliases, births: map<Id, Birth>, work: Work, cutoff: int)
    requires AliasesOk(events, aliases, births)
    ensures AliasesOk(PurgedEvents(events, work, cutoff), aliases, births)
  {
    hide BirthOk;
    var e := PurgedEvents(events, work, cutoff);
    PurgedSame(events, work, cutoff);
    hide PurgedEvents;
    forall id | id in e ensures BirthOk(id, e, aliases, births) {
      BirthSame(id, events, e, aliases, births);
    }
  }

  lemma PurgedSame(events: Events, work: Work, cutoff: int)
    ensures var e := PurgedEvents(events, work, cutoff);
      e.Keys == events.Keys && |e| == |events| && forall id :: id in e ==> e[id].duplicateOf == events[id].duplicateOf
  {
    hide PurgeableEvent;
    var e := PurgedEvents(events, work, cutoff);
    assert e.Keys == events.Keys;
    assert |e.Keys| == |e| && |events.Keys| == |events|;
  }

  lemma BirthSame(id: Id, events: Events, now: Events, aliases: Aliases, births: map<Id, Birth>)
    requires AliasesOk(events, aliases, births) && id in events && id in now
    requires |now| == |events| && now[id].duplicateOf == events[id].duplicateOf
    ensures BirthOk(id, now, aliases, births)
  {
    assert BirthOk(id, events, aliases, births);
  }

  lemma PurgeKeepsWork(events: Events, work: Work, cutoff: int)
    requires HandedOver(events, work)
    ensures HandedOver(PurgedEvents(events, work, cutoff), work)
  {
    hide PurgeableEvent;
    var e := PurgedEvents(events, work, cutoff);
    forall k ensures k in work <==> Wanted(e, k) {
      assert k in work <==> Wanted(events, k);
    }
  }

  lemma PurgeKeepsPayloads(revisions: Revisions, work: Work, cutoff: int)
    requires PayloadsKept(revisions, work)
    ensures PayloadsKept(PurgedRevisions(revisions, work, cutoff), work)
  {
    var r := PurgedRevisions(revisions, work, cutoff);
    forall k | k in work && Unresolved(work[k].state) ensures (k.id, k.revision) in r && r[(k.id, k.revision)].kept {
      assert HasUnresolved(work, k.id);
    }
  }

  lemma PurgeKeeps(events: Events, revisions: Revisions, aliases: Aliases, births: map<Id, Birth>, work: Work, history: History, cutoff: int)
    requires Revised(events, revisions, history) && AliasesOk(events, aliases, births) && HandedOver(events, work) && PayloadsKept(revisions, work)
    ensures var (e, r) := (PurgedEvents(events, work, cutoff), PurgedRevisions(revisions, work, cutoff));
      Revised(e, r, history) && AliasesOk(e, aliases, births) && HandedOver(e, work) && PayloadsKept(r, work)
  {
    hide Revised, AliasesOk, HandedOver, PayloadsKept, PurgedEvents, PurgedRevisions;
    PurgeKeepsRevisions(events, revisions, work, history, cutoff);
    PurgeKeepsAliases(events, aliases, births, work, cutoff);
    PurgeKeepsWork(events, work, cutoff);
    PurgeKeepsPayloads(revisions, work, cutoff);
  }
}
