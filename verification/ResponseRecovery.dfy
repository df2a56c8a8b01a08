/**
  Recovery after a restart, from tables in any condition, and the claim transaction on any tables.
*/
module ResponseRecovery {
  import opened ResponseModel
  import opened ResponseSpec
  import opened ResponseRuns
  import opened ResponseProofs
  import opened ResponseSafety

  // ---------------------------------------------------------------------------------------------
  // Recovery from arbitrary tables
  // ---------------------------------------------------------------------------------------------

  ghost predicate ListsAll(db: Db, open: seq<(Id, Delivery)>) {
    && Lists(db, open)
    && forall id :: id in db.outbox && (db.outbox[id].delivery == InQueue || db.outbox[id].delivery == InFlight) ==> Among(open, id)
  }

  /** No action, an interrupted delivery, or an action that was never queued. */
  predicate NeedsOperator(db: Db, id: Id) {
    id !in db.actions || db.actions[id].state in {Dispatching, Proposed, ApprovalRequired, Approved}
  }

  /** What an inspected row looks like afterwards, by the action's real state. */
  ghost predicate Repaired(before: Db, after: Db, id: Id) {
    && id in after.outbox
    && var shown := after.outbox[id].delivery;
      if id !in before.actions then id !in after.actions && shown == Inconsistent
      else
        var a := before.actions[id];
        && id in after.actions
        && after.actions[id] == (if a.state == Dispatching then a.(state := ReconciliationRequired, log := a.log + [Move(Some(Dispatching), ReconciliationRequired, "system")]) else a)
        && shown == Shown(a.state)
  }

  /** The label recovery leaves, state by state. */
  function Shown(s: State): Delivery {
    match s
    case Queued => InQueue
    case Dispatching => Unresolved
    case ReconciliationRequired => Unresolved
    case Acknowledged => Delivered
    case Completed => Delivered
    case FailedWithoutEffect => Failed
    case Expired => Lapsed
    case Cancelled => Withdrawn
    case Rejected => Withdrawn
    case Proposed => Inconsistent
    case ApprovalRequired => Inconsistent
    case Approved => Inconsistent
  }

  ghost predicate Untouched(before: Db, after: Db, id: Id) {
    && (id in after.actions <==> id in before.actions) && (id in before.actions ==> after.actions[id] == before.actions[id])
    && (id in after.outbox <==> id in before.outbox) && (id in before.outbox ==> after.outbox[id] == before.outbox[id])
  }

  ghost predicate Among(open: seq<(Id, Delivery)>, id: Id) {
    exists i :: 0 <= i < |open| && open[i].0 == id
  }

  lemma RowIsRepaired(db: Db, id: Id, listed: Delivery)
    requires id in db.outbox && db.outbox[id].delivery == listed && (listed == InQueue || listed == InFlight)
    ensures var (after, operator) := RecoverRow(db, id, listed, ActionOf(db, id));
      && Repaired(db, after, id) && operator == NeedsOperator(db, id)
      && (forall x :: x != id ==> Untouched(db, after, x))
  {
  }

  /** The inspected rows an operator must look at. */
  ghost function Operators(db: Db, open: seq<(Id, Delivery)>): set<Id> {
    set id | id in db.outbox && Among(open, id) && NeedsOperator(db, id)
  }

  ghost predicate AllRepaired(before: Db, after: Db, open: seq<(Id, Delivery)>) {
    && (forall id :: Among(open, id) ==> Repaired(before, after, id))
    && (forall id :: !Among(open, id) ==> Untouched(before, after, id))
  }

  /** Only inspected rows change, each is repaired according to its action, and every operator case is counted. */
  lemma {:induction false} RecoveryRepairs(db: Db, open: seq<(Id, Delivery)>)
    requires Lists(db, open)
    ensures var (after, n) := RecoverAll(db, open);
      AllRepaired(db, after, open) && n == |Operators(db, open)|
  {
    if open == [] {
      assert Operators(db, open) == {};
    } else {
      var init, entry := open[..|open| - 1], open[|open| - 1];
      RecoveryRepairs(db, init);
      LastIsNew(db, open);
      hide Lists, RecoverRow, NeedsOperator;
      RowIsRepaired(RecoverAll(db, init).0, entry.0, entry.1);
      hide Repaired, Among;
      RepairsOneMore(db, RecoverAll(db, init).0, RecoverAll(db, open).0, open);
      hide Untouched;
      OperatorsGrow(db, open);
    }
  }

  lemma LastIsNew(db: Db, open: seq<(Id, Delivery)>)
    requires Lists(db, open) && open != []
    ensures var (init, entry) := (open[..|open| - 1], open[|open| - 1]);
      Lists(db, init) && !Among(init, entry.0) && entry.0 in db.outbox && db.outbox[entry.0].delivery == entry.1
  {
  }

  lemma RepairsOneMore(db: Db, before: Db, after: Db, open: seq<(Id, Delivery)>)
    requires open != [] && !Among(open[..|open| - 1], open[|open| - 1].0) && AllRepaired(db, before, open[..|open| - 1])
    requires Repaired(before, after, open[|open| - 1].0) && forall x :: x != open[|open| - 1].0 ==> Untouched(before, after, x)
    ensures AllRepaired(db, after, open)
  {
    var init, id := open[..|open| - 1], open[|open| - 1].0;
    assert Untouched(db, before, id);
    forall x | Among(open, x) ensures Repaired(db, after, x) {
      SplitAmong(open, x);
      if x != id { assert Untouched(before, after, x); }
    }
    forall x | !Among(open, x) ensures Untouched(db, after, x) {
      SplitAmong(open, x);
      assert Untouched(before, after, x);
    }
  }

  lemma OperatorsGrow(db: Db, open: seq<(Id, Delivery)>)
    requires open != [] && open[|open| - 1].0 in db.outbox && !Among(open[..|open| - 1], open[|open| - 1].0)
    ensures var (init, id) := (open[..|open| - 1], open[|open| - 1].0);
      |Operators(db, open)| == |Operators(db, init)| + (if NeedsOperator(db, id) then 1 else 0)
  {
    var init, id := open[..|open| - 1], open[|open| - 1].0;
    forall x ensures Among(open, x) <==> Among(init, x) || x == id {
      SplitAmong(open, x);
    }
    hide Among, NeedsOperator;
    assert Operators(db, open) == if NeedsOperator(db, id) then Operators(db, init) + {id} else Operators(db, init);
  }

  lemma SplitAmong(open: seq<(Id, Delivery)>, x: Id)
    requires open != []
    ensures Among(open, x) <==> Among(open[..|open| - 1], x) || x == open[|open| - 1].0
  {
    var init := open[..|open| - 1];
    if Among(init, x) {
      var i :| 0 <= i < |init| && init[i].0 == x;
      assert open[i].0 == x;
    }
    if Among(open, x) {
      var i :| 0 <= i < |open| && open[i].0 == x;
      assert i < |init| ==> init[i].0 == x;
    }
  }

  predicate SafeRow(db: Db, id: Id)
    requires id in db.outbox
  {
    && db.outbox[id].delivery != InFlight
    && (db.outbox[id].delivery == InQueue ==> id in db.actions && db.actions[id].state == Queued)
  }

  lemma RepairedIsSafe(before: Db, after: Db, id: Id)
    requires Repaired(before, after, id)
    ensures SafeRow(after, id)
  {
  }

  lemma UntouchedIsSafe(db: Db, after: Db, open: seq<(Id, Delivery)>, id: Id)
    requires ListsAll(db, open) && !Among(open, id) && Untouched(db, after, id) && id in after.outbox
    ensures SafeRow(after, id)
  {
    hide Lists, Among;
  }

  /** After recovery of any tables, nothing is in flight and only truly queued actions can be claimed. */
  lemma RecoveredTablesAreSafe(db: Db, open: seq<(Id, Delivery)>)
    requires ListsAll(db, open)
    ensures var after := RecoverAll(db, open).0;
      forall id :: id in after.outbox ==> SafeRow(after, id)
  {
    hide RecoverAll, Among, SafeRow, Repaired, Untouched;
    RecoveryRepairs(db, open);
    var after := RecoverAll(db, open).0;
    forall id | id in after.outbox ensures SafeRow(after, id) {
      if Among(open, id) {
        RepairedIsSafe(db, after, id);
      } else {
        UntouchedIsSafe(db, after, open, id);
      }
    }
  }

  /** Running recovery again changes nothing and asks for no operator. */
  lemma RecoveryIsIdempotent(db: Db, open: seq<(Id, Delivery)>, again: seq<(Id, Delivery)>)
    requires ListsAll(db, open) && Lists(RecoverAll(db, open).0, again)
    ensures RecoverAll(RecoverAll(db, open).0, again) == (RecoverAll(db, open).0, 0)
  {
    var after := RecoverAll(db, open).0;
    RecoveredTablesAreSafe(db, open);
    hide RecoverAll;
    assert forall i :: 0 <= i < |again| ==> SafeRow(after, again[i].0);
    QuietRecovery(after, again);
  }

  lemma {:induction false} QuietRecovery(db: Db, open: seq<(Id, Delivery)>)
    requires forall i :: 0 <= i < |open| ==> open[i].1 == InQueue && open[i].0 in db.actions && db.actions[open[i].0].state == Queued
    ensures RecoverAll(db, open) == (db, 0)
  {
    if open != [] {
      QuietRecovery(db, open[..|open| - 1]);
    }
  }

  /** From consistent tables recovery gives consistent tables in which nothing is dispatching. */
  lemma {:induction false} RecoveryKeepsConsistent(c: Config, db: Db, open: seq<(Id, Delivery)>)
    requires DbOk(c, db) && ListsAll(db, open)
    ensures var after := RecoverAll(db, open).0;
      DbOk(c, after) && forall id :: id in after.actions ==> after.actions[id].state != Dispatching
  {
    var after := RecoverAll(db, open).0;
    EachStepKeeps(c, db, open);
    RecoveredTablesAreSafe(db, open);
    hide RecoverAll, DbOk;
    forall id | id in after.actions ensures after.actions[id].state != Dispatching {
      assert id in after.outbox ==> SafeRow(after, id);
      RowOf(c, after, id);
      MirrorQueued(after.actions[id].state);
    }
  }

  lemma {:induction false} EachStepKeeps(c: Config, db: Db, open: seq<(Id, Delivery)>)
    requires DbOk(c, db) && Lists(db, open)
    ensures DbOk(c, RecoverAll(db, open).0)
  {
    hide DbOk, RecoverRow;
    if open != [] {
      var init, entry := open[..|open| - 1], open[|open| - 1];
      EachStepKeeps(c, db, init);
      RecoveryRepairs(db, init);
      var before := RecoverAll(db, init).0;
      assert !Among(init, entry.0);
      assert Untouched(db, before, entry.0);
      hide Lists;
      RowIsMirrored(c, before, entry.0);
      MirrorQueued(before.actions[entry.0].state);
      CurrentRead(c, before, entry.0);
      RepairRow(c, before, Inspecting(entry.0, entry.1, ActionOf(before, entry.0), []));
    }
  }

  // ---------------------------------------------------------------------------------------------
  // The claim transaction on arbitrary tables
  // ---------------------------------------------------------------------------------------------

  /** The row's action is queued, unexpired, and on the current revision of its investigation. */
  predicate Sendable(db: Db, id: Id, now: int) {
    id in db.actions && db.actions[id].state == Queued && db.actions[id].expiresAt >= now && !Stale(db, db.actions[id])
  }

  /** A queued row that cannot be sent is closed: withdrawn, or lapsed together with its action. */
  ghost predicate Closed(before: Db, after: Db, id: Id, now: int) {
    && id in before.outbox && before.outbox[id].delivery == InQueue && !Sendable(before, id, now) && id in after.outbox
    && (id in after.actions <==> id in before.actions)
    && if id in before.actions && before.actions[id].state == Queued
       then after.actions[id] == Moved(before.actions[id], Expired, "system") && after.outbox[id] == before.outbox[id].(delivery := Lapsed)
       else (id in before.actions ==> after.actions[id] == before.actions[id]) && after.outbox[id] == before.outbox[id].(delivery := Withdrawn)
  }

  ghost predicate Sending(before: Db, after: Db, id: Id, now: int) {
    && id in before.outbox && before.outbox[id].delivery == InQueue && Sendable(before, id, now)
    && id in after.actions && after.actions[id] == Moved(before.actions[id], Dispatching, "system")
    && id in after.outbox && after.outbox[id] == Row(InFlight, before.outbox[id].attempts + 1, before.outbox[id].created)
  }

  /** Some queued rows were closed, nothing else happened. */
  ghost predicate Swept(before: Db, after: Db, now: int) {
    && after.investigations == before.investigations
    && after.outbox.Keys == before.outbox.Keys
    && forall id :: Untouched(before, after, id) || Closed(before, after, id, now)
  }

  lemma TurnSweeps(before: Db, db: Db, id: Id, now: int)
    requires Swept(before, db, now) && id in db.outbox && db.outbox[id].delivery == InQueue
    ensures var (next, send) := ClaimRow(db, id, now);
      && send == Sendable(before, id, now)
      && (!send ==> Swept(before, next, now) && next.outbox[id].delivery != InQueue)
      && (send ==> Sending(before, next, id, now) && next.investigations == before.investigations
                   && (forall x :: x != id ==> Untouched(before, next, x) || Closed(before, next, x, now)))
      && next.outbox.Keys == db.outbox.Keys
      && (forall x :: x in db.outbox && x != id ==> next.outbox[x] == db.outbox[x])
  {
    assert Untouched(before, db, id);
    OneTurn(db, id, now);
    var (next, send) := ClaimRow(db, id, now);
    hide ClaimRow, Stale;
    forall x | x != id ensures Untouched(before, next, x) || Closed(before, next, x, now) {
      assert Untouched(db, next, x);
      assert Untouched(before, db, x) || Closed(before, db, x, now);
    }
  }

  lemma OneTurn(db: Db, id: Id, now: int)
    requires id in db.outbox && db.outbox[id].delivery == InQueue
    ensures var (next, send) := ClaimRow(db, id, now);
      && send == Sendable(db, id, now) && next.investigations == db.investigations && next.outbox.Keys == db.outbox.Keys
      && (if send then Sending(db, next, id, now) else Closed(db, next, id, now))
      && (forall x :: x != id ==> Untouched(db, next, x))
  {
    hide Stale;
  }
}
