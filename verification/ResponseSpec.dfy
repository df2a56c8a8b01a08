/**
  What each transaction of the response layer does to the two tables, as functions of the database.
  The store class is proved against these; the theorems about runs are proved about them.
*/
module ResponseSpec {
  import opened ResponseModel

  // ---------------------------------------------------------------------------------------------
  // Proposal, approval, rejection, cancellation
  // ---------------------------------------------------------------------------------------------

  predicate KeyTaken(db: Db, key: Key) {
    exists id :: id in db.actions && db.actions[id].key == key && !Freed(db.actions[id].state)
  }

  function NewAction(key: Key, user: string, w: Workflow, now: int): Action {
    Action(key, user, w.required, [], now + w.ttl, ApprovalRequired,
           [Move(None, Proposed, user), Move(Some(Proposed), ApprovalRequired, user)])
  }

  function Propose(db: Db, policy: Policy, enabled: bool, id: Id, user: string, role: Role, key: Key, now: int): (Db, Reply) {
    if RoleRank(role) < RoleRank(Analyst) then (db, Forbidden)
    else if !enabled then (db, Unavailable)
    else if key.workflow !in policy then (db, Forbidden)
    else if id in db.actions || KeyTaken(db, key) then (db, Conflict)
    else (Put(db, id, NewAction(key, user, policy[key.workflow], now)), Done)
  }

  function Expire(db: Db, id: Id): Db
    requires id in db.actions
  {
    Put(db, id, Moved(db.actions[id], Expired, "system"))
  }

  predicate Approver(a: Action, user: string) {
    exists i :: 0 <= i < |a.approvals| && a.approvals[i].user == user
  }

  function WithApproval(a: Action, user: string, role: Role): Action {
    a.(approvals := a.approvals + [Approval(user, role)])
  }

  /** One approval; the last one needed also queues the action. */
  function Endorse(db: Db, id: Id, user: string, role: Role, now: int): (Db, Reply)
    requires id in db.actions
  {
    var a := WithApproval(db.actions[id], user, role);
    if |a.approvals| < a.required then (Put(db, id, a), Done)
    else if id in db.outbox then (db, Unavailable)  // primary key violation: the transaction rolls back
    else
      var queued := Put(db, id, Moved(Moved(a, Approved, user), Queued, "system"));
      (queued.(outbox := queued.outbox[id := Row(InQueue, 0, now)]), Done)
  }

  function Approve(db: Db, policy: Policy, user: string, role: Role, id: Id, now: int): (Db, Reply) {
    if RoleRank(role) < RoleRank(Responder) then (db, Forbidden)
    else if id !in db.actions then (db, NotFound)
    else
      var a := db.actions[id];
      if a.state != ApprovalRequired then (db, Conflict)
      else if a.expiresAt < now || Stale(db, a) then (Expire(db, id), Conflict)
      else if a.key.workflow !in policy then (db, Forbidden)
      else if policy[a.key.workflow].separation && user == a.requester then (db, Forbidden)
      else if Approver(a, user) then (db, Conflict)
      else Endorse(db, id, user, role, now)
  }

  function Reject(db: Db, user: string, role: Role, id: Id): (Db, Reply) {
    if RoleRank(role) < RoleRank(Responder) then (db, Forbidden)
    else if id !in db.actions then (db, NotFound)
    else if db.actions[id].state != ApprovalRequired then (db, Conflict)
    else (Put(db, id, Moved(db.actions[id], Rejected, user)), Done)
  }

  function Cancel(db: Db, user: string, role: Role, id: Id): (Db, Reply) {
    if id !in db.actions then (db, NotFound)
    else
      var a := db.actions[id];
      if user != a.requester && RoleRank(role) < RoleRank(Responder) then (db, Forbidden)
      else if a.state != ApprovalRequired && a.state != Approved && a.state != Queued then (db, Conflict)
      else
        var marked := if a.state == Queued then Mark(db, id, Withdrawn, Some(InQueue)) else db;
        (Put(marked, id, Moved(a, Cancelled, user)), Done)
  }

  // ---------------------------------------------------------------------------------------------
  // Dispatch
  // ---------------------------------------------------------------------------------------------

  /** One turn of the claim loop on one queued row; the flag says whether the action is now to be sent. */
  function ClaimRow(db: Db, id: Id, now: int): (Db, bool)
    requires id in db.outbox
  {
    if id !in db.actions || db.actions[id].state != Queued then
      (Mark(db, id, Withdrawn, Some(InQueue)), false)
    else
      var a := db.actions[id];
      if a.expiresAt < now || Stale(db, a) then
        (Mark(Expire(db, id), id, Lapsed, Some(InQueue)), false)
      else
        var sending := Put(db, id, Moved(a, Dispatching, "system"));
        (sending.(outbox := sending.outbox[id := Row(InFlight, db.outbox[id].attempts + 1, db.outbox[id].created)]), true)
  }

  /** `_settle_from`: refuse an illegal transition, then compare-and-set on the state that was read. */
  function Settle(db: Db, id: Id, read: Action, next: State, who: string): (Db, bool) {
    if !Legal(read.state, next) || id !in db.actions || db.actions[id].state != read.state then (db, false)
    else
      var a := db.actions[id].(state := next, log := read.log + [Move(Some(read.state), next, who)]);
      var mirror := SettledLabel(next);
      (if mirror.Some? then Mark(Put(db, id, a), id, mirror.value, None) else Put(db, id, a), true)
  }

  datatype Outcome = Accepted | Refused | Unknown

  function ResultState(o: Outcome): State {
    match o
    case Accepted => Acknowledged
    case Refused => FailedWithoutEffect
    case Unknown => ReconciliationRequired
  }

  // ---------------------------------------------------------------------------------------------
  // Recovery and reconciliation
  // ---------------------------------------------------------------------------------------------

  /** What recovery does about one open row, given the label it listed and the action it read. */
  function RecoverRow(db: Db, id: Id, listed: Delivery, read: Option<Action>): (Db, bool) {
    if read.None? then (Mark(db, id, Inconsistent, None), true)
    else
      var a := read.value;
      if a.state == Queued then
        (if listed == InFlight then Mark(db, id, InQueue, None) else db, false)
      else if a.state == Dispatching then
        (Settle(db, id, a, ReconciliationRequired, "system").0, true)
      else if SettledLabel(a.state).Some? then
        (Mark(db, id, SettledLabel(a.state).value, None), false)
      else
        (Mark(db, id, Inconsistent, None), true)
  }

  function ActionOf(db: Db, id: Id): Option<Action> {
    if id in db.actions then Some(db.actions[id]) else None
  }

  datatype Finding = DeliveredFinding | NotDelivered

  /** A person settles an ambiguous delivery, from the action they read before. */
  function Reconcile(db: Db, user: string, role: Role, id: Id, read: Action, finding: Finding): (Db, Reply) {
    if RoleRank(role) < RoleRank(Responder) then (db, Forbidden)
    else if read.state != ReconciliationRequired then (db, Conflict)
    else if id !in db.actions || db.actions[id].state != ReconciliationRequired then (db, Conflict)
    else
      var next := if finding.DeliveredFinding? then Acknowledged else FailedWithoutEffect;
      var a := db.actions[id].(state := next, log := read.log + [Move(Some(read.state), next, user)]);
      (Mark(Put(db, id, a), id, if finding.DeliveredFinding? then Delivered else Failed, None), Done)
  }

  /** The status check: exactly one run with our tracking id, in a delivered state, settles the question. */
  function CheckStatus(db: Db, id: Id, proven: bool): Db {
    if id in db.actions && db.actions[id].state == ReconciliationRequired && proven then
      Mark(Put(db, id, Moved(db.actions[id], Acknowledged, "system")), id, Delivered, None)
    else db
  }

  /** Recovery: over the open rows, in the order listed; counts the rows an operator must look at. */
  function RecoverAll(db: Db, open: seq<(Id, Delivery)>): (Db, nat) {
    if open == [] then (db, 0)
    else
      var (before, n) := RecoverAll(db, open[..|open| - 1]);
      var (id, listed) := open[|open| - 1];
      var (after, operator) := RecoverRow(before, id, listed, ActionOf(before, id));
      (after, if operator then n + 1 else n)
  }
}
