/**
  The response tables and the transactions on them, step by step as the program performs them. Each
  method says what it means for the tables: which single legal move it makes, that a refusal changes
  nothing, and that consistent tables stay consistent. Its last clause ties it to the function that
  runs are made of.
*/
module ResponseStore {
  import opened ResponseModel
  import opened ResponseSpec
  import opened ResponseRuns
  import opened ResponseProofs
  import opened ResponseRecovery

  class Store {
    const config: Config
    var actions: map<Id, Action>
    var outbox: map<Id, Row>
    var investigations: map<string, Investigation>

    ghost function Snapshot(): Db
      reads this
    {
      Db(actions, outbox, investigations)
    }

    ghost predicate Consistent()
      reads this
    {
      DbOk(config, Snapshot())
    }

    constructor (config: Config)
      ensures Snapshot() == Empty.db && this.config == config && Consistent()
    {
      this.config := config;
      actions, outbox, investigations := map[], map[], map[];
    }

    // -------------------------------------------------------------------------------------------
    // Reads
    // -------------------------------------------------------------------------------------------

    /** Follow at most five merges. */
    method LatestRevision(cluster: string) returns (latest: Option<int>)
      ensures latest == CurrentRevision(investigations, cluster, 5)
    {
      var here := cluster;
      for k := 0 to 5
        invariant CurrentRevision(investigations, cluster, 5) == CurrentRevision(investigations, here, 5 - k)
      {
        if here !in investigations {
          return None;
        }
        var found := investigations[here];
        if found.mergedInto.None? {
          return Some(found.latest);
        }
        here := found.mergedInto.value;
      }
      latest := None;
    }

    /** The investigation moved on since the action was proposed. */
    method IsStale(a: Action) returns (stale: bool)
      ensures stale == Stale(Snapshot(), a)
    {
      var latest := LatestRevision(a.key.cluster);
      stale := latest.Some? && latest.value != a.key.revision;
    }

    // -------------------------------------------------------------------------------------------
    // Row updates
    // -------------------------------------------------------------------------------------------

    method SetState(id: Id, d: Delivery, guard: Option<Delivery>) returns (changed: bool)
      modifies this
      ensures Snapshot() == Mark(old(Snapshot()), id, d, guard)
      ensures changed <==> id in old(outbox) && (guard.None? || guard.value == old(outbox)[id].delivery)
    {
      changed := false;
      if id in outbox {
        var row := outbox[id];
        if guard.None? || guard.value == row.delivery {
          outbox := outbox[id := row.(delivery := d)];
          changed := true;
        }
      }
    }

    /** Insert the delivery of an action; a second one violates the primary key. */
    method Enqueue(id: Id, now: int) returns (ok: bool)
      modifies this
      ensures ok <==> id !in old(outbox)
      ensures Snapshot() == if ok then old(Snapshot()).(outbox := old(outbox)[id := Row(InQueue, 0, now)]) else old(Snapshot())
    {
      ok := id !in outbox;
      if ok {
        outbox := outbox[id := Row(InQueue, 0, now)];
      }
    }

    // -------------------------------------------------------------------------------------------
    // Proposal, approval, rejection, cancellation
    // -------------------------------------------------------------------------------------------

    /** A proposal is refused without effect, or adds one pending action on the policy's terms under a free key. */
    method ProposeAction(id: Id, user: string, role: Role, key: Key, now: int) returns (reply: Reply)
      modifies this
      ensures reply != Done ==> Snapshot() == old(Snapshot())
      ensures reply == Done ==> NewlyProposed(config, old(Snapshot()), Snapshot(), id, user, key, now)
      ensures old(Consistent()) ==> Kept(config, old(Snapshot()), Snapshot())
      ensures reply == Forbidden <==> role !in {Analyst, Responder, Administrator} || (config.enabled && key.workflow !in config.policy)
      ensures reply == Unavailable <==> role in {Analyst, Responder, Administrator} && !config.enabled
      ensures reply == Conflict <==> role in {Analyst, Responder, Administrator} && config.enabled && key.workflow in config.policy && (id in old(actions) || Pending(old(actions), key))
      ensures reply != NotFound
      ensures (Snapshot(), reply) == Propose(old(Snapshot()), config.policy, config.enabled, id, user, role, key, now)
    {
      ghost var before := Snapshot();
      ProposeMeans(config, before, id, user, role, key, now);
      hide DbOk, Kept, NewlyProposed;
      if RoleRank(role) < RoleRank(Analyst) {
        return Forbidden;
      }
      if !config.enabled {
        return Unavailable;
      }
      if key.workflow !in config.policy {
        return Forbidden;
      }
      var workflow := config.policy[key.workflow];
      if id in actions || KeyTaken(Db(actions, outbox, investigations), key) {
        return Conflict;
      }
      var log := [Move(None, Proposed, user), Move(Some(Proposed), ApprovalRequired, user)];
      actions := actions[id := Action(key, user, workflow.required, [], now + workflow.ttl, ApprovalRequired, log)];
      reply := Done;
    }

    method ExpireIfDue(id: Id, now: int) returns (expired: bool)
      requires id in actions && actions[id].state == ApprovalRequired
      modifies this
      ensures expired <==> old(actions)[id].expiresAt < now
      ensures Snapshot() == if expired then Expire(old(Snapshot()), id) else old(Snapshot())
    {
      var a := actions[id];
      expired := a.expiresAt < now;
      if expired {
        actions := actions[id := Moved(a, Expired, "system")];
      }
    }

    method ExpireIfStale(id: Id) returns (expired: bool)
      requires id in actions && actions[id].state == ApprovalRequired
      modifies this
      ensures expired <==> Stale(old(Snapshot()), old(actions)[id])
      ensures Snapshot() == if expired then Expire(old(Snapshot()), id) else old(Snapshot())
    {
      var a := actions[id];
      expired := IsStale(a);
      if expired {
        actions := actions[id := Moved(a, Expired, "system")];
      }
    }

    /** An approval is refused, or expires the action, or adds one approval and with the last one needed queues it. */
    method ApproveAction(user: string, role: Role, id: Id, now: int) returns (reply: Reply)
      modifies this
      ensures old(Consistent()) ==> Kept(config, old(Snapshot()), Snapshot())
      ensures ApprovalOutcome(config, old(Snapshot()), Snapshot(), reply, user, role, id, now)
      ensures (Snapshot(), reply) == Approve(old(Snapshot()), config.policy, user, role, id, now)
    {
      ghost var before := Snapshot();
      if DbOk(config, before) {
        ApproveKeeps(config, before, user, role, id, now);
      }
      ApproveMeans(config, before, user, role, id, now);
      hide DbOk, Kept, Stale, Approver, Endorse, ApprovalOutcome;
      if RoleRank(role) < RoleRank(Responder) {
        return Forbidden;
      }
      if id !in actions {
        return NotFound;
      }
      if actions[id].state != ApprovalRequired {
        return Conflict;
      }
      var due := ExpireIfDue(id, now);
      if due {
        return Conflict;
      }
      var stale := ExpireIfStale(id);
      if stale {
        return Conflict;
      }
      reply := AddApproval(user, role, id, now);
    }

    method AddApproval(user: string, role: Role, id: Id, now: int) returns (reply: Reply)
      requires id in actions && actions[id].state == ApprovalRequired && RoleRank(role) >= RoleRank(Responder)
      requires actions[id].expiresAt >= now && !Stale(Snapshot(), actions[id])
      modifies this
      ensures (Snapshot(), reply) == Approve(old(Snapshot()), config.policy, user, role, id, now)
    {
      var a := actions[id];
      if a.key.workflow !in config.policy {
        return Forbidden;
      }
      var workflow := config.policy[a.key.workflow];
      if workflow.separation && user == a.requester {
        return Forbidden;
      }
      if exists i :: 0 <= i < |a.approvals| && a.approvals[i].user == user {
        return Conflict;
      }
      a := a.(approvals := a.approvals + [Approval(user, role)]);
      var enough := |a.approvals| >= a.required;
      if enough {
        a := Moved(a, Approved, user);
        a := Moved(a, Queued, "system");
        var inserted := Enqueue(id, now);
        if !inserted {
          return Unavailable;
        }
      }
      actions := actions[id := a];
      reply := Done;
    }

    /** A rejection is refused without effect, or is one legal move to rejected. */
    method RejectAction(user: string, role: Role, id: Id) returns (reply: Reply)
      modifies this
      ensures reply != Done ==> Snapshot() == old(Snapshot())
      ensures old(Consistent()) ==> Kept(config, old(Snapshot()), Snapshot())
      ensures old(Consistent()) && reply == Done ==> OneMove(old(Snapshot()), Snapshot(), id, Rejected, user)
      ensures reply == Forbidden <==> role !in {Responder, Administrator}
      ensures reply == NotFound <==> role in {Responder, Administrator} && id !in old(actions)
      ensures reply == Done <==> role in {Responder, Administrator} && id in old(actions) && old(actions)[id].state == ApprovalRequired
      ensures (Snapshot(), reply) == Reject(old(Snapshot()), user, role, id)
    {
      RejectMeans(config, Snapshot(), user, role, id);
      hide DbOk, Kept, OneMove;
      if RoleRank(role) < RoleRank(Responder) {
        return Forbidden;
      }
      if id !in actions {
        return NotFound;
      }
      if actions[id].state != ApprovalRequired {
        return Conflict;
      }
      actions := actions[id := Moved(actions[id], Rejected, user)];
      reply := Done;
    }

    /** A cancellation is refused without effect, or is one legal move that also withdraws the queued row. */
    method CancelAction(user: string, role: Role, id: Id) returns (reply: Reply)
      modifies this
      ensures reply != Done ==> Snapshot() == old(Snapshot())
      ensures old(Consistent()) ==> Kept(config, old(Snapshot()), Snapshot())
      ensures old(Consistent()) && reply == Done ==> OneMove(old(Snapshot()), Snapshot(), id, Cancelled, user)
      ensures reply == NotFound <==> id !in old(actions)
      ensures reply == Forbidden <==> id in old(actions) && user != old(actions)[id].requester && role !in {Responder, Administrator}
      ensures reply == Done <==> id in old(actions) && (user == old(actions)[id].requester || role in {Responder, Administrator}) && old(actions)[id].state in {ApprovalRequired, Approved, Queued}
      ensures (Snapshot(), reply) == Cancel(old(Snapshot()), user, role, id)
    {
      CancelMeans(config, Snapshot(), user, role, id);
      hide DbOk, Kept, OneMove;
      if id !in actions {
        return NotFound;
      }
      var a := actions[id];
      if user != a.requester && RoleRank(role) < RoleRank(Responder) {
        return Forbidden;
      }
      if a.state != ApprovalRequired && a.state != Approved && a.state != Queued {
        return Conflict;
      }
      if a.state == Queued {
        var _ := SetState(id, Withdrawn, Some(InQueue));
      }
      actions := actions[id := Moved(a, Cancelled, user)];
      reply := Done;
    }

    // -------------------------------------------------------------------------------------------
    // Dispatch
    // -------------------------------------------------------------------------------------------

    /** A queued row with the earliest creation time, if there is one. */
    method OldestQueued() returns (oldest: Option<Id>)
      ensures oldest.None? ==> forall id :: id in outbox ==> outbox[id].delivery != InQueue
      ensures oldest.Some? ==> oldest.value in outbox && outbox[oldest.value].delivery == InQueue
      ensures oldest.Some? ==> forall id :: id in outbox && outbox[id].delivery == InQueue ==> outbox[oldest.value].created <= outbox[id].created
    {
      oldest := None;
      var left := outbox.Keys;
      while left != {}
        invariant left <= outbox.Keys
        invariant oldest.None? ==> forall id :: id in outbox && id !in left ==> outbox[id].delivery != InQueue
        invariant oldest.Some? ==> oldest.value in outbox && outbox[oldest.value].delivery == InQueue
        invariant oldest.Some? ==> forall id :: id in outbox && id !in left && outbox[id].delivery == InQueue ==> outbox[oldest.value].created <= outbox[id].created
        decreases |left|
      {
        var id :| id in left;
        left := left - {id};
        if outbox[id].delivery == InQueue && (oldest.None? || outbox[id].created < outbox[oldest.value].created) {
          oldest := Some(id);
        }
      }
    }

    /** One turn of the claim loop. */
    method ClaimTurn(id: Id, now: int) returns (send: bool)
      requires id in outbox && outbox[id].delivery == InQueue
      modifies this
      ensures send == Sendable(old(Snapshot()), id, now)
      ensures if send then Sending(old(Snapshot()), Snapshot(), id, now) else Closed(old(Snapshot()), Snapshot(), id, now)
      ensures forall x :: x != id ==> Untouched(old(Snapshot()), Snapshot(), x)
      ensures old(Consistent()) ==> Consistent() && DbGrown(old(Snapshot()), Snapshot()) && (send ==> FitToSend(config, old(Snapshot()), id, now))
      ensures (Snapshot(), send) == ClaimRow(old(Snapshot()), id, now)
    {
      TurnMeans(config, Snapshot(), id, now);
      hide DbOk, Sendable, Sending, Closed, Untouched, FitToSend, DbGrown, Stale;
      if id !in actions || actions[id].state != Queued {
        var _ := SetState(id, Withdrawn, Some(InQueue));
        return false;
      }
      var a := actions[id];
      var due := a.expiresAt < now;
      if !due {
        due := IsStale(a);
      }
      if due {
        actions := actions[id := Moved(a, Expired, "system")];
        var _ := SetState(id, Lapsed, Some(InQueue));
        return false;
      }
      actions := actions[id := Moved(a, Dispatching, "system")];
      var row := outbox[id];
      outbox := outbox[id := Row(InFlight, row.attempts + 1, row.created)];
      send := true;
    }

    /**
      Take the oldest queued row whose action can be sent, closing on the way every older one that
      cannot. Works on any tables, consistent or not, and always terminates.
    */
    method Claim(now: int) returns (taken: Option<Id>)
      modifies this
      ensures taken.None? ==> Swept(old(Snapshot()), Snapshot(), now)
      ensures taken.None? ==> forall id :: id in outbox ==> outbox[id].delivery != InQueue
      ensures taken.Some? ==> Sending(old(Snapshot()), Snapshot(), taken.value, now)
      ensures taken.Some? ==> forall x :: x != taken.value ==>
        Untouched(old(Snapshot()), Snapshot(), x) || Closed(old(Snapshot()), Snapshot(), x, now)
      ensures taken.Some? ==> forall x :: x in old(outbox) && old(outbox)[x].delivery == InQueue && Sendable(old(Snapshot()), x, now) ==>
        old(outbox)[taken.value].created <= old(outbox)[x].created
      ensures investigations == old(investigations) && outbox.Keys == old(outbox).Keys
      ensures old(Consistent()) ==> Consistent()
    {
      hide DbOk, Swept, Sending, Closed, Untouched, FitToSend, DbGrown, Sendable;
      ghost var before := Snapshot();
      NothingSwept(before, now);
      var found := OldestQueued();
      while found.Some?
        invariant Swept(before, Snapshot(), now) && (DbOk(config, before) ==> Consistent())
        invariant investigations == before.investigations && outbox.Keys == before.outbox.Keys
        invariant found.None? ==> forall id :: id in outbox ==> outbox[id].delivery != InQueue
        invariant found.Some? ==> found.value in outbox && outbox[found.value].delivery == InQueue
        invariant found.Some? ==> forall x :: x in outbox && outbox[x].delivery == InQueue ==> outbox[found.value].created <= outbox[x].created
        decreases Waiting(outbox), found.Some?
      {
        ghost var db := Snapshot();
        TurnSweeps(before, db, found.value, now);
        var send := ClaimTurn(found.value, now);
        if send {
          SendableIsStillQueued(before, db, now);
          return found;
        }
        FewerWait(db.outbox, outbox, found.value);
        found := OldestQueued();
      }
      taken := None;
    }

    /** Refuse an illegal transition; otherwise compare-and-set from the state that was read, mirrored onto the row. */
    method SettleFrom(id: Id, read: Action, next: State, who: string) returns (applied: bool)
      modifies this
      ensures applied <==> Legal(read.state, next) && id in old(actions) && old(actions)[id].state == read.state
      ensures !applied ==> Snapshot() == old(Snapshot())
      ensures old(Consistent()) && ReadOk(old(Snapshot()), id, read) && read.state == Dispatching && applied ==>
        OneMove(old(Snapshot()), Snapshot(), id, next, who) && Consistent()
      ensures (Snapshot(), applied) == Settle(old(Snapshot()), id, read, next, who)
    {
      SettleMeans(config, Snapshot(), id, read, next, who);
      hide DbOk, ReadOk, OneMove;
      if !Legal(read.state, next) {
        return false;
      }
      var log := read.log + [Move(Some(read.state), next, who)];
      if id !in actions || actions[id].state != read.state {
        return false;
      }
      actions := actions[id := actions[id].(state := next, log := log)];
      if SettledLabel(next).Some? {
        var _ := SetState(id, SettledLabel(next).value, None);
      }
      applied := true;
    }

    /** The verdict of the transport, recorded against the action as it now stands. */
    method RecordResult(id: Id, outcome: Outcome) returns (applied: bool)
      modifies this
      ensures Snapshot() == if id in old(actions) then Settle(old(Snapshot()), id, old(actions)[id], ResultState(outcome), "system").0 else old(Snapshot())
      ensures applied <==> id in old(actions) && (old(actions)[id].state == Dispatching || (old(actions)[id].state == ReconciliationRequired && outcome != Unknown))
      ensures applied && outcome == Accepted ==> Ended(old(Snapshot()), Snapshot(), id, Acknowledged, Delivered)
      ensures applied && outcome == Refused ==> Ended(old(Snapshot()), Snapshot(), id, FailedWithoutEffect, Failed)
      ensures applied && outcome == Unknown ==> Ended(old(Snapshot()), Snapshot(), id, ReconciliationRequired, Unresolved)
      ensures !applied ==> Snapshot() == old(Snapshot())
    {
      RecordMeans(Snapshot(), id, outcome);
      hide Ended, Settle, DbOk, ReadOk, OneMove;
      if id !in actions {
        return false;
      }
      applied := SettleFrom(id, actions[id], ResultState(outcome), "system");
    }

    // -------------------------------------------------------------------------------------------
    // Recovery and reconciliation
    // -------------------------------------------------------------------------------------------

    /** The rows that are still open, each once. */
    method Unsettled() returns (open: seq<(Id, Delivery)>)
      ensures ListsAll(Snapshot(), open)
    {
      open := [];
      var left := outbox.Keys;
      while left != {}
        invariant left <= outbox.Keys
        invariant Lists(Snapshot(), open)
        invariant forall i :: 0 <= i < |open| ==> open[i].0 !in left
        invariant forall id :: id in outbox && id !in left && (outbox[id].delivery == InQueue || outbox[id].delivery == InFlight) ==> Among(open, id)
        decreases |left|
      {
        var id :| id in left;
        left := left - {id};
        var d := outbox[id].delivery;
        if d == InQueue || d == InFlight {
          ghost var was := open;
          open := open + [(id, d)];
          assert open[|was|].0 == id;
          AmongGrows(was, (id, d));
        }
      }
    }

    /** Compare one open row with the action's real state. Never resends. */
    method RepairRow(id: Id, listed: Delivery) returns (operator: bool)
      modifies this
      ensures id in old(outbox) && old(outbox)[id].delivery == listed && (listed == InQueue || listed == InFlight) ==>
        Repaired(old(Snapshot()), Snapshot(), id) && operator == NeedsOperator(old(Snapshot()), id) && (forall x :: x != id ==> Untouched(old(Snapshot()), Snapshot(), x))
      ensures (Snapshot(), operator) == RecoverRow(old(Snapshot()), id, listed, ActionOf(old(Snapshot()), id))
    {
      ghost var before := Snapshot();
      if id in outbox && outbox[id].delivery == listed && (listed == InQueue || listed == InFlight) {
        RowIsRepaired(before, id, listed);
      }
      hide Repaired, NeedsOperator, Untouched, RecoverRow;
      var read := if id in actions then Some(actions[id]) else None;
      operator := RepairFrom(id, listed, read);
    }

    /** The repair itself, from the action as it was read; in between it may have been cancelled. */
    method RepairFrom(id: Id, listed: Delivery, read: Option<Action>) returns (operator: bool)
      modifies this
      ensures operator <==> read.None? || (read.value.state != Queued && (read.value.state == Dispatching || SettledLabel(read.value.state).None?))
      ensures (Snapshot(), operator) == RecoverRow(old(Snapshot()), id, listed, read)
    {
      hide DbOk, OneMove, ReadOk;
      if read.None? {
        var _ := SetState(id, Inconsistent, None);
        return true;
      }
      var a := read.value;
      if a.state == Queued {
        if listed == InFlight {
          var _ := SetState(id, InQueue, None);
        }
        return false;
      }
      if a.state == Dispatching {
        var _ := SettleFrom(id, a, ReconciliationRequired, "system");
        return true;
      }
      if SettledLabel(a.state).Some? {
        var _ := SetState(id, SettledLabel(a.state).value, None);
        return false;
      }
      var _ := SetState(id, Inconsistent, None);
      operator := true;
    }

    /** Startup: every open row is compared with its action; the result is how many need an operator. */
    method Recover() returns (needs: nat, ghost open: seq<(Id, Delivery)>)
      modifies this
      ensures ListsAll(old(Snapshot()), open)
      ensures (Snapshot(), needs) == RecoverAll(old(Snapshot()), open)
      ensures AllRepaired(old(Snapshot()), Snapshot(), open) && needs == |Operators(old(Snapshot()), open)|
    {
      hide RecoverRow, AllRepaired, Operators;
      var rows := Unsettled();
      ghost var before := Snapshot();
      open := rows;
      needs := 0;
      for k := 0 to |rows|
        invariant (Snapshot(), needs) == RecoverAll(before, rows[..k])
      {
        var (id, listed) := rows[k];
        assert rows[..k + 1][..k] == rows[..k];
        var operator := RepairRow(id, listed);
        if operator {
          needs := needs + 1;
        }
      }
      assert rows[..|rows|] == rows;
      RecoveryRepairs(before, rows);
    }

    /** A person settles an ambiguous delivery; `read` is the action as they saw it. */
    method Resolve(user: string, role: Role, id: Id, read: Action, finding: Finding) returns (reply: Reply)
      modifies this
      ensures reply != Done ==> Snapshot() == old(Snapshot())
      ensures old(Consistent()) && ReadOk(old(Snapshot()), id, read) ==> Kept(config, old(Snapshot()), Snapshot())
      ensures old(Consistent()) && ReadOk(old(Snapshot()), id, read) && reply == Done ==>
        OneMove(old(Snapshot()), Snapshot(), id, if finding.DeliveredFinding? then Acknowledged else FailedWithoutEffect, user)
      ensures reply == Forbidden <==> role !in {Responder, Administrator}
      ensures reply == Done <==> role in {Responder, Administrator} && read.state == ReconciliationRequired && id in old(actions) && old(actions)[id].state == ReconciliationRequired
      ensures (Snapshot(), reply) == Reconcile(old(Snapshot()), user, role, id, read, finding)
    {
      ResolveMeans(config, Snapshot(), user, role, id, read, finding);
      hide DbOk, Kept, OneMove, ReadOk;
      if RoleRank(role) < RoleRank(Responder) {
        return Forbidden;
      }
      if read.state != ReconciliationRequired {
        return Conflict;
      }
      var next := if finding.DeliveredFinding? then Acknowledged else FailedWithoutEffect;
      var log := read.log + [Move(Some(read.state), next, user)];
      if id !in actions || actions[id].state != ReconciliationRequired {
        return Conflict;
      }
      actions := actions[id := actions[id].(state := next, log := log)];
      var _ := SetState(id, if finding.DeliveredFinding? then Delivered else Failed, None);
      reply := Done;
    }

    /** The status check's transaction: the fresh action decides. */
    method RecordStatus(id: Id, proven: bool)
      modifies this
      ensures old(Consistent()) ==> Kept(config, old(Snapshot()), Snapshot())
      ensures proven && id in old(actions) && old(actions)[id].state == ReconciliationRequired ==> OneMove(old(Snapshot()), Snapshot(), id, Acknowledged, "system")
      ensures !(proven && id in old(actions) && old(actions)[id].state == ReconciliationRequired) ==> Snapshot() == old(Snapshot())
      ensures Snapshot() == CheckStatus(old(Snapshot()), id, proven)
    {
      StatusMeans(config, Snapshot(), id, proven);
      hide DbOk, Kept, OneMove;
      if id in actions && actions[id].state == ReconciliationRequired && proven {
        actions := actions[id := Moved(actions[id], Acknowledged, "system")];
        var _ := SetState(id, Delivered, None);
      }
    }
  }

  /** Some action with this key is pending, in flight or delivered. */
  ghost predicate Pending(actions: map<Id, Action>, key: Key) {
    exists x :: x in actions && actions[x].key == key && actions[x].state !in {Rejected, FailedWithoutEffect, Expired, Cancelled}
  }

  /** How many rows are queued. */
  ghost function Waiting(outbox: map<Id, Row>): nat {
    |set id | id in outbox && outbox[id].delivery == InQueue|
  }

  lemma FewerWait(before: map<Id, Row>, after: map<Id, Row>, id: Id)
    requires before.Keys == after.Keys && id in before && before[id].delivery == InQueue && after[id].delivery != InQueue
    requires forall x :: x in before && x != id ==> after[x] == before[x]
    ensures Waiting(after) < Waiting(before)
  {
    var a := set x | x in before && before[x].delivery == InQueue;
    var b := set x | x in after && after[x].delivery == InQueue;
    assert b == a - {id};
  }

  lemma SendableIsStillQueued(before: Db, db: Db, now: int)
    requires Swept(before, db, now)
    ensures forall x :: x in before.outbox && before.outbox[x].delivery == InQueue && Sendable(before, x, now) ==>
      x in db.outbox && db.outbox[x] == before.outbox[x]
    ensures forall x :: x in db.outbox && db.outbox[x].delivery == InQueue ==> db.outbox[x] == before.outbox[x]
  {
    forall x | x in before.outbox && before.outbox[x].delivery == InQueue && Sendable(before, x, now)
      ensures x in db.outbox && db.outbox[x] == before.outbox[x]
    {
      assert Untouched(before, db, x);
    }
    forall x | x in db.outbox && db.outbox[x].delivery == InQueue ensures db.outbox[x] == before.outbox[x] {
      assert Untouched(before, db, x) || Closed(before, db, x, now);
    }
  }

  lemma AmongGrows(open: seq<(Id, Delivery)>, entry: (Id, Delivery))
    ensures forall id :: Among(open, id) || id == entry.0 ==> Among(open + [entry], id)
  {
    var more := open + [entry];
    assert more[|open|] == entry;
    forall id | Among(open, id) ensures Among(more, id) {
      var i :| 0 <= i < |open| && open[i].0 == id;
      assert more[i].0 == id;
    }
  }

  /** The action ends in the given state, with one more entry in its log, and its row under the given label; nothing else changed. */
  ghost predicate Ended(before: Db, after: Db, id: Id, s: State, d: Delivery) {
    && id in before.actions
    && after.actions == before.actions[id := before.actions[id].(state := s, log := before.actions[id].log + [Move(Some(before.actions[id].state), s, "system")])]
    && after.outbox.Keys == before.outbox.Keys
    && (id in before.outbox ==> after.outbox[id] == before.outbox[id].(delivery := d))
    && (forall x :: x in before.outbox && x != id ==> after.outbox[x] == before.outbox[x])
    && after.investigations == before.investigations
  }

  lemma RecordMeans(db: Db, id: Id, outcome: Outcome)
    ensures id in db.actions ==>
      var (after, applied) := Settle(db, id, db.actions[id], ResultState(outcome), "system");
      && (applied <==> db.actions[id].state == Dispatching || (db.actions[id].state == ReconciliationRequired && outcome != Unknown))
      && (applied && outcome == Accepted ==> Ended(db, after, id, Acknowledged, Delivered))
      && (applied && outcome == Refused ==> Ended(db, after, id, FailedWithoutEffect, Failed))
      && (applied && outcome == Unknown ==> Ended(db, after, id, ReconciliationRequired, Unresolved))
      && (!applied ==> after == db)
  {
  }

  lemma NothingSwept(db: Db, now: int)
    ensures Swept(db, db, now)
  {
  }

  // ---------------------------------------------------------------------------------------------
  // What the functions of the tables mean
  // ---------------------------------------------------------------------------------------------

  /** One more action, pending, on the policy's terms, under a key nobody else holds; nothing else changed. */
  ghost predicate NewlyProposed(c: Config, before: Db, after: Db, id: Id, user: string, key: Key, now: int) {
    && id !in before.actions && !KeyTaken(before, key) && key.workflow in c.policy
    && after.outbox == before.outbox && after.investigations == before.investigations
    && after.actions.Keys == before.actions.Keys + {id} && (forall x :: x in before.actions ==> after.actions[x] == before.actions[x])
    && var a := after.actions[id];
      && a.key == key && a.requester == user && a.state == ApprovalRequired && a.approvals == []
      && FromPolicy(c, a) && a.expiresAt == now + c.policy[key.workflow].ttl && LogOk(a.log, a.state)
  }

  lemma ProposeMeans(c: Config, db: Db, id: Id, user: string, role: Role, key: Key, now: int)
    ensures var (after, reply) := Propose(db, c.policy, c.enabled, id, user, role, key, now);
      && (reply != Done ==> after == db)
      && (reply == Done ==> NewlyProposed(c, db, after, id, user, key, now))
      && (DbOk(c, db) ==> Kept(c, db, after))
  {
    hide Kept, DbOk, KeyTaken, LogOk, Visited, ProperApprovals;
    if key.workflow in c.policy {
      NewActionOk(c, key, user, c.policy[key.workflow], now);
    }
    if DbOk(c, db) {
      ProposeKeeps(c, db, id, user, role, key, now);
    }
  }

  /**
    Who may approve what, and what comes of it: an action that is overdue or superseded expires; otherwise
    the approval is added, and with the last one required the action is approved and queued with its row.
  */
  ghost predicate ApprovalOutcome(c: Config, before: Db, after: Db, reply: Reply, user: string, role: Role, id: Id, now: int) {
    if role !in {Responder, Administrator} then reply == Forbidden && after == before
    else if id !in before.actions then reply == NotFound && after == before
    else
      var a := before.actions[id];
      if a.state != ApprovalRequired then reply == Conflict && after == before
      else if a.expiresAt < now || Stale(before, a) then
        && reply == Conflict && after.outbox == before.outbox
        && after.actions == before.actions[id := a.(state := Expired, log := a.log + [Move(Some(ApprovalRequired), Expired, "system")])]
      else if a.key.workflow !in c.policy || (c.policy[a.key.workflow].separation && user == a.requester) then reply == Forbidden && after == before
      else if exists i :: 0 <= i < |a.approvals| && a.approvals[i].user == user then reply == Conflict && after == before
      else
        var b := a.(approvals := a.approvals + [Approval(user, role)]);
        if |a.approvals| + 1 < a.required then
          reply == Done && after.outbox == before.outbox && after.actions == before.actions[id := b]
        else if id in before.outbox then reply == Unavailable && after == before
        else
          && reply == Done && after.outbox == before.outbox[id := Row(InQueue, 0, now)]
          && after.actions == before.actions[id := b.(state := Queued,
               log := a.log + [Move(Some(ApprovalRequired), Approved, user), Move(Some(Approved), Queued, "system")])]
  }

  lemma ApproveMeans(c: Config, db: Db, user: string, role: Role, id: Id, now: int)
    ensures var (after, reply) := Approve(db, c.policy, user, role, id, now);
      ApprovalOutcome(c, db, after, reply, user, role, id, now)
  {
    hide Stale;
    if id in db.actions {
      var a := db.actions[id];
      var m, n := Move(Some(ApprovalRequired), Approved, user), Move(Some(Approved), Queued, "system");
      assert a.log + [m, n] == (a.log + [m]) + [n];
    }
  }

  lemma RejectMeans(c: Config, db: Db, user: string, role: Role, id: Id)
    ensures var (after, reply) := Reject(db, user, role, id);
      && (reply != Done ==> after == db)
      && (DbOk(c, db) ==> Kept(c, db, after) && (reply == Done ==> OneMove(db, after, id, Rejected, user)))
  {
    hide Kept, DbOk, OneMove;
    if DbOk(c, db) {
      RejectKeeps(c, db, user, role, id);
      if Reject(db, user, role, id).1 == Done {
        RowOf(c, db, id);
        RejectMoves(db, user, role, id);
      }
    }
  }

  lemma CancelMeans(c: Config, db: Db, user: string, role: Role, id: Id)
    ensures var (after, reply) := Cancel(db, user, role, id);
      && (reply != Done ==> after == db)
      && (DbOk(c, db) ==> Kept(c, db, after) && (reply == Done ==> OneMove(db, after, id, Cancelled, user)))
  {
    hide Kept, DbOk, OneMove;
    if DbOk(c, db) {
      CancelKeeps(c, db, user, role, id);
      if Cancel(db, user, role, id).1 == Done {
        RowOf(c, db, id);
        NeverApproved(c, db, id);
        CancelMoves(db, user, role, id);
      }
    }
  }

  lemma TurnMeans(c: Config, db: Db, id: Id, now: int)
    requires id in db.outbox && db.outbox[id].delivery == InQueue
    ensures var (after, send) := ClaimRow(db, id, now);
      && send == Sendable(db, id, now)
      && (if send then Sending(db, after, id, now) else Closed(db, after, id, now))
      && (forall x :: x != id ==> Untouched(db, after, x))
      && (DbOk(c, db) ==> DbOk(c, after) && DbGrown(db, after) && (send ==> FitToSend(c, db, id, now)))
  {
    hide DbOk, DbGrown, Sendable, Sending, Closed, Untouched, FitToSend, Stale, OneMove, ClaimRow;
    OneTurn(db, id, now);
    if DbOk(c, db) {
      ClaimKeeps(c, db, id, now);
    }
  }

  lemma SettleMeans(c: Config, db: Db, id: Id, read: Action, next: State, who: string)
    ensures var (after, moved) := Settle(db, id, read, next, who);
      && (moved <==> Legal(read.state, next) && id in db.actions && db.actions[id].state == read.state)
      && (!moved ==> after == db)
      && (DbOk(c, db) && ReadOk(db, id, read) && read.state == Dispatching && moved ==> OneMove(db, after, id, next, who) && DbOk(c, after))
  {
    hide DbOk, ReadOk, OneMove, DbGrown, Mark, SettledLabel;
    if DbOk(c, db) && ReadOk(db, id, read) && read.state == Dispatching && Settle(db, id, read, next, who).1 {
      SettleKeeps(c, db, id, read, next, who);
    }
  }

  lemma ResolveMeans(c: Config, db: Db, user: string, role: Role, id: Id, read: Action, finding: Finding)
    ensures var (after, reply) := Reconcile(db, user, role, id, read, finding);
      && (reply != Done ==> after == db)
      && (DbOk(c, db) && ReadOk(db, id, read) ==>
        && Kept(c, db, after)
        && (reply == Done ==> OneMove(db, after, id, if finding.DeliveredFinding? then Acknowledged else FailedWithoutEffect, user)))
  {
    hide DbOk, ReadOk, OneMove, Kept;
    if DbOk(c, db) && ReadOk(db, id, read) {
      ReconcileKeeps(c, db, user, role, id, read, finding);
      if Reconcile(db, user, role, id, read, finding).1 == Done {
        StaleReadIsCurrent(c, db, id, read);
        ReconcileMoves(db, user, role, id, read, finding);
      }
    }
  }

  lemma StatusMeans(c: Config, db: Db, id: Id, proven: bool)
    ensures var after := CheckStatus(db, id, proven);
      && (DbOk(c, db) ==> Kept(c, db, after))
      && (if proven && id in db.actions && db.actions[id].state == ReconciliationRequired then OneMove(db, after, id, Acknowledged, "system") else after == db)
  {
    hide DbOk, OneMove, Kept;
    if DbOk(c, db) {
      CheckKeeps(c, db, id, proven);
    }
    if proven && id in db.actions && db.actions[id].state == ReconciliationRequired {
      CheckMoves(db, id);
    }
  }
}
