/**
  The invariant is kept by every event, hence by every run; and what follows from it.
*/
module ResponseProofs {
  import opened ResponseModel
  import opened ResponseSpec
  import opened ResponseRuns

  // ---------------------------------------------------------------------------------------------
  // Replacing one action
  // ---------------------------------------------------------------------------------------------

  /** The row of `id` fits the action, and no other row is touched. */
  ghost predicate RowFits(before: Db, after: Db, id: Id, a: Action) {
    && (forall x :: x != id ==> (x in after.outbox <==> x in before.outbox))
    && (forall x :: x != id && x in before.outbox ==> after.outbox[x] == before.outbox[x])
    && (id in after.outbox <==> Visited(a.log, Queued))
    && (id in after.outbox ==> after.outbox[id].delivery == MirrorLabel(a.state))
  }

  lemma KeysKept(before: Db, after: Db, id: Id, a: Action)
    requires KeysUnique(before) && id in before.actions && after.actions == before.actions[id := a]
    requires a.key == before.actions[id].key && (Freed(before.actions[id].state) ==> Freed(a.state))
    ensures KeysUnique(after)
  {
    forall x, y | x in after.actions && y in after.actions && x != y && after.actions[x].key == after.actions[y].key
      ensures Freed(after.actions[x].state) || Freed(after.actions[y].state)
    {
      assert before.actions[x].key == before.actions[y].key;
    }
  }

  lemma MirrorKept(before: Db, after: Db, id: Id, a: Action)
    requires Mirrored(before) && id in before.actions && after.actions == before.actions[id := a]
    requires RowFits(before, after, id, a)
    ensures Mirrored(after)
  {
    hide Visited, MirrorLabel;
  }

  lemma ReplaceKeeps(c: Config, before: Db, after: Db, id: Id, a: Action)
    requires DbOk(c, before) && id in before.actions && after.actions == before.actions[id := a]
    requires Grown(before.actions[id], a) && ActionOk(c, a) && RowFits(before, after, id, a)
    ensures DbOk(c, after) && DbGrown(before, after)
  {
    FreedStays(c, before.actions[id], a);
    KeysKept(before, after, id, a);
    MirrorKept(before, after, id, a);
    hide ActionOk, Mirrored, KeysUnique, RowFits;
  }

  lemma FreedStays(c: Config, a: Action, b: Action)
    requires ActionOk(c, a) && ActionOk(c, b) && Grown(a, b)
    ensures Freed(a.state) ==> Freed(b.state)
  {
    if Freed(a.state) {
      FinalStays(a.log, b.log, a.state, b.state);
    }
  }

  /** A log that ended in a terminal state has not grown. */
  lemma FinalStays(earlier: seq<Move>, now: seq<Move>, s: State, t: State)
    requires LogOk(earlier, s) && LogOk(now, t) && earlier <= now && Terminal(s)
    ensures s == t && earlier == now
  {
    var n := |earlier|;
    assert now[n - 1].reached == s;
    assert n < |now| ==> Linked(now, n);
    TerminalIsFinal(s);
  }

  lemma MovedGrows(a: Action, next: State, who: string)
    requires LogOk(a.log, a.state) && Legal(a.state, next)
    ensures Grown(a, Moved(a, next, who)) && LogOk(Moved(a, next, who).log, next)
    ensures forall x :: Visited(Moved(a, next, who).log, x) <==> Visited(a.log, x) || x == next
  {
    LogExtends(a.log, a.state, next, who);
  }

  lemma MovedOk(c: Config, a: Action, next: State, who: string)
    requires ActionOk(c, a) && Legal(a.state, next) && next != Approved && (next == Queued ==> Authorised(c, a))
    ensures ActionOk(c, Moved(a, next, who)) && Grown(a, Moved(a, next, who))
    ensures Visited(Moved(a, next, who).log, Queued) <==> Visited(a.log, Queued) || next == Queued
  {
    MovedGrows(a, next, who);
  }

  /** What the mirror says of one action. */
  lemma RowOf(c: Config, db: Db, id: Id)
    requires DbOk(c, db) && id in db.actions
    ensures db.actions[id].state in {ApprovalRequired, Rejected} ==> id !in db.outbox
    ensures db.actions[id].state in {Queued, Dispatching, ReconciliationRequired} ==> id in db.outbox && db.outbox[id].delivery == MirrorLabel(db.actions[id].state)
    ensures id in db.outbox <==> Visited(db.actions[id].log, Queued)
    ensures db.actions[id].state == Queued ==> Authorised(c, db.actions[id])
  {
    hide ProperApprovals, MirrorLabel, Authorised, KeysUnique;
    MustHaveVisited(db.actions[id].log, db.actions[id].state);
    hide LogOk, Visited;
  }

  lemma RowIsMirrored(c: Config, db: Db, id: Id)
    requires DbOk(c, db) && id in db.outbox
    ensures id in db.actions && db.outbox[id].delivery == MirrorLabel(db.actions[id].state)
  {
    hide ActionOk, KeysUnique, Visited, MirrorLabel;
  }

  /** One legal move of one action, with its row relabelled to match and the rest left alone. */
  ghost predicate OneMove(before: Db, after: Db, id: Id, next: State, who: string) {
    && id in before.actions
    && Legal(before.actions[id].state, next)
    && after.actions == before.actions[id := Moved(before.actions[id], next, who)]
    && after.actions[id] == before.actions[id].(state := next, log := before.actions[id].log + [Move(Some(before.actions[id].state), next, who)])
    && Relabelled(before, after, id, MirrorLabel(next))
  }

  ghost predicate Relabelled(before: Db, after: Db, id: Id, d: Delivery) {
    && after.outbox.Keys == before.outbox.Keys
    && (forall x :: x != id && x in before.outbox ==> after.outbox[x] == before.outbox[x])
    && (id in after.outbox ==> after.outbox[id].delivery == d)
  }

  lemma OneMoveKeeps(c: Config, before: Db, after: Db, id: Id, next: State, who: string)
    requires DbOk(c, before) && OneMove(before, after, id, next, who) && next !in {Approved, Queued}
    ensures DbOk(c, after) && DbGrown(before, after)
  {
    MoveOk(c, before, id, next, who);
    RowOf(c, before, id);
    MoveFits(before, after, id, next, who);
    hide ActionOk, Mirrored, KeysUnique, RowFits, Relabelled, Visited;
    ReplaceKeeps(c, before, after, id, Moved(before.actions[id], next, who));
  }

  lemma MoveOk(c: Config, db: Db, id: Id, next: State, who: string)
    requires DbOk(c, db) && id in db.actions && Legal(db.actions[id].state, next) && next !in {Approved, Queued}
    ensures ActionOk(c, Moved(db.actions[id], next, who)) && Grown(db.actions[id], Moved(db.actions[id], next, who))
    ensures Visited(Moved(db.actions[id], next, who).log, Queued) <==> Visited(db.actions[id].log, Queued)
  {
    hide Mirrored, KeysUnique;
    MovedOk(c, db.actions[id], next, who);
  }

  lemma MoveFits(before: Db, after: Db, id: Id, next: State, who: string)
    requires OneMove(before, after, id, next, who)
    requires Visited(Moved(before.actions[id], next, who).log, Queued) <==> id in before.outbox
    ensures RowFits(before, after, id, Moved(before.actions[id], next, who))
  {
    hide Visited, MirrorLabel, Legal;
    assert id in after.outbox <==> id in before.outbox;
  }

  // ---------------------------------------------------------------------------------------------
  // Which single move each transaction makes
  // ---------------------------------------------------------------------------------------------

  lemma MarkRelabels(db: Db, id: Id, d: Delivery, guard: Option<Delivery>)
    requires id in db.outbox ==> guard.None? || guard.value == db.outbox[id].delivery || db.outbox[id].delivery == d
    ensures Relabelled(db, Mark(db, id, d, guard), id, d) && Mark(db, id, d, guard).actions == db.actions
  {
  }

  lemma CancelMoves(db: Db, user: string, role: Role, id: Id)
    requires Cancel(db, user, role, id).1 == Done && db.actions[id].state != Approved
    requires db.actions[id].state == ApprovalRequired ==> id !in db.outbox
    requires db.actions[id].state == Queued ==> id in db.outbox && db.outbox[id].delivery == InQueue
    ensures OneMove(db, Cancel(db, user, role, id).0, id, Cancelled, user)
  {
    if db.actions[id].state == Queued {
      MarkRelabels(db, id, Withdrawn, Some(InQueue));
      hide Mark;
    }
  }

  lemma RejectMoves(db: Db, user: string, role: Role, id: Id)
    requires Reject(db, user, role, id).1 == Done && id !in db.outbox
    ensures OneMove(db, Reject(db, user, role, id).0, id, Rejected, user)
  {
  }

  lemma ExpireMoves(db: Db, id: Id)
    requires id in db.actions && db.actions[id].state == ApprovalRequired && id !in db.outbox
    ensures OneMove(db, Expire(db, id), id, Expired, "system")
  {
  }

  lemma ReconcileMoves(db: Db, user: string, role: Role, id: Id, read: Action, finding: Finding)
    requires Reconcile(db, user, role, id, read, finding).1 == Done && db.actions[id].log == read.log
    ensures OneMove(db, Reconcile(db, user, role, id, read, finding).0, id,
                    if finding.DeliveredFinding? then Acknowledged else FailedWithoutEffect, user)
  {
    var next := if finding.DeliveredFinding? then Acknowledged else FailedWithoutEffect;
    assert db.actions[id].(state := next, log := read.log + [Move(Some(read.state), next, user)]) == Moved(db.actions[id], next, user);
    MarkRelabels(Put(db, id, Moved(db.actions[id], next, user)), id, if finding.DeliveredFinding? then Delivered else Failed, None);
    hide Mark;
  }

  lemma CheckMoves(db: Db, id: Id)
    requires id in db.actions && db.actions[id].state == ReconciliationRequired
    ensures OneMove(db, CheckStatus(db, id, true), id, Acknowledged, "system")
  {
    MarkRelabels(Put(db, id, Moved(db.actions[id], Acknowledged, "system")), id, Delivered, None);
    hide Mark;
  }

  lemma ClaimMoves(db: Db, id: Id, now: int)
    requires id in db.outbox && id in db.actions && db.actions[id].state == Queued && db.outbox[id].delivery == InQueue
    ensures var (after, send) := ClaimRow(db, id, now);
      && (send <==> db.actions[id].expiresAt >= now && !Stale(db, db.actions[id]))
      && OneMove(db, after, id, if send then Dispatching else Expired, "system")
  {
    hide Stale;
    MarkRelabels(Expire(db, id), id, Lapsed, Some(InQueue));
    hide Mark;
  }

  lemma SettleMoves(db: Db, id: Id, read: Action, next: State, who: string)
    requires id in db.actions && Legal(read.state, next) && read.state == Dispatching
    requires db.actions[id].state == read.state ==> db.actions[id].log == read.log
    ensures var (after, moved) := Settle(db, id, read, next, who);
      && (moved <==> db.actions[id].state == Dispatching)
      && (if moved then OneMove(db, after, id, next, who) else after == db)
  {
    if db.actions[id].state == read.state {
      assert db.actions[id].(state := next, log := read.log + [Move(Some(read.state), next, who)]) == Moved(db.actions[id], next, who);
      MarkRelabels(Put(db, id, Moved(db.actions[id], next, who)), id, SettledLabel(next).value, None);
      hide Mark;
    }
  }

  // ---------------------------------------------------------------------------------------------
  // What an event leaves alone
  // ---------------------------------------------------------------------------------------------

  /** Only the dispatcher moves an action that is dispatching, or makes one so; a queued one can at most be cancelled. */
  ghost predicate Undisturbed(before: Db, after: Db) {
    && before.outbox.Keys <= after.outbox.Keys
    && (forall id :: id in before.actions && id in after.actions ==> Quiet(before.actions[id].state, after.actions[id].state))
    && (forall id :: id !in before.actions && id in after.actions ==> !Taken(after.actions[id].state))
  }

  predicate Quiet(a: State, b: State) {
    a == b || (a == Queued && b == Cancelled) || (a !in {Queued, Dispatching, Cancelled} && (Taken(b) ==> Taken(a)))
  }

  lemma QuietMove(before: Db, after: Db, id: Id, next: State, who: string)
    requires OneMove(before, after, id, next, who) && Quiet(before.actions[id].state, next)
    ensures Undisturbed(before, after)
  {
    hide Legal, MirrorLabel;
  }

  lemma GrownVisited(a: Action, b: Action, s: State)
    requires Grown(a, b) && Visited(a.log, s)
    ensures Visited(b.log, s)
  {
    var i :| 0 <= i < |a.log| && a.log[i].reached == s;
    assert b.log[i] == a.log[i];
  }

  lemma ReadSurvives(before: Db, after: Db, id: Id, a: Action)
    requires ReadOk(before, id, a) && DbGrown(before, after)
    ensures ReadOk(after, id, a)
  {
    assert Grown(before.actions[id], after.actions[id]);
  }

  lemma SentSurvives(before: Db, after: Db, sent: multiset<Id>)
    requires SentOk(before, sent) && DbGrown(before, after)
    ensures SentOk(after, sent)
  {
    forall id | id in sent ensures sent[id] == 1 && id in after.actions && Visited(after.actions[id].log, Dispatching) {
      assert Grown(before.actions[id], after.actions[id]);
      GrownVisited(before.actions[id], after.actions[id], Dispatching);
    }
  }

  lemma DispatcherSurvives(before: Db, after: Db, d: Dispatcher, sent: multiset<Id>)
    requires DispatcherOk(before, d, sent) && DbGrown(before, after) && Undisturbed(before, after)
    ensures DispatcherOk(after, d, sent)
  {
    match d
    case Inspecting(id, listed, read, rest) =>
      ReadSurvives(before, after, id, read.value);
      forall i | 0 <= i < |rest| ensures Listed(after, rest[i]) {
        assert Listed(before, rest[i]);
      }
    case Recording(id, _, a) =>
      ReadSurvives(before, after, id, a);
    case Recovering(todo) =>
      forall i | 0 <= i < |todo| ensures Listed(after, todo[i]) {
        assert Listed(before, todo[i]);
      }
    case _ =>
  }

  /** An event that only changes the database, and none of what the dispatcher relies on. */
  lemma DbEventKeeps(c: Config, w: World, db: Db)
    requires Inv(c, w) && DbOk(c, db) && DbGrown(w.db, db) && Undisturbed(w.db, db)
    ensures Inv(c, w.(db := db))
  {
    forall s | s in w.views ensures ReadOk(db, w.views[s].0, w.views[s].1) {
      ReadSurvives(w.db, db, w.views[s].0, w.views[s].1);
    }
    SentSurvives(w.db, db, w.sent);
    DispatcherSurvives(w.db, db, w.dispatcher, w.sent);
  }

  lemma Unchanged(c: Config, db: Db)
    ensures DbGrown(db, db) && Undisturbed(db, db)
  {
  }

  // ---------------------------------------------------------------------------------------------
  // Transactions of the API
  // ---------------------------------------------------------------------------------------------

  /** A transaction of the API: keeps the database consistent, drops nothing, leaves the dispatcher alone. */
  ghost predicate Kept(c: Config, before: Db, after: Db) {
    DbOk(c, after) && DbGrown(before, after) && Undisturbed(before, after)
  }

  lemma NothingHappened(c: Config, db: Db)
    requires DbOk(c, db)
    ensures Kept(c, db, db)
  {
  }

  lemma ProposeKeeps(c: Config, db: Db, id: Id, user: string, role: Role, key: Key, now: int)
    requires DbOk(c, db)
    ensures Kept(c, db, Propose(db, c.policy, c.enabled, id, user, role, key, now).0)
  {
    NothingHappened(c, db);
    var (after, reply) := Propose(db, c.policy, c.enabled, id, user, role, key, now);
    if reply == Done {
      var a := NewAction(key, user, c.policy[key.workflow], now);
      NewActionOk(c, key, user, c.policy[key.workflow], now);
      assert after == Put(db, id, a) && id !in db.actions && !KeyTaken(db, a.key) && a.state == ApprovalRequired;
      hide Propose, NewAction, KeyTaken, Kept;
      NewKeeps(c, db, after, id, a);
    } else {
      hide KeyTaken;
    }
  }

  lemma NewKeeps(c: Config, before: Db, after: Db, id: Id, a: Action)
    requires DbOk(c, before) && id !in before.actions && !KeyTaken(before, a.key) && after == Put(before, id, a)
    requires ActionOk(c, a) && !Visited(a.log, Queued) && a.state == ApprovalRequired
    ensures Kept(c, before, after)
  {
    hide ActionOk, Mirrored, KeysUnique, KeyTaken, Visited;
    NewKeys(before, after, id, a);
    NewMirror(before, after, id, a);
  }

  lemma NewActionOk(c: Config, key: Key, user: string, w: Workflow, now: int)
    requires key.workflow in c.policy && w == c.policy[key.workflow]
    ensures ActionOk(c, NewAction(key, user, w, now)) && !Visited(NewAction(key, user, w, now).log, Queued)
  {
    var a := NewAction(key, user, w, now);
    assert Linked(a.log, 1);
    assert LogOk(a.log, ApprovalRequired);
    MustHaveVisited(a.log, ApprovalRequired);
  }

  lemma NewKeys(before: Db, after: Db, id: Id, a: Action)
    requires KeysUnique(before) && !KeyTaken(before, a.key) && id !in before.actions && after.actions == before.actions[id := a]
    ensures KeysUnique(after)
  {
    forall x, y | x in after.actions && y in after.actions && x != y && after.actions[x].key == after.actions[y].key
      ensures Freed(after.actions[x].state) || Freed(after.actions[y].state)
    {
      if x == id {
        assert after.actions[y] == before.actions[y];
      } else if y == id {
        assert after.actions[x] == before.actions[x];
      } else {
        assert before.actions[x].key == before.actions[y].key;
      }
    }
  }

  lemma NewMirror(before: Db, after: Db, id: Id, a: Action)
    requires Mirrored(before) && id !in before.actions && after.actions == before.actions[id := a] && after.outbox == before.outbox
    requires !Visited(a.log, Queued)
    ensures Mirrored(after)
  {
    hide Visited, MirrorLabel;
  }

  lemma ExpireKeeps(c: Config, db: Db, id: Id)
    requires DbOk(c, db) && id in db.actions && db.actions[id].state == ApprovalRequired
    ensures Kept(c, db, Expire(db, id))
  {
    hide DbOk, DbGrown, Undisturbed, OneMove;
    RowOf(c, db, id);
    ExpireMoves(db, id);
    OneMoveKeeps(c, db, Expire(db, id), id, Expired, "system");
    QuietMove(db, Expire(db, id), id, Expired, "system");
  }

  lemma EndorsedOk(c: Config, was: Action, user: string, role: Role)
    requires ActionOk(c, was) && was.state == ApprovalRequired
    requires RoleRank(role) >= RoleRank(Responder) && was.key.workflow in c.policy
    requires !(c.policy[was.key.workflow].separation && user == was.requester) && !Approver(was, user)
    ensures ActionOk(c, WithApproval(was, user, role)) && Grown(was, WithApproval(was, user, role))
    ensures !Visited(was.log, Queued)
  {
    MustHaveVisited(was.log, was.state);
    hide LogOk, Visited;
  }

  /** The approval that meets the threshold: approved and queued in one transaction. */
  lemma ThresholdMet(c: Config, a: Action, user: string)
    requires ActionOk(c, a) && a.state == ApprovalRequired && Authorised(c, a)
    ensures var queued := Moved(Moved(a, Approved, user), Queued, "system");
      ActionOk(c, queued) && Grown(a, queued) && Visited(queued.log, Queued) && queued.state == Queued
  {
    MovedGrows(a, Approved, user);
    var approved := Moved(a, Approved, user);
    MovedGrows(approved, Queued, "system");
    hide LogOk, Visited;
  }

  lemma EndorseKeeps(c: Config, db: Db, id: Id, user: string, role: Role, now: int)
    requires DbOk(c, db) && id in db.actions && db.actions[id].state == ApprovalRequired
    requires RoleRank(role) >= RoleRank(Responder) && db.actions[id].key.workflow in c.policy
    requires !(c.policy[db.actions[id].key.workflow].separation && user == db.actions[id].requester)
    requires !Approver(db.actions[id], user)
    ensures Kept(c, db, Endorse(db, id, user, role, now).0)
  {
    var a := WithApproval(db.actions[id], user, role);
    RowOf(c, db, id);
    ActionIsOk(c, db, id);
    EndorsedOk(c, db.actions[id], user, role);
    hide DbOk, Kept, ActionOk, Approver, MirrorLabel, Visited, ProperApprovals, Authorised;
    if |a.approvals| < a.required {
      PendingKeeps(c, db, id, a);
    } else {
      EnoughIsAuthorised(c, a);
      ThresholdMet(c, a, user);
      hide Grown;
      GrownThrough(db.actions[id], a, Moved(Moved(a, Approved, user), Queued, "system"));
      QueueKeeps(c, db, id, Moved(Moved(a, Approved, user), Queued, "system"), now);
    }
  }

  lemma ActionIsOk(c: Config, db: Db, id: Id)
    requires DbOk(c, db) && id in db.actions
    ensures ActionOk(c, db.actions[id])
  {
  }

  lemma EnoughIsAuthorised(c: Config, a: Action)
    requires ActionOk(c, a) && |a.approvals| >= a.required && |a.approvals| >= 1
    ensures Authorised(c, a)
  {
  }

  lemma GrownThrough(a: Action, b: Action, d: Action)
    requires Grown(a, b) && Grown(b, d)
    ensures Grown(a, d)
  {
  }

  lemma PendingKeeps(c: Config, db: Db, id: Id, a: Action)
    requires DbOk(c, db) && id in db.actions && id !in db.outbox && db.actions[id].state == ApprovalRequired
    requires Grown(db.actions[id], a) && ActionOk(c, a) && a.state == ApprovalRequired && !Visited(a.log, Queued)
    ensures Kept(c, db, Put(db, id, a))
  {
    hide DbOk, ActionOk, Visited;
    ReplaceKeeps(c, db, Put(db, id, a), id, a);
    hide RowFits, Grown;
  }

  lemma QueueKeeps(c: Config, db: Db, id: Id, queued: Action, now: int)
    requires DbOk(c, db) && id in db.actions && id !in db.outbox && db.actions[id].state == ApprovalRequired
    requires Grown(db.actions[id], queued)
    requires ActionOk(c, queued) && queued.state == Queued && Visited(queued.log, Queued)
    ensures Kept(c, db, Put(db, id, queued).(outbox := db.outbox[id := Row(InQueue, 0, now)]))
  {
    hide DbOk, ActionOk, Visited;
    var after := Put(db, id, queued).(outbox := db.outbox[id := Row(InQueue, 0, now)]);
    ReplaceKeeps(c, db, after, id, queued);
    hide RowFits, Grown;
  }

  lemma ApproveKeeps(c: Config, db: Db, user: string, role: Role, id: Id, now: int)
    requires DbOk(c, db)
    ensures Kept(c, db, Approve(db, c.policy, user, role, id, now).0)
  {
    NothingHappened(c, db);
    hide DbOk, DbGrown, Undisturbed, Stale, Approver, Endorse, Expire;
    if id in db.actions && db.actions[id].state == ApprovalRequired && RoleRank(role) >= RoleRank(Responder) {
      var a := db.actions[id];
      if a.expiresAt < now || Stale(db, a) {
        ExpireKeeps(c, db, id);
      } else if a.key.workflow in c.policy && !(c.policy[a.key.workflow].separation && user == a.requester) && !Approver(a, user) {
        EndorseKeeps(c, db, id, user, role, now);
      }
    }
  }

  lemma RejectKeeps(c: Config, db: Db, user: string, role: Role, id: Id)
    requires DbOk(c, db)
    ensures Kept(c, db, Reject(db, user, role, id).0)
  {
    hide DbOk, DbGrown, Undisturbed, OneMove;
    NothingHappened(c, db);
    var (after, reply) := Reject(db, user, role, id);
    if reply == Done {
      RowOf(c, db, id);
      RejectMoves(db, user, role, id);
      OneMoveKeeps(c, db, after, id, Rejected, user);
      QuietMove(db, after, id, Rejected, user);
    }
  }

  lemma CancelKeeps(c: Config, db: Db, user: string, role: Role, id: Id)
    requires DbOk(c, db)
    ensures Kept(c, db, Cancel(db, user, role, id).0)
  {
    hide DbOk, DbGrown, Undisturbed, OneMove;
    NothingHappened(c, db);
    var (after, reply) := Cancel(db, user, role, id);
    if reply == Done {
      RowOf(c, db, id);
      NeverApproved(c, db, id);
      CancelMoves(db, user, role, id);
      OneMoveKeeps(c, db, after, id, Cancelled, user);
      QuietMove(db, after, id, Cancelled, user);
    }
  }

  lemma NeverApproved(c: Config, db: Db, id: Id)
    requires DbOk(c, db) && id in db.actions
    ensures db.actions[id].state != Approved
  {
    hide LogOk, ProperApprovals, Visited;
  }

  /** Writing a log read earlier is safe under compare-and-set: it is the current log. */
  lemma StaleReadIsCurrent(c: Config, db: Db, id: Id, read: Action)
    requires DbOk(c, db) && ReadOk(db, id, read)
    requires db.actions[id].state == read.state
    ensures db.actions[id].log == read.log
  {
    hide KeysUnique, Mirrored;
    SameStateSameLog(read.log, db.actions[id].log, read.state);
  }

  lemma ReconcileKeeps(c: Config, db: Db, user: string, role: Role, id: Id, read: Action, finding: Finding)
    requires DbOk(c, db) && ReadOk(db, id, read)
    ensures Kept(c, db, Reconcile(db, user, role, id, read, finding).0)
  {
    hide DbOk, DbGrown, Undisturbed, OneMove;
    NothingHappened(c, db);
    var (after, reply) := Reconcile(db, user, role, id, read, finding);
    if reply == Done {
      StaleReadIsCurrent(c, db, id, read);
      ReconcileMoves(db, user, role, id, read, finding);
      var next := if finding.DeliveredFinding? then Acknowledged else FailedWithoutEffect;
      OneMoveKeeps(c, db, after, id, next, user);
      QuietMove(db, after, id, next, user);
    }
  }

  lemma CheckKeeps(c: Config, db: Db, id: Id, proven: bool)
    requires DbOk(c, db)
    ensures Kept(c, db, CheckStatus(db, id, proven))
  {
    hide DbOk, DbGrown, Undisturbed, OneMove;
    NothingHappened(c, db);
    var after := CheckStatus(db, id, proven);
    if id in db.actions && db.actions[id].state == ReconciliationRequired && proven {
      CheckMoves(db, id);
      OneMoveKeeps(c, db, after, id, Acknowledged, "system");
      QuietMove(db, after, id, Acknowledged, "system");
    }
  }

  // ---------------------------------------------------------------------------------------------
  // The dispatcher
  // ---------------------------------------------------------------------------------------------

  /** The instant an action moves to dispatching it is queued, authorised, unexpired and not stale. */
  ghost predicate FitToSend(c: Config, db: Db, id: Id, now: int) {
    && id in db.actions && db.actions[id].state == Queued && Authorised(c, db.actions[id])
    && db.actions[id].expiresAt >= now && !Stale(db, db.actions[id])
  }

  lemma ClaimKeeps(c: Config, db: Db, id: Id, now: int)
    requires DbOk(c, db) && id in db.outbox && db.outbox[id].delivery == InQueue
    ensures var (after, send) := ClaimRow(db, id, now);
      && DbOk(c, after) && DbGrown(db, after)
      && (send <==> FitToSend(c, db, id, now))
      && id in db.actions && OneMove(db, after, id, if send then Dispatching else Expired, "system")
  {
    RowIsMirrored(c, db, id);
    MirrorQueued(db.actions[id].state);
    RowOf(c, db, id);
    ClaimMoves(db, id, now);
    var (after, send) := ClaimRow(db, id, now);
    hide DbOk, DbGrown, Stale, Authorised, OneMove, ClaimRow;
    OneMoveKeeps(c, db, after, id, if send then Dispatching else Expired, "system");
  }

  lemma MirrorQueued(s: State)
    ensures MirrorLabel(s) == InQueue <==> s == Queued
    ensures MirrorLabel(s) == InFlight <==> s == Dispatching
  {
  }

  lemma SettleKeeps(c: Config, db: Db, id: Id, read: Action, next: State, who: string)
    requires DbOk(c, db) && ReadOk(db, id, read) && read.state == Dispatching && Legal(Dispatching, next)
    ensures var (after, moved) := Settle(db, id, read, next, who);
      && DbOk(c, after) && DbGrown(db, after)
      && (moved <==> db.actions[id].state == Dispatching)
      && (if moved then OneMove(db, after, id, next, who) else after == db)
  {
    NothingHappened(c, db);
    var (after, moved) := Settle(db, id, read, next, who);
    if db.actions[id].state == read.state {
      StaleReadIsCurrent(c, db, id, read);
    }
    SettleMoves(db, id, read, next, who);
    if moved {
      hide DbOk, DbGrown, ReadOk, OneMove, Settle;
      OneMoveKeeps(c, db, after, id, next, who);
    }
  }
}
