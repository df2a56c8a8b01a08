/**
  The invariant holds in every reachable world, and what that means: an action is sent at most once,
  only after it was claimed fit to send, and never becomes sendable again.
*/
module ResponseSafety {
  import opened ResponseModel
  import opened ResponseSpec
  import opened ResponseRuns
  import opened ResponseProofs

  // ---------------------------------------------------------------------------------------------
  // Events of the dispatcher
  // ---------------------------------------------------------------------------------------------

  lemma ViewsSurvive(c: Config, w: World, db: Db)
    requires Inv(c, w) && DbGrown(w.db, db)
    ensures forall s :: s in w.views ==> ReadOk(db, w.views[s].0, w.views[s].1)
  {
    hide DbOk, SentOk, DispatcherOk;
    forall s | s in w.views ensures ReadOk(db, w.views[s].0, w.views[s].1) {
      ReadSurvives(w.db, db, w.views[s].0, w.views[s].1);
    }
  }

  /** A change by the dispatcher: the database stays consistent, the new position fits it. */
  lemma DispatcherEventKeeps(c: Config, w: World, db: Db, d: Dispatcher)
    requires Inv(c, w) && DbOk(c, db) && DbGrown(w.db, db) && DispatcherOk(db, d, w.sent)
    ensures Inv(c, Written(w, db, d))
  {
    ViewsSurvive(c, w, db);
    SentSurvives(w.db, db, w.sent);
    hide DbOk, DbGrown, DispatcherOk, SentOk, ReadOk;
  }

  lemma SameDb(db: Db)
    ensures DbGrown(db, db)
  {
  }

  lemma OpenRowsAreListed(c: Config, db: Db, open: seq<(Id, Delivery)>)
    requires DbOk(c, db) && Lists(db, open)
    ensures DispatcherOk(db, Recovering(open), multiset{})
  {
    forall i | 0 <= i < |open| ensures Listed(db, open[i]) {
      RowIsMirrored(c, db, open[i].0);
      MirrorQueued(db.actions[open[i].0].state);
    }
  }

  lemma StartKeeps(c: Config, w: World, open: seq<(Id, Delivery)>)
    requires Inv(c, w)
    ensures Inv(c, Step(w, StartEvent(open)))
  {
    SameDb(w.db);
    if w.dispatcher.Down? && Lists(w.db, open) {
      OpenRowsAreListed(c, w.db, open);
      hide DbOk, DbGrown, Lists;
      DispatcherEventKeeps(c, w, w.db, Recovering(open));
    }
  }

  lemma CurrentRead(c: Config, db: Db, id: Id)
    requires DbOk(c, db) && id in db.actions
    ensures ReadOk(db, id, db.actions[id])
  {
    ActionIsOk(c, db, id);
    hide DbOk, ProperApprovals, Visited;
  }

  lemma NextRow(c: Config, db: Db, d: Dispatcher)
    requires DbOk(c, db) && d.Recovering? && DispatcherOk(db, d, multiset{}) && d.todo != []
    ensures var (id, listed) := d.todo[0];
      DispatcherOk(db, Inspecting(id, listed, ActionOf(db, id), d.todo[1..]), multiset{})
  {
    hide DbOk, ReadOk;
    var (id, listed) := d.todo[0];
    var rest := d.todo[1..];
    assert d.todo == [(id, listed)] + rest;
    assert Listed(db, (id, listed));
    assert forall i :: 0 <= i < |rest| ==> Listed(db, rest[i]);
    CurrentRead(c, db, id);
  }

  lemma InspectKeeps(c: Config, w: World)
    requires Inv(c, w)
    ensures Inv(c, Step(w, InspectEvent))
  {
    hide DbOk, SentOk, ReadOk, Settle, ClaimRow, RecoverRow;
    SameDb(w.db);
    if w.dispatcher.Recovering? {
      if w.dispatcher.todo != [] {
        NextRow(c, w.db, w.dispatcher);
      }
      hide Listed, OncePerRow;
      DispatcherEventKeeps(c, w, w.db, Inspected(w).dispatcher);
      hide Inv;
    }
  }

  /** Repairing one row leaves the other listed rows as they were. */
  lemma RestStaysListed(before: Db, after: Db, id: Id, listed: Delivery, rest: seq<(Id, Delivery)>, next: State, who: string)
    requires OneMove(before, after, id, next, who) && OncePerRow([(id, listed)] + rest)
    requires forall i :: 0 <= i < |rest| ==> Listed(before, rest[i])
    ensures DispatcherOk(after, Recovering(rest), multiset{})
  {
    hide Legal, MirrorLabel;
    var all := [(id, listed)] + rest;
    forall i, j | 0 <= i < j < |rest| ensures rest[i].0 != rest[j].0 {
      assert rest[i] == all[i + 1] && rest[j] == all[j + 1];
    }
    forall i | 0 <= i < |rest| ensures Listed(after, rest[i]) {
      assert Listed(before, rest[i]);
      assert rest[i] == all[i + 1] && all[0].0 == id;
    }
  }

  lemma NothingToRepair(c: Config, db: Db, id: Id, listed: Delivery, read: Action)
    requires DbOk(c, db) && ReadOk(db, id, read) && Listed(db, (id, listed)) && listed == InQueue
    requires read.state in {Queued, Cancelled}
    ensures RecoverRow(db, id, listed, Some(read)) == (db, false)
  {
    hide DbOk, ReadOk, Settle;
    if read.state == Cancelled {
      StillCancelled(c, db, id, read);
      SameLabel(db, id, Withdrawn);
      hide Mark;
    }
  }

  lemma SameLabel(db: Db, id: Id, d: Delivery)
    requires id in db.outbox && db.outbox[id].delivery == d
    ensures Mark(db, id, d, None) == db
  {
    assert db.outbox[id := db.outbox[id].(delivery := d)] == db.outbox;
  }

  lemma StillCancelled(c: Config, db: Db, id: Id, read: Action)
    requires DbOk(c, db) && ReadOk(db, id, read) && read.state == Cancelled && id in db.outbox
    ensures db.outbox[id].delivery == Withdrawn
  {
    hide DbOk;
    ActionIsOk(c, db, id);
    RowIsMirrored(c, db, id);
    hide ProperApprovals, FromPolicy, Visited, LogOk;
    FinalStays(read.log, db.actions[id].log, read.state, db.actions[id].state);
  }

  lemma RestIsListed(db: Db, id: Id, listed: Delivery, rest: seq<(Id, Delivery)>)
    requires OncePerRow([(id, listed)] + rest) && forall i :: 0 <= i < |rest| ==> Listed(db, rest[i])
    ensures DispatcherOk(db, Recovering(rest), multiset{})
  {
    hide Listed;
    var all := [(id, listed)] + rest;
    forall i, j | 0 <= i < j < |rest| ensures rest[i].0 != rest[j].0 {
      assert rest[i] == all[i + 1] && rest[j] == all[j + 1];
    }
  }

  lemma RepairRow(c: Config, db: Db, d: Dispatcher)
    requires DbOk(c, db) && d.Inspecting? && DispatcherOk(db, d, multiset{})
    ensures var after := RecoverRow(db, d.id, d.listed, d.read).0;
      DbOk(c, after) && DbGrown(db, after) && DispatcherOk(after, Recovering(d.rest), multiset{})
  {
    hide DbOk, ReadOk, Settle, OneMove, OncePerRow, Mark, SettledLabel;
    if d.listed == InQueue {
      SameDb(db);
      RestIsListed(db, d.id, d.listed, d.rest);
      NothingToRepair(c, db, d.id, d.listed, d.read.value);
      hide Listed, DbGrown;
    } else {
      var next := ReconciliationRequired;
      SettleKeeps(c, db, d.id, d.read.value, next, "system");
      var after := Settle(db, d.id, d.read.value, next, "system").0;
      assert RecoverRow(db, d.id, d.listed, d.read).0 == after;
      hide DbGrown;
      RestStaysListed(db, after, d.id, d.listed, d.rest, next, "system");
    }
  }

  lemma RepairKeeps(c: Config, w: World)
    requires Inv(c, w)
    ensures Inv(c, Step(w, RepairEvent))
  {
    hide DbOk, DbGrown, Listed, ReadOk, SentOk, RecoverRow, OncePerRow, ClaimRow, Settle, Lists;
    if w.dispatcher.Inspecting? {
      var d := w.dispatcher;
      RepairRow(c, w.db, d);
      DispatcherEventKeeps(c, w, RecoverRow(w.db, d.id, d.listed, d.read).0, Recovering(d.rest));
      hide Inv;
    }
  }

  lemma QueuedWasNotSent(c: Config, db: Db, sent: multiset<Id>, id: Id)
    requires DbOk(c, db) && SentOk(db, sent) && id in db.actions && db.actions[id].state == Queued
    ensures id !in sent
  {
    ActionIsOk(c, db, id);
    hide DbOk, ProperApprovals;
    MustHaveVisited(db.actions[id].log, Queued);
    hide LogOk, Visited;
  }

  lemma ClaimTurn(c: Config, db: Db, sent: multiset<Id>, id: Id, now: int)
    requires DbOk(c, db) && SentOk(db, sent) && id in db.outbox && db.outbox[id].delivery == InQueue
    ensures var (after, send) := ClaimRow(db, id, now);
      DbOk(c, after) && DbGrown(db, after) && DispatcherOk(after, if send then Claimed(id) else Idle, sent)
  {
    hide ClaimRow, DbOk, DbGrown, Stale, Authorised, SentOk, Relabelled, MirrorLabel, ReadOk, Listed;
    ClaimKeeps(c, db, id, now);
    var (after, send) := ClaimRow(db, id, now);
    if send {
      QueuedWasNotSent(c, db, sent, id);
      assert id in after.actions && after.actions[id].state == Dispatching;
      hide OneMove, FitToSend;
    }
  }

  lemma ClaimEventKeeps(c: Config, w: World, id: Id, now: int)
    requires Inv(c, w)
    ensures Inv(c, Step(w, ClaimEvent(id, now)))
  {
    hide ClaimRow, DbOk, DbGrown, SentOk, ReadOk, Listed, OncePerRow, RecoverRow, Settle, Lists;
    if w.dispatcher.Idle? && id in w.db.outbox && w.db.outbox[id].delivery == InQueue {
      ClaimTurn(c, w.db, w.sent, id, now);
      var (after, send) := ClaimRow(w.db, id, now);
      DispatcherEventKeeps(c, w, after, if send then Claimed(id) else Idle);
      hide Inv;
    }
  }

  lemma SendIsFirst(c: Config, db: Db, sent: multiset<Id>, id: Id)
    requires DbOk(c, db) && SentOk(db, sent) && DispatcherOk(db, Claimed(id), sent)
    ensures SentOk(db, sent + multiset{id})
  {
    hide DbOk, ReadOk;
    ActionIsOk(c, db, id);
    hide ProperApprovals, FromPolicy;
    MustHaveVisited(db.actions[id].log, Dispatching);
    hide LogOk, Visited;
  }

  lemma SendKeeps(c: Config, w: World, outcome: Outcome)
    requires Inv(c, w)
    ensures Inv(c, Step(w, SendEvent(outcome)))
  {
    hide DbOk, ReadOk, SentOk, Settle, ClaimRow, RecoverRow, Listed, OncePerRow;
    if w.dispatcher.Claimed? {
      SendIsFirst(c, w.db, w.sent, w.dispatcher.id);
    }
  }

  lemma ReloadKeeps(c: Config, w: World)
    requires Inv(c, w)
    ensures Inv(c, Step(w, ReloadEvent))
  {
    hide DbOk, DbGrown, ReadOk, SentOk, Settle, ClaimRow, RecoverRow, Listed, OncePerRow;
    if w.dispatcher.Sent? {
      var id := w.dispatcher.id;
      SameDb(w.db);
      CurrentRead(c, w.db, id);
      DispatcherEventKeeps(c, w, w.db, Recording(id, w.dispatcher.outcome, w.db.actions[id]));
      hide Inv;
    }
  }

  lemma RecordKeeps(c: Config, w: World)
    requires Inv(c, w)
    ensures Inv(c, Step(w, RecordEvent))
  {
    hide DbOk, DbGrown, ReadOk, SentOk, Settle, ClaimRow, RecoverRow, OneMove, Listed, OncePerRow;
    if w.dispatcher.Recording? {
      var d := w.dispatcher;
      SettleKeeps(c, w.db, d.id, d.taken, ResultState(d.outcome), "system");
      DispatcherEventKeeps(c, w, Settle(w.db, d.id, d.taken, ResultState(d.outcome), "system").0, Idle);
      hide Inv;
    }
  }

  lemma ReadKeeps(c: Config, w: World, session: nat, id: Id)
    requires Inv(c, w)
    ensures Inv(c, Step(w, ReadEvent(session, id)))
  {
    if id in w.db.actions {
      CurrentRead(c, w.db, id);
    }
    hide DbOk, DispatcherOk, SentOk, ReadOk;
  }

  lemma SameTables(c: Config, before: Db, after: Db)
    requires DbOk(c, before) && before.actions == after.actions && before.outbox == after.outbox
    ensures Kept(c, before, after)
  {
    hide ActionOk, Visited, MirrorLabel;
    NothingHappened(c, before);
  }

  lemma InvestigationsKeep(c: Config, w: World, investigations: map<string, Investigation>)
    requires Inv(c, w)
    ensures Inv(c, w.(db := w.db.(investigations := investigations)))
  {
    var db := w.db.(investigations := investigations);
    NothingHappened(c, w.db);
    SameTables(c, w.db, db);
    hide DbOk, DbGrown, Undisturbed;
    DbEventKeeps(c, w, db);
  }

  lemma IdleKeeps(c: Config, w: World)
    requires Inv(c, w)
    ensures Inv(c, w.(dispatcher := Idle)) && Inv(c, w.(dispatcher := Down)) && Inv(c, w.(dispatcher := Down, views := map[]))
  {
    hide DbOk, SentOk, ReadOk;
  }

  // ---------------------------------------------------------------------------------------------
  // Every event
  // ---------------------------------------------------------------------------------------------

  lemma ApiKeeps(c: Config, w: World, e: Event)
    requires Inv(c, w) && ApiEvent(e)
    ensures Kept(c, w.db, ApiCall(c, w, e))
  {
    NothingHappened(c, w.db);
    hide DbOk, SentOk, DispatcherOk, Kept, Propose, Approve, Reject, Cancel, Reconcile, CheckStatus, ReadOk;
    match e
    case ProposeEvent(id, user, role, key, now) => ProposeKeeps(c, w.db, id, user, role, key, now);
    case ApproveEvent(user, role, id, now) => ApproveKeeps(c, w.db, user, role, id, now);
    case RejectEvent(user, role, id) => RejectKeeps(c, w.db, user, role, id);
    case CancelEvent(user, role, id) => CancelKeeps(c, w.db, user, role, id);
    case ReconcileEvent(session, user, role, finding) =>
      if session in w.views {
        ReconcileKeeps(c, w.db, user, role, w.views[session].0, w.views[session].1, finding);
      }
    case CheckEvent(id, proven) => CheckKeeps(c, w.db, id, proven);
  }

  lemma StepKeeps(c: Config, w: World, e: Event)
    requires Inv(c, w) && !ApiEvent(e)
    ensures Inv(c, Step(w, e))
  {
    IdleKeeps(c, w);
    hide Inv;
    match e
    case ReadEvent(session, id) => ReadKeeps(c, w, session, id);
    case InvestigationsEvent(investigations) => InvestigationsKeep(c, w, investigations);
    case StartEvent(open) => StartKeeps(c, w, open);
    case InspectEvent => InspectKeeps(c, w);
    case RepairEvent => RepairKeeps(c, w);
    case ClaimEvent(id, now) => ClaimEventKeeps(c, w, id, now);
    case SendEvent(outcome) => SendKeeps(c, w, outcome);
    case ReloadEvent => ReloadKeeps(c, w);
    case RecordEvent => RecordKeeps(c, w);
    case AbandonEvent =>
    case StopEvent =>
    case CrashEvent =>
  }

  /** Every event keeps the invariant. */
  lemma NextKeeps(c: Config, w: World, e: Event)
    requires Inv(c, w)
    ensures Inv(c, Next(c, w, e))
  {
    if ApiEvent(e) {
      ApiKeeps(c, w, e);
      hide DbOk, DbGrown, Undisturbed, ApiCall, Inv;
      DbEventKeeps(c, w, ApiCall(c, w, e));
    } else {
      StepKeeps(c, w, e);
    }
  }

  lemma {:induction false} RunKeeps(c: Config, events: seq<Event>)
    ensures Inv(c, Run(c, Empty, events))
  {
    if events != [] {
      RunKeeps(c, events[..|events| - 1]);
      hide Inv, Next;
      NextKeeps(c, Run(c, Empty, events[..|events| - 1]), events[|events| - 1]);
    }
  }

  // ---------------------------------------------------------------------------------------------
  // Main results
  // ---------------------------------------------------------------------------------------------

  /** At most one send per action, whatever crashes, restarts, cancellations and reconciliations happen. */
  lemma NeverSentTwice(c: Config, events: seq<Event>, id: Id)
    ensures Run(c, Empty, events).sent[id] <= 1
  {
    RunKeeps(c, events);
    hide DbOk, DispatcherOk, ReadOk, Run;
  }

  lemma {:induction false} RunSplits(c: Config, w: World, events: seq<Event>, more: seq<Event>)
    ensures Run(c, w, events + more) == Run(c, Run(c, w, events), more)
  {
    hide Next;
    if more == [] {
      assert events + more == events;
    } else {
      var n := |more| - 1;
      var all := events + more;
      RunSplits(c, w, events, more[..n]);
      assert all[..|all| - 1] == events + more[..n] && all[|all| - 1] == more[n];
      assert Run(c, w, all) == Next(c, Run(c, w, all[..|all| - 1]), all[|all| - 1]);
    }
  }

  /** One event drops no action and only lengthens logs, even when it writes a log read earlier. */
  lemma NextGrows(c: Config, w: World, e: Event)
    requires Inv(c, w)
    ensures DbGrown(w.db, Next(c, w, e).db)
  {
    if ApiEvent(e) {
      ApiKeeps(c, w, e);
      hide ApiCall, DbGrown, Inv;
    } else {
      StepGrows(c, w, e);
    }
  }

  lemma StepGrows(c: Config, w: World, e: Event)
    requires Inv(c, w) && !ApiEvent(e)
    ensures DbGrown(w.db, Step(w, e).db)
  {
    hide DbOk, DbGrown, SentOk, ReadOk, Settle, ClaimRow, RecoverRow, Listed, OncePerRow;
    if e.RepairEvent? && w.dispatcher.Inspecting? {
      RepairRow(c, w.db, w.dispatcher);
      hide Inv;
    } else if e.ClaimEvent? && w.dispatcher.Idle? && e.id in w.db.outbox && w.db.outbox[e.id].delivery == InQueue {
      ClaimTurn(c, w.db, w.sent, e.id, e.now);
      hide Inv;
    } else if e.RecordEvent? && w.dispatcher.Recording? {
      SettleKeeps(c, w.db, w.dispatcher.id, w.dispatcher.taken, ResultState(w.dispatcher.outcome), "system");
      hide Inv;
    } else {
      hide Inv;
      SameActions(w.db, Step(w, e).db);
    }
  }

  lemma SameActions(before: Db, after: Db)
    requires before.actions == after.actions
    ensures DbGrown(before, after)
  {
  }

  lemma GrownOnwards(a: Db, b: Db, d: Db)
    requires DbGrown(a, b) && DbGrown(b, d)
    ensures DbGrown(a, d)
  {
    forall id | id in a.actions ensures id in d.actions && Grown(a.actions[id], d.actions[id]) {
      assert Grown(b.actions[id], d.actions[id]);
    }
  }

  /** Nothing written to an action's log is ever lost. */
  lemma {:induction false} LogsOnlyGrow(c: Config, events: seq<Event>, more: seq<Event>)
    ensures DbGrown(Run(c, Empty, events).db, Run(c, Empty, events + more).db)
  {
    RunSplits(c, Empty, events, more);
    if more == [] {
      SameDb(Run(c, Empty, events).db);
    } else {
      var init := more[..|more| - 1];
      LogsOnlyGrow(c, events, init);
      RunSplits(c, Empty, events, init);
      RunKeeps(c, events + init);
      var w := Run(c, Empty, events + init);
      hide DbGrown, Inv, Next;
      NextGrows(c, w, more[|more| - 1]);
      GrownOnwards(Run(c, Empty, events).db, w.db, Next(c, w, more[|more| - 1]).db);
    }
  }

  /** A sent action stays past dispatch in every later world: it is never queued, so never claimable, again. */
  lemma SentStaysTaken(c: Config, events: seq<Event>, more: seq<Event>, id: Id)
    requires id in Run(c, Empty, events).sent
    ensures var db := Run(c, Empty, events + more).db;
      id in db.actions && Taken(db.actions[id].state) && (id in db.outbox ==> db.outbox[id].delivery != InQueue)
  {
    RunKeeps(c, events);
    RunKeeps(c, events + more);
    LogsOnlyGrow(c, events, more);
    var before, after := Run(c, Empty, events).db, Run(c, Empty, events + more).db;
    hide Run;
    SentSurvives(before, after, Run(c, Empty, events).sent);
    StillTaken(c, after, Run(c, Empty, events).sent, id);
  }

  lemma StillTaken(c: Config, db: Db, sent: multiset<Id>, id: Id)
    requires DbOk(c, db) && SentOk(db, sent) && id in sent
    ensures id in db.actions && Taken(db.actions[id].state) && (id in db.outbox ==> db.outbox[id].delivery != InQueue)
  {
    ActionIsOk(c, db, id);
    if id in db.outbox {
      RowIsMirrored(c, db, id);
      MirrorQueued(db.actions[id].state);
    }
    hide DbOk, MirrorLabel;
    MustHaveVisited(db.actions[id].log, db.actions[id].state);
  }

  /** The tables agree in every reachable world, between any two transactions. */
  lemma TablesAgree(c: Config, events: seq<Event>)
    ensures var db := Run(c, Empty, events).db;
      && (forall id :: id in db.outbox <==> id in db.actions && Visited(db.actions[id].log, Queued))
      && (forall id :: id in db.outbox ==> db.outbox[id].delivery == MirrorLabel(db.actions[id].state))
      && (forall id :: id in db.actions ==> LogOk(db.actions[id].log, db.actions[id].state))
      && KeysUnique(db)
  {
    RunKeeps(c, events);
    hide Run, Visited, LogOk, MirrorLabel, KeysUnique, SentOk, DispatcherOk, ReadOk;
  }

  // ---------------------------------------------------------------------------------------------
  // Whatever is sent was claimed while it was fit to send
  // ---------------------------------------------------------------------------------------------

  /** Event `k` of the run claims `id` while it is queued, authorised, unexpired and not superseded. */
  ghost predicate FitClaim(c: Config, events: seq<Event>, k: nat, id: Id)
    requires k < |events|
  {
    events[k].ClaimEvent? && events[k].id == id && FitToSend(c, Run(c, Empty, events[..k]).db, id, events[k].now)
  }

  /** No action becomes taken. */
  ghost predicate NoneTaken(before: Db, after: Db) {
    forall id :: id in after.actions && Taken(after.actions[id].state) ==> id in before.actions && Taken(before.actions[id].state)
  }

  lemma MoveTakesNone(before: Db, after: Db, id: Id, next: State, who: string)
    requires OneMove(before, after, id, next, who) && (Taken(next) ==> Taken(before.actions[id].state))
    ensures NoneTaken(before, after)
  {
    hide Relabelled, Legal;
  }

  lemma UndisturbedTakesNone(before: Db, after: Db)
    requires Undisturbed(before, after)
    ensures NoneTaken(before, after)
  {
    forall id | id in before.actions && id in after.actions ensures Taken(after.actions[id].state) ==> Taken(before.actions[id].state) {
      assert Quiet(before.actions[id].state, after.actions[id].state);
    }
  }

  lemma SettleTakesNone(c: Config, db: Db, id: Id, read: Action, next: State)
    requires DbOk(c, db) && ReadOk(db, id, read) && read.state == Dispatching && Legal(Dispatching, next)
    ensures NoneTaken(db, Settle(db, id, read, next, "system").0)
  {
    hide DbOk, ReadOk, Settle, OneMove, DbGrown;
    SettleKeeps(c, db, id, read, next, "system");
    var (after, moved) := Settle(db, id, read, next, "system");
    if moved {
      MoveTakesNone(db, after, id, next, "system");
    }
  }

  lemma RepairTakesNone(c: Config, db: Db, d: Dispatcher)
    requires DbOk(c, db) && d.Inspecting? && DispatcherOk(db, d, multiset{})
    ensures NoneTaken(db, RecoverRow(db, d.id, d.listed, d.read).0)
  {
    hide DbOk, ReadOk, Settle, OncePerRow, Mark, SettledLabel;
    if d.listed == InQueue {
      NothingToRepair(c, db, d.id, d.listed, d.read.value);
    } else {
      SettleTakesNone(c, db, d.id, d.read.value, ReconciliationRequired);
      hide NoneTaken;
    }
  }

  lemma ClaimTakesOne(c: Config, db: Db, id: Id, now: int, other: Id)
    requires DbOk(c, db) && id in db.outbox && db.outbox[id].delivery == InQueue
    ensures var after := ClaimRow(db, id, now).0;
      other in after.actions && Taken(after.actions[other].state) ==>
        || (other in db.actions && Taken(db.actions[other].state))
        || (other == id && FitToSend(c, db, id, now))
  {
    hide DbOk, ClaimRow, Relabelled, DbGrown, FitToSend;
    ClaimKeeps(c, db, id, now);
  }

  lemma NextTakes(c: Config, w: World, e: Event, id: Id)
    requires Inv(c, w) && id in Next(c, w, e).db.actions && Taken(Next(c, w, e).db.actions[id].state)
    ensures (id in w.db.actions && Taken(w.db.actions[id].state)) || (e.ClaimEvent? && e.id == id && FitToSend(c, w.db, id, e.now))
  {
    if ApiEvent(e) {
      ApiKeeps(c, w, e);
      hide Inv, ApiCall, DbOk, DbGrown;
      UndisturbedTakesNone(w.db, ApiCall(c, w, e));
    } else if e.ClaimEvent? {
      hide DbOk, SentOk, ReadOk, ClaimRow, FitToSend, DispatcherOk;
      if w.dispatcher.Idle? && e.id in w.db.outbox && w.db.outbox[e.id].delivery == InQueue {
        ClaimTakesOne(c, w.db, e.id, e.now, id);
      }
    } else {
      OtherTakesNone(c, w, e);
    }
  }

  lemma OtherTakesNone(c: Config, w: World, e: Event)
    requires Inv(c, w) && !ApiEvent(e) && !e.ClaimEvent?
    ensures NoneTaken(w.db, Step(w, e).db)
  {
    hide DbOk, SentOk, ReadOk, RecoverRow, Settle, Listed, OncePerRow;
    if e.RepairEvent? && w.dispatcher.Inspecting? {
      RepairTakesNone(c, w.db, w.dispatcher);
      hide Inv, NoneTaken;
    } else if e.RecordEvent? && w.dispatcher.Recording? {
      var d := w.dispatcher;
      SettleTakesNone(c, w.db, d.id, d.taken, ResultState(d.outcome));
      hide Inv, NoneTaken;
    } else {
      hide Inv;
      assert Step(w, e).db.actions == w.db.actions;
    }
  }

  lemma {:induction false} TakenWasFit(c: Config, events: seq<Event>, id: Id) returns (k: nat)
    requires id in Run(c, Empty, events).db.actions && Taken(Run(c, Empty, events).db.actions[id].state)
    ensures k < |events| && FitClaim(c, events, k, id)
  {
    hide Next, FitToSend, Inv;
    var n := |events| - 1;
    var init, e := events[..n], events[n];
    var w := Run(c, Empty, init);
    RunKeeps(c, init);
    NextTakes(c, w, e, id);
    if id in w.db.actions && Taken(w.db.actions[id].state) {
      k := TakenWasFit(c, init, id);
      assert init[..k] == events[..k];
    } else {
      k := n;
    }
  }

  /** Everything ever sent was, at an earlier claim, authorised, unexpired and on the current revision. */
  lemma SentWasFit(c: Config, events: seq<Event>, id: Id) returns (k: nat)
    requires id in Run(c, Empty, events).sent
    ensures k < |events| && FitClaim(c, events, k, id)
  {
    SentStaysTaken(c, events, [], id);
    assert events + [] == events;
    k := TakenWasFit(c, events, id);
  }
}
