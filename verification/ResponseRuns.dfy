/**
  Runs of the response layer: API calls, the dispatcher, crashes and restarts in any interleaving.

  Every event is one transaction, one read, one send or one crash. What a caller read in an earlier
  event and uses in a later one is kept in `World.views` (API sessions) or in the dispatcher's
  position, so stale reads and races are part of the model.
*/
module ResponseRuns {
  import opened ResponseModel
  import opened ResponseSpec

  /** Where the single dispatcher task stands. A crash loses this, never the database. */
  datatype Dispatcher =
    | Down
    | Recovering(todo: seq<(Id, Delivery)>)
    | Inspecting(id: Id, listed: Delivery, read: Option<Action>, rest: seq<(Id, Delivery)>)
    | Idle
    | Claimed(id: Id)
    | Sent(id: Id, outcome: Outcome)
    | Recording(id: Id, outcome: Outcome, taken: Action)

  /** `sent` is the log of every send: the multiset of action ids handed to the transport. */
  datatype World = World(db: Db, dispatcher: Dispatcher, views: map<nat, (Id, Action)>, sent: multiset<Id>)

  datatype Event =
    | ProposeEvent(id: Id, user: string, role: Role, key: Key, now: int)
    | ApproveEvent(user: string, role: Role, id: Id, now: int)
    | RejectEvent(user: string, role: Role, id: Id)
    | CancelEvent(user: string, role: Role, id: Id)
    | ReadEvent(session: nat, id: Id)
    | ReconcileEvent(session: nat, user: string, role: Role, finding: Finding)
    | CheckEvent(id: Id, proven: bool)
    | InvestigationsEvent(investigations: map<string, Investigation>)
    | StartEvent(open: seq<(Id, Delivery)>)
    | InspectEvent
    | RepairEvent
    | ClaimEvent(id: Id, now: int)
    | AbandonEvent
    | SendEvent(outcome: Outcome)
    | ReloadEvent
    | RecordEvent
    | StopEvent
    | CrashEvent

  datatype Config = Config(policy: Policy, enabled: bool)

  /** The open outbox rows, in some order. */
  predicate Lists(db: Db, open: seq<(Id, Delivery)>) {
    && OncePerRow(open)
    && forall i :: 0 <= i < |open| ==>
      open[i].0 in db.outbox && db.outbox[open[i].0].delivery == open[i].1 && (open[i].1 == InQueue || open[i].1 == InFlight)
  }

  predicate OncePerRow(open: seq<(Id, Delivery)>) {
    forall i, j :: 0 <= i < j < |open| ==> open[i].0 != open[j].0
  }

  predicate ApiEvent(e: Event) {
    e.ProposeEvent? || e.ApproveEvent? || e.RejectEvent? || e.CancelEvent? || e.ReconcileEvent? || e.CheckEvent?
  }

  /** One event; an event that is not enabled changes nothing. */
  ghost function Next(c: Config, w: World, e: Event): World {
    if ApiEvent(e) then w.(db := ApiCall(c, w, e)) else Step(w, e)
  }

  /** What a call to the API does to the tables. */
  ghost function ApiCall(c: Config, w: World, e: Event): Db
    requires ApiEvent(e)
  {
    match e
    case ProposeEvent(id, user, role, key, now) => Propose(w.db, c.policy, c.enabled, id, user, role, key, now).0
    case ApproveEvent(user, role, id, now) => Approve(w.db, c.policy, user, role, id, now).0
    case RejectEvent(user, role, id) => Reject(w.db, user, role, id).0
    case CancelEvent(user, role, id) => Cancel(w.db, user, role, id).0
    case ReconcileEvent(session, user, role, finding) =>
      if session in w.views
      then Reconcile(w.db, user, role, w.views[session].0, w.views[session].1, finding).0
      else w.db
    case CheckEvent(id, proven) => CheckStatus(w.db, id, proven)
  }

  /** Reads, the dispatcher, crashes, and new investigation revisions. */
  ghost function Step(w: World, e: Event): World
    requires !ApiEvent(e)
  {
    match e
    case ReadEvent(session, id) =>
      if id in w.db.actions then w.(views := w.views[session := (id, w.db.actions[id])]) else w
    case InvestigationsEvent(investigations) => w.(db := w.db.(investigations := investigations))
    case StartEvent(open) =>
      if w.dispatcher.Down? && Lists(w.db, open) then w.(dispatcher := Recovering(open)) else w
    case InspectEvent => Inspected(w)
    case RepairEvent =>
      if w.dispatcher.Inspecting? then
        var d := w.dispatcher;
        Written(w, RecoverRow(w.db, d.id, d.listed, d.read).0, Recovering(d.rest))
      else w
    case ClaimEvent(id, now) =>
      if w.dispatcher.Idle? && id in w.db.outbox && w.db.outbox[id].delivery == InQueue then
        var (next, send) := ClaimRow(w.db, id, now);
        Written(w, next, if send then Claimed(id) else Idle)
      else w
    case AbandonEvent =>
      if w.dispatcher.Claimed? || w.dispatcher.Sent? || w.dispatcher.Recording? then w.(dispatcher := Idle) else w
    case SendEvent(outcome) =>
      if w.dispatcher.Claimed?
      then w.(dispatcher := Sent(w.dispatcher.id, outcome), sent := w.sent + multiset{w.dispatcher.id})
      else w
    case ReloadEvent =>
      if w.dispatcher.Sent? && w.dispatcher.id in w.db.actions
      then w.(dispatcher := Recording(w.dispatcher.id, w.dispatcher.outcome, w.db.actions[w.dispatcher.id]))
      else w
    case RecordEvent =>
      if w.dispatcher.Recording? then
        var d := w.dispatcher;
        Written(w, Settle(w.db, d.id, d.taken, ResultState(d.outcome), "system").0, Idle)
      else w
    case StopEvent => w.(dispatcher := Down)
    case CrashEvent => w.(dispatcher := Down, views := map[])
  }

  function Written(w: World, db: Db, d: Dispatcher): World {
    w.(db := db, dispatcher := d)
  }

  /** Recovery reads the action of the next listed row. */
  function Inspected(w: World): World {
    if !w.dispatcher.Recovering? then w
    else if w.dispatcher.todo == [] then w.(dispatcher := Idle)
    else
      var (id, listed) := w.dispatcher.todo[0];
      w.(dispatcher := Inspecting(id, listed, ActionOf(w.db, id), w.dispatcher.todo[1..]))
  }

  ghost function Run(c: Config, w: World, events: seq<Event>): World {
    if events == [] then w else Next(c, Run(c, w, events[..|events| - 1]), events[|events| - 1])
  }

  const Empty: World := World(Db(map[], map[], map[]), Down, map[], multiset{})

  // ---------------------------------------------------------------------------------------------
  // The invariant
  // ---------------------------------------------------------------------------------------------

  /** Approvals by pairwise distinct people of responder rank or above, never the requester when duties are separated. */
  ghost predicate ProperApprovals(c: Config, a: Action) {
    && (forall i, j :: 0 <= i < j < |a.approvals| ==> a.approvals[i].user != a.approvals[j].user)
    && (forall i :: 0 <= i < |a.approvals| ==> RoleRank(a.approvals[i].role) >= RoleRank(Responder))
    && (a.approvals != [] ==> a.key.workflow in c.policy)
    && (forall i :: 0 <= i < |a.approvals| && c.policy[a.key.workflow].separation ==> a.approvals[i].user != a.requester)
  }

  /** At least as many proper approvals as the policy asks for, and at least one. */
  ghost predicate Authorised(c: Config, a: Action) {
    && ProperApprovals(c, a) && a.key.workflow in c.policy
    && |a.approvals| >= c.policy[a.key.workflow].required && |a.approvals| >= 1
  }

  /** The workflow is allowlisted, and as many approvals are required as it asks for. */
  ghost predicate FromPolicy(c: Config, a: Action) {
    a.key.workflow in c.policy && a.required == c.policy[a.key.workflow].required
  }

  ghost predicate ActionOk(c: Config, a: Action) {
    && LogOk(a.log, a.state) && ProperApprovals(c, a) && FromPolicy(c, a)
    && a.state != Proposed && a.state != Approved
    && (Visited(a.log, Queued) ==> Authorised(c, a))
  }

  /** The outbox mirrors the actions: a row exists once the action was queued, under the label of its state. */
  ghost predicate Mirrored(db: Db) {
    && (forall id :: id in db.outbox ==> id in db.actions && Visited(db.actions[id].log, Queued))
    && (forall id :: id in db.actions && Visited(db.actions[id].log, Queued) ==>
      id in db.outbox && db.outbox[id].delivery == MirrorLabel(db.actions[id].state))
  }

  ghost predicate KeysUnique(db: Db) {
    forall a, b :: a in db.actions && b in db.actions && a != b && db.actions[a].key == db.actions[b].key ==>
      Freed(db.actions[a].state) || Freed(db.actions[b].state)
  }

  ghost predicate DbOk(c: Config, db: Db) {
    (forall id :: id in db.actions ==> ActionOk(c, db.actions[id])) && Mirrored(db) && KeysUnique(db)
  }

  /** `b` is a later stage of `a`: same request, same deadline, more approvals, a longer log. */
  ghost predicate Grown(a: Action, b: Action) {
    && a.key == b.key && a.requester == b.requester && a.required == b.required && a.expiresAt == b.expiresAt
    && a.approvals <= b.approvals && a.log <= b.log
  }

  /** Every action survives, grown. */
  ghost predicate DbGrown(before: Db, after: Db) {
    forall id :: id in before.actions ==> id in after.actions && Grown(before.actions[id], after.actions[id])
  }

  /** An action read earlier. */
  ghost predicate ReadOk(db: Db, id: Id, a: Action) {
    id in db.actions && LogOk(a.log, a.state) && Grown(a, db.actions[id])
  }

  ghost predicate SentOk(db: Db, sent: multiset<Id>) {
    forall id :: id in sent ==> sent[id] == 1 && id in db.actions && Visited(db.actions[id].log, Dispatching)
  }

  ghost predicate DispatcherOk(db: Db, d: Dispatcher, sent: multiset<Id>) {
    match d
    case Claimed(id) => id in db.actions && db.actions[id].state == Dispatching && id !in sent
    case Sent(id, _) => id in db.actions && db.actions[id].state == Dispatching
    case Recording(id, _, a) => ReadOk(db, id, a) && a.state == Dispatching && db.actions[id].state == Dispatching
    case Inspecting(id, listed, read, rest) =>
      && OncePerRow([(id, listed)] + rest)
      && (forall i :: 0 <= i < |rest| ==> Listed(db, rest[i]))
      && Listed(db, (id, listed))
      && read.Some? && ReadOk(db, id, read.value)
      && (listed == InQueue ==> read.value.state in {Queued, Cancelled})
      && (listed == InFlight ==> read.value.state == Dispatching)
    case Recovering(todo) => OncePerRow(todo) && forall i :: 0 <= i < |todo| ==> Listed(db, todo[i])
    case _ => true
  }

  /** A row listed as queued may have been cancelled since; one listed in flight waits for recovery. */
  ghost predicate Listed(db: Db, entry: (Id, Delivery)) {
    && entry.0 in db.actions && entry.0 in db.outbox
    && ((entry.1 == InQueue && db.actions[entry.0].state in {Queued, Cancelled})
        || (entry.1 == InFlight && db.actions[entry.0].state == Dispatching))
  }

  ghost predicate Inv(c: Config, w: World) {
    && DbOk(c, w.db)
    && (forall s :: s in w.views ==> ReadOk(w.db, w.views[s].0, w.views[s].1))
    && SentOk(w.db, w.sent)
    && DispatcherOk(w.db, w.dispatcher, w.sent)
  }
}
