/**
  Response actions: states, the transition relation, and the transition log every action carries.

  The relation is acyclic. That is what makes compare-and-set on the state alone safe: a log that
  was read before a transaction and is still current in its last state is still current in full.
*/
module ResponseModel {
  datatype Option<T> = None | Some(value: T)

  datatype State =
    | Proposed | ApprovalRequired | Approved | Rejected | Queued | Dispatching
    | Acknowledged | Completed | Expired | FailedWithoutEffect | ReconciliationRequired | Cancelled

  /** The legal transitions. */
  predicate Legal(a: State, b: State) {
    match a
    case Proposed => b == ApprovalRequired || b == Cancelled
    case ApprovalRequired => b == Approved || b == Rejected || b == Expired || b == Cancelled
    case Approved => b == Queued || b == Expired || b == Cancelled
    case Queued => b == Dispatching || b == Expired || b == Cancelled
    case Dispatching => b == Acknowledged || b == FailedWithoutEffect || b == ReconciliationRequired
    case Acknowledged => b == Completed
    case ReconciliationRequired => b == Acknowledged || b == FailedWithoutEffect
    case _ => false
  }

  predicate Terminal(s: State) {
    s.Rejected? || s.Completed? || s.Expired? || s.FailedWithoutEffect? || s.Cancelled?
  }

  /** States that free the idempotency key for a new proposal (the partial unique index). */
  predicate Freed(s: State) {
    s.Rejected? || s.FailedWithoutEffect? || s.Expired? || s.Cancelled?
  }

  /** Terminal states are exactly those without a way out; a freed key stays freed. */
  lemma TerminalIsFinal(s: State)
    ensures Terminal(s) <==> forall t :: !Legal(s, t)
    ensures Freed(s) ==> Terminal(s)
  {
    assert Legal(Proposed, Cancelled) && Legal(ApprovalRequired, Cancelled) && Legal(Approved, Cancelled);
    assert Legal(Queued, Cancelled) && Legal(Dispatching, Acknowledged);
    assert Legal(Acknowledged, Completed) && Legal(ReconciliationRequired, Acknowledged);
  }

  function Rank(s: State): nat {
    match s
    case Proposed => 0
    case ApprovalRequired => 1
    case Approved => 2
    case Queued => 3
    case Dispatching => 4
    case ReconciliationRequired => 5
    case Acknowledged => 6
    case Completed => 7
    case _ => 8
  }

  /** Every legal transition climbs: the relation has no cycle. */
  lemma LegalClimbs(a: State, b: State)
    requires Legal(a, b)
    ensures Rank(a) < Rank(b)
  {
  }

  // ---------------------------------------------------------------------------------------------
  // Logs
  // ---------------------------------------------------------------------------------------------

  /** One log entry; the first has no source state. */
  datatype Move = Move(from: Option<State>, reached: State, who: string)

  /** A connected path of legal transitions, starting with the proposal and ending at `s`. */
  ghost predicate LogOk(log: seq<Move>, s: State) {
    && |log| > 0 && log[0].from.None? && log[0].reached == Proposed && log[|log| - 1].reached == s
    && forall i :: 0 < i < |log| ==> Linked(log, i)
  }

  ghost predicate Linked(log: seq<Move>, i: nat)
    requires 0 < i < |log|
  {
    log[i].from == Some(log[i - 1].reached) && Legal(log[i - 1].reached, log[i].reached)
  }

  /** The action has been in state `s` at some time. */
  ghost predicate Visited(log: seq<Move>, s: State) {
    exists i :: 0 <= i < |log| && log[i].reached == s
  }

  lemma {:induction false} LogClimbs(log: seq<Move>, s: State, i: nat, j: nat)
    requires LogOk(log, s) && i < j < |log|
    ensures Rank(log[i].reached) < Rank(log[j].reached)
  {
    assert Linked(log, j);
    LegalClimbs(log[j - 1].reached, log[j].reached);
    if i < j - 1 {
      LogClimbs(log, s, i, j - 1);
    }
  }

  lemma LogExtends(log: seq<Move>, s: State, t: State, who: string)
    requires LogOk(log, s) && Legal(s, t)
    ensures LogOk(log + [Move(Some(s), t, who)], t)
    ensures forall x :: Visited(log + [Move(Some(s), t, who)], x) <==> Visited(log, x) || x == t
  {
    var more := log + [Move(Some(s), t, who)];
    forall i | 0 < i < |more| ensures Linked(more, i) {
      if i < |log| { assert Linked(log, i); }
    }
    forall x ensures Visited(more, x) <==> Visited(log, x) || x == t {
      if Visited(log, x) {
        var i :| 0 <= i < |log| && log[i].reached == x;
        assert more[i].reached == x;
      }
      assert more[|log|].reached == t;
    }
  }

  /** Two stages of one log that end in the same state are the same: compare-and-set is ABA-free. */
  lemma SameStateSameLog(earlier: seq<Move>, now: seq<Move>, s: State)
    requires LogOk(earlier, s) && LogOk(now, s) && earlier <= now
    ensures earlier == now
  {
    if |earlier| < |now| {
      LogClimbs(now, s, |earlier| - 1, |now| - 1);
    }
  }

  /** Nothing that was visited lies above the current state. */
  lemma VisitedBelow(log: seq<Move>, s: State, t: State)
    requires LogOk(log, s) && Visited(log, t)
    ensures t == s || Rank(t) < Rank(s)
  {
    var i :| 0 <= i < |log| && log[i].reached == t;
    if i < |log| - 1 {
      LogClimbs(log, s, i, |log| - 1);
    }
  }

  /** The states an action can only reach by being taken for dispatch. */
  predicate Taken(s: State) {
    s in {Dispatching, Acknowledged, Completed, FailedWithoutEffect, ReconciliationRequired}
  }

  /** How a state can be reached: what must, and what cannot, have been visited on the way. */
  lemma {:induction false} MustHaveVisited(log: seq<Move>, s: State)
    requires LogOk(log, s)
    ensures Visited(log, s)
    ensures Visited(log, Dispatching) <==> Taken(s)
    ensures Visited(log, Dispatching) ==> Visited(log, Queued)
    ensures s in {Proposed, ApprovalRequired, Approved, Rejected} ==> !Visited(log, Queued)
  {
    var n := |log| - 1;
    assert log[n].reached == s;
    if n > 0 {
      LogShortens(log, s);
      var init, t := log[..n], log[n - 1].reached;
      MustHaveVisited(init, t);
      LogExtends(init, t, s, log[n].who);
      assert log == init + [Move(Some(t), s, log[n].who)];
      BelowWhatWasVisited(init, t);
      hide LogOk, Visited;
    }
  }

  /** Completion follows acknowledgement; queueing follows approval, and approval the request for it. */
  lemma {:induction false} OnlyWayTo(log: seq<Move>, s: State)
    requires LogOk(log, s)
    ensures Visited(log, Completed) ==> Visited(log, Acknowledged)
    ensures Visited(log, Queued) ==> Visited(log, Approved)
    ensures Visited(log, Approved) || Visited(log, Rejected) ==> Visited(log, ApprovalRequired)
    ensures s != Proposed ==> |log| > 1
  {
    var n := |log| - 1;
    if n > 0 {
      LogShortens(log, s);
      var init, t := log[..n], log[n - 1].reached;
      OnlyWayTo(init, t);
      MustHaveVisited(init, t);
      LogExtends(init, t, s, log[n].who);
      assert log == init + [Move(Some(t), s, log[n].who)];
      hide LogOk, Visited;
    } else {
      assert log == [log[0]];
      hide LogOk;
    }
  }

  lemma LogShortens(log: seq<Move>, s: State)
    requires LogOk(log, s) && |log| > 1
    ensures var n := |log| - 1;
      LogOk(log[..n], log[n - 1].reached) && log[n] == Move(Some(log[n - 1].reached), s, log[n].who) && Legal(log[n - 1].reached, s)
  {
    var n := |log| - 1;
    assert Linked(log, n);
    forall i | 0 < i < n ensures Linked(log[..n], i) {
      assert Linked(log, i);
    }
  }

  lemma BelowWhatWasVisited(log: seq<Move>, s: State)
    requires LogOk(log, s)
    ensures Visited(log, Dispatching) ==> s == Dispatching || Rank(Dispatching) < Rank(s)
    ensures Visited(log, Queued) ==> s == Queued || Rank(Queued) < Rank(s)
  {
    if Visited(log, Dispatching) {
      VisitedBelow(log, s, Dispatching);
    }
    if Visited(log, Queued) {
      VisitedBelow(log, s, Queued);
    }
  }

  // ---------------------------------------------------------------------------------------------
  // Records
  // ---------------------------------------------------------------------------------------------

  datatype Role = Viewer | Analyst | Responder | Administrator | Unrecognised

  function RoleRank(r: Role): int {
    match r
    case Unrecognised => -1
    case Viewer => 0
    case Analyst => 1
    case Responder => 2
    case Administrator => 3
  }

  /** What an allowlisted workflow asks for. */
  datatype Workflow = Workflow(required: int, separation: bool, ttl: int)
  type Policy = map<string, Workflow>

  datatype Approval = Approval(user: string, role: Role)

  /** The idempotency key; `content` stands for the hash of payload and evidence references. */
  datatype Key = Key(workflow: string, cluster: string, revision: int, content: int)

  datatype Action = Action(
    key: Key, requester: string, required: int, approvals: seq<Approval>,
    expiresAt: int, state: State, log: seq<Move>)

  type Id = string

  datatype Delivery =
    | InQueue | InFlight | Delivered | Failed | Unresolved | Lapsed | Withdrawn | Inconsistent

  datatype Row = Row(delivery: Delivery, attempts: nat, created: int)

  datatype Investigation = Investigation(latest: int, mergedInto: Option<string>)

  datatype Db = Db(actions: map<Id, Action>, outbox: map<Id, Row>, investigations: map<string, Investigation>)

  datatype Reply = Done | Forbidden | Conflict | NotFound | Unavailable

  function Moved(a: Action, next: State, who: string): Action {
    a.(state := next, log := a.log + [Move(Some(a.state), next, who)])
  }

  function Put(db: Db, id: Id, a: Action): Db {
    db.(actions := db.actions[id := a])
  }

  /** `set_state_in` and `finish`: no row, no change; with a guard, only from that label. */
  function Mark(db: Db, id: Id, d: Delivery, guard: Option<Delivery>): Db {
    if id in db.outbox && (guard.None? || guard.value == db.outbox[id].delivery)
    then db.(outbox := db.outbox[id := db.outbox[id].(delivery := d)])
    else db
  }

  /** The outbox label that mirrors a settled action state. */
  function SettledLabel(s: State): Option<Delivery> {
    match s
    case Acknowledged => Some(Delivered)
    case Completed => Some(Delivered)
    case FailedWithoutEffect => Some(Failed)
    case ReconciliationRequired => Some(Unresolved)
    case Expired => Some(Lapsed)
    case Cancelled => Some(Withdrawn)
    case Rejected => Some(Withdrawn)
    case _ => None
  }

  /** The label an outbox row should carry. */
  function MirrorLabel(s: State): Delivery {
    match s
    case Queued => InQueue
    case Dispatching => InFlight
    case _ => if SettledLabel(s).Some? then SettledLabel(s).value else Inconsistent
  }

  /** Follow at most five merges; `None` when the investigation is not stored. */
  function CurrentRevision(investigations: map<string, Investigation>, cluster: string, hops: nat): Option<int>
    decreases hops
  {
    if hops == 0 || cluster !in investigations then None
    else
      var i := investigations[cluster];
      if i.mergedInto.None? then Some(i.latest)
      else CurrentRevision(investigations, i.mergedInto.value, hops - 1)
  }

  /** Merges lead along the path to an investigation that is not merged. */
  ghost predicate MergePath(investigations: map<string, Investigation>, path: seq<string>) {
    && path != []
    && (forall i :: 0 <= i < |path| ==> path[i] in investigations)
    && (forall i :: 0 <= i < |path| - 1 ==> investigations[path[i]].mergedInto == Some(path[i + 1]))
    && investigations[path[|path| - 1]].mergedInto.None?
  }

  ghost predicate Leads(investigations: map<string, Investigation>, cluster: string, hops: nat, latest: int) {
    exists path :: MergePath(investigations, path) && path[0] == cluster && |path| <= hops && investigations[path[|path| - 1]].latest == latest
  }

  /** The current revision is the latest one at the end of a path of merges over at most so many investigations. */
  lemma {:induction false} CurrentRevisionIff(investigations: map<string, Investigation>, cluster: string, hops: nat, latest: int)
    ensures CurrentRevision(investigations, cluster, hops) == Some(latest) <==> Leads(investigations, cluster, hops, latest)
    decreases hops
  {
    if hops > 0 && cluster in investigations {
      var i := investigations[cluster];
      if i.mergedInto.None? {
        EndOfMerges(investigations, cluster, hops, latest);
      } else {
        CurrentRevisionIff(investigations, i.mergedInto.value, hops - 1, latest);
        MergedOnwards(investigations, cluster, hops, latest);
      }
    }
  }

  lemma LongPathIsMerged(investigations: map<string, Investigation>, path: seq<string>)
    requires MergePath(investigations, path)
    ensures |path| == 1 || investigations[path[0]].mergedInto.Some?
  {
    var first := 0;
    if first < |path| - 1 {
      assert investigations[path[first]].mergedInto == Some(path[first + 1]);
    }
  }

  lemma EndOfMerges(investigations: map<string, Investigation>, cluster: string, hops: nat, latest: int)
    requires hops > 0 && cluster in investigations && investigations[cluster].mergedInto.None?
    ensures Leads(investigations, cluster, hops, latest) <==> investigations[cluster].latest == latest
  {
    var path := [cluster];
    assert MergePath(investigations, path) && path[0] == cluster;
    forall p | MergePath(investigations, p) && p[0] == cluster ensures |p| == 1 && p[|p| - 1] == cluster {
      LongPathIsMerged(investigations, p);
    }
  }

  lemma MergedOnwards(investigations: map<string, Investigation>, cluster: string, hops: nat, latest: int)
    requires hops > 0 && cluster in investigations && investigations[cluster].mergedInto.Some?
    ensures Leads(investigations, cluster, hops, latest) <==> Leads(investigations, investigations[cluster].mergedInto.value, hops - 1, latest)
  {
    var next := investigations[cluster].mergedInto.value;
    if Leads(investigations, next, hops - 1, latest) {
      var path :| MergePath(investigations, path) && path[0] == next && |path| <= hops - 1 && investigations[path[|path| - 1]].latest == latest;
      var more := [cluster] + path;
      assert more[|more| - 1] == path[|path| - 1];
      assert forall i :: 0 < i < |more| ==> more[i] == path[i - 1];
      assert MergePath(investigations, more);
    }
    if Leads(investigations, cluster, hops, latest) {
      var path :| MergePath(investigations, path) && path[0] == cluster && |path| <= hops && investigations[path[|path| - 1]].latest == latest;
      var rest := path[1..];
      assert rest[|rest| - 1] == path[|path| - 1];
      assert forall i :: 0 <= i < |rest| ==> rest[i] == path[i + 1];
      assert MergePath(investigations, rest);
    }
  }

  /** The investigation moved on since the action was proposed. */
  predicate Stale(db: Db, a: Action) {
    var latest := CurrentRevision(db.investigations, a.key.cluster, 5);
    latest.Some? && latest.value != a.key.revision
  }
}
