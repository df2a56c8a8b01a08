/**
  What the transport said is what the dispatcher records: over any run, an action whose send was
  accepted is never moved by the dispatcher into a state that frees its key, and one whose send was
  refused is never moved by it to acknowledged. (A person may still settle an unknown delivery.)
*/
module ResponseVerdicts {
  import opened ResponseModel
  import opened ResponseSpec
  import opened ResponseRuns
  import opened ResponseProofs
  import opened ResponseSafety

  /** Event `k` hands `id` to the transport, which answers `o`. */
  ghost predicate SentAs(c: Config, events: seq<Event>, k: nat, id: Id, o: Outcome)
    requires k < |events|
  {
    events[k] == SendEvent(o) && Run(c, Empty, events[..k]).dispatcher == Claimed(id)
  }

  ghost predicate WasSentAs(c: Config, events: seq<Event>, id: Id, o: Outcome) {
    exists k :: 0 <= k < |events| && SentAs(c, events, k, id, o)
  }

  lemma SentAsBefore(c: Config, events: seq<Event>, e: Event, id: Id, o: Outcome)
    requires WasSentAs(c, events, id, o)
    ensures WasSentAs(c, events + [e], id, o)
  {
    hide Run;
    var k :| 0 <= k < |events| && SentAs(c, events, k, id, o);
    assert (events + [e])[..k] == events[..k];
    assert SentAs(c, events + [e], k, id, o);
  }

  /** The dispatcher holds the verdict on `id`. */
  predicate Holding(d: Dispatcher, id: Id, o: Outcome) {
    d == Sent(id, o) || (d.Recording? && d.id == id && d.outcome == o)
  }

  /** One event: a verdict held was held before, or has just been given. */
  lemma HeldBefore(c: Config, w: World, e: Event, id: Id, o: Outcome)
    requires Holding(Next(c, w, e).dispatcher, id, o)
    ensures Holding(w.dispatcher, id, o) || (e == SendEvent(o) && w.dispatcher == Claimed(id))
  {
    hide ApiCall, ClaimRow, Settle, RecoverRow, Lists;
  }

  /** A verdict held was given by a send. */
  lemma {:induction false} HeldWasSent(c: Config, events: seq<Event>, id: Id, o: Outcome)
    requires Holding(Run(c, Empty, events).dispatcher, id, o)
    ensures WasSentAs(c, events, id, o)
  {
    if events != [] {
      var n := |events| - 1;
      var init, e := events[..n], events[n];
      assert events == init + [e];
      HeldBefore(c, Run(c, Empty, init), e, id, o);
      hide Next;
      if Holding(Run(c, Empty, init).dispatcher, id, o) {
        HeldWasSent(c, init, id, o);
        SentAsBefore(c, init, e, id, o);
      } else {
        assert SentAs(c, events, n, id, o);
      }
    }
  }

  lemma SentStays(c: Config, w: World, e: Event)
    ensures w.sent <= Next(c, w, e).sent
  {
    hide ApiCall, ClaimRow, Settle, RecoverRow, Lists;
  }

  /** A send is in the log of sends ever after. */
  lemma {:induction false} SentIsLogged(c: Config, events: seq<Event>, k: nat, id: Id, o: Outcome)
    requires k < |events| && SentAs(c, events, k, id, o)
    ensures id in Run(c, Empty, events).sent
  {
    var n := |events| - 1;
    var init := events[..n];
    if k < n {
      hide Next;
      assert init[..k] == events[..k];
      assert SentAs(c, init, k, id, o);
      SentIsLogged(c, init, k, id, o);
      SentStays(c, Run(c, Empty, init), events[n]);
    } else {
      SendLogs(c, Run(c, Empty, init), id, o);
      hide Next;
    }
  }

  lemma SendLogs(c: Config, w: World, id: Id, o: Outcome)
    requires w.dispatcher == Claimed(id)
    ensures id in Next(c, w, SendEvent(o)).sent
  {
  }

  lemma SentNotBefore(c: Config, events: seq<Event>, k: nat, j: nat, id: Id, o: Outcome, p: Outcome)
    requires k < |events| && j < |events| && SentAs(c, events, k, id, o) && SentAs(c, events, j, id, p)
    ensures k <= j
  {
    hide Run;
    var front := events[..k];
    RunKeeps(c, front);
    NotYetSent(c, Run(c, Empty, front), id);
    if j < k {
      assert front[..j] == events[..j];
      assert SentAs(c, front, j, id, p);
      SentIsLogged(c, front, j, id, p);
    }
  }

  lemma NotYetSent(c: Config, w: World, id: Id)
    requires Inv(c, w) && w.dispatcher == Claimed(id)
    ensures id !in w.sent
  {
  }

  /** There is one verdict on an action. */
  lemma OneVerdict(c: Config, events: seq<Event>, id: Id, o: Outcome, p: Outcome)
    requires WasSentAs(c, events, id, o) && WasSentAs(c, events, id, p)
    ensures o == p
  {
    hide Run;
    var k :| 0 <= k < |events| && SentAs(c, events, k, id, o);
    var j :| 0 <= j < |events| && SentAs(c, events, j, id, p);
    SentNotBefore(c, events, k, j, id, o, p);
    SentNotBefore(c, events, j, k, id, p, o);
  }

  // ---------------------------------------------------------------------------------------------
  // How the dispatcher moves an action
  // ---------------------------------------------------------------------------------------------

  /** The moves the dispatcher may make on an action, from the position it is in. */
  predicate DispatcherMove(d: Dispatcher, id: Id, was: State, now: State) {
    || now == was
    || (was == Queued && (now == Dispatching || now == Expired))
    || (was == Dispatching && now == ReconciliationRequired)
    || (was == Dispatching && now == Acknowledged && Holding(d, id, Accepted))
    || (was == Dispatching && now == FailedWithoutEffect && Holding(d, id, Refused))
  }

  lemma OneMoveMoves(before: Db, after: Db, id: Id, next: State, who: string, x: Id)
    requires OneMove(before, after, id, next, who) && x in before.actions
    ensures x in after.actions && after.actions[x].state == if x == id then next else before.actions[x].state
  {
    hide Relabelled, Legal;
  }

  lemma ClaimMovesOne(c: Config, db: Db, id: Id, now: int, x: Id)
    requires DbOk(c, db) && id in db.outbox && db.outbox[id].delivery == InQueue && x in db.actions
    ensures var after := ClaimRow(db, id, now).0;
      x in after.actions && (after.actions[x].state == db.actions[x].state || (db.actions[x].state == Queued && after.actions[x].state in {Dispatching, Expired}))
  {
    hide DbOk, ClaimRow, DbGrown, Authorised, Stale, OneMove;
    ClaimKeeps(c, db, id, now);
    var (after, send) := ClaimRow(db, id, now);
    OneMoveMoves(db, after, id, if send then Dispatching else Expired, "system", x);
    RowIsMirrored(c, db, id);
    MirrorQueued(db.actions[id].state);
  }

  lemma SettleMovesOne(c: Config, db: Db, id: Id, read: Action, next: State, x: Id)
    requires DbOk(c, db) && ReadOk(db, id, read) && read.state == Dispatching && Legal(Dispatching, next) && x in db.actions
    ensures var after := Settle(db, id, read, next, "system").0;
      x in after.actions && (after.actions[x].state == db.actions[x].state || (x == id && db.actions[x].state == Dispatching && after.actions[x].state == next))
  {
    hide DbOk, ReadOk, Settle, OneMove, DbGrown;
    SettleKeeps(c, db, id, read, next, "system");
    var (after, moved) := Settle(db, id, read, next, "system");
    if moved {
      OneMoveMoves(db, after, id, next, "system", x);
    }
  }

  lemma RepairMovesOne(c: Config, db: Db, d: Dispatcher, x: Id)
    requires DbOk(c, db) && d.Inspecting? && DispatcherOk(db, d, multiset{}) && x in db.actions
    ensures var after := RecoverRow(db, d.id, d.listed, d.read).0;
      x in after.actions && (after.actions[x].state == db.actions[x].state || (db.actions[x].state == Dispatching && after.actions[x].state == ReconciliationRequired))
  {
    hide DbOk, ReadOk, Settle, OncePerRow, Mark, SettledLabel;
    if d.listed == InQueue {
      NothingToRepair(c, db, d.id, d.listed, d.read.value);
    } else {
      SettleMovesOne(c, db, d.id, d.read.value, ReconciliationRequired, x);
    }
  }

  /** Outside the API an action moves only as the dispatcher's position allows. */
  lemma StepMoves(c: Config, w: World, e: Event, id: Id)
    requires Inv(c, w) && !ApiEvent(e) && id in w.db.actions
    ensures id in Step(w, e).db.actions && DispatcherMove(w.dispatcher, id, w.db.actions[id].state, Step(w, e).db.actions[id].state)
  {
    hide DbOk, SentOk, ReadOk, RecoverRow, Settle, ClaimRow, Listed, OncePerRow, Lists;
    if e.RepairEvent? && w.dispatcher.Inspecting? {
      RepairMovesOne(c, w.db, w.dispatcher, id);
      hide Inv;
    } else if e.ClaimEvent? && w.dispatcher.Idle? && e.id in w.db.outbox && w.db.outbox[e.id].delivery == InQueue {
      ClaimMovesOne(c, w.db, e.id, e.now, id);
      hide Inv;
    } else if e.RecordEvent? && w.dispatcher.Recording? {
      var d := w.dispatcher;
      SettleMovesOne(c, w.db, d.id, d.taken, ResultState(d.outcome), id);
      hide Inv;
    } else {
      hide Inv;
      assert Step(w, e).db.actions == w.db.actions;
    }
  }

  /** What a change by the dispatcher says of the verdict on the action. */
  predicate Honours(was: State, now: State, accepted: bool, refused: bool) {
    was != now ==>
      && (now == Acknowledged ==> accepted)
      && (now == FailedWithoutEffect ==> refused)
      && (accepted ==> !Freed(now))
      && (refused ==> now != Acknowledged)
  }

  lemma MoveHonours(d: Dispatcher, id: Id, was: State, now: State, accepted: bool, refused: bool)
    requires DispatcherMove(d, id, was, now) && !(accepted && refused) && (accepted ==> Taken(was))
    requires (Holding(d, id, Accepted) ==> accepted) && (Holding(d, id, Refused) ==> refused)
    ensures Honours(was, now, accepted, refused)
  {
  }

  /**
    Over any run, the dispatcher acknowledges an action only if its send was accepted, and fails it only
    if its send was refused. So an accepted one is never freed by it, a refused one never acknowledged.
  */
  lemma VerdictIsHonoured(c: Config, events: seq<Event>, e: Event, id: Id)
    requires !ApiEvent(e) && id in Run(c, Empty, events).db.actions
    ensures id in Run(c, Empty, events + [e]).db.actions
    ensures Honours(Run(c, Empty, events).db.actions[id].state, Run(c, Empty, events + [e]).db.actions[id].state,
      WasSentAs(c, events, id, Accepted), WasSentAs(c, events, id, Refused))
  {
    var w := Run(c, Empty, events);
    assert (events + [e])[..|events|] == events;
    assert Run(c, Empty, events + [e]) == Step(w, e);
    hide Run, Step, Inv, WasSentAs, Honours, DispatcherMove, Holding, Taken;
    RunKeeps(c, events);
    StepMoves(c, w, e, id);
    forall o | Holding(w.dispatcher, id, o) ensures WasSentAs(c, events, id, o) {
      HeldWasSent(c, events, id, o);
    }
    OnlyOne(c, events, id);
    if WasSentAs(c, events, id, Accepted) {
      SentIsTaken(c, events, id, Accepted);
    }
    MoveHonours(w.dispatcher, id, w.db.actions[id].state, Step(w, e).db.actions[id].state,
      WasSentAs(c, events, id, Accepted), WasSentAs(c, events, id, Refused));
  }

  lemma OnlyOne(c: Config, events: seq<Event>, id: Id)
    ensures !WasSentAs(c, events, id, Accepted) || !WasSentAs(c, events, id, Refused)
  {
    hide WasSentAs;
    forall o, p | WasSentAs(c, events, id, o) && WasSentAs(c, events, id, p) ensures o == p {
      OneVerdict(c, events, id, o, p);
    }
  }

  lemma SentIsTaken(c: Config, events: seq<Event>, id: Id, o: Outcome)
    requires WasSentAs(c, events, id, o)
    ensures var db := Run(c, Empty, events).db; id in db.actions && Taken(db.actions[id].state)
  {
    hide Run;
    var k :| 0 <= k < |events| && SentAs(c, events, k, id, o);
    SentIsLogged(c, events, k, id, o);
    SentStaysTaken(c, events, [], id);
    assert events + [] == events;
  }
}
