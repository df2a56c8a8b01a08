/**
  The response layer as it runs: the store, the dispatcher's position, the readers' sessions. Each step
  is performed by the store's methods; what the theorems say of runs therefore holds of the store.
*/
module ResponseService {
  import opened ResponseModel
  import opened ResponseSpec
  import opened ResponseRuns
  import opened ResponseProofs
  import opened ResponseSafety
  import opened ResponseStore

  class Service {
    const store: Store
    var dispatcher: Dispatcher
    var views: map<nat, (Id, Action)>
    /** Every send, as handed to the transport. */
    ghost var sent: multiset<Id>

    ghost function Now(): World
      reads this, store
    {
      World(store.Snapshot(), dispatcher, views, sent)
    }

    constructor (config: Config)
      ensures Now() == Empty && fresh(store) && store.config == config
    {
      store := new Store(config);
      dispatcher, views, sent := Down, map[], multiset{};
    }

    /** A call to the API. */
    method Call(e: Event)
      requires ApiEvent(e)
      modifies store
      ensures Now() == Next(store.config, old(Now()), e)
    {
      hide DbOk, Kept, NewlyProposed, OneMove, ReadOk, Propose, Approve, Reject, Cancel, Reconcile, CheckStatus;
      match e
      case ProposeEvent(id, user, role, key, now) => var _ := store.ProposeAction(id, user, role, key, now);
      case ApproveEvent(user, role, id, now) => var _ := store.ApproveAction(user, role, id, now);
      case RejectEvent(user, role, id) => var _ := store.RejectAction(user, role, id);
      case CancelEvent(user, role, id) => var _ := store.CancelAction(user, role, id);
      case ReconcileEvent(session, user, role, finding) =>
        if session in views {
          var _ := store.Resolve(user, role, views[session].0, views[session].1, finding);
        }
      case CheckEvent(id, proven) => store.RecordStatus(id, proven);
    }

    /** The dispatcher starts: it lists the open rows. */
    method Start(open: seq<(Id, Delivery)>)
      modifies this`dispatcher
      ensures Now() == Next(store.config, old(Now()), StartEvent(open))
    {
      if dispatcher.Down? && Lists(Db(store.actions, store.outbox, store.investigations), open) {
        dispatcher := Recovering(open);
      }
    }

    /** Recovery reads the action of the next listed row. */
    method Inspect()
      modifies this`dispatcher
      ensures Now() == Next(store.config, old(Now()), InspectEvent)
    {
      if dispatcher.Recovering? {
        if dispatcher.todo == [] {
          dispatcher := Idle;
        } else {
          var (id, listed) := dispatcher.todo[0];
          var read := if id in store.actions then Some(store.actions[id]) else None;
          dispatcher := Inspecting(id, listed, read, dispatcher.todo[1..]);
        }
      }
    }

    /** Recovery repairs the row it inspected, from what it read then. */
    method Repair()
      modifies this`dispatcher, store
      ensures Now() == Next(store.config, old(Now()), RepairEvent)
    {
      hide DbOk, OneMove, ReadOk;
      if dispatcher.Inspecting? {
        var d := dispatcher;
        var _ := store.RepairFrom(d.id, d.listed, d.read);
        dispatcher := Recovering(d.rest);
      }
    }

    /** One turn of the claim loop on a queued row. */
    method Claim(id: Id, now: int)
      modifies this`dispatcher, store
      ensures Now() == Next(store.config, old(Now()), ClaimEvent(id, now))
    {
      hide DbOk, DbGrown, ClaimRow;
      if dispatcher.Idle? && id in store.outbox && store.outbox[id].delivery == InQueue {
        var send := store.ClaimTurn(id, now);
        dispatcher := if send then Claimed(id) else Idle;
      }
    }

    /** The claimed action goes to the transport. */
    method Send(outcome: Outcome)
      modifies this`dispatcher, this`sent
      ensures Now() == Next(store.config, old(Now()), SendEvent(outcome))
    {
      if dispatcher.Claimed? {
        sent := sent + multiset{dispatcher.id};
        dispatcher := Sent(dispatcher.id, outcome);
      }
    }

    /** The action is read again before its result is recorded. */
    method Reload()
      modifies this`dispatcher
      ensures Now() == Next(store.config, old(Now()), ReloadEvent)
    {
      if dispatcher.Sent? && dispatcher.id in store.actions {
        dispatcher := Recording(dispatcher.id, dispatcher.outcome, store.actions[dispatcher.id]);
      }
    }

    /** The result is recorded. */
    method Record()
      modifies this`dispatcher, store
      ensures Now() == Next(store.config, old(Now()), RecordEvent)
    {
      hide DbOk, OneMove, ReadOk, Settle;
      if dispatcher.Recording? {
        var d := dispatcher;
        var _ := store.SettleFrom(d.id, d.taken, ResultState(d.outcome), "system");
        dispatcher := Idle;
      }
    }

    /** One event of the running system. */
    method Perform(e: Event)
      modifies this, store
      ensures Now() == Next(store.config, old(Now()), e)
    {
      hide Next, DbOk;
      if ApiEvent(e) {
        Call(e);
      } else if e.StartEvent? {
        Start(e.open);
      } else if e.InspectEvent? {
        Inspect();
      } else if e.RepairEvent? {
        Repair();
      } else if e.ClaimEvent? {
        Claim(e.id, e.now);
      } else if e.SendEvent? {
        Send(e.outcome);
      } else if e.ReloadEvent? {
        Reload();
      } else if e.RecordEvent? {
        Record();
      } else {
        Interrupt(e);
      }
    }

    /** Reads of a session, new investigation revisions, and interruptions of the dispatcher. */
    method Interrupt(e: Event)
      requires e.ReadEvent? || e.InvestigationsEvent? || e.AbandonEvent? || e.StopEvent? || e.CrashEvent?
      modifies this, store
      ensures Now() == Next(store.config, old(Now()), e)
    {
      match e
      case ReadEvent(session, id) =>
        if id in store.actions {
          views := views[session := (id, store.actions[id])];
        }
      case InvestigationsEvent(investigations) => store.investigations := investigations;
      case AbandonEvent =>
        if dispatcher.Claimed? || dispatcher.Sent? || dispatcher.Recording? {
          dispatcher := Idle;
        }
      case StopEvent => dispatcher := Down;
      case CrashEvent => dispatcher, views := Down, map[];
    }
  }

  /**
    Any run of the service: the tables stay consistent, no action was handed to the transport twice,
    and none that was is queued again.
  */
  method Serve(config: Config, events: seq<Event>) returns (s: Service)
    ensures s.store.config == config && s.Now() == Run(config, Empty, events)
    ensures s.store.Consistent()
    ensures forall id :: s.sent[id] <= 1
    ensures forall id :: id in s.sent ==> id in s.store.actions && Taken(s.store.actions[id].state)
  {
    hide Next, DbOk, Inv;
    s := new Service(config);
    for k := 0 to |events|
      invariant fresh(s) && fresh(s.store) && s.store.config == config
      invariant s.Now() == Run(config, Empty, events[..k])
    {
      assert events[..k + 1][..k] == events[..k];
      s.Perform(events[k]);
    }
    assert events[..|events|] == events;
    RunKeeps(config, events);
    InvIsConsistent(config, s.Now());
    forall id ensures s.sent[id] <= 1 && (id in s.sent ==> id in s.store.actions && Taken(s.store.actions[id].state)) {
      NeverSentTwice(config, events, id);
      if id in s.sent {
        SentStaysTaken(config, events, [], id);
        assert events + [] == events;
      }
    }
  }

  lemma InvIsConsistent(c: Config, w: World)
    requires Inv(c, w)
    ensures DbOk(c, w.db)
  {
  }
}
