# LogLookup AI: a verified model of its stateful core

LogLookup AI acquires security alerts from several sources, stores them in a ledger, correlates them
into chains, and lets people approve response actions on those chains. This project models the four
parts whose value lies in what every run keeps, and proves it:

* **Correlation** (`Chains`, `Timelines`, `Clusters`, `ClusterIds`, `Engine`, `Runs`, `Refusals`). The engine keeps
  per-entity timelines, a graph between timeline neighbours and a table of chains, and changes them
  alert by alert: out-of-order insertion, revision (detach and re-insert), pruning. In every reachable
  state the live chains are exactly the classes of the transitive closure of "share a recorded entity
  and lie within the window", whatever the order of arrival and the timing of evaluation.
* **Entity resolution** (`IpValidity`, `Identities`, `Entities`). Identifiers coalesce into entities
  exactly when a chain of alerts links them; addresses have owners over time, and what is observed later
  never rewrites who owned an address earlier.
* **Response** (`ResponseModel`, `ResponseSpec`, `ResponseRuns`, `ResponseProofs`, `ResponseSafety`,
  `ResponseVerdicts`, `ResponseRecovery`, `ResponseStore`, `ResponseService`). API calls, the dispatcher,
  reconciliation, crashes and restarts interleave freely, with reads that may be stale by the time they are
  used. No action is ever sent twice, and the transport's verdict is what gets recorded. The theorems about runs are about functions of the tables; `ResponseStore` performs
  the transactions step by step, and `ResponseService.Serve` carries the theorems over to runs of the store.
* **Ingestion** (`LedgerModel`, `Ledgers`, `Pipelines`, `Ingestion`, and the paging schemes
  `ElasticPaging`, `SentinelPaging`, `SplunkPaging`). Pages are fetched completely, stored revisions are
  the delivery history without consecutive repeats, every revision of a detection that is no duplicate
  has exactly one work item, and that item is never stranded, whichever transaction the process dies after;
  a first version that was acknowledged without ever being suppressed entered the correlator.

Classes carry the fields of the source's objects; a database transaction is one method. Ghost fields
record history that the program does not keep (what was delivered, sent, issued, or tied together).

## Where the code differs from what is said about it

* Refused revisions. A revision is refused as moving the link that holds its chain together
  (engine/correlate/engine.py:366-373) when the graph without the alert falls apart. The graph has no edge
  between the two timeline neighbours of that alert, so the others may well be linked without it:
  `Refusals.RefusalCanBeUnwarranted` drives an engine there. `Refusals.UnwarrantedIff` gives the exact
  condition, computable beforehand from the graph and the timelines; `Refusals.RefusedIff` says what both
  checks mean together.
* IP validity. An assignment is documented to hold until the address is next seen on a different host
  (engine/correlate/entities.py:8-15). Flushing the later holder gives the address back to the earlier one
  (`IpValidity.DroppingCanRevive`); `IpValidity.DroppingKeepsOwner` says exactly when a flush changes an owner.
* Ties in the validity index. Observing an address at the very time at which another assignment starts
  need not make the observed entity the owner (engine/correlate/entities.py:224-230), as in
  `IpValidity.TieKeepsItsOwner`; `IpValidity.Observe` gives the exact condition.
* Repeated deliveries. The ledger compares the connector's hash with the vault's
  (engine/store/ledger.py:92-115), so a repeat is ignored if and only if the two agree on the payload
  (`LedgerModel.RepeatIsIgnoredIffAgreed`).
* Elastic pages. Paging loses nothing in every order of ties if and only if no millisecond holds more hits
  than one page (`ElasticPaging.LosslessIffSparse`). A single page "loses" a hit when it neither returns it
  nor leaves it to the next; an earlier page may have returned it, which the statement over runs of pages
  takes into account.

## Model

| member | source | states |
|---|---|---|
| Engine.CorrelationEngine.ChainsAreTheClosure | engine/correlate/engine.py:187-307 | in every valid state the live chains are exactly the classes of the closure of "share a recorded entity and lie within the window"; every correlated alert is in exactly one, and the alert-to-chain map names that live chain |
| Runs.Run | engine/correlate/engine.py:134-458 | any sequence of add, evaluate, revise and prune keeps the invariant, hence the closure characterisation |
| Runs.Replay | engine/correlate/engine.py:167-213 | a run of arrivals and evaluations ended by a flush correlates exactly the alerts that arrived, into the closure classes of those alerts |
| Runs.ReplayBoth | engine/correlate/engine.py:167-246 | two engines that receive the same alerts in any two orders, with any evaluations in between, end with the same chains |
| Runs.Confluence | engine/correlate/engine.py:167-246 | the pure fact behind it: two closure partitions of the same arrived alerts are equal, whatever the orders |
| Runs.PoolIsOrderFree | engine/correlate/engine.py:167-213 | what was taken in depends on the alerts, not on order or evaluation |
| Runs.PoolFacts | engine/correlate/engine.py:167-178 | every arrived alert is recorded once, with its resolution |
| Refusals.AppliedRevisionKeepsRestLinked | engine/correlate/engine.py:363-373 | a revision is applied only when the rest of the chain is linked without the revised alert |
| Refusals.ConsecutiveIsFaithful | engine/correlate/engine.py:223-236 | consecutive stamps within the window have the connectivity of the full nearness relation |
| Refusals.LinkedIffConnected | engine/correlate/engine.py:366-369 | in a faithful graph a set of alerts is linked if and only if it is connected |
| Refusals.RestIsLinkedIff | engine/correlate/engine.py:363-373 | the other members are linked without the alert if and only if the timelines, with it taken out, connect them |
| Refusals.UnwarrantedIff | engine/correlate/engine.py:363-373 | a refusal by the first check is unwarranted if and only if the graph falls apart and those timelines do not; passing that check is never wrong |
| Refusals.SecondCheckIsNearness | engine/correlate/engine.py:374-383 | placed anew, the alert meets its chain if and only if it is near some other member of it |
| Refusals.RefusedIff | engine/correlate/engine.py:363-383 | a re-placement is refused if and only if there are other members, and the graph falls apart or the alert is near none of them |
| Refusals.RefusalCanBeUnwarranted | engine/correlate/engine.py:329-373 | an engine that takes in three alerts, evaluates them and answers a revision of the middle one with review, although the others are linked without it and it is near them |
| Chains.PartitionUnique | engine/correlate/engine.py:3-18 | at most one partition is the closure of the recorded facts |
| Chains.ConnectedIsLinked | engine/correlate/engine.py:248-257 | what the graph connects is linked by a walk of near alerts |
| Chains.ComponentIsChain | engine/correlate/engine.py:248-257 | a connected closed set of a faithful graph is a class of the closure |
| Chains.InsertKeepsFaithful | engine/correlate/engine.py:215-236 | joining a new alert to its timeline neighbours only is enough: the graph stays faithful to the full nearness relation |
| Chains.DetachKeepsFaithful | engine/correlate/engine.py:409-413 | detaching without bridging the gap stays faithful if the rest of the component holds together, which the revision check ensures |
| Chains.DropKeepsFaithful | engine/correlate/engine.py:417-458 | dropping whole components keeps the graph faithful |
| Chains.Component | engine/correlate/engine.py:248-257 | the breadth-first component is closed, connected and contains its start |
| Timelines.PositionUnique | engine/correlate/engine.py:238-246 | there is one place for a stamp in a sorted timeline |
| Timelines.Bisect | engine/correlate/engine.py:238-246 | bisection finds it |
| Timelines.NeighbourBetween | engine/correlate/engine.py:223-236 | whatever is within the window on a timeline has a timeline neighbour of the new stamp between them |
| Timelines.NeighbourBridges | engine/correlate/engine.py:223-236 | what is near a new alert is near one of its two neighbours on a shared timeline |
| Timelines.DrawnIsNear | engine/correlate/engine.py:223-236 | an edge is only drawn between alerts that are near on a shared entity |
| Timelines.PlacedKeepsIndexes | engine/correlate/engine.py:215-236 | placing an alert keeps the timelines an index of the recorded alerts |
| Timelines.FilterKeepsIndexes | engine/correlate/engine.py:409-413 | removing one does too |
| Timelines.KeepKeepsIndexes | engine/correlate/engine.py:440-452 | and so does dropping many |
| Clusters.PickEarliest | engine/correlate/engine.py:270-277 | the surviving chain is the one with the earliest first event, ties by id |
| Clusters.BlockIsClosed | engine/correlate/engine.py:259-307 | with nothing left to re-examine every live chain is a whole component |
| Clusters.InsideOrApart | engine/correlate/engine.py:259-272 | a live chain lies inside a component or apart from it, so merging never tears one |
| Clusters.AssignKeepsBlocks | engine/correlate/engine.py:259-307 | filing a component under one chain keeps the block structure of all chains |
| Engine.CorrelationEngine.Add | engine/correlate/engine.py:167-178 | an alert already buffered or correlated is ignored, any other is buffered, in order, and the watermark advances |
| Engine.CorrelationEngine.Evaluate | engine/correlate/engine.py:187-213 | a flush empties the buffer; otherwise exactly the alerts with time at most the newest event time minus the grace leave it and are recorded with their payload, the later ones wait, and before the first alert nothing happens; the chains are the closure again |
| Engine.WatermarkSplits | engine/correlate/engine.py:199-203 | what is at or behind the watermark is due, what is past it waits |
| Engine.CorrelationEngine.InsertAlert | engine/correlate/engine.py:215-236 | one alert joins graph and timelines; only edges at that alert are added, exactly those to its neighbours within the window |
| Engine.CorrelationEngine.RebuildClusters | engine/correlate/engine.py:248-257 | re-examining the new nodes' components restores all chains |
| Engine.CorrelationEngine.AssignCluster | engine/correlate/engine.py:259-307 | a component is filed under one live chain; chains it absorbs point at it; among chains already there the one with the earliest first event, ties by id, keeps its id |
| Engine.CorrelationEngine.ChooseId | engine/correlate/engine.py:266-284 | a component without a live chain gets a fresh id or its anchor's old one, any other the earliest chain's |
| Engine.CorrelationEngine.MergeInto | engine/correlate/engine.py:280-300 | every other chain is pointed at the one that keeps its id |
| Engine.CorrelationEngine.Summarise | engine/correlate/engine.py:286-307 | the record lists the component by time and then uid, with first and last time |
| Engine.CorrelationEngine.LiveCluster | engine/correlate/engine.py:392-395 | following merge pointers terminates; a live chain resolves to itself |
| Engine.CorrelationEngine.Revise | engine/correlate/engine.py:329-356 | the outcome, case by case; a revision taken over (unchanged, rescored or re-clustered) replaces the stored payload, any other replaces nothing; the set of known alerts never changes; a review leaves timelines, graph and partition alone; a re-clustering keeps all old members with the revised alert and restores the closure |
| Runs.ReviseTwice | engine/correlate/engine.py:329-356 | a revision that was taken over is the stored one, so sending it again changes nothing; any other gets the same answer again |
| Engine.CorrelationEngine.Reevaluate | engine/correlate/engine.py:363-390 | re-clustered if and only if the check passes, and then the payload and resolution are the new ones; a review touches nothing |
| Engine.CorrelationEngine.CheckMove | engine/correlate/engine.py:363-383 | the exact condition for re-placing an alert: the rest of its chain is in one piece without it, and placed anew it meets that chain again (or the chain has no other member) |
| Engine.CorrelationEngine.NeighboursIfPlaced | engine/correlate/engine.py:397-407 | exactly the alerts the revised one would be linked to |
| Engine.CorrelationEngine.MeetsAgain | engine/correlate/engine.py:376-379 | following merge pointers from the neighbours' chains finds the chain again if and only if a neighbour is filed under it |
| Engine.CorrelationEngine.Move | engine/correlate/engine.py:384-390 | detach and re-insert: only that alert's payload, resolution and record change, its old chain stays connected |
| Engine.CorrelationEngine.Detach | engine/correlate/engine.py:409-413 | the timelines index exactly the other alerts, and the graph stays faithful to them if the rest of the alert's component hangs together without it |
| Engine.CorrelationEngine.Refresh | engine/correlate/engine.py:358-361 | recomputing a summary moves no alert between chains |
| Engine.CorrelationEngine.PruneBefore | engine/correlate/engine.py:417-458 | exactly the live chains that ended before the cutoff go, with their alerts, and are counted; the surviving table is given entry by entry, chains merged into others included |
| Engine.PruneKeepsBlocks | engine/correlate/engine.py:434-452 | what is left is still whole components under the same chains |
| Engine.RefreshChangesNothing | engine/correlate/engine.py:358-361 | re-assigning a whole live chain files it under the id it already has |
| ClusterIds.SanitizeIsClean | engine/correlate/cluster_id.py:25-27 | every name yields a well-formed label of at most 40 characters |
| ClusterIds.SanitizeIdempotent | engine/correlate/cluster_id.py:25-27 | sanitising a label again leaves it alone |
| ClusterIds.CleanIsKept | engine/correlate/cluster_id.py:25-27 | a well-formed label is its own label |
| ClusterIds.SanitizeKeepsLetters | engine/correlate/cluster_id.py:25-27 | a label consists of dashes and the letters, digits and underscores of the name, in order and as far as it reaches, all of them for names of up to 40 characters; a name without any gets the stand-in |
| ClusterIds.ParsePrint | engine/store/investigations.py:50-68 | parsing inverts printing for every date, sequence number and sanitised label, dashes included |
| ClusterIds.LoadIdState | engine/store/investigations.py:50-68 | the loop over the stored rows yields anchors and counters as the functions of the rows below describe |
| ClusterIds.AnchorsInjective | engine/store/investigations.py:50-68 | loaded anchors are one-to-one with ids |
| ClusterIds.AnchorsLastWins | engine/store/investigations.py:50-68 | an anchor names the last row that carried it |
| ClusterIds.CountersCover | engine/store/investigations.py:50-68 | the counters are at or past every stored sequence number |
| ClusterIds.CountersAttained | engine/store/investigations.py:50-68 | and never past one that was not stored |
| ClusterIds.ClusterIdGenerator.Preload | engine/correlate/cluster_id.py:51-58 | seeding merges anchors and only raises counters |
| ClusterIds.ClusterIdGenerator.NextId | engine/correlate/cluster_id.py:64-76 | a known anchor gets its old id, any other one that was never persisted or issued |
| ClusterIds.Resume | engine/runtime.py:138-139 | after a restart every stored id counts as issued, so none is ever given to another chain |
| IpValidity.Bisect | engine/correlate/entities.py:214-222 | the binary search counts the assignments that have started |
| IpValidity.OwnerIsLastStarted | engine/correlate/entities.py:214-222 | the bisect lookup is the naive scan for the last assignment that has started |
| IpValidity.Insort | engine/correlate/entities.py:228-229 | insertion keeps the list sorted by start, even when a merge left ties out of order, and keeps ties in order if they were |
| IpValidity.Observe | engine/correlate/entities.py:224-230 | with ties in order, the observed entity owns the address at that time if and only if no assignment starting then names a later entity; in any order of ties that suffices |
| IpValidity.OwnerIsLatestTie | engine/correlate/entities.py:214-222 | with ties in order the owner at a start time is the latest entity of the tie |
| IpValidity.TieKeepsItsOwner | engine/correlate/entities.py:224-230 | entity 3 observed at the instant at which 9 took the address over does not become its owner |
| IpValidity.ObservingKeepsThePast | engine/correlate/entities.py:224-230 | a new assignment never changes the owner at an earlier time |
| IpValidity.ObservingOwnsUntilTheNext | engine/correlate/entities.py:224-230 | from its start on it decides, until an assignment placed after it has started |
| IpValidity.MergingRenamesOwners | engine/correlate/entities.py:175-179 | a merge hands over the absorbed entity's addresses, at every time, and nothing else |
| IpValidity.KeptIsSorted | engine/correlate/entities.py:334-343 | a flush keeps the order and exactly the assignments of known entities |
| IpValidity.DroppingKeepsOwner | engine/correlate/entities.py:334-343 | a flush keeps the owner at a time if and only if that owner is kept or there was none |
| IpValidity.DroppingCanRevive | engine/correlate/entities.py:334-343 | a dropped holder gives the address back to an earlier one |
| Identities.SameOwnerIffLinked | engine/correlate/entities.py:184-212 | two identifiers share an entity if and only if a chain of alerts links them by co-occurrence |
| Identities.FusingIsFaithful | engine/correlate/entities.py:184-212 | one more alert: fusing all owners it meets keeps that equivalence |
| Identities.ForgettingIsFaithful | engine/correlate/entities.py:323-333 | a flush forgets whole groups only and keeps the equivalence for the rest |
| Entities.IndexIsInverse | engine/correlate/entities.py:160-212 | index and identifier sets are mutually inverse; host and user identifiers never share an entity |
| Entities.ResolveAll | engine/correlate/entities.py:234-310 | over any run of alerts, two durable identifiers name one entity if and only if the alerts link them |
| Entities.SameEntityIffLinked | engine/correlate/entities.py:184-212 | the same in every valid state, flushes included |
| Entities.OrderDoesNotMatter | engine/correlate/entities.py:184-212 | the order and repetition of alerts do not change what belongs together |
| Entities.EntityResolver.NewEntity | engine/correlate/entities.py:149-158 | a fresh number, and nothing else changes |
| Entities.EntityResolver.Merge | engine/correlate/entities.py:160-182 | the older record survives (ties by number) with both identifier sets, the earlier first and the later last sighting and all addresses; the other disappears |
| Entities.EntityResolver.MergeAll | engine/correlate/entities.py:200-203 | all found entities become one of them; other entities, bare addresses and owners are as before |
| Entities.EntityResolver.FindOwners | engine/correlate/entities.py:194-199 | exactly the owners of the identifiers, each once |
| Entities.EntityResolver.ResolveDurable | engine/correlate/entities.py:184-212 | all given identifiers end up with one entity; entities and keys of other domains are untouched; no owner of an address changes except by absorption |
| Entities.EntityResolver.AssignmentAt | engine/correlate/entities.py:214-222 | the owner at that time, always a live entity |
| Entities.EntityResolver.ObserveIp | engine/correlate/entities.py:224-230 | owners at earlier times stay; with ties in order the observed entity owns the address at that time if and only if no assignment starting then names a later entity |
| Entities.EntityResolver.ResolveHost | engine/correlate/entities.py:247-281 | the host side of a resolution, read off the tables it leaves |
| Entities.EntityResolver.ResolveDevice | engine/correlate/entities.py:263-281 | a device address without a host resolves to whoever held it then |
| Entities.EntityResolver.ResolveSource | engine/correlate/entities.py:291-301 | a source address resolves to its owner at event time, else to its own entity |
| Entities.EntityResolver.Resolve | engine/correlate/entities.py:234-310 | touches exactly the entities the tables name, each once and all live, the owners of every identifier and of the source address among them; they count as seen at the alert's time, others as before; earlier owners of addresses stay; blank alerts get a fresh entity |
| Entities.EntityResolver.DropAllIds | engine/correlate/entities.py:327-332 | the loop over identifiers removes exactly the index entries of the dropped entities |
| Entities.EntityResolver.FlushStale | engine/correlate/entities.py:323-346 | exactly the entities last seen before the cutoff go, no index entry or assignment dangles, and the groups forgotten are those of dropped entities |
| Entities.SeenSurvives | engine/correlate/entities.py:323-346 | an entity an alert touches survives every flush that reaches back no further than the alert |
| ResponseModel.TerminalIsFinal | engine/response/models.py:27-39 | the terminal states are exactly those without a way out; a freed key stays freed |
| ResponseModel.LegalClimbs | engine/response/models.py:27-37 | the transition relation is acyclic |
| ResponseModel.LogClimbs | engine/response/models.py:27-37 | along a log states strictly climb |
| ResponseModel.SameStateSameLog | engine/response/reconcile.py:35-54 | compare-and-set on the state alone is ABA-free: a log still current in its last state is current in full |
| ResponseModel.MustHaveVisited | engine/response/models.py:27-37 | which states cannot be reached without being queued or dispatched, and which only before |
| ResponseModel.OnlyWayTo | engine/response/models.py:27-37 | completion follows acknowledgement, queueing follows approval, approval and rejection the request for it |
| ResponseModel.CurrentRevisionIff | engine/response/approvals.py:31-44 | the current revision is the latest one at the end of a path of merges through at most the given number of investigations, and there is none if no such path exists |
| ResponseSafety.RunKeeps | engine/response/dispatcher.py:44-245 | the invariant holds after every sequence of calls, dispatcher steps, crashes and restarts |
| ResponseSafety.NextKeeps | engine/response/dispatcher.py:44-245 | each single event keeps it |
| ResponseSafety.NeverSentTwice | engine/response/dispatcher.py:169-186 | no action is sent more than once over any run |
| ResponseSafety.SentStaysTaken | engine/response/dispatcher.py:44-51 | a sent action is never queued again, nor its row |
| ResponseSafety.SentWasFit | engine/response/dispatcher.py:98-167 | whatever was sent was claimed while queued, unexpired, on the current revision, and approved by as many distinct responders as the policy asks for, not by the requester when duties are separated |
| ResponseSafety.LogsOnlyGrow | engine/response/dispatcher.py:214-243 | no log entry is ever lost, although logs are read outside the transaction that writes them |
| ResponseSafety.TablesAgree | engine/response/outbox.py:1-8 | between any two transactions a row exists iff its action was ever queued, under the label of its state; logs are legal paths; one live action per key |
| ResponseVerdicts.VerdictIsHonoured | engine/response/dispatcher.py:188-199 | over any run the dispatcher acknowledges only an action whose send was accepted and fails only one whose send was refused; an accepted one is never freed by it, a refused one never acknowledged |
| ResponseVerdicts.OneVerdict | engine/response/dispatcher.py:169-199 | over any run the transport gives one verdict on an action |
| ResponseProofs.ProposeKeeps | engine/response/approvals.py:102-149 | proposing keeps the tables consistent; a live key is never doubled |
| ResponseProofs.ApproveKeeps | engine/response/approvals.py:153-202 | approving does, including expiry, staleness, duties and the final approval that queues |
| ResponseProofs.RejectMoves | engine/response/approvals.py:204-220 | a rejection is exactly one legal move to rejected |
| ResponseProofs.CancelMoves | engine/response/approvals.py:222-244 | a cancellation moves the action and withdraws its queued row together |
| ResponseProofs.ReconcileMoves | engine/response/reconcile.py:26-69 | a reconciliation moves action and row together, from an up-to-date log |
| ResponseProofs.ReconcileKeeps | engine/response/reconcile.py:26-69 | it is safe from any earlier read |
| ResponseProofs.CheckMoves | engine/response/run_status.py:276-301 | a proven run acknowledges the action and marks its row delivered |
| ResponseProofs.ClaimKeeps | engine/response/dispatcher.py:98-167 | a claim turn sends if and only if the action is fit, otherwise expires it; either way action and row move together |
| ResponseProofs.SettleKeeps | engine/response/dispatcher.py:201-245 | a result applies if and only if the action is still dispatching, and is mirrored onto the row |
| ResponseProofs.StaleReadIsCurrent | engine/response/reconcile.py:35-54 | an action read earlier whose state still matches has the same log |
| ResponseRecovery.RecoveryRepairs | engine/response/dispatcher.py:44-96 | from arbitrary tables: every open row ends as its action's real state demands, all else is untouched, and the result counts the operator cases |
| ResponseRecovery.RecoveredTablesAreSafe | engine/response/dispatcher.py:44-96 | afterwards nothing is in flight and only truly queued actions are claimable |
| ResponseRecovery.RecoveryIsIdempotent | engine/response/dispatcher.py:44-96 | recovering again changes nothing |
| ResponseRecovery.RecoveryKeepsConsistent | engine/response/dispatcher.py:44-96 | consistent tables stay consistent and no action is left dispatching |
| ResponseRecovery.TurnSweeps | engine/response/dispatcher.py:103-167 | one turn of the claim loop on any tables |
| ResponseStore.Store.LatestRevision | engine/response/approvals.py:31-44 | the loop over merges gives the current revision |
| ResponseStore.Store.SetState | engine/response/outbox.py:48-56 | compare-and-set on a row |
| ResponseStore.Store.Enqueue | engine/response/outbox.py:21-30 | one delivery per action |
| ResponseStore.Store.ProposeAction | engine/response/approvals.py:102-149 | who is refused, in the order of the source, without effect; otherwise one pending action more, on the policy's terms, under a key nobody live holds; consistent tables stay consistent |
| ResponseStore.Store.ApproveAction | engine/response/approvals.py:153-202 | who is refused; the approval that completes the required number queues the action with a row, an earlier one is only counted, a stale or expired action expires; consistent tables stay consistent and nothing is dropped |
| ResponseStore.Store.RejectAction | engine/response/approvals.py:204-220 | who is refused, without effect, or one legal move to rejected with row and log in step |
| ResponseStore.Store.CancelAction | engine/response/approvals.py:222-244 | who is refused, without effect, or one legal move to cancelled that also withdraws the queued row |
| ResponseStore.Store.OldestQueued | engine/response/dispatcher.py:104-110 | the oldest queued row, if there is one |
| ResponseStore.Store.ClaimTurn | engine/response/dispatcher.py:111-167 | on any tables: sends if and only if the action is sendable, otherwise closes the row; no other row or action changes; on consistent ones what it sends is authorised |
| ResponseStore.Store.Claim | engine/response/dispatcher.py:98-167 | on any tables the loop terminates; it takes the oldest sendable row and closes only unsendable queued ones; if it takes none, no queued row is left; consistent tables stay consistent |
| ResponseStore.Store.SettleFrom | engine/response/dispatcher.py:201-245 | applies if and only if the move is legal and the state is still the one read; then it is one legal move from the current log, mirrored on the row; otherwise nothing changes |
| ResponseStore.Store.RecordResult | engine/response/dispatcher.py:188-199 | accepted: acknowledged, with the row delivered; refused: failed without effect, row failed; unknown: reconciliation required, row unresolved; it applies while the action is dispatching, or awaits reconciliation and the verdict is definite, and otherwise nothing changes |
| ResponseStore.Store.Unsettled | engine/response/outbox.py:68-72 | all open rows, each once |
| ResponseStore.Store.RepairRow | engine/response/dispatcher.py:59-92 | an open row ends as its action's real state demands, every other row and action is untouched, and the flag says whether an operator is needed |
| ResponseStore.Store.Recover | engine/response/dispatcher.py:44-96 | the loop over open rows repairs each and returns the number of operator cases |
| ResponseStore.Store.Resolve | engine/response/reconcile.py:26-69 | from any earlier read: who is refused, without effect, or one legal move to acknowledged or failed with the row in step and no log entry lost |
| ResponseStore.Store.RecordStatus | engine/response/run_status.py:276-301 | one legal move to acknowledged if the delivery is proven and still in question, otherwise nothing |
| ResponseService.Service.Perform | engine/response/dispatcher.py:44-271 | every event of a run is performed by the store's methods |
| ResponseService.Serve | engine/response/dispatcher.py:44-271 | any run of the service ends with consistent tables, no action handed to the transport twice, and every action handed over past dispatch |
| LedgerModel.StoredIsSqueezed | engine/store/ledger.py:82-100 | with agreeing hashes the stored revisions are the deliveries without consecutive repeats |
| LedgerModel.RepeatIsIgnoredIffAgreed | engine/store/ledger.py:92-115 | a repeated delivery is ignored if and only if connector and vault agree on its hash |
| LedgerModel.NoSharedAlias | engine/store/ledger.py:189-207 | no two events that are not duplicates share an alias of their first commit |
| LedgerModel.Root | engine/store/ledger.py:189-207 | duplicate links go strictly back in commit order and end at an event that is no duplicate |
| LedgerModel.RevisionAdded | engine/store/ledger.py:93-150 | a changed payload appends the next number; the latest row agrees with the last revision |
| Ledgers.Ledger.ClaimAliases | engine/store/ledger.py:189-207 | free aliases go to the event, held ones stay; the result is the first other holder |
| Ledgers.Ledger.IngestNew | engine/store/ledger.py:82-174 | a first delivery: revision 1, and work unless it is a duplicate or no detection |
| Ledgers.Ledger.IngestUpdate | engine/store/ledger.py:82-174 | a changed payload: next revision, same duplicate flag, and a revise item |
| Ledgers.Ledger.IngestOne | engine/store/ledger.py:82-174 | ignored if and only if it repeats the latest stored hash, and then nothing changes |
| Ledgers.Ledger.CommitPage | engine/store/ledger.py:59-80 | the page and its cursor together; the accepted records are exactly the revisions stored, each once; work is only added, pending; nothing is accepted if and only if every item repeats the latest revision, and then only the cursor changes |
| Ledgers.Ledger.CommitTwice | engine/store/ledger.py:59-80 | committing a page again accepts nothing if and only if the page has one payload per id |
| Ledgers.Ledger.SelectDue | engine/store/workqueue.py:49-57 | the oldest due items, up to the limit |
| Ledgers.Ledger.ClaimBatch | engine/store/workqueue.py:45-70 | the oldest items that are due (pending or retryable and past their backoff, or claimed with the lease run out) become claimed, each with one more attempt |
| Ledgers.Ledger.Ack | engine/store/workqueue.py:84-95 | only that item becomes processed |
| Ledgers.Ledger.Fail | engine/store/workqueue.py:97-118 | retryable, or quarantined at the eighth attempt |
| Ledgers.Ledger.RecoverClaimed | engine/store/workqueue.py:37-43 | interrupted items are pending again |
| Ledgers.Ledger.PurgeRaw | engine/store/ledger.py:299-321 | a payload is dropped if and only if it is from before the cutoff and no work of its event is pending, claimed or retryable |
| Pipelines.Pipeline.Process | engine/pipeline.py:86-106 | an id is taken in unless it is remembered; a raising record changes nothing |
| Pipelines.Pipeline.Revise | engine/pipeline.py:108-124 | refused until the first version was taken in |
| Pipelines.Pipeline.Remember | engine/pipeline.py:126-133 | the new id is remembered last; beyond the bound the oldest, and only that, is dropped |
| Pipelines.Pipeline.EntersOnce | engine/pipeline.py:78-91 | as long as no more ids than the bound are taken in, each enters the correlator at most once |
| Pipelines.Pipeline.EntersOncePerDrop | engine/pipeline.py:78-91 | without that hypothesis, at most once more per time it was dropped |
| Ingestion.OneItemPerRevision | engine/store/ledger.py:146-169 | every revision of a detection that is no duplicate has exactly one item, and nothing else has; it failed at most eight times and its payload is kept until it is processed or quarantined |
| Ingestion.ProcessBatch | engine/runtime.py:297-321 | every claimed item ends processed, retryable or quarantined; the correlator receives exactly the first versions that were new and passed |
| Ingestion.HandleItem | engine/runtime.py:297-343 | a revision is processed if and only if its first version is remembered and it does not raise; a first version if and only if it is remembered or does not raise, and it enters the correlator if and only if it is new and passes |
| Ingestion.Restart | engine/runtime.py:111-147 | replay into an empty pipeline, then release; what was replayed without raising is taken in, within the bound still remembered and at most once in the correlator; nothing else is |
| Ingestion.Runtime.CommitPage | engine/connectors/supervisor.py:254-258 | a page may be committed at any moment, whatever the worker holds |
| Ingestion.Runtime.ClaimBatch | engine/runtime.py:301 | exactly the claimed rows count one more attempt, expired leases included |
| Ingestion.Runtime.Feed | engine/runtime.py:302-313 | the next claimed item goes through the pipeline, with its payload still there; a revision raises if and only if its first version is not remembered or handling it raises; a first version raises if and only if it is new and handling it raises, and enters the correlator if and only if it is new and passes |
| Ingestion.Runtime.Settle | engine/runtime.py:314-320 | the fed item is processed if and only if it did not raise, otherwise retried or quarantined |
| Ingestion.Runtime.Crash | engine/runtime.py:111-147 | a crash keeps the tables and loses the pipeline and what the worker held |
| Ingestion.Runtime.Replay | engine/runtime.py:111-147 | what startup replays is taken in unless it raises, and enters the correlator if and only if it is new and passes |
| Ingestion.TakenInIsAdmitted | engine/pipeline.py:86-106 | an id that is never suppressed enters the correlator each time it is taken in |
| Ingestion.CrashBeforeAck | engine/store/workqueue.py:10-12 | items claimed, even fed, but not acknowledged are pending again after a restart, with one more attempt and no failure |
| Ingestion.Run | engine/runtime.py:111-343 | any run, with pages, purges, lost acknowledgements and crashes between any two transactions: one item per revision, at most eight failures, payload kept until resolved, acknowledged items took effect, no id enters the correlator twice within the bound, an acknowledged first version that was never suppressed entered it (so within the bound exactly once), and the whole delivery history is stored |
| ElasticPaging.FetchBatch | engine/connectors/elastic.py:212-261 | every hit of the window exactly once, in order, terminating, for any page size and any order of ties per query |
| ElasticPaging.PageAdvances | engine/connectors/elastic.py:242-259 | the cursor and the excluded ids always describe exactly what was yielded |
| ElasticPaging.FetchPage | engine/connectors/elastic.py:348-373 | fewer hits than the limit and then all of them, or exactly the limit and then the cursor moves strictly forward; a cut page loses hits if and only if its first millisecond is overfull |
| ElasticPaging.DrainWindow | engine/connectors/supervisor.py:394-409 | page after page terminates with a complete run of pages, and loses nothing when no millisecond is overfull |
| ElasticPaging.SparseLosesNothing | engine/connectors/supervisor.py:394-409 | if no millisecond is overfull, no run of pages loses a hit, whatever the order of ties |
| ElasticPaging.OverfullLosesSome | engine/connectors/elastic.py:362-370 | if one is, every hit of it is lost by some run of pages |
| ElasticPaging.LosslessIffSparse | engine/connectors/elastic.py:348-373 | paging loses nothing in every order of ties if and only if no millisecond holds more hits than a page |
| ElasticPaging.OverfullCanLose | engine/connectors/elastic.py:362-370 | three hits at one instant, pages of two: a run of pages that loses the third |
| SentinelPaging.TicksOrderInstants | engine/connectors/sentinel.py:85-93 | comparing padded ticks compares instants, however many fractional digits each side has |
| SentinelPaging.RowsChecked | engine/connectors/sentinel.py:221-228 | a page is accepted if and only if it is strictly ordered and strictly beyond the seek key |
| SentinelPaging.WindowsOverlap | engine/connectors/_common.py:115-155 | for every kind of cursor the window read next: a frozen one is read again, any other starts exactly the lookback before the point up to which everything was read, and ends now or where an old page ended; a foreign fingerprint, and only that, stops |
| SentinelPaging.DrainWindow | engine/connectors/sentinel.py:163-201 | paging until complete terminates and yields every row of the view once, in strict key order |
| SentinelPaging.Worker.Poll | engine/connectors/sentinel.py:163-201 | the window read: without a cursor the lookback before now up to now, after a drained window from its end minus the lookback, while one is being drained that one; the watermark is its end once drained; a crash before the commit changes nothing |
| SentinelPaging.PollAll | engine/connectors/supervisor.py:243-258 | over any run of polls and crashes the drained windows cover one gap-free interval, from the lookback before the first committed poll up to the watermark, each fully read |
| SentinelPaging.OneMoreWindow | engine/connectors/_common.py:115-155 | overlapping windows leave no gap |
| SentinelPaging.Worker.NothingIsLost | engine/connectors/sentinel.py:196-201 | of every alert with a version between the first start and the watermark, one at least as new was committed |
| SplunkPaging.Connector.OpenJob | engine/connectors/splunk.py:189-216 | a vanished job is replaced and read from zero, never with the old offset |
| SplunkPaging.Connector.Split | engine/connectors/splunk.py:306-337 | strict mode refuses an unidentified row, otherwise such rows are set aside, none dropped |
| SplunkPaging.Connector.Results | engine/connectors/splunk.py:306-337 | the rows from the offset on, with an error when fewer come than announced |
| SplunkPaging.Connector.FetchPage | engine/connectors/splunk.py:169-237 | the page continues exactly where its own job stood; complete only when all rows of that job were returned, and then the job is released; when it may fail and when it must not |
| SplunkPaging.ReadWindow | engine/connectors/splunk.py:169-237 | however often jobs vanish, calls fail and the process dies, a completed window returned every row of one job exactly once |

## Left out

- Uids, entity numbers and Sentinel row ids are integers; only their equality and order are used. The empty-uid fallback is not modelled.
- Entity resolution and correlation are proved separately: the engine takes each alert's entities as given when it is inserted, and the same answer for both lookups of one revision. Timelines are not re-keyed when entities merge later (nor does the source), so everything about chains is over recorded resolutions.
- Engine.CorrelationEngine.ChooseId: the entity name used in a new id is arbitrary, because choosing the primary entity's display name is presentation.
- Engine.CorrelationEngine.LiveCluster: liveness is claimed for chains that alerts are filed under, not for every merge pointer: after a prune a two-hop pointer may lead nowhere, as in the source.
- Chain risk, tactics, disposition, entity lists and payload fields other than time, identity and content; graph edge attributes and the networkx component call (modelled as a breadth-first search).
- Chain records and entities are values in maps that methods reassign; aliasing between Python objects is not captured.
- Calendar dates are an arbitrary function of the time; Unicode digits and whitespace beyond the ASCII ones in names and ids.
- Primary anchor selection, display names and normalisation of identifiers in entity resolution.
- Response: one scope and one dispatcher task; notes, timestamps, the audit trail, rationale, remote status fields and downstream effect; payload validation; hashes are injective; expiry times are integers.
- ResponseSafety.RunKeeps: each turn of the claim loop is an event of its own, which allows more interleavings than the single transaction of the source; the transaction as a whole is `ResponseStore.Store.Claim`.
- ResponseStore.Store.RecordStatus: the Azure lookup is one verdict, whether exactly one run with the tracking id is in a delivered state.
- The transport is one verdict per send: accepted, rejected or unknown.
- Context observations, incident links, error records, processed observations and evidence reads of the ledger; sealing is the identity.
- Ingestion.ProcessBatch: later revisions may be applied out of order when one backs off; only "never before the first version" is claimed, as in the source.
- Pipelines.Pipeline.EntersOnce: holds under the explicit hypothesis that no more ids than the bound are taken in.
- Ingestion.Restart: which recent detections are replayed (retention, limit, order) is an arbitrary list; in `Ingestion.Run` replays are arbitrary events before the worker resumes.
- Backoff lengths, poll cadence and lease durations are inputs that only guard steps.
- Remote tables and indexes are fixed while a window is read; rows that arrive later are covered only by the overlap of windows.
- SentinelPaging.DrainWindow: assumes that no alert has two versions with one timestamp, where the query itself would pick either.
- SentinelPaging.Worker.Poll: live cursors only; the windows of backfill and version-1 cursors are stated in `SentinelPaging.WindowsOverlap`.
- HTTP, tokens, TLS, SQLite itself, normalisation, adapters, the AI layer, reports, settings and the user interface.
