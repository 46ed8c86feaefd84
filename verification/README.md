# Atoll, modelled and proved in Dafny

Atoll runs actors in channels. This project models the parts of it where
concurrency, paging and encoding have to be exact, and proves what they promise.

Each stateful component is written three times over. A `class` carries the
source's own fields, and its methods are the lock-held sections of the source.
Each method is proved to compute a pure section function on the old state; those
methods only tie the model to the code and are not listed below unless they promise more.
A step function then lets those sections interleave in any order, and the theorems
hold for every run of it. Where the source makes a promise in words (first decision
wins, plain FIFO, nothing forgotten), the reference it is compared with is a
separate definition that knows no locks, channels or caches.

| component | files |
|---|---|
| history boundary, projection, paging | `Ledger`, `History`, `HistoryPaging`, `HistoryLimits`, `HistoryChain`, `HistoryLoss`, `HistoryAdmission` |
| live feed | `LivePump` |
| session eligibility | `Eligibility` |
| call ledger | `CallLedger`, `CallRuns`, `ProgressQueue` |
| work queue and serve accounts | `WorkDeque`, `WorkWake`, `WorkPump` |
| outbound slots | `Outbound`, `OutboundRuns` |
| lane admission, plan pulls, lane RPC | `LaneAdmission`, `PlanPull`, `RpcWaiters` |
| daemon host | `Membranes`, `Carriers` |
| member hub and manifest | `MemberHub`, `Manifest` |
| reading and printing JSON | `Json`, `KeyOrder`, `JsonReader`, `JsonPrinter` |
| canonical JSON (RFC 8785) | `CanonicalString`, `Canonical`, `CanonicalReads` |
| bounded JSON | `JsonSize`, `JsonEncoding`, `BoundedJson`, `Observation`, `EncodedBudget`, `Shedding`, `ObjectFit`, `MarkerCost`, `FieldChoice`, `ProjectionResults`, `OneResult`, `FieldList`, `ProjectionInputs`, `BoundedProjection` |

`dafny verify dfyconfig.toml` checks everything.

## Where the code and its comments part

- The canonical printer rewrites the escapes of U+2028 and U+2029 with a textual
  replacement, so a string that itself spells a backslash followed by `u2028` or
  `u2029` is mangled into text that is not JSON. `CanonicalString.MatchesRfcIff` gives
  the exact condition and `CanonicalString.SpelledEscapeIsMangled` an input. On whole
  values, the text reads back as the value if and only if no string or key of it spells
  an escape, and otherwise a JSON reader refuses it: `CanonicalReads.CanonicalReadsBackIff`.
  The printer stays injective all the same.
- Bounded JSON calls its projection deterministic. When an object has to shed fields, a
  tie can split, and which of two equally costly fields is shown then depends on map
  iteration order: `ObjectFit.ResultIsForcedIff` gives the exact condition for fitting a
  selection, `OneResult.ObjectHasOneResultIff` the one for an object, and
  `ProjectionInputs.TwinsHaveTwoResults` objects of 546 bytes with two results within 512.
  Where no tie splits in an object visited there is one result (`OneResult.ResultIsUnique`),
  and a caller can know beforehand: a value below a megabyte none of whose objects uses the
  marker's own key or has a thousand fields has one result within every budget
  (`OneResult.OrdinaryHasOneResult`). Two objects fitting may show never differ in how many
  fields they hold, a tie shed whole decides nothing, and nothing is shed at all while the
  marker stays within its reserve (`ProjectionResults.SmallFactsSurvive`).
- The empty string doubles as "no field found", so the field with the empty key is never
  shed: meeting it as the largest gives up. `ObjectFit.GivesUpExactly` and
  `ObjectFit.SucceedsExactly` say when, and `ProjectionInputs.UnnamedIsNeverShed` gives
  objects of 546 bytes whose only result within 512 is the container cut although the
  fields chosen without that one would fit.
- The last fallback of the bounded projection can never succeed: a projection that did
  not fit means a budget below 19 bytes, and then neither fallback fits either.
- The exact close of a compartment checks identity and looks the coordinate up again in
  two separate sections, so a successor built in between is closed in its place:
  `PlanPull.CloseReaches` says exactly when and `PlanPull.SuccessorCanBeClosed` gives the
  runs.
- The lane watermark lives in the compartment object. A forgotten coordinate starts
  over and can admit a generation its predecessor had moved past. Forgetting is the only
  way: `LaneAdmission.OutOfOrderMeansForgotten` and `LaneAdmission.ForgettingStartsOver`.
- One row no frame can carry ends the client's whole history walk, and takes the newer
  rows of its page with it: `HistoryLoss.UntransportableStops` and
  `HistoryLoss.GoodRowIsLostToo`. A provisional answer does so only on a page
  whose cursor cuts off every newer answer (`HistoryLoss.ErrorHasCause`), so a superseded
  one may or may not, by the limits chosen: `HistoryLoss.SupersededDependsOnLimits`.

## Model

| member | source | states |
|---|---|---|
| History.HistoryBoundary | platform/channelspec/history.go:76-148 | the boundary loops compute the reference cut: the latest row that still leaves the target rows and the completed roots asked for |
| History.SmallerCutIsLatest | platform/channelspec/history.go:127-148 | taking the smaller of the row cut and the root cut gives the latest good cut, and no later row is one |
| History.LatestGoodCut | platform/channelspec/history.go:76-148 | the reference cut is good and every good cut lies at or before it |
| History.ReadyBoundary | platform/channelspec/history.go:76-148 | a ready cut is in range and on a root turn (or at the target of a turn-free log); away from the start it leaves enough rows and enough completed roots; at the start it is always ready |
| History.CountedRootsCloseInside | platform/channelspec/history.go:90-126 | a root counted complete has its terminal after it inside the same window |
| History.ProjectHistoryWindow | platform/channelspec/history.go:150-194 | the projecting loops return exactly the projection of the rows from the boundary, with the window's cursors |
| History.CollectAnswers | platform/channelspec/history.go:155-172 | one pass yields the completed requests and the newest provisional per request |
| History.ProjectAscending | platform/channelspec/history.go:150-194 | projection keeps ledger order |
| History.ProjectIdempotent | platform/channelspec/history.go:150-194 | projecting a projected window changes nothing |
| History.ProjectionOfRequest | platform/channelspec/history.go:150-194 | a conversation request keeps all its terminals; once completed it shows no provisional; while open it shows exactly the latest one |
| History.LatestProvisionalExists | platform/channelspec/history.go:150-194 | an open request with any provisional answer shows one |
| HistoryPaging.ReadVisibleBeforeSeq | platform/home/view.go:163-194 | a backwards page ends at the cursor, spends the row and byte limits, and is never empty while an older row remains |
| HistoryPaging.ReadHistoryWindow | platform/channelspec/history.go:42-74 | the scan terminates with the window its query selects: the first boundary that becomes ready, projected |
| HistoryPaging.ReadHistory | drivers/gateway/session.go:894-980 | a history read returns the window cut to the row and byte limits, with the cursor and older flag a client follows |
| HistoryPaging.TakeNewest | drivers/gateway/session.go:929-960 | rows are taken newest first until the byte limit is spent; a row that cannot be encoded fails the read |
| HistoryPaging.CutBudget | drivers/gateway/session.go:929-971 | the bytes are those of the rows taken, within the limit unless the first row alone exceeds it, and the next older row would not have fitted |
| HistoryLimits.EveryPageKeepsItsLimits | drivers/gateway/session.go:916-971 | every page of every ledger has at most the row limit, counts the wire bytes of its own rows, stays within the byte limit unless one row alone exceeds it, and leaves the next older row out only by a limit |
| HistoryLimits.EveryWindowHoldsItsTarget | platform/channelspec/history.go:42-148 | a window that does not reach the start of the ledger holds the rows and the completed roots its query asks for, defaults included, starts on a root turn, and no later start would do |
| HistoryChain.PageCovers | drivers/gateway/session.go:916-971 | one page delivers every lasting row of the range it closes, in order, and its cursor reaches exactly the rest |
| HistoryChain.RunCovers | drivers/gateway/session.go:916-971 | a whole chain of pages delivers strictly ascending rows with no lasting row missing from the floor up; the floor is the row that could not be transported, if any |
| HistoryChain.RunDescends | drivers/gateway/session.go:916-971 | page ranges are disjoint and strictly descending and the cursor never falls back to the head |
| HistoryChain.DeliveredExactlyOnce | drivers/gateway/session.go:916-971 | on a ledger every row of which can be carried, for every choice of positive limits per request, each root turn and each terminal of a conversation request is delivered exactly once |
| HistoryLoss.DeliveredIffAboveFloor | drivers/gateway/session.go:916-971 | on every ledger, a lasting row is delivered exactly once if and only if it lies at or above the chain's floor, and otherwise never |
| HistoryLoss.UntransportableStops | drivers/gateway/session.go:929-960 | a lasting row no frame can carry, a provisional that is the newest answer of an open request among them, always ends the chain in the error page, for every positive choice of limits, and the floor lies above it |
| HistoryLoss.ErrorHasCause | drivers/gateway/session.go:916-960 | an error page has a row no frame can carry below its cursor, and a provisional causes it only where no newer answer to its request lies below that cursor |
| HistoryLoss.SupersededDependsOnLimits | drivers/gateway/session.go:916-971 | a ledger whose superseded provisional no frame can carry: with one row a page it ends the walk, with two rows and two bytes a page it is never met |
| HistoryChain.LastingIff | platform/channelspec/history.go:150-194 | the rows the projection of the whole ledger keeps are exactly those every window that holds them keeps |
| HistoryLoss.GoodRowIsLostToo | drivers/gateway/session.go:929-960 | a ledger of two root turns whose good newer one is lost with the older one that cannot be carried |
| HistoryChain.RootsAndTerminalsLast | platform/channelspec/history.go:150-194 | root turns and terminals of conversation requests survive every projection of a window that holds them |
| LivePump.StoreReadAfterSeq | runtime/internal/store/messages.go:279-326 | the store returns the next rows up to the limit and the head as scanned position unless the limit was reached |
| LivePump.ReadVisibleAfterSeq | platform/home/view.go:128-161 | the page is the longest run within rows and bytes, never empty while a row remains, and the scanned position covers nothing that was cut |
| LivePump.LiveLane.Advance | drivers/gateway/cursor.go:38-42 | the cursor of one channel only moves forward |
| LivePump.LiveLane.Anchor | drivers/gateway/cursor.go:48-53 | anchoring sets one channel exactly, clamped at zero |
| LivePump.LiveLane.FeedRows | drivers/gateway/session.go:1173-1191 | rows are pushed in order up to the first that fails, and the cursor follows what was pushed |
| LivePump.LiveLane.PumpPage | drivers/gateway/session.go:1173-1207 | a round appends its feeds and then its checkpoint only if every row was pushed; other channels are untouched |
| LivePump.LiveLane.PumpChannel | drivers/gateway/session.go:1153-1208 | one round over a read of the ledger: frames pushed, cursor reached, and whether another round is due |
| LivePump.StepKeepsInv | drivers/gateway/session.go:1153-1208 | commits and rounds, failing or not, keep the rows pushed equal to the visible rows passed |
| LivePump.LiveFeedIsExact | drivers/gateway/session.go:1153-1208 | over any run of commits and rounds the rows pushed are exactly the visible rows between start and cursor, once and in order, and no checkpoint covers a row not pushed before it |
| LivePump.CleanRoundCatchesUp | drivers/gateway/session.go:1153-1208 | after any run, a round that pushed all it read has every visible row up to its scan pushed, and its checkpoint takes the cursor there and covers it from where the cursor was |
| Eligibility.Session.Reconcile | drivers/gateway/session.go:654-745 | one round takes every subscription to its specified successor |
| Eligibility.RunStands | drivers/gateway/session.go:654-758 | after any run of rounds, observations and refreshes between rounds, a subscription says exactly what the history of rounds says: the last success within its lease |
| Eligibility.PublishedVerdict | drivers/gateway/session.go:1133-1147 | the published ledger judges every channel as the history of rounds does |
| Eligibility.ForbiddenMeansConfirmedAbsent | drivers/gateway/session.go:1321-1347 | over every run, the published ledger forbids a business frame if and only if the last round succeeded as a whole and named the channel in neither list, and a delivered route was confirmed by a round whose lease has not run out |
| Eligibility.RunObserves | drivers/gateway/session.go:654-745 | over every run a channel's temporary subscription is exactly the observation its own events grant: begun only without a membership, ended on request, when a round or refresh no longer grants it, or by a membership; failures and leases never touch it |
| HistoryAdmission.CapacityNeverLeaks | drivers/gateway/session.go:821-892 | over every run, whatever refs are reused, running reads stay within the limits and one per channel, and when all have ended every counter is zero |
| HistoryAdmission.AcceptedIffRoom | drivers/gateway/session.go:821-838 | after every run a read is accepted if and only if fewer than four run, fewer than three of them in the background when it is one of those, and none on its channel |
| CallLedger.Table.List | lib/actorbase/ledger_call.go:434-445 | lists each in-flight request once and nothing else |
| CallRuns.EveryRunArbitrates | lib/actorbase/ledger_call.go:165-504 | over every interleaving: no send on a closed channel, no double close; a request is self-closed exactly once if a timeout or cancel came first and never otherwise; waits are told only what was decided; in flight means undecided |
| CallRuns.VerdictsAreFinal | lib/actorbase/ledger_call.go:241-419 | a decided request stays decided the same way |
| CallRuns.StepNeverStrands | lib/actorbase/ledger_call.go:241-303 | a row marked final has its envelope in the channel or in the hands of a wait about to delete it |
| CallRuns.GivingUpLosesNothing | lib/actorbase/ledger_call.go:280-303 | a wait that gives up empty-handed never leaves a lost final behind |
| CallRuns.EveryFinalReachesOneWait | lib/actorbase/ledger_call.go:455-504 | an accepted final reaches one wait and no other, or is still in its channel, when the log holds one terminal per request |
| CallRuns.EveryWaitIsWoken | lib/actorbase/ledger_call.go:455-504 | over every run a parked wait is told of a close and handed a final no wait has yet; it goes on waiting only for a request that is undecided or withdrawn, or whose final some wait has |
| CallRuns.SecondFinalIsDelivered | lib/actorbase/ledger_call.go:262-276 | were a second final to land between a wait's receive and its delete, a second wait would be answered too |
| ProgressQueue.DrainedInOrder | lib/actorbase/ledger_call.go:49-107 | over every interleaving exactly the progress pushed before the close comes out, once and in order, the drainer never sleeps on work, and it returns only after the close with everything handed over |
| WorkDeque.Deque.Push | lib/actorbase/workdeque.go:56-79 | push computes the specified queue and reports what it dropped |
| WorkDeque.Deque.Pop | lib/actorbase/workdeque.go:82-92 | pop takes the oldest item |
| WorkDeque.PushIsFifo | lib/actorbase/workdeque.go:56-79 | on requests a push is a FIFO append or a refusal that moves nothing; only the oldest event is ever evicted; capacity holds |
| WorkDeque.PushConserves | lib/actorbase/workdeque.go:56-79 | nothing but the dropped item disappears |
| WorkDeque.DequeRefinesFifo | lib/actorbase/workdeque.go:56-92 | over any run the requests out and queued are exactly those accepted, in order, events keep their order, and the length never exceeds the capacity |
| WorkWake.NoLostWakeup | lib/actorbase/workdeque.go:41-92 | over every interleaving of appends, coalesced signals and pops, a worker asleep with no signal posted or coming sleeps on an empty queue |
| WorkPump.ServeLedger.AdmitOnce | lib/actorbase/ledger_serve.go:71-89 | an open account is reported and left alone, a full table refuses, and otherwise one account opens |
| WorkPump.ServeLedger.Close | lib/actorbase/ledger_serve.go:140-154 | closing removes an account once |
| WorkPump.NoAccountIsOrphaned | lib/actorbase/engine.go:290-361 | over every run each open account is in the pump's hand, queued, or with the worker; the worker takes the seated requests in order; all bounds hold |
| WorkPump.DrainingOpensNothing | lib/actorbase/engine.go:290-337 | once draining, no account ever opens |
| WorkPump.RefusalClosesTheAccount | lib/actorbase/engine.go:343-361 | a seat is refused only to a queue full of requests, and the account closes before the pump takes anything else |
| WorkPump.NoRequestIsSwallowed | lib/actorbase/engine.go:290-350 | in every run a request that leaves the pump has its account open, is queued, or owes an overloaded terminal unless the reject lane is full, and is turned away only because the occupant left or a table or queue is full; an event is queued unless the queue is full of requests |
| WorkPump.RejectsInOrder | lib/actorbase/engine.go:343-350 | over every run overloaded terminals are written once each, in the order the requests were refused |
| WorkPump.DescribeNeverQueues | lib/actorbase/engine.go:290-337 | over every run an introspection request is answered on the pump and never waits for the worker |
| Outbound.DaemonOutbound.SetLane | platform/compute/outbound.go:277-310 | a new session disconnects every slot and hands back the streams to close |
| Outbound.DaemonOutbound.LaneDown | platform/compute/outbound.go:325-345 | only the exact current session is cleared |
| OutboundRuns.EveryRunConverges | platform/compute/outbound.go:277-494 | in every reachable state arms are disconnected or on the current session, one open per slot, and every stream is in exactly one place |
| OutboundRuns.ConvergeSettles | platform/compute/outbound.go:363-418 | after any run, a converge pass with body and session current and no retry pending changes nothing if and only if the slot is on the current session with a live stream or an open is in flight; otherwise it disconnects the slot, owes its stream a close and dials the current session unless an open is in flight |
| OutboundRuns.StaleIsCut | platform/compute/outbound.go:363-418 | a pass that finds body or session gone leaves the slot disconnected, its stream owed a close and nothing dialled; a sealed table, a closed slot and a pending retry are left alone |
| OutboundRuns.OpenLands | platform/compute/outbound.go:420-494 | after any run, an open whose session, body and slot stay current ends with its very stream installed, its mark returned and the slot settled |
| OutboundRuns.InstalledIff | platform/compute/outbound.go:420-494 | after every run a dialled stream is installed if and only if the table is unsealed, its slot registered and open, and its session and body current; otherwise it is owed a close and the slot is as it was |
| OutboundRuns.LateIsWithdrawn | platform/compute/outbound.go:470-480 | a stream whose session ended is withdrawn if it is still the one installed; another's is left alone |
| OutboundRuns.PreparedStays | platform/compute/outbound.go:234-275 | a slot prepared on an unsealed table is registered and open through every event but its own close |
| OutboundRuns.ClosedForGood | platform/compute/outbound.go:532-558 | closing a slot owes its stream a close, and the slot is never registered or connected again |
| OutboundRuns.LaneIsSet | platform/compute/outbound.go:277-345 | a lane set on an unsealed table stays the current session through every event but another lane or its own end |
| OutboundRuns.NoStreamLeaks | platform/compute/outbound.go:420-558 | at rest every stream ever opened is installed on the current session or closed |
| OutboundRuns.ClosedStaysDisconnected | platform/compute/outbound.go:532-558 | a closed slot stays disconnected forever |
| OutboundRuns.PublishKeepsInv | platform/compute/outbound.go:420-494 | installing a stream never displaces another |
| LaneAdmission.GenerationsOnlyIncrease | platform/compute/manager.go:517-692 | over every run admitted generations strictly increase per compartment and carrier, and installed and parked lanes carry the watermark |
| LaneAdmission.AdmittedIffNewest | platform/compute/manager.go:517-692 | after every run, a lane for a standing cell on the current carrier is admitted, and takes its slot, if and only if it is live, the cell is not condemned and its generation is newer than all the cell admitted on that carrier; otherwise the cell is as it was |
| LaneAdmission.LaneEndsExactly | platform/compute/manager.go:1101-1125 | after every run the end of a lane takes exactly that lane out of its cell and leaves the other slot, the watermark and the flags alone |
| LaneAdmission.CondemningEmpties | platform/compute/manager.go:1026-1050 | a condemned cell is empty and stays condemned and empty in every later state |
| LaneAdmission.OutOfOrderMeansForgotten | platform/compute/manager.go:517-692 | over every run, two admissions of one channel on one carrier are out of order only if the coordinate was forgotten between them |
| LaneAdmission.EmptyCoordinateAdmitsAny | platform/compute/manager.go:517-600 | after any run that leaves a coordinate empty and the carrier current, a live lane of any generation is admitted |
| LaneAdmission.ForgettingStartsOver | platform/compute/manager.go:1200-1213 | for every channel, carrier and pair of generations, a run that admits the first, closes the compartment, takes its lane, forgets the coordinate and admits the second |
| PlanPull.AnswerCompartmentPlan | platform/daemonhost/host.go:690-757 | the reply judges every enumerated channel from its query, and a failed enumeration sends nothing |
| PlanPull.ConvergeToPlan | platform/compute/manager.go:383-409 | exactly the cells not enumerated or judged unbound are condemned |
| PlanPull.ClosesOnlyUnderLicence | platform/compute/manager.go:344-409 | over every run of pulls, losses and timeouts a close begins only under a snapshot that licensed it |
| PlanPull.ConvergeIsExact | platform/compute/manager.go:383-409 | over every run, converging on a delivered reply orders closed exactly the cells whose channel its snapshot did not enumerate or judged unbound |
| PlanPull.SilenceClosesNothing | platform/daemonhost/host.go:690-712 | over every run, an answer to a carrier no longer current, or with a failed enumeration, never reaches the wire and never closes anything |
| PlanPull.LatePullIsInert | platform/compute/manager.go:306-376 | a pull given up on never condemns anything afterwards, whatever arrives under its nonce |
| PlanPull.CloseReaches | platform/compute/manager.go:696-760 | in any run, after the exactness check passed, the condemned cell is closed if and only if its coordinate was not forgotten before the second look; otherwise whoever was built there since is closed, or nobody |
| PlanPull.SuccessorCanBeClosed | platform/compute/manager.go:696-760 | for any channel and two cells, a run from the start that condemns the first and closes the second |
| RpcWaiters.OneAnswerEach | platform/daemonhost/lane.go:171-341 | over every interleaving a waiter's channel is sent on or closed at most once and never both, no send hits a closed or full channel, and a retired lane holds no waiter |
| RpcWaiters.RepliesAreClaimed | platform/daemonhost/lane.go:171-341 | over every interleaving a caller is handed a frame only if a reply with that frame claimed its own waiter |
| RpcWaiters.ClaimIsAnswered | platform/daemonhost/lane.go:171-341 | after any run, the claim of a registered waiter, sent and received, hands its caller that frame |
| RpcWaiters.RegistersIff | platform/daemonhost/lane.go:227-320 | after every run a round trip registers its waiter if and only if storage was attached and the lane never retired; otherwise its caller is told at once |
| RpcWaiters.NoWaiterLeaks | platform/daemonhost/lane.go:291-341 | over every run a registered waiter has its caller waiting, so one that gave up leaves nothing behind |
| RpcWaiters.RetiredStaysEmpty | platform/compute/manager.go:1442-1470 | after retirement no waiter is ever registered again |
| RpcWaiters.NoWaiterIsForgotten | platform/compute/manager.go:1640-1684 | the channel of every waiting caller is still registered, about to be sent on or closed, or already was |
| Membranes.FenceForgetsNothing | platform/daemonhost/host.go:380-463 | for every sequence of calls the fenced table installs what a table that forgets nothing installs, and row and fence exclude each other |
| Membranes.RetiredNeverReturns | platform/daemonhost/host.go:380-463 | an unregistered generation is never installed again |
| Membranes.GenerationNeverDrops | platform/daemonhost/host.go:380-463 | a channel's generation never decreases |
| Carriers.OneCarrierEach | platform/daemonhost/host.go:566-586 | over every run a daemon has at most one unsealed carrier, its current one |
| Carriers.AdmittedIff | platform/daemonhost/host.go:566-586 | after every run a carrier is admitted if and only if the host was never closed, its daemon never revoked, and no unsealed carrier of that daemon is left |
| Carriers.RevokedStaysOut | platform/daemonhost/host.go:1320-1345 | a revoked daemon is never admitted again |
| Carriers.NoTicketAfterSeal | platform/daemonhost/host.go:869-884 | a sealed carrier stays sealed and gets no further ticket |
| Carriers.TicketsAreThoseAsked | platform/daemonhost/host.go:869-884 | over every run a carrier has issued exactly the tickets asked of it while it stood unsealed |
| Carriers.RenewalIsARoundTrip | platform/daemonhost/host.go:361-378 | a lease moves only on a nonce sent since its last renewal |
| Carriers.PromptIsNeverReaped | platform/daemonhost/host.go:279-378 | a carrier that answers each probe before the next tick is never reaped, for any TTL |
| Carriers.SilentIsReaped | platform/daemonhost/host.go:279-313 | a lease that ran out over an unanswered probe is reaped |
| Carriers.ReapedIffOverdue | platform/daemonhost/host.go:279-378 | over every run a tick reaps a live carrier if and only if more than the TTL has passed since its admission or its last accepted reply and a probe is unanswered |
| Carriers.NewestProbesStay | platform/daemonhost/host.go:330-347 | a probe keeps exactly the newest nonces answerable: all there are, or as many as the TTL holds at one every ten seconds, never fewer than one |
| MemberHub.Ports.Attach | platform/channelmember/hub.go:75-107 | an invalid attachment and an occupied slot are rejected without change; otherwise a new generation is installed and the handle's watchers are told of it |
| MemberHub.Ports.Release | platform/channelmember/hub.go:108-134 | only the exact generation is cleared, an idle link goes with it, and watchers are told only when the handle left |
| MemberHub.Ports.Watch | platform/channelmember/hub.go:146-164 | a watcher is recorded and first told the binding of that moment |
| MemberHub.Ports.Unwatch | platform/channelmember/hub.go:165-178 | a watcher leaves, and an idle link with it |
| Manifest.OneOwnerEach | platform/channelmember/hub.go:75-135 | over every run each slot has at most one owner, the hub routes to exactly that owner, and no release evicts a successor |
| Manifest.WordsAreCurrent | platform/channelmember/manifest.go:21-58 | for any order of notices and any timing of describe calls, the answer shown, words or error, came from the newest generation seen, whose detach has not been seen |
| Manifest.SettledSeatIsExact | platform/channelmember/manifest.go:21-58 | with nothing in flight a watching seat reads what the attached handle itself answered, words or error, and unreachable when none is attached |
| Manifest.StepKeepsInv | platform/channelmember/hub.go:75-179 | attach, release, watch, delivery and describe keep ownership, notices and projection consistent |
| KeyOrder.JcsStringLess | platform/channelspec/operation.go:144-153 | the comparison loop decides UTF-16 code unit order |
| KeyOrder.LessIsStrictTotal | platform/channelspec/operation.go:144-153 | that order is a strict total order on strings |
| KeyOrder.SlicesSort | platform/channelspec/operation.go:136-142 | the in-place loops leave the insertion-sorted array |
| KeyOrder.OrderedUnique | platform/channelspec/operation.go:136-142 | an ordered arrangement of given elements is unique |
| KeyOrder.WalkOrderIsIrrelevant | platform/channelspec/operation.go:113-118 | two walks of one map sort to the same ordered keys |
| CanonicalString.PipelinePrintsPieces | platform/channelspec/operation.go:155-167 | encoding, replacing twice and trimming prints the string piece by piece |
| CanonicalString.StringTextDecides | platform/channelspec/operation.go:155-167 | string text determines the string, whatever follows it |
| CanonicalString.MatchesRfcIff | platform/channelspec/operation.go:163-164 | the text is that of RFC 8785 section 3.2.2.2 if and only if the string spells neither escape |
| CanonicalString.SpelledEscapeIsMangled | platform/channelspec/operation.go:163-164 | a string that spells an escape prints as a backslash and a raw separator |
| Canonical.AppendJsonString | platform/channelspec/operation.go:155-167 | a key or string value prints as its string text |
| Canonical.KeysInOrder | platform/channelspec/operation.go:113-118 | whatever order the map is walked in, the keys come out in property order |
| Canonical.AppendCanonical | platform/channelspec/operation.go:79-134 | the printer writes the one canonical text of the value, and fails exactly when some number is not finite |
| Canonical.CanonicalIff | platform/channelspec/operation.go:79-134 | equal canonical text if and only if equal values, objects as maps and numbers by what they parse to |
| JsonPrinter.TextReadsBackIff | platform/channelspec/operation.go:79-134 | for any way of writing strings and numbers, printed text reads back as the value with members ascending if and only if every string is written cleanly; otherwise it is not JSON |
| CanonicalReads.CanonicalReadsBackIff | platform/channelspec/operation.go:79-167 | a JSON reader reads the canonical text back as the value, members of every object in ascending UTF-16 order and numbers of equal value, if and only if no string or key spells an escape; otherwise it refuses the text |
| JsonSize.SamplesAccount | lib/boundedjson/project.go:201-212 | head, tail and omitted bytes account for the whole string, or the samples overlap and nothing is omitted |
| JsonSize.HeadFits | lib/boundedjson/project.go:311-320 | the head sample is the longest whole-character prefix within its bytes |
| JsonSize.TailFits | lib/boundedjson/project.go:322-331 | the tail sample is the longest whole-character suffix within its bytes |
| JsonSize.WeightAdds | lib/boundedjson/project.go:305-309 | adding a field to an object adds exactly its entry cost, in any key order |
| JsonEncoding.SizeCountsTheEncoding | lib/boundedjson/project.go:305-309 | the size of a decoded value is the number of UTF-8 bytes of its HTML-escaped encoding, and that encoding reads back as the value |
| BoundedJson.FitCutFits | lib/boundedjson/project.go:254-269 | a cut fits its budget if and only if the budget is at least 19 bytes |
| BoundedJson.StringIsBounded | lib/boundedjson/project.go:201-212 | a string summary is faithful and fits |
| BoundedJson.ScalarIsBounded | lib/boundedjson/project.go:237-244 | a scalar cut is faithful and fits |
| BoundedJson.ContainerIsBounded | lib/boundedjson/project.go:246-252 | a container cut is faithful and fits |
| BoundedJson.StringSampledIff | lib/boundedjson/project.go:201-212 | a string cut shows samples of both ends if and only if the budget is above 512 bytes and they fit |
| BoundedJson.ScalarSampledIff | lib/boundedjson/project.go:237-244 | a scalar cut shows samples of both ends if and only if the budget is above 512 bytes and they fit |
| Observation.FaithfulObserves | lib/boundedjson/project.go:159-288 | whatever faithful cut is shown, its fields tell the truth one by one: type, original bytes, items or keys, digest and samples are the value's own, and what is shown and what is counted omitted add up to the whole |
| EncodedBudget.ShownBytes | lib/boundedjson/project.go:63-81 | what is shown of a decoded value encodes to exactly the bytes its size counts and reads back as what is shown |
| BoundedJson.MarkerKey | lib/boundedjson/project.go:290-298 | the marker key search ends with a key no field uses |
| Shedding.ShowsIff | lib/boundedjson/project.go:171-199 | the field sets shedding may show are exactly those that fit, keep the empty key, cost no more than anything shed, and have no room for a shed field |
| Shedding.GivesUpIff | lib/boundedjson/project.go:180-193 | when shedding may give up, in both directions |
| Shedding.ShowsSomeIff | lib/boundedjson/project.go:180-193 | when shedding may succeed, in both directions |
| Shedding.OutcomeIsForcedIff | lib/boundedjson/project.go:180-193 | what is shown is fixed if and only if no field shed costs the same as a field kept |
| Shedding.OneOutcomeIff | lib/boundedjson/project.go:180-193 | the outcome does not depend on map order if and only if no field, at least as costly as the empty-key one, fits with the strictly cheaper fields but not with all that cost no more |
| Shedding.WholeTieIsForced | lib/boundedjson/project.go:180-193 | a tie met while shedding decides nothing when all of it has to go |
| Shedding.ShownCountIsForced | lib/boundedjson/project.go:180-193 | ties never change how many fields are shown, only which of equal cost |
| ObjectFit.FieldsAreLawful | lib/boundedjson/project.go:171-199 | encoded sizes obey the laws of shedding: a field's cost outweighs a longer count of omissions |
| ObjectFit.FitObject | lib/boundedjson/project.go:171-199 | the loop lands in one of the outcomes of shedding; what it returns fits, is faithful, and its marker counts the fields shown and left out, which add up to the object's, and names its size and digest |
| ObjectFit.GivesUpExactly | lib/boundedjson/project.go:180-193 | fitting may give up if and only if the fields no costlier than the empty-key one exceed the budget together; with no empty key, if and only if the marker alone does |
| ObjectFit.SucceedsExactly | lib/boundedjson/project.go:180-193 | fitting may succeed if and only if the empty-key field fits with the strictly cheaper ones; with no empty key, if and only if the marker alone fits |
| ObjectFit.ResultIsForcedIff | lib/boundedjson/project.go:180-193 | the outcome of fitting does not depend on map order if and only if no tie splits, a condition on the encoded sizes of the selection and the budget alone |
| ObjectFit.ShownFieldsAgree | lib/boundedjson/project.go:180-193 | two objects fitting may return show equally many fields and differ only in fields of equal cost |
| MarkerCost.MarkerEntry | lib/boundedjson/project.go:159-164 | with SHA-256 digests the marker's entry takes 146 bytes, its key and the digits of three counts |
| FieldChoice.RankingIsUnique | lib/boundedjson/project.go:102-138 | both entry orders are total, so ranking does not depend on the order the map was walked in |
| FieldChoice.AnyWalkRanks | lib/boundedjson/project.go:93-111 | any walk of the map sorts to the one ranking of its entries |
| FieldChoice.RankedThenBySize | lib/boundedjson/project.go:102-111 | entries are ranked by priority, and small before large within one |
| FieldChoice.SmallFactsAreGreedy | lib/boundedjson/project.go:112-124 | the entry at any rank is kept whole as a small fact if and only if it has at most 512 bytes and fits half the budget beside the small facts ranked before it |
| FieldChoice.LargeFactsAreLargest | lib/boundedjson/project.go:125-138 | the large facts are entries that are not small facts, in order of size, eight or all of them, and none passed over is larger |
| FieldChoice.ShareIsEqual | lib/boundedjson/project.go:139-150 | a large fact's share is the most that each of those to come could have beside its key, and at least 64 bytes |
| ProjectionResults.ChosenHolds | lib/boundedjson/project.go:112-157 | whatever fields are chosen, in any run, hold every small fact unchanged, are fields of the object, and leave the marker's reserve within the budget |
| ProjectionResults.SmallFactsSurvive | lib/boundedjson/project.go:89-169 | while the marker stays within its reserve nothing is shed and every small fact is shown as it is |
| ProjectionResults.ResultIsBounded | lib/boundedjson/project.go:63-235 | every result a value too large for its budget may have is faithful, fits if and only if the budget is at least 19 bytes, and is the bare cut only if the typed one does not fit |
| OneResult.ResultIsUnique | lib/boundedjson/project.go:29-30 | a value has one result, through the whole recursion, where no tie splits in an object visited |
| OneResult.ObjectHasOneResultIff | lib/boundedjson/project.go:89-169 | an object whose large fields are settled has one result if and only if no tie splits the fields chosen |
| OneResult.OrdinaryHasOneResult | lib/boundedjson/project.go:29-30 | a value below a megabyte none of whose objects uses the marker's key or has a thousand fields has one result within every budget and under every priority |
| ProjectionInputs.TwinsHaveTwoResults | lib/boundedjson/project.go:89-199 | for any SHA-256 digests, any two plain texts of 88 characters and any plain key of 200, an object of 546 bytes, the fields chosen of it within 512, and two different results |
| ProjectionInputs.UnnamedIsNeverShed | lib/boundedjson/project.go:89-199 | for any SHA-256 digests and any plain texts of 91 and 87 characters, an object of 546 bytes whose only result within 512 is the container cut although the fields chosen without the empty-key one fit |
| BoundedProjection.SelectSmall | lib/boundedjson/project.go:113-124 | small entries are taken greedily in rank order within half the budget, and the used counter is their exact weight |
| BoundedProjection.AddLarge | lib/boundedjson/project.go:139-157 | in order of size, each of the large entries is summarized within its equal share, and kept unless its summary exceeds the room or 64 bytes or fewer are left |
| BoundedProjection.SelectFields | lib/boundedjson/project.go:89-157 | the fields are chosen as ranking, small facts and equal shares prescribe; they are faithful, hold every small fact unchanged, and leave the marker's reserve within the budget |
| BoundedProjection.SummarizeArray | lib/boundedjson/project.go:214-235 | an array is shown by results of its first and last items in place with the rest counted, drops them only if they do not fit, and fits |
| BoundedProjection.ProjectObject | lib/boundedjson/project.go:89-169 | below 512 bytes the container cut; above, what shedding leaves of the fields chosen, or the container cut where shedding gave up; it fits and is faithful |
| BoundedProjection.ProjectValue | lib/boundedjson/project.go:63-81 | a value within budget is returned as is; any other becomes one of its possible results, is faithful, tells the truth in every field of its markers, and fits if and only if the budget is at least 19 bytes |
| BoundedProjection.MinimalProjection | lib/boundedjson/project.go:271-288 | the fallback fails exactly below 19 bytes |
| BoundedProjection.Project | lib/boundedjson/project.go:32-61 | the exact conditions of each error and of the verbatim result; every projection fits, is faithful and is a possible result, its encoding has at most the budget's bytes, and its markers' counts add up; JSON fails only below 19 bytes when neither the text nor its re-encoding fits |

## Left out

- Clocks, timers and their durations: a timeout may fire at any moment; times in leases and probes are parameters.
- Negative and oversized page limits: a read asks for its fixed batch size.
- Digests and number formatting: hashes are arbitrary functions, number texts an injective printer of finite values, which reading back (CanonicalReads.CanonicalReadsBackIff) takes to be JSON numbers that parse to what was printed.
- Strings that are not valid UTF-8: values come from a decoder that only produces valid strings, so the printer's own check never fires.
- Marshal errors in bounded JSON: a decoded value always encodes.
- White space in JSON text: the reader the printers are held against takes none, since neither printer writes any.
- Superseded provisionals: each window is projected alone, so which of them are shown depends on where pages end; only the newest answer of an open request is followed across pages.
- Wire order of held observations: a direct publish may overtake a held value, and observations are not modelled.
- A second concurrent wait after a final is consumed: only safety is stated, since the channel is not closed.
- Requests redelivered while an older copy is queued: at-most-once invocation of handlers is not claimed.
- Leaked and condemned compartments coming back to service: reclamation after a failed build is not modelled.
- Unwatching by the observed seat itself: the manifest theorems follow a seat that keeps watching.
- Descriptions, catalogs, transports, storage engines, processes and the command line: plumbing and data with no hard property.
- OutboundRuns.EveryRunConverges: lets whole sections interleave; the withdrawal after a publish is a lock-free compare-and-swap in the source and could land between the load and the store of a converging section, so that a stream is in one place only is stated at the granularity of sections.
- CallRuns.EveryFinalReachesOneWait: assumes the log's rule of one terminal per request, as the source does; SecondFinalIsDelivered shows the code relies on it.
- HistoryChain.DeliveredExactlyOnce: stated on ledgers every row of which can be carried, because the code stops at any other; HistoryLoss gives the law for all ledgers.
