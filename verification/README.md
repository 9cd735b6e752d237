# A verified model of the webhook dispatcher, the message lifecycle and the live engine

The repository is an emulator of a messaging provider. A business backend (Comdove) posts messages to it and receives
signed webhooks; people type in browser tabs that each show one group of customers; an admin page shows what happens.
This project models the parts where order, concurrency and agreement between copies matter, and proves what they keep
over every run.

**The dispatcher** (`Dispatcher.dfy`) is a state machine with one step per event-loop callback: enqueue, a timer fires,
an answer arrives, the `finally` block runs, `cancelAll`, reset, restart, `idle()`. A suspended run is data: its
generation, its conversation, its job and what it waits for. The slot, store, record, trace and order invariants have
one file each (`DispatcherSlots`, `DispatcherStore`, `DispatcherPushed`, `DispatcherBlocks` and `DispatcherLedger`,
`DispatcherOrder`), and `DispatcherRuns` states what follows for all runs; `DispatcherAttempts` proves the attempt rows complete,
`DispatcherHeard` what the change listener hears, `DispatcherDrain` and `DispatcherBypass` termination and fairness.
`cancelAll` leaves deleting the rows to its caller: most results hold for every run, with the rows kept or deleted;
agreement of memory and rows and the order by job id hold where whoever cancels deletes them.
`WebhookDispatcher.dfy` and `JobStore.dfy` are the objects with their mutable maps and loops, each method proved against
the state machine.

**The lifecycle** (`Lifecycle.dfy`) describes each call by its effect: the new store, the webhooks it asks for, the events
it announces, the error it throws half way. `Conservation` proves messages and webhooks match, `MessageFields` what
each call stores and marks, field by field, `Payloads` that a webhook tells what its message tells, `EndToEnd` composes the
lifecycle with the dispatcher, `Observed` states what Comdove sees over the whole trace of a run, resets included, `Timing`
bounds when anything is sent, and `LifecycleService` is the object over a registry and a dispatcher.

**The live engine** (`Live.dfy`) is the composed step relation of sessions, lock, index, delivery, bus, admin feed and
tile actions. A tab and an admin page are mirrors that know only the frames they were sent. `LiveNet`, `LiveFeed`,
`LiveLog`, `LiveLogged`, `LiveQueue`, `LiveTabs`, `LiveMirror`, `LiveTabSteps` and `LiveHidden` prove one invariant each,
`LiveRuns` states the results for all runs. `LiveGuards` says what deliveries and frames may touch, `LiveRequests` what
requests from outside do to the tables, `AdminPage` what the lists tell, item by item, and `LiveIsolation` who sees what.
`LiveEngine.dfy` is the object, and `Server` shows that every callback of the live engine makes only lifecycle calls that
keep the books and that the dispatcher's reports reach the admin log, so the end-to-end results hold for the whole server
across restarts.

**Queries and a tool**: the newest-first admin log (`AdminLog`), the snapshot of a tile (`StoreGroups`), its unread badges
(`Badges`, `BadgeRuns`), and the canonical form of recorded fixtures (`Fixtures`, `CanonicalForm`, `FixedPoint`).

Seven things the code does not guarantee are stated with the exact condition and a concrete case each:

- `delivered` writes the timestamp before it can throw for a business that was deleted; the message is then delivered
  without its webhook (`Conservation.DeliveredConserves`, `Conservation.DeletedBusinessLosesWebhook`).
- A `cancelAll` that keeps the rows lets the cancelled jobs come back after a restart, behind newer ones
  (`DispatcherRuns.CancelNeedsDeletedRows`, `DispatcherRuns.CancelKeepsAgreement`; `CancelRun.KeptRowsBreakOrder` gives
  such a run).
- A response that finishes late can put an old status back into a tab that was re-claimed meanwhile
  (`LiveMirror.FinishedTabs`; `LateRun.LateCopyRun` gives such a run).
- A claim handled after its session closed leaves the group locked (`Sessions.ClaimAgrees`, `Sessions.LateClaimLeaksLock`).
- The unread badge of a business splits when its number is registered again under another display number
  (`Badges.UnreadBadges`; `BadgeRuns.SplitBadge` gives such a run).
- A status webhook names the wrong phone number id when the id of its message is the display number of a business
  registered earlier (`Payloads.NamesItsBusiness`; `Payloads.StatusNamesOther` gives such a run).
- Stabilising fixtures twice can differ when the numbering outgrows its padding (`FixedPoint.Idempotent`,
  `FixedPoint.MillionTracesUnstable`).

`dafny verify dfyconfig.toml` checks the project.

## Model

| member | source | states |
|---|---|---|
| DispatcherRuns.SlotInvariant | src/webhooks/dispatcher.ts:145-181 | in every run, cancelled rows kept or deleted, a conversation has work exactly when it runs or waits, never both; the cap holds; a slot is free only when nobody waits; nobody waits twice |
| DispatcherSlots.FinallyStructured | src/webhooks/dispatcher.ts:162-173 | the finally block of a current run, with its slot-filling loop, restores the slot invariant, and all it does besides freeing the slot is start head jobs |
| DispatcherSlots.FillInOrder | src/webhooks/dispatcher.ts:167-171 | freed slots go to waiting conversations from the front of the line, in order, and to nobody else |
| DispatcherSlots.StepStructured | src/webhooks/dispatcher.ts:145-215 | every callback keeps slots, runs and idle waiters consistent, including runs that a reset left behind |
| DispatcherBlocks.ScanIsServed | src/webhooks/dispatcher.ts:128-143 | a trace accepted attempt by attempt is a concatenation of blocks, one per job in queue order, each a legal retry sequence |
| DispatcherRuns.AttemptsInBlocks | src/webhooks/dispatcher.ts:106-143 | in every run each generation's trace of a conversation is such a concatenation: at most one attempt more than there are delays, each after its pause, all but the last in vain, the last a 200 or the last retry |
| DispatcherRuns.DeliveryOrder | src/webhooks/dispatcher.ts:128-181 | in every run in which cancelled rows are deleted, through retries, resets and restarts, attempts of a conversation start in id order, each after every earlier job is done, none after its job is done, and a finished row tells how and when the answer that ended it came |
| DispatcherRuns.CrashSafety | src/webhooks/dispatcher.ts:183-208 | in every such run a crash at any step followed by resume rebuilds each queue as its unfinished part in order, due at once and otherwise unchanged: no job lost, none revived |
| DispatcherStore.StepStoreOk | src/webhooks/dispatcher.ts:183-208 | every callback but a cancelAll that keeps the rows leaves each in-memory queue equal to the unfinished rows of its conversation in id order |
| DispatcherRuns.CancelNeedsDeletedRows | src/webhooks/dispatcher.ts:197-208 | cancelled jobs come back after a restart exactly when some row was unfinished; with the rows deleted in the same callback nothing comes back |
| DispatcherRuns.CancelKeepsAgreement | src/webhooks/dispatcher.ts:197-204 | a cancelAll that keeps the rows leaves memory and rows in agreement exactly when no row was unfinished |
| CancelRun.KeptRowsBreakOrder | src/webhooks/dispatcher.ts:197-208 | a run in which cancelled rows are kept across a restart, and an older job is then attempted behind a newer one |
| DispatcherRuns.GenerationIsolation | src/webhooks/dispatcher.ts:155-165 | in every run a step of a run that cancelAll left behind changes no queue, slot, waiting line or run of the current generation and starts no attempt; the one row it may change is its own, which is no row of a job queued since, and where that row is gone no row changes |
| DispatcherRuns.ResetRunsHaveNoRow | src/webhooks/job-store.ts:48-54 | where cancelled rows are deleted, no run left behind has a row, and none gets one again |
| DispatcherPushed.StepApart | src/webhooks/job-store.ts:50-54 | after every callback no job queued in the current generation is the job of an older run: ids are never reused |
| DispatcherRuns.NoOldAttempts | src/webhooks/dispatcher.ts:54-68 | over any run, from any point on no attempt of an older generation starts |
| DispatcherRuns.NothingEarly | src/webhooks/dispatcher.ts:128-140 | an attempt starts no earlier than the notBefore of its job and of every job queued before it |
| DispatcherRuns.IdleIsIdle | src/webhooks/dispatcher.ts:98-104 | idle waiters are answered exactly when nothing is queued or running: all of them then, none before, each once |
| DispatcherRuns.FiresWhenDue | src/webhooks/dispatcher.ts:54-68 | in every run a sleeping run of the current generation can go on exactly from the notBefore of its job, or from the end of the pause after the attempts the trace shows, onwards; one that was cancelled at once |
| DispatcherAttempts.AnswerIsRecorded | src/webhooks/dispatcher.ts:106-143 | an answer leaves exactly one attempt row with its number and time, the status or else the error of the reply, and ends its own row on a 200 or the last attempt; only a failed request of a cancelled run leaves none |
| DispatcherAttempts.AttemptsMatchTrace | src/webhooks/dispatcher.ts:106-126 | in every run, resets, cancels and restarts included, the attempt rows of each webhook that has a row are in order exactly the answers to its attempts, with an error exactly where there was no status |
| DispatcherDrain.InternalStepLowers | src/webhooks/dispatcher.ts:128-174 | every timer, answer or finally lowers the bound on the work left |
| DispatcherDrain.DrainIsBounded | src/webhooks/dispatcher.ts:128-174 | without new requests a run of the dispatcher is no longer than that bound |
| DispatcherDrain.DrainCompletes | src/webhooks/dispatcher.ts:128-215 | a dispatcher with a suspended run can always go on; one without has no queue, slot or idle waiter left, and every job of the current generation has had its complete block of attempts |
| DispatcherDrain.DrainEnds | src/webhooks/dispatcher.ts:128-215 | from every reachable state, left alone, a run within the bound exists that gets everything done |
| DispatcherDrain.DrainedRows | src/webhooks/dispatcher.ts:128-143 | where cancelled rows are deleted, every row has then ended ok or failed |
| DispatcherBypass.BoundedBypass | src/webhooks/dispatcher.ts:145-174 | while a conversation waits, only conversations that ran or stood ahead of it when it was at that place start attempts |
| WebhookDispatcher.WebhookDispatcher.Pump | src/webhooks/dispatcher.ts:145-158 | the object's pump does what the state machine says |
| WebhookDispatcher.WebhookDispatcher.Enqueue | src/webhooks/dispatcher.ts:184-195 | inserts the row, queues the job, pumps; the new state and the job are those of the state machine |
| WebhookDispatcher.WebhookDispatcher.Fire | src/webhooks/dispatcher.ts:54-68 | a sleep ends: next attempt, or the end of an aborted run |
| WebhookDispatcher.WebhookDispatcher.Respond | src/webhooks/dispatcher.ts:106-143 | an answer is recorded, the row finished or the next pause begun, with the branches of an aborted run, and the listener is told what the state machine says |
| WebhookDispatcher.WebhookDispatcher.Changed | src/webhooks/dispatcher.ts:93-96 | tells the listener about a job exactly if it still has a row |
| WebhookDispatcher.WebhookDispatcher.Finally | src/webhooks/dispatcher.ts:162-173 | frees the slot in the captured maps, shifts, pumps, fills slots |
| WebhookDispatcher.WebhookDispatcher.FillSlots | src/webhooks/dispatcher.ts:167-171 | the while loop over the waiting line |
| WebhookDispatcher.WebhookDispatcher.CancelAll | src/webhooks/dispatcher.ts:197-204 | swaps in empty maps and leaves the old ones to their runs |
| WebhookDispatcher.WebhookDispatcher.Resume | src/webhooks/dispatcher.ts:206-208 | queues the unfinished rows in id order, eligible at once |
| WebhookDispatcher.WebhookDispatcher.Idle | src/webhooks/dispatcher.ts:210-215 | registers the waiter and answers at once if idle |
| JobStore.MemoryJobStore.Insert | src/webhooks/job-store.ts:50-54 | the new id is above every id handed out before, even by deleted rows |
| JobStore.MemoryJobStore.Finish | src/webhooks/job-store.ts:65-68 | exactly the row with that id changes |
| JobStore.MemoryJobStore.PendingJobs | src/webhooks/job-store.ts:70-72 | the unfinished rows, in insertion order |
| JobStore.PendingOfFinished | src/webhooks/job-store.ts:65-72 | finishing a job takes it out of its conversation's unfinished list and touches no other |
| Registry.StoredOk | src/dev/memory-registry.ts:45-72 | a stored message gets the next number of its conversation; numbers stay 1, 2, 3, ... and conversations stay apart |
| Registry.QueuedForIs | src/core/messages.ts:133-141 | queuedFor returns exactly the undelivered outbound messages of a customer, once each, by conversation and number |
| Registry.UnreadDeliveredIs | src/dev/memory-registry.ts:87-99 | unreadDelivered returns exactly the delivered, unread outbound messages of one chat, once each, by number |
| Conservation.AcceptedConserves | src/core/lifecycle.ts:72-86 | accept keeps messages and webhooks matched exactly when the business is registered |
| Conservation.DeliveredConserves | src/core/lifecycle.ts:88-101 | delivered keeps them matched exactly when no message is given twice and every business concerned is registered |
| Conservation.DeletedBusinessLosesWebhook | src/core/lifecycle.ts:96-100 | a concrete store in which delivered throws after writing the time, and no webhook says so |
| Conservation.ReadConserves | src/core/lifecycle.ts:103-113 | read keeps them matched and throws only for an unknown peer |
| Conservation.InboundConserves | src/core/lifecycle.ts:115-140 | an inbound message gets exactly its one webhook, a refused one changes nothing |
| Conservation.MarkInboundReadConserves | src/core/lifecycle.ts:142-148 | marking a customer's message read asks for no webhook and owes none |
| EndToEnd.CallInv | src/core/lifecycle.ts:71-149 | every lifecycle call, reset and dispatcher callback, in any order, keeps the dispatcher invariant and the books |
| EndToEnd.MessagesMatchWebhooks | src/core/lifecycle.ts:71-149 | since the last reset each message has exactly its due webhooks, one sent, one delivered iff delivered, one read iff read, one inbound; read implies delivered implies sent; no other webhook exists |
| EndToEnd.NumbersHaveNoGap | src/dev/memory-registry.ts:45-72 | in every run the messages of a conversation are numbered 1 up to its next number without a gap |
| EndToEnd.WrittenOnce | src/core/lifecycle.ts:88-148 | a recorded time never changes, nor does anything else about a stored message, and a new time is that of the call, which is one that records it |
| MessageFields.MarksExactly | src/core/lifecycle.ts:88-148 | which stored messages a call marks delivered or read, and when: exactly the outbound ones given and not delivered yet, exactly the delivered and unread ones of the chat, exactly the one inbound message of that business |
| MessageFields.AcceptStores | src/core/lifecycle.ts:72-82 | a send adds exactly one message with its body, recipient, time and the name of its business, and changes no number |
| MessageFields.ReceiveStores | src/core/lifecycle.ts:115-131 | an inbound message is stored as sent, to the business found, or refused for an unknown sender, an unknown business or a body that is empty or longer than 4096, and then nothing at all changes |
| MessageFields.BusinessFound | src/dev/memory-registry.ts:37-39 | a lookup finds exactly the first business with that id or display number |
| MessageFields.WipeStores | src/api/system.route.ts:15-23 | a reset deletes messages, conversations, webhooks and attempts, and keeps the numbers exactly if asked |
| MessageFields.PartiesInRuns | src/dev/memory-registry.ts:45-72 | in every run a stored message is from or to its customer, an outbound one sent when it was made, an inbound one 1 to 4096 characters long |
| Payloads.PayloadsMatchMessages | src/core/lifecycle.ts:55-64 | in every run the payload of each webhook row tells what the stored message with its wamid tells: the customer, the text, time and business of an inbound message, or the sent, delivered or read time of the message itself |
| Payloads.NamesItsBusiness | src/core/lifecycle.ts:49-64 | a status webhook names the first business registered under the phone number id of its message, so it names that id exactly if this business has it; an inbound one always does |
| Payloads.PayloadsNamePhone | src/core/lifecycle.ts:55-64 | in every run in which no display number is an id that messages are sent by, each webhook names the phone number id of its message |
| Payloads.StatusNamesOther | src/core/lifecycle.ts:49-56 | a run in which the display number of one business is the id of another, and a sent webhook names the wrong one |
| Observed.SentDeliveredRead | src/core/lifecycle.ts:72-113 | over the whole trace of every run, resets included, no attempt of a delivered webhook starts before the sent webhook is done, none of read before delivered is done |
| Observed.FirstsInMessageOrder | src/webhooks/dispatcher.ts:128-181 | over the whole trace of every run, resets included, the sent and inbound webhooks of a conversation reach Comdove in the order of its messages |
| Observed.PlacesAreNumbers | src/dev/memory-registry.ts:45-72 | the places this order speaks of are the conversations and numbers of the stored messages |
| Timing.NothingBeforeDelay | src/core/lifecycle.ts:83 | without a restart no webhook of an outbound message, and nothing queued behind it, is attempted before accept time plus the configured delay |
| Timing.OnlySentIsHeld | src/core/lifecycle.ts:83 | without a restart exactly the sent webhooks are held back, until accept time plus the configured delay; every other webhook is due at once |
| LifecycleService.MemoryRegistry.StoreMessage | src/dev/memory-registry.ts:45-72 | the object stores the message, numbers it and opens a conversation if there is none |
| LifecycleService.MemoryRegistry.SetDelivered | src/dev/memory-registry.ts:79-81 | the loop that writes delivered times that are not set yet |
| LifecycleService.MemoryRegistry.SetRead | src/dev/memory-registry.ts:83-85 | the loop that writes read times that are not set yet |
| LifecycleService.MemoryRegistry.UnreadDelivered | src/dev/memory-registry.ts:87-99 | exactly the unread messages of the chat, in order |
| LifecycleService.LifecycleService.Accept | src/core/lifecycle.ts:72-86 | the object's effect on store, dispatcher and bus, and its error, are those of the specification |
| LifecycleService.LifecycleService.QueueStatuses | src/core/lifecycle.ts:97-100 | the loop that queues and announces, up to the first message whose business is gone |
| LifecycleService.LifecycleService.Delivered | src/core/lifecycle.ts:88-101 | as Accept, for delivered, with its filter loop |
| LifecycleService.LifecycleService.Read | src/core/lifecycle.ts:103-113 | as Accept, for read |
| LifecycleService.LifecycleService.Inbound | src/core/lifecycle.ts:115-140 | as Accept, for inbound, with its three refusals |
| LifecycleService.LifecycleService.MarkInboundRead | src/core/lifecycle.ts:142-148 | as Accept, for a customer's message marked read |
| StoreGroups.HistoryAndQueuePartition | src/ws/store-groups.ts:9-12 | before truncation the history shown and the queue partition the customer's messages, and the history is oldest first |
| StoreGroups.SnapshotShowsNewest | src/ws/store-groups.ts:19-22 | the history sent is the newest suffix of at most 50, and nothing left out is newer than anything shown |
| StoreGroups.TallyUnread | src/ws/store-groups.ts:13-18 | the counting loop fills the record with exactly the positive counts |
| Badges.UnreadBadges | src/ws/store-groups.ts:13-18 | the badge of a name equals the number of delivered, unread messages of a phone number id exactly when as many unread messages have that name under another id as have that id under another name; counted over the whole history even when the snapshot is cut |
| Badges.PairedBadges | src/ws/store-groups.ts:19-21 | where names and ids pair up, every badge is right |
| BadgeRuns.BadgesInRuns | src/core/registry.ts:66-90 | every run in which no number changes its pairing keeps them paired, so every badge is right |
| BadgeRuns.SplitBadge | src/core/registry.ts:107-120 | a run in which a number is registered again under another display number: two messages of one business unread, its badge shows one |
| Badges.ReadClearsOneBadge | src/core/lifecycle.ts:103-113 | opening a chat leaves on each badge of the tile exactly the unread messages that other phone number ids sent under that name, and no other customer's badges change |
| Badges.PairedRead | src/core/lifecycle.ts:103-113 | where names and ids pair up it clears that badge and no other |
| Badges.DeliveredRaisesBadges | src/core/lifecycle.ts:88-101 | delivering raises each badge by the newly delivered messages to that customer under that name |
| Sessions.ClaimAgrees | src/ws/session.ts:108-119 | a claim keeps lock, index and roles in agreement exactly unless a closed session takes a free group |
| Sessions.LateClaimLeaksLock | src/ws/session.ts:72-96 | a concrete run in which a claim after close leaves the lock held for good |
| Sessions.GoneAgrees | src/ws/session.ts:87-101 | close and disconnect give up exactly this session's group |
| Sessions.OneHolder | src/ws/lock.ts:22-38 | at most one open session holds a group, and lock and index know the same groups |
| Sessions.HolderAgreement | src/ws/session-index.ts:14-26 | over every run from boot a session owns the lock iff the index names it iff it is open with that role |
| Sessions.SilentIsDropped | src/ws/server.ts:60-78 | a client that sends no pong between two heartbeats, whatever else happens meanwhile, is ended by the second, and once its close event arrives it holds nothing |
| Sessions.PongingKeepsAlive | src/ws/server.ts:38-78 | a client that answers between any two heartbeats is never dropped |
| Sessions.NewClientStays | src/ws/server.ts:36-78 | a client that connects and answers between any two heartbeats stays open, and has no role until it asks for one |
| Sessions.LockTable.Claim | src/ws/lock.ts:23-30 | granted iff free, and a refusal tells the holder's time |
| Sessions.LockTable.Release | src/ws/lock.ts:32-38 | only the owner releases |
| Sessions.SessionIndex.Remove | src/ws/session-index.ts:20-22 | removes the entry only if it names this session |
| Sessions.SessionObject.Claim | src/ws/session.ts:108-119 | role, lock and index change together or not at all |
| Sessions.SessionObject.Close | src/ws/session.ts:87-96 | gives lock and index back once, however often it is called |
| Sessions.WsServer.Heartbeat | src/ws/server.ts:69-78 | the loop over the clients terminates the silent and pings the others |
| LiveNet.StepNetOk | src/live.ts:105-136 | every callback of the composed engine keeps lock, index, roles and admin set in agreement, and only existing groups are held |
| LiveNet.StepIsNet | src/live.ts:105-130 | every callback of the composed engine changes sessions, lock and index by a sequence of session steps and nothing else |
| LiveNet.WipeFreesAll | src/live.ts:105-115 | a reset that wipes the numbers leaves the lock table and the index empty |
| LiveFeed.LockChangedFeeds | src/ws/admin-feed.ts:83-86 | broadcasting both lists makes every admin page right whatever it showed before |
| LiveFeed.StepFeedsOk | src/live.ts:82-130 | after every callback each admin page shows the lists that store and lock give |
| LiveLog.EntryThenUpdates | src/ws/admin-feed.ts:68-79 | between two resets a log frame about a message is an update iff the message already had its entry; entries of refused requests stand apart |
| LiveLogged.ChangesAreLogged | src/core/lifecycle.ts:66-69 | what a callback adds to the log feed, exactly: one frame for each message new or changed while an admin listens, none about any other message, nothing when nobody listens; a reset or a refusal is one frame of its own |
| LiveQueue.ClaimStoreOk | src/core/delivery.ts:73-82 | a claim marks everything that waits for the group's online tiles |
| LiveQueue.FlushHeals | src/core/delivery.ts:84-93 | a tile that comes online gets its queue, and nothing of it stays behind |
| LiveQueue.StepStoreOk | src/ws/group-events.ts:43-51 | after every callback an undelivered message to an online tile is one whose response has not finished |
| LiveMirror.FinishedTabs | src/core/delivery.ts:63-71 | a finished response keeps the tabs right exactly unless it is a late copy, not yet on record, of a message the re-claimed tab left out |
| LiveTabSteps.SnapshotMirrors | src/ws/store-groups.ts:37-49 | a fresh snapshot shows the stored status of every message it contains, and misses only what was cut |
| LiveTabSteps.StepTabsOk | src/core/bus.ts:26-45 | every callback, late copies included, keeps every open tab a mirror of the store, up to the bubbles on record as put back by late copies |
| LiveHidden.LeftOutHidden | src/ws/store-groups.ts:19-22 | what a snapshot leaves out is delivered, and at least fifty other messages of its tile are not older |
| LiveHidden.StepHiddenOk | src/ws/store-groups.ts:19-22 | every callback keeps that true of everything the last snapshots left out |
| LiveRuns.TabMirror | src/core/bus.ts:26-45 | in every run a tab shows the status the store has, or sent for a delivered message that a late copy put back since the last snapshot; what it does not show is undelivered, or was cut from that snapshot and has at least fifty not older ones |
| LiveRuns.ExactMirror | src/core/bus.ts:26-45 | in every run without late copies each bubble shows exactly the stored status |
| LiveRuns.WaitingStaysShown | src/ws/store-groups.ts:9-12 | a message nobody had delivered at some time since the last snapshot is never hidden by it, whatever happens later |
| AdminPage.AdminMirror | src/ws/admin-feed.ts:43-62 | in every run an admin page shows each stored customer with its number, group, switch and mode, locked iff some session holds the group, effective iff also switched on; each group with how many customers it has and the time of the claim that holds it; and the stored businesses |
| AdminPage.LockedSinceClaim | src/ws/lock.ts:22-42 | in every run the time of a held group is that of the claim since which its session holds it without a break |
| LiveIsolation.TabsShowOwnGroup | src/core/bus.ts:20-44 | in every run a session that is not over shows a stored message only if it holds the group of the message's customer |
| LiveIsolation.ListsGoToAdmins | src/ws/admin-feed.ts:39-62 | in every run the lists of groups and numbers go to admin pages and to nobody else |
| LiveGuards.NoStrandedQueue | src/core/delivery.ts:63-93 | in every run nothing waits for a customer who is switched on and whose group some session holds, except what its finishing response hands over |
| LiveGuards.DeliveredIsShown | src/core/delivery.ts:38-71 | in every run, whatever callback marks a message delivered, the customer's own switch is then on and some session holds the customer's group |
| LiveGuards.FinishedDelivers | src/core/delivery.ts:63-71 | a finishing response delivers its waiting message exactly if the customer is switched on and the group held |
| LiveGuards.AutoReplyIsShown | src/core/delivery.ts:46-58 | an auto-reply is stored, as given, exactly if its customer is switched on and shown and the message fits; otherwise nothing changes |
| LiveGuards.ClaimDelivers | src/ws/session.ts:108-119 | a claim is granted exactly to a session without a role for an existing group nobody holds; then the session holds it and nothing waits for its switched-on tiles, otherwise store and holders are unchanged |
| LiveGuards.SwitchOnDelivers | src/ws/group-events.ts:43-51 | switching on a customer whose group is held leaves nothing waiting for it |
| LiveGuards.TabSendsForOwn | src/ws/group-events.ts:72-79 | a message frame stores exactly one message, in the name of the customer it gives, exactly if the session holds that customer's group, the customer is switched on, the business known and the body fit; otherwise the store is unchanged |
| LiveGuards.TabReadsOwn | src/ws/group-events.ts:80-86 | opening a chat marks exactly its delivered, unread messages, and only for a switched-on customer of the group the session holds |
| LiveGuards.TabSwitchesOwn | src/ws/group-events.ts:87-91 | a presence frame moves the switch of one customer of the group the session holds, and changes no message but those it delivers to that customer |
| LiveGuards.TabModesOwn | src/ws/group-events.ts:92-98 | an auto-reply frame sets the mode of one customer of the group the session holds, and changes nothing else |
| LiveRequests.SendStores | src/meta/messages.route.ts:65-68 | a send is stored as made, and a copy of the new message waits for its response to finish |
| LiveRequests.ReadMarksOne | src/meta/messages.route.ts:59-63 | a read request marks exactly the one inbound message of that business, once |
| LiveRequests.InjectStores | src/api/traffic.route.ts:36-53 | an injected message is stored as given, whether or not its tile is shown; an unfit one changes nothing |
| LiveRequests.SwitchIsSet | src/api/traffic.route.ts:15-32 | the control API moves the switch of exactly one customer, whoever shows it, and changes no message but those it delivers to that customer |
| LiveRequests.ModeIsSet | src/api/autoreply.route.ts:17-35 | the control API sets the reply mode of exactly one customer and changes nothing else |
| LiveRequests.BusinessesAre | src/core/registry.ts:66-97 | registering or deleting businesses changes no customer, message, group or holder |
| LiveRequests.GroupIsCreated | src/core/registry.ts:146-158 | a new group comes with one customer per number, switched on and answered by hand, and changes nothing else |
| LiveRequests.GroupIsDeleted | src/core/registry.ts:184-188 | a group nobody holds goes with exactly its customers; a held or unknown one stays, and everything with it |
| LiveRequests.ResetWipes | src/api/system.route.ts:15-23 | a reset leaves no message; with the numbers kept, businesses, customers, groups and their holders stay, otherwise nothing of them and nobody holds anything |
| LiveRequests.ResetClearsTabs | src/live.ts:105-115 | a reset empties the open tab of every holder whose group stays and shuts the socket of every other |
| LiveRuns.HoldersAgree | src/live.ts:121-130 | in every run of the composed engine lock, index and roles agree, because it is a run of session steps |
| LiveRuns.SilentTabIsDropped | src/ws/server.ts:69-78 | a client of the composed engine that sends no pong between two heartbeats is ended by the second |
| LiveRuns.OneEntryPerMessage | src/ws/admin-feed.ts:68-75 | in every run, with whatever webhooks report and whatever requests are refused, a message has one log entry between two resets, then only updates |
| LiveRuns.FlushHandsQueue | src/core/delivery.ts:84-93 | a flush hands delivered exactly the tile's queue in conversation and number order, asks for one webhook each in that order, and leaves the queue empty |
| LateRun.LateCopyRun | src/core/delivery.ts:63-71 | a run from boot in which a late copy makes a tab say sent where the store says delivered |
| LiveEngine.Engine.BroadcastFrame | src/ws/admin-feed.ts:43-45 | one frame to each open admin page, whatever the order of the loop |
| LiveEngine.Engine.LogChanged | src/ws/admin-feed.ts:68-75 | entry first, update after, nothing if nobody listens or the message is gone |
| LiveEngine.Engine.Emit | src/core/bus.ts:26-55 | routes an event to the session of the tile's group and to the admin feed |
| LiveEngine.Engine.Deliver | src/core/delivery.ts:63-71 | shows and marks iff the message is outbound and its tile is effectively online |
| LiveEngine.Engine.ResponseFinished | src/meta/messages.route.ts:65-68 | hands over the message as it was when accepted, whatever happened to it since |
| LiveEngine.Engine.Rejected | src/ws/admin-feed.ts:77-79 | one entry, if anybody listens |
| LiveEngine.Engine.FlushTile | src/core/delivery.ts:84-93 | shows the queue in one frame, marks it, and returns it |
| LiveEngine.Engine.DeliverQueued | src/core/delivery.ts:73-82 | the loop over the tiles of a claimed group |
| LiveEngine.Engine.Claim | src/ws/session.ts:108-119 | refused, or lock, snapshot, marking and lists in that order |
| LiveEngine.Engine.Close | src/ws/session.ts:87-96 | releases the role once and tells the admins |
| LiveEngine.Engine.SetPresence | src/ws/group-events.ts:43-51 | stores the switch, tells the admins, echoes it, and flushes when it goes on |
| LiveEngine.Engine.Reset | src/live.ts:105-115 | clears the log, sends fresh lists, and refreshes or ends every open session |
| Server.CallsBring | src/live.ts:55-136 | each callback of the live engine does a sequence of allowed lifecycle calls to the store, and nothing else |
| Server.ServerKeepsBooks | src/live.ts:55-136 | every run of the whole server, across restarts, is a run of the end-to-end system and keeps the mirrors |
| Server.ServerConserves | src/core/lifecycle.ts:71-149 | every message of the running server has exactly its due webhooks |
| Server.OneEntryPerMessage | src/webhooks/dispatcher.ts:93-96 | in every run of the whole server, across restarts and with everything the dispatcher reports, a message has one log entry between two resets, then only updates |
| Server.ProgressIsLogged | src/webhooks/dispatcher.ts:93-96 | what a step of the dispatcher adds to the log feed while an admin listens, exactly: one change of a message for each recorded attempt of one of its webhooks, a second one if the webhook ended with it, nothing about any other message |
| Server.StrangersAreLeftAlone | src/ws/group-events.ts:58-63 | in every run of the server a frame that names a customer outside the group its session holds leaves store, webhooks and sessions as they are |
| Server.RestartKeepsStore | src/webhooks/dispatcher.ts:206-208 | a dispatcher callback touches nothing of the live engine but its log; a restart drops sessions, locks and responses under way and keeps every message, number, group and webhook |
| Server.ShownIsAskedFor | src/core/bus.ts:40-43 | the status a tab shows tells exactly which webhooks of the message exist, except for a bubble that a late copy put back and that still says sent |
| AdminLog.PageIsNewest | src/core/messages.ts:254-269 | cutting each query first loses nothing: min(limit, total) entries, newest first, none omitted newer than one shown |
| AdminLog.NewestTimes | src/core/messages.ts:254-269 | the newest entries are unique up to the order of equal times |
| AdminLog.PageAgreesWithWholeLog | src/core/messages.ts:254-269 | the page shows the same times, place by place, as sorting and cutting the whole log |
| Fixtures.Stabilize | tools/gen-fixtures.ts:164-195 | both passes: the maps are filled by recursion over the tree, then every leaf is replaced |
| Fixtures.WalkEqual | tools/gen-fixtures.ts:170-174 | two rewritten trees are equal exactly if their shapes are and their leaves come out equal |
| CanonicalForm.KeepsEquality | tools/gen-fixtures.ts:175-186 | equal ids stay equal, different ids stay different |
| CanonicalForm.KeepsOrder | tools/gen-fixtures.ts:181-187 | earlier times stay earlier, equal times stay equal |
| CanonicalForm.SameSessionSameForm | tools/gen-fixtures.ts:164-195 | trees that differ by an injective renaming of ids, times moved in order and blanked values come out equal, however many ids there are |
| CanonicalForm.Canonical | tools/gen-fixtures.ts:164-195 | as long as the numbers fit the padding, only those come out equal |
| FixedPoint.Idempotent | tools/gen-fixtures.ts:164-195 | stabilising again changes nothing, exactly unless an id whose number overflowed stands under the key of the webhook address |
| FixedPoint.MillionTracesUnstable | tools/gen-fixtures.ts:164-195 | a concrete recording on which it does |

## Left out

- HTTP, sockets, Express routing, SQLite, environment reading and the verification handshake: a request is an abstract answer, a socket a list of sent frames, a table a sequence or a map.
- HMAC signatures and the JSON text of envelopes: a webhook's payload is a value fixed when it is enqueued, without the display number, account id and contact name of its business and customer.
- Payloads.PayloadsNamePhone: is about runs in which no display number is an id that messages are sent by, because otherwise it is false (`Payloads.StatusNamesOther`); everything else about payloads holds in every run (`Payloads.PayloadsMatchMessages`).
- Timing.OnlySentIsHeld: is about runs without a restart, like `Timing.NothingBeforeDelay`.
- The measured duration of an attempt is not recorded; its status, error and time are.
- SqliteJobStore: its foreign-key error for an attempt of a deleted row is not modelled; the in-memory store is.
- Exceptions of the job store or of the change listener inside the dispatcher: assumed not to happen, because such a throw drops the head job while its row stays pending.
- An answer and the continuation of its run are one step; the finally callback is a step of its own. Finer interleavings of the microtasks in between are not modelled.
- Freedom from starvation under endless enqueues does not hold, because a conversation with more work keeps its slot; the bounded bypass is what holds.
- DispatcherRuns.CrashSafety: is about runs in which whoever calls cancelAll deletes the rows, as the reset route does; `DispatcherRuns.CancelNeedsDeletedRows` says exactly when cancelled jobs come back otherwise.
- DispatcherRuns.DeliveryOrder: is about the same runs; jobs that come back after newer ones were sent break the order by id (`CancelRun.KeptRowsBreakOrder`).
- Timing.NothingBeforeDelay: is about runs without a restart, because a resumed job is eligible at once.
- Conservation.DeliveredConserves: takes earlier copies of stored messages, as every caller passes; it says nothing about messages with a forged direction.
- LiveRuns.TabMirror: assumes that businesses with conversations stay registered; `Conservation.DeliveredConserves` says exactly what happens otherwise.
- LiveGuards.NoStrandedQueue: makes the same assumption.
- AdminPage.AdminMirror: the customer list is compared in creation order; the source sorts it by group id and position, which is the same order within a group.
- LiveLogged.ChangesAreLogged: counts frames by message; the content of a log entry and the frames about the verification handshake are not modelled.
- Frames for errors, echoes of switches and labels carry no bubble and are all one kind of frame.
- Auto-replies: the rule engine and its timers are an arbitrary inbound message of an online customer at any time.
- Wamids are random in the source and therefore new in the model.
- BadgeRuns.BadgesInRuns: takes phone number ids that are no display numbers, and messages sent by id, as the message route does.
- Phone number normalisation, slugs, generated phone number ids, tokens and labels; numbers are compared as given.
- Conversations are keyed by a pair of numbers instead of a joined string.
- Request validation and the error texts of the Graph API.
- The order of keys that look like array indices in a JavaScript object, and duplicate keys in fixtures.
