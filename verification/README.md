# Verified models of the agent and the gateway

Machine-checked models of the parts of this repository whose correctness depends on more than one function: the
protocols, state machines, scanners and indexes of the agent (`ecom_agent`) and of the WhatsApp gateway (`OpenWA`).
`dafny verify dfyconfig.toml` checks everything.

Code that changes things in place is modelled by classes and loops, and each method is proved against a
specification function or relation; the theorems are about those specifications, over every input, every run or every
interleaving. What the code gets from outside (LLM answers, tool results, clocks, databases, worker threads) is an
arbitrary input.

| files | what they model |
|---|---|
| `TurnGuard.dfy` | retries of one message: a lock per Conversation, a saved answer, crashes and timeouts |
| `AgentNotes.dfy`, `Drafts.dfy` | the notes of a Conversation and the Draft of a tool call, as values and in place |
| `AgentGraph.dfy`, `AgentTurn.dfy` | the graph of one Turn: nodes, routers, what the server sends |
| `AgentRuns.dfy`, `AgentLaws.dfy` | the invariant of every run of Turns, and what follows from it |
| `AgentOrders.dfy` | which orders a Turn and a message can make, and how a Draft that is sent or given up ends |
| `AgentArguments.dfy` | where the product and the quantity of an order come from, over every run |
| `AgentReplies.dfy` | what the server sends, from the way a Turn went and what it was answered |
| `ConcurrencyLimiter.dfy` | the async gate and its slot hand-over |
| `JsonSpan.dfy` | the printed forms of JSON values (RFC 8259) and the scanner that recovers them from prose |
| `WaId.dfy`, `SessionStore.dfy`, `LidMapping.dfy`, `MessageStore.dfy` | WhatsApp identities, the lid indexes, the bounded message store |
| `Hooks.dfy`, `PluginLifecycle.dfy`, `PluginConfig.dfy` | hook execution, the life of sandboxed plugins, the configuration merge |
| `IpAddress.dfy` | IPv4 blocks and the text forms of section 2.2 of RFC 4291 |
| `Strings.dfy`, `Wrappers.dfy` | the few string operations and the Option type they share |

## What is promised and does not hold

The code is modelled as it is. Where it falls short of what its own text promises, the model shows an input and proves
when the promise is met.

- A Turn that raises before a Conversation has its first row in the store leaves its half-done notes in the checkpoint.
  The next Turn starts from them and can store a Draft that is still ready (`AgentLaws.EarlyRaiseLeavesReady`). No
  Draft is left ready exactly when the notes that were loaded hold none (`AgentLaws.LeftReadyExactlyWhenLoadedReady`),
  and that is so in every run in which no Turn raises that early (`AgentLaws.StoredNotesAreNeverReady`). An order is
  never left ready, in any run (`AgentLaws.NoOrderLeftReady`).
- "Only the open order Draft creates the order" does not hold for a Turn that starts with an open order: there is a run
  in which the model creates an order by itself while the Draft stays open (`AgentOrders.OwnOrderInARun`). It can do so
  exactly when flow_resolver's answer leads away from the Draft: a new flow for no tool, an id that names no flow, or,
  for no tool, the id of a flow without a Draft (`AgentOrders.OwnOrderExactlyWhen`).
- A side tool does not replace the order Draft of the active flow, but it can replace the order Draft of another flow,
  exactly when the active flow holds none (`AgentLaws.SideToolReplacesExactlyWhenNoneOpen`); a run of four messages gets
  there (`AgentOrders.SideToolReplacesInARun`).
- Inside a code fence the scanner returns a printed object unchanged exactly when its only line breaks are "\n"
  (`JsonSpan.RecoversFencedObject`): "{", "\r\n", "}" comes back changed (`JsonSpan.FencedExample`).
- `WaId.toNeutral` is documented as byte-identical to `toNeutralJid`. It is, except for channel and broadcast ids that
  start with a blank, have an upper-case user part, or have a second "@" before any ":" (`WaId.ValueAgrees`); the id
  " 1@newsletter" has two neutral forms (`WaId.BlankExample`).
- A lid mapping whose write to the table failed is not written when the same pair is learned again
  (`LidMapping.LostWriteIsNotRetried`). A call leaves its phone in the table exactly when it was there or the call
  changes the index (`LidMapping.ReachesExactlyWhen`), and after any calls table and index agree at a lid exactly when
  the last persisted phone is the last one said (`LidMapping.AgreeExactlyWhen`).
- `expandIPv6` promises null for a malformed text. It keeps that for every text in which the dotted match does not start
  inside a group, and breaks it exactly when it does and the folded text is a spelling (`IpText.NullUnlessSpelled`):
  "::1001.0.0.0" is read as ::1100:0 (`IpText.GluedExample`). Its only caller asks isIPv6 first
  (OpenWA/src/common/security/ssrf-guard.ts:114 and 142), so such texts do not reach it in the program.
- An unload that races an enable leaves the worker of an unloaded plugin alive exactly when the enable has its worker
  (`PluginLifecycle.RacingUnloadLeaks`, reached in two steps by `PluginLifecycle.RaceIsReachable`), so the lifecycle
  theorem excludes that race.

## Model

| member | source | states |
|---|---|---|
| `TurnGuard.OneTurnPerConversation` | ecom_agent/turn_guard.py:42-91 | in every interleaving of arrivals, timeouts, runs and crashes, with any lock key, two callers inside the guard for one Conversation are the same caller |
| `TurnGuard.SameAnswer` | ecom_agent/turn_guard.py:42-56 | any two answers ever returned for one message are equal, and a real run of that message produced them |
| `TurnGuard.RunsAreCounted` | ecom_agent/turn_guard.py:42-56 | a message runs at most once plus the crashes between its run and its save; once saved, exactly that often |
| `TurnGuard.NoLockIsLeftBehind` | ecom_agent/turn_guard.py:58-91 | whoever holds a lock is a live caller that can take its next step |
| `TurnGuard.SavedForever` | ecom_agent/turn_guard.py:93-104 | after the save the result never changes and the message never runs again, whatever happens next |
| `TurnGuard.InvHolds` | ecom_agent/turn_guard.py:42-104 | locks match critical sections one to one, and every start of a Turn is lost, saved or in flight, in every reachable state |
| `TurnGuard.Guard.Hold` | ecom_agent/turn_guard.py:58-91 | takes the lock exactly when it is free, otherwise the caller is busy; one step of the protocol |
| `TurnGuard.Guard.LoadSaved` | ecom_agent/turn_guard.py:93-97 | answers the saved result of the message, or nothing; one step of the protocol |
| `TurnGuard.Guard.SaveResult` | ecom_agent/turn_guard.py:99-104 | stores the result under conversation and message; one step of the protocol |
| `TurnGuard.Guard.RunOnce` | ecom_agent/turn_guard.py:42-56 | the call takes only steps of the protocol, answers the stored result or runs and stores, and leaves every lock as it was |
| `ConcurrencyLimiter.NeverOverAdmits` | OpenWA/src/engine/adapters/concurrency-limiter.ts:7-36 | in every interleaving the counter equals the tasks running or handed a slot, never exceeds the clamped maximum, and equals it while a task is parked |
| `ConcurrencyLimiter.FirstComeFirstServed` | OpenWA/src/engine/adapters/concurrency-limiter.ts:16-35 | slots are granted in exact order of arrival, none twice; who has none yet is parked in that order |
| `ConcurrencyLimiter.EveryTaskIsServed` | OpenWA/src/engine/adapters/concurrency-limiter.ts:16-35 | once nobody arrives any more the gate stops after boundedly many steps, and where it cannot move every task is done: no wake-up is lost |
| `ConcurrencyLimiter.InvHolds` | OpenWA/src/engine/adapters/concurrency-limiter.ts:7-36 | the invariant behind these holds after every legal sequence of steps |
| `ConcurrencyLimiter.Limiter.Run` | OpenWA/src/engine/adapters/concurrency-limiter.ts:16-24 | run up to its first await: started at once or parked at the end of the queue |
| `ConcurrencyLimiter.Limiter.Resumed` | OpenWA/src/engine/adapters/concurrency-limiter.ts:20-26 | a woken task starts without being counted again |
| `ConcurrencyLimiter.Limiter.Settled` | OpenWA/src/engine/adapters/concurrency-limiter.ts:27-34 | the finally block hands the slot to the first parked task, or frees it when none waits |
| `JsonSpan.RecoversObject` | ecom_agent/text/json_parse.py:7-40 | for every JSON object, every printed form of it, every prose before it without "{" that opens no code fence, and any text after it, the scanner returns exactly the printed object |
| `JsonSpan.RecoversFencedObject` | ecom_agent/text/json_parse.py:7-40 | inside a code fence with any tag, any prose and any suffix, the printed object is returned if and only if its only line breaks are "\n" |
| `JsonSpan.FencedExample` | ecom_agent/text/json_parse.py:9-15 | a legal empty object with "\r\n" between its braces is not returned as printed |
| `JsonSpan.UnfencedBody` | ecom_agent/text/json_parse.py:9-16 | a fence and its tag line go; what is scanned is the body with every line break written as "\n" |
| `JsonSpan.ValueIsNeutral` | ecom_agent/text/json_parse.py:17-40 | a printed JSON value leaves the scanner as it found it and never closes the surrounding object, escapes and braces in strings included |
| `JsonSpan.SpanIsStable` | ecom_agent/text/json_parse.py:7-40 | extracting from what was extracted changes nothing, if and only if that opens no code fence of its own |
| `JsonSpan.ExtractJsonSpan` | ecom_agent/text/json_parse.py:7-40 | the character loop with its depth, string and escape flags computes that span |
| `AgentNotes.ShownComeFromFlows` | ecom_agent/flows.py:29-44 | every product the agent may name is a result or the selection of some flow |
| `AgentNotes.ShownAreDistinct` | ecom_agent/flows.py:35-44 | at most ten products are shown, none twice |
| `AgentNotes.SortedByTimeIsStable` | ecom_agent/flows.py:38-38 | the flows are taken oldest first, and flows of one time in their own order |
| `AgentNotes.ShownExactlyWhen` | ecom_agent/flows.py:35-44 | a product is among the shown ones if and only if this was the last showing of its id and fewer than ten other products were shown after it |
| `Drafts.ReadyIsComplete` | ecom_agent/drafts.py:225-271 | a Draft becomes ready only with all of its arguments, a whole address and no error |
| `Drafts.ReadyExactlyWhen` | ecom_agent/drafts.py:255-265 | after a collect a Draft is ready if and only if every required argument, for an order the whole address, is there and no error is pending; only news clears an error or a count of stalls |
| `Drafts.CollectedField` | ecom_agent/drafts.py:242-250 | every argument of every tool but an order's product: the value in the raw answer as the schema reads it, else the Draft's own; an order's street goes only when the place was replaced and no street was told |
| `Drafts.CollectedOrder` | ecom_agent/drafts.py:117-133 | an order's product is the heard id when it was shown or selected, else the Draft's own, else the selected one; its quantity is exactly the whole number heard, else the Draft's own |
| `Drafts.SavedPlace` | ecom_agent/drafts.py:87-110 | the saved wilaya and commune: the name that was told when it is another place, else the known one, else what the second extraction heard |
| `Drafts.SavedStreet` | ecom_agent/drafts.py:87-110 | the saved street: the one told, else the known one unless the place was replaced, else what the second extraction heard |
| `Drafts.MovesAreReplacements` | ecom_agent/drafts.py:87-110 | the move flags of a collect say exactly whether a known wilaya or commune was replaced by a different name |
| `Drafts.StreetsAfterCollect` | ecom_agent/drafts.py:87-110 | after a collect a street was given now, or was known before and nothing replaced the place it belongs to |
| `Drafts.CollectKeepsPlace` | ecom_agent/drafts.py:87-110 | the wilaya and commune among the arguments stay the saved ones, up to spelling |
| `Drafts.Book.Collect` | ecom_agent/drafts.py:225-271 | collect in place leaves the Draft and the address whose every field the laws of Collected describe, and changes nothing else |
| `Drafts.Book.SyncAddress` | ecom_agent/drafts.py:87-110 | the in-place address update: names first, then the street they may outdate |
| `Drafts.Book.FillAddress` | ecom_agent/drafts.py:203-222 | the loop fills exactly the missing fields that were heard |
| `Drafts.Book.CoerceArgs` | ecom_agent/tools/schema.py:28-54 | the loop keeps exactly the known fields whose cast works, a blank text as "" |
| `Drafts.Book.Start` | ecom_agent/drafts.py:156-160 | the flow then has a Draft of this tool: the one it had, untouched, or an empty one that collects; no other flow changes |
| `Drafts.Book.Reopen` | ecom_agent/drafts.py:314-321 | the Draft is still found, collects again with the arguments it had, and has the error pending |
| `Drafts.ReopenedNeedsNews` | ecom_agent/drafts.py:314-321 | a failed order is not ready again before something new comes in, whatever is heard |
| `Drafts.Book.Close` | ecom_agent/drafts.py:324-329 | the active flow then holds no Draft and is still the one that is found |
| `Drafts.Book.GiveUp` | ecom_agent/drafts.py:332-343 | exactly a collecting Draft with three stalled Turns is removed |
| `Drafts.Book.ClearSelectedProduct` | ecom_agent/flows.py:22-26 | no flow has a selected product afterwards, nothing else changes |
| `Drafts.Book.FindShownProducts` | ecom_agent/flows.py:35-44 | the nested loops compute the shown products: the latest ten, none twice |
| `AgentGraph.EveryRunPersistsOnce` | ecom_agent/graph.py:38-65 | for any nodes and routers along falling edges a run visits no node twice and ends in persist, exactly once, unless a node raises |
| `AgentGraph.Holds` | ecom_agent/graph.py:38-65 | an invariant kept by every node and edge holds wherever a run stops |
| `AgentTurn.EdgesFall` | ecom_agent/routing.py:5-33 | every router leads towards the end, whatever the state |
| `AgentTurn.EveryTurnPersistsOnce` | ecom_agent/graph.py:38-65 | every Turn ends after at most nine nodes and reaches persist exactly once unless a node raises |
| `AgentTurn.SendsThisTurnsReply` | ecom_agent/server.py:125-161 | the server sends exactly this Turn's reply text when it is not blank; when no reply ran it escalates if and only if the history has no assistant text to repeat, so always when it ends with the customer's message |
| `AgentReplies.SendsByPath` | ecom_agent/nodes/reply.py:16-31 | for every Turn that does not raise: the reply model's text after calling_tool or a clarification, the question after ask_reply, the direct reply, or the words of a cancel, the last three replaced by the default text when blank; escalation when the text is blank or the Turn passed escalate |
| `AgentTurn.HistoryEndsWithCustomer` | ecom_agent/nodes/memory.py:38-51 | the history ends with the customer's message unless the last message of back repeats its text as another's |
| `AgentTurn.FindLastReply` | ecom_agent/server.py:34-61 | the reverse loop finds the latest assistant text after the latest customer message |
| `AgentRuns.TurnKeepsSound` | ecom_agent/graph.py:38-65 | a Turn with any answers keeps the invariant of store and checkpoint, also when it raises |
| `AgentRuns.RunKeepsSound` | ecom_agent/graph.py:38-65 | so does every run |
| `AgentRuns.HeededSound` | ecom_agent/drafts.py:225-271 | collect keeps the invariant of every flow: argument types, shown products, fresh streets, stall counts |
| `AgentRuns.ResolverKeepsCalm` | ecom_agent/nodes/flow.py:55-100 | flow_resolver keeps it for every action and every id the model names |
| `AgentRuns.CallingKeepsCalm` | ecom_agent/nodes/calling.py:97-170 | calling_tool keeps it on the ready path, the model's own calls and the product selection |
| `AgentOrders.SentIsSettled` | ecom_agent/nodes/calling.py:106-130 | where a Turn stops, raising or not, the flow of a Draft that was sent holds no Draft when the call worked, and after a failed order that Draft again, not ready, with the arguments sent and the error pending |
| `AgentOrders.CallSelects` | ecom_agent/nodes/calling.py:155-165 | a product tool that brings products selects one of them in the active flow and nothing elsewhere; a list of several selects none and replaces the flow's list |
| `AgentOrders.CallForgets` | ecom_agent/nodes/calling.py:166-167 | an order that worked forgets every selection, and a call that neither orders nor brings products changes none |
| `AgentOrders.ContinueCollects` | ecom_agent/nodes/draft.py:9-25 | a Turn in which the customer goes on with the Draft collects it, whatever comes after |
| `AgentOrders.CancelTurn` | ecom_agent/nodes/draft.py:9-14 | a cancel removes the Draft of the active flow and changes nothing else |
| `AgentLaws.SentOrdersAreComplete` | ecom_agent/nodes/calling.py:106-130 | in every run an order sent from a Draft has a product, a whole quantity, a wilaya, a commune, a street and no pending error |
| `AgentLaws.SentProductWasShown` | ecom_agent/drafts.py:117-133 | its product was returned by a product tool earlier in the same Conversation |
| `AgentArguments.SentAsSaid` | ecom_agent/drafts.py:225-271 | in every run the product of a sent order is the last known product heard since the Draft was opened, or the one selected when none was known, and its quantity the last whole number heard |
| `AgentArguments.DraftAsSaid` | ecom_agent/drafts.py:225-271 | the same for every order Draft that is still open |
| `AgentLaws.DraftProductWasShown` | ecom_agent/nodes/calling.py:155-167 | so was the product of any order Draft, and at most one flow has a selected product |
| `AgentLaws.SentStreetIsStillGood` | ecom_agent/drafts.py:87-110 | with one order Draft at a time its street was given in or after the last message that replaced a known wilaya or commune, fixing the commune of a failed order aside |
| `AgentLaws.StalledDraftEnds` | ecom_agent/nodes/draft.py:17-25 | the event right after a Draft is collected three times in a row with nothing new is that it is given up, that it is sent, or that the Turn raised |
| `AgentOrders.GivenUpTurnEscalates` | ecom_agent/nodes/draft.py:17-25 | a Turn that gives a Draft up and does not raise ends with no Draft in that flow, passes escalate, and hands over to a human when the history ends with the customer's message |
| `AgentOrders.GivenUpAfterThree` | ecom_agent/drafts.py:332-343 | in every run a Draft is given up only after three collects in a row with nothing new |
| `AgentLaws.NoOrderLeftReady` | ecom_agent/drafts.py:301-329 | in no run, raises included, is an order Draft left ready |
| `AgentLaws.NoDraftLeftReady` | ecom_agent/drafts.py:301-329 | a Turn that ends leaves no Draft ready if it loaded none ready |
| `AgentLaws.LeftReadyExactlyWhenLoadedReady` | ecom_agent/nodes/memory.py:67-74 | no continuation leaves a Draft ready if and only if the loaded notes hold none ready |
| `AgentLaws.StoredNotesAreNeverReady` | ecom_agent/nodes/memory.py:67-79 | in every run without a raise before the first row, stored notes hold no ready Draft |
| `AgentLaws.EarlyRaiseLeavesReady` | ecom_agent/nodes/memory.py:67-74 | a family of runs in which an early raise leaves a ready Draft in the store |
| `AgentLaws.OrderDraftSurvives` | ecom_agent/nodes/flow.py:55-100 | a Turn that starts with an order Draft in the active flow stops with one in that flow, or with no Draft there if and only if it was cancelled, sent with success or given up; this holds where a Turn raises too, and then the stored notes are the old ones |
| `AgentLaws.SideToolReplacesExactlyWhenNoneOpen` | ecom_agent/nodes/flow.py:55-100 | the model can make a side tool replace an order Draft exactly when the active flow holds no order Draft |
| `AgentOrders.SideToolReplacesInARun` | ecom_agent/nodes/flow.py:62-99 | a run from a new Conversation in which a search takes the place of an order Draft that nothing ended |
| `AgentOrders.OwnOrderExactlyWhen` | ecom_agent/nodes/calling.py:131-153 | for every Turn that loads an order Draft in the active flow (and gets past hydrate, with a new id for a new flow): the model creates an order by itself if and only if its answers ask for one and flow_resolver's answer leads away from the Draft |
| `AgentOrders.OwnOrderInARun` | ecom_agent/nodes/flow.py:93-99 | a run from a new Conversation in which the model orders by itself beside the open Draft, because CONTINUE names no flow |
| `AgentOrders.OneDraftOrderPerTurn` | ecom_agent/nodes/calling.py:106-130 | every Turn, raising or not, sends at most one order from a Draft |
| `AgentOrders.OneOrderPerMessage` | ecom_agent/turn_guard.py:42-56 | however often a message is retried, it sends at most one order from Drafts plus one for every run lost in a crash before its save |
| `WaId.NeutralIsIdempotent` | OpenWA/src/engine/identity/wa-id.ts:73-101 | with the session store's resolver and digit phones, reducing any id twice is reducing it once |
| `WaId.NeutralIsClean` | OpenWA/src/engine/identity/wa-id.ts:16-20 | a recognized id never keeps a device suffix or the raw protocol domain |
| `WaId.NeutralKeepsKind` | OpenWA/src/engine/identity/wa-id.ts:78-101 | the neutral id keeps kind and user part, except that a lid whose phone is known becomes that user; an unrecognized id stays as it is |
| `WaId.EngineRoundTrip` | OpenWA/src/engine/adapters/baileys-session-store.ts:159-174 | folding to the engine's dialect loses nothing, and for user ids the neutral form folds to the same |
| `WaId.PhoneRoundTrip` | OpenWA/src/engine/adapters/baileys-session-store.ts:159-174 | on digit phone ids the two foldings undo each other |
| `WaId.ParseOfParts` | OpenWA/src/engine/identity/wa-id.ts:47-71 | an id put together from a canonical user part and a domain is parsed into the two |
| `WaId.ParsedIsCanonical` | OpenWA/src/engine/identity/wa-id.ts:47-71 | the user part of a recognized id is lower-case, without device suffix and without a leading blank |
| `WaId.ValueAgrees` | OpenWA/src/engine/identity/wa-id.value.ts:26-74 | the value object gives the adapters' neutral id if and only if the id is no channel or broadcast id, or is plainly spelled |
| `WaId.LeadingBlankDisagrees` | OpenWA/src/engine/identity/wa-id.value.ts:66-71 | for a channel id with a blank in front the value object keeps the blank and the adapters do not |
| `WaId.FirstPieces` | OpenWA/src/engine/identity/wa-id.ts:42-58 | local part and device are the first two pieces of the split text |
| `SessionStore.Store.AddLidMappings` | OpenWA/src/engine/adapters/baileys-session-store.ts:69-76 | the loop learns the complete pairs in order, in the session's map and in the shared store |
| `SessionStore.Store.UpsertContacts` | OpenWA/src/engine/adapters/baileys-session-store.ts:40-57 | records are merged field by field, and a lid and a phone that came in separate updates are learned together |
| `SessionStore.Store.RecordMessage` | OpenWA/src/engine/adapters/baileys-session-store.ts:98-110 | a message replaces its chat's last one only when it is strictly newer |
| `SessionStore.LastPairWins` | OpenWA/src/engine/adapters/baileys-session-store.ts:69-96 | after any pairs a lid has the phone of its last complete pair, in the session's map and bare in the shared store |
| `SessionStore.LastFieldWins` | OpenWA/src/engine/adapters/baileys-session-store.ts:40-57 | after any records a contact's property is the last value it was sent with |
| `SessionStore.UpsertLearns` | OpenWA/src/engine/adapters/baileys-session-store.ts:45-55 | a record after which lid and phone of a contact are both known teaches that pair, the phone number before the jid |
| `SessionStore.PhoneSources` | OpenWA/src/engine/adapters/baileys-session-store.ts:130-153 | resolvePhone of a lid: the phone learned for it without its device suffix, else for the id as it came, else its contact's phone number, else the shared store's |
| `SessionStore.ContactResolves` | OpenWA/src/engine/adapters/baileys-session-store.ts:144-147 | a contact's phone number alone resolves its lid |
| `SessionStore.KeepsTheNewest` | OpenWA/src/engine/adapters/baileys-session-store.ts:98-110 | after any messages each chat's entry is its newest message, the first of equally new ones |
| `SessionStore.SessionNeutralIsStable` | OpenWA/src/engine/adapters/baileys-session-store.ts:130-161 | however a session learned its digit phones, reducing an id twice is reducing it once |
| `SessionStore.LearnedSurvivesRestart` | OpenWA/src/engine/adapters/baileys-session-store.ts:30-34 | a session without contacts that learned lids in their plain spelling with digit phones, and one that starts empty on the shared store, reduce every id alike |
| `SessionStore.RestartAgreesExactlyWhen` | OpenWA/src/engine/adapters/baileys-session-store.ts:130-153 | for every session with digit phones, an id is reduced alike before and after a restart if and only if the session's own maps know no phone for it or the shared store has that phone |
| `LidMapping.Store.Index` | OpenWA/src/engine/identity/lid-mapping-store.service.ts:76-88 | sets the forward entry and keeps the reverse index its exact inverse on non-empty phones |
| `LidMapping.Store.Remember` | OpenWA/src/engine/identity/lid-mapping-store.service.ts:62-74 | a change updates both indexes and, when the write succeeds, the table; an empty lid or a known pair changes nothing |
| `LidMapping.Store.OnModuleInit` | OpenWA/src/engine/identity/lid-mapping-store.service.ts:39-51 | loading the rows in any order makes the forward index the table; an unreadable table leaves both indexes empty |
| `LidMapping.Store.LidsForPhone` | OpenWA/src/engine/identity/lid-mapping-store.service.ts:57-60 | answers exactly the lids that map to the phone |
| `LidMapping.LastWriteWins` | OpenWA/src/engine/identity/lid-mapping-store.service.ts:18-19 | after any calls a lid has the phone of its last call |
| `LidMapping.TableFollows` | OpenWA/src/engine/identity/lid-mapping-store.service.ts:62-74 | if every write succeeded the table is the forward index |
| `LidMapping.OnlyLostWritesDiffer` | OpenWA/src/engine/identity/lid-mapping-store.service.ts:62-74 | table and index differ only at a lid whose last change was lost |
| `LidMapping.TableIsLastPersisted` | OpenWA/src/engine/identity/lid-mapping-store.service.ts:62-74 | after any calls the table has, for every lid, the phone of the last change that reached it |
| `LidMapping.AgreeExactlyWhen` | OpenWA/src/engine/identity/lid-mapping-store.service.ts:62-74 | table and index agree at a lid if and only if the last persisted phone is the last one said |
| `LidMapping.ReachesExactlyWhen` | OpenWA/src/engine/identity/lid-mapping-store.service.ts:63-68 | after a call whose write succeeds the table has its phone if and only if it had it before or the call changes the index |
| `LidMapping.LostWriteIsNotRetried` | OpenWA/src/engine/identity/lid-mapping-store.service.ts:63-65 | saying a lost pair again any number of times never writes it |
| `LidMapping.ReloadRebuilds` | OpenWA/src/engine/identity/lid-mapping-store.service.ts:39-88 | after any successful calls a store loaded from the table has the same two relations |
| `MessageStore.Store.Put` | OpenWA/src/engine/adapters/baileys-message-store.service.ts:52-88 | after a stored put the session's rows are exactly the newest, up to the limit, of what it had with the new row; keys stay unique; other sessions, a missing id or parent and a failed write change nothing |
| `MessageStore.Store.EnforceLimit` | OpenWA/src/engine/adapters/baileys-message-store.service.ts:103-123 | deletes everything not newer than the row at the limit, which leaves the newest rows |
| `MessageStore.RankExists` | OpenWA/src/engine/adapters/baileys-message-store.service.ts:106-112 | the row the query skips to exists whenever there are more rows than the limit |
| `MessageStore.KeptExactlyWhen` | OpenWA/src/engine/adapters/baileys-message-store.service.ts:103-123 | a row is kept if and only if fewer than the limit are newer |
| `MessageStore.NewestIsUnique` | OpenWA/src/engine/adapters/baileys-message-store.service.ts:103-123 | there is only one way to keep the newest rows |
| `MessageStore.LastDistinctAreKept` | OpenWA/src/engine/adapters/baileys-message-store.service.ts:52-123 | in every run with an advancing clock the rows are the last puts of the most recent distinct messages of each session, up to the limit |
| `Hooks.NestingIsBounded` | OpenWA/src/core/hooks/hook-manager.service.ts:86-106 | whatever handlers fire, executions nest at most as deep as there are hook events, seventeen |
| `Hooks.Executed` | OpenWA/src/core/hooks/hook-manager.service.ts:90-106 | execution terminates because the events not in flight shrink at each level, nests no deeper than their number, and an event in flight is answered at once with its own payload |
| `Hooks.InFlightNeverRuns` | OpenWA/src/core/hooks/hook-manager.service.ts:95-101 | below an event in flight the handlers of that event make no difference to anything |
| `Hooks.ResultIsTheFold` | OpenWA/src/core/hooks/hook-manager.service.ts:108-154 | a chain's outcome is the left fold of its handlers' effects, ended by the first that stops |
| `Hooks.ExecutesInPriorityOrder` | OpenWA/src/core/hooks/hook-manager.service.ts:29-36 | the fold runs by priority, ties by registration, whichever way the registrations are listed |
| `Hooks.FailureIsInvisible` | OpenWA/src/core/hooks/hook-manager.service.ts:128-151 | leaving out a handler whose own moves end in a throw, or in an error without a stop, changes no outcome |
| `Hooks.HandlerInChain` | OpenWA/src/core/hooks/hook-manager.service.ts:128-151 | from the handler's own moves: a result that stops ends the chain whatever follows; otherwise the rest goes on with its payload, or with the one it got when it threw, returned none or reported an error |
| `Hooks.PlayExists` | OpenWA/src/core/hooks/hook-manager.service.ts:128-131 | every handler has such moves, each fired event answered by its execution, and they end |
| `Hooks.OrderIsUnique` | OpenWA/src/core/hooks/hook-manager.service.ts:35-36 | priority and registration order determine the list |
| `Hooks.HookManager.Register` | OpenWA/src/core/hooks/hook-manager.service.ts:19-46 | adds one registration, keeps every list in order and tracks the plugin |
| `Hooks.HookManager.Unregister` | OpenWA/src/core/hooks/hook-manager.service.ts:51-68 | removes the first registration with the id and no other, even when ids repeat |
| `Hooks.HookManager.UnregisterPlugin` | OpenWA/src/core/hooks/hook-manager.service.ts:73-84 | removes all of the plugin's registrations and leaves the others in their order |
| `Hooks.HookManager.Execute` | OpenWA/src/core/hooks/hook-manager.service.ts:90-106 | terminates and computes the outcome the laws of Executed describe; an event in flight is answered with its own payload |
| `Hooks.HookManager.RunHandlers` | OpenWA/src/core/hooks/hook-manager.service.ts:108-154 | the loop computes the chain's outcome |
| `Hooks.WithoutIsFilter` | OpenWA/src/core/hooks/hook-manager.service.ts:77-80 | filtering a list by plugin drops that plugin's registrations and no copy of any other |
| `PluginLifecycle.LifecycleIsSound` | OpenWA/src/core/plugins/plugin-loader.service.ts:181-402 | in every run one enable is in flight per plugin; a settled plugin has a live worker exactly when enabled; it owns at most one hook per event and none unless enabled; registry and runtime status agree |
| `PluginLifecycle.OwnsWhatItSubscribed` | OpenWA/src/core/plugins/plugin-loader.service.ts:683-735 | in every run a live worker owns a hook on an event, and exactly one, if and only if it subscribed to the event after the enable that started it |
| `PluginLifecycle.StatusAfterStep` | OpenWA/src/core/plugins/plugin-loader.service.ts:297-312 | after a load runtime and registry say installed, after an enable enabled or error, after a disable disabled, and every other plugin keeps its own |
| `PluginLifecycle.StepKeeps` | OpenWA/src/core/plugins/plugin-loader.service.ts:665-759 | every step of load, enable, subscribe, failure, disable, unload and restart keeps the invariant |
| `PluginLifecycle.RacingUnloadLeaks` | OpenWA/src/core/plugins/plugin-loader.service.ts:379-402 | an unload leaves a live worker of an unloaded plugin if and only if an enable of it is in flight and has its worker |
| `PluginLifecycle.RaceIsReachable` | OpenWA/src/core/plugins/plugin-loader.service.ts:285-292 | that state is two steps from the start |
| `PluginLifecycle.PluginLoader.LoadPlugin` | OpenWA/src/core/plugins/plugin-loader.service.ts:181-257 | loads as installed in runtime and registry, refuses an invalid manifest or a loaded id |
| `PluginLifecycle.PluginLoader.EnablePlugin` | OpenWA/src/core/plugins/plugin-loader.service.ts:259-296 | claims the enable exactly when the plugin is loaded, not enabled and not being enabled, and tells the other cases apart |
| `PluginLifecycle.PluginLoader.OnHookSubscribe` | OpenWA/src/core/plugins/plugin-loader.service.ts:683-735 | afterwards the worker has the event and owns exactly one hook on it, and every other hook, worker and status is as before |
| `PluginLifecycle.PluginLoader.EnableSucceeded` | OpenWA/src/core/plugins/plugin-loader.service.ts:297-325 | enabled in runtime and registry, the claim released |
| `PluginLifecycle.PluginLoader.WorkerBroke` | OpenWA/src/core/plugins/plugin-loader.service.ts:750-758 | a failing worker loses its host before it is terminated |
| `PluginLifecycle.PluginLoader.EnableFailed` | OpenWA/src/core/plugins/plugin-loader.service.ts:308-325 | error in runtime and registry, hooks dropped, the claim released |
| `PluginLifecycle.PluginLoader.DisablePlugin` | OpenWA/src/core/plugins/plugin-loader.service.ts:327-377 | worker, host and hooks gone, disabled in runtime and registry; a plugin that is not enabled is untouched |
| `PluginLifecycle.PluginLoader.UnloadPlugin` | OpenWA/src/core/plugins/plugin-loader.service.ts:379-402 | disables first, then forgets the plugin; the registry keeps its entry |
| `PluginLifecycle.PluginLoader.SetPluginStatus` | OpenWA/src/core/plugins/plugin-storage.service.ts:117-124 | runtime and registry then agree on the plugin if and only if it has an entry, agree on every other plugin as before, and no entry appears or goes |
| `PluginConfig.MergedAt` | OpenWA/src/core/plugins/plugin-activation.ts:23-35 | at every path the merge reads the base where the override is silent, the override where it sets the path (objects on both sides merged), and nothing below a replaced object |
| `PluginConfig.MergeIsIdempotent` | OpenWA/src/core/plugins/plugin-activation.ts:28-35 | merging the same override twice is merging it once |
| `PluginConfig.DeepMerge` | OpenWA/src/core/plugins/plugin-activation.ts:28-35 | the copy overwritten entry by entry, in any order, is that merge |
| `PluginConfig.ResolvedAt` | OpenWA/src/core/plugins/plugin-activation.ts:37-53 | a session sees the base at every path its override is silent about, and the override's values where it sets them |
| `PluginConfig.OthersSeeTheBase` | OpenWA/src/core/plugins/plugin-activation.ts:50-52 | a global plugin, an event without a session and a session without settings see the base |
| `Cidr.InCidr4IsSameBlock` | OpenWA/src/common/security/ssrf-guard.ts:49-53 | two addresses match under the mask exactly when they have the same quotient by the size of the block |
| `IpText.InBlockExactly` | OpenWA/src/common/security/ssrf-guard.ts:45-53 | the same for dotted texts with legal octets: in the block exactly when their 32-bit numbers have the same quotient |
| `Cidr.MaskIsTopBits` | OpenWA/src/common/security/ssrf-guard.ts:51-51 | the 32-bit shift yields the top bits |
| `IpText.EverySpellingIsRead` | OpenWA/src/common/security/ssrf-guard.ts:86-106 | for every address and every legal spelling (any zero run compressed, leading zeros, dotted tail) the eight groups are returned |
| `IpText.AcceptedExactlyWhenSpelled` | OpenWA/src/common/security/ssrf-guard.ts:86-106 | for every text: unless the dotted match starts inside a group, these groups are returned if and only if the text is a legal spelling of them; if it does, the text spells nothing and is accepted if and only if the folded text is a spelling |
| `IpText.GluedTailIsAccepted` | OpenWA/src/common/security/ssrf-guard.ts:88-95 | a family of texts that spell no address and are accepted: a dotted tail right after a hexadecimal digit, decimal or letter |
| `IpText.GluedExample` | OpenWA/src/common/security/ssrf-guard.ts:88-95 | "::1001.0.0.0" spells nothing and is read as ::1100:0 |
| `IpText.NullUnlessSpelled` | OpenWA/src/common/security/ssrf-guard.ts:81-86 | only spellings are accepted, except exactly for texts whose dotted match starts inside a group and whose folded text is a spelling |
| `IpText.EmbeddedV4` | OpenWA/src/common/security/ssrf-guard.ts:76-79 | the dotted form of two groups reads back as their 32-bit number and as themselves |

## Left out

- LLM calls, prompts and word lists: their answers are arbitrary inputs of a Turn.
- gRPC, Postgres, Redis, queues and the ORMs: abstract maps and tables; a write succeeds or fails as given.
- Reply wording, history formatting and the rewriting of tool results: only which node speaks is modelled.
- The casts of coerce_args (`int(float(v))` and the like): each value carries the outcomes of its casts.
- Unicode normalization of place names: an arbitrary key function with equality.
- `_pick_product`: an arbitrary element of the returned products.
- A raise inside calling_tool while it sends a ready order: the code turns it into a tool error, which is an input here.
- parse_json_dict and its unwrapping of names and arguments: only the span is modelled.
- Lower-casing beyond ASCII in WhatsApp ids.
- SessionStore.Store: the shared lid store is always there, while in the code it is optional; display fields of contacts and chats are not modelled.
- LidMapping.Store: writes to the table reach it in the order of the calls.
- MessageStore.Store.Put: row ids are numbers that only break ties, and serialization is opaque text.
- Hooks.Executed: handlers that register or remove hooks while a chain runs are not modelled, the lists are fixed during one execution; each handler run fires finitely many events, at most a number it fixes from its payload; one that would fire more counts as having thrown.
- Hook ids are kept as plugin, event and time, which is what their text is made of; priorities are whole numbers.
- Worker threads, timers and timeouts of the plugin sandbox: only whether they succeed.
- In-process plugins, whose failing onDisable skips the removal of hooks; unknown event names, which are refused before anything happens; the engine-type check of enable.
- A disable or unload that races an enable of the same plugin: the code takes no lock there.
- Property names with a meaning of their own in JavaScript (`__proto__`) in merged configurations.
- The network parts of the outbound guard and its final decision.
- Clients, migrations, seeds, configuration loading, encryption and tokens: no behaviour that spans functions.
