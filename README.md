# Archie background service, chat orchestrator and data cleanup, in Dafny

This project models three parts of the Archie assistant (ArchitectonicAI):

- **The background service** (`src/services/claraBackgroundService.ts`), in `background_service.dfy`.
  - It tracks whether Archie runs in the background and counts ongoing background tasks.
  - It tells subscribed listeners when the mode changes.
  - It keeps one persistent notification while in the background, and its text reports the task count.
  - The model is a class with the source's four fields. The notification service it calls is a small `NotificationCenter` class that hands out fresh ids.
- **The chat orchestrator** (`src/services/claraApiService.ts`), in `chat_orchestration.dfy`.
  - It reconciles the requested provider with the provider registry.
  - It prepares a request: attachments, model selection and tools.
  - It hands the request to exactly one executor: the autonomous agent or the standard chat.
  - It turns every failure after the provider switch into a reply message: an abort reply or an apology.
  - The delegated services are opaque. What each one does during a request is an input (`Services`). The calls that start each step, run an executor, post a notice, switch the provider, stop, warm a model or touch the tool blacklist go into a ghost trace. So their order can be stated, and for the executor, switch, stop, warm-up and blacklist calls, their arguments too. The calls left out of the trace are listed under "## Left out".
  - The decision logic is pure functions (`Reconcile`, `FailureReply`, `CompletionText`, `Dispatch`). The `ArchieApiService` methods are proved to follow them.
- **The data cleanup** (`src/utils/clearClaraData.ts`), in `storage_cleanup.dfy`.
  - localStorage and sessionStorage are `WebStorage` objects: keys in index order plus items.
  - The index scans and the removal loops are imperative loops.
  - They are proved to remove exactly the keys whose name contains "archie" or "Archie", and to leave every other key and value alone.

Two support modules back these:

- `text.dfy` models JavaScript's `String.prototype.includes`, with a reference definition by position. It also renders a `nat` in decimal and reads it back.
- `wrappers.dfy` holds `Option`.

## Model

| member | source | states |
|---|---|---|
| BackgroundService.ArchieBackgroundService.constructor | src/services/claraBackgroundService.ts:9-12 | starts in the foreground, with no activity, no listeners and no held notification |
| BackgroundService.ArchieBackgroundService.SetBackgroundMode | src/services/claraBackgroundService.ts:24-37 | with the current value: mode, held id, notifications and listener calls are all unchanged. With a new value: the mode is set and every listener is called with it, in order. Entering: any held notification is removed and exactly one fresh notification with the "active" text is shown and held. Leaving: the held notification is removed and the id becomes null |
| BackgroundService.ArchieBackgroundService.CreatePersistentNotification | src/services/claraBackgroundService.ts:42-56 | the held notification, if any, is removed first; then a fresh id not shown before shows the "active" text and is held |
| BackgroundService.ArchieBackgroundService.RemovePersistentNotification | src/services/claraBackgroundService.ts:61-67 | the held notification, and only it, is removed from the centre, and the held id becomes null |
| BackgroundService.ArchieBackgroundService.UpdatePersistentNotification | src/services/claraBackgroundService.ts:72-89 | it changes nothing unless an id is held and the mode is background. In that case the old notification is replaced by exactly one new id showing `ActivityText(count)` |
| BackgroundService.ActivityText | src/services/claraBackgroundService.ts:77-79 | definition of the refreshed notification text; its properties are proved in `ActivityTextRoundTrip`, `ActivityTextReadyIffIdle` and `ActivityTextPlural` |
| BackgroundService.ActivityTextRoundTrip | src/services/claraBackgroundService.ts:77-79 | the activity text reads back as the count it was built from |
| BackgroundService.ActivityTextInjective | src/services/claraBackgroundService.ts:77-79 | different counts give different activity texts, and equal counts equal ones |
| BackgroundService.ActivityTextReadyIffIdle | src/services/claraBackgroundService.ts:77-79 | the "ready" text is shown exactly when the count is 0 |
| BackgroundService.ActivityTextPlural | src/services/claraBackgroundService.ts:78-78 | for a positive count, the text ends in "tasks." exactly when the count exceeds 1 |
| BackgroundService.ArchieBackgroundService.IncrementBackgroundActivity | src/services/claraBackgroundService.ts:94-98 | the count grows by exactly one; then the notification is refreshed as `UpdatePersistentNotification` states; mode and listeners unchanged |
| BackgroundService.ArchieBackgroundService.DecrementBackgroundActivity | src/services/claraBackgroundService.ts:103-107 | the count becomes max(0, count - 1); then the notification is refreshed; mode and listeners unchanged |
| BackgroundService.ArchieBackgroundService.HasBackgroundActivity | src/services/claraBackgroundService.ts:127-129 | definition: the count is positive; `GetStatus` states it as the `hasActivity` field |
| BackgroundService.ArchieBackgroundService.GetStatus | src/services/claraBackgroundService.ts:162-172 | the summary agrees with the fields, and `hasActivity` holds exactly when the count is positive (as `hasBackgroundActivity`, lines 127-129) |
| BackgroundService.ArchieBackgroundService.OnBackgroundModeChange | src/services/claraBackgroundService.ts:134-136 | the listener is appended to the list |
| BackgroundService.ArchieBackgroundService.Unsubscribe | src/services/claraBackgroundService.ts:138-143 | the list becomes the old list without the first occurrence of the listener |
| BackgroundService.IndexOf | src/services/claraBackgroundService.ts:139-139 | -1 exactly when the listener is absent; otherwise the position of its first occurrence |
| BackgroundService.WithoutFirst | src/services/claraBackgroundService.ts:138-143 | definition of the list after the unsubscribe closure; its properties are proved in `WithoutFirstRemovesOne`, `WithoutFirstKeepsOrder`, `SubscribeThenUnsubscribe` and `UnsubscribeTwice` |
| BackgroundService.WithoutFirstRemovesOne | src/services/claraBackgroundService.ts:138-143 | unsubscribing removes exactly one occurrence of a present listener, and nothing when the listener is absent |
| BackgroundService.WithoutFirstKeepsOrder | src/services/claraBackgroundService.ts:138-143 | the listeners before the removed one keep their positions; those after it move up by one, in order |
| BackgroundService.SubscribeThenUnsubscribe | src/services/claraBackgroundService.ts:134-143 | subscribing a new listener and then calling its unsubscribe closure restores the list |
| BackgroundService.UnsubscribeTwice | src/services/claraBackgroundService.ts:138-143 | for a listener subscribed at most once, a second unsubscribe is a no-op |
| BackgroundService.ArchieBackgroundService.NotifyListeners | src/services/claraBackgroundService.ts:149-157 | every listener is called once, in list order, with the current mode; a listener that raises does not stop the later ones |
| BackgroundService.ArchieBackgroundService.Reset | src/services/claraBackgroundService.ts:177-182 | the mode becomes foreground, the count 0, and listeners are told `false`. The held notification id and the listener list are untouched |
| BackgroundService.ResetKeepsNotification | src/services/claraBackgroundService.ts:177-182 | a scenario that asserts it: after entering the background, `reset` and then `setBackgroundMode(false)` (lines 24-37), the notification is still held and still shown |
| BackgroundService.NotificationCenter.AddNotification | src/services/claraBackgroundService.ts:47-53 | the notification sink these lines call: it shows the message under an id not shown before |
| BackgroundService.NotificationCenter.RemoveNotification | src/services/claraBackgroundService.ts:63-63 | the notification sink these lines call: it hides that id and nothing else |
| ChatOrchestration.ArchieApiService.constructor | src/services/claraApiService.ts:29-34 | the stop flag starts false |
| ChatOrchestration.ArchieApiService.SendChatMessage | src/services/claraApiService.ts:39-166 | with no client: it throws the "No API client configured" error before any switch or delegated call. When the switch fails: it throws the switch error, and the provider and client are unchanged. Otherwise the switch is done: the registry's client is a newly built one after a switch and is unchanged without one. The reply is `Dispatch` run on the client read before the switch, with the provider id read after it |
| ChatOrchestration.ArchieApiService.RunRequest | src/services/claraApiService.ts:55-165 | the try block and its catch: the reply and the calls made are those of `Dispatch` |
| ChatOrchestration.ArchieApiService.RunExecutor | src/services/claraApiService.ts:68-126 | the executor branch and its catch: the reply and the calls made are those of `Execute` |
| ChatOrchestration.Dispatch | src/services/claraApiService.ts:55-165 | definition of the try block and its catch, as the reply and the calls made; its properties are proved in `DispatchRunsOneExecutor`, `DispatchReturnsResult` and `DispatchCatchesFailures`, and `RunRequest` is proved to follow it |
| ChatOrchestration.Execute | src/services/claraApiService.ts:68-126 | definition of the executor branch and its catch; its properties are proved in `ExecuteRunsOneExecutor`, and `RunExecutor` is proved to follow it |
| ChatOrchestration.IsAutonomous | src/services/claraApiService.ts:69-69 | definition of `autonomousAgent?.enabled !== false`; `DispatchRunsOneExecutor` proves it picks the executor |
| ChatOrchestration.DispatchRunsOneExecutor | src/services/claraApiService.ts:69-125 | when preparation succeeds, exactly one executor call is made: the agent executor exactly when `autonomousAgent?.enabled !== false`, otherwise the standard chat executor, each with the given client and the prepared model, tools and attachments. When preparation fails, no executor is called |
| ChatOrchestration.ExecuteRunsOneExecutor | src/services/claraApiService.ts:69-125 | after preparation, the executor calls are exactly one agent call or one chat call, as the autonomy flag selects |
| ChatOrchestration.DispatchReturnsResult | src/services/claraApiService.ts:82-125 | a successful executor's message is returned unchanged |
| ChatOrchestration.DispatchCatchesFailures | src/services/claraApiService.ts:55-165 | any failure after the switch becomes the failure reply of the first failing step, in step order. The completion notice is the last call exactly when the agent executor succeeded, and it carries that result's counts |
| ChatOrchestration.ArchieApiService.EnsureCorrectProvider | src/services/claraApiService.ts:171-204 | carries out `Reconcile` on the registry: on a switch, the provider becomes current with a newly built client; otherwise the current provider and client are unchanged, and a failure is returned as the thrown error |
| ChatOrchestration.Requested | src/services/claraApiService.ts:174-174 | definition: `config.provider` is truthy; `Reconcile` proves the registry is left alone exactly when it does not hold or the requested provider is current |
| ChatOrchestration.Reconcile | src/services/claraApiService.ts:171-204 | it stays exactly when no provider is requested or the requested one is current. A switch goes to a registered, enabled provider with the requested id that is not the current one. Every failure is an Error starting "Failed to switch to provider <id>: " |
| ChatOrchestration.ReconcileMissing | src/services/claraApiService.ts:194-199 | a request for an unregistered provider, other than the current one, fails with "…: Provider <id> not found or not configured" |
| ChatOrchestration.ReconcileFound | src/services/claraApiService.ts:177-199 | a request for a registered provider chooses the first provider with that id: it switches when that provider is enabled, and otherwise fails with "…: Provider <name> is not enabled" |
| ChatOrchestration.FirstWithId | src/services/claraApiService.ts:178-178 | `find` as a position: -1 exactly when no provider has the id, else the first one that does |
| ChatOrchestration.WrapSwitchError | src/services/claraApiService.ts:197-199 | the rethrown error is an Error whose message starts "Failed to switch to provider <id>: " |
| ChatOrchestration.IsAbortError | src/services/claraApiService.ts:131-136 | definition of the abort test as written; `AbortSignature` proves what it reduces to, and `FailureReply` that it decides the reply's shape |
| ChatOrchestration.AbortSignature | src/services/claraApiService.ts:131-136 | a failure is an abort exactly when it is an Error whose message contains "aborted" or "AbortError", or whose name is "AbortError"; the "BodyStreamBuffer was aborted" test is subsumed |
| ChatOrchestration.ProviderText | src/services/claraApiService.ts:147-147 | definition of `${config.provider}`, which renders an undefined provider as "undefined"; used in the model field `FailureReply` states |
| ChatOrchestration.ModelText | src/services/claraApiService.ts:147-147 | definition of the text model, or "unknown" when it is falsy; used in the model field `FailureReply` states |
| ChatOrchestration.FailureReply | src/services/claraApiService.ts:138-164 | an abort gives an id ending "-aborted", empty content, aborted = true, the "stopped by user" error, model "<provider>:<text model or unknown>" and the temperature. Any other failure gives an id ending "-error", the apology, and the error's message or "Unknown error occurred". Content is empty exactly for aborts |
| ChatOrchestration.StepCount | src/services/claraApiService.ts:97-97 | definition of the step count, 1 when `agentSteps` is missing or 0; its defaults are proved in `CompletionDefaults` |
| ChatOrchestration.ToolCount | src/services/claraApiService.ts:96-96 | definition of the tool count: the length of `toolsUsed`, 0 when it is missing; its defaults are proved in `CompletionDefaults` |
| ChatOrchestration.CompletionText | src/services/claraApiService.ts:96-103 | definition of the completion notice text; its properties are proved in `CompletionTextRoundTrip` and `CompletionMentionsTools` |
| ChatOrchestration.CompletionTextRoundTrip | src/services/claraApiService.ts:96-103 | the completion text reads back as the step count and tool count it was built from |
| ChatOrchestration.CompletionDefaults | src/services/claraApiService.ts:96-97 | a missing or zero `agentSteps` counts as one step; a missing `toolsUsed` counts as no tools |
| ChatOrchestration.CompletionMentionsTools | src/services/claraApiService.ts:101-101 | " using K tools" is present exactly when K > 0 |
| ChatOrchestration.ProviderRegistry.UpdateProvider | src/services/claraApiService.ts:192-192 | the provider service these lines call: it makes the provider current and builds a new client for it |
| ChatOrchestration.ArchieApiService.Stop | src/services/claraApiService.ts:250-266 | it always sets the stop flag and stops the agent; it aborts the stream only when a client exists and has `abortStream` |
| ChatOrchestration.ArchieApiService.PreloadModel | src/services/claraApiService.ts:271-289 | without a client, a text model or a local provider, it does nothing. Otherwise it selects a model and warms it on the current client; a selection or warm-up failure propagates |
| ChatOrchestration.ArchieApiService.RecordToolSuccess | src/services/claraApiService.ts:294-302 | records the success attributed to the current provider's id, or to "unknown" |
| ChatOrchestration.ArchieApiService.ClearBlacklistedTools | src/services/claraApiService.ts:307-320 | only with both a current provider and a client: it clears that provider's blacklist and then posts the "Tools Reset" notice naming the provider; otherwise it does nothing |
| Text.ContainsIffOccurs | src/utils/clearClaraData.ts:22-23 | `includes` agrees with its reference definition: the pattern occurs at some position |
| StorageCleanup.LocalKeyMatches | src/utils/clearClaraData.ts:21-26 | definition of the localStorage test as written; `LocalKeyMatchesIsArchieKey` proves what it reduces to |
| StorageCleanup.SessionKeyMatches | src/utils/clearClaraData.ts:41-44 | definition of the sessionStorage test as written; `SessionKeyMatchesIsArchieKey` proves what it reduces to |
| StorageCleanup.LocalKeyMatchesIsArchieKey | src/utils/clearClaraData.ts:21-26 | the localStorage test accepts exactly the keys containing "archie" or "Archie"; the truthiness test and the two exact names add nothing |
| StorageCleanup.SessionKeyMatchesIsArchieKey | src/utils/clearClaraData.ts:41-44 | the sessionStorage test accepts exactly the keys containing "archie" or "Archie" |
| StorageCleanup.CaseSensitiveMatch | src/utils/clearClaraData.ts:21-23 | matching is case-sensitive: a key without a lower-case 'r' never matches |
| StorageCleanup.CaseSensitiveExamples | src/utils/clearClaraData.ts:21-23 | "ARCHIE_x" survives; "myArchieChats" is removed |
| StorageCleanup.WebStorage.Length | src/utils/clearClaraData.ts:19-19 | definition of `length`, the bound of the scan whose result `CollectKeys` states |
| StorageCleanup.WebStorage.Key | src/utils/clearClaraData.ts:20-20 | definition of `key(i)`, null past the end; used by the scan whose result `CollectKeys` states |
| StorageCleanup.CollectKeys | src/utils/clearClaraData.ts:18-29 | the index scan (here and at lines 38-47) returns every key that passes the test, in index order |
| StorageCleanup.RemoveKeys | src/utils/clearClaraData.ts:32-35 | removing the collected keys one by one (here and at lines 49-52) leaves exactly the other keys, in order, with their values |
| StorageCleanup.PurgeStore | src/utils/clearClaraData.ts:18-35 | scan then remove: the store keeps exactly its non-Archie keys, in order, with their values |
| StorageCleanup.Purged | src/utils/clearClaraData.ts:18-35 | the items left keep exactly the non-Archie keys, with their old values |
| StorageCleanup.WebStorage.RemoveItem | src/utils/clearClaraData.ts:33-33 | the Web Storage call this line makes: it drops that key and its item, and leaves the other keys in order (an assumption, see "## Left out") |
| StorageCleanup.WebStorage.Clear | src/utils/clearClaraData.ts:116-116 | the Web Storage call this line makes: it empties the store |
| StorageCleanup.ClearAllArchieData | src/utils/clearClaraData.ts:7-62 | if the stats read or the session wipe fails, it returns false and both stores are unchanged. Otherwise it returns true, and each store keeps exactly its non-Archie keys and values |
| StorageCleanup.ClearArchieDataWithConfirmation | src/utils/clearClaraData.ts:67-98 | if the stats read fails or the user declines, it returns false and clears nothing. Otherwise it returns the result of `clearAllArchieData`, with that function's effect |
| StorageCleanup.EmergencyClearArchieData | src/utils/clearClaraData.ts:104-130 | both stores end empty |

## Left out

- The pass-through provider methods of `ArchieApiService` (lines 207-245 of `claraApiService.ts`): `getProviders`, `getModels`, `getCurrentProviderModels`, `getPrimaryProvider`, `setPrimaryProvider`, `updateProvider`, `healthCheck`, `testProvider`, `getCurrentClient` and `getCurrentProvider`. Each only forwards to the provider service, which is not part of this model.
- Failures of `getProviders` and `updateProvider` inside the switch's try block: the registry's provider list is read directly and its update always succeeds. The internals of `updateProvider` are reduced to "becomes current and builds a new client".
- The delegated services are not part of this model: attachment processing, model selection and prefix stripping, the tool registry, the streaming policy, the agent and chat executors, and `isLocalProvider`. Their outcomes during a chat request are parameters. The system prompt, the conversation history and the streaming callback are only passed through, so they are left out.
- `Date.now()` and `new Date()` are not modelled as clocks: the reply id uses a `now: nat` parameter, and the timestamp field is left out.
- Logging (`console.*`) is left out, and so are the notification type, title, duration and sound of the background notifications. The notification service is reduced to a map from id to message.
- `temperature` is a JavaScript number, passed through unchanged as a `real`. No floating-point arithmetic is done on it.
- `recoveryService` (`TokenLimitRecoveryService`) is left out: it is created and never used.
- `isInBackground`, `getBackgroundActivityCount` and `onBackgroundNotificationCreated` are left out. They are plain getters or logging only.
- The export of singletons and the `window` debugging hooks are left out.
- Concurrency between the `await` points is left out: each async operation runs to completion with nothing interleaved.
- Notification ids are `nat`s issued by the notification centre. The truthiness test on `persistentNotificationId` is read as "an id is held", because ids are never empty.
- Listeners are values that either return or raise. What a listener does with the mode is outside the model. The calls made are recorded in a ghost log.
- `clearAllArchieData`'s IndexedDB statistics read and session wipe are two success flags, and the database contents are not modelled. A failure of a Web Storage call is not modelled either.
- `alert`, `confirm`, `window.location.reload` and `setTimeout` are left out: the user's answer to `confirm` is a parameter.
- In `emergencyClearArchieData`, `indexedDB.deleteDatabase` is left out, and so is its catch block: nothing in the modelled part throws.
- ChatOrchestration.ArchieApiService.PreloadModel: the code has no try/catch, so a failing model selection or warm-up propagates to the caller; nothing catches it.
- ChatOrchestration.CompletionText: the tool count is the length of `toolsUsed`, so duplicates count.
- ChatOrchestration.ArchieApiService.SendChatMessage: the stop flag is never reset by a new send. It is written by `stop` and read nowhere, and the model follows the code.
- BackgroundService.ArchieBackgroundService.Reset: it does not remove the persistent notification. After a reset in background mode the notification stays shown, and a later `setBackgroundMode(false)` no longer removes it because the mode is already foreground. The model follows the code, and the method `ResetKeepsNotification` walks through this sequence.
- Calls left out of the orchestrator's trace: `getProviders` (line 177 of `claraApiService.ts`), `extractModelId` (line 63), `shouldDisableStreamingForTools` (line 109), the `getCurrentProvider` reads at lines 92 and 121, and `isLocalProvider` (line 279). Their results appear only as the values the model passes on.
- The preparation calls `ProcessAttachments`, `SelectModel` and `ListTools` carry no arguments. The model does not state that `processFileAttachments` receives `attachments || []` (line 57), or that `selectAppropriateModel` receives the processed attachments (line 60).
- Failures of `addInfoNotification` (line 75), `addCompletionNotification` (line 99) and `shouldDisableStreamingForTools` (line 109) are left out. In the code, such a throw is caught at line 127 and turns the reply into the "-error" apology, even after the agent executor succeeded. `Execute` treats these calls as never throwing.
- StorageCleanup.WebStorage.RemoveItem: the Web Storage standard fixes the order of keys only while the number of keys does not change. The model assumes that removing a key keeps the others in their relative order, so the key order stated by `RemoveItem`, `RemoveKeys`, `PurgeStore` and `ClearAllArchieData` rests on that assumption. The set of keys left and their values do not depend on it.
- BackgroundService.ArchieBackgroundService.NotifyListeners: listeners are assumed not to call back into the service while they are being notified. In the code, `forEach` (line 150 of `claraBackgroundService.ts`) walks the live array. A listener that calls its own unsubscribe closure splices that array (line 141), so the next listener is skipped. A listener that calls `setBackgroundMode` or `reset` changes `isBackgroundMode`, which line 152 reads again for each later listener. In those cases not every listener is called once with the same mode.
- BackgroundService.ArchieBackgroundService: notifications are assumed never to be dismissed from outside the service. The invariant `Valid` holds a shown notification for a held id, and every method requires it. The code also runs when the held id is already gone: `removeNotification` is then called on a missing id.
- ChatOrchestration.ArchieApiService.Stop: the delegated calls outside a chat request are assumed to return. These are the agent's `stop` (line 255 of `claraApiService.ts`) and `abortStream` (line 262). In the code, a throw from the agent's `stop` propagates and `abortStream` is never called. The same assumption covers `RecordToolSuccess` (`recordToolSuccess`, line 296). It covers `ClearBlacklistedTools` (`clearBlacklistedTools`, line 312, and the notice at line 314): a throw at line 312 would skip the "Tools Reset" notice, which the model always posts. It covers `PreloadModel`'s `isLocalProvider` (line 279), whose answer is a parameter: a throw there would propagate before any model is selected.
