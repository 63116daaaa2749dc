# WhatsGate verification

A Dafny 4.11 model of the parts of WhatsGate that carry state, interleavings or arithmetic of their own,
with proofs of what they promise. `dafny verify dfyconfig.toml` checks the whole project.

WhatsGate runs on one JavaScript thread, so control changes hands only at an `await`. Protocols are therefore
state machines whose atomic steps are the stretches of code between two awaits. What lies outside the code
(the WhatsApp engine, HTTP endpoints, clocks, jitter, plugins, digests, and where it is said the database) is a
parameter or part of an action, so a theorem holds for whatever it does within what the model can express (what it
cannot is listed under "Left out"), except where a theorem says what it assumes: the ones on reconnects assume a
discipline of the callers, of the engine and of the database (below). Where the source updates objects in place, there is also a class with the same fields and loops, and each of its methods
is proved to do what the machine or a specification function says.

| files | what they model |
|---|---|
| `Batch`, `BatchSafety`, `BatchTheorems`, `BatchProgress`, `BatchCancels`, `BulkMessageService` | one bulk batch: its worker, any number of cancellers, and every row they store |
| `Template` | the `{word}` substitution of bulk messages over a JSON tree |
| `Session`, `SessionSafety`, `SessionTheorems`, `SessionRaces`, `SessionWrites`, `SessionOverlap`, `SessionRecovery`, `SessionService` | starting, stopping and reconnecting sessions |
| `HookInterfaces`, `StableSort`, `HookManager`, `HookChain`, `PluginLoader` | hook registrations, chains of handlers, the life of plugins |
| `Stringify`, `UniqueText`, `Idempotency`, `IdempotencyKeys` | `JSON.stringify` with a property list, and idempotency keys |
| `Webhook`, `WebhookDispatch`, `WebhookDelivery`, `WebhookService` | webhook delivery, directly and through the queue |
| `Rooms`, `EventsGateway` | WebSocket subscriptions as rooms |
| `Bits`, `Cidr`, `AuthService` | the IPv4 allow list of API keys |
| `Json`, `Strings`, `Powers` | shared definitions |

## Where the code does less than it seems to

Each of these is a theorem with the exact condition, or with a run that shows it.

- A cancelled batch need not stay cancelled: the worker's saves write its own copy of the row, which is never
  CANCELLED. A stored cancellation lasts exactly if the worker has made its last save (`BatchCancels.CancelLasts`),
  and every batch has a run in which it is cancelled and ends as PROCESSING (`BatchCancels.ProcessingForGood`).
- A cancel stops further sends exactly if the worker has already raised the flag (`BatchTheorems.CancelStopsSends`,
  `BatchCancels.CancelTooEarly`); and if the row the worker loaded was already cancelled, stored counters go
  negative (`BatchTheorems.BalanceAfterLoad`, `BatchCancels.NegativeCounter`).
- A batch that fails for want of an engine leaves its flag up for good (`BatchProgress.EnginelessBatch`); and a batch
  that has FAILED can still be cancelled (`BatchCancels.CancelAccepts`).
- At most one timer or reconnect under way per session holds only under a discipline. Each clause of it has its
  exact condition: a start is safe exactly if no start that has not made its engine, no stop or delete, and no
  `executeReconnect` that has not brought its engine up is running (`SessionRaces.StartSafe`); a stop, exactly if
  no `executeReconnect` is destroying the old engine (`SessionRaces.StopSafe`); a reconnect's failing status write,
  and a disconnect reported by any engine at any time, exactly if no attempts are left or nothing else can bring
  the session back (`SessionWrites.StatusSafe`, `SessionWrites.DisconnectSafe`). The adapter reports a disconnect
  from two events (`src/engine/adapters/whatsapp-web-js.adapter.ts:197-205`), so one engine can report twice.
- Even under the discipline two `executeReconnect`s can run at once (`SessionOverlap.TwoReconnects`): exactly if a
  timer fires while one that brought its engine up still awaits its status write (`SessionOverlap.ReconnectsOverlap`).
- A session with reconnect attempts left is forgotten, with nothing that could bring it back, exactly if the
  initialize of a start is rejected, an initialize resolves for a reconnect whose engine was shut down meanwhile, or a
  ready event comes after the last attempt (`SessionRecovery.ForgottenExactly`). The first start can do so, and every
  other start is refused then, until a stop (`SessionRecovery.RejectedStart`); and if a stop cannot shut the engine
  down, starts are refused, too (`SessionTheorems.StopEmptiesMap`).
- What a `webhook:before` plugin writes into the data of an event reaches all later webhooks, even if it stops its
  own; and if it makes the result null, or leaves no payload to sign for the queue, dispatch throws and no later
  webhook gets anything. A webhook gets what it would get alone exactly if no turn before it does either
  (`WebhookDispatch.DispatchIsolates`, `WebhookDispatch.StopperReachesNext`, `WebhookDispatch.NullResultAborts`).
- A payload that is null or missing is posted once at most in direct mode, and reported as an error even if it was
  accepted; as a job it is never posted and never ends in a hook (`Webhook.DirectDelivery`, `Webhook.QueueDelivery`).
- A handler that throws is the identity of a chain exactly if it has changed neither the data nor anything else that
  handlers share (`HookChain.ThrowerIsIdentity`).
- Unloading a plugin removes its handlers exactly if it was enabled (or had none): one in ERROR leaves them in
  every chain (`Plugins.PluginLoader.UnloadPlugin`).
- Direct and queued webhook deliveries end alike exactly for payloads that survive the queue, and then send other
  requests exactly where a webhook has a secret and its custom headers set another signature
  (`Webhook.ModesAgree`, `WebhookDispatch.DispatchModesAgree`). The API documentation calls the delivery id unique for each
  attempt; all attempts of a delivery share it (`WebhookDelivery.DirectHeadersSent`, `WebhookDelivery.QueueHeadersSent`).
- A message without `messageId` always has the key `msg_unknown` (`Idempotency.MessageKeys`). The session service
  dispatches received messages with their id in `id` (`src/modules/session/session.service.ts:310`).
- Keys whose parts are joined by underscores do not determine the parts (`IdempotencyKeys.TwoPartKeys`,
  `IdempotencyKeys.JoinsCollide`). The API documentation (`docs/06-api-specification.md:1131-1140`) ends keys with a
  timestamp; the code has none.
- Nested changes can be invisible to the payload hash (`WebhookDispatch.GroupUpdatesCollide`), although the source
  says that the hash covers what changed.
- Unsubscribing from a session also drops sessions whose ids go on with a colon (`Rooms.UnsubscribeExact`).

## Model

| member | source | states |
|---|---|---|
| BatchSafety.StepKeeps | src/modules/message/bulk-message.service.ts:100-221 | every step of the worker or of a canceller keeps the invariant of rows, copies, counters and attempts |
| BatchTheorems.StoredRows | src/modules/message/bulk-message.service.ts:147-217 | in every run, a stored row's results answer a prefix of the messages in order and its counters count them; what is sent is for a prefix of the messages, each once, with every string of its content rendered |
| BatchTheorems.StoredRowsBalance | src/modules/message/bulk-message.service.ts:58-64 | if the worker's load comes before the first cancelled row is stored, every stored row has sent + failed + pending + cancelled = total, none negative, whatever cancels do |
| BatchTheorems.BalanceAfterLoad | src/modules/message/bulk-message.service.ts:129-137 | from the worker's load on, all stored rows balance exactly if the loaded row was not cancelled (or the batch is empty) |
| BatchTheorems.LateWorkerUnbalances | src/modules/message/bulk-message.service.ts:113-173 | a worker that loaded a cancelled row stores a pending count of -1 five steps later |
| BatchTheorems.CancelStopsSends | src/modules/message/bulk-message.service.ts:113-154 | once a cancel has lowered the flag, no run begins another send exactly if the worker had raised the flag before, or there is nothing to send |
| BatchTheorems.CancelOverrun | src/modules/message/bulk-message.service.ts:132 | a worker that has not begun raises the flag again and sends |
| BatchTheorems.CancelIsPrompt | src/modules/message/bulk-message.service.ts:149-221 | after an effective cancel the worker finishes within five of its steps, however many messages are left |
| BatchTheorems.ClosingSave | src/modules/message/bulk-message.service.ts:210-217 | the closing save is never CANCELLED, is PROCESSING only with the flag down, and with the flag up is FAILED exactly if something failed and nothing was sent |
| BatchTheorems.UncancelledBatch | src/modules/message/bulk-message.service.ts:128-221 | without cancels and with an engine, a finished batch is worked off or stopped by an error, its row balances and its flag is gone |
| BatchTheorems.BatchTerminates | src/modules/message/bulk-message.service.ts:128-221 | a worker that gets 4n + 6 steps has finished, whatever cancels do |
| BatchProgress.ErrorStops | src/modules/message/bulk-message.service.ts:187-191 | with stopOnError, whatever cancels do, an error in a stored row is its last result, answers the last attempt, and no attempt ever follows it |
| BatchProgress.SendsGoOn | src/modules/message/bulk-message.service.ts:149-207 | after the answer to an attempt another one can follow exactly if there is another message, the flag is up, and the answer is not an error that stops the batch |
| BatchProgress.SendsAreSpaced | src/modules/message/bulk-message.service.ts:203-207 | every attempt but the first begins where a sleep ends |
| BatchProgress.SavedEveryTen | src/modules/message/bulk-message.service.ts:193-201 | while no cancel interferes, the stored row is PROCESSING and holds the worker's answers up to the last message whose number is a multiple of ten |
| BatchProgress.SavedBeforeClosing | src/modules/message/bulk-message.service.ts:197-201 | and before the closing save of a batch that is worked off, all answers are stored already |
| BatchProgress.EnginelessBatch | src/modules/message/bulk-message.service.ts:139-145 | without an engine an undisturbed batch ends as FAILED with all messages pending and the flag up |
| BatchProgress.EnginelessSends | src/modules/message/bulk-message.service.ts:139-145 | and nothing is sent, whatever cancels do |
| BatchCancels.CancelAccepts | src/modules/message/bulk-message.service.ts:100-122 | whatever happened since a cancel read its row, it is accepted exactly if that row was neither COMPLETED nor CANCELLED; then the flag is lowered and that row is stored with its pending messages cancelled, else flag and row stay |
| BatchCancels.CancelRunning | src/modules/message/bulk-message.service.ts:109-154 | a cancel that read a running batch's row ends its sends when it decides, and five steps later the worker is done |
| BatchCancels.CancelLasts | src/modules/message/bulk-message.service.ts:122-217 | a stored cancellation stays in all runs exactly if the worker has made its last save |
| BatchCancels.ProcessingForGood | src/modules/message/bulk-message.service.ts:210-217 | every batch has a run in which its row is cancelled and the worker then ends with it stored as PROCESSING |
| BatchCancels.NegativeCounter | src/modules/message/bulk-message.service.ts:129-173 | a cancel completed before the load leads to a stored pending count of -1 |
| BatchCancels.CancelTooEarly | src/modules/message/bulk-message.service.ts:114-132 | a cancel that lowers the flag before the worker raises it is followed by a send |
| BulkMessages.BulkMessageService.CreateBatch | src/modules/message/bulk-message.service.ts:52-86 | the stored row of a new batch: all pending, nothing sent |
| BulkMessages.BulkMessageService.CancelRead | src/modules/message/bulk-message.service.ts:100-103 | a canceller's read is the machine's step |
| BulkMessages.BulkMessageService.CancelDecide | src/modules/message/bulk-message.service.ts:109-120 | a COMPLETED or CANCELLED row is refused and nothing changes; for every other the flag is lowered and the copy closed; either way it is the machine's step |
| BulkMessages.BulkMessageService.CancelWrite | src/modules/message/bulk-message.service.ts:122 | a canceller's whole-row save is the machine's step |
| BulkMessages.BulkMessageService.Begin | src/modules/message/bulk-message.service.ts:129-137 | loading, raising the flag and the first save follow the machine |
| BulkMessages.BulkMessageService.SendOne | src/modules/message/bulk-message.service.ts:156-207 | one turn of the loop records the answer to message i, stops exactly at an error under stopOnError, and follows the machine |
| BulkMessages.BulkMessageService.SendAll | src/modules/message/bulk-message.service.ts:147-208 | the loop with its three ends: its results are the engine's answers in order (unknown kinds rejected), and under stopOnError all but the last are sent |
| BulkMessages.BulkMessageService.Finish | src/modules/message/bulk-message.service.ts:211-219 | the closing status, save and flag removal follow the machine |
| BulkMessages.BulkMessageService.ProcessBatch | src/modules/message/bulk-message.service.ts:128-221 | the worker, with cancellers taking turns at every await, is a run of the machine to its end; its results are the engine's answers in order, under stopOnError all but the last sent, and none without an engine |
| Template.Cut | src/modules/message/bulk-message.service.ts:226-228 | the scan cuts a string into literals and tokens so that every token is a segment of its own |
| Template.CutUnique | src/modules/message/bulk-message.service.ts:226-228 | there is only one such cut |
| Template.ReplaceIsRender | src/modules/message/bulk-message.service.ts:226-228 | substitution renders the cut: a token becomes the text found under its name, own before inherited, and stays if none or an empty one is; inserted values are never scanned again, no token is missed |
| Template.MatchSpec | src/modules/message/bulk-message.service.ts:227 | the pattern matches exactly where a brace, word characters and a closing brace stand |
| Template.ReplaceConcat | src/modules/message/bulk-message.service.ts:223-228 | the pass distributes over concatenation exactly if no token that it changes straddles the cut |
| Template.ProcessAt | src/modules/message/bulk-message.service.ts:230-248 | over the JSON tree: substitution commutes with looking up any path, so only strings change |
| Template.AppliedIs | src/modules/message/bulk-message.service.ts:223-251 | what is sent for a content is that content with every string rendered by its cut and nothing else changed, or as it is without variables; and nothing else is |
| SessionSafety.StepKeeps | src/modules/session/session.service.ts:150-438 | every disciplined step keeps: one timer at most, named by the state, and no second reconnect or engine beside it |
| SessionTheorems.OneReconnect | src/modules/session/session.service.ts:356-438 | in every disciplined run there is at most one live timer, the one state.timer names, at most one executeReconnect that has not brought its engine up, no timer beside that, and only the session's own engine is live |
| SessionOverlap.OverlapsExactly | src/modules/session/session.service.ts:383-408 | in any run, two executeReconnects run at once at some point exactly if at some point a timer fires beside a running one |
| SessionOverlap.ReconnectsOverlap | src/modules/session/session.service.ts:353-398 | in a disciplined run, a timer that fires makes two run at once exactly if one awaits its status write |
| SessionOverlap.TwoReconnects | src/modules/session/session.service.ts:353-398 | a disciplined run that does so |
| SessionTheorems.Backoff | src/modules/session/session.service.ts:356-386 | between resets the reconnects scheduled equal attempts, never exceed maxAttempts, and wait at least base(2^n - 1) and less than a second each on top |
| SessionTheorems.WaitsSum | src/modules/session/session.service.ts:370 | the bounds on the sum of doubling waits with jitter |
| SessionTheorems.ReconnectingEnds | src/modules/session/session.service.ts:360-371 | without a ready event or a start, only the remaining attempts' timers are ever made |
| SessionTheorems.AfterCancel | src/modules/session/session.service.ts:410-417 | from cancelReconnect to the next start no timer is made, and further engines are bounded by orphaned timers and reconnects in flight |
| SessionTheorems.StopLeavesNothing | src/modules/session/session.service.ts:419-438 | after a disciplined past, a stop leaves no timer and no live engine, and none is made in any continuation without a start, exactly if no start waits for its hook and no executeReconnect for the old engine's destroy |
| SessionTheorems.StopEmptiesMap | src/modules/session/session.service.ts:190-430 | such a stop shuts down the engine in the map; once that is answered the map is empty and stays so, and until then, or if it fails, every start is refused |
| SessionRaces.StartSafe | src/modules/session/session.service.ts:187-216 | a start is safe in all disciplined continuations exactly if no start before its engine, stop, delete, or executeReconnect before its engine is up is running; pending initializations of starts and status writes do not matter |
| SessionOverlap.StartAwaitsHook | src/modules/session/session.service.ts:190-202 | a run after which a start is not safe |
| SessionRaces.StopSafe | src/modules/session/session.service.ts:388-438 | a stop is safe exactly if no executeReconnect is waiting for the old engine's destroy |
| SessionOverlap.Destroys | src/modules/session/session.service.ts:388-394 | a run after which a stop is not safe |
| SessionWrites.StatusSafe | src/modules/session/session.service.ts:353-407 | a reconnect's failing status write is safe exactly if no attempts are left or nothing else can bring the session back |
| SessionOverlap.ComesUp | src/modules/session/session.service.ts:353-398 | a run after which such a failure is not safe |
| SessionWrites.DisconnectSafe | src/modules/session/session.service.ts:315-336 | a disconnect, of whatever engine and however often reported, is safe exactly if no attempts are left or nothing else can bring the session back; that of an engine that is up always is |
| SessionOverlap.Disconnects | src/modules/session/session.service.ts:315-386 | a run after which a second report is not safe |
| SessionRaces.OrphanedTimer | src/modules/session/session.service.ts:383 | scheduling leaves two timers running exactly if one was running and attempts are left |
| SessionRecovery.SchedulesExactly | src/modules/session/session.service.ts:315-408 | in any run, one timer is added, named by the state, under one attempt more, with the doubled delay and jitter, exactly at a disconnect or a failed step of a reconnect while attempts are left; otherwise none is, and only a fired timer or the one a stop finds goes |
| SessionRecovery.LimitsOfLastStart | src/modules/session/session.service.ts:205-214 | in any run, the limits by which a session backs off are those of the last start that came past its hook |
| SessionRecovery.ForgottenExactly | src/modules/session/session.service.ts:187-408 | in any run, a session with attempts left is at some point without timer, live engine and reconnect exactly if one of three things happens: a start's rejected initialize, a late initialize of an engine that was shut down, a ready event after the last attempt |
| SessionRecovery.NothingForgotten | src/modules/session/session.service.ts:315-408 | so a disciplined run without these never forgets a session: reconnects that fail are followed by others while attempts are left |
| SessionRecovery.RejectedStart | src/modules/session/session.service.ts:187-216 | the run in which the first start's initialize is rejected: the session is forgotten and every other start refused |
| SessionServices.SessionService.Perform | src/modules/session/session.service.ts:187-438 | each handler, on the maps that it updates, is the machine's step of its session and leaves every other session as it was |
| SessionServices.SessionService.PerformAll | src/modules/session/session.service.ts:187-438 | in any interleaving of any sessions, each session is where its own actions alone take it |
| SessionServices.SessionService.Serve | src/modules/session/session.service.ts:187-438 | over any interleaving of all sessions, each session whose own actions are disciplined has one reconnect at most and is not forgotten while attempts are left, and every session backs off |
| SessionServices.SessionService.ServeOn | src/modules/session/session.service.ts:410-438 | a session whose reconnect was cancelled is not revived by anything that happens to any session before its own next start |
| HookInterfaces.HookIdDetermines | src/core/hooks/hook-manager.service.ts:14 | an id tells plugin, event and millisecond, so only registrations alike in all three share one |
| StableSort.SortIsStable | src/core/hooks/hook-manager.service.ts:30 | sorting orders by priority and keeps the arrival order of equal priorities |
| StableSort.StableSortUnique | src/core/hooks/hook-manager.service.ts:30 | there is only one stable sort |
| StableSort.SortPush | src/core/hooks/hook-manager.service.ts:27-30 | pushing onto a sorted list and sorting again is sorting everything in arrival order |
| StableSort.FilterIs | src/core/hooks/hook-manager.service.ts:72 | filtering keeps exactly the elements that pass, each as often and in the order they are there |
| Hooks.HookManager.Register | src/core/hooks/hook-manager.service.ts:13-40 | adds one live registration; every event's list stays the stable sort of its live registrations |
| Hooks.HookManager.Unregister | src/core/hooks/hook-manager.service.ts:45-62 | removes the first registration with the id by priority and arrival, or nothing |
| Hooks.HookManager.FindIndex | src/core/hooks/hook-manager.service.ts:47 | the first position with the id, or the length |
| Hooks.HookManager.UnregisterPlugin | src/core/hooks/hook-manager.service.ts:67-78 | removes all of the plugin's registrations, also where ids collided, and keeps the others in order |
| Hooks.RunsBefore | src/core/hooks/hook-manager.service.ts:29-30 | of two live registrations of an event, the one of lower priority number, or of the same and earlier, stands first |
| Hooks.ListedIsLive | src/core/hooks/hook-manager.service.ts:13-78 | a list holds nothing but live registrations of its event |
| HookChain.TryHandler | src/core/hooks/hook-manager.service.ts:105-127 | the try block of one handler: what it leaves for the next, however the block is left, and when it returns or raises |
| HookChain.Execute | src/core/hooks/hook-manager.service.ts:84-131 | each handler is called once, in order, up to the first that stops; each is given the data of the result before it, or the data object as it was left, the result's data likewise, and exactly the throws and the errors beside results are swallowed |
| HookChain.CallAll | src/core/hooks/hook-manager.service.ts:104-130 | the loop with its stop, throw and catch computes the fold over the handlers |
| HookChain.RunConcat | src/core/hooks/hook-manager.service.ts:104-130 | running xs + ys is running xs and, if it goes on, ys on what xs left |
| HookChain.ThrowerIsIdentity | src/core/hooks/hook-manager.service.ts:97-127 | a handler that throws is the identity, whatever follows, exactly if it left the data and all else that handlers share as they were |
| HookChain.ErrorsIgnored | src/core/hooks/hook-manager.service.ts:110-127 | an error beside a result changes nothing but the failures: its data and its decision count |
| HookChain.CalledUpToStop | src/core/hooks/hook-manager.service.ts:104-130 | handlers are called in order, each once, up to the first that stops |
| Plugins.PluginLoader.LoadPlugin | src/core/plugins/plugin-loader.service.ts:95-110 | a known plugin is refused, a new one becomes installed |
| Plugins.PluginLoader.RegisterBuiltInPlugin | src/core/plugins/plugin-loader.service.ts:324-333 | a built-in plugin replaces what was there |
| Plugins.PluginLoader.EnablePlugin | src/core/plugins/plugin-loader.service.ts:121-176 | exactly when enabling succeeds, a failing status write included, and that just the handlers its callbacks ask for are registered, in order, behind all others; no disabled plugin gets any |
| Plugins.PluginLoader.DisablePlugin | src/core/plugins/plugin-loader.service.ts:178-211 | exactly when disabling succeeds, what is left registered either way, and that other plugins keep their handlers |
| Plugins.PluginLoader.TryDisable | src/core/plugins/plugin-loader.service.ts:188-210 | the same for its try block: the handlers go before the status is stored |
| Plugins.PluginLoader.UnloadPlugin | src/core/plugins/plugin-loader.service.ts:213-236 | the plugin is forgotten; its handlers are gone exactly if it was enabled or had none |
| Plugins.PluginLoader.DisabledNeverCalled | src/core/plugins/plugin-loader.service.ts:195-198 | no chain of any event holds a handler of a disabled plugin |
| Stringify.ListedIsProjected | src/modules/webhook/utils/idempotency.util.ts:18 | serialising with a list of names is serialising the value projected, at every depth, onto those names |
| Stringify.SameOnIsProjected | src/modules/webhook/utils/idempotency.util.ts:18 | two values have the same projection exactly if they agree at every depth on members with those names |
| UniqueText.TextUnique | src/modules/webhook/utils/idempotency.util.ts:18 | JSON text determines the value, even inside a longer text |
| UniqueText.EscapeStandsFor | src/modules/webhook/utils/idempotency.util.ts:18 | what is written for a character stands for that character and no other, and is short where it can be |
| Idempotency.HashIgnoresOrder | src/modules/webhook/utils/idempotency.util.ts:17-20 | the hashed text does not depend on the order of keys at any depth |
| Idempotency.KeyIgnoresOrder | src/modules/webhook/utils/idempotency.util.ts:31-78 | neither does the key, for any event |
| Idempotency.HashTextUnique | src/modules/webhook/utils/idempotency.util.ts:17-20 | the hashed text is that of the payload projected onto its own key names, and two payloads hash alike exactly if those projections are equal |
| Idempotency.HashSeesTopNames | src/modules/webhook/utils/idempotency.util.ts:17-20 | payloads with the same key names hash alike exactly if they agree on members with those names |
| Idempotency.NestedInvisible | src/modules/webhook/utils/idempotency.util.ts:17-20 | what a nested object says under other names than the payload's own does not reach the hash |
| Idempotency.MessageKeys | src/modules/webhook/utils/idempotency.util.ts:33-36 | id is read exactly where messageId is empty; without messageId the key is msg_unknown |
| IdempotencyKeys.MessageKeysExactly | src/modules/webhook/utils/idempotency.util.ts:33-36 | messages share a key exactly if their message ids agree, or where those are empty their ids |
| IdempotencyKeys.RevocationKeys | src/modules/webhook/utils/idempotency.util.ts:42-43 | revocations share a key exactly if they show the same message id |
| IdempotencyKeys.TwoPartKeys | src/modules/webhook/utils/idempotency.util.ts:38-69 | acks, session events and group events share a key with their like exactly if their two parts agree or differ by where an underscore splits them; without underscores in the second parts, exactly if both agree |
| IdempotencyKeys.JoinsCollide | src/modules/webhook/utils/idempotency.util.ts:61-62 | joins of different participants to different groups that share a key |
| IdempotencyKeys.KindsApart | src/modules/webhook/utils/idempotency.util.ts:31-78 | events of different kinds never share a key |
| IdempotencyKeys.OtherKeys | src/modules/webhook/utils/idempotency.util.ts:71-73 | other events share a key exactly if their names are alike up to dots and underscores and the digests of their data agree |
| Webhook.TriesStops | src/modules/webhook/webhook.service.ts:377-383 | the number of attempts is the position of the first accepted one, or else the limit |
| Webhook.DirectDelivery | src/modules/webhook/webhook.service.ts:331-384 | a readable payload: n = min(first success, max(1, retryCount)) POSTs, alike but for retry counts 0 to n - 1, a total wait of retryDelay n(n - 1)/2, and one end; any other payload: one POST at most, and an error |
| Webhook.QueueDelivery | src/modules/queue/processors/webhook.processor.ts:30-137 | the same for a job run by the queue, without the waits; a job without a payload that can be read posts nothing and has no end |
| Webhook.ModesAgree | src/modules/webhook/webhook.service.ts:239-384 | both modes end alike exactly for payloads that survive the queue; then they make equally many POSTs, and the same ones exactly if no foreign custom signature meets a secret |
| Webhook.SignedOverBody | src/modules/webhook/webhook.service.ts:240-244 | every request of either mode is signed over the very body it carries, unless the custom headers sign it |
| WebhookDispatch.DispatchModesAgree | src/modules/webhook/webhook.service.ts:207-326 | through dispatch, for whatever the plugins leave: nothing is delivered if they stop it or null the result; else direct delivery ends in exactly one webhook:delivered or webhook:error, both modes end alike exactly for portable payloads, and send the same exactly if they sign alike |
| WebhookDispatch.DispatchSegment | src/modules/webhook/webhook.service.ts:194-327 | a webhook gets what its own turn makes of the shared data as the turns before it left it, and nothing if one of those aborted dispatch |
| WebhookDispatch.DispatchJobs | src/modules/webhook/webhook.service.ts:239-266 | a webhook's jobs are those of its own turn over the shared data as the turns before it left it, and none if one of those aborted dispatch |
| WebhookDispatch.DispatchIsolates | src/modules/webhook/webhook.service.ts:194-327 | whatever its own turn is, a webhook gets what it would get alone exactly if no turn before it aborts dispatch and they leave the shared data as it was |
| WebhookDispatch.AbortSilences | src/modules/webhook/webhook.service.ts:219-240 | behind a turn that aborts, no webhook gets anything |
| WebhookDispatch.NullResultAborts | src/modules/webhook/webhook.service.ts:219-240 | runs in which a plugin's null result, or a missing payload with a secret and a queue, does so without touching the data |
| WebhookDispatch.StopperReachesNext | src/modules/webhook/webhook.service.ts:198-219 | a run in which the plugin that stops one delivery changes the body of the next |
| WebhookDispatch.Served | src/modules/webhook/webhook.service.ts:188 | the webhooks served are exactly the stored ones that are subscribed to the event or to *, each as often and in the order they are stored |
| WebhookDispatch.DispatchServes | src/modules/webhook/webhook.service.ts:188-327 | a webhook gets anything exactly if it is subscribed to the event or to * and no turn before it aborts dispatch, and that begins with its webhook:before |
| WebhookDelivery.DirectOrder | src/modules/webhook/webhook.service.ts:331-384 | direct delivery event by event: POSTs of the payload's text to the webhook, as many as attempts are made, the waits of 1, 2, ... times the delay between them, and then delivered and after, or error |
| WebhookDelivery.DirectTurn | src/modules/webhook/webhook.service.ts:198-384 | in direct mode, a pass is its webhook:before and then that delivery, with the configured delay, for whatever payload the plugins leave; nothing follows where they stop it |
| WebhookDelivery.DirectOdd | src/modules/webhook/webhook.service.ts:337-384 | the same for null, missing and unprintable payloads: refused, or posted once, and reported as an error |
| WebhookDelivery.QueueOrder | src/modules/queue/processors/webhook.processor.ts:30-137 | a job's run event by event: the POSTs of its attempts with their own retry count, and its end |
| WebhookDelivery.JobKeepsText | src/modules/webhook/webhook.service.ts:246-258 | a job carries the text of its payload, which survives the queue exactly if that text is not null |
| WebhookDelivery.QueueTurn | src/modules/webhook/webhook.service.ts:198-292 | in queue mode, for whatever the plugins leave: when a job is made, for whom and with how many attempts, and what is told |
| WebhookDelivery.DirectHeadersSent | src/modules/webhook/webhook.service.ts:225-345 | every header of every direct request: the webhook's own ones over key, delivery id, event, content type and user agent; the retry count, which they cannot set; and the signature, sha256= and the digest of the very body under the secret, unless they set one |
| WebhookDelivery.QueueHeadersSent | src/modules/webhook/webhook.service.ts:225-265 | the same of every request of a queued job, where they cannot set the signature either |
| WebhookDelivery.OwnHeadersAre | src/modules/webhook/webhook.service.ts:40-64 | a webhook's own headers are the string members of the object that is stored, or whose text is |
| WebhookDelivery.PayloadHolds | src/modules/webhook/webhook.service.ts:198-205 | every member of the payload that plugins are given, and that its data is the event's |
| WebhookDelivery.KeyOfEvent | src/modules/webhook/webhook.service.ts:191 | an event's key is that of any record with its data and the session's own id |
| WebhookDispatch.GroupUpdatesCollide | src/modules/webhook/utils/idempotency.util.ts:67-69 | group updates dispatched for one session whose changes name no top-level key share a key, whatever they say |
| WebhookDispatch.DispatchKeyIgnoresOrder | src/modules/webhook/webhook.service.ts:191 | events whose data differ only in key order are dispatched with one key |
| WebhookDispatch.PayloadAgrees | src/modules/webhook/webhook.service.ts:198-235 | the payload given to plugins and the headers name the same key, delivery id and event |
| WebhookDispatch.SessionNamed | src/modules/webhook/webhook.service.ts:191 | the key is made for the dispatching session, whatever sessionId the data holds |
| WebhookServices.WebhookService.ParseWebhookHeaders | src/modules/webhook/webhook.service.ts:40-64 | keeps exactly the members with string values |
| WebhookServices.WebhookService.PrepareHeaders | src/modules/webhook/webhook.service.ts:339-345 | the shared headers after an attempt's updates |
| WebhookServices.WebhookService.Attempt | src/modules/webhook/webhook.service.ts:337-369 | one POST, its update, and headers that make the next attempt send the same |
| WebhookServices.WebhookService.DeliverFrom | src/modules/webhook/webhook.service.ts:331-384 | an attempt and the retries it leads to, over headers that earlier attempts changed |
| WebhookServices.WebhookService.DeliverText | src/modules/webhook/webhook.service.ts:331-384 | for a readable payload, the recursion over a shared headers object makes exactly the attempts and waits of the specification |
| WebhookServices.WebhookService.DeliverWebhook | src/modules/webhook/webhook.service.ts:331-384 | and for every other payload, what happens before it throws |
| WebhookServices.WebhookService.Deliver | src/modules/webhook/webhook.service.ts:295-325 | the direct branch of a pass makes exactly the specified log |
| WebhookServices.WebhookService.Enqueue | src/modules/webhook/webhook.service.ts:239-292 | the queue branch: when signing throws, when the job is taken, and the hook of either case |
| WebhookServices.WebhookService.DispatchOne | src/modules/webhook/webhook.service.ts:194-326 | one pass makes exactly the webhook's segment and job over the data object as it is, leaves it as the plugins do, and throws exactly where the turn aborts |
| WebhookServices.WebhookService.Dispatch | src/modules/webhook/webhook.service.ts:183-328 | only webhooks subscribed to the event or to * have anything in the log, and if no pass throws all of them have, beginning with webhook:before; the log is made of their segments in order, over one data object that plugins may write into |
| WebhookServices.WebhookService.DispatchTo | src/modules/webhook/webhook.service.ts:194-327 | the loop makes the segments and jobs of these webhooks in order, up to the first that throws |
| WebhookServices.WebhookProcessor.Process | src/modules/queue/processors/webhook.processor.ts:30-137 | one attempt: POST, then delivered, or error on the final attempt only; nothing for a payload that cannot be read |
| WebhookServices.WebhookProcessor.RunJob | src/modules/queue/processors/webhook.processor.ts:30-137 | retried until success or until its attempts run out, a job does exactly what the specification says |
| Rooms.NamesInjective | src/modules/events/dto/ws-messages.dto.ts:107-109 | two patterns never share a room, whatever the session ids |
| Rooms.ParseBuild | src/modules/events/dto/ws-messages.dto.ts:107-116 | parsing gives a pattern exactly for its own room name, if the session id is neither empty nor holds a colon |
| Rooms.StepSimulates | src/modules/events/events.gateway.ts:98-160 | a client's rooms stay the rooms of its patterns under every subscribe and unsubscribe |
| Rooms.RunSimulates | src/modules/events/events.gateway.ts:98-160 | and so they do in every run |
| Rooms.HeldIsLive | src/modules/events/events.gateway.ts:98-160 | after any run a pattern is held exactly if it was subscribed to and not dropped since |
| Rooms.LeavesIsDrops | src/modules/events/events.gateway.ts:147-152 | the prefix test drops exactly the patterns of the session and of ids that go on with a colon, and * drops all |
| Rooms.UnsubscribeExact | src/modules/events/events.gateway.ts:142-160 | unsubscribing from s drops exactly the patterns of s, if and only if no held id goes on with a colon after s |
| Rooms.ColonFreeIds | src/modules/events/events.gateway.ts:147 | which never happens with colon-free ids |
| Rooms.OncePerPattern | src/modules/events/events.gateway.ts:188-202 | an event of session s reaches a client once per pattern it holds for s or * and the event or *, twice if s were * |
| EventsGateways.HandleSubscribe | src/modules/events/events.gateway.ts:98-140 | the two errors, which change nothing, and otherwise exactly the events that were asked for and can be subscribed to, as answer and as added patterns |
| EventsGateways.JoinAsked | src/modules/events/events.gateway.ts:102-140 | the checks and joins behind it, on rooms |
| EventsGateways.HandleUnsubscribe | src/modules/events/events.gateway.ts:142-168 | exactly which patterns it drops, for whatever was sent as session id |
| EventsGateways.SendTo | src/modules/events/events.gateway.ts:196 | one send gives one copy to every client in the room |
| EventsGateways.EmitToRooms | src/modules/events/events.gateway.ts:188-202 | every client gets one copy per pattern it holds that covers the event |
| Bits.AndMask | src/modules/auth/auth.service.ts:260-261 | a mask of ones above bit k rounds down to a multiple of 2^k |
| Cidr.MaskIs | src/modules/auth/auth.service.ts:260 | the signed shift and >>> 0 give 2^32 - 2^(32-bits), and 0 for bits = 0 |
| Cidr.MaskedIsPrefix | src/modules/auth/auth.service.ts:260-261 | the masked comparison holds exactly if the integer prefixes are equal, for all addresses and prefix lengths 0 to 32 |
| Cidr.ZeroNeedsItsCase | src/modules/auth/auth.service.ts:260 | without the case bits = 0 the wrapped shift would compare all 32 bits |
| Cidr.BlockIsInterval | src/modules/auth/auth.service.ts:260-261 | a block is an aligned interval of 2^(32-bits) addresses (section 3.1 of RFC 4632) |
| Cidr.BlocksNest | src/modules/auth/auth.service.ts:260-261 | blocks of one length partition the addresses, blocks of two lengths nest or are disjoint |
| Cidr.ParseIpSpec | src/modules/auth/auth.service.ts:267-288 | a string is an address exactly if, trimmed, it is four parts of one to three digits, each at most 255 |
| Cidr.PrintThenParse | src/modules/auth/auth.service.ts:267-288 | reading undoes dotted printing for every n < 2^32 |
| Cidr.TrimIs | src/modules/auth/auth.service.ts:268 | trimming takes white space off both ends, and all of it |
| Cidr.InCidrIs | src/modules/auth/auth.service.ts:238-262 | an address is in a written block exactly if that is an address, a slash and one or two digits for at most 32, and the address lies in the aligned interval of 2^(32-bits) around it |
| Cidr.PrintedEntry | src/modules/auth/auth.service.ts:215-262 | an entry written as address and bits lets in just its aligned block, none for more than 32 bits, and without bits only the address itself |
| AuthServices.ReduceFour | src/modules/auth/auth.service.ts:287 | the shifting fold gives a 2^24 + b 2^16 + c 2^8 + d despite negative intermediate values |
| AuthServices.IpToNumber | src/modules/auth/auth.service.ts:267-288 | the loop over the parts reads the address or gives none |
| AuthServices.IpInCidr | src/modules/auth/auth.service.ts:238-262 | the shifts and masks decide membership of the block |
| AuthServices.IsIpAllowed | src/modules/auth/auth.service.ts:215-231 | let in exactly if some entry of the list lets the address in |

## Left out

- Controllers, guards, DTO validation, logging, configuration, storage and SQL: plumbing without deep properties.
- The many `MessageService.send*` methods and the other wrappers around the engine: each is settled by one branch.
- Bulk batches: ids and existence checks, the lengths of delays, the construction of the engine call in `sendMessage` beyond which kinds it supports, a row deleted under its worker, and saves that fail: a rejected save at lines 137, 197 to 201 or 217 ends the worker with the flag still up, which `BatchTerminates` and `UncancelledBatch` do not cover. `batch.results` and the worker's `results` are one array in the source and one field here.
- Templates: variables that are not strings, and an own key `__proto__` in a message.
- Sessions: sessions that are not found, an engine factory that throws, the stored status and phone, and `onModuleInit` and `onModuleDestroy`. `stop` and `delete` are one action, as they treat the engine and the reconnect state alike.
- Hooks: registrations that change while a chain runs, thrown values that cannot be converted to a string (logging them throws again, out of the chain), and a clock that prints a colon.
- Plugins: registering through the context's hook manager for another plugin, registering in `onUnload` or `onConfigChange`, plugin operations that overlap, stored configuration, and reading manifests.
- DispatchIsolates: plugins that keep the data of an event and write into it after their handler has ended, or that write values into it that JSON does not have, are not modelled.
- Idempotency: SHA-256 is a parameter. Values with a `toJSON` method, functions and symbols in payloads; and the order of keys that mix surrogate pairs with private-use characters, which is by character here and by code unit in JavaScript.
- Webhooks: the digest of HMAC, time-outs and the endpoint are parameters; header names are compared as written, although HTTP ignores their case; a job's data is taken to come out of the queue as its JSON says, and the queue's own backoff times are not modelled; neither are payloads with a `toJSON` method or with properties that throw when read; of the other hooks, the names and order are modelled but not their data. The payload is serialised once per delivery, since dispatch changes nothing between attempts.
- Gateway: authentication of connections and `ping`; session ids that are objects with a `toString` of their own.
- API keys: expiry, roles, allowed sessions and usage counters.
