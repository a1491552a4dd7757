# Message-listener registry of pyropatch, in Dafny

pyropatch patches a Pyrogram client so that a coroutine can wait for the
next message of a given chat. `listen_message` creates an asyncio future,
stores it with its filter in the client's `msg_listeners` dictionary under
the chat id, and awaits it with an optional timeout. The future's
done-callback, `remove_message_listener`, deletes the entry again, but only
if the entry still holds that very future. `cancel_message_listener` fails a
pending future with `ListenerCanceled`. The patched `MessageHandler` has two
parts:

- `check` picks the waiter's filter while a pending waiter exists for the
  chat, and the handler's own filter otherwise.
- `resolve_listener` either hands the message to the waiter or passes it on
  to the user callback.

The same file also holds `iter_messages`, a paging generator that asks the
server for windows of up to 201 contiguous message ids.

The project has four modules:

- `Registry` (`registry.dfy`) is the specification. It has the state
  (`msg_listeners` plus a table of futures, each identified by a `nat` id and
  carrying the chat bound into its done-callback) and one pure transition
  function per operation (`Listen`, `Remove`, `Cancel`, `Resolve`,
  `Timeout`, `Check`, `Dispatch`). It also defines `Await`, which gives what
  the awaiting caller receives, and `Next`/`Run`, which give any interleaving
  of the operations.
- `ListenClient` (`client.dfy`) has the classes `Client` and
  `MessageHandler`. Their methods update `msgListeners` and the futures in
  place, and each is proved to perform one `Registry` transition:
  `ListenMessage` performs `Listen`, `RemoveMessageListener` performs
  `Remove`, `CancelMessageListener` performs `Cancel`, `TimeOut` performs
  `Timeout`, and `MessageHandler.ResolveListener` performs `Resolve`.
- `RegistryProperties` (`registry_properties.dfy`) proves facts about
  sequences of operations:
  - a future is written once ("first writer wins");
  - a waiter that a second `listen_message` replaced can only time out;
  - a cancel that races a message ends one way or the other, with the second
    operation finding the future done;
  - after a cancel, the done-callback raises `KeyError`;
  - the full life of a waiter, answered or timed out.
- `Paging` (`paging.dfy`) has the `iter_messages` loop as a method over an
  abstract `fetch`. It is proved equal to a recursive description of the
  requests the loop makes, and the properties of those requests are lemmas.

Some parts of the model follow the code where the intended behaviour is
different:

- `listen_message` overwrites an earlier waiter for the same chat without
  completing it. The model does the same (`Listen`). The orphaned future
  keeps only its own timer (`RegistryProperties.ListenOrphansReplacedWaiter`).
  With no timeout, its caller waits for ever.
- Suppose a pending waiter's filter rejects a message. `check` then returns
  false, so the dispatcher runs neither `resolve_listener` nor the user
  callback. The message does not fall through to the user callback
  (`Registry.Dispatch`, `RegistryProperties.FilterMissThenMatch`).
- A completed future stays listed until its done-callback runs.
  `resolve_listener` and the timer leave `msgListeners` unchanged, and the
  later `Remove` step deletes the entry.
- `cancel_message_listener` removes the entry itself. When the canceled
  future's done-callback runs later, it looks up `self.msg_listeners[chat_id]`.
  If no new waiter was listed for that chat in between, the key is missing and
  the lookup raises `KeyError`. The event loop logs that error, and `Next`
  leaves the state unchanged for it
  (`RegistryProperties.CancelThenDoneCallbackRaisesKeyError`). If a new
  `listen_message` for the same chat ran first, the identity check fails and
  nothing is removed (`RegistryProperties.StaleDoneCallbackSparesNewWaiter`).

## Model

| member | source | states |
|---|---|---|
| Registry.Listen | pyropatch/listen/message.py:28-34 | the new future is fresh and pending, and its done-callback is bound to the chat; the chat holds exactly one entry, with the new future and the filter; other chats and every existing future are unchanged; a replaced waiter is not completed and no entry reaches it any more |
| Registry.Remove | pyropatch/listen/message.py:45-47 | KeyError exactly when the chat has no entry; otherwise the entry goes exactly when it holds the identical future, every other entry and every future stays, and validity is kept |
| Registry.Cancel | pyropatch/listen/message.py:50-55 | no change when there is no entry or its future is done; otherwise that future alone becomes Canceled, that chat's entry alone is removed, and validity is kept |
| Registry.Resolve | pyropatch/listen/message.py:125-132 | with a pending waiter, it alone becomes Resolved(message) and the message is consumed; otherwise nothing changes and the message goes to the user callback once, with clear_listener requested iff a done waiter is listed; msg_listeners is never changed |
| Registry.Timeout | pyropatch/listen/message.py:35 | the timer of wait_for moves only a pending future to TimedOut; everything else is unchanged |
| Registry.Check | pyropatch/listen/message.py:135-145 | with a pending waiter, the result is its filter's verdict (true when the filter is not callable); otherwise it is the handler filter's verdict (true when that is not callable) |
| Registry.Dispatch | pyropatch/listen/message.py:125-145 | a pending waiter whose filter accepts takes the message: that future alone becomes Resolved(message), and msg_listeners, the other futures and the next fresh id stay as they were; one whose filter rejects leaves the state as it was and the user callback is not run; with no pending waiter the handler's filter alone decides whether the user callback runs, and nothing is written |
| Registry.Await | pyropatch/listen/message.py:35 | the awaiting caller gets the message iff the future was resolved, ListenerCanceled iff it was canceled, and TimeoutError iff it timed out |
| Registry.Next | pyropatch/listen/message.py:24-55 | every operation, including a done-callback that raises KeyError, keeps the registry invariant |
| Registry.Run | pyropatch/listen/message.py:24-55 | any interleaving of operations keeps the registry invariant |
| RegistryProperties.NoWaiterUnderTwoChats | pyropatch/listen/message.py:29-34 | a future is listed under at most one chat, the chat bound into its done-callback |
| RegistryProperties.StepWritesOnlyPendingSlots | pyropatch/listen/message.py:52-54 | an operation changes a future only from pending to done, and never changes its chat |
| RegistryProperties.DoneSlotIsFinal | pyropatch/listen/message.py:127-128 | once a future is done, no interleaving of later operations writes it again |
| RegistryProperties.StepKeepsUnlistedPending | pyropatch/listen/message.py:32-34 | a pending future that no entry holds stays pending and unlisted through every operation except its own timeout |
| RegistryProperties.UnlistedOnlyTimesOut | pyropatch/listen/message.py:32-35 | through any interleaving without its own timeout, such a future stays pending and unlisted |
| RegistryProperties.ListenOrphansReplacedWaiter | pyropatch/listen/message.py:32-35 | after a second listen_message for the same chat, the replaced waiter stays pending through anything but its own timeout |
| RegistryProperties.CancelResolveRace | pyropatch/listen/message.py:50-55 | cancel first: the waiter is Canceled and the message goes to the user callback; message first: the waiter holds the message and a later cancel changes nothing |
| RegistryProperties.CancelBetweenCheckAndResolve | pyropatch/listen/message.py:125-145 | check may pass a message on the waiter's filter; a cancel before resolve_listener then sends that message to the user callback, although the handler's own filter rejects it |
| RegistryProperties.CancelThenDoneCallbackRaisesKeyError | pyropatch/listen/message.py:45-55 | the done-callback of a canceled future finds no entry and raises KeyError for its chat |
| RegistryProperties.StaleDoneCallbackSparesNewWaiter | pyropatch/listen/message.py:45-47 | when a new waiter has replaced a resolved one, the old done-callback removes nothing and the new entry stays |
| RegistryProperties.ResolvedWaiterLifecycle | pyropatch/listen/message.py:127-128 | a message resolves the waiter, its done-callback removes the entry, and the caller receives that message |
| RegistryProperties.TimedOutWaiterLifecycle | pyropatch/listen/message.py:35 | the timer expires, the done-callback removes the entry, and the caller gets TimeoutError |
| RegistryProperties.FilterMissThenMatch | pyropatch/listen/message.py:135-139 | a message the waiter's filter rejects leaves the waiter pending and is skipped; a later accepted message of that chat resolves it |
| ListenClient.Client.constructor | pyropatch/listen/message.py:32 | a client starts with no listeners and no futures (the empty starting `msg_listeners` is an assumption: the file only updates it and never creates it) |
| ListenClient.Client.ListenMessage | pyropatch/listen/message.py:28-34 | updates the fields in place exactly as Registry.Listen and returns the new future |
| ListenClient.Client.RemoveMessageListener | pyropatch/listen/message.py:45-47 | raises KeyError(chat) with no change exactly when Registry.Remove errs; otherwise leaves the state Registry.Remove gives |
| ListenClient.Client.CancelMessageListener | pyropatch/listen/message.py:50-55 | updates the fields in place exactly as Registry.Cancel, and its inner remove_message_listener call never raises |
| ListenClient.Client.TimeOut | pyropatch/listen/message.py:35 | updates the fields in place exactly as Registry.Timeout |
| ListenClient.MessageHandler.constructor | pyropatch/listen/message.py:120-122 | the handler keeps the filters it is built with |
| ListenClient.MessageHandler.ResolveListener | pyropatch/listen/message.py:125-132 | updates the client in place exactly as Registry.Resolve and reports the same delivery |
| ListenClient.MessageHandler.Check | pyropatch/listen/message.py:135-145 | on the client's current fields: while the update's chat has a pending waiter, the waiter's filter decides; otherwise the handler's own filter does (a filter that is not callable passes everything) |
| Paging.WindowSize | pyropatch/listen/message.py:69 | new_diff is the smaller of 200 and limit - current |
| Paging.YieldPage | pyropatch/listen/message.py:73-82 | each message of a page is yielded in order and moves current on by one; with skip_duplicate_files the first message raises TypeError before anything is yielded |
| Paging.IterMessages | pyropatch/listen/message.py:66-82 | the requests made and the messages yielded are exactly those of Paging.Requests; TypeError iff skip_duplicate_files is set and a first window is asked for, in which case only that first request was made |
| Paging.RequestsStep | pyropatch/listen/message.py:69-82 | one turn of the loop makes the first request, and the rest continue from current plus the number of messages returned |
| Paging.RequestsAdvance | pyropatch/listen/message.py:69-82 | the loop invariant carries over one page |
| Paging.RequestsAreWindows | pyropatch/listen/message.py:67-72 | every request asks for new_diff + 1 ids, between 2 and 201, from current on, with new_diff = min(200, limit - current) positive, and never for an id beyond limit; the first starts at offset |
| Paging.RequestsChained | pyropatch/listen/message.py:72-82 | each request starts where the one before it ended, one id on per message yielded |
| Paging.RequestsReachLimit | pyropatch/listen/message.py:69-71 | the generator ends only when offset plus the number of messages yielded has reached limit |
| Paging.OnePerIdRequestsAreContiguous | pyropatch/listen/message.py:67-82 | with one message per id, the requests together ask for offset, offset + 1, ... in order, each once |
| Paging.PagedCountValue | pyropatch/listen/message.py:67-82 | with one message per id, the loop asks for ids offset .. limit, except when limit - offset is a multiple of 201, where id limit is never asked for |
| Paging.LimitIdSkipped | pyropatch/listen/message.py:69-72 | limit 200 or 202 from offset 0 asks for id limit; limit 201 does not |
| Paging.InclusiveRequestsStep | pyropatch/listen/message.py:69-82 | one turn of the corrected loop |
| Paging.InclusiveRequestsAdvance | pyropatch/listen/message.py:69-82 | the corrected loop's invariant carries over one page |
| Paging.IterMessagesInclusive | pyropatch/listen/message.py:66-82 | the corrected loop makes exactly the requests of Paging.InclusiveRequests and yields what they return |
| Paging.InclusiveRequestsCoverToLimit | pyropatch/listen/message.py:66-82 | with one message per id, the corrected loop asks for exactly the ids offset .. limit, in order, each once |

## Left out

- Registry.Await: cancelling the awaiting caller's own task is not modelled. In that case `asyncio.wait_for` (line 35) cancels the future and raises `CancelledError` to the caller, not `TimeoutError`. The model's `TimedOut` slot and `TimeoutError` cover only the expiry of the timeout.
- ListenClient.Client.constructor: `msg_listeners` is created outside this file, so an empty starting registry is an assumption.
- The asyncio machinery (`loop.create_future`, `asyncio.wait_for` and its timer, callback scheduling) is not modelled directly. A timer firing is the explicit `TimeoutStep`, and a done-callback running is the explicit `RemoveStep`. Real time and scheduling order are not modelled.
- Resolving a chat handle with `get_chat` (lines 25-27) is left out because it is a network call, so chat ids are integers.
- `ask_message` is left out because it only sends a message over the network and then calls `listen_message`.
- The `get_messages` network call in `iter_messages` is the parameter `fetch`.
- Paging.IterMessages: the duplicate-file bookkeeping of `iter_messages` (lines 74-80) cannot run as written. `isinstance` is given a string where it needs a type, so Python raises TypeError on the first message. The model captures only that TypeError.
- Paging.IterMessages: it models the generator run to exhaustion. A consumer that stops iterating early sees a prefix of the yielded messages.
- Paging.Requests: it assumes a fetch that returns at least one message for every non-empty request. Without that, the loop asks for the same window for ever.
- Paging.IterMessagesInclusive: it omits the duplicate-file branch.
- `client.clear_listener` (line 131) is not part of this model. It is not defined in the file. The model records that it is called (`FellThrough(true)`), gives it no effect on the state, and assumes it returns. If the client has no such method, line 131 raises `AttributeError` and the user callback on line 132 never runs; the model does not capture that case.
- `start_clone_bot` and `Message.get_bot_token` are left out as client start-up and network I/O, and a regular-expression wrapper.
- The monkey-patching helpers `patch`/`patchable` and the `MessageHandler.__init__` rewiring are left out. `Registry.Dispatch` stands for the dispatcher calling `check` and then the handler's callback.
- Messages are reduced to their chat id and message id. Filters are arbitrary tests on them.

## Findings

| source | as written | input that shows it | evidently intended | confidence | as-written member | corrected member |
|---|---|---|---|---|---|---|
| pyropatch/listen/message.py:69-70 | the loop stops as soon as `limit - current <= 0`. A window ends at `limit` only when it is the short last one, so id `limit` is requested only when `limit - offset` is not a multiple of 201 | offset 0, limit 201, one message per id: the single window 0..200 brings current to 201 and the loop stops, so message 201 is never requested. With limit 200 or 202, message `limit` is requested | the ids offset .. limit, with limit included every time, as in every other case | medium, not executed | Paging.LimitIdSkipped | Paging.IterMessagesInclusive |
