/** The message-listener registry of a chat client.

    A client keeps one entry per chat id: the future a caller of
    listen_message is waiting on and the filter that chat's next message must
    pass. A future is a one-shot completion slot. It starts Pending and is
    written once, by an incoming message (Resolved), by cancel_message_listener
    (Canceled) or by the timer of asyncio.wait_for (TimedOut).

    Every operation runs without awaiting, so on the single-threaded event
    loop each one is atomic; the model gives each one as a function from the
    state before to the state after. The done-callback a future carries is
    not run inside the operation that completes the future; the event loop
    runs it later, which is the separate Remove step. */
module Registry {

  type ChatId = int

  /** Identity of a future. Futures are compared by identity, and every call
      of listen_message creates a new one: a fresh id. */
  type FutureId = nat

  /** An incoming message; only the chat it belongs to matters to the registry. */
  datatype Message = Message(chatId: ChatId, id: int)

  /** The `filters` argument of listen_message and of a message handler:
      absent (None or any other value that is not callable) or a test on
      updates. */
  datatype Filter = NoFilter | Callable(test: Message -> bool)

  /** `await f(client, update) if callable(f) else True` */
  function Passes(f: Filter, m: Message): bool {
    match f
    case NoFilter => true
    case Callable(test) => test(m)
  }

  /** The state of a future. Canceled is the ListenerCanceled exception set
      by cancel_message_listener; TimedOut is the cancellation performed by
      asyncio.wait_for when its timeout expires. */
  datatype Slot = Pending | Resolved(message: Message) | Canceled | TimedOut {
    /** future.done() */
    predicate Done() {
      !Pending?
    }
  }

  /** A future and the chat id bound into its done-callback. */
  datatype Future = Future(chat: ChatId, slot: Slot)

  /** One value of msg_listeners: {"future": ..., "filters": ...} */
  datatype Listener = Listener(future: FutureId, filters: Filter)

  /** msg_listeners, the futures it has ever created, and the next fresh id. */
  datatype State = State(listeners: map<ChatId, Listener>, futures: map<FutureId, Future>, nextFuture: FutureId)

  const Initial: State := State(map[], map[], 0)

  /** What every reachable state satisfies: each listed future exists and its
      done-callback is bound to the chat it is listed under, and every future
      id in use is below the next fresh one. */
  ghost predicate Valid(s: State) {
    && (forall c :: c in s.listeners ==>
          s.listeners[c].future in s.futures && s.futures[s.listeners[c].future].chat == c)
    && (forall f :: f in s.futures ==> f < s.nextFuture)
  }

  /** `listener and not listener['future'].done()` */
  predicate HasPendingWaiter(s: State, chat: ChatId)
    requires Valid(s)
  {
    chat in s.listeners && !s.futures[s.listeners[chat].future].slot.Done()
  }

  /** The waiter registered for `chat`, if any. */
  function WaiterOf(s: State, chat: ChatId): FutureId
    requires Valid(s) && chat in s.listeners
  {
    s.listeners[chat].future
  }

  /** listen_message: create a fresh pending future and put it under `chat`
      with dict.update, replacing whatever was there. */
  function Listen(s: State, chat: ChatId, filters: Filter): (r: (State, FutureId))
    requires Valid(s)
    ensures Valid(r.0)
    // the new waiter is fresh, pending, and its done-callback is bound to chat
    ensures r.1 !in s.futures && r.0.futures.Keys == s.futures.Keys + {r.1}
    ensures r.0.futures[r.1] == Future(chat, Pending)
    // exactly one entry for chat, holding the new waiter and its filter
    ensures r.0.listeners.Keys == s.listeners.Keys + {chat}
    ensures r.0.listeners[chat] == Listener(r.1, filters)
    // other chats keep their entries
    ensures forall c :: c in s.listeners && c != chat ==> r.0.listeners[c] == s.listeners[c]
    // no existing future is written: a replaced waiter is not completed ...
    ensures forall f :: f in s.futures ==> r.0.futures[f] == s.futures[f]
    // ... and is no longer reachable from any entry
    ensures chat in s.listeners ==>
              forall c :: c in r.0.listeners ==> r.0.listeners[c].future != s.listeners[chat].future
  {
    var created := s.nextFuture;
    (State(s.listeners[chat := Listener(created, filters)],
           s.futures[created := Future(chat, Pending)],
           created + 1),
     created)
  }

  /** The exception a lookup `msg_listeners[chat_id]` raises for a missing key. */
  datatype KeyError = KeyError(chat: ChatId)

  datatype Result<T> = Ok(value: T) | Err(error: KeyError)

  datatype Option<T> = None | Some(value: T)

  /** remove_message_listener: delete the entry for `chat` only if it holds
      this very future. A missing key raises KeyError before anything changes. */
  function Remove(s: State, chat: ChatId, future: FutureId): (r: Result<State>)
    ensures r.Err? <==> chat !in s.listeners
    ensures r.Err? ==> r.error == KeyError(chat)
    // futures are never written, and no entry is ever added
    ensures r.Ok? ==> r.value.futures == s.futures && r.value.nextFuture == s.nextFuture
    ensures r.Ok? ==> r.value.listeners.Keys <= s.listeners.Keys
    // the entry goes exactly when it holds the identical future
    ensures r.Ok? ==> (chat in r.value.listeners <==> s.listeners[chat].future != future)
    // every other entry stays as it was
    ensures r.Ok? ==> forall c :: c in s.listeners && c != chat ==>
              c in r.value.listeners && r.value.listeners[c] == s.listeners[c]
    ensures r.Ok? && chat in r.value.listeners ==> r.value == s
    ensures Valid(s) && r.Ok? ==> Valid(r.value)
  {
    if chat !in s.listeners then Err(KeyError(chat))
    else if s.listeners[chat].future == future then Ok(s.(listeners := s.listeners - {chat}))
    else Ok(s)
  }

  /** Write a terminal value into a pending future. */
  function Complete(s: State, future: FutureId, slot: Slot): State
    requires future in s.futures
  {
    s.(futures := s.futures[future := s.futures[future].(slot := slot)])
  }

  /** cancel_message_listener: fail the pending waiter of `chat` with
      ListenerCanceled and remove its entry; a no-op when there is no entry or
      its future is already done. */
  function Cancel(s: State, chat: ChatId): (r: State)
    requires Valid(s)
    ensures Valid(r)
    ensures !HasPendingWaiter(s, chat) ==> r == s
    ensures HasPendingWaiter(s, chat) ==>
              var w := WaiterOf(s, chat);
              && r.futures.Keys == s.futures.Keys
              && r.futures[w] == Future(chat, Canceled)
              && (forall f :: f in s.futures && f != w ==> r.futures[f] == s.futures[f])
              && r.listeners.Keys == s.listeners.Keys - {chat}
              && (forall c :: c in r.listeners ==> r.listeners[c] == s.listeners[c])
              && r.nextFuture == s.nextFuture
  {
    if !HasPendingWaiter(s, chat) then s
    else
      var w := s.listeners[chat].future;
      var failed := Complete(s, w, Canceled);
      Remove(failed, chat, w).value
  }

  /** How an incoming message left resolve_listener: it completed a waiter,
      or it went on to the handler's user callback (exactly once), after
      calling client.clear_listener when a done waiter was still listed. */
  datatype Delivery = Consumed | FellThrough(clearRequested: bool)

  /** MessageHandler.resolve_listener */
  function Resolve(s: State, m: Message): (r: (State, Delivery))
    requires Valid(s)
    ensures Valid(r.0)
    ensures r.0.listeners == s.listeners && r.0.nextFuture == s.nextFuture
    ensures r.0.futures.Keys == s.futures.Keys
    // a pending waiter for the message's chat takes the message; the entry
    // stays until the future's done-callback runs
    ensures HasPendingWaiter(s, m.chatId) ==>
              var w := WaiterOf(s, m.chatId);
              && r.1 == Consumed
              && r.0.futures[w] == Future(m.chatId, Resolved(m))
              && (forall f :: f in s.futures && f != w ==> r.0.futures[f] == s.futures[f])
    // otherwise nothing is written and the user callback receives the message
    ensures !HasPendingWaiter(s, m.chatId) ==>
              r.0 == s && r.1 == FellThrough(m.chatId in s.listeners)
  {
    if HasPendingWaiter(s, m.chatId) then
      (Complete(s, s.listeners[m.chatId].future, Resolved(m)), Consumed)
    else
      (s, FellThrough(m.chatId in s.listeners))
  }

  /** The timer of asyncio.wait_for expiring: it cancels the future if it is
      not done yet. The entry stays until the done-callback runs. */
  function Timeout(s: State, future: FutureId): (r: State)
    requires Valid(s)
    ensures Valid(r)
    ensures r.listeners == s.listeners && r.nextFuture == s.nextFuture
    ensures r.futures.Keys == s.futures.Keys
    ensures forall f :: f in s.futures && f != future ==> r.futures[f] == s.futures[f]
    ensures future in s.futures && s.futures[future].slot.Pending? ==>
              r.futures[future] == Future(s.futures[future].chat, TimedOut)
    ensures !(future in s.futures && s.futures[future].slot.Pending?) ==> r == s
  {
    if future in s.futures && s.futures[future].slot.Pending? then Complete(s, future, TimedOut)
    else s
  }

  /** MessageHandler.check: while a pending waiter exists for the update's
      chat, its filter decides; otherwise the handler's own filter does. */
  function Check(s: State, handlerFilters: Filter, m: Message): (r: bool)
    requires Valid(s)
    ensures HasPendingWaiter(s, m.chatId) ==>
              (r <==> s.listeners[m.chatId].filters.NoFilter? || s.listeners[m.chatId].filters.test(m))
    ensures !HasPendingWaiter(s, m.chatId) ==>
              (r <==> handlerFilters.NoFilter? || handlerFilters.test(m))
  {
    if HasPendingWaiter(s, m.chatId) then Passes(s.listeners[m.chatId].filters, m)
    else Passes(handlerFilters, m)
  }

  /** What one message does to a message handler: the dispatcher first asks
      check and runs the handler's callback, resolve_listener, only when it
      says yes. */
  datatype Dispatched = Skipped | Handled(delivery: Delivery)

  function Dispatch(s: State, handlerFilters: Filter, m: Message): (r: (State, Dispatched))
    requires Valid(s)
    ensures Valid(r.0)
    // a pending waiter whose filter accepts the message takes it
    ensures HasPendingWaiter(s, m.chatId) && Passes(s.listeners[m.chatId].filters, m) ==>
              && r.1 == Handled(Consumed)
              && r.0.listeners == s.listeners
              && WaiterOf(s, m.chatId) in r.0.futures
              && r.0.nextFuture == s.nextFuture
              && r.0.futures.Keys == s.futures.Keys
              && r.0.futures[WaiterOf(s, m.chatId)] == Future(m.chatId, Resolved(m))
              && (forall f :: f in s.futures && f != WaiterOf(s, m.chatId) ==> r.0.futures[f] == s.futures[f])
    // a pending waiter whose filter rejects it stays pending, and the user
    // callback is not run either
    ensures HasPendingWaiter(s, m.chatId) && !Passes(s.listeners[m.chatId].filters, m) ==>
              r.1 == Skipped && r.0 == s
    // with no pending waiter, the handler's filter decides whether the user
    // callback runs, and nothing is written
    ensures !HasPendingWaiter(s, m.chatId) ==>
              r.0 == s &&
              r.1 == (if Passes(handlerFilters, m) then Handled(FellThrough(m.chatId in s.listeners)) else Skipped)
  {
    if Check(s, handlerFilters, m) then
      var (t, d) := Resolve(s, m);
      (t, Handled(d))
    else
      (s, Skipped)
  }

  /** The errors `await asyncio.wait_for(future, timeout)` raises. */
  datatype ListenError = ListenerCanceled | TimeoutError

  datatype Awaited = Answered(message: Message) | Raised(error: ListenError)

  /** What the caller of listen_message gets back once its future is done. */
  function Await(slot: Slot): (r: Awaited)
    requires slot.Done()
    ensures r.Answered? <==> slot.Resolved?
    ensures r.Answered? ==> r.message == slot.message
    ensures r == Raised(ListenerCanceled) <==> slot == Canceled
    ensures r == Raised(TimeoutError) <==> slot == TimedOut
  {
    match slot
    case Resolved(m) => Answered(m)
    case Canceled => Raised(ListenerCanceled)
    case TimedOut => Raised(TimeoutError)
  }

  /** One atomic operation on the registry. RemoveStep is also how the event
      loop runs a completed future's done-callback. */
  datatype Step =
    | ListenStep(chat: ChatId, filters: Filter)
    | RemoveStep(chat: ChatId, future: FutureId)
    | CancelStep(chat: ChatId)
    | ResolveStep(message: Message)
    | TimeoutStep(future: FutureId)

  /** A KeyError from remove_message_listener (raised inside a done-callback
      it is logged by the event loop) leaves the state unchanged. */
  function Next(s: State, step: Step): (r: State)
    requires Valid(s)
    ensures Valid(r)
  {
    match step
    case ListenStep(chat, filters) => Listen(s, chat, filters).0
    case RemoveStep(chat, future) =>
      (match Remove(s, chat, future)
       case Ok(t) => t
       case Err(_) => s)
    case CancelStep(chat) => Cancel(s, chat)
    case ResolveStep(m) => Resolve(s, m).0
    case TimeoutStep(future) => Timeout(s, future)
  }

  /** Any interleaving of operations, one after another. */
  function Run(s: State, steps: seq<Step>): (r: State)
    requires Valid(s)
    ensures Valid(r)
    decreases |steps|
  {
    if steps == [] then s else Run(Next(s, steps[0]), steps[1..])
  }
}
