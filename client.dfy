/** The client and message-handler methods that change the registry in place,
    each proved to perform the transition of the same name in Registry. */
module ListenClient {
  import opened Registry

  class Client {
    /** msg_listeners */
    var msgListeners: map<ChatId, Listener>
    /** the event loop's futures created by listen_message, by identity */
    var futures: map<FutureId, Future>
    var nextFuture: FutureId

    function View(): State
      reads this
    {
      State(msgListeners, futures, nextFuture)
    }

    ghost predicate Valid()
      reads this
    {
      Registry.Valid(View())
    }

    constructor ()
      ensures Valid() && View() == Initial
    {
      msgListeners, futures, nextFuture := map[], map[], 0;
    }

    /** listen_message, up to the point where the caller suspends on the
        returned future */
    method ListenMessage(chat: ChatId, filters: Filter) returns (future: FutureId)
      requires Valid()
      modifies this
      ensures Valid()
      ensures (View(), future) == Listen(old(View()), chat, filters)
    {
      future := nextFuture;
      nextFuture := nextFuture + 1;
      futures := futures[future := Future(chat, Pending)];
      msgListeners := msgListeners[chat := Listener(future, filters)];
    }

    /** remove_message_listener; also the done-callback of every future */
    method RemoveMessageListener(chat: ChatId, future: FutureId) returns (raised: Option<KeyError>)
      requires Valid()
      modifies this
      ensures Valid()
      ensures raised.Some? <==> Remove(old(View()), chat, future).Err?
      ensures raised.Some? ==> raised.value == KeyError(chat) && View() == old(View())
      ensures raised.None? ==> View() == Remove(old(View()), chat, future).value
    {
      if chat !in msgListeners {
        return Some(KeyError(chat));
      }
      raised := None;
      if future == msgListeners[chat].future {
        msgListeners := msgListeners - {chat};
      }
    }

    /** cancel_message_listener */
    method CancelMessageListener(chat: ChatId)
      requires Valid()
      modifies this
      ensures Valid()
      ensures View() == Cancel(old(View()), chat)
    {
      if chat !in msgListeners {
        return;
      }
      var listener := msgListeners[chat];
      if futures[listener.future].slot.Done() {
        return;
      }
      futures := futures[listener.future := futures[listener.future].(slot := Canceled)];
      var raised := RemoveMessageListener(chat, listener.future);
      assert raised.None?;
    }

    /** The timer of asyncio.wait_for cancelling `future` */
    method TimeOut(future: FutureId)
      requires Valid()
      modifies this
      ensures Valid()
      ensures View() == Timeout(old(View()), future)
    {
      if future in futures && futures[future].slot.Pending? {
        futures := futures[future := futures[future].(slot := TimedOut)];
      }
    }
  }

  class MessageHandler {
    /** the handler's own filters */
    const filters: Filter

    constructor (filters: Filter)
      ensures this.filters == filters
    {
      this.filters := filters;
    }

    /** resolve_listener, the callback the handler is built with; the user
        callback it falls through to is reported, not run */
    method ResolveListener(client: Client, message: Message) returns (delivery: Delivery)
      requires client.Valid()
      modifies client
      ensures client.Valid()
      ensures (client.View(), delivery) == Resolve(old(client.View()), message)
    {
      var chat := message.chatId;
      if chat in client.msgListeners && !client.futures[client.msgListeners[chat].future].slot.Done() {
        var w := client.msgListeners[chat].future;
        client.futures := client.futures[w := client.futures[w].(slot := Resolved(message))];
        delivery := Consumed;
      } else {
        delivery := FellThrough(chat in client.msgListeners);
      }
    }

    /** check, which decides whether the dispatcher calls resolve_listener */
    function Check(client: Client, update: Message): (r: bool)
      reads client
      requires client.Valid()
      ensures HasPendingWaiter(client.View(), update.chatId) ==>
                (r <==> Passes(client.msgListeners[update.chatId].filters, update))
      ensures !HasPendingWaiter(client.View(), update.chatId) ==> (r <==> Passes(filters, update))
    {
      Registry.Check(client.View(), filters, update)
    }
  }
}
