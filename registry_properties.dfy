/** Properties of the listener registry over single operations and over any
    interleaving of them. */
module RegistryProperties {
  import opened Registry

  /** A future no entry of msg_listeners holds. */
  ghost predicate Unlisted(s: State, w: FutureId) {
    forall c :: c in s.listeners ==> s.listeners[c].future != w
  }

  /** At most one waiter per chat is built into the map; on top of that, no
      waiter is listed under two chats. */
  lemma NoWaiterUnderTwoChats(s: State, c1: ChatId, c2: ChatId)
    requires Valid(s) && c1 in s.listeners && c2 in s.listeners
    requires s.listeners[c1].future == s.listeners[c2].future
    ensures c1 == c2
  {
    assert s.futures[s.listeners[c1].future].chat == c1;
  }

  /** A step writes a future only while it is pending, and leaves it done. */
  lemma StepWritesOnlyPendingSlots(s: State, step: Step, f: FutureId)
    requires Valid(s) && f in s.futures
    ensures f in Next(s, step).futures
    ensures Next(s, step).futures[f].chat == s.futures[f].chat
    ensures Next(s, step).futures[f] != s.futures[f] ==>
              s.futures[f].slot.Pending? && Next(s, step).futures[f].slot.Done()
  {
    match step
    case ListenStep(chat, filters) =>
    case RemoveStep(chat, future) =>
    case CancelStep(chat) =>
    case ResolveStep(m) =>
    case TimeoutStep(future) =>
  }

  /** First writer wins: once a future is done, no later interleaving of
      operations writes it again. */
  lemma {:induction false} DoneSlotIsFinal(s: State, steps: seq<Step>, f: FutureId)
    requires Valid(s) && f in s.futures && s.futures[f].slot.Done()
    ensures f in Run(s, steps).futures && Run(s, steps).futures[f] == s.futures[f]
    decreases |steps|
  {
    if steps != [] {
      StepWritesOnlyPendingSlots(s, steps[0], f);
      DoneSlotIsFinal(Next(s, steps[0]), steps[1..], f);
    }
  }

  /** An unlisted pending future stays pending and unlisted through any step
      but its own timeout. */
  lemma StepKeepsUnlistedPending(s: State, step: Step, w: FutureId)
    requires Valid(s) && w in s.futures && s.futures[w].slot.Pending? && Unlisted(s, w)
    requires step != TimeoutStep(w)
    ensures w in Next(s, step).futures && Next(s, step).futures[w].slot.Pending?
    ensures Unlisted(Next(s, step), w)
  {
    match step
    case ListenStep(chat, filters) =>
    case RemoveStep(chat, future) =>
    case CancelStep(chat) =>
    case ResolveStep(m) =>
    case TimeoutStep(future) =>
  }

  lemma {:induction false} UnlistedOnlyTimesOut(s: State, steps: seq<Step>, w: FutureId)
    requires Valid(s) && w in s.futures && s.futures[w].slot.Pending? && Unlisted(s, w)
    requires TimeoutStep(w) !in steps
    ensures w in Run(s, steps).futures && Run(s, steps).futures[w].slot.Pending?
    ensures Unlisted(Run(s, steps), w)
    decreases |steps|
  {
    if steps != [] {
      StepKeepsUnlistedPending(s, steps[0], w);
      assert TimeoutStep(w) !in steps[1..] by {
        assert forall i :: 0 <= i < |steps[1..]| ==> steps[1..][i] == steps[i + 1];
      }
      UnlistedOnlyTimesOut(Next(s, steps[0]), steps[1..], w);
    }
  }

  /** A second listen_message for a chat whose waiter is still pending drops
      that waiter without completing it: no message, cancel or done-callback
      can reach it any more, and only its own timer can end the wait. */
  lemma ListenOrphansReplacedWaiter(s: State, chat: ChatId, filters: Filter, steps: seq<Step>)
    requires Valid(s) && HasPendingWaiter(s, chat)
    requires TimeoutStep(WaiterOf(s, chat)) !in steps
    ensures var w := WaiterOf(s, chat);
            var t := Run(Listen(s, chat, filters).0, steps);
            w in t.futures && t.futures[w].slot == Pending && Unlisted(t, w)
  {
    var w := WaiterOf(s, chat);
    UnlistedOnlyTimesOut(Listen(s, chat, filters).0, steps, w);
  }

  /** A cancel and a message for the same pending waiter: whichever runs
      first decides the waiter's outcome, and the other one finds it done. */
  lemma CancelResolveRace(s: State, m: Message)
    requires Valid(s) && HasPendingWaiter(s, m.chatId)
    // cancel first: the waiter is Canceled and the message goes to the user callback
    ensures var w := WaiterOf(s, m.chatId);
            var canceled := Cancel(s, m.chatId);
            && w in Resolve(canceled, m).0.futures
            && Resolve(canceled, m).0.futures[w].slot == Canceled
            && Resolve(canceled, m).1 == FellThrough(false)
    // message first: the waiter holds the message and cancel changes nothing
    ensures var w := WaiterOf(s, m.chatId);
            var resolved := Resolve(s, m);
            && resolved.1 == Consumed
            && resolved.0.futures[w].slot == Resolved(m)
            && Cancel(resolved.0, m.chatId) == resolved.0
  {
  }

  /** check and resolve_listener are separate awaits of the dispatcher. A
      cancel between them lets the user callback receive a message that only
      the waiter's filter accepted, not the handler's own. */
  lemma CancelBetweenCheckAndResolve(s: State, handlerFilters: Filter, m: Message)
    requires Valid(s) && HasPendingWaiter(s, m.chatId)
    requires Passes(s.listeners[m.chatId].filters, m) && !Passes(handlerFilters, m)
    ensures Check(s, handlerFilters, m)
    ensures !Check(Cancel(s, m.chatId), handlerFilters, m)
    ensures Resolve(Cancel(s, m.chatId), m).1 == FellThrough(false)
  {
  }

  /** cancel_message_listener removes the entry itself, so when the
      canceled future's done-callback runs later it finds no key and raises
      KeyError (unless a new waiter was listed in between). */
  lemma CancelThenDoneCallbackRaisesKeyError(s: State, chat: ChatId)
    requires Valid(s) && HasPendingWaiter(s, chat)
    ensures var w := WaiterOf(s, chat);
            var t := Cancel(s, chat);
            w in t.futures && Remove(t, t.futures[w].chat, w) == Err(KeyError(chat))
  {
  }

  /** A done-callback that runs after a new waiter replaced its own future
      removes nothing: the identity check spares the new waiter. */
  lemma StaleDoneCallbackSparesNewWaiter(s: State, m: Message, filters: Filter)
    requires Valid(s) && HasPendingWaiter(s, m.chatId)
    ensures var w := WaiterOf(s, m.chatId);
            var resolved := Resolve(s, m).0;
            var (relisted, w2) := Listen(resolved, m.chatId, filters);
            && w2 != w
            && Remove(relisted, relisted.futures[w].chat, w) == Ok(relisted)
            && relisted.listeners[m.chatId] == Listener(w2, filters)
            && relisted.futures[w].slot == Resolved(m)
  {
  }

  /** The life of a waiter a message answers: resolve_listener completes it,
      its done-callback then removes the entry, and the caller receives the
      message. */
  lemma ResolvedWaiterLifecycle(s: State, m: Message)
    requires Valid(s) && HasPendingWaiter(s, m.chatId)
    ensures var w := WaiterOf(s, m.chatId);
            var resolved := Resolve(s, m).0;
            var cleaned := Remove(resolved, resolved.futures[w].chat, w);
            && cleaned.Ok?
            && m.chatId !in cleaned.value.listeners
            && cleaned.value.futures[w].slot.Done()
            && Await(cleaned.value.futures[w].slot) == Answered(m)
  {
  }

  /** The life of a waiter whose timer expires: the future is cancelled, its
      done-callback removes the entry, and the caller gets TimeoutError. */
  lemma TimedOutWaiterLifecycle(s: State, chat: ChatId)
    requires Valid(s) && HasPendingWaiter(s, chat)
    ensures var w := WaiterOf(s, chat);
            var expired := Timeout(s, w);
            var cleaned := Remove(expired, expired.futures[w].chat, w);
            && cleaned.Ok?
            && chat !in cleaned.value.listeners
            && cleaned.value.futures[w].slot.Done()
            && Await(cleaned.value.futures[w].slot) == Raised(TimeoutError)
  {
  }

  /** A message the waiter's filter rejects leaves the waiter pending; a
      later message of the same chat that it accepts completes it. */
  lemma FilterMissThenMatch(s: State, handlerFilters: Filter, m1: Message, m2: Message)
    requires Valid(s) && HasPendingWaiter(s, m1.chatId) && m2.chatId == m1.chatId
    requires !Passes(s.listeners[m1.chatId].filters, m1)
    requires Passes(s.listeners[m1.chatId].filters, m2)
    ensures var first := Dispatch(s, handlerFilters, m1);
            var second := Dispatch(first.0, handlerFilters, m2);
            && first.1 == Skipped
            && HasPendingWaiter(first.0, m1.chatId)
            && second.1 == Handled(Consumed)
            && second.0.futures[WaiterOf(s, m1.chatId)].slot == Resolved(m2)
  {
  }
}
