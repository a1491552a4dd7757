/** The paging loop of Client.iter_messages: it asks the server for windows
    of contiguous message ids, starting at `offset`, until the window it
    would ask for next is empty, and yields the messages it gets back. The
    fetch itself (get_messages, a network call) is a parameter. */
module Paging {
  import opened Registry

  /** The largest `new_diff`; a request holds new_diff + 1 ids. */
  const PageSize: int := 200

  /** new_diff = min(200, limit - current) */
  function WindowSize(limit: int, current: int): (d: int)
    ensures d <= PageSize && d <= limit - current
    ensures d == PageSize || d == limit - current
  {
    if PageSize <= limit - current then PageSize else limit - current
  }

  /** list(range(lo, lo + n)) */
  function Range(lo: int, n: nat): (r: seq<int>)
    ensures |r| == n
    ensures forall i :: 0 <= i < n ==> r[i] == lo + i
  {
    seq(n, i => lo + i)
  }

  lemma RangeConcat(lo: int, n: nat, m: nat)
    ensures Range(lo, n) + Range(lo + n, m) == Range(lo, n + m)
  {
    var a, b := Range(lo, n) + Range(lo + n, m), Range(lo, n + m);
    assert |a| == |b|;
    forall i | 0 <= i < n + m ensures a[i] == b[i] {
      if i >= n {
        assert a[i] == Range(lo + n, m)[i - n];
      }
    }
  }

  /** A request: get_messages for the ids first .. first + size - 1. */
  datatype Window = Window(first: int, size: nat) {
    function Ids(): seq<int> {
      Range(first, size)
    }
  }

  /** The ids the windows ask for, in order. */
  function AllIds(windows: seq<Window>): seq<int> {
    if windows == [] then [] else windows[0].Ids() + AllIds(windows[1..])
  }

  /** Everything the requests returned, in order. */
  function Fetched(chat: ChatId, fetch: (ChatId, seq<int>) -> seq<Message>, requests: seq<Window>): seq<Message> {
    if requests == [] then [] else fetch(chat, requests[0].Ids()) + Fetched(chat, fetch, requests[1..])
  }

  /** A fetch that returns at least one message for any non-empty request;
      without it the loop asks for the same window for ever. */
  ghost predicate Progressing(chat: ChatId, fetch: (ChatId, seq<int>) -> seq<Message>) {
    forall ids: seq<int> :: |ids| > 0 ==> |fetch(chat, ids)| > 0
  }

  /** A fetch that returns one message per requested id, as get_messages
      does when it is given a list of ids (empty messages for missing ones). */
  ghost predicate OnePerId(chat: ChatId, fetch: (ChatId, seq<int>) -> seq<Message>) {
    forall ids: seq<int> :: |fetch(chat, ids)| == |ids|
  }

  /** The requests iter_messages makes from `current` on: while
      new_diff = min(200, limit - current) is positive, the ids
      current .. current + new_diff, after which current has moved on by one
      per message returned. */
  function Requests(chat: ChatId, fetch: (ChatId, seq<int>) -> seq<Message>, limit: int, current: int): seq<Window>
    requires Progressing(chat, fetch)
    decreases limit - current
  {
    var d := WindowSize(limit, current);
    if d <= 0 then []
    else
      var w := Window(current, d + 1);
      [w] + Requests(chat, fetch, limit, current + |fetch(chat, w.Ids())|)
  }

  /** One turn of the loop: the first request, and what is left after it. */
  lemma RequestsStep(chat: ChatId, fetch: (ChatId, seq<int>) -> seq<Message>, limit: int, current: int)
    requires Progressing(chat, fetch) && WindowSize(limit, current) > 0
    ensures var w := Window(current, WindowSize(limit, current) + 1);
            var rest := Requests(chat, fetch, limit, current + |fetch(chat, w.Ids())|);
            && Requests(chat, fetch, limit, current) == [w] + rest
            && Fetched(chat, fetch, [w] + rest) == fetch(chat, w.Ids()) + Fetched(chat, fetch, rest)
  {
    var w := Window(current, WindowSize(limit, current) + 1);
    var rest := Requests(chat, fetch, limit, current + |fetch(chat, w.Ids())|);
    assert ([w] + rest)[1..] == rest;
  }

  /** The loop invariant of iter_messages carried over one page: the request
      made and the messages yielded move from what is left to what is done. */
  lemma RequestsAdvance(chat: ChatId, fetch: (ChatId, seq<int>) -> seq<Message>, limit: int, current: int,
                        made: seq<Window>, yielded: seq<Message>)
    requires Progressing(chat, fetch) && WindowSize(limit, current) > 0
    ensures var w := Window(current, WindowSize(limit, current) + 1);
            var next := current + |fetch(chat, w.Ids())|;
            && made + Requests(chat, fetch, limit, current) == (made + [w]) + Requests(chat, fetch, limit, next)
            && yielded + Fetched(chat, fetch, Requests(chat, fetch, limit, current))
               == (yielded + fetch(chat, w.Ids())) + Fetched(chat, fetch, Requests(chat, fetch, limit, next))
  {
    RequestsStep(chat, fetch, limit, current);
  }

  /** The inner loop of iter_messages over one page: each message is yielded
      and moves current on by one, unless the duplicate-file branch is on,
      where the first message raises TypeError before anything is yielded. */
  method YieldPage(yielded: seq<Message>, current: int, messages: seq<Message>, skipDuplicateFiles: bool)
    returns (yielded': seq<Message>, current': int, typeError: bool)
    ensures typeError <==> skipDuplicateFiles && |messages| > 0
    ensures typeError ==> yielded' == yielded && current' == current
    ensures !typeError ==> yielded' == yielded + messages && current' == current + |messages|
  {
    yielded', current', typeError := yielded, current, false;
    for i := 0 to |messages|
      invariant current' == current + i
      invariant yielded' == yielded + messages[..i]
      invariant skipDuplicateFiles ==> i == 0
    {
      if skipDuplicateFiles {
        typeError := true;
        return;
      }
      yielded' := yielded' + [messages[i]];
      current' := current' + 1;
    }
    assert messages[..|messages|] == messages;
  }

  /** iter_messages, run until the generator is exhausted; `typeError` is the
      TypeError the duplicate-file branch raises on its first message, since
      it passes a string where isinstance needs a type. */
  method IterMessages(chat: ChatId, limit: int, offset: int, skipDuplicateFiles: bool,
                      fetch: (ChatId, seq<int>) -> seq<Message>)
    returns (yielded: seq<Message>, requests: seq<Window>, typeError: bool)
    requires Progressing(chat, fetch)
    ensures !typeError ==> requests == Requests(chat, fetch, limit, offset)
    ensures !typeError ==> yielded == Fetched(chat, fetch, requests)
    ensures typeError <==> skipDuplicateFiles && offset < limit
    ensures typeError ==> yielded == [] && requests == Requests(chat, fetch, limit, offset)[..1]
  {
    ghost var all := Requests(chat, fetch, limit, offset);
    ghost var allFetched := Fetched(chat, fetch, all);
    yielded, requests, typeError := [], [], false;
    var current := offset;
    while true
      invariant all == requests + Requests(chat, fetch, limit, current)
      invariant allFetched == yielded + Fetched(chat, fetch, Requests(chat, fetch, limit, current))
      invariant skipDuplicateFiles ==> requests == [] && current == offset
      decreases limit - current
    {
      var newDiff := WindowSize(limit, current);
      if newDiff <= 0 {
        return;
      }
      var window := Window(current, newDiff + 1);
      var messages := fetch(chat, window.Ids());
      RequestsAdvance(chat, fetch, limit, current, requests, yielded);
      requests := requests + [window];
      yielded, current, typeError := YieldPage(yielded, current, messages, skipDuplicateFiles);
      if typeError {
        assert all[..1] == [window];
        return;
      }
    }
  }

  /** A request as iter_messages makes it: new_diff + 1 ids from its first
      one on, with new_diff = min(200, limit - first) positive. */
  ghost predicate IsWindow(limit: int, w: Window) {
    WindowSize(limit, w.first) > 0 && w.size == WindowSize(limit, w.first) + 1
  }

  /** Every request holds 2 to 201 ids, never one beyond limit; the first
      starts at `current`. */
  lemma {:induction false} RequestsAreWindows(chat: ChatId, fetch: (ChatId, seq<int>) -> seq<Message>, limit: int, current: int)
    requires Progressing(chat, fetch)
    ensures var rs := Requests(chat, fetch, limit, current);
            forall k :: 0 <= k < |rs| ==>
              && 2 <= rs[k].size <= PageSize + 1
              && IsWindow(limit, rs[k])
              && rs[k].first + rs[k].size - 1 <= limit
    ensures var rs := Requests(chat, fetch, limit, current);
            rs != [] ==> rs[0].first == current && current < limit
    decreases limit - current
  {
    var d := WindowSize(limit, current);
    if d > 0 {
      var w := Window(current, d + 1);
      var next := current + |fetch(chat, w.Ids())|;
      RequestsAreWindows(chat, fetch, limit, next);
      var rs := Requests(chat, fetch, limit, current);
      assert rs == [w] + Requests(chat, fetch, limit, next);
      assert IsWindow(limit, w);
      forall k | 1 <= k < |rs| ensures rs[k] == Requests(chat, fetch, limit, next)[k - 1] {
      }
    }
  }

  /** Each request starts where the messages returned by the one before it
      ended: current moves on by one per yielded message. */
  lemma {:induction false} RequestsChained(chat: ChatId, fetch: (ChatId, seq<int>) -> seq<Message>, limit: int, current: int)
    requires Progressing(chat, fetch)
    ensures var rs := Requests(chat, fetch, limit, current);
            forall j, k :: 0 <= j && k == j + 1 && k < |rs| ==>
              rs[k].first == rs[j].first + |fetch(chat, rs[j].Ids())|
    decreases limit - current
  {
    var d := WindowSize(limit, current);
    if d > 0 {
      var w := Window(current, d + 1);
      var next := current + |fetch(chat, w.Ids())|;
      RequestsChained(chat, fetch, limit, next);
      RequestsAreWindows(chat, fetch, limit, next);
      var rs, rest := Requests(chat, fetch, limit, current), Requests(chat, fetch, limit, next);
      assert rs == [w] + rest;
      forall j, k | 0 <= j && k == j + 1 && k < |rs|
        ensures rs[k].first == rs[j].first + |fetch(chat, rs[j].Ids())|
      {
        if j > 0 {
          assert rs[j] == rest[j - 1] && rs[k] == rest[k - 1];
        }
      }
    }
  }

  /** The generator ends only once current, offset plus the number of
      messages yielded, has reached limit. */
  lemma {:induction false} RequestsReachLimit(chat: ChatId, fetch: (ChatId, seq<int>) -> seq<Message>, limit: int, current: int)
    requires Progressing(chat, fetch)
    ensures current + |Fetched(chat, fetch, Requests(chat, fetch, limit, current))| >= limit
    decreases limit - current
  {
    var d := WindowSize(limit, current);
    if d > 0 {
      var w := Window(current, d + 1);
      var next := current + |fetch(chat, w.Ids())|;
      RequestsReachLimit(chat, fetch, limit, next);
      RequestsStep(chat, fetch, limit, current);
    }
  }

  /** How many ids iter_messages asks for in all, from `current` on, when
      every fetch returns one message per id. */
  function PagedCount(limit: int, current: int): nat
    decreases limit - current
  {
    var d := WindowSize(limit, current);
    if d <= 0 then 0 else d + 1 + PagedCount(limit, current + d + 1)
  }

  /** With one message per id, the requests together ask for current,
      current + 1, ... in order, each once, PagedCount of them. */
  lemma {:induction false} OnePerIdRequestsAreContiguous(chat: ChatId, fetch: (ChatId, seq<int>) -> seq<Message>, limit: int, current: int)
    requires Progressing(chat, fetch) && OnePerId(chat, fetch)
    ensures AllIds(Requests(chat, fetch, limit, current)) == Range(current, PagedCount(limit, current))
    decreases limit - current
  {
    var d := WindowSize(limit, current);
    if d > 0 {
      var w := Window(current, d + 1);
      var next := current + |fetch(chat, w.Ids())|;
      assert next == current + d + 1;
      OnePerIdRequestsAreContiguous(chat, fetch, limit, next);
      var rs := Requests(chat, fetch, limit, current);
      assert rs[0] == w && rs[1..] == Requests(chat, fetch, limit, next);
      RangeConcat(current, d + 1, PagedCount(limit, next));
    }
  }

  /** The total the as-written loop asks for: limit - current + 1 ids, that is
      current .. limit, except when limit - current is a multiple of 201,
      where it stops one short of limit. */
  lemma {:induction false} PagedCountValue(limit: int, current: int)
    ensures PagedCount(limit, current) ==
              if limit - current <= 0 then 0
              else if (limit - current) % (PageSize + 1) == 0 then limit - current
              else limit - current + 1
    decreases limit - current
  {
    var d := WindowSize(limit, current);
    if d > 0 {
      PagedCountValue(limit, current + d + 1);
      if d == PageSize {
        assert (limit - current - (PageSize + 1)) % (PageSize + 1) == (limit - current) % (PageSize + 1);
      }
    }
  }

  /** The window 0 .. 200 brings current to 201 = limit, where new_diff is 0,
      so id 201 is never asked for; with limit 200 or 202 the last id is. */
  lemma LimitIdSkipped()
    ensures PagedCount(200, 0) == 201 && 200 in Range(0, PagedCount(200, 0))
    ensures PagedCount(202, 0) == 203 && 202 in Range(0, PagedCount(202, 0))
    ensures PagedCount(201, 0) == 201 && 201 !in Range(0, PagedCount(201, 0))
  {
    PagedCountValue(200, 0);
    PagedCountValue(201, 0);
    PagedCountValue(202, 0);
    assert Range(0, 201)[200] == 200;
    assert Range(0, 203)[202] == 202;
  }

  /** The requests of iter_messages with its stop test corrected to
      `limit - current < 0`: when current reaches limit exactly, one last
      window asks for the single id limit. */
  function InclusiveRequests(chat: ChatId, fetch: (ChatId, seq<int>) -> seq<Message>, limit: int, current: int): seq<Window>
    requires Progressing(chat, fetch)
    decreases limit + 1 - current
  {
    if limit - current < 0 then []
    else
      var w := Window(current, WindowSize(limit, current) + 1);
      [w] + InclusiveRequests(chat, fetch, limit, current + |fetch(chat, w.Ids())|)
  }

  /** One turn of the corrected loop. */
  lemma InclusiveRequestsStep(chat: ChatId, fetch: (ChatId, seq<int>) -> seq<Message>, limit: int, current: int)
    requires Progressing(chat, fetch) && limit - current >= 0
    ensures var w := Window(current, WindowSize(limit, current) + 1);
            var rest := InclusiveRequests(chat, fetch, limit, current + |fetch(chat, w.Ids())|);
            && InclusiveRequests(chat, fetch, limit, current) == [w] + rest
            && Fetched(chat, fetch, [w] + rest) == fetch(chat, w.Ids()) + Fetched(chat, fetch, rest)
  {
    var w := Window(current, WindowSize(limit, current) + 1);
    var rest := InclusiveRequests(chat, fetch, limit, current + |fetch(chat, w.Ids())|);
    assert ([w] + rest)[1..] == rest;
  }

  /** The invariant of the corrected loop carried over one page. */
  lemma InclusiveRequestsAdvance(chat: ChatId, fetch: (ChatId, seq<int>) -> seq<Message>, limit: int, current: int,
                                 made: seq<Window>, yielded: seq<Message>)
    requires Progressing(chat, fetch) && limit - current >= 0
    ensures var w := Window(current, WindowSize(limit, current) + 1);
            var next := current + |fetch(chat, w.Ids())|;
            && made + InclusiveRequests(chat, fetch, limit, current) == (made + [w]) + InclusiveRequests(chat, fetch, limit, next)
            && yielded + Fetched(chat, fetch, InclusiveRequests(chat, fetch, limit, current))
               == (yielded + fetch(chat, w.Ids())) + Fetched(chat, fetch, InclusiveRequests(chat, fetch, limit, next))
  {
    InclusiveRequestsStep(chat, fetch, limit, current);
  }

  /** iter_messages with the corrected stop test (the duplicate-file branch
      left out). */
  method IterMessagesInclusive(chat: ChatId, limit: int, offset: int,
                               fetch: (ChatId, seq<int>) -> seq<Message>)
    returns (yielded: seq<Message>, requests: seq<Window>)
    requires Progressing(chat, fetch)
    ensures requests == InclusiveRequests(chat, fetch, limit, offset)
    ensures yielded == Fetched(chat, fetch, requests)
  {
    ghost var all := InclusiveRequests(chat, fetch, limit, offset);
    ghost var allFetched := Fetched(chat, fetch, all);
    yielded, requests := [], [];
    var current := offset;
    while true
      invariant all == requests + InclusiveRequests(chat, fetch, limit, current)
      invariant allFetched == yielded + Fetched(chat, fetch, InclusiveRequests(chat, fetch, limit, current))
      decreases limit + 1 - current
    {
      var newDiff := WindowSize(limit, current);
      if limit - current < 0 {
        return;
      }
      var window := Window(current, newDiff + 1);
      var messages := fetch(chat, window.Ids());
      InclusiveRequestsAdvance(chat, fetch, limit, current, requests, yielded);
      requests := requests + [window];
      var typeError;
      yielded, current, typeError := YieldPage(yielded, current, messages, false);
    }
  }

  /** With one message per id, the corrected loop asks for exactly the ids
      current .. limit, in order, each once. */
  lemma {:induction false} InclusiveRequestsCoverToLimit(chat: ChatId, fetch: (ChatId, seq<int>) -> seq<Message>, limit: int, current: int)
    requires Progressing(chat, fetch) && OnePerId(chat, fetch)
    requires current <= limit + 1
    ensures AllIds(InclusiveRequests(chat, fetch, limit, current)) == Range(current, limit - current + 1)
    decreases limit + 1 - current
  {
    if limit - current >= 0 {
      var d := WindowSize(limit, current);
      var w := Window(current, d + 1);
      var next := current + |fetch(chat, w.Ids())|;
      assert next == current + d + 1;
      InclusiveRequestsCoverToLimit(chat, fetch, limit, next);
      var rs := InclusiveRequests(chat, fetch, limit, current);
      assert rs[0] == w && rs[1..] == InclusiveRequests(chat, fetch, limit, next);
      RangeConcat(current, d + 1, limit - next + 1);
    }
  }
}
