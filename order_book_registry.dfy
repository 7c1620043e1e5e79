/**
 * The state of `OrderBookTracker` (hummingbot/core/data_type/order_book_tracker.py)
 * as one value, `Registry`, and each step the tracker takes as a function on
 * it. The methods of the tracker class are proved against these functions;
 * the properties the tracker promises are proved here about the functions.
 *
 * What an awaited data-source call returns is a parameter, with `None`
 * standing for "raised an exception". The `OrderBook` itself is abstract: its
 * snapshot uid and a log of the operations the tracker asked of it.
 */
module OrderBookRegistry {
  import opened Wrappers
  import opened OrderBookMessages
  import BoundedDeque
  import PairLists

  /** `PAST_DIFF_WINDOW_SIZE`. */
  const PastDiffWindowSize: nat := 32
  /** `maxlen` of each saved-message deque. */
  const SavedMessageCapacity: nat := 1000

  /** `OrderBookTradeEvent`, as the trade router builds it. */
  datatype TradeEvent = TradeEvent(tradingPair: string, timestamp: real, price: real, amount: real,
                                   tradeId: Option<TradeId>, tradeType: TradeType)

  /** An operation the tracker asked a book to perform. */
  datatype BookOp =
    | AppliedDiffs(bids: seq<Level>, asks: seq<Level>, updateId: int)
    | RestoredFromSnapshot(snapshot: OrderBookMessage, pastDiffs: seq<OrderBookMessage>)
    | AppliedTrade(event: TradeEvent)

  /** An order book: its snapshot uid and everything applied to it, oldest first. */
  datatype OrderBook = OrderBook(snapshotUid: int, log: seq<BookOp>)

  /** `apply_diffs(bids, asks, update_id)`. */
  function ApplyDiff(book: OrderBook, diff: OrderBookMessage): OrderBook {
    book.(log := book.log + [AppliedDiffs(diff.bids, diff.asks, diff.updateId)])
  }

  /** `restore_from_snapshot_and_diffs`; the uid the book adopts is the book's own business and is given. */
  function Restore(book: OrderBook, snapshot: OrderBookMessage, pastDiffs: seq<OrderBookMessage>,
                   restoredUid: int): OrderBook {
    OrderBook(restoredUid, book.log + [RestoredFromSnapshot(snapshot, pastDiffs)])
  }

  /** The staleness rule of the diff router: only a strictly older update id is rejected. */
  predicate IsStale(book: OrderBook, diff: OrderBookMessage) {
    book.snapshotUid > diff.updateId
  }

  /** The trade event built from a trade message and its content. */
  function TradeEventOf(msg: OrderBookMessage, content: TradeContent): (e: TradeEvent)
    ensures e.tradingPair == msg.tradingPair && e.timestamp == msg.timestamp && e.tradeId == msg.tradeId
    ensures e.price == content.price && e.amount == content.amount
    ensures e.tradeType == Sell <==> content.tradeType == Sell
  {
    TradeEvent(msg.tradingPair, msg.timestamp, content.price, content.amount, msg.tradeId,
               if content.tradeType == Sell then Sell else Buy)
  }

  /**
   * The message `_track_single_book` handles next and what remains: the
   * oldest saved message while any remain, otherwise the head of the live
   * queue. Nothing is reordered, and the live queue is untouched while saved
   * messages remain.
   */
  function TakeNext(saved: seq<OrderBookMessage>, queue: seq<OrderBookMessage>)
    : (r: (OrderBookMessage, seq<OrderBookMessage>, seq<OrderBookMessage>))
    requires saved != [] || queue != []
    ensures [r.0] + r.1 + r.2 == saved + queue
    ensures saved != [] ==> r.1 == saved[1..] && r.2 == queue
    ensures saved == [] ==> r.1 == [] && r.2 == queue[1..]
  {
    if saved != [] then (saved[0], saved[1..], queue) else (queue[0], saved, queue[1..])
  }

  /** The first `k` messages handled, taking one at a time with `TakeNext`. */
  function Drain(saved: seq<OrderBookMessage>, queue: seq<OrderBookMessage>, k: nat): seq<OrderBookMessage>
    requires k <= |saved| + |queue|
    decreases k
  {
    if k == 0 then []
    else
      var r := TakeNext(saved, queue);
      [r.0] + Drain(r.1, r.2, k - 1)
  }

  /** Every saved message is handled before any live one, each in arrival order. */
  lemma {:induction false} DrainIsOldestFirst(saved: seq<OrderBookMessage>, queue: seq<OrderBookMessage>, k: nat)
    requires k <= |saved| + |queue|
    ensures Drain(saved, queue, k) == (saved + queue)[..k]
    decreases k
  {
    if k > 0 {
      var r := TakeNext(saved, queue);
      var rest := r.1 + r.2;
      DrainIsOldestFirst(r.1, r.2, k - 1);
      assert Drain(saved, queue, k) == [r.0] + rest[..k - 1];
      assert [r.0] + rest == saved + queue;
      assert ([r.0] + rest)[..k] == [r.0] + rest[..k - 1];
    }
  }


  /** `apply_trade(event)`. */
  function ApplyTrade(book: OrderBook, event: TradeEvent): OrderBook {
    book.(log := book.log + [AppliedTrade(event)])
  }

  /** How a router disposed of one message. */
  datatype Route = Buffered | Rejected | Accepted | Dropped

  /** The tracker's per-pair registries, as one value. */
  datatype Registry = Registry(
    tradingPairs: seq<string>,
    ready: bool,
    tasks: set<string>,
    books: map<string, OrderBook>,
    queues: map<string, seq<OrderBookMessage>>,
    windows: map<string, seq<OrderBookMessage>>,
    saved: map<string, seq<OrderBookMessage>>)

  /**
   * What holds between any two steps: books and serial queues exist for the
   * same pairs, tasks run only for such pairs, and the deques respect their
   * bounds.
   */
  predicate Inv(r: Registry) {
    && r.queues.Keys == r.books.Keys
    && r.tasks <= r.books.Keys
    && (forall p | p in r.windows :: |r.windows[p]| <= PastDiffWindowSize)
    && (forall p | p in r.saved :: |r.saved[p]| <= SavedMessageCapacity)
  }

  /** A pair's saved messages; `defaultdict` reads an absent pair as empty. */
  function SavedOf(r: Registry, pair: string): seq<OrderBookMessage> {
    if pair in r.saved then r.saved[pair] else []
  }

  /** A pair's past-diff window; absent reads as empty. */
  function WindowOf(r: Registry, pair: string): seq<OrderBookMessage> {
    if pair in r.windows then r.windows[pair] else []
  }

  // ---------------------------------------------------------------------------
  // _init_order_books
  // ---------------------------------------------------------------------------

  /**
   * The books fetched before the first fetch that raised (`None`): the loop of
   * `_init_order_books` stops at that pair.
   */
  function FetchedPrefix(fetches: seq<Option<OrderBook>>): (books: seq<OrderBook>)
    ensures |books| <= |fetches|
    ensures forall j | 0 <= j < |books| :: fetches[j] == Some(books[j])
    ensures |books| < |fetches| ==> fetches[|books|].None?
    decreases |fetches|
  {
    if fetches == [] || fetches[0].None? then []
    else [fetches[0].value] + FetchedPrefix(fetches[1..])
  }

  /** The registries after the first `i` listed pairs were initialised with their fetched books. */
  function Initialized(r: Registry, initialBooks: seq<OrderBook>, i: nat): Registry
    requires i <= |r.tradingPairs| && i <= |initialBooks|
    decreases i
  {
    if i == 0 then r
    else
      var before := Initialized(r, initialBooks, i - 1);
      var pair := r.tradingPairs[i - 1];
      before.(books := before.books[pair := initialBooks[i - 1]],
              queues := before.queues[pair := []],
              tasks := before.tasks + {pair})
  }

  /**
   * Initialisation gives every listed pair a book, an empty serial queue and
   * a task, leaves every other pair as it was, and touches nothing else; on a
   * duplicate-free list the `j`-th pair gets the `j`-th book.
   */
  lemma {:induction false} InitializedFacts(r: Registry, initialBooks: seq<OrderBook>, i: nat)
    requires Inv(r) && i <= |r.tradingPairs| && i <= |initialBooks|
    ensures var r' := Initialized(r, initialBooks, i);
            && Inv(r')
            && r'.tradingPairs == r.tradingPairs && r'.ready == r.ready
            && r'.windows == r.windows && r'.saved == r.saved
    ensures var r' := Initialized(r, initialBooks, i);
            forall p :: (p in r'.books <==> p in r.books || p in r.tradingPairs[..i])
                        && (p in r'.tasks <==> p in r.tasks || p in r.tradingPairs[..i])
    ensures var r' := Initialized(r, initialBooks, i);
            forall p | p in r.tradingPairs[..i] :: r'.queues[p] == []
    ensures var r' := Initialized(r, initialBooks, i);
            forall p | p in r.books && p !in r.tradingPairs[..i] :: r'.books[p] == r.books[p] && r'.queues[p] == r.queues[p]
    decreases i
  {
    if i > 0 {
      InitializedFacts(r, initialBooks, i - 1);
      assert r.tradingPairs[..i] == r.tradingPairs[..i - 1] + [r.tradingPairs[i - 1]];
    }
  }

  /** On a duplicate-free pair list the `j`-th pair gets the `j`-th fetched book. */
  lemma {:induction false} InitializedBooks(r: Registry, initialBooks: seq<OrderBook>, i: nat)
    requires i <= |r.tradingPairs| && i <= |initialBooks|
    requires PairLists.NoDuplicates(r.tradingPairs)
    ensures forall j | 0 <= j < i ::
              r.tradingPairs[j] in Initialized(r, initialBooks, i).books
              && Initialized(r, initialBooks, i).books[r.tradingPairs[j]] == initialBooks[j]
    decreases i
  {
    if i > 0 {
      InitializedBooks(r, initialBooks, i - 1);
    }
  }

  // ---------------------------------------------------------------------------
  // add_trading_pair
  // ---------------------------------------------------------------------------

  /** The `except` branch of `add_trading_pair`: pop the pair's book, queue and task. */
  function RollBack(r: Registry, pair: string): Registry {
    r.(books := r.books - {pair}, queues := r.queues - {pair}, tasks := r.tasks - {pair})
  }

  /**
   * `add_trading_pair`: `subscribed` is what the data source's subscribe
   * returned and `fetched` the initial book, `None` meaning the call raised.
   */
  function AddSpec(r: Registry, pair: string, subscribed: Option<bool>, fetched: Option<OrderBook>): (Registry, bool) {
    if pair in r.books then (r, false)
    else if subscribed.None? then (RollBack(r, pair), false)
    else if !subscribed.value then (r, false)
    else
      var listed := r.(tradingPairs := PairLists.AppendIfAbsent(r.tradingPairs, pair));
      if fetched.None? then (RollBack(listed, pair), false)
      else (listed.(books := listed.books[pair := fetched.value],
                    queues := listed.queues[pair := []],
                    tasks := listed.tasks + {pair}), true)
  }

  /**
   * The four outcomes of adding a pair. An already tracked pair or a refused
   * subscription changes nothing; a failure after subscribing leaves the pair
   * in `_trading_pairs` but not in books, queues or tasks; success tracks the
   * pair with an empty queue and a task, listed once. Saved messages survive.
   */
  lemma AddTradingPairOutcomes(r: Registry, pair: string, subscribed: Option<bool>, fetched: Option<OrderBook>)
    requires Inv(r)
    ensures var (r', ok) := AddSpec(r, pair, subscribed, fetched);
            && Inv(r')
            && (ok <==> pair !in r.books && subscribed == Some(true) && fetched.Some?)
            && (pair in r.books || subscribed != Some(true) ==> r' == r)
            && (!ok ==> r'.books == r.books && r'.queues == r.queues && r'.tasks == r.tasks)
            && (pair !in r.books && subscribed == Some(true) ==>
                  r'.tradingPairs == PairLists.AppendIfAbsent(r.tradingPairs, pair) && pair in r'.tradingPairs)
            && (ok ==> && r'.books == r.books[pair := fetched.value] && r'.queues == r.queues[pair := []]
                       && r'.tasks == r.tasks + {pair})
            && (PairLists.NoDuplicates(r.tradingPairs) ==> PairLists.NoDuplicates(r'.tradingPairs))
            && r'.saved == r.saved && r'.windows == r.windows && r'.ready == r.ready
  {
    PairLists.AppendIfAbsentFacts(r.tradingPairs, pair);
    if pair !in r.books {
      assert r.books - {pair} == r.books;
      assert r.queues - {pair} == r.queues;
      assert r.tasks - {pair} == r.tasks;
    }
  }

  // ---------------------------------------------------------------------------
  // remove_trading_pair
  // ---------------------------------------------------------------------------

  /** Steps 3 to 5 of `remove_trading_pair`. */
  function Forget(r: Registry, pair: string): Registry {
    r.(books := r.books - {pair}, queues := r.queues - {pair},
       windows := r.windows - {pair}, saved := r.saved - {pair},
       tradingPairs := if pair in r.tradingPairs then PairLists.RemoveFirst(r.tradingPairs, pair) else r.tradingPairs)
  }

  /**
   * `remove_trading_pair`: `unsubscribed` is what the data source's
   * unsubscribe returned, `None` if it raised. The task is cancelled first.
   */
  function RemoveSpec(r: Registry, pair: string, unsubscribed: Option<bool>): (Registry, bool) {
    if pair !in r.books then (r, false)
    else
      var cancelled := r.(tasks := r.tasks - {pair});
      if unsubscribed.None? then (cancelled, false)
      else (Forget(cancelled, pair), true)
  }

  /**
   * The outcomes of removing a pair. An untracked pair changes nothing.
   * Success leaves no trace of the pair in tasks, books, queues, windows or
   * saved buffers (nor in a duplicate-free `_trading_pairs`) whatever
   * unsubscribe returned, and other pairs keep their entries. A raising
   * unsubscribe returns False with the task gone but the book and queue kept.
   */
  lemma RemoveTradingPairOutcomes(r: Registry, pair: string, unsubscribed: Option<bool>)
    requires Inv(r)
    ensures var (r', ok) := RemoveSpec(r, pair, unsubscribed);
            && Inv(r')
            && (ok <==> pair in r.books && unsubscribed.Some?)
            && (pair !in r.books ==> r' == r)
            && pair !in r'.tasks
            && (ok ==> && pair !in r'.books && pair !in r'.queues && pair !in r'.windows && pair !in r'.saved
                       && r'.tradingPairs == PairLists.RemoveFirst(r.tradingPairs, pair))
            && (ok && PairLists.NoDuplicates(r.tradingPairs) ==>
                  pair !in r'.tradingPairs && PairLists.NoDuplicates(r'.tradingPairs))
            && (forall p | p != pair :: p in r'.books <==> p in r.books)
            && (forall p | p != pair && p in r'.books :: r'.books[p] == r.books[p])
            && (!ok ==> r'.books == r.books && r'.queues == r.queues && r'.saved == r.saved
                        && r'.windows == r.windows && r'.tradingPairs == r.tradingPairs)
            && r'.ready == r.ready
  {
    if pair in r.books && unsubscribed.Some? {
      var r' := Forget(r.(tasks := r.tasks - {pair}), pair);
      assert RemoveSpec(r, pair, unsubscribed) == (r', true);
      PairLists.RemoveFirstIsSplice(r.tradingPairs, pair);
      if PairLists.NoDuplicates(r.tradingPairs) {
        PairLists.RemoveFirstNoDuplicates(r.tradingPairs, pair);
      }
      assert Inv(r');
    }
  }

  // ---------------------------------------------------------------------------
  // routers
  // ---------------------------------------------------------------------------

  /** One iteration of `_order_book_diff_router` on the registries. */
  function RouteDiffSpec(r: Registry, msg: OrderBookMessage): (Registry, Route)
    requires Inv(r)
  {
    var pair := msg.tradingPair;
    if pair !in r.queues then
      (r.(saved := r.saved[pair := BoundedDeque.Append(SavedOf(r, pair), msg, SavedMessageCapacity)]), Buffered)
    else if IsStale(r.books[pair], msg) then (r, Rejected)
    else (r.(queues := r.queues[pair := r.queues[pair] + [msg]]), Accepted)
  }

  /**
   * Diff routing has exactly three outcomes: a pair without a serial queue
   * gets the diff appended to its saved buffer (the most recent 1000 kept); a
   * diff whose update id is below the book's snapshot uid changes nothing; any
   * other diff (an equal id included) goes to the end of the pair's queue.
   */
  lemma RouteDiffOutcomes(r: Registry, msg: OrderBookMessage)
    requires Inv(r)
    ensures var pair := msg.tradingPair;
            var (r', route) := RouteDiffSpec(r, msg);
            && Inv(r')
            && (route == Buffered <==> pair !in r.queues)
            && (route == Rejected <==> pair in r.queues && r.books[pair].snapshotUid > msg.updateId)
            && (route == Accepted <==> pair in r.queues && r.books[pair].snapshotUid <= msg.updateId)
            && (route == Buffered ==> r'.saved[pair] == BoundedDeque.LastN(SavedOf(r, pair) + [msg], SavedMessageCapacity)
                                      && r'.queues == r.queues)
            && (route == Rejected ==> r' == r)
            && (route == Accepted ==> r'.queues == r.queues[pair := r.queues[pair] + [msg]] && r'.saved == r.saved)
            && r'.books == r.books && r'.tasks == r.tasks && r'.windows == r.windows
  {
    var pair := msg.tradingPair;
    if pair !in r.queues {
      assert |BoundedDeque.Append(SavedOf(r, pair), msg, SavedMessageCapacity)| <= SavedMessageCapacity;
    }
  }

  /** One iteration of `_order_book_snapshot_router` on the registries. */
  function RouteSnapshotSpec(r: Registry, msg: OrderBookMessage): (Registry, Route) {
    var pair := msg.tradingPair;
    if pair !in r.queues then (r, Rejected)
    else (r.(queues := r.queues[pair := r.queues[pair] + [msg]]), Accepted)
  }

  /** One iteration of `_emit_trade_event_loop` on the registries; a trade without content raises and is dropped. */
  function RouteTradeSpec(r: Registry, msg: OrderBookMessage): (Registry, Route) {
    var pair := msg.tradingPair;
    if pair !in r.books then (r, Rejected)
    else if msg.trade.None? then (r, Dropped)
    else (r.(books := r.books[pair := ApplyTrade(r.books[pair], TradeEventOf(msg, msg.trade.value))]), Accepted)
  }

  /**
   * A snapshot for a pair without a serial queue, and a trade for a pair
   * without a book, change nothing; otherwise the snapshot is enqueued last,
   * or the trade is applied to that pair's book alone.
   */
  lemma RouteSnapshotAndTradeOutcomes(r: Registry, msg: OrderBookMessage)
    requires Inv(r)
    ensures var pair := msg.tradingPair;
            var (rs, snapshotRoute) := RouteSnapshotSpec(r, msg);
            && Inv(rs)
            && (snapshotRoute == Rejected <==> pair !in r.queues)
            && (snapshotRoute == Rejected ==> rs == r)
            && (snapshotRoute == Accepted ==> rs == r.(queues := r.queues[pair := r.queues[pair] + [msg]]))
    ensures var pair := msg.tradingPair;
            var (rt, tradeRoute) := RouteTradeSpec(r, msg);
            && Inv(rt)
            && (tradeRoute == Rejected <==> pair !in r.books)
            && (tradeRoute != Accepted ==> rt == r)
            && (tradeRoute == Accepted ==>
                  && rt.books.Keys == r.books.Keys
                  && rt.books[pair].log == r.books[pair].log + [AppliedTrade(TradeEventOf(msg, msg.trade.value))]
                  && rt.books[pair].snapshotUid == r.books[pair].snapshotUid
                  && (forall p | p in r.books && p != pair :: rt.books[p] == r.books[p])
                  && rt.queues == r.queues && rt.saved == r.saved)
  {
  }

  // ---------------------------------------------------------------------------
  // _track_single_book
  // ---------------------------------------------------------------------------

  /**
   * One iteration of `_track_single_book` for `pair`, when a message is
   * available: the oldest saved message if any, otherwise the head of the
   * serial queue. Reading the saved buffer and the window creates them.
   */
  function TrackStepSpec(r: Registry, pair: string, restoredUid: int): (Registry, OrderBookMessage)
    requires Inv(r) && pair in r.books && pair in r.queues && (SavedOf(r, pair) != [] || r.queues[pair] != [])
  {
    var (taken, msg) := TakeSpec(r, pair);
    (ApplySpec(taken, pair, msg, restoredUid), msg)
  }

  /** The message the step takes, removed from where it was. */
  function TakeSpec(r: Registry, pair: string): (Registry, OrderBookMessage)
    requires pair in r.queues && (SavedOf(r, pair) != [] || r.queues[pair] != [])
  {
    var savedNow := SavedOf(r, pair);
    var queue := r.queues[pair];
    if savedNow != [] then (r.(saved := r.saved[pair := savedNow[1..]]), savedNow[0])
    else (r.(saved := r.saved[pair := []], queues := r.queues[pair := queue[1..]]), queue[0])
  }

  /** The taken message applied to the pair's book and window. */
  function ApplySpec(r: Registry, pair: string, msg: OrderBookMessage, restoredUid: int): Registry
    requires pair in r.books && |WindowOf(r, pair)| <= PastDiffWindowSize
  {
    var window := WindowOf(r, pair);
    r.(books := r.books[pair := BookAfter(r.books[pair], msg, window, restoredUid)],
       windows := r.windows[pair := WindowAfter(window, msg)])
  }

  /** A diff is applied, a snapshot restores the book from the window, a trade leaves it. */
  function BookAfter(book: OrderBook, msg: OrderBookMessage, window: seq<OrderBookMessage>, restoredUid: int): OrderBook {
    if msg.kind == Diff then ApplyDiff(book, msg)
    else if msg.kind == Snapshot then Restore(book, msg, window, restoredUid)
    else book
  }

  /** Only a diff joins the window. */
  function WindowAfter(window: seq<OrderBookMessage>, msg: OrderBookMessage): seq<OrderBookMessage>
    requires |window| <= PastDiffWindowSize
  {
    if msg.kind == Diff then BoundedDeque.Append(window, msg, PastDiffWindowSize) else window
  }

  /**
   * The per-pair step takes messages exactly as `TakeNext` orders them: the
   * oldest saved message while any remain, only then the head of the serial
   * queue, which is untouched meanwhile. Every bound of `Inv` survives.
   */
  lemma TrackStepTakesOldest(r: Registry, pair: string, restoredUid: int)
    requires Inv(r) && pair in r.books && pair in r.queues && (SavedOf(r, pair) != [] || r.queues[pair] != [])
    ensures var (r', msg) := TrackStepSpec(r, pair, restoredUid);
            var next := TakeNext(SavedOf(r, pair), r.queues[pair]);
            && Inv(r')
            && msg == next.0 && r'.saved[pair] == next.1 && r'.queues[pair] == next.2
            && (SavedOf(r, pair) != [] ==> r'.queues == r.queues)
            && (forall p | p != pair :: (p in r'.queues <==> p in r.queues) && (p in r.queues ==> r'.queues[p] == r.queues[p]))
            && r'.tasks == r.tasks && r'.tradingPairs == r.tradingPairs && r'.ready == r.ready
  {
  }

  /**
   * A diff is applied to the pair's book and appended to its window, which
   * keeps the 32 most recent; a snapshot restores the book from the window's
   * contents in arrival order and leaves the window as it was; a trade
   * message changes neither. Other pairs' books are untouched.
   */
  lemma ApplyStepFacts(r: Registry, pair: string, msg: OrderBookMessage, restoredUid: int)
    requires pair in r.books && |WindowOf(r, pair)| <= PastDiffWindowSize
    ensures var r' := ApplySpec(r, pair, msg, restoredUid);
            && (msg.kind == Diff ==>
                  && r'.windows[pair] == BoundedDeque.LastN(WindowOf(r, pair) + [msg], PastDiffWindowSize)
                  && r'.books[pair].log == r.books[pair].log + [AppliedDiffs(msg.bids, msg.asks, msg.updateId)]
                  && r'.books[pair].snapshotUid == r.books[pair].snapshotUid)
            && (msg.kind == Snapshot ==>
                  && r'.windows[pair] == WindowOf(r, pair)
                  && r'.books[pair] == OrderBook(restoredUid, r.books[pair].log + [RestoredFromSnapshot(msg, WindowOf(r, pair))]))
            && (msg.kind == Trade ==> r'.books[pair] == r.books[pair] && r'.windows[pair] == WindowOf(r, pair))
            && r'.books.Keys == r.books.Keys
            && (forall p | p != pair && p in r.books :: r'.books[p] == r.books[p])
  {
    var window := WindowOf(r, pair);
    var r' := ApplySpec(r, pair, msg, restoredUid);
    assert r'.books == r.books[pair := BookAfter(r.books[pair], msg, window, restoredUid)];
    if msg.kind == Diff {
      assert r'.windows[pair] == BoundedDeque.Append(window, msg, PastDiffWindowSize);
    } else {
      assert r'.windows[pair] == window;
    }
  }

  /** The step's taking part leaves books and windows alone, so `ApplyStepFacts` describes the whole step. */
  lemma TrackStepApplies(r: Registry, pair: string, restoredUid: int)
    requires Inv(r) && pair in r.books && pair in r.queues && (SavedOf(r, pair) != [] || r.queues[pair] != [])
    ensures var (r', msg) := TrackStepSpec(r, pair, restoredUid);
            var (taken, _) := TakeSpec(r, pair);
            && taken.books == r.books && WindowOf(taken, pair) == WindowOf(r, pair)
            && r' == ApplySpec(taken, pair, msg, restoredUid)
  {
  }
}
