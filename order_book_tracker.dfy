/**
 * `OrderBookTracker` (hummingbot/core/data_type/order_book_tracker.py) as a
 * sequential state machine. Each coroutine iteration that the tracker runs
 * becomes one method that executes atomically:
 *
 *   - `InitOrderBooks`        the body of `_init_order_books` (its loop is `InstallAll`)
 *   - `AddTradingPair`        `add_trading_pair`
 *   - `RemoveTradingPair`     `remove_trading_pair` (`Unregister` on the registries,
 *                             then the pair's metrics entry)
 *   - `RouteDiff`             one iteration of `_order_book_diff_router`
 *   - `RouteSnapshot`         one iteration of `_order_book_snapshot_router`
 *   - `RouteTrade`            one iteration of `_emit_trade_event_loop`
 *   - `TrackSingleBookStep`   one iteration of `_track_single_book`
 *
 * A router iteration is split in two: `RouteX` does what it does to the
 * registries, proved against the functions of `OrderBookRegistry`, and
 * `LatencyMetrics.TrackerMetrics.CountDiff`, `CountSnapshot` or `CountTrade`,
 * given the `Route` that `RouteX` returned, what it does to the metrics,
 * which share no state with them (a dropped trade counts nowhere).
 * Each router's `pair_metrics_cache` is a local of its loop, so it is passed
 * to those methods and returned updated.
 * What the awaited data-source calls return is a parameter, with `None`
 * standing for "raised an exception". Waiting on the initialisation event is
 * a precondition `ready`. The `OrderBook` itself is abstract: its snapshot uid
 * and a log of the operations the tracker asked of it.
 */
module OrderBookTracking {
  import opened Wrappers
  import opened OrderBookMessages
  import opened OrderBookRegistry
  import BoundedDeque
  import PairLists
  import LatencyMetrics

  class OrderBookTracker {
    /** `_trading_pairs`. */
    var tradingPairs: seq<string>
    /** `_order_books_initialized` is set. */
    var ready: bool
    /** Pairs with a live `_track_single_book` task. */
    var tasks: set<string>
    /** `_order_books`. */
    var books: map<string, OrderBook>
    /** `_tracking_message_queues`: each pair's serial queue, oldest first. */
    var queues: map<string, seq<OrderBookMessage>>
    /** `_past_diffs_windows`. */
    var windows: map<string, seq<OrderBookMessage>>
    /** `_saved_message_queues`: diffs that arrived before the pair had a queue. */
    var saved: map<string, seq<OrderBookMessage>>
    /** Every diff applied since the pair's window was created, oldest first. */
    ghost var appliedDiffs: map<string, seq<OrderBookMessage>>
    /** `_metrics`. */
    const metrics: LatencyMetrics.TrackerMetrics

    /** The registries as one value. */
    function Registries(): Registry
      reads this`tradingPairs, this`ready, this`tasks, this`books, this`queues, this`windows, this`saved
    {
      Registry(tradingPairs, ready, tasks, books, queues, windows, saved)
    }

    /**
     * `Inv` on the fields themselves, and each window holds the most recent
     * 32 of the diffs applied through it.
     */
    ghost predicate RegistryValid()
      reads this`tasks, this`books, this`queues, this`windows, this`saved, this`appliedDiffs
    {
      && queues.Keys == books.Keys
      && tasks <= books.Keys
      && (forall p | p in saved :: |saved[p]| <= SavedMessageCapacity)
      && windows.Keys == appliedDiffs.Keys
      && (forall p | p in windows :: windows[p] == BoundedDeque.LastN(appliedDiffs[p], PastDiffWindowSize))
    }

    ghost predicate Valid()
      reads this`tasks, this`books, this`queues, this`windows, this`saved, this`appliedDiffs
      reads metrics`perPair
    {
      RegistryValid() && metrics.Valid()
    }

    /** The field-level invariant is `Inv` of the registries. */
    lemma RegistryInv()
      requires RegistryValid()
      ensures Inv(Registries())
    {
    }

    /** The diffs applied through `pair`'s window; none before it exists. */
    ghost function AppliedOf(pair: string): seq<OrderBookMessage>
      reads this`appliedDiffs
    {
      if pair in appliedDiffs then appliedDiffs[pair] else []
    }

    constructor (tradingPairs: seq<string>)
      ensures Valid()
      ensures Registries() == Registry(tradingPairs, false, {}, map[], map[], map[], map[])
      ensures fresh(metrics) && metrics.perPair == map[] && metrics.Sound()
    {
      this.tradingPairs := tradingPairs;
      ready := false;
      tasks := {};
      books := map[];
      queues := map[];
      windows := map[];
      saved := map[];
      appliedDiffs := map[];
      var m := new LatencyMetrics.TrackerMetrics();
      m.diffLatency.EmptyIsValid();
      m.snapshotLatency.EmptyIsValid();
      m.tradeLatency.EmptyIsValid();
      metrics := m;
    }

    // -------------------------------------------------------------------------
    // _init_order_books
    // -------------------------------------------------------------------------

    /**
     * `_init_order_books`: the `i`-th fetched book goes to the `i`-th listed
     * pair with a fresh queue and task, then the tracker is ready. A fetch
     * that raises (`None`) ends the coroutine there: the pairs before it keep
     * their books, queues and tasks, and the tracker never becomes ready.
     */
    method InitOrderBooks(fetches: seq<Option<OrderBook>>) returns (ok: bool)
      requires Valid() && |fetches| == |tradingPairs|
      modifies this`books, this`queues, this`tasks, this`ready
      ensures Valid()
      ensures ok <==> forall j | 0 <= j < |fetches| :: fetches[j].Some?
      ensures Registries() == Initialized(old(Registries()), FetchedPrefix(fetches), |FetchedPrefix(fetches)|)
                                .(ready := old(ready) || ok)
    {
      ok := InstallAll(fetches);
      if ok {
        ready := true;
      }
    }

    /**
     * Each listed pair, in order, gets its fetched book, an empty serial
     * queue and a task, until a fetch raises.
     */
    method InstallAll(fetches: seq<Option<OrderBook>>) returns (ok: bool)
      requires RegistryValid() && |fetches| == |tradingPairs|
      modifies this`books, this`queues, this`tasks
      ensures RegistryValid()
      ensures ok <==> |FetchedPrefix(fetches)| == |tradingPairs|
      ensures Registries() == Initialized(old(Registries()), FetchedPrefix(fetches), |FetchedPrefix(fetches)|)
    {
      ghost var r0 := Registries();
      ghost var fetched := FetchedPrefix(fetches);
      var i := 0;
      while i < |tradingPairs|
        invariant 0 <= i <= |fetched| && |tradingPairs| == |r0.tradingPairs|
        invariant RegistryValid()
        invariant Registries() == Initialized(r0, fetched, i)
      {
        if fetches[i].None? {
          return false;
        }
        InstallPair(tradingPairs[i], fetches[i].value);
        i := i + 1;
      }
      return true;
    }

    // -------------------------------------------------------------------------
    // add_trading_pair
    // -------------------------------------------------------------------------

    /**
     * `add_trading_pair`. An already tracked pair is refused before waiting
     * for readiness; any other call waits until the tracker is ready.
     */
    method AddTradingPair(pair: string, subscribed: Option<bool>, fetched: Option<OrderBook>) returns (ok: bool)
      requires Valid() && (pair in books || ready)
      modifies this`tradingPairs, this`books, this`queues, this`tasks
      ensures Valid()
      ensures (Registries(), ok) == AddSpec(old(Registries()), pair, subscribed, fetched)
    {
      if pair in books || subscribed == Some(false) {
        return false;
      }
      if subscribed == Some(true) {
        ListPair(pair);
      }
      if subscribed.None? || fetched.None? {
        RollBackAdd(pair);
        return false;
      }
      InstallPair(pair, fetched.value);
      return true;
    }

    /** Step 2 of `add_trading_pair`: list the pair unless it is listed. */
    method ListPair(pair: string)
      requires RegistryValid()
      modifies this`tradingPairs
      ensures RegistryValid()
      ensures Registries() == old(Registries()).(tradingPairs := PairLists.AppendIfAbsent(old(tradingPairs), pair))
    {
      if pair !in tradingPairs {
        tradingPairs := tradingPairs + [pair];
      }
    }

    /** The `except` branch of `add_trading_pair`. */
    method RollBackAdd(pair: string)
      requires RegistryValid()
      modifies this`books, this`queues, this`tasks
      ensures RegistryValid()
      ensures Registries() == RollBack(old(Registries()), pair)
    {
      books := books - {pair};
      queues := queues - {pair};
      tasks := tasks - {pair};
    }

    /** Steps 3 and 4 of `add_trading_pair`, and the body of `_init_order_books`' loop: the fetched book, an empty queue and a task. */
    method InstallPair(pair: string, book: OrderBook)
      requires RegistryValid()
      modifies this`books, this`queues, this`tasks
      ensures RegistryValid()
      ensures Registries() == old(Registries()).(books := old(books)[pair := book],
                                                 queues := old(queues)[pair := []],
                                                 tasks := old(tasks) + {pair})
    {
      books := books[pair := book];
      queues := queues[pair := []];
      tasks := tasks + {pair};
    }

    // -------------------------------------------------------------------------
    // remove_trading_pair
    // -------------------------------------------------------------------------

    /**
     * `remove_trading_pair`; on success the pair's metrics entry is dropped
     * too, but not the routers' cached references to it.
     */
    method RemoveTradingPair(pair: string, unsubscribed: Option<bool>) returns (ok: bool)
      requires Valid()
      modifies this`tradingPairs, this`books, this`queues, this`tasks, this`windows, this`saved, this`appliedDiffs
      modifies metrics`perPair
      ensures Valid()
      ensures (Registries(), ok) == RemoveSpec(old(Registries()), pair, unsubscribed)
      ensures metrics.perPair == if ok then old(metrics.perPair) - {pair} else old(metrics.perPair)
    {
      ok := Unregister(pair, unsubscribed);
      if ok {
        metrics.RemovePairMetrics(pair);
      }
    }

    /** `remove_trading_pair` on the registries: cancel the task, then forget the pair once unsubscribed. */
    method Unregister(pair: string, unsubscribed: Option<bool>) returns (ok: bool)
      requires RegistryValid()
      modifies this`tradingPairs, this`books, this`queues, this`tasks, this`windows, this`saved, this`appliedDiffs
      ensures RegistryValid()
      ensures (Registries(), ok) == RemoveSpec(old(Registries()), pair, unsubscribed)
    {
      if pair !in books {
        return false;
      }
      CancelTask(pair);
      if unsubscribed.None? {
        return false;
      }
      ForgetPair(pair);
      return true;
    }

    /** Step 1 of `remove_trading_pair`: cancel and drop the pair's task, if any. */
    method CancelTask(pair: string)
      requires RegistryValid()
      modifies this`tasks
      ensures RegistryValid()
      ensures Registries() == old(Registries()).(tasks := old(tasks) - {pair})
    {
      tasks := tasks - {pair};
    }

    /** Steps 3 and 5 of `remove_trading_pair`. */
    method ForgetPair(pair: string)
      requires RegistryValid() && pair !in tasks
      modifies this`tradingPairs, this`books, this`queues, this`windows, this`saved, this`appliedDiffs
      ensures RegistryValid()
      ensures Registries() == Forget(old(Registries()), pair)
    {
      DropPairState(pair);
      if pair in tradingPairs {
        tradingPairs := PairLists.RemoveFirst(tradingPairs, pair);
      }
    }

    /** Step 3 of `remove_trading_pair`: pop the pair's book, queue, window and saved messages. */
    method DropPairState(pair: string)
      requires RegistryValid() && pair !in tasks
      modifies this`books, this`queues, this`windows, this`saved, this`appliedDiffs
      ensures RegistryValid()
      ensures books == old(books) - {pair} && queues == old(queues) - {pair}
      ensures windows == old(windows) - {pair} && saved == old(saved) - {pair}
    {
      books := books - {pair};
      queues := queues - {pair};
      windows := windows - {pair};
      appliedDiffs := appliedDiffs - {pair};
      saved := saved - {pair};
    }

    // -------------------------------------------------------------------------
    // routers
    // -------------------------------------------------------------------------

    /** `message_queue.put(...)`: the message goes to the end of its pair's serial queue. */
    method Enqueue(msg: OrderBookMessage)
      requires RegistryValid() && msg.tradingPair in queues
      modifies this`queues
      ensures RegistryValid()
      ensures Registries() == old(Registries()).(queues := old(queues)[msg.tradingPair := old(queues[msg.tradingPair]) + [msg]])
    {
      queues := queues[msg.tradingPair := queues[msg.tradingPair] + [msg]];
    }

    /** Saves a diff whose pair has no serial queue yet, the oldest dropped beyond 1000. */
    method SaveDiff(msg: OrderBookMessage)
      requires RegistryValid()
      modifies this`saved
      ensures RegistryValid()
      ensures Registries() == old(Registries()).(saved := old(saved)[msg.tradingPair :=
                BoundedDeque.Append(SavedOf(old(Registries()), msg.tradingPair), msg, SavedMessageCapacity)])
    {
      var pair := msg.tradingPair;
      var kept := SavedOf(Registries(), pair);
      assert |kept| <= SavedMessageCapacity;
      var entry := BoundedDeque.Append(kept, msg, SavedMessageCapacity);
      saved := saved[pair := entry];
    }

    /**
     * One iteration of `_order_book_diff_router`, its effect on the
     * registries: a diff for a pair without a serial queue is saved, a stale
     * one rejected, any other enqueued. The iteration's bookkeeping on the
     * metrics, which share no state with the registries, is
     * `metrics.CountDiff` given the returned route.
     */
    method RouteDiff(msg: OrderBookMessage) returns (route: Route)
      requires RegistryValid()
      modifies this`queues, this`saved
      ensures RegistryValid()
      ensures (Registries(), route) == RouteDiffSpec(old(Registries()), msg)
    {
      RegistryInv();
      var pair := msg.tradingPair;
      if pair !in queues {
        SaveDiff(msg);
        return Buffered;
      }
      if IsStale(books[pair], msg) {
        return Rejected;
      }
      Enqueue(msg);
      return Accepted;
    }

    /**
     * One iteration of `_order_book_snapshot_router`, which starts once the
     * books are initialised: a snapshot for a pair without a serial queue is
     * rejected, any other enqueued. The metrics side is `metrics.CountSnapshot`
     * given the returned route.
     */
    method RouteSnapshot(msg: OrderBookMessage) returns (route: Route)
      requires RegistryValid() && ready
      modifies this`queues
      ensures RegistryValid()
      ensures (Registries(), route) == RouteSnapshotSpec(old(Registries()), msg)
    {
      if msg.tradingPair !in queues {
        return Rejected;
      }
      Enqueue(msg);
      return Accepted;
    }

    /**
     * One iteration of `_emit_trade_event_loop`, which starts once the books
     * are initialised: a trade for a pair without a book is rejected, one
     * without content raises inside the loop and is dropped, any other is
     * applied to its pair's book. The metrics side is `metrics.CountTrade`
     * given the returned route.
     */
    method RouteTrade(msg: OrderBookMessage) returns (route: Route)
      requires RegistryValid() && ready
      modifies this`books
      ensures RegistryValid()
      ensures (Registries(), route) == RouteTradeSpec(old(Registries()), msg)
    {
      var pair := msg.tradingPair;
      if pair !in books {
        return Rejected;
      }
      if msg.trade.None? {
        return Dropped;
      }
      books := books[pair := ApplyTrade(books[pair], TradeEventOf(msg, msg.trade.value))];
      return Accepted;
    }

    // -------------------------------------------------------------------------
    // _track_single_book
    // -------------------------------------------------------------------------

    /**
     * One iteration of `_track_single_book` for a pair whose task runs, when
     * a message is available: the oldest saved message if any, otherwise the
     * head of the serial queue, is applied to the pair's book. `restoredUid`
     * is the snapshot uid the book adopts when it restores from a snapshot.
     */
    method TrackSingleBookStep(pair: string, restoredUid: int) returns (msg: OrderBookMessage)
      requires RegistryValid() && pair in tasks && pair in queues
      requires SavedOf(Registries(), pair) != [] || queues[pair] != []
      modifies this`saved, this`queues, this`books, this`windows, this`appliedDiffs
      ensures RegistryValid()
      ensures (Registries(), msg) == TrackStepSpec(old(Registries()), pair, restoredUid)
      ensures appliedDiffs == old(appliedDiffs)[pair := old(AppliedOf(pair)) + if msg.kind == Diff then [msg] else []]
    {
      RegistryInv();
      msg := TakeMessage(pair);
      ApplyMessage(pair, msg, restoredUid);
    }

    /** The oldest saved message if any, otherwise the head of the serial queue, removed from where it was. */
    method TakeMessage(pair: string) returns (msg: OrderBookMessage)
      requires RegistryValid() && pair in queues
      requires SavedOf(Registries(), pair) != [] || queues[pair] != []
      modifies this`saved, this`queues
      ensures RegistryValid()
      ensures (Registries(), msg) == TakeSpec(old(Registries()), pair)
      ensures appliedDiffs == old(appliedDiffs)
    {
      var s := SavedOf(Registries(), pair);
      if s != [] {
        msg := s[0];
        saved := saved[pair := s[1..]];
      } else {
        msg := queues[pair][0];
        saved := saved[pair := []];
        queues := queues[pair := queues[pair][1..]];
      }
    }

    /** The taken message applied to the pair's book and past-diff window. */
    method ApplyMessage(pair: string, msg: OrderBookMessage, restoredUid: int)
      requires RegistryValid() && pair in books
      modifies this`books, this`windows, this`appliedDiffs
      ensures RegistryValid()
      ensures Registries() == ApplySpec(old(Registries()), pair, msg, restoredUid)
      ensures appliedDiffs == old(appliedDiffs)[pair := old(AppliedOf(pair)) + if msg.kind == Diff then [msg] else []]
    {
      RegistryInv();
      var window := if pair in windows then windows[pair] else [];
      UpdateBook(pair, msg, window, restoredUid);
      RecordWindow(pair, msg);
    }

    /** A diff goes to the book; a snapshot restores the book from `window`'s diffs; a trade leaves it. */
    method UpdateBook(pair: string, msg: OrderBookMessage, window: seq<OrderBookMessage>, restoredUid: int)
      requires RegistryValid() && pair in books
      modifies this`books
      ensures RegistryValid()
      ensures books == old(books)[pair := BookAfter(old(books[pair]), msg, window, restoredUid)]
    {
      var book := books[pair];
      if msg.kind == Diff {
        books := books[pair := ApplyDiff(book, msg)];
      } else if msg.kind == Snapshot {
        books := books[pair := Restore(book, msg, window, restoredUid)];
      } else {
        books := books[pair := book];
      }
    }

    /**
     * `past_diffs_window`: a diff joins the pair's window, which keeps the
     * last `PastDiffWindowSize` diffs applied; the window is created if it
     * was missing.
     */
    method RecordWindow(pair: string, msg: OrderBookMessage)
      requires RegistryValid()
      modifies this`windows, this`appliedDiffs
      ensures RegistryValid()
      ensures windows == old(windows)[pair := WindowAfter(WindowOf(old(Registries()), pair), msg)]
      ensures appliedDiffs == old(appliedDiffs)[pair := old(AppliedOf(pair)) + if msg.kind == Diff then [msg] else []]
    {
      var window := if pair in windows then windows[pair] else [];
      ghost var applied := AppliedOf(pair);
      assert window == BoundedDeque.LastN(applied, PastDiffWindowSize);
      if msg.kind == Diff {
        BoundedDeque.LastNOfLastN(applied, [msg], PastDiffWindowSize);
        windows := windows[pair := BoundedDeque.Append(window, msg, PastDiffWindowSize)];
        appliedDiffs := appliedDiffs[pair := applied + [msg]];
      } else {
        assert applied + [] == applied;
        windows := windows[pair := window];
        appliedDiffs := appliedDiffs[pair := applied];
      }
    }
  }
}
