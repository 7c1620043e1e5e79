/**
 * The order-book data source of the Bybit perpetual connector
 * (hummingbot/connector/derivative/bybit_perpetual/bybit_perpetual_api_order_book_data_source.py):
 * which queue a websocket event belongs to, how book sides are read from
 * websocket and REST payloads, how diff and funding events become messages,
 * and how a single pair is subscribed or unsubscribed on the linear or the
 * non-linear connection.
 *
 * The three topic names live in the connector's constants module, which is
 * not part of this model; they are the `Topics` value the data source is
 * built with. Exchange-symbol lookups are maps: a pair or symbol missing from
 * the map stands for a lookup that raises. The tracking nonce used as a diff's
 * update id and `is_linear_perpetual` are parameters.
 */
module BybitPerpetualSource {
  import opened Wrappers
  import opened OrderBookMessages
  import Strings
  import PairLists
  import DataSourcePairs

  /** `WS_TRADES_TOPIC`, `WS_ORDER_BOOK_EVENTS_TOPIC` and `WS_INSTRUMENTS_INFO_TOPIC`. */
  datatype Topics = Topics(trades: string, orderBook: string, instruments: string)

  /** The classification below can tell the three topics apart. */
  predicate DistinctTopics(t: Topics) {
    t.trades != t.orderBook && t.trades != t.instruments && t.orderBook != t.instruments
  }

  /** `f"{TOPIC}.{symbol}"`. */
  function TopicFor(prefix: string, symbol: string): string {
    prefix + "." + symbol
  }

  // ---------------------------------------------------------------------------
  // _channel_originating_message
  // ---------------------------------------------------------------------------

  /** The parts of a websocket event the classification reads. */
  datatype WsEvent = WsEvent(hasSuccess: bool, topic: Option<string>)

  /**
   * An acknowledgement (a `"success"` key) goes nowhere; otherwise the topic
   * without its last dot-separated segment picks the queue, and an unknown
   * topic goes nowhere. An event with neither key raises `KeyError`.
   */
  function ChannelOf(topics: Topics, event: WsEvent): (r: Result<ChannelKey, string>)
    ensures event.hasSuccess ==> r == Ok(Unrouted)
    ensures r.Err? <==> !event.hasSuccess && event.topic.None?
    ensures !event.hasSuccess && event.topic.Some? ==>
              var prefix := Strings.DropLastSegment(event.topic.value, '.');
              && (r == Ok(TradeKey) <==> prefix == topics.trades)
              && (r == Ok(DiffKey) <==> prefix == topics.orderBook && prefix != topics.trades)
              && (r == Ok(FundingKey) <==> prefix == topics.instruments && prefix !in {topics.trades, topics.orderBook})
              && (r == Ok(Unrouted) <==> prefix !in {topics.trades, topics.orderBook, topics.instruments})
  {
    if event.hasSuccess then Ok(Unrouted)
    else if event.topic.None? then Err("topic")
    else
      var prefix := Strings.DropLastSegment(event.topic.value, '.');
      Ok(if prefix == topics.trades then TradeKey
         else if prefix == topics.orderBook then DiffKey
         else if prefix == topics.instruments then FundingKey
         else Unrouted)
  }

  /** `topic.split(".")[-1]`: the exchange symbol an event is about. */
  function SymbolOf(topic: string): string {
    Strings.LastSegment(topic, '.')
  }

  /**
   * Every topic the data source subscribes to comes back on the matching
   * queue, and the symbol read off the event is the one subscribed, provided
   * the exchange symbol has no dot in it.
   */
  lemma SubscribedTopicsRouteBack(topics: Topics, symbol: string)
    requires DistinctTopics(topics) && '.' !in symbol
    ensures ChannelOf(topics, WsEvent(false, Some(TopicFor(topics.trades, symbol)))) == Ok(TradeKey)
    ensures ChannelOf(topics, WsEvent(false, Some(TopicFor(topics.orderBook, symbol)))) == Ok(DiffKey)
    ensures ChannelOf(topics, WsEvent(false, Some(TopicFor(topics.instruments, symbol)))) == Ok(FundingKey)
    ensures SymbolOf(TopicFor(topics.trades, symbol)) == symbol
    ensures SymbolOf(TopicFor(topics.orderBook, symbol)) == symbol
    ensures SymbolOf(TopicFor(topics.instruments, symbol)) == symbol
  {
    Strings.SegmentsOfJoined(topics.trades, symbol, '.');
    Strings.SegmentsOfJoined(topics.orderBook, symbol, '.');
    Strings.SegmentsOfJoined(topics.instruments, symbol, '.');
  }

  // ---------------------------------------------------------------------------
  // bid/ask extraction
  // ---------------------------------------------------------------------------

  /** The levels whose size is not zero, in their original order. */
  function NonZero(levels: seq<Level>): seq<Level>
    decreases |levels|
  {
    if levels == [] then []
    else
      var last := levels[|levels| - 1];
      NonZero(levels[..|levels| - 1]) + (if last.size != 0.0 then [last] else [])
  }

  /** `NonZero` keeps exactly the levels of non-zero size and nothing else. */
  lemma {:induction false} NonZeroKeepsExactly(levels: seq<Level>)
    ensures forall l :: l in NonZero(levels) <==> l in levels && l.size != 0.0
    ensures |NonZero(levels)| <= |levels|
    decreases |levels|
  {
    if levels != [] {
      var front := levels[..|levels| - 1];
      NonZeroKeepsExactly(front);
      assert levels == front + [levels[|levels| - 1]];
    }
  }

  /** Filtering is compositional, so the kept levels keep their relative order. */
  lemma {:induction false} NonZeroOfConcat(a: seq<Level>, b: seq<Level>)
    ensures NonZero(a + b) == NonZero(a) + NonZero(b)
    decreases |b|
  {
    if b == [] {
      assert a + b == a;
    } else {
      var front := b[..|b| - 1];
      NonZeroOfConcat(a, front);
      assert (a + b)[..|a + b| - 1] == a + front;
    }
  }

  /** A side with no zero-size level passes unchanged. */
  lemma {:induction false} NonZeroOfLive(levels: seq<Level>)
    requires forall i | 0 <= i < |levels| :: levels[i].size != 0.0
    ensures NonZero(levels) == levels
    decreases |levels|
  {
    if levels != [] {
      NonZeroOfLive(levels[..|levels| - 1]);
    }
  }

  /** A book side of a websocket payload: `"b"` or `"a"`, absent reads as empty. */
  datatype WsBookData = WsBookData(b: Option<seq<Level>>, a: Option<seq<Level>>)

  /**
   * `_get_bids_and_asks_from_ws_msg_data`: a level of size zero means "delete
   * this price" and is skipped, every other level is kept in order.
   */
  method BidsAndAsksFromWsData(data: WsBookData) returns (bids: seq<Level>, asks: seq<Level>)
    ensures bids == NonZero(data.b.GetOr([])) && asks == NonZero(data.a.GetOr([]))
  {
    bids := DropDeletedLevels(data.b.GetOr([]));
    asks := DropDeletedLevels(data.a.GetOr([]));
  }

  /** One of the two filtering loops of `_get_bids_and_asks_from_ws_msg_data`. */
  method DropDeletedLevels(levels: seq<Level>) returns (kept: seq<Level>)
    ensures kept == NonZero(levels)
  {
    kept := [];
    var i := 0;
    while i < |levels|
      invariant 0 <= i <= |levels|
      invariant kept == NonZero(levels[..i])
    {
      assert levels[..i + 1][..i] == levels[..i];
      if levels[i].size != 0.0 {
        kept := kept + [levels[i]];
      }
      i := i + 1;
    }
    assert levels[..i] == levels;
  }

  /** A REST snapshot payload: `"b"` and `"a"` must both be present. */
  datatype RestBookData = RestBookData(b: Option<seq<Level>>, a: Option<seq<Level>>)

  /** `_get_bids_and_asks_from_rest_msg_data`: every row kept in order; a missing side raises. */
  function BidsAndAsksFromRestData(data: RestBookData): (r: Result<(seq<Level>, seq<Level>), string>)
    ensures r.Ok? <==> data.b.Some? && data.a.Some?
    ensures r.Ok? ==> r.value == (data.b.value, data.a.value)
  {
    if data.b.None? then Err("b")
    else if data.a.None? then Err("a")
    else Ok((data.b.value, data.a.value))
  }

  /** On a payload with no deletions the websocket reading and the REST reading agree. */
  lemma WsAndRestAgreeWithoutDeletions(bids: seq<Level>, asks: seq<Level>)
    requires forall i | 0 <= i < |bids| :: bids[i].size != 0.0
    requires forall i | 0 <= i < |asks| :: asks[i].size != 0.0
    ensures BidsAndAsksFromRestData(RestBookData(Some(bids), Some(asks))) == Ok((NonZero(bids), NonZero(asks)))
  {
    NonZeroOfLive(bids);
    NonZeroOfLive(asks);
  }

  // ---------------------------------------------------------------------------
  // diff and funding events
  // ---------------------------------------------------------------------------

  /** The parts of an order-book or instruments event the parsers read. */
  datatype DeltaEvent = DeltaEvent(eventType: string, topic: string, ts: int, data: WsBookData)

  /**
   * `_parse_order_book_diff_message`: only a `"delta"` event becomes a diff,
   * for the pair of the topic's symbol, with the given nonce as update id,
   * the non-zero levels as sides and `ts` in seconds as timestamp. `Ok(None)`
   * is an event that is silently skipped; `Err` is a symbol lookup that raises.
   */
  method ParseOrderBookDiff(event: DeltaEvent, pairsBySymbol: map<string, string>, updateId: int)
    returns (r: Result<Option<OrderBookMessage>, string>)
    ensures event.eventType != "delta" ==> r == Ok(None)
    ensures event.eventType == "delta" && SymbolOf(event.topic) !in pairsBySymbol ==> r.Err?
    ensures event.eventType == "delta" && SymbolOf(event.topic) in pairsBySymbol ==>
              && r.Ok? && r.value.Some?
              && r.value.value.kind == Diff
              && r.value.value.tradingPair == pairsBySymbol[SymbolOf(event.topic)]
              && r.value.value.updateId == updateId
              && r.value.value.bids == NonZero(event.data.b.GetOr([]))
              && r.value.value.asks == NonZero(event.data.a.GetOr([]))
              && r.value.value.timestamp == event.ts as real / 1000.0
              && r.value.value.trade.None?
  {
    if event.eventType != "delta" {
      return Ok(None);
    }
    var symbol := SymbolOf(event.topic);
    if symbol !in pairsBySymbol {
      return Err("unknown symbol");
    }
    var bids, asks := BidsAndAsksFromWsData(event.data);
    var msg := DiffMessage(pairsBySymbol[symbol], updateId, None, bids, asks, event.ts as real / 1000.0);
    return Ok(Some(msg));
  }

  /** An instruments-info entry: each field may be missing. */
  datatype FundingEntry = FundingEntry(indexPrice: Option<real>, markPrice: Option<real>,
                                       nextFundingTime: Option<int>, fundingRate: Option<real>)

  /** `FundingInfoUpdate`: only the fields that were set. */
  datatype FundingInfoUpdate = FundingInfoUpdate(tradingPair: string, indexPrice: Option<real>, markPrice: Option<real>,
                                                 nextFundingUtcTimestamp: Option<int>, rate: Option<real>)

  /**
   * `_parse_funding_info_message`: a `"delta"` event for a known symbol sets
   * exactly the fields its entry carries; the next funding time goes from
   * milliseconds to whole seconds, rounded down.
   */
  function FundingUpdateOf(eventType: string, topic: string, entry: FundingEntry, pairsBySymbol: map<string, string>)
    : (r: Result<Option<FundingInfoUpdate>, string>)
    ensures eventType != "delta" ==> r == Ok(None)
    ensures eventType == "delta" ==> (r.Ok? <==> SymbolOf(topic) in pairsBySymbol)
    ensures eventType == "delta" && SymbolOf(topic) in pairsBySymbol ==> r.Ok? && r.value.Some?
    ensures r.Ok? && r.value.Some? ==>
              var u := r.value.value;
              && u.tradingPair == pairsBySymbol[SymbolOf(topic)]
              && u.indexPrice == entry.indexPrice && u.markPrice == entry.markPrice && u.rate == entry.fundingRate
              && (u.nextFundingUtcTimestamp.Some? <==> entry.nextFundingTime.Some?)
              && (u.nextFundingUtcTimestamp.Some? ==>
                    u.nextFundingUtcTimestamp.value * 1000 <= entry.nextFundingTime.value
                    < u.nextFundingUtcTimestamp.value * 1000 + 1000)
  {
    if eventType != "delta" then Ok(None)
    else
      var symbol := SymbolOf(topic);
      if symbol !in pairsBySymbol then Err("unknown symbol")
      else
        var next := if entry.nextFundingTime.Some? then Some(entry.nextFundingTime.value / 1000) else None;
        Ok(Some(FundingInfoUpdate(pairsBySymbol[symbol], entry.indexPrice, entry.markPrice, next, entry.fundingRate)))
  }

  // ---------------------------------------------------------------------------
  // dynamic subscription
  // ---------------------------------------------------------------------------

  /** A websocket request: `{"op": op, "args": args}`. */
  datatype WsRequest = WsRequest(op: string, args: seq<string>)

  /** A request as sent, with the connection it went out on. */
  datatype Sent = Sent(linear: bool, request: WsRequest)

  /** The three requests `subscribe_to_trading_pair` sends, in order. */
  function SubscribeRequests(topics: Topics, symbol: string): seq<WsRequest> {
    [WsRequest("subscribe", [TopicFor(topics.trades, symbol)]),
     WsRequest("subscribe", [TopicFor(topics.orderBook, symbol)]),
     WsRequest("subscribe", [TopicFor(topics.instruments, symbol)])]
  }

  /** The single request `unsubscribe_from_trading_pair` sends. */
  function UnsubscribeRequest(topics: Topics, symbol: string): WsRequest {
    WsRequest("unsubscribe", [TopicFor(topics.trades, symbol), TopicFor(topics.orderBook, symbol),
                              TopicFor(topics.instruments, symbol)])
  }

  /**
   * The unsubscribe request names exactly the topics subscribed, in the same
   * order, and each of them routes back to a queue of its own.
   */
  lemma UnsubscribeMirrorsSubscribe(topics: Topics, symbol: string)
    requires DistinctTopics(topics) && '.' !in symbol
    ensures var subs := SubscribeRequests(topics, symbol);
            UnsubscribeRequest(topics, symbol).args == [subs[0].args[0], subs[1].args[0], subs[2].args[0]]
    ensures forall topic | topic in UnsubscribeRequest(topics, symbol).args ::
              ChannelOf(topics, WsEvent(false, Some(topic))).Ok?
              && ChannelOf(topics, WsEvent(false, Some(topic))).value != Unrouted
              && SymbolOf(topic) == symbol
  {
    SubscribedTopicsRouteBack(topics, symbol);
  }

  /** The requests of `requests` that go out before the send numbered `failsAt` raises. */
  function SentBefore(requests: seq<WsRequest>, failsAt: Option<nat>): seq<WsRequest> {
    if failsAt.Some? && failsAt.value < |requests| then requests[..failsAt.value] else requests
  }

  function Tagged(linear: bool, requests: seq<WsRequest>): (r: seq<Sent>)
    ensures |r| == |requests|
    ensures forall i | 0 <= i < |r| :: r[i] == Sent(linear, requests[i])
  {
    seq(|requests|, i requires 0 <= i < |requests| => Sent(linear, requests[i]))
  }

  /**
   * The dynamic-subscription side of the data source: the pair list, which
   * of the two connections is up, and every request sent.
   */
  class BybitPerpetualDataSource {
    const topics: Topics
    var tradingPairs: seq<string>
    var linearConnected: bool
    var nonLinearConnected: bool
    var sent: seq<Sent>

    constructor (topics: Topics, tradingPairs: seq<string>)
      ensures this.topics == topics && this.tradingPairs == tradingPairs
      ensures !linearConnected && !nonLinearConnected && sent == []
    {
      this.topics := topics;
      this.tradingPairs := tradingPairs;
      linearConnected := false;
      nonLinearConnected := false;
      sent := [];
    }

    /** Whether the connection a pair of this kind uses is up. */
    function ConnectionUp(linear: bool): bool
      reads this
    {
      if linear then linearConnected else nonLinearConnected
    }

    /**
     * `subscribe_to_trading_pair`. `linear` is what `is_linear_perpetual`
     * says of the pair; `sendFailsAt` is the send that raises, if any. With
     * its connection down nothing is sent and the answer is False; a symbol
     * lookup that raises sends nothing; a send that raises leaves the earlier
     * requests sent and the pair list as it was. Only when all three requests
     * went out is the pair added and True returned.
     */
    method SubscribeToTradingPair(pair: string, linear: bool, symbols: map<string, string>, sendFailsAt: Option<nat>)
      returns (ok: bool)
      modifies this`tradingPairs, this`sent
      ensures !old(ConnectionUp(linear)) || pair !in symbols ==>
                !ok && tradingPairs == old(tradingPairs) && sent == old(sent)
      ensures old(ConnectionUp(linear)) && pair in symbols ==>
                var requests := SubscribeRequests(topics, symbols[pair]);
                && sent == old(sent) + Tagged(linear, SentBefore(requests, sendFailsAt))
                && (ok <==> SentBefore(requests, sendFailsAt) == requests)
                && tradingPairs == if ok then DataSourcePairs.Added(old(tradingPairs), pair) else old(tradingPairs)
    {
      if !ConnectionUp(linear) {
        return false;
      }
      if pair !in symbols {
        return false;
      }
      var requests := SubscribeRequests(topics, symbols[pair]);
      if sendFailsAt == Some(0) {
        return false;
      }
      sent := sent + [Sent(linear, requests[0])];
      if sendFailsAt == Some(1) {
        assert requests[..1] == [requests[0]];
        return false;
      }
      sent := sent + [Sent(linear, requests[1])];
      if sendFailsAt == Some(2) {
        assert requests[..2] == [requests[0], requests[1]];
        return false;
      }
      sent := sent + [Sent(linear, requests[2])];
      tradingPairs := DataSourcePairs.Added(tradingPairs, pair);
      return true;
    }

    /**
     * `unsubscribe_from_trading_pair`: the mirror image with one request
     * naming all three topics; True once it went out, whether or not the pair
     * was listed.
     */
    method UnsubscribeFromTradingPair(pair: string, linear: bool, symbols: map<string, string>, sendFails: bool)
      returns (ok: bool)
      modifies this`tradingPairs, this`sent
      ensures ok <==> old(ConnectionUp(linear)) && pair in symbols && !sendFails
      ensures !ok ==> tradingPairs == old(tradingPairs)
      ensures ok ==> tradingPairs == DataSourcePairs.Removed(old(tradingPairs), pair)
      ensures sent == if ok then old(sent) + [Sent(linear, UnsubscribeRequest(topics, symbols[pair]))] else old(sent)
    {
      if !ConnectionUp(linear) || pair !in symbols || sendFails {
        return false;
      }
      sent := sent + [Sent(linear, UnsubscribeRequest(topics, symbols[pair]))];
      tradingPairs := DataSourcePairs.Removed(tradingPairs, pair);
      return true;
    }
  }
}
