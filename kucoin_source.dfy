/**
 * The order-book data source of the Kucoin connector
 * (hummingbot/connector/exchange/kucoin/kucoin_api_order_book_data_source.py):
 * which queue a websocket event belongs to, how snapshot, diff and trade
 * payloads become messages, the class-wide subscribe-id counter, the
 * subscribe and unsubscribe decision with its topic strings, and the ping
 * deadline kept on the websocket.
 *
 * The two subject names live in the connector's constants module, which is
 * not part of this model; they are the `Subjects` value. The clock, the ids of
 * `web_utils.next_message_id` and the exchange-symbol lookups are parameters;
 * a pair or symbol missing from a lookup map stands for a lookup that raises.
 */
module KucoinSource {
  import opened Wrappers
  import opened OrderBookMessages
  import Strings
  import DataSourcePairs

  /** `TRADE_EVENT_TYPE` and `DIFF_EVENT_TYPE`. */
  datatype Subjects = Subjects(trade: string, diff: string)

  // ---------------------------------------------------------------------------
  // _channel_originating_message
  // ---------------------------------------------------------------------------

  /** The parts of a websocket event the classification reads. */
  datatype WsEvent = WsEvent(hasData: bool, eventType: Option<string>, subject: Option<string>)

  /**
   * Only a `"message"` event carrying `"data"` is routed: the trade subject to
   * the trade queue, the diff subject to the diff queue (the later test wins
   * should the two subjects coincide), everything else nowhere.
   */
  function ChannelOf(subjects: Subjects, event: WsEvent): (r: ChannelKey)
    ensures r == DiffKey <==>
              event.hasData && event.eventType == Some("message") && event.subject == Some(subjects.diff)
    ensures r == TradeKey <==>
              && event.hasData && event.eventType == Some("message") && event.subject == Some(subjects.trade)
              && subjects.trade != subjects.diff
    ensures r in {Unrouted, TradeKey, DiffKey}
  {
    if event.hasData && event.eventType == Some("message") then
      var subject := event.subject;
      if subject == Some(subjects.diff) then DiffKey
      else if subject == Some(subjects.trade) then TradeKey
      else Unrouted
    else Unrouted
  }

  // ---------------------------------------------------------------------------
  // messages
  // ---------------------------------------------------------------------------

  /** `data` of a REST snapshot response: `time` in milliseconds, `sequence` as text. */
  datatype SnapshotData = SnapshotData(time: real, sequence: string, bids: seq<Level>, asks: seq<Level>)

  /**
   * `_order_book_snapshot`: the update id is the integer the sequence text
   * spells (a sequence that does not parse raises), the sides are taken as
   * they are and the time goes from milliseconds to seconds.
   */
  function SnapshotOf(pair: string, data: SnapshotData): (r: Result<OrderBookMessage, string>)
    ensures r.Ok? <==> Strings.ParseInt(data.sequence).Some?
    ensures r.Ok? ==>
              && r.value.kind == Snapshot && r.value.tradingPair == pair
              && r.value.updateId == Strings.ParseInt(data.sequence).value
              && r.value.bids == data.bids && r.value.asks == data.asks
              && r.value.timestamp * 1000.0 == data.time
  {
    match Strings.ParseInt(data.sequence)
    case None => Err("sequence")
    case Some(n) => Ok(SnapshotMessage(pair, n, data.bids, data.asks, data.time / 1000.0))
  }

  /** A snapshot whose sequence is the decimal spelling of `n` has update id `n`. */
  lemma SnapshotSequenceRoundTrip(pair: string, n: int, time: real, bids: seq<Level>, asks: seq<Level>)
    ensures SnapshotOf(pair, SnapshotData(time, Strings.IntToString(n), bids, asks)).Ok?
    ensures SnapshotOf(pair, SnapshotData(time, Strings.IntToString(n), bids, asks)).value.updateId == n
  {
    Strings.ParseIntOfIntToString(n);
  }

  /** `data` of a level-2 event. */
  datatype DiffData = DiffData(symbol: string, sequenceStart: int, sequenceEnd: int, bids: seq<Level>, asks: seq<Level>)

  /**
   * `_parse_order_book_diff_message`: the diff covers updates `sequenceStart`
   * to `sequenceEnd` of the pair the symbol maps to, with the `changes` sides
   * as they are, stamped with the local clock.
   */
  function DiffOf(data: DiffData, pairsBySymbol: map<string, string>, now: real): (r: Result<OrderBookMessage, string>)
    ensures r.Ok? <==> data.symbol in pairsBySymbol
    ensures r.Ok? ==>
              && r.value.kind == Diff && r.value.tradingPair == pairsBySymbol[data.symbol]
              && r.value.firstUpdateId == Some(data.sequenceStart) && r.value.updateId == data.sequenceEnd
              && r.value.bids == data.bids && r.value.asks == data.asks
              && r.value.timestamp == now
  {
    if data.symbol !in pairsBySymbol then Err("unknown symbol")
    else Ok(DiffMessage(pairsBySymbol[data.symbol], data.sequenceEnd, Some(data.sequenceStart), data.bids, data.asks, now))
  }

  /** `data` of a match event: `time` in nanoseconds. */
  datatype TradeData = TradeData(time: int, symbol: string, tradeId: string, sequence: int, side: string,
                                 size: real, price: real)

  /**
   * `_parse_trade_message`: a buy exactly when the side is `"buy"` (any other
   * side is a sell), the update id is the sequence and the time goes from
   * nanoseconds to seconds.
   */
  function TradeOf(data: TradeData, pairsBySymbol: map<string, string>): (r: Result<OrderBookMessage, string>)
    ensures r.Ok? <==> data.symbol in pairsBySymbol
    ensures r.Ok? ==>
              && r.value.kind == Trade && r.value.tradingPair == pairsBySymbol[data.symbol]
              && r.value.updateId == data.sequence && r.value.tradeId == Some(StrId(data.tradeId)) && r.value.trade.Some?
              && (r.value.trade.value.tradeType == Buy <==> data.side == "buy")
              && r.value.trade.value.price == data.price && r.value.trade.value.amount == data.size
              && r.value.timestamp * 1000000000.0 == data.time as real
  {
    if data.symbol !in pairsBySymbol then Err("unknown symbol")
    else
      var side := if data.side == "buy" then Buy else Sell;
      Ok(TradeMessage(pairsBySymbol[data.symbol], data.sequence, StrId(data.tradeId),
                      TradeContent(side, data.price, data.size), data.time as real / 1000000000.0))
  }

  // ---------------------------------------------------------------------------
  // _get_next_subscribe_id
  // ---------------------------------------------------------------------------

  /** `_DYNAMIC_SUBSCRIBE_ID_START`. */
  const DynamicSubscribeIdStart: int := 100

  /**
   * The class attribute `_next_subscribe_id`, shared by every instance: one
   * object of this class stands for the class.
   */
  class SubscribeIdCounter {
    var next: int

    /** No id below the start value is ever handed out. */
    predicate Valid()
      reads this
    {
      next >= DynamicSubscribeIdStart
    }

    constructor ()
      ensures Valid() && next == DynamicSubscribeIdStart
    {
      next := DynamicSubscribeIdStart;
    }

    /**
     * `_get_next_subscribe_id`: hands out the current value and moves past
     * it, so every later id is strictly larger than this one.
     */
    method NextId() returns (id: int)
      requires Valid()
      modifies this
      ensures Valid() && id >= DynamicSubscribeIdStart
      ensures id == old(next) && next == old(next) + 1 && id < next
    {
      id := next;
      next := next + 1;
    }
  }

  // ---------------------------------------------------------------------------
  // subscription and ping bookkeeping
  // ---------------------------------------------------------------------------

  /** A websocket request: `{"id": id, "type": type, "topic": topic}` (public, no response). */
  datatype WsRequest = WsRequest(id: int, requestType: string, topic: string)

  function MatchTopic(symbols: string): string { "/market/match:" + symbols }
  function Level2Topic(symbols: string): string { "/market/level2:" + symbols }

  /** The two requests a single-pair (un)subscription sends, trades first. */
  function PairRequests(requestType: string, symbol: string, tradeId: int, bookId: int): seq<WsRequest> {
    [WsRequest(tradeId, requestType, MatchTopic(symbol)), WsRequest(bookId, requestType, Level2Topic(symbol))]
  }

  /**
   * The comma-joined symbol list of `_subscribe_channels` splits back into
   * the symbols of the tracked pairs, one per pair and in the same order,
   * as long as no symbol contains a comma.
   */
  lemma BatchTopicListsEveryPair(pairs: seq<string>, symbols: map<string, string>)
    requires |pairs| >= 1 && DataSourcePairs.SymbolsOf(pairs, symbols).Some?
    requires forall p | p in symbols :: ',' !in symbols[p]
    ensures var syms := DataSourcePairs.SymbolsOf(pairs, symbols).value;
            Strings.Split(Strings.Join(syms, ','), ',') == syms
  {
    var syms := DataSourcePairs.SymbolsOf(pairs, symbols).value;
    assert forall i | 0 <= i < |syms| :: ',' !in syms[i] by {
      forall i | 0 <= i < |syms| ensures ',' !in syms[i] {
        assert syms[i] == symbols[pairs[i]];
      }
    }
    Strings.SplitJoin(syms, ',');
  }

  /**
   * The subscription side of the data source: the pair list, whether the
   * websocket is connected, when a message was last sent, the ping interval
   * in seconds, and every request sent.
   */
  class KucoinDataSource {
    var tradingPairs: seq<string>
    var connected: bool
    var lastSent: real
    var pingInterval: real
    var sent: seq<WsRequest>
    var pings: seq<int>

    constructor (tradingPairs: seq<string>)
      ensures this.tradingPairs == tradingPairs && !connected
      ensures lastSent == 0.0 && pingInterval == 0.0 && sent == [] && pings == []
    {
      this.tradingPairs := tradingPairs;
      connected := false;
      lastSent := 0.0;
      pingInterval := 0.0;
      sent := [];
      pings := [];
    }

    /**
     * `_connected_websocket_assistant`: the ping interval is 80% of the one
     * the server announces in milliseconds, in seconds.
     */
    method Connect(serverPingIntervalMs: int)
      modifies this`connected, this`pingInterval
      ensures connected
      ensures pingInterval * 1000.0 == serverPingIntervalMs as real * 0.8
    {
      connected := true;
      pingInterval := serverPingIntervalMs as real * 0.8 / 1000.0;
    }

    /** How long the message loop may wait before it must ping. */
    function SecondsUntilNextPing(now: real): real
      reads this`pingInterval, this`lastSent
    {
      pingInterval - (now - lastSent)
    }

    /**
     * The timeout branch of `_process_websocket_messages`: the deadline is
     * reset to a full ping interval before the ping goes out, so a ping whose
     * send raises still counts as sent.
     */
    method PingOnTimeout(now: real, id: int, sendFails: bool)
      modifies this`lastSent, this`pings
      ensures lastSent == now && SecondsUntilNextPing(now) == pingInterval
      ensures pings == if sendFails then old(pings) else old(pings) + [id]
    {
      lastSent := now;
      if !sendFails {
        pings := pings + [id];
      }
    }

    /**
     * `_subscribe_channels`: one trade and one level-2 request naming every
     * tracked pair's symbol, comma-separated. A lookup or send that raises is
     * re-raised (`false` here) after the requests sent so far.
     */
    method SubscribeChannels(symbols: map<string, string>, tradeId: int, bookId: int, sendFailsAt: Option<nat>, now: real)
      returns (ok: bool)
      modifies this`sent, this`lastSent
      ensures DataSourcePairs.SymbolsOf(old(tradingPairs), symbols).None? ==> !ok && sent == old(sent) && lastSent == old(lastSent)
      ensures DataSourcePairs.SymbolsOf(old(tradingPairs), symbols).Some? ==>
                var requests := PairRequests("subscribe", Strings.Join(DataSourcePairs.SymbolsOf(tradingPairs, symbols).value, ','), tradeId, bookId);
                && (ok <==> sendFailsAt.None? || sendFailsAt.value >= 2)
                && sent == old(sent) + (if ok then requests else requests[..sendFailsAt.value])
                && lastSent == (if ok then now else old(lastSent))
    {
      var syms := DataSourcePairs.SymbolsOf(tradingPairs, symbols);
      if syms.None? {
        return false;
      }
      var requests := PairRequests("subscribe", Strings.Join(syms.value, ','), tradeId, bookId);
      ok := SendPair(requests, sendFailsAt);
      if ok {
        lastSent := now;
      }
    }

    /** The two sends of one (un)subscription; the send numbered `sendFailsAt` raises. */
    method SendPair(requests: seq<WsRequest>, sendFailsAt: Option<nat>) returns (ok: bool)
      requires |requests| == 2
      modifies this`sent
      ensures ok <==> sendFailsAt.None? || sendFailsAt.value >= 2
      ensures sent == old(sent) + (if ok then requests else requests[..sendFailsAt.value])
    {
      if sendFailsAt == Some(0) {
        return false;
      }
      sent := sent + [requests[0]];
      if sendFailsAt == Some(1) {
        return false;
      }
      sent := sent + [requests[1]];
      return true;
    }

    /**
     * `subscribe_to_trading_pair`: without a connection nothing is sent and
     * the answer is False. Otherwise the trade and level-2 requests for the
     * pair's symbol go out; only when both did is the last-sent time moved to
     * now, the pair added and True returned. A raising lookup or send gives
     * False with the list unchanged.
     */
    method SubscribeToTradingPair(pair: string, symbols: map<string, string>, tradeId: int, bookId: int,
                                  sendFailsAt: Option<nat>, now: real)
      returns (ok: bool)
      modifies this`sent, this`lastSent, this`tradingPairs
      ensures ok <==> old(connected) && pair in symbols && (sendFailsAt.None? || sendFailsAt.value >= 2)
      ensures !old(connected) || pair !in symbols ==> sent == old(sent)
      ensures old(connected) && pair in symbols ==>
                var requests := PairRequests("subscribe", symbols[pair], tradeId, bookId);
                sent == old(sent) + (if ok then requests else requests[..sendFailsAt.value])
      ensures lastSent == (if ok then now else old(lastSent))
      ensures tradingPairs == (if ok then DataSourcePairs.Added(old(tradingPairs), pair) else old(tradingPairs))
    {
      if !connected || pair !in symbols {
        return false;
      }
      ok := SendPair(PairRequests("subscribe", symbols[pair], tradeId, bookId), sendFailsAt);
      if ok {
        lastSent := now;
        tradingPairs := DataSourcePairs.Added(tradingPairs, pair);
      }
    }

    /** `unsubscribe_from_trading_pair`: the mirror image, removing the pair. */
    method UnsubscribeFromTradingPair(pair: string, symbols: map<string, string>, tradeId: int, bookId: int,
                                      sendFailsAt: Option<nat>, now: real)
      returns (ok: bool)
      modifies this`sent, this`lastSent, this`tradingPairs
      ensures ok <==> old(connected) && pair in symbols && (sendFailsAt.None? || sendFailsAt.value >= 2)
      ensures !old(connected) || pair !in symbols ==> sent == old(sent)
      ensures old(connected) && pair in symbols ==>
                var requests := PairRequests("unsubscribe", symbols[pair], tradeId, bookId);
                sent == old(sent) + (if ok then requests else requests[..sendFailsAt.value])
      ensures lastSent == (if ok then now else old(lastSent))
      ensures tradingPairs == (if ok then DataSourcePairs.Removed(old(tradingPairs), pair) else old(tradingPairs))
    {
      if !connected || pair !in symbols {
        return false;
      }
      ok := SendPair(PairRequests("unsubscribe", symbols[pair], tradeId, bookId), sendFailsAt);
      if ok {
        lastSent := now;
        tradingPairs := DataSourcePairs.Removed(tradingPairs, pair);
      }
    }
  }

  /**
   * Subscribing to a new pair and then unsubscribing from it, both
   * succeeding, leaves the pair list as it was.
   */
  lemma SubscribeThenUnsubscribe(pairs: seq<string>, pair: string)
    requires pair !in pairs
    ensures DataSourcePairs.Removed(DataSourcePairs.Added(pairs, pair), pair) == pairs
  {
    DataSourcePairs.AddThenRemove(pairs, pair);
  }
}
