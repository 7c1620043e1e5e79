/**
 * The order-book data source of the Lambdaplex connector
 * (hummingbot/connector/exchange/lambdaplex/lambdaplex_api_order_book_data_source.py):
 * which queue a websocket event belongs to, how trade, diff and snapshot
 * payloads become messages, the class-wide websocket message-id counter, the
 * stream names of a subscription request and the subscribe and unsubscribe
 * decisions.
 *
 * The event types are the connector's constants `DIFF_EVENT_TYPE` and
 * `TRADE_EVENT_TYPE` (hummingbot/connector/exchange/lambdaplex/lambdaplex_constants.py:62-63).
 * The clock and the exchange-symbol lookups are parameters; a pair or symbol
 * missing from a lookup map stands for a lookup that raises.
 */
module LambdaplexSource {
  import opened Wrappers
  import opened OrderBookMessages
  import DataSourcePairs

  const DiffEventType: string := "depthUpdate"
  const TradeEventType: string := "trade"

  // ---------------------------------------------------------------------------
  // _channel_originating_message
  // ---------------------------------------------------------------------------

  /** The parts of a websocket event the classification reads. */
  datatype WsEvent = WsEvent(hasResult: bool, eventType: Option<string>)

  /**
   * A reply to a request (a `"result"` key) goes to the empty channel; a
   * depth update to the diff queue, a trade to the trade queue; any other
   * event, or one without `"e"`, has no channel at all (`None`, not the
   * empty channel).
   */
  function ChannelOf(event: WsEvent): (r: Option<ChannelKey>)
    ensures r == Some(Unrouted) <==> event.hasResult
    ensures r == Some(DiffKey) <==> !event.hasResult && event.eventType == Some(DiffEventType)
    ensures r == Some(TradeKey) <==> !event.hasResult && event.eventType == Some(TradeEventType)
    ensures r.None? <==> !event.hasResult && event.eventType != Some(DiffEventType) && event.eventType != Some(TradeEventType)
  {
    if event.hasResult then Some(Unrouted)
    else if event.eventType == Some(DiffEventType) then Some(DiffKey)
    else if event.eventType == Some(TradeEventType) then Some(TradeKey)
    else None
  }

  // ---------------------------------------------------------------------------
  // messages
  // ---------------------------------------------------------------------------

  /** A trade event: symbol, event time `E` in milliseconds, trade id, buyer-is-maker flag `m`. */
  datatype TradeEvent = TradeEvent(s: string, eventTime: int, t: int, m: bool, p: real, q: real)

  /**
   * `_parse_trade_message`: a sell exactly when the buyer is the maker, the
   * event time serves as update id and, in seconds, as timestamp.
   */
  function TradeOf(event: TradeEvent, pairsBySymbol: map<string, string>): (r: Result<OrderBookMessage, string>)
    ensures r.Ok? <==> event.s in pairsBySymbol
    ensures r.Ok? ==>
              && r.value.kind == Trade && r.value.tradingPair == pairsBySymbol[event.s]
              && r.value.updateId == event.eventTime && r.value.tradeId == Some(IntId(event.t))
              && r.value.trade.Some?
              && (r.value.trade.value.tradeType == Sell <==> event.m)
              && r.value.trade.value.price == event.p && r.value.trade.value.amount == event.q
              && r.value.timestamp * 1000.0 == event.eventTime as real
  {
    if event.s !in pairsBySymbol then Err("unknown symbol")
    else
      var side := if event.m then Sell else Buy;
      Ok(TradeMessage(pairsBySymbol[event.s], event.eventTime, IntId(event.t),
                      TradeContent(side, event.p, event.q), event.eventTime as real / 1000.0))
  }

  /** A depth event: `U` and `u` are the first and last update ids it covers. */
  datatype DepthEvent = DepthEvent(hasResult: bool, s: string, firstU: int, lastU: int, b: seq<Level>, a: seq<Level>)

  /**
   * `_parse_order_book_diff_message`: a request reply yields nothing;
   * otherwise a diff from `U` to `u` with the sides as they are, stamped with
   * the local clock.
   */
  function DiffOf(event: DepthEvent, pairsBySymbol: map<string, string>, now: real)
    : (r: Result<Option<OrderBookMessage>, string>)
    ensures event.hasResult ==> r == Ok(None)
    ensures !event.hasResult ==> (r.Ok? <==> event.s in pairsBySymbol)
    ensures r.Ok? && r.value.Some? ==>
              && !event.hasResult
              && r.value.value.kind == Diff && r.value.value.tradingPair == pairsBySymbol[event.s]
              && r.value.value.firstUpdateId == Some(event.firstU) && r.value.value.updateId == event.lastU
              && r.value.value.bids == event.b && r.value.value.asks == event.a
              && r.value.value.timestamp == now
  {
    if event.hasResult then Ok(None)
    else if event.s !in pairsBySymbol then Err("unknown symbol")
    else Ok(Some(DiffMessage(pairsBySymbol[event.s], event.lastU, Some(event.firstU), event.b, event.a, now)))
  }

  /** `_order_book_snapshot`: `lastUpdateId` as update id, stamped with the local clock. */
  function SnapshotOf(pair: string, lastUpdateId: int, bids: seq<Level>, asks: seq<Level>, now: real)
    : (r: OrderBookMessage)
    ensures r.kind == Snapshot && r.tradingPair == pair && r.updateId == lastUpdateId
    ensures r.bids == bids && r.asks == asks && r.timestamp == now
  {
    SnapshotMessage(pair, lastUpdateId, bids, asks, now)
  }

  // ---------------------------------------------------------------------------
  // _get_next_ws_message_id
  // ---------------------------------------------------------------------------

  /**
   * The class attribute `_next_ws_message_id`, starting at 1 and shared by
   * every instance: one object of this class stands for the class. (The
   * instance attribute `_next_message_id` is never read.)
   */
  class WsMessageIds {
    var next: int

    predicate Valid()
      reads this
    {
      next >= 1
    }

    constructor ()
      ensures Valid() && next == 1
    {
      next := 1;
    }

    /** `_get_next_ws_message_id`: hands out the current value and moves past it. */
    method NextId() returns (id: int)
      requires Valid()
      modifies this
      ensures Valid() && id >= 1
      ensures id == old(next) && next == old(next) + 1 && id < next
    {
      id := next;
      next := next + 1;
    }
  }

  // ---------------------------------------------------------------------------
  // subscription
  // ---------------------------------------------------------------------------

  /** `{"method": op, "params": params, "id": id}`. */
  datatype StreamRequest = StreamRequest(op: string, params: seq<string>, id: int)

  function TradeStream(symbol: string): string { symbol + "@trade" }
  function DepthStream(symbol: string): string { symbol + "@depth@100ms" }

  function OpName(subscribe: bool): string {
    if subscribe then "subscribe" else "unsubscribe"
  }

  /** The trade streams and the depth streams of `syms`, each in the order of `syms`. */
  function Streams(syms: seq<string>): (r: (seq<string>, seq<string>))
    ensures |r.0| == |syms| && |r.1| == |syms|
    ensures forall i | 0 <= i < |syms| :: r.0[i] == TradeStream(syms[i]) && r.1[i] == DepthStream(syms[i])
  {
    (seq(|syms|, i requires 0 <= i < |syms| => TradeStream(syms[i])),
     seq(|syms|, i requires 0 <= i < |syms| => DepthStream(syms[i])))
  }

  /**
   * The loop of `_send_sub_unsub_for_trading_pairs`: one trade stream and one
   * depth stream per pair, in the order of the pairs; `None` when a symbol
   * lookup raises.
   */
  method StreamParams(pairs: seq<string>, symbols: map<string, string>)
    returns (r: Option<(seq<string>, seq<string>)>)
    ensures r.Some? <==> forall i | 0 <= i < |pairs| :: pairs[i] in symbols
    ensures r.Some? ==>
              && |r.value.0| == |pairs| && |r.value.1| == |pairs|
              && forall i | 0 <= i < |pairs| ::
                   r.value.0[i] == TradeStream(symbols[pairs[i]]) && r.value.1[i] == DepthStream(symbols[pairs[i]])
    ensures r.Some? ==> r.value == Streams(DataSourcePairs.SymbolsOf(pairs, symbols).value)
  {
    var tradeParams: seq<string> := [];
    var depthParams: seq<string> := [];
    var i := 0;
    while i < |pairs|
      invariant 0 <= i <= |pairs|
      invariant forall k | 0 <= k < i :: pairs[k] in symbols
      invariant |tradeParams| == i && |depthParams| == i
      invariant forall k | 0 <= k < i ::
                  tradeParams[k] == TradeStream(symbols[pairs[k]]) && depthParams[k] == DepthStream(symbols[pairs[k]])
    {
      if pairs[i] !in symbols {
        return None;
      }
      var symbol := symbols[pairs[i]];
      tradeParams := tradeParams + [TradeStream(symbol)];
      depthParams := depthParams + [DepthStream(symbol)];
      i := i + 1;
    }
    var syms := DataSourcePairs.SymbolsOf(pairs, symbols).value;
    assert tradeParams == Streams(syms).0;
    assert depthParams == Streams(syms).1;
    return Some((tradeParams, depthParams));
  }

  /** The two requests of one call: the trade streams under `id`, the depth streams under `id + 1`. */
  function SubUnsubRequests(subscribe: bool, params: (seq<string>, seq<string>), id: int): seq<StreamRequest> {
    [StreamRequest(OpName(subscribe), params.0, id), StreamRequest(OpName(subscribe), params.1, id + 1)]
  }

  /**
   * The subscription side of the data source: the pair list, whether the
   * websocket is connected, every request sent, and the shared id counter.
   */
  class LambdaplexDataSource {
    var tradingPairs: seq<string>
    var connected: bool
    var sent: seq<StreamRequest>
    const ids: WsMessageIds

    constructor (tradingPairs: seq<string>, ids: WsMessageIds)
      ensures this.tradingPairs == tradingPairs && this.ids == ids && !connected && sent == []
    {
      this.tradingPairs := tradingPairs;
      this.ids := ids;
      connected := false;
      sent := [];
    }

    /**
     * `_send_sub_unsub_for_trading_pairs`: every symbol is looked up first;
     * then two consecutive ids are drawn, and then the trade request and the
     * depth request go out. `sendFailsAt` is the send that raises, if any.
     */
    method SendSubUnsub(pairs: seq<string>, subscribe: bool, symbols: map<string, string>, sendFailsAt: Option<nat>)
      returns (ok: bool)
      requires ids.Valid()
      modifies this`sent, ids
      ensures ids.Valid()
      ensures !(forall i | 0 <= i < |pairs| :: pairs[i] in symbols) ==>
                !ok && sent == old(sent) && ids.next == old(ids.next)
      ensures (forall i | 0 <= i < |pairs| :: pairs[i] in symbols) ==>
                var requests := SubUnsubRequests(subscribe, Streams(DataSourcePairs.SymbolsOf(pairs, symbols).value), old(ids.next));
                && ids.next == old(ids.next) + 2
                && (ok <==> sendFailsAt.None? || sendFailsAt.value >= 2)
                && sent == old(sent) + (if ok then requests else requests[..sendFailsAt.value])
    {
      var params := StreamParams(pairs, symbols);
      if params.None? {
        return false;
      }
      var tradeId := ids.NextId();
      var depthId := ids.NextId();
      var requests := [StreamRequest(OpName(subscribe), params.value.0, tradeId),
                       StreamRequest(OpName(subscribe), params.value.1, depthId)];
      if sendFailsAt == Some(0) {
        return false;
      }
      sent := sent + [requests[0]];
      if sendFailsAt == Some(1) {
        assert requests[..1] == [requests[0]];
        return false;
      }
      sent := sent + [requests[1]];
      return true;
    }

    /**
     * `subscribe_to_trading_pair`: False without a connection; True with
     * nothing sent when the pair is already listed; otherwise the requests
     * for the pair go out and the pair is added, unless something raised,
     * which gives False with the list unchanged.
     */
    method SubscribeToTradingPair(pair: string, symbols: map<string, string>, sendFailsAt: Option<nat>)
      returns (ok: bool)
      requires ids.Valid()
      modifies this`sent, this`tradingPairs, ids
      ensures ids.Valid()
      ensures !old(connected) ==> !ok && sent == old(sent) && tradingPairs == old(tradingPairs) && ids.next == old(ids.next)
      ensures old(connected) && pair in old(tradingPairs) ==>
                ok && sent == old(sent) && tradingPairs == old(tradingPairs) && ids.next == old(ids.next)
      ensures old(connected) && pair !in old(tradingPairs) ==>
                && (ok <==> pair in symbols && (sendFailsAt.None? || sendFailsAt.value >= 2))
                && tradingPairs == (if ok then old(tradingPairs) + [pair] else old(tradingPairs))
                && ids.next == old(ids.next) + (if pair in symbols then 2 else 0)
                && sent == old(sent) + (if pair !in symbols then [] else
                                          var requests := SubUnsubRequests(true, Streams([symbols[pair]]), old(ids.next));
                                          if ok then requests else requests[..sendFailsAt.value])
    {
      if !connected {
        return false;
      }
      if pair in tradingPairs {
        return true;
      }
      assert pair in symbols ==> DataSourcePairs.SymbolsOf([pair], symbols).value == [symbols[pair]];
      ok := SendSubUnsub([pair], true, symbols, sendFailsAt);
      if ok {
        tradingPairs := DataSourcePairs.Added(tradingPairs, pair);
      }
    }

    /**
     * `unsubscribe_from_trading_pair`: False without a connection; True with
     * nothing sent when the pair is not listed; otherwise the requests go out
     * and the pair is removed, unless something raised.
     */
    method UnsubscribeFromTradingPair(pair: string, symbols: map<string, string>, sendFailsAt: Option<nat>)
      returns (ok: bool)
      requires ids.Valid()
      modifies this`sent, this`tradingPairs, ids
      ensures ids.Valid()
      ensures !old(connected) ==> !ok && sent == old(sent) && tradingPairs == old(tradingPairs) && ids.next == old(ids.next)
      ensures old(connected) && pair !in old(tradingPairs) ==>
                ok && sent == old(sent) && tradingPairs == old(tradingPairs) && ids.next == old(ids.next)
      ensures old(connected) && pair in old(tradingPairs) ==>
                && (ok <==> pair in symbols && (sendFailsAt.None? || sendFailsAt.value >= 2))
                && tradingPairs == (if ok then DataSourcePairs.Removed(old(tradingPairs), pair) else old(tradingPairs))
                && ids.next == old(ids.next) + (if pair in symbols then 2 else 0)
                && sent == old(sent) + (if pair !in symbols then [] else
                                          var requests := SubUnsubRequests(false, Streams([symbols[pair]]), old(ids.next));
                                          if ok then requests else requests[..sendFailsAt.value])
    {
      if !connected {
        return false;
      }
      if pair !in tradingPairs {
        return true;
      }
      assert pair in symbols ==> DataSourcePairs.SymbolsOf([pair], symbols).value == [symbols[pair]];
      ok := SendSubUnsub([pair], false, symbols, sendFailsAt);
      if ok {
        tradingPairs := DataSourcePairs.Removed(tradingPairs, pair);
      }
    }
  }
}
