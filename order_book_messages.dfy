/**
 * The message vocabulary shared by the tracker and the exchange adapters:
 * `OrderBookMessage` with its three kinds, price levels, trade content, and
 * the keys under which a data source routes a raw websocket message.
 *
 * Prices and sizes are reals: the adapters' `float(...)` parsing is not
 * modelled, each adapter receives them already as numbers.
 */
module OrderBookMessages {
  import opened Wrappers

  /** One `[price, size]` row of a book side. */
  datatype Level = Level(price: real, size: real)

  datatype TradeType = Buy | Sell

  /** Trade ids are integers on some exchanges and strings on others. */
  datatype TradeId = IntId(n: int) | StrId(s: string)

  datatype MessageKind = Snapshot | Diff | Trade

  /** The `content` of a trade message that the tracker reads. */
  datatype TradeContent = TradeContent(tradeType: TradeType, price: real, amount: real)

  /**
   * `OrderBookMessage`: snapshots and diffs carry book sides, trades carry
   * their content; `firstUpdateId` is present on diffs that have one.
   */
  datatype OrderBookMessage = OrderBookMessage(
    kind: MessageKind,
    tradingPair: string,
    updateId: int,
    firstUpdateId: Option<int>,
    bids: seq<Level>,
    asks: seq<Level>,
    timestamp: real,
    tradeId: Option<TradeId>,
    trade: Option<TradeContent>)

  /**
   * The queue a data source puts a raw message in. `Unrouted` is the empty
   * key: the message is dropped.
   */
  datatype ChannelKey = Unrouted | TradeKey | DiffKey | SnapshotKey | FundingKey

  /** A diff message with no trade part. */
  function DiffMessage(tradingPair: string, updateId: int, firstUpdateId: Option<int>,
                       bids: seq<Level>, asks: seq<Level>, timestamp: real): (m: OrderBookMessage)
    ensures m.kind == Diff && m.tradingPair == tradingPair && m.updateId == updateId
    ensures m.firstUpdateId == firstUpdateId && m.bids == bids && m.asks == asks
    ensures m.trade == None && m.tradeId == None
  {
    OrderBookMessage(Diff, tradingPair, updateId, firstUpdateId, bids, asks, timestamp, None, None)
  }

  /** A snapshot message with no trade part. */
  function SnapshotMessage(tradingPair: string, updateId: int,
                           bids: seq<Level>, asks: seq<Level>, timestamp: real): (m: OrderBookMessage)
    ensures m.kind == Snapshot && m.tradingPair == tradingPair && m.updateId == updateId
    ensures m.firstUpdateId == None && m.bids == bids && m.asks == asks
    ensures m.trade == None && m.tradeId == None
  {
    OrderBookMessage(Snapshot, tradingPair, updateId, None, bids, asks, timestamp, None, None)
  }

  /** A trade message: no book sides. */
  function TradeMessage(tradingPair: string, updateId: int, tradeId: TradeId,
                        content: TradeContent, timestamp: real): (m: OrderBookMessage)
    ensures m.kind == Trade && m.tradingPair == tradingPair && m.updateId == updateId
    ensures m.tradeId == Some(tradeId) && m.trade == Some(content)
    ensures m.bids == [] && m.asks == []
  {
    OrderBookMessage(Trade, tradingPair, updateId, None, [], [], timestamp, Some(tradeId), Some(content))
  }
}
