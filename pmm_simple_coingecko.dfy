/**
 * The market-making controller that takes its reference price from
 * CoinGecko (controllers/market_making/pmm_simple_coingecko.py): validation of
 * the configured ids and of the returned price, the throttled refresh of the
 * cached price, the published processed data, and the gate that keeps the
 * controller from proposing orders without a usable price.
 *
 * The HTTP request is not made: its outcome is a parameter (a transport
 * error, or a status and a decoded body). Prices are reals; the monotonic
 * clock is the `now` parameter.
 */
module PmmSimpleCoinGecko {
  import opened Wrappers
  import Strings

  // ---------------------------------------------------------------------------
  // _fetch_reference_price_from_coingecko
  // ---------------------------------------------------------------------------

  /** `(value or "").strip().lower()`. */
  function Normalized(value: Option<string>): string {
    Strings.Lower(Strings.Strip(value.GetOr("")))
  }

  /**
   * The `ids` and `vs_currencies` query parameters, or the error raised
   * before any request when either is empty after normalisation.
   */
  function RequestParams(tokenId: Option<string>, vsCurrency: Option<string>): (r: Result<(string, string), string>)
    ensures r.Ok? <==> Normalized(tokenId) != "" && Normalized(vsCurrency) != ""
    ensures r.Ok? ==> r.value == (Normalized(tokenId), Normalized(vsCurrency))
  {
    var token := Normalized(tokenId);
    var vs := Normalized(vsCurrency);
    if token == "" then Err("coin_gecko_token_id must be set")
    else if vs == "" then Err("coin_gecko_vs_currency must be set")
    else Ok((token, vs))
  }

  /** A blank or missing id never reaches the network. */
  lemma BlankIdsAreRejected(tokenId: Option<string>, vsCurrency: Option<string>)
    requires tokenId.None? || Strings.IsBlank(tokenId.value) || vsCurrency.None? || Strings.IsBlank(vsCurrency.value)
    ensures RequestParams(tokenId, vsCurrency).Err?
  {
    Strings.StripEmptyIffBlank(tokenId.GetOr(""));
    Strings.StripEmptyIffBlank(vsCurrency.GetOr(""));
  }

  /** Normalising is idempotent: the parameters sent are already in normal form. */
  lemma NormalizedIsStable(value: Option<string>)
    ensures Normalized(Some(Normalized(value))) == Normalized(value)
  {
    var s := Strings.Strip(value.GetOr(""));
    var l := Strings.Lower(s);
    assert l != [] ==> !Strings.IsSpace(l[0]) && !Strings.IsSpace(l[|l| - 1]) by {
      if l != [] {
        assert l[0] == Strings.LowerChar(s[0]) && l[|l| - 1] == Strings.LowerChar(s[|s| - 1]);
        Strings.LowerCharKeepsSpace(s[0]);
        Strings.LowerCharKeepsSpace(s[|s| - 1]);
      }
    }
    Strings.StripOfTrimmed(l);
    Strings.LowerIdempotent(s);
  }

  /** What the HTTP call gave: a status and the decoded `{id: {currency: price}}` body. */
  datatype HttpResponse = HttpResponse(status: int, body: map<string, map<string, real>>)

  /**
   * `_fetch_reference_price_from_coingecko`: invalid ids, a transport error,
   * a status other than 200, a body without the requested price, or a price
   * that is not positive all raise; otherwise the price for the normalised
   * id and currency is returned.
   */
  function FetchReferencePrice(tokenId: Option<string>, vsCurrency: Option<string>,
                               response: Result<HttpResponse, string>): (r: Result<real, string>)
    ensures r.Ok? ==> r.value > 0.0
    ensures r.Ok? <==>
              && RequestParams(tokenId, vsCurrency).Ok? && response.Ok? && response.value.status == 200
              && Normalized(tokenId) in response.value.body
              && Normalized(vsCurrency) in response.value.body[Normalized(tokenId)]
              && response.value.body[Normalized(tokenId)][Normalized(vsCurrency)] > 0.0
    ensures r.Ok? ==> r.value == response.value.body[Normalized(tokenId)][Normalized(vsCurrency)]
  {
    match RequestParams(tokenId, vsCurrency)
    case Err(e) => Err(e)
    case Ok((token, vs)) =>
      if response.Err? then Err(response.error)
      else if response.value.status != 200 then Err("HTTP status")
      else if token !in response.value.body || vs !in response.value.body[token] then Err("Unexpected CoinGecko response shape")
      else
        var price := response.value.body[token][vs];
        if price <= 0.0 then Err("Invalid CoinGecko price returned") else Ok(price)
  }

  // ---------------------------------------------------------------------------
  // create_actions_proposal
  // ---------------------------------------------------------------------------

  /**
   * The gate of `create_actions_proposal`: no actions without a reference
   * price or with one that is not positive, otherwise the parent
   * controller's proposal.
   */
  function ActionsProposal<A>(referencePrice: Option<real>, parentProposal: seq<A>): (r: seq<A>)
    ensures r == [] || r == parentProposal
    ensures r == parentProposal <==> parentProposal == [] || (referencePrice.Some? && referencePrice.value > 0.0)
  {
    if referencePrice.None? || referencePrice.value <= 0.0 then [] else parentProposal
  }

  // ---------------------------------------------------------------------------
  // update_processed_data
  // ---------------------------------------------------------------------------

  /** `processed_data`: the reference price, the spread multiplier and the age of the last success. */
  datatype ProcessedData = ProcessedData(referencePrice: real, spreadMultiplier: real, lastSuccessAge: Option<real>)

  /** The cached reference price and the fetch bookkeeping of the controller. */
  class PmmSimpleCoinGeckoController {
    const tokenId: Option<string>
    const vsCurrency: Option<string>
    const refreshInterval: real
    var cachedReferencePrice: Option<real>
    var lastFetchAttempt: real
    var lastFetchSuccess: real
    var processedData: Option<ProcessedData>

    /** A cached price is always one the validation accepted. */
    predicate Valid()
      reads this`cachedReferencePrice
    {
      cachedReferencePrice.Some? ==> cachedReferencePrice.value > 0.0
    }

    constructor (tokenId: Option<string>, vsCurrency: Option<string>, refreshInterval: real)
      ensures this.tokenId == tokenId && this.vsCurrency == vsCurrency && this.refreshInterval == refreshInterval
      ensures Valid() && cachedReferencePrice.None? && lastFetchAttempt == 0.0 && lastFetchSuccess == 0.0
      ensures processedData.None?
    {
      this.tokenId := tokenId;
      this.vsCurrency := vsCurrency;
      this.refreshInterval := refreshInterval;
      cachedReferencePrice := None;
      lastFetchAttempt := 0.0;
      lastFetchSuccess := 0.0;
      processedData := None;
    }

    /** Whether a tick at `now` tries CoinGecko. */
    function ShouldFetch(now: real): bool
      reads this`cachedReferencePrice, this`lastFetchAttempt
    {
      cachedReferencePrice.None? || now - lastFetchAttempt >= refreshInterval
    }

    /**
     * `update_processed_data`: at most one attempt per refresh interval
     * unless nothing is cached; an attempt is recorded whether or not it
     * succeeds; a failure keeps the cached price and the last success time,
     * a success replaces both. The published reference price is the cached
     * one, or 0 without one; the success age is absent while the last
     * success time is still 0.
     */
    method UpdateProcessedData(now: real, response: Result<HttpResponse, string>)
      requires Valid()
      modifies this`cachedReferencePrice, this`lastFetchAttempt, this`lastFetchSuccess, this`processedData
      ensures Valid()
      ensures lastFetchAttempt == if old(ShouldFetch(now)) then now else old(lastFetchAttempt)
      ensures var fetched := FetchReferencePrice(tokenId, vsCurrency, response);
              if old(ShouldFetch(now)) && fetched.Ok?
              then cachedReferencePrice == Some(fetched.value) && lastFetchSuccess == now
              else cachedReferencePrice == old(cachedReferencePrice) && lastFetchSuccess == old(lastFetchSuccess)
      ensures processedData == Some(ProcessedData(
                cachedReferencePrice.GetOr(0.0), 1.0,
                if lastFetchSuccess != 0.0 then Some(now - lastFetchSuccess) else None))
    {
      if cachedReferencePrice.None? || now - lastFetchAttempt >= refreshInterval {
        Attempt(now, FetchReferencePrice(tokenId, vsCurrency, response));
      }
      Publish(now);
    }

    /** One fetch attempt with outcome `fetched`. */
    method Attempt(now: real, fetched: Result<real, string>)
      requires Valid() && (fetched.Ok? ==> fetched.value > 0.0)
      modifies this`cachedReferencePrice, this`lastFetchAttempt, this`lastFetchSuccess
      ensures Valid() && lastFetchAttempt == now
      ensures if fetched.Ok?
              then cachedReferencePrice == Some(fetched.value) && lastFetchSuccess == now
              else cachedReferencePrice == old(cachedReferencePrice) && lastFetchSuccess == old(lastFetchSuccess)
    {
      lastFetchAttempt := now;
      if fetched.Ok? {
        cachedReferencePrice := Some(fetched.value);
        lastFetchSuccess := now;
      }
    }

    /** The `processed_data` assignment. */
    method Publish(now: real)
      modifies this`processedData
      ensures processedData == Some(ProcessedData(
                cachedReferencePrice.GetOr(0.0), 1.0,
                if lastFetchSuccess != 0.0 then Some(now - lastFetchSuccess) else None))
    {
      var referencePrice := cachedReferencePrice.GetOr(0.0);
      processedData := Some(ProcessedData(referencePrice, 1.0,
                                          if lastFetchSuccess != 0.0 then Some(now - lastFetchSuccess) else None));
    }
  }

  /**
   * Whatever was published, the controller proposes the parent's actions
   * exactly when it holds a cached price: a published 0 (nothing cached)
   * always closes the gate.
   */
  lemma GateFollowsCache<A>(cached: Option<real>, parentProposal: seq<A>)
    requires cached.Some? ==> cached.value > 0.0
    ensures ActionsProposal(Some(cached.GetOr(0.0)), parentProposal) == (if cached.Some? then parentProposal else [])
  {
  }
}
