/** The main dashboard (components/Dashboard.tsx): the coin-to-pair mapping
    that drives the chart, the fear-and-greed gauge, the first fetch and the
    "load more" button of the recent-signals list, and the chart symbol
    selection.

    As on the community screen, the asynchronous handlers are split at their
    `await`, with the settled call's outcome as input. */
module Dashboard {
  import opened Types
  import opened Strings
  import Api
  import MarketService

  /** Page size of the recent-signals list. */
  const SignalsPerPage: int := 5

  /** The chart symbol shown before any click. */
  const DefaultSymbol: string := "BTCUSDT"

  /** The lower-case coin symbols the chart knows, with their pairs. */
  const BinanceSymbols: map<string, string> := map[
    "btc" := "BTCUSDT",
    "eth" := "ETHUSDT",
    "sol" := "SOLUSDT",
    "ada" := "ADAUSDT",
    "doge" := "DOGEUSDT",
    "xrp" := "XRPUSDT",
    "dot" := "DOTUSDT",
    "matic" := "MATICUSDT"
  ]

  /** `getBinanceSymbol(coinSymbol)`: the pair of the lower-cased symbol,
      'BTCUSDT' for any symbol outside the table. */
  function GetBinanceSymbol(coinSymbol: string): (pair: string)
    ensures pair in BinanceSymbols.Values
    ensures ToLower(coinSymbol) in BinanceSymbols ==> pair == BinanceSymbols[ToLower(coinSymbol)]
    ensures ToLower(coinSymbol) !in BinanceSymbols ==> pair == DefaultSymbol
  {
    var key := ToLower(coinSymbol);
    assert BinanceSymbols["btc"] == DefaultSymbol;
    if key in BinanceSymbols then BinanceSymbols[key] else DefaultSymbol
  }

  /** The mapping ignores letter case: a symbol and its lower-case form
      select the same pair. */
  lemma GetBinanceSymbolIgnoresCase(coinSymbol: string)
    ensures GetBinanceSymbol(ToLower(coinSymbol)) == GetBinanceSymbol(coinSymbol)
  {
    ToLowerIdempotent(coinSymbol);
  }

  /** The CoinGecko symbols of the fallback market list all reach their own
      pair, in upper or lower case. */
  lemma FallbackCoinsMapToTheirPairs()
    ensures GetBinanceSymbol("btc") == "BTCUSDT" && GetBinanceSymbol("BTC") == "BTCUSDT"
    ensures GetBinanceSymbol("eth") == "ETHUSDT" && GetBinanceSymbol("ETH") == "ETHUSDT"
    ensures GetBinanceSymbol("sol") == "SOLUSDT" && GetBinanceSymbol("SOL") == "SOLUSDT"
    ensures GetBinanceSymbol("ada") == "ADAUSDT" && GetBinanceSymbol("ADA") == "ADAUSDT"
  {
    BtcLowered();
    EthLowered();
    SolLowered();
    AdaLowered();
    FallbackPairsListed();
  }

  // The fallback coins' symbols, in either case, lowered (one lemma per
  // coin keeps each proof small).

  lemma BtcLowered()
    ensures ToLower("BTC") == "btc" && ToLower("btc") == "btc"
  {
    ToLowerChars("BTC", "btc");
    ToLowerChars("btc", "btc");
  }

  lemma EthLowered()
    ensures ToLower("ETH") == "eth" && ToLower("eth") == "eth"
  {
    ToLowerChars("ETH", "eth");
    ToLowerChars("eth", "eth");
  }

  lemma SolLowered()
    ensures ToLower("SOL") == "sol" && ToLower("sol") == "sol"
  {
    ToLowerChars("SOL", "sol");
    ToLowerChars("sol", "sol");
  }

  lemma AdaLowered()
    ensures ToLower("ADA") == "ada" && ToLower("ada") == "ada"
  {
    ToLowerChars("ADA", "ada");
    ToLowerChars("ada", "ada");
  }

  /** The table's entries for the fallback coins. */
  lemma FallbackPairsListed()
    ensures "btc" in BinanceSymbols && BinanceSymbols["btc"] == "BTCUSDT"
    ensures "eth" in BinanceSymbols && BinanceSymbols["eth"] == "ETHUSDT"
    ensures "sol" in BinanceSymbols && BinanceSymbols["sol"] == "SOLUSDT"
    ensures "ada" in BinanceSymbols && BinanceSymbols["ada"] == "ADAUSDT"
  {
  }

  // ---------------------------------------------------------------------
  // Fear and greed gauge
  // ---------------------------------------------------------------------

  /** The value the gauge shows. */
  const GaugeValue: real := 65.0

  datatype Sentiment = ExtremeFear | Fear | Neutral | Greed | ExtremeGreed
  {
    /** The label the gauge prints. */
    function Label(): string
    {
      match this
      case ExtremeFear => "Medo Extremo"
      case Fear => "Medo"
      case Neutral => "Neutro"
      case Greed => "Ganância"
      case ExtremeGreed => "Ganância Extrema"
    }

    /** Position on the fear-to-greed scale. */
    function Rank(): int
    {
      match this
      case ExtremeFear => 0
      case Fear => 1
      case Neutral => 2
      case Greed => 3
      case ExtremeGreed => 4
    }
  }

  /** The gauge's band for `value`, tested in the component's order. */
  function Classify(value: real): (s: Sentiment)
    ensures s == ExtremeFear <==> value < 25.0
    ensures s == Fear <==> 25.0 <= value < 45.0
    ensures s == Neutral <==> 45.0 <= value <= 55.0
    ensures s == Greed <==> 55.0 < value < 75.0
    ensures s == ExtremeGreed <==> value >= 75.0
  {
    if value < 25.0 then ExtremeFear
    else if value < 45.0 then Fear
    else if value > 55.0 && value < 75.0 then Greed
    else if value >= 75.0 then ExtremeGreed
    else Neutral
  }

  /** The bands are ordered: a larger value never reads as more fearful. */
  lemma ClassifyMonotone(v: real, w: real)
    requires v <= w
    ensures Classify(v).Rank() <= Classify(w).Rank()
  {
  }

  /** Needle angle in degrees for a value on the 0..100 scale. */
  function Rotation(value: real): (degrees: real)
    ensures 0.0 <= value <= 100.0 ==> -90.0 <= degrees <= 90.0
  {
    (value / 100.0) * 180.0 - 90.0
  }

  /** The needle map is the increasing line through (0, -90), (50, 0) and
      (100, 90). */
  lemma RotationIsLinear(v: real, w: real)
    ensures Rotation(0.0) == -90.0 && Rotation(50.0) == 0.0 && Rotation(100.0) == 90.0
    ensures Rotation(w) - Rotation(v) == (w - v) * 1.8
    ensures v < w ==> Rotation(v) < Rotation(w)
  {
  }

  /** The gauge as shipped reads "Ganância". */
  lemma GaugeReadsGreed()
    ensures Classify(GaugeValue) == Greed && Classify(GaugeValue).Label() == "Ganância"
    ensures Rotation(GaugeValue) == 27.0
  {
  }

  // ---------------------------------------------------------------------
  // Favourites and selection
  // ---------------------------------------------------------------------

  const Favourites: seq<string> := ["BTC/USDT", "ETH/USDT", "SOL/USDT", "DOGE/USDT"]

  /** The base coin of each favourite. */
  const FavouriteBases: seq<string> := ["BTC", "ETH", "SOL", "DOGE"]

  /** The chart symbol a favourite selects: the pair with its '/'
      removed. */
  function FavouriteSymbol(pair: string): string
  {
    ReplaceFirst(pair, '/', "")
  }

  /** A `<base>/USDT` pair with no '/' in its base selects
      `<base>USDT`. */
  lemma {:induction false} FavouriteDropsSlash(base: string)
    requires '/' !in base
    ensures FavouriteSymbol(base + "/USDT") == base + "USDT"
  {
    var pair := base + "/USDT";
    FirstIndexSkips(base, "/USDT", '/');
    assert pair[..|base|] == base && pair[|base| + 1..] == "USDT";
  }

  /** A favourite whose base coin is in the table selects the same chart
      symbol as a click on that coin. */
  lemma FavouriteMatchesCoin(base: string)
    requires '/' !in base
    requires ToLower(base) in BinanceSymbols && BinanceSymbols[ToLower(base)] == base + "USDT"
    ensures FavouriteSymbol(base + "/USDT") == GetBinanceSymbol(base)
  {
    FavouriteDropsSlash(base);
  }

  /** A favourite whose base is listed in lower case selects the chart
      symbol of its coin. */
  lemma FavouriteSelects(base: string, lower: string)
    requires '/' !in base && ToLower(base) == lower
    requires lower in BinanceSymbols && BinanceSymbols[lower] == base + "USDT"
    ensures FavouriteSymbol(base + "/USDT") == GetBinanceSymbol(base)
  {
    FavouriteMatchesCoin(base);
  }

  /** The favourites' base coins, lowered. */
  lemma FavouriteBasesLowered()
    ensures ToLower("BTC") == "btc" && ToLower("ETH") == "eth"
    ensures ToLower("SOL") == "sol" && ToLower("DOGE") == "doge"
  {
    ToLowerChars("BTC", "btc");
    ToLowerChars("ETH", "eth");
    ToLowerChars("SOL", "sol");
    ToLowerChars("DOGE", "doge");
  }

  /** The table's entries for the favourites' base coins. */
  lemma FavouritePairsListed()
    ensures "btc" in BinanceSymbols && BinanceSymbols["btc"] == "BTC" + "USDT"
    ensures "eth" in BinanceSymbols && BinanceSymbols["eth"] == "ETH" + "USDT"
    ensures "sol" in BinanceSymbols && BinanceSymbols["sol"] == "SOL" + "USDT"
    ensures "doge" in BinanceSymbols && BinanceSymbols["doge"] == "DOGE" + "USDT"
  {
  }

  /** The i-th favourite is its base coin's USDT pair, and selects the
      chart symbol of that coin. */
  lemma FavouriteAt(i: nat)
    requires i < |Favourites|
    ensures Favourites[i] == FavouriteBases[i] + "/USDT"
    ensures FavouriteSymbol(Favourites[i]) == GetBinanceSymbol(FavouriteBases[i])
  {
    FavouriteBasesLowered();
    FavouritePairsListed();
    var base := FavouriteBases[i];
    var lower := ["btc", "eth", "sol", "doge"][i];
    assert Favourites[i] == base + "/USDT";
    assert ToLower(base) == lower;
    assert lower in BinanceSymbols && BinanceSymbols[lower] == base + "USDT";
    FavouriteSelects(base, lower);
  }

  /** Each of the four favourites selects the chart symbol of its base
      coin, so the highlight list marks that coin as selected. */
  lemma FavouritesMatchCoinMap()
    ensures forall i :: 0 <= i < |Favourites| ==>
      Favourites[i] == FavouriteBases[i] + "/USDT"
      && FavouriteSymbol(Favourites[i]) == GetBinanceSymbol(FavouriteBases[i])
  {
    forall i | 0 <= i < |Favourites|
      ensures Favourites[i] == FavouriteBases[i] + "/USDT"
      ensures FavouriteSymbol(Favourites[i]) == GetBinanceSymbol(FavouriteBases[i])
    {
      FavouriteAt(i);
    }
  }

  /** A highlight row is marked when its coin maps to the chart symbol. */
  predicate IsSelected(coinSymbol: string, selectedSymbol: string)
  {
    GetBinanceSymbol(coinSymbol) == selectedSymbol
  }

  /** The summary cards: the first four market entries. */
  function SummaryCards(marketData: seq<MarketData>): (cards: seq<MarketData>)
    ensures |cards| == Api.MinInt(4, |marketData|)
    ensures cards == marketData[..|cards|]
  {
    marketData[..Api.MinInt(4, |marketData|)]
  }

  /** Offline, the summary cards are the four fallback coins. */
  lemma OfflineSummaryCards()
    ensures SummaryCards(MarketService.GetMarketPrices(None)) == MarketService.FallbackMarketData
  {
  }

  // ---------------------------------------------------------------------
  // Component state
  // ---------------------------------------------------------------------

  class DashboardState {
    var signals: seq<Signal>
    var marketData: seq<MarketData>
    var loading: bool
    var loadingMoreSignals: bool
    var page: int
    var hasMore: bool
    var selectedSymbol: string

    /** The initial state of `useState`. */
    constructor ()
      ensures signals == [] && marketData == [] && loading && !loadingMoreSignals
      ensures page == 1 && hasMore && selectedSymbol == DefaultSymbol
    {
      signals := [];
      marketData := [];
      loading := true;
      loadingMoreSignals := false;
      page := 1;
      hasMore := true;
      selectedSymbol := DefaultSymbol;
    }

    /** The feed is what pages 1..page of `backend` yield. */
    ghost predicate FeedMatches(backend: seq<Signal>)
      reads this
    {
      Api.FeedMatches(backend, SignalsPerPage, signals, page, hasMore)
    }

    /** The mount effect after `Promise.all([getSignals(1, 5),
        getMarketPrices()])` settled: on success the signals, `hasMore` and
        market data are taken from the two answers; on failure nothing but
        the loading flag changes. `page` is never touched here. */
    method EndInitialFetch(response: Option<(PaginatedResponse<Signal>, seq<MarketData>)>)
      modifies this
      ensures response.Some? ==>
        && signals == response.value.0.data
        && hasMore == response.value.0.hasMore
        && marketData == response.value.1
      ensures response.None? ==>
        signals == old(signals) && hasMore == old(hasMore) && marketData == old(marketData)
      ensures !loading
      ensures page == old(page) && loadingMoreSignals == old(loadingMoreSignals)
      ensures selectedSymbol == old(selectedSymbol)
    {
      if response.Some? {
        var (signalsResponse, marketDataRes) := response.value;
        signals := signalsResponse.data;
        hasMore := signalsResponse.hasMore;
        marketData := marketDataRes;
      }
      loading := false;
    }

    /** The mount effect answered by the mock back end: the first page of
        signals and the market list (the fallback table when the price
        request failed). */
    method InitialFetchFromBackend(backend: seq<Signal>, fetched: Option<seq<MarketData>>)
      requires page == 1
      modifies this
      ensures FeedMatches(backend)
      ensures signals == backend[..Api.MinInt(SignalsPerPage, |backend|)]
      ensures marketData == MarketService.GetMarketPrices(fetched)
      ensures !loading && page == 1
      ensures loadingMoreSignals == old(loadingMoreSignals) && selectedSymbol == old(selectedSymbol)
    {
      Api.FirstPageStartsFeed(backend, SignalsPerPage);
      EndInitialFetch(Some((Api.GetSignals(backend, 1, SignalsPerPage), MarketService.GetMarketPrices(fetched))));
    }

    /** `handleLoadMore` up to its `await`: raises the flag and asks for the
        page after the current one. */
    method BeginLoadMore() returns (nextPage: int)
      modifies this
      ensures nextPage == page + 1 && loadingMoreSignals
      ensures page == old(page) && signals == old(signals) && hasMore == old(hasMore)
      ensures marketData == old(marketData) && loading == old(loading)
      ensures selectedSymbol == old(selectedSymbol)
    {
      loadingMoreSignals := true;
      nextPage := page + 1;
    }

    /** `handleLoadMore` after `getSignals(nextPage, 5)` settled: the page is
        appended and `page`/`hasMore` follow it; on failure they stay; the
        flag is cleared either way. */
    method EndLoadMore(nextPage: int, response: Option<PaginatedResponse<Signal>>)
      modifies this
      ensures response.Some? ==>
        && signals == old(signals) + response.value.data
        && page == nextPage
        && hasMore == response.value.hasMore
      ensures response.None? ==> signals == old(signals) && page == old(page) && hasMore == old(hasMore)
      ensures !loadingMoreSignals
      ensures marketData == old(marketData) && loading == old(loading)
      ensures selectedSymbol == old(selectedSymbol)
    {
      if response.Some? {
        signals := signals + response.value.data;
        page := nextPage;
        hasMore := response.value.hasMore;
      }
      loadingMoreSignals := false;
    }

    /** A "load more" click answered by the mock back end keeps the list
        equal to the pages loaded so far. */
    method LoadMoreFromBackend(backend: seq<Signal>)
      requires FeedMatches(backend)
      modifies this
      ensures FeedMatches(backend) && page == old(page) + 1
      ensures signals == backend[..Api.MinInt(page * SignalsPerPage, |backend|)]
      ensures hasMore <==> |signals| < |backend|
      ensures !loadingMoreSignals
      ensures marketData == old(marketData) && loading == old(loading)
      ensures selectedSymbol == old(selectedSymbol)
    {
      Api.NextPageExtendsFeed(backend, SignalsPerPage, signals, page, hasMore);
      var nextPage := BeginLoadMore();
      EndLoadMore(nextPage, Some(Api.GetSignals(backend, nextPage, SignalsPerPage)));
    }

    /** `handleCoinClick`: the chart switches to the coin's pair, and that
        coin's highlight row becomes the selected one. */
    method HandleCoinClick(coinSymbol: string)
      modifies this
      ensures selectedSymbol == GetBinanceSymbol(coinSymbol)
      ensures IsSelected(coinSymbol, selectedSymbol)
      ensures forall other :: IsSelected(other, selectedSymbol) <==> GetBinanceSymbol(other) == GetBinanceSymbol(coinSymbol)
      ensures signals == old(signals) && page == old(page) && hasMore == old(hasMore)
      ensures marketData == old(marketData) && loading == old(loading)
      ensures loadingMoreSignals == old(loadingMoreSignals)
    {
      selectedSymbol := GetBinanceSymbol(coinSymbol);
    }

    /** A click on a favourite: the chart switches to the pair without its
        '/'. */
    method HandleFavouriteClick(pair: string)
      modifies this
      ensures selectedSymbol == FavouriteSymbol(pair)
      ensures signals == old(signals) && page == old(page) && hasMore == old(hasMore)
      ensures marketData == old(marketData) && loading == old(loading)
      ensures loadingMoreSignals == old(loadingMoreSignals)
    {
      selectedSymbol := ReplaceFirst(pair, '/', "");
    }
  }
}
