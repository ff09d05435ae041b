/** Market data with graceful degradation (services/marketService.ts).

    Spot prices come from a price API or, on any failure, from a fixed
    four-coin snapshot. Candles come from an exchange API; when that fails,
    a base price is chosen (a live spot price if one can be had, else a
    static per-symbol default) and 100 hourly candles are synthesised by
    walking backward from that price, then reversed to oldest-first order.

    Network calls are inputs: a fetch either failed (network error, non-ok
    status, unreadable body) or delivered a payload. `Math.random()` values
    and `Date.now()` are parameters. */
module MarketService {
  import opened Types
  import opened Strings

  /** Number of candles the fallback synthesises. */
  const CandleCount: nat := 100

  /** Seconds between two synthesised candles (one hour). */
  const CandleStep: int := 3600

  datatype Kline = Kline(time: real, open: real, high: real, low: real, close: real)

  function Max(a: real, b: real): real { if a >= b then a else b }

  function Min(a: real, b: real): real { if a <= b then a else b }

  function Abs(a: real): real { if a >= 0.0 then a else -a }

  // ---------------------------------------------------------------------
  // Spot prices
  // ---------------------------------------------------------------------

  /** The snapshot returned when the price API cannot be used. */
  const FallbackMarketData: seq<MarketData> := [
    MarketData("bitcoin", "btc", "Bitcoin", 65432.10, 2.5, "https://assets.coingecko.com/coins/images/1/thumb/bitcoin.png"),
    MarketData("ethereum", "eth", "Ethereum", 3456.78, -1.2, "https://assets.coingecko.com/coins/images/279/thumb/ethereum.png"),
    MarketData("solana", "sol", "Solana", 145.67, 5.8, "https://assets.coingecko.com/coins/images/4128/thumb/solana.png"),
    MarketData("cardano", "ada", "Cardano", 0.45, 1.1, "https://assets.coingecko.com/coins/images/975/thumb/cardano.png")
  ]

  /** `getMarketPrices`: `fetched` is the parsed payload of an ok response,
      or None when the request threw or was not ok. Failure is absorbed. */
  function GetMarketPrices(fetched: Option<seq<MarketData>>): (r: seq<MarketData>)
    ensures fetched.Some? ==> r == fetched.value
    ensures fetched.None? ==>
      && |r| == 4
      && r[0].id == "bitcoin" && r[0].currentPrice == 65432.10 && r[0].priceChangePercentage24h == 2.5
      && r[1].id == "ethereum" && r[1].currentPrice == 3456.78 && r[1].priceChangePercentage24h == -1.2
      && r[2].id == "solana" && r[2].currentPrice == 145.67 && r[2].priceChangePercentage24h == 5.8
      && r[3].id == "cardano" && r[3].currentPrice == 0.45 && r[3].priceChangePercentage24h == 1.1
  {
    match fetched
    case Some(data) => data
    case None => FallbackMarketData
  }

  // ---------------------------------------------------------------------
  // Primary candle path
  // ---------------------------------------------------------------------

  /** One exchange row `[openTimeMs, open, high, low, close, ...]`, its
      numeric strings already parsed. */
  datatype RawKline = RawKline(openTimeMs: int, open: real, high: real, low: real, close: real)

  /** The row-by-row mapping of an exchange payload: milliseconds become
      seconds, prices are carried over. */
  function MapRows(rows: seq<RawKline>): (ks: seq<Kline>)
    ensures |ks| == |rows|
    ensures forall i :: 0 <= i < |rows| ==>
      ks[i].time * 1000.0 == rows[i].openTimeMs as real
      && ks[i].open == rows[i].open && ks[i].high == rows[i].high
      && ks[i].low == rows[i].low && ks[i].close == rows[i].close
  {
    seq(|rows|, i requires 0 <= i < |rows| =>
      Kline(rows[i].openTimeMs as real / 1000.0, rows[i].open, rows[i].high, rows[i].low, rows[i].close))
  }

  // ---------------------------------------------------------------------
  // Base price of the fallback
  // ---------------------------------------------------------------------

  /** The `symbolToId` table: exchange symbol to price-API id, 'bitcoin' for
      anything not in it. */
  function SymbolToId(symbol: string): (id: string)
    ensures id in {"bitcoin", "ethereum", "solana", "cardano"}
    ensures symbol !in {"BTCUSDT", "ETHUSDT", "SOLUSDT", "ADAUSDT"} ==> id == "bitcoin"
    ensures symbol == "BTCUSDT" ==> id == "bitcoin"
    ensures symbol == "ETHUSDT" ==> id == "ethereum"
    ensures symbol == "SOLUSDT" ==> id == "solana"
    ensures symbol == "ADAUSDT" ==> id == "cardano"
  {
    var table := map["BTCUSDT" := "bitcoin", "ETHUSDT" := "ethereum", "SOLUSDT" := "solana", "ADAUSDT" := "cardano"];
    if symbol in table then table[symbol] else "bitcoin"
  }

  /** The "fallback of the fallback" price by symbol substring. */
  function StaticBasePrice(symbol: string): (p: real)
    ensures Contains(symbol, "BTC") ==> p == 95000.0
    ensures !Contains(symbol, "BTC") && Contains(symbol, "ETH") ==> p == 3500.0
    ensures !Contains(symbol, "BTC") && !Contains(symbol, "ETH") ==> p == 150.0
  {
    if Contains(symbol, "BTC") then 95000.0 else if Contains(symbol, "ETH") then 3500.0 else 150.0
  }

  /** Outcome of the simple-price request: unavailable (threw or not ok) or
      the parsed payload, id to the `usd` field when the entry has one. */
  datatype PriceFetch = PriceUnavailable | PriceOk(payload: map<string, Option<real>>)

  /** `usd` is usable exactly when the response was ok, the mapped id has an
      entry, and its `usd` is truthy (present and non-zero). */
  predicate LiveQuote(symbol: string, fetch: PriceFetch, usd: real)
  {
    && fetch.PriceOk?
    && SymbolToId(symbol) in fetch.payload
    && fetch.payload[SymbolToId(symbol)] == Some(usd)
    && usd != 0.0
  }

  /** The base price of the synthesised series. */
  function BasePrice(symbol: string, fetch: PriceFetch): (p: real)
    ensures forall usd :: LiveQuote(symbol, fetch, usd) ==> p == usd
    ensures p == StaticBasePrice(symbol) || LiveQuote(symbol, fetch, p)
  {
    var id := SymbolToId(symbol);
    if fetch.PriceOk? && id in fetch.payload && fetch.payload[id].Some? && fetch.payload[id].value != 0.0
    then fetch.payload[id].value
    else StaticBasePrice(symbol)
  }

  // ---------------------------------------------------------------------
  // Synthesiser: specification
  // ---------------------------------------------------------------------

  /** The three `Math.random()` values one synthesised candle consumes: the
      change, the upper wick and the lower wick. */
  datatype CandleDraws = CandleDraws(change: real, high: real, low: real)
  {
    predicate Valid()
    {
      0.0 <= change < 1.0 && 0.0 <= high < 1.0 && 0.0 <= low < 1.0
    }
  }

  /** `(Math.random() - 0.5) * volatility` with volatility 0.5% of the
      price. */
  function Change(price: real, r: real): real
  {
    (r - 0.5) * (price * 0.005)
  }

  /** `Math.random() * (volatility * 0.2)`: a wick pad. */
  function Pad(price: real, r: real): real
  {
    r * (price * 0.005 * 0.2)
  }

  /** The candle one step of the backward walk produces from the price
      carried from the later candle. */
  function SimulatedCandle(price: real, time: int, d: CandleDraws): Kline
  {
    var open := price - Change(price, d.change);
    Kline(time as real, open,
      Max(open, price) + Pad(price, d.high),
      Min(open, price) - Pad(price, d.low),
      price)
  }

  /** Newest-first candles of steps `i ..` of the walk, starting from
      `price` at time `now - i * CandleStep`. */
  function WalkBackward(price: real, now: int, i: nat, draws: seq<CandleDraws>): seq<Kline>
    requires i <= |draws|
    decreases |draws| - i
  {
    if i == |draws| then []
    else
      var c := SimulatedCandle(price, now - i * CandleStep, draws[i]);
      [c] + WalkBackward(c.open, now, i + 1, draws)
  }

  /** `low <= min(open, close) <= max(open, close) <= high` */
  predicate OhlcOrdered(k: Kline)
  {
    k.low <= Min(k.open, k.close) && Max(k.open, k.close) <= k.high
  }

  /** The candle body is at most 0.25% of the close (half the 0.5%
      volatility). */
  predicate BodyWithin(k: Kline)
  {
    Abs(k.open - k.close) <= k.close * 0.0025
  }

  predicate AllPositive(k: Kline)
  {
    k.low > 0.0 && k.open > 0.0 && k.close > 0.0 && k.high > 0.0
  }

  /** The change term lies within 0.25% of the price either way. */
  lemma ChangeWithinHalf(r: real, price: real)
    requires 0.0 <= r < 1.0 && price >= 0.0
    ensures -0.0025 * price <= Change(price, r) <= 0.0025 * price
  {
    var v := price * 0.005;
    assert Change(price, r) == (r - 0.5) * v;
    assert (r - 0.5) * v <= 0.5 * v;
    assert (r - 0.5) * v >= -0.5 * v;
    assert 0.5 * v == 0.0025 * price;
  }

  /** A wick pad is non-negative and below 0.1% of the price. */
  lemma PadWithinCap(r: real, price: real)
    requires 0.0 <= r < 1.0 && price >= 0.0
    ensures 0.0 <= Pad(price, r) <= 0.001 * price
  {
    var w := price * 0.005 * 0.2;
    assert Pad(price, r) == r * w;
    assert r * w <= 1.0 * w;
    assert w == 0.001 * price;
  }

  /** The same bounds with the random terms abstracted: linear facts about
      a change within 0.25% of the price and pads within 0.1% of it. */
  lemma StepBounds(price: real, change: real, padHigh: real, padLow: real)
    requires price >= 0.0
    requires -0.0025 * price <= change <= 0.0025 * price
    requires 0.0 <= padHigh <= 0.001 * price && 0.0 <= padLow <= 0.001 * price
    ensures var k := Kline(0.0, price - change, Max(price - change, price) + padHigh,
                           Min(price - change, price) - padLow, price);
      OhlcOrdered(k) && BodyWithin(k) && k.open >= price * 0.9975
      && (price > 0.0 ==> AllPositive(k))
  {
  }

  /** Bounds of one step: from a non-negative price the candle is ordered,
      its body is within 0.25% and its open stays non-negative; from a
      positive price all four prices are positive. */
  lemma SimulatedCandleBounds(price: real, time: int, d: CandleDraws)
    requires d.Valid()
    ensures var k := SimulatedCandle(price, time, d);
      k.close == price && k.time == time as real
      && (price >= 0.0 ==> OhlcOrdered(k) && BodyWithin(k) && k.open >= price * 0.9975)
      && (price > 0.0 ==> AllPositive(k))
  {
    if price >= 0.0 {
      var change := Change(price, d.change);
      var padHigh := Pad(price, d.high);
      var padLow := Pad(price, d.low);
      ChangeWithinHalf(d.change, price);
      PadWithinCap(d.high, price);
      PadWithinCap(d.low, price);
      StepBounds(price, change, padHigh, padLow);
      var k := SimulatedCandle(price, time, d);
      assert k == Kline(time as real, price - change, Max(price - change, price) + padHigh,
                        Min(price - change, price) - padLow, price);
    }
  }

  /** Shape of the newest-first walk: its length and times, its first close
      is the starting price, neighbours share a price (each candle's open is
      the next older candle's close), and from a non-negative (positive)
      price every candle is ordered and bounded (positive). */
  lemma {:induction false} WalkBackwardShape(price: real, now: int, i: nat, draws: seq<CandleDraws>)
    requires i <= |draws|
    requires forall j :: 0 <= j < |draws| ==> draws[j].Valid()
    ensures var w := WalkBackward(price, now, i, draws);
      && |w| == |draws| - i
      && (forall k :: 0 <= k < |w| ==> w[k].time == (now - (i + k) * CandleStep) as real)
      && (|w| > 0 ==> w[0].close == price)
      && (forall k :: 0 <= k < |w| - 1 ==> w[k].open == w[k + 1].close)
      && (price >= 0.0 ==> forall k :: 0 <= k < |w| ==> OhlcOrdered(w[k]) && BodyWithin(w[k]) && w[k].close >= 0.0)
      && (price > 0.0 ==> forall k :: 0 <= k < |w| ==> AllPositive(w[k]))
    decreases |draws| - i
  {
    if i < |draws| {
      var c := SimulatedCandle(price, now - i * CandleStep, draws[i]);
      SimulatedCandleBounds(price, now - i * CandleStep, draws[i]);
      WalkBackwardShape(c.open, now, i + 1, draws);
      var rest := WalkBackward(c.open, now, i + 1, draws);
      assert WalkBackward(price, now, i, draws) == [c] + rest;
      assert price >= 0.0 ==> c.open >= 0.0;
      forall k | 1 <= k < |rest| + 1
        ensures ([c] + rest)[k].time == (now - (i + k) * CandleStep) as real
      {
        assert ([c] + rest)[k] == rest[k - 1];
      }
    }
  }

  /** Oldest-first order of a sequence. */
  function Reverse<T>(s: seq<T>): (r: seq<T>)
    ensures |r| == |s|
    ensures forall k :: 0 <= k < |s| ==> r[k] == s[|s| - 1 - k]
  {
    seq(|s|, k requires 0 <= k < |s| => s[|s| - 1 - k])
  }

  /** The synthesised series in the order the chart receives it. */
  function SynthesizedSeries(basePrice: real, now: int, draws: seq<CandleDraws>): seq<Kline>
  {
    Reverse(WalkBackward(basePrice, now, 0, draws))
  }

  /** The properties the chart relies on, in oldest-first order: 100
      candles an hour apart ending at `now`, each close equal to the next
      open, the last close equal to the base price, every candle ordered
      and bounded when the base price is non-negative, and every price
      positive when it is positive. */
  lemma SynthesizedSeriesShape(basePrice: real, now: int, draws: seq<CandleDraws>)
    requires |draws| == CandleCount
    requires forall j :: 0 <= j < |draws| ==> draws[j].Valid()
    ensures var ks := SynthesizedSeries(basePrice, now, draws);
      && |ks| == CandleCount
      && (forall k :: 0 <= k < |ks| ==> ks[k].time == (now - (CandleCount - 1 - k) * CandleStep) as real)
      && (forall k :: 0 <= k < |ks| - 1 ==> ks[k + 1].time - ks[k].time == CandleStep as real)
      && ks[|ks| - 1].time == now as real
      && ks[|ks| - 1].close == basePrice
      && (forall k :: 0 <= k < |ks| - 1 ==> ks[k].close == ks[k + 1].open)
      && (basePrice >= 0.0 ==> forall k :: 0 <= k < |ks| ==> OhlcOrdered(ks[k]) && BodyWithin(ks[k]))
      && (basePrice > 0.0 ==> forall k :: 0 <= k < |ks| ==> AllPositive(ks[k]))
  {
    WalkBackwardShape(basePrice, now, 0, draws);
    var w := WalkBackward(basePrice, now, 0, draws);
    var ks := SynthesizedSeries(basePrice, now, draws);
    forall k | 0 <= k < |ks| - 1
      ensures ks[k].close == ks[k + 1].open
    {
      assert ks[k] == w[|w| - 1 - k] && ks[k + 1] == w[|w| - 1 - (k + 1)];
    }
  }

  // ---------------------------------------------------------------------
  // Synthesiser: the loop of the source
  // ---------------------------------------------------------------------

  /** `mockData.reverse()`: reverses the array in place. */
  method ReverseInPlace<T>(a: array<T>)
    modifies a
    ensures a[..] == Reverse(old(a[..]))
  {
    var n := a.Length;
    var i := 0;
    while i < n / 2
      invariant 0 <= i <= n / 2
      invariant forall k :: 0 <= k < i ==> a[k] == old(a[n - 1 - k]) && a[n - 1 - k] == old(a[k])
      invariant forall k :: i <= k < n - i ==> a[k] == old(a[k])
    {
      a[i], a[n - 1 - i] := a[n - 1 - i], a[i];
      i := i + 1;
    }
  }

  /** The loop of the fallback generator: 100 steps backward from
      `basePrice`, one candle pushed per step, the walk carrying each
      candle's open to the next step. */
  method WalkLoop(basePrice: real, now: int, draws: seq<CandleDraws>) returns (mockData: seq<Kline>)
    requires |draws| == CandleCount
    ensures mockData == WalkBackward(basePrice, now, 0, draws)
  {
    mockData := [];
    var currentSimPrice := basePrice;
    for i := 0 to CandleCount
      invariant |mockData| == i
      invariant mockData + WalkBackward(currentSimPrice, now, i, draws) == WalkBackward(basePrice, now, 0, draws)
    {
      var time := now - i * CandleStep;
      var close := currentSimPrice;
      var open := currentSimPrice - Change(currentSimPrice, draws[i].change);
      var high := Max(open, close) + Pad(currentSimPrice, draws[i].high);
      var low := Min(open, close) - Pad(currentSimPrice, draws[i].low);
      var candle := Kline(time as real, open, high, low, close);
      WalkStep(currentSimPrice, now, i, draws, candle);
      mockData := mockData + [candle];
      currentSimPrice := open;
    }
  }

  /** One step of the walk: its first candle, then the walk from that
      candle's open. */
  lemma WalkStep(price: real, now: int, i: nat, draws: seq<CandleDraws>, c: Kline)
    requires i < |draws|
    requires c == SimulatedCandle(price, now - i * CandleStep, draws[i])
    ensures WalkBackward(price, now, i, draws) == [c] + WalkBackward(c.open, now, i + 1, draws)
  {
  }

  /** The fallback generator: the backward walk, then `reverse()` of the
      array it filled. */
  method SynthesizeKlines(basePrice: real, now: int, draws: seq<CandleDraws>) returns (klines: seq<Kline>)
    requires |draws| == CandleCount
    requires forall j :: 0 <= j < |draws| ==> draws[j].Valid()
    ensures klines == SynthesizedSeries(basePrice, now, draws)
    ensures |klines| == CandleCount
    ensures forall k :: 0 <= k < |klines| ==> klines[k].time == (now - (CandleCount - 1 - k) * CandleStep) as real
    ensures klines[|klines| - 1].close == basePrice
    ensures forall k :: 0 <= k < |klines| - 1 ==> klines[k].close == klines[k + 1].open
    ensures basePrice >= 0.0 ==> forall k :: 0 <= k < |klines| ==> OhlcOrdered(klines[k]) && BodyWithin(klines[k])
  {
    var mockData := WalkLoop(basePrice, now, draws);
    var a := new Kline[|mockData|](k requires 0 <= k < |mockData| => mockData[k]);
    assert a[..] == mockData;
    ReverseInPlace(a);
    klines := a[..];
    SynthesizedSeriesShape(basePrice, now, draws);
  }

  // ---------------------------------------------------------------------
  // getBinanceKlines
  // ---------------------------------------------------------------------

  /** Outcome of the klines request: failed (threw, not ok, bad body) or the
      rows of an ok response. */
  datatype KlinesFetch = KlinesFailed | KlinesOk(rows: seq<RawKline>)

  /** `getBinanceKlines(symbol)`: the exchange rows when they arrive,
      otherwise 100 synthesised hourly candles ending at the current second
      (`Math.floor(nowMs / 1000)`) with their last close at the base price. */
  method GetBinanceKlines(symbol: string, klinesFetch: KlinesFetch, priceFetch: PriceFetch,
                          nowMs: int, draws: seq<CandleDraws>) returns (klines: seq<Kline>)
    requires |draws| == CandleCount
    requires forall j :: 0 <= j < |draws| ==> draws[j].Valid()
    ensures klinesFetch.KlinesOk? ==> klines == MapRows(klinesFetch.rows)
    ensures klinesFetch.KlinesFailed? ==>
      && klines == SynthesizedSeries(BasePrice(symbol, priceFetch), nowMs / 1000, draws)
      && |klines| == CandleCount
      && klines[CandleCount - 1].close == BasePrice(symbol, priceFetch)
      && klines[CandleCount - 1].time == (nowMs / 1000) as real
  {
    match klinesFetch
    case KlinesOk(rows) =>
      klines := MapRows(rows);
    case KlinesFailed =>
      var basePrice := BasePrice(symbol, priceFetch);
      var now := nowMs / 1000;
      klines := SynthesizeKlines(basePrice, now, draws);
  }

  /** End-to-end: with both APIs down, a "BTCUSDT" chart ends at the static
      95000 and every price of it is positive. */
  lemma OfflineBitcoinChart(nowMs: int, draws: seq<CandleDraws>)
    requires |draws| == CandleCount
    requires forall j :: 0 <= j < |draws| ==> draws[j].Valid()
    ensures var ks := SynthesizedSeries(BasePrice("BTCUSDT", PriceUnavailable), nowMs / 1000, draws);
      |ks| == CandleCount
      && ks[CandleCount - 1].close == 95000.0
      && forall k :: 0 <= k < |ks| ==> AllPositive(ks[k])
  {
    assert StartsWith("BTCUSDT", "BTC");
    SynthesizedSeriesShape(95000.0, nowMs / 1000, draws);
  }
}
