/** The record types shared by the services and the screens (types.ts).
    Display-only fields (avatar and image URLs aside, which are kept as
    plain strings) keep their values; formatting of numbers is not part of
    the model, so prices are `real` values. */
module Types {

  datatype Option<+T> = None | Some(value: T)

  datatype Result<+T, +E> = Ok(value: T) | Err(error: E)

  datatype UserRole = Free | Premium | Admin

  datatype User = User(id: string, name: string, email: string, role: UserRole, plan: string)

  datatype SignalProvider = SignalProvider(
    id: string, name: string, avatarUrl: string, winRate: int, followers: int, totalSignals: int)

  /** ALTA / BAIXA */
  datatype SignalType = Bullish | Bearish

  /** `entry`, `target` and `stop` are the numbers before `toFixed(2)`. */
  datatype Signal = Signal(
    id: string, provider: SignalProvider, pair: string, signalType: SignalType, timeframe: string,
    entry: real, target: real, stop: real, justification: string,
    imageUrl: Option<string>, timestamp: string)

  datatype PaginatedResponse<T> = PaginatedResponse(
    data: seq<T>, total: int, page: int, limit: int, hasMore: bool)

  /** 'Ativo' | 'Suspenso' */
  datatype AccountStatus = Ativo | Suspenso

  datatype AdminUser = AdminUser(
    id: string, name: string, email: string, plan: string, status: AccountStatus, joinedAt: Option<string>)

  /** 'Compra' | 'Venda' */
  datatype TradeSide = Compra | Venda

  /** A calendar date; the source writes it as a `YYYY-MM-DD` string. */
  datatype Date = Date(year: int, month: int, day: int)

  /** Strict chronological order of two dates. */
  predicate Before(a: Date, b: Date)
  {
    a.year < b.year
    || (a.year == b.year && a.month < b.month)
    || (a.year == b.year && a.month == b.month && a.day < b.day)
  }

  datatype Trade = Trade(date: Date, side: TradeSide, entryPrice: real, exitPrice: real, result: real)

  datatype BacktestResult = BacktestResult(
    totalTrades: int, winRate: int, cumulativeReturn: real, maxDrawdown: real, trades: seq<Trade>)

  datatype MarketData = MarketData(
    id: string, symbol: string, name: string, currentPrice: real, priceChangePercentage24h: real, image: string)

  /** 'ALTA' | 'BAIXA' | 'AGUARDAR' */
  datatype Recommendation = Alta | Baixa | Aguardar

  datatype AnalysisResult = AnalysisResult(
    patterns: seq<string>, trend: string, rsi: string, volume: string,
    recommendation: Recommendation, confidenceScore: int, summary: string)
}
