/** Seed data of the mock back end (constants.ts): users, signal providers,
    admin rows and the generator of the 50 mock signals. */
module Constants {
  import opened Types
  import opened Strings

  const MockUsers: seq<User> := [
    User("1", "Usuário Admin", "admin@cryptocandles.ai", Admin, "Admin"),
    User("2", "Usuário Premium", "premium@test.com", Premium, "Premium"),
    User("3", "Usuário Gratuito", "free@test.com", Free, "Gratuito")
  ]

  const MockSignalProviders: seq<SignalProvider> := [
    SignalProvider("sp1", "CryptoWhale", "https://picsum.photos/seed/whale/100/100", 85, 12500, 342),
    SignalProvider("sp2", "Bullrun Master", "https://picsum.photos/seed/bull/100/100", 78, 8900, 210),
    SignalProvider("sp3", "Altcoin Sniper", "https://picsum.photos/seed/sniper/100/100", 92, 21300, 512),
    SignalProvider("sp4", "Satoshi's Ghost", "https://picsum.photos/seed/ghost/100/100", 72, 5400, 150)
  ]

  const Pairs: seq<string> := ["BTC/USDT", "ETH/USDT", "SOL/USDT", "ADA/USDT", "DOGE/USDT", "XRP/USDT"]

  const Timeframes: seq<string> := ["15m", "1H", "4H", "1D"]

  const Justifications: seq<string> := [
    "Engolfo de alta no suporte chave.",
    "RSI sobrevendido com divergência.",
    "Rompimento de triângulo ascendente.",
    "Rejeição na média móvel de 200 períodos.",
    "Padrão de bandeira de alta confirmado.",
    "Estrela da noite na resistência.",
    "Cruzamento da morte (Death Cross) iminente."
  ]

  const MockAdminUsers: seq<AdminUser> := [
    AdminUser("u1", "Alice", "alice@example.com", "Premium", Ativo, None),
    AdminUser("u2", "Bob", "bob@example.com", "Gratuito", Ativo, None),
    AdminUser("u3", "Charlie", "charlie@example.com", "Premium", Suspenso, None)
  ]

  /** Number of signals in the mock database. */
  const MockSignalCount: nat := 50

  /** A value `Math.random()` can return. */
  predicate UnitDraw(r: real)
  {
    0.0 <= r < 1.0
  }

  /** The ten `Math.random()` values one generated signal consumes, in the
      order the generator calls it. */
  datatype SignalDraws = SignalDraws(
    provider: real, signalType: real, pair: real, timeframe: real, entry: real,
    target: real, stop: real, justification: real, image: real, hours: real)
  {
    predicate Valid()
    {
      UnitDraw(provider) && UnitDraw(signalType) && UnitDraw(pair) && UnitDraw(timeframe)
      && UnitDraw(entry) && UnitDraw(target) && UnitDraw(stop) && UnitDraw(justification)
      && UnitDraw(image) && UnitDraw(hours)
    }
  }

  /** `Math.floor(r * n)`: an index into a list of length `n`. */
  function PickIndex(r: real, n: nat): (k: nat)
    requires UnitDraw(r) && n > 0
    ensures k < n
    ensures k as real <= r * n as real < k as real + 1.0
  {
    assert 0.0 <= r * n as real < n as real by { ScaledDrawBelow(r, n as real); }
    (r * n as real).Floor
  }

  lemma ScaledDrawBelow(r: real, n: real)
    requires UnitDraw(r) && n > 0.0
    ensures 0.0 <= r * n < n
  {
    assert r * n < 1.0 * n;
  }

  /** The `i`-th generated signal (0-based) for the draws it consumes. */
  function MockSignal(i: nat, d: SignalDraws): Signal
    requires d.Valid()
  {
    Signal(
      "sig" + NatToString(i + 1),
      MockSignalProviders[PickIndex(d.provider, |MockSignalProviders|)],
      Pairs[PickIndex(d.pair, |Pairs|)],
      if d.signalType > 0.5 then Bullish else Bearish,
      Timeframes[PickIndex(d.timeframe, |Timeframes|)],
      d.entry * 1000.0,
      d.target * 1200.0,
      d.stop * 900.0,
      Justifications[PickIndex(d.justification, |Justifications|)],
      if d.image > 0.7 then Some("https://picsum.photos/seed/chart" + NatToString(i) + "/400/200") else None,
      NatToString(PickIndex(d.hours, 24) + 1) + " horas atrás")
  }

  /** Every generated signal takes its provider, pair, timeframe and
      justification from the fixed tables, its id from its position, and its
      prices from the stated ranges. */
  predicate WellFormedSignal(i: nat, s: Signal)
  {
    && s.id == "sig" + NatToString(i + 1)
    && s.provider in MockSignalProviders
    && s.pair in Pairs
    && s.timeframe in Timeframes
    && s.justification in Justifications
    && 0.0 <= s.entry < 1000.0
    && 0.0 <= s.target < 1200.0
    && 0.0 <= s.stop < 900.0
  }

  lemma MockSignalWellFormed(i: nat, d: SignalDraws)
    requires d.Valid()
    ensures WellFormedSignal(i, MockSignal(i, d))
  {
    ScaledDrawBelow(d.entry, 1000.0);
    ScaledDrawBelow(d.target, 1200.0);
    ScaledDrawBelow(d.stop, 900.0);
  }

  /** `generateMockSignals(count)`: a loop pushing one signal per
      iteration. */
  method GenerateMockSignals(count: nat, draws: seq<SignalDraws>) returns (signals: seq<Signal>)
    requires |draws| == count
    requires forall i :: 0 <= i < count ==> draws[i].Valid()
    ensures |signals| == count
    ensures forall i :: 0 <= i < count ==> signals[i] == MockSignal(i, draws[i])
    ensures forall i :: 0 <= i < count ==> WellFormedSignal(i, signals[i])
    ensures forall i, j :: 0 <= i < j < count ==> signals[i].id != signals[j].id
  {
    signals := [];
    for i := 0 to count
      invariant |signals| == i
      invariant forall k :: 0 <= k < i ==> signals[k] == MockSignal(k, draws[k])
    {
      var signal := MockSignal(i, draws[i]);
      signals := signals + [signal];
    }
    forall i | 0 <= i < count
      ensures WellFormedSignal(i, signals[i])
    {
      MockSignalWellFormed(i, draws[i]);
    }
    forall i, j | 0 <= i < j < count
      ensures signals[i].id != signals[j].id
    {
      if signals[i].id == signals[j].id {
        TaggedNatInjective("sig", i + 1, j + 1);
      }
    }
  }

  /** The seed tables carry distinct ids. */
  lemma SeedIdsDistinct()
    ensures forall i, j :: 0 <= i < j < |MockSignalProviders| ==> MockSignalProviders[i].id != MockSignalProviders[j].id
    ensures forall i, j :: 0 <= i < j < |MockAdminUsers| ==> MockAdminUsers[i].id != MockAdminUsers[j].id
    ensures forall i, j :: 0 <= i < j < |MockUsers| ==> MockUsers[i].id != MockUsers[j].id
  {
  }
}
