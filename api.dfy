/** The mock service layer (services/api.ts). The module-level arrays
    `mockUsers` and `mockAdminUsers` that registration and the admin actions
    mutate are the fields of `MockStore`; `mockSignals` is its constant
    field. Lookups and pagination are functions of that state. The timers
    that delay every answer are not part of the model. */
module Api {
  import opened Types
  import opened Strings
  import opened Constants

  function MinInt(a: int, b: int): int { if a <= b then a else b }

  function MaxInt(a: int, b: int): int { if a >= b then a else b }

  // ---------------------------------------------------------------------
  // Lookups (`find` / `findIndex`); |s| plays the role of -1
  // ---------------------------------------------------------------------

  /** `findIndex(x => key(x) === k)`: the first position whose key is `k`,
      or the length when there is none. */
  function FirstIndexBy<T>(s: seq<T>, key: T -> string, k: string): (i: nat)
    ensures i <= |s|
    ensures i < |s| ==> key(s[i]) == k
    ensures forall j :: 0 <= j < i ==> key(s[j]) != k
  {
    if s == [] || key(s[0]) == k then 0 else 1 + FirstIndexBy(s[1..], key, k)
  }

  /** Appending elements does not change which one a lookup finds first
      when the prefix already has one; otherwise the lookup continues into
      the appended part. */
  lemma {:induction false} FirstIndexByPrefix<T>(s: seq<T>, more: seq<T>, key: T -> string, k: string)
    ensures FirstIndexBy(s, key, k) < |s| ==> FirstIndexBy(s + more, key, k) == FirstIndexBy(s, key, k)
    ensures FirstIndexBy(s, key, k) == |s| ==> FirstIndexBy(s + more, key, k) == |s| + FirstIndexBy(more, key, k)
  {
    if s != [] {
      assert (s + more)[1..] == s[1..] + more;
      FirstIndexByPrefix(s[1..], more, key, k);
    } else {
      assert s + more == more;
    }
  }

  /** `users.find(u => u.email === email)`, by position. */
  function IndexOfEmail(users: seq<User>, email: string): nat
  {
    FirstIndexBy(users, (u: User) => u.email, email)
  }

  /** `users.findIndex(u => u.id === id)` */
  function IndexOfUserId(users: seq<User>, id: string): nat
  {
    FirstIndexBy(users, (u: User) => u.id, id)
  }

  /** `mockAdminUsers.findIndex(u => u.id === id)` */
  function IndexOfAdminId(rows: seq<AdminUser>, id: string): nat
  {
    FirstIndexBy(rows, (u: AdminUser) => u.id, id)
  }

  // ---------------------------------------------------------------------
  // Authentication
  // ---------------------------------------------------------------------

  /** The hard-coded administrator credentials, checked before anything
      else. */
  predicate IsBackdoor(email: string, password: Option<string>)
  {
    email == "admkrug" && password == Some("122436")
  }

  const AdminMaster: User := User("admin_master", "Administrador Krug", "admkrug@cryptocandles.ai", Admin, "Admin Master")

  function GuestUser(email: string): User
  {
    User("guest", "Usuário Convidado", email, Free, "Gratuito")
  }

  /** `login(email, password)`: the administrator backdoor, else the first
      known user with that email, else a free guest carrying the email. The
      password of known users is not checked. */
  function Login(users: seq<User>, email: string, password: Option<string>): (r: User)
    ensures IsBackdoor(email, password) ==> r == AdminMaster && r.role == Admin
    ensures !IsBackdoor(email, password) && (exists i :: 0 <= i < |users| && users[i].email == email) ==>
      exists i :: 0 <= i < |users| && r == users[i] && r.email == email
        && forall j :: 0 <= j < i ==> users[j].email != email
    ensures !IsBackdoor(email, password) && (forall i :: 0 <= i < |users| ==> users[i].email != email) ==>
      r == GuestUser(email) && r.role == Free
  {
    if IsBackdoor(email, password) then AdminMaster
    else
      var i := IndexOfEmail(users, email);
      if i < |users| then users[i] else GuestUser(email)
  }

  /** The account `register` creates; `nowMs` is `Date.now()`. */
  function NewUser(email: string, name: string, nowMs: nat): User
  {
    User("new_" + NatToString(nowMs), name, email, Free, "Gratuito")
  }

  /** `upgradePlan(userId)`: a copy of the known user with the premium role
      and plan, a premium stand-in for the guest and backdoor ids, and a
      rejection for anything else. The stored users are not changed. */
  function UpgradePlan(users: seq<User>, userId: string): (r: Result<User, string>)
    ensures r.Ok? ==> r.value.id == userId && r.value.role == Premium && r.value.plan == "Premium"
    ensures r.Err? <==>
      (forall i :: 0 <= i < |users| ==> users[i].id != userId) && userId != "guest" && userId != "admin_master"
    ensures forall i :: 0 <= i < |users| && users[i].id == userId ==>
      exists j :: 0 <= j <= i && r == Ok(users[j].(role := Premium, plan := "Premium"))
    ensures r.Err? ==> r.error == "User not found"
    ensures (forall i :: 0 <= i < |users| ==> users[i].id != userId) && (userId == "guest" || userId == "admin_master") ==>
      r == Ok(User(userId, if userId == "admin_master" then "Admin Krug" else "Usuário Convidado", "test@test.com", Premium, "Premium"))
  {
    var i := IndexOfUserId(users, userId);
    if i < |users| then Ok(users[i].(role := Premium, plan := "Premium"))
    else if userId == "guest" || userId == "admin_master" then
      Ok(User(userId, if userId == "admin_master" then "Admin Krug" else "Usuário Convidado",
              "test@test.com", Premium, "Premium"))
    else Err("User not found")
  }

  /** `toggleFollowProvider`: the mock acknowledges every toggle. */
  function ToggleFollowProvider(providerId: string): (success: bool)
    ensures success
  {
    true
  }

  // ---------------------------------------------------------------------
  // Pagination
  // ---------------------------------------------------------------------

  /** How `Array.prototype.slice` reads an index: negative counts from the
      end, and the result is clipped to `[0, len]`. */
  function SliceIndex(i: int, len: nat): (k: nat)
    ensures k <= len
    ensures 0 <= i <= len ==> k == i
    ensures i > len ==> k == len
  {
    if i < 0 then MaxInt(len + i, 0) else MinInt(i, len)
  }

  /** `s.slice(start, end)` */
  function Slice<T>(s: seq<T>, start: int, end: int): seq<T>
  {
    var a := SliceIndex(start, |s|);
    var b := SliceIndex(end, |s|);
    if a < b then s[a..b] else []
  }

  /** `getSignals(page, limit)` over the signal table. For a page number
      from 1 and a non-negative limit the data is the window
      `[(page-1)*limit, page*limit)` clipped to the table; `hasMore` says
      whether the window's end is short of the table's end. */
  function GetSignals(signals: seq<Signal>, page: int, limit: int): (r: PaginatedResponse<Signal>)
    ensures r.total == |signals| && r.page == page && r.limit == limit
    ensures r.hasMore <==> page * limit < |signals|
    ensures page >= 1 && limit >= 0 ==>
      |r.data| == MinInt(limit, MaxInt(0, |signals| - (page - 1) * limit))
    ensures page >= 1 && limit >= 0 ==>
      var start := (page - 1) * limit;
      start >= 0 && forall k :: 0 <= k < |r.data| ==> start + k < |signals| && r.data[k] == signals[start + k]
  {
    var startIndex := (page - 1) * limit;
    var endIndex := startIndex + limit;
    PageProduct(page, limit);
    var data := Slice(signals, startIndex, endIndex);
    var r := PaginatedResponse(data, |signals|, page, limit, endIndex < |signals|);
    if page >= 1 && limit >= 0 then
      SliceWindow(signals, startIndex, limit, data);
      r
    else
      r
  }

  /** A slice `[a, a + l)` from a non-negative start is the clipped window
      of the table that starts at `a`. */
  lemma SliceWindow<T>(s: seq<T>, a: int, l: int, w: seq<T>)
    requires a >= 0 && l >= 0 && w == Slice(s, a, a + l)
    ensures |w| == MinInt(l, MaxInt(0, |s| - a))
    ensures forall k :: 0 <= k < |w| ==> w[k] == s[a + k]
  {
  }

  lemma PageProduct(page: int, limit: int)
    ensures (page - 1) * limit + limit == page * limit
    ensures page >= 1 && limit >= 0 ==> (page - 1) * limit >= 0
  {
  }

  /** What a caller holds after loading pages 1..n in turn and appending
      each page's data. */
  function LoadedPages(signals: seq<Signal>, limit: int, n: nat): seq<Signal>
  {
    if n == 0 then [] else LoadedPages(signals, limit, n - 1) + GetSignals(signals, n, limit).data
  }

  /** Loading pages 1..n one after another yields exactly the first
      `n * limit` signals (all of them once the table is exhausted), without
      gaps or repeats; the last page reports `hasMore` exactly when signals
      remain. */
  lemma {:induction false} LoadedPagesArePrefix(signals: seq<Signal>, limit: int, n: nat)
    requires limit >= 1
    ensures LoadedPages(signals, limit, n) == signals[..MinInt(n * limit, |signals|)]
    ensures n >= 1 ==> (GetSignals(signals, n, limit).hasMore <==> |LoadedPages(signals, limit, n)| < |signals|)
  {
    if n > 0 {
      LoadedPagesArePrefix(signals, limit, n - 1);
      PageProduct(n, limit);
      PageExtendsPrefix(signals, limit, n, (n - 1) * limit);
    }
  }

  /** One step of the above: page n continues the prefix of the first
      `(n-1) * limit` signals. */
  lemma PageExtendsPrefix(signals: seq<Signal>, limit: int, n: int, a: int)
    requires limit >= 1 && n >= 1 && a == (n - 1) * limit && a >= 0
    ensures signals[..MinInt(a, |signals|)] + GetSignals(signals, n, limit).data
            == signals[..MinInt(a + limit, |signals|)]
  {
    var len := |signals|;
    var page := GetSignals(signals, n, limit).data;
    if a >= len {
      assert |page| == 0;
    } else {
      assert |page| == MinInt(limit, len - a);
      assert forall k :: 0 <= k < |page| ==> page[k] == signals[a + k];
    }
  }

  /** A paged feed as the screens hold it: `shown` is what loading pages
      1..page in turn yields, and `hasMore` is the last page's flag. */
  predicate FeedMatches(signals: seq<Signal>, limit: int, shown: seq<Signal>, page: int, hasMore: bool)
  {
    page >= 1
    && shown == LoadedPages(signals, limit, page)
    && hasMore == GetSignals(signals, page, limit).hasMore
  }

  /** The first page starts a feed: it shows the first `limit` signals. */
  lemma FirstPageStartsFeed(signals: seq<Signal>, limit: int)
    requires limit >= 1
    ensures FeedMatches(signals, limit, GetSignals(signals, 1, limit).data, 1, GetSignals(signals, 1, limit).hasMore)
    ensures GetSignals(signals, 1, limit).data == signals[..MinInt(limit, |signals|)]
  {
    assert LoadedPages(signals, limit, 1) == LoadedPages(signals, limit, 0) + GetSignals(signals, 1, limit).data;
    LoadedPagesArePrefix(signals, limit, 1);
  }

  /** Appending the next page to a feed keeps it a feed, one page further:
      it then shows the first `(page + 1) * limit` signals, clipped to the
      table, and `hasMore` says whether any remain. */
  lemma NextPageExtendsFeed(signals: seq<Signal>, limit: int, shown: seq<Signal>, page: int, hasMore: bool)
    requires limit >= 1 && FeedMatches(signals, limit, shown, page, hasMore)
    ensures var next := GetSignals(signals, page + 1, limit);
      FeedMatches(signals, limit, shown + next.data, page + 1, next.hasMore)
    ensures shown + GetSignals(signals, page + 1, limit).data == signals[..MinInt((page + 1) * limit, |signals|)]
    ensures GetSignals(signals, page + 1, limit).hasMore <==> (page + 1) * limit < |signals|
  {
    LoadedPagesArePrefix(signals, limit, page + 1);
  }

  // ---------------------------------------------------------------------
  // Backtest generator
  // ---------------------------------------------------------------------

  /** The `Math.random()` values one generated trade consumes: the win
      test, the entry price and the side. */
  datatype TradeDraws = TradeDraws(win: real, entry: real, side: real)

  /** All `Math.random()` values of one backtest, in call order. */
  datatype BacktestDraws = BacktestDraws(
    totalTrades: real, winRate: real, trades: seq<TradeDraws>, cumulativeReturn: real, maxDrawdown: real)
  {
    predicate Valid()
    {
      && UnitDraw(totalTrades) && UnitDraw(winRate) && UnitDraw(cumulativeReturn) && UnitDraw(maxDrawdown)
      && |trades| == SampleTrades
      && forall i :: 0 <= i < |trades| ==>
           UnitDraw(trades[i].win) && UnitDraw(trades[i].entry) && UnitDraw(trades[i].side)
    }
  }

  /** Number of sample trades in every backtest result. */
  const SampleTrades: nat := 15

  /** The properties one generated trade has: a +5% win or a -3% loss, an
      entry in [50000, 60000), the exit derived from them, and its date. */
  predicate WellFormedTrade(t: Trade, i: int)
  {
    && (t.result == 5.0 || t.result == -3.0)
    && 50000.0 <= t.entryPrice < 60000.0
    && t.exitPrice == t.entryPrice * (1.0 + t.result / 100.0)
    && t.date == Date(2024, 5, 25 - i)
  }

  /** `runBacktest()`: two bounded integers drawn first, fifteen trades
      pushed one per loop iteration dated 2024-05-25 backward, then the
      return and drawdown. The trades leave the loop strictly descending
      by date, which is the order the final comparator sort asks for. */
  method RunBacktest(d: BacktestDraws) returns (r: BacktestResult)
    requires d.Valid()
    ensures 50 <= r.totalTrades < 200
    ensures 50 <= r.winRate < 90
    ensures 50.0 <= r.cumulativeReturn < 250.0
    ensures -20.0 < r.maxDrawdown <= -5.0
    ensures |r.trades| == SampleTrades
    ensures forall i :: 0 <= i < |r.trades| ==> WellFormedTrade(r.trades[i], i)
    ensures forall i :: 0 <= i < |r.trades| ==>
      (r.trades[i].result == 5.0 <==> d.trades[i].win * 100.0 < r.winRate as real)
    ensures forall i, j :: 0 <= i < j < |r.trades| ==> Before(r.trades[j].date, r.trades[i].date)
  {
    var totalTrades := PickIndex(d.totalTrades, 150) + 50;
    var winRate := PickIndex(d.winRate, 40) + 50;
    var trades: seq<Trade> := [];
    for i := 0 to SampleTrades
      invariant |trades| == i
      invariant forall k :: 0 <= k < i ==> WellFormedTrade(trades[k], k)
      invariant forall k :: 0 <= k < i ==> (trades[k].result == 5.0 <==> d.trades[k].win * 100.0 < winRate as real)
    {
      var isWin := d.trades[i].win * 100.0 < winRate as real;
      var entryPrice := d.trades[i].entry * 10000.0 + 50000.0;
      ScaledDrawBelow(d.trades[i].entry, 10000.0);
      var result := if isWin then 5.0 else -3.0;
      var exitPrice := entryPrice * (1.0 + result / 100.0);
      var side := if d.trades[i].side > 0.5 then Compra else Venda;
      trades := trades + [Trade(Date(2024, 5, 25 - i), side, entryPrice, exitPrice, result)];
    }
    ScaledDrawBelow(d.cumulativeReturn, 200.0);
    ScaledDrawBelow(d.maxDrawdown, 15.0);
    r := BacktestResult(totalTrades, winRate, d.cumulativeReturn * 200.0 + 50.0,
                        -(d.maxDrawdown * 15.0 + 5.0), trades);
  }

  // ---------------------------------------------------------------------
  // The mutable module state
  // ---------------------------------------------------------------------

  /** `mockUsers`, `mockAdminUsers` and `mockSignals` of the running
      session. */
  class MockStore {
    var users: seq<User>
    var adminUsers: seq<AdminUser>
    const signals: seq<Signal>

    /** The seeded tables; `draws` are the random values the 50 generated
        signals consume. */
    constructor (draws: seq<SignalDraws>)
      requires |draws| == MockSignalCount
      requires forall i :: 0 <= i < MockSignalCount ==> draws[i].Valid()
      ensures users == MockUsers && adminUsers == MockAdminUsers
      ensures |signals| == MockSignalCount
      ensures forall i :: 0 <= i < |signals| ==> WellFormedSignal(i, signals[i])
      ensures forall i, j :: 0 <= i < j < |signals| ==> signals[i].id != signals[j].id
    {
      var generated := GenerateMockSignals(MockSignalCount, draws);
      users := MockUsers;
      adminUsers := MockAdminUsers;
      signals := generated;
    }

    /** `register(email, password, name)`: pushes a free user and puts a
        matching active row at the front of the admin table. The password
        is not stored. */
    method Register(email: string, password: string, name: string, nowMs: nat) returns (newUser: User)
      modifies this
      ensures newUser == NewUser(email, name, nowMs) && newUser.role == Free
      ensures users == old(users) + [newUser]
      ensures adminUsers == [AdminUser(newUser.id, name, email, "Gratuito", Ativo, None)] + old(adminUsers)
      ensures Login(users, email, None) == Login(old(users), email, None)
        || Login(users, email, None) == newUser
    {
      newUser := NewUser(email, name, nowMs);
      users := users + [newUser];
      adminUsers := [AdminUser(newUser.id, newUser.name, newUser.email, "Gratuito", Ativo, None)] + adminUsers;
      RegisteredUserCanLogIn(old(users), newUser, email);
    }

    /** `updateUserStatus(userId, status)`: the first row with that id gets
        the status; nothing else changes; an unknown id changes nothing. */
    method UpdateUserStatus(userId: string, newStatus: AccountStatus)
      modifies this
      ensures users == old(users)
      ensures |adminUsers| == |old(adminUsers)|
      ensures var i := IndexOfAdminId(old(adminUsers), userId);
        if i < |old(adminUsers)| then adminUsers == old(adminUsers)[i := old(adminUsers)[i].(status := newStatus)]
        else adminUsers == old(adminUsers)
    {
      var userIndex := IndexOfAdminId(adminUsers, userId);
      if userIndex < |adminUsers| {
        adminUsers := adminUsers[userIndex := adminUsers[userIndex].(status := newStatus)];
      }
    }

    /** `deleteUser(userId)`: splices out the first row with that id; an
        unknown id changes nothing. */
    method DeleteUser(userId: string)
      modifies this
      ensures users == old(users)
      ensures var i := IndexOfAdminId(old(adminUsers), userId);
        if i < |old(adminUsers)| then adminUsers == old(adminUsers)[..i] + old(adminUsers)[i + 1..]
        else adminUsers == old(adminUsers)
    {
      var userIndex := IndexOfAdminId(adminUsers, userId);
      if userIndex < |adminUsers| {
        adminUsers := adminUsers[..userIndex] + adminUsers[userIndex + 1..];
      }
    }
  }

  /** After registering, logging in with the new email finds the new user
      unless an older account already had that email. */
  lemma RegisteredUserCanLogIn(users: seq<User>, newUser: User, email: string)
    requires newUser.email == email
    ensures Login(users + [newUser], email, None) == Login(users, email, None)
      || Login(users + [newUser], email, None) == newUser
    ensures (forall i :: 0 <= i < |users| ==> users[i].email != email) ==>
      Login(users + [newUser], email, None) == newUser
  {
    var all := users + [newUser];
    if IndexOfEmail(users, email) < |users| {
      IndexOfEmailPrefix(users, [newUser], email);
    } else {
      assert all[|users|].email == email;
      IndexOfEmailPrefix(users, [newUser], email);
    }
  }

  /** The email lookup of `login` is unchanged by registering more users
      when it already succeeds, and continues into them otherwise. */
  lemma IndexOfEmailPrefix(users: seq<User>, more: seq<User>, email: string)
    ensures IndexOfEmail(users, email) < |users| ==> IndexOfEmail(users + more, email) == IndexOfEmail(users, email)
    ensures IndexOfEmail(users, email) == |users| ==> IndexOfEmail(users + more, email) == |users| + IndexOfEmail(more, email)
  {
    FirstIndexByPrefix(users, more, (u: User) => u.email, email);
  }
}
