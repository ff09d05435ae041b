/** The community screen's state and event handlers
    (components/Community.tsx): the signal feed with "load more", the
    follow toggles and the top-trader ranking.

    Each asynchronous handler is split at its `await`: `Begin…` is what runs
    before the call (flags set), `End…` what runs when the call settles,
    with the call's outcome as input (None when it rejected). */
module Community {
  import opened Types
  import Api

  /** `ITEMS_PER_PAGE` */
  const ItemsPerPage: int := 5

  /** The follow set after a successful toggle of `id`. */
  function Toggle(followed: set<string>, id: string): (r: set<string>)
    ensures id in r <==> id !in followed
    ensures forall other :: other != id ==> (other in r <==> other in followed)
  {
    if id in followed then followed - {id} else followed + {id}
  }

  /** Toggling the same provider twice restores the follow set. */
  lemma ToggleTwice(followed: set<string>, id: string)
    ensures Toggle(Toggle(followed, id), id) == followed
  {
  }

  /** The "PRO" badge: a provider is verified above 80% win rate. */
  predicate IsVerified(p: SignalProvider)
  {
    p.winRate > 80
  }

  /** An ad slot follows the signal at `index` (0-based) when its position
      is a multiple of 4. */
  predicate AdFollows(index: nat)
  {
    (index + 1) % 4 == 0
  }

  /** Number of ad slots rendered among the first `n` signals. */
  function AdSlots(n: nat): nat
  {
    if n == 0 then 0 else AdSlots(n - 1) + (if AdFollows(n - 1) then 1 else 0)
  }

  /** A feed of `n` signals carries exactly one ad per full group of
      four. */
  lemma {:induction false} AdSlotsPerFour(n: nat)
    ensures AdSlots(n) == n / 4
  {
    if n > 0 {
      AdSlotsPerFour(n - 1);
    }
  }

  /** Non-increasing win rate: the ranking's order. */
  predicate ByWinRateDescending(s: seq<SignalProvider>)
  {
    forall i, j :: 0 <= i < j < |s| ==> s[i].winRate >= s[j].winRate
  }

  /** The number of "PRO" badges a list of providers shows. */
  function VerifiedCount(s: seq<SignalProvider>): (c: nat)
    ensures c <= |s|
  {
    if s == [] then 0 else (if IsVerified(s[0]) then 1 else 0) + VerifiedCount(s[1..])
  }

  /** In the ranking's order the badged providers come first: the first
      `VerifiedCount(s)` places carry the badge and no later one does. */
  lemma {:induction false} VerifiedArePrefix(s: seq<SignalProvider>)
    requires ByWinRateDescending(s)
    ensures forall i :: 0 <= i < |s| ==> (IsVerified(s[i]) <==> i < VerifiedCount(s))
  {
    if s != [] {
      var rest := s[1..];
      assert ByWinRateDescending(rest) by {
        forall i, j | 0 <= i < j < |rest| ensures rest[i].winRate >= rest[j].winRate {
          assert rest[i] == s[i + 1] && rest[j] == s[j + 1];
        }
      }
      VerifiedArePrefix(rest);
      // Without a badge in first place there is none further down.
      if rest != [] {
        assert rest[0] == s[1];
      }
      forall i | 1 <= i < |s| ensures IsVerified(s[i]) <==> i < VerifiedCount(s) {
        assert s[i] == rest[i - 1];
      }
    }
  }

  /** The top list of `n` ranked providers shows `min(n, verified)` badges:
      cutting the ranking never drops a badged provider while it leaves
      out another one without a badge. */
  lemma {:induction false} TopBadges(s: seq<SignalProvider>, n: nat)
    requires ByWinRateDescending(s) && n <= |s|
    ensures VerifiedCount(s[..n]) == Api.MinInt(n, VerifiedCount(s))
  {
    var top := s[..n];
    assert ByWinRateDescending(top);
    VerifiedArePrefix(s);
    VerifiedArePrefix(top);
    var c, t := VerifiedCount(s), VerifiedCount(top);
    // The last badge shown is a badge of the whole ranking: t <= c.
    if t > 0 {
      assert top[t - 1] == s[t - 1];
    }
    // The last badge that fits is shown: min(n, c) <= t.
    var k := Api.MinInt(n, c);
    if k > 0 {
      assert top[k - 1] == s[k - 1];
    }
  }

  /** `providers.sort((a, b) => b.winRate - a.winRate)`, in place: an
      insertion sort. */
  method SortByWinRate(a: array<SignalProvider>)
    modifies a
    ensures ByWinRateDescending(a[..])
    ensures multiset(a[..]) == multiset(old(a[..]))
  {
    if a.Length == 0 {
      return;
    }
    var i := 1;
    while i < a.Length
      invariant 1 <= i <= a.Length
      invariant ByWinRateDescending(a[..i])
      invariant multiset(a[..]) == multiset(old(a[..]))
    {
      InsertAt(a, i);
      i := i + 1;
    }
    assert a[..a.Length] == a[..];
  }

  /** One pass of the insertion sort: `a[i]` sinks into the sorted prefix
      `a[..i]`, which then extends to `a[..i + 1]`. */
  method InsertAt(a: array<SignalProvider>, i: int)
    requires 1 <= i < a.Length
    requires ByWinRateDescending(a[..i])
    modifies a
    ensures ByWinRateDescending(a[..i + 1])
    ensures multiset(a[..]) == multiset(old(a[..]))
  {
    var j := i;
    while j > 0 && a[j - 1].winRate < a[j].winRate
      invariant 0 <= j <= i
      invariant forall x, y :: 0 <= x < y <= i && y != j ==> a[x].winRate >= a[y].winRate
      invariant multiset(a[..]) == multiset(old(a[..]))
    {
      SwapAdjacent(a, j - 1);
      j := j - 1;
    }
  }

  /** Exchanges `a[k]` and `a[k + 1]`. */
  method SwapAdjacent(a: array<SignalProvider>, k: int)
    requires 0 <= k < a.Length - 1
    modifies a
    ensures a[..] == old(a[..])[k := old(a[k + 1])][k + 1 := old(a[k])]
    ensures multiset(a[..]) == multiset(old(a[..]))
  {
    a[k], a[k + 1] := a[k + 1], a[k];
  }

  /** The state of the component. */
  class CommunityState {
    var providers: array<SignalProvider>
    var signals: seq<Signal>
    var loadingProviders: bool
    var loadingSignals: bool
    var followedProviders: set<string>
    var loadingFollow: Option<string>
    var page: int
    var hasMore: bool
    var loadingMore: bool

    /** The initial state of `useState`. */
    constructor ()
      ensures providers.Length == 0 && signals == [] && followedProviders == {}
      ensures loadingProviders && loadingSignals && !loadingMore
      ensures loadingFollow == None && page == 1 && hasMore
    {
      providers := new SignalProvider[0];
      signals := [];
      loadingProviders := true;
      loadingSignals := true;
      followedProviders := {};
      loadingFollow := None;
      page := 1;
      hasMore := true;
      loadingMore := false;
    }

    /** The feed shows exactly what loading pages 1..page of `backend`
        yields, and `hasMore` is the last page's flag. */
    ghost predicate FeedMatches(backend: seq<Signal>)
      reads this
    {
      Api.FeedMatches(backend, ItemsPerPage, signals, page, hasMore)
    }

    /** `fetchProviders` settling: the list is replaced on success, the
        loading flag cleared either way. */
    method EndFetchProviders(response: Option<seq<SignalProvider>>)
      modifies this
      ensures response.Some? ==> fresh(providers) && providers[..] == response.value
      ensures response.None? ==> providers == old(providers)
      ensures !loadingProviders
      ensures signals == old(signals) && followedProviders == old(followedProviders)
      ensures page == old(page) && hasMore == old(hasMore)
      ensures loadingSignals == old(loadingSignals) && loadingMore == old(loadingMore)
      ensures loadingFollow == old(loadingFollow)
    {
      if response.Some? {
        var data := response.value;
        providers := new SignalProvider[|data|](k requires 0 <= k < |data| => data[k]);
      }
      loadingProviders := false;
    }

    /** `loadSignals(pageNum)` up to its `await`. */
    method BeginLoadSignals(pageNum: int)
      modifies this
      ensures pageNum == 1 ==> loadingSignals && loadingMore == old(loadingMore)
      ensures pageNum != 1 ==> loadingMore && loadingSignals == old(loadingSignals)
      ensures signals == old(signals) && page == old(page) && hasMore == old(hasMore)
      ensures followedProviders == old(followedProviders) && loadingFollow == old(loadingFollow)
      ensures providers == old(providers) && loadingProviders == old(loadingProviders)
    {
      if pageNum == 1 {
        loadingSignals := true;
      } else {
        loadingMore := true;
      }
    }

    /** `loadSignals(pageNum)` after `getSignals(pageNum, 5)` settled:
        page 1 replaces the feed, later pages append; on failure the feed,
        page and `hasMore` stay; both loading flags end false. */
    method EndLoadSignals(pageNum: int, response: Option<PaginatedResponse<Signal>>)
      modifies this
      ensures response.Some? ==>
        && signals == (if pageNum == 1 then response.value.data else old(signals) + response.value.data)
        && hasMore == response.value.hasMore
        && page == pageNum
      ensures response.None? ==> signals == old(signals) && hasMore == old(hasMore) && page == old(page)
      ensures !loadingSignals && !loadingMore
      ensures followedProviders == old(followedProviders) && loadingFollow == old(loadingFollow)
      ensures providers == old(providers) && loadingProviders == old(loadingProviders)
    {
      if response.Some? {
        signals := if pageNum == 1 then response.value.data else signals + response.value.data;
        hasMore := response.value.hasMore;
        page := pageNum;
      }
      loadingSignals := false;
      loadingMore := false;
    }

    /** `handleLoadMore`: asks for the next page only when no further page
        is being loaded and the last response said there is more. `page`
        starts at 1 and only ever takes a requested page number, so it is
        at least 1 here. */
    method HandleLoadMore() returns (requested: Option<int>)
      requires page >= 1
      modifies this
      ensures requested.Some? <==> !old(loadingMore) && old(hasMore)
      ensures requested.Some? ==> requested.value == old(page) + 1 && loadingMore
      ensures requested.None? ==> loadingMore == old(loadingMore)
      ensures loadingSignals == old(loadingSignals)
      ensures signals == old(signals) && page == old(page) && hasMore == old(hasMore)
      ensures followedProviders == old(followedProviders) && loadingFollow == old(loadingFollow)
      ensures providers == old(providers) && loadingProviders == old(loadingProviders)
    {
      if !loadingMore && hasMore {
        requested := Some(page + 1);
        BeginLoadSignals(page + 1);
      } else {
        requested := None;
      }
    }

    /** The mount effect's `loadSignals(1)` answered by the mock back end
        starts the feed with its first page. */
    method EndFirstLoadFromBackend(backend: seq<Signal>)
      modifies this
      ensures FeedMatches(backend) && page == 1
      ensures signals == backend[..Api.MinInt(ItemsPerPage, |backend|)]
      ensures !loadingSignals && !loadingMore
      ensures followedProviders == old(followedProviders) && loadingFollow == old(loadingFollow)
      ensures providers == old(providers) && loadingProviders == old(loadingProviders)
    {
      EndLoadSignals(1, Some(Api.GetSignals(backend, 1, ItemsPerPage)));
      Api.FirstPageStartsFeed(backend, ItemsPerPage);
    }

    /** Against the mock back end (which answers every page), a successful
        next-page load keeps the feed equal to the pages loaded so far. */
    method EndLoadMoreFromBackend(backend: seq<Signal>)
      requires FeedMatches(backend)
      modifies this
      ensures FeedMatches(backend) && page == old(page) + 1
      ensures signals == backend[..Api.MinInt(page * ItemsPerPage, |backend|)]
      ensures hasMore <==> |signals| < |backend|
      ensures !loadingSignals && !loadingMore
      ensures followedProviders == old(followedProviders) && loadingFollow == old(loadingFollow)
      ensures providers == old(providers) && loadingProviders == old(loadingProviders)
    {
      Api.NextPageExtendsFeed(backend, ItemsPerPage, signals, page, hasMore);
      EndLoadSignals(page + 1, Some(Api.GetSignals(backend, page + 1, ItemsPerPage)));
    }

    /** `handleToggleFollow(providerId)` up to its `await`. */
    method BeginToggleFollow(providerId: string)
      modifies this
      ensures loadingFollow == Some(providerId)
      ensures followedProviders == old(followedProviders)
      ensures signals == old(signals) && page == old(page) && hasMore == old(hasMore)
      ensures loadingSignals == old(loadingSignals) && loadingMore == old(loadingMore)
      ensures providers == old(providers) && loadingProviders == old(loadingProviders)
    {
      loadingFollow := Some(providerId);
    }

    /** `handleToggleFollow(providerId)` after the service settled: on
        success the provider's membership flips; on failure the set stays;
        the pending marker is cleared either way. */
    method EndToggleFollow(providerId: string, succeeded: bool)
      modifies this
      ensures succeeded ==> followedProviders == Toggle(old(followedProviders), providerId)
      ensures !succeeded ==> followedProviders == old(followedProviders)
      ensures loadingFollow == None
      ensures signals == old(signals) && page == old(page) && hasMore == old(hasMore)
      ensures loadingSignals == old(loadingSignals) && loadingMore == old(loadingMore)
      ensures providers == old(providers) && loadingProviders == old(loadingProviders)
    {
      if succeeded {
        var newSet := followedProviders;
        if providerId in newSet {
          newSet := newSet - {providerId};
        } else {
          newSet := newSet + {providerId};
        }
        followedProviders := newSet;
      }
      loadingFollow := None;
    }

    /** The "Top Traders" panel: sorts the providers array in place by
        descending win rate and shows its first five. */
    method TopTraders() returns (top: seq<SignalProvider>)
      modifies providers
      ensures multiset(providers[..]) == multiset(old(providers[..]))
      ensures ByWinRateDescending(providers[..])
      ensures top == providers[..Api.MinInt(5, providers.Length)]
      ensures |top| <= 5 && ByWinRateDescending(top)
      ensures forall p, q :: p in top && q in providers[Api.MinInt(5, providers.Length)..] ==> p.winRate >= q.winRate
      ensures VerifiedCount(top) == Api.MinInt(5, VerifiedCount(providers[..]))
    {
      SortByWinRate(providers);
      var n := Api.MinInt(5, providers.Length);
      top := providers[..n];
      TopBadges(providers[..], n);
      assert providers[..][..n] == top;
      forall p, q | p in top && q in providers[n..]
        ensures p.winRate >= q.winRate
      {
        var i :| 0 <= i < n && providers[..n][i] == p;
        var j :| 0 <= j < providers.Length - n && providers[n..][j] == q;
        assert providers[..][i] == p && providers[..][n + j] == q;
      }
    }
  }
}
