# Crypto Candles front end, modelled in Dafny

This project models the core of a React front end for crypto trading.
The front end talks to mocked services and has these parts:

- `services/api.ts`: sign-in with a hard-coded administrator backdoor, registration, plan upgrade, paginated signals, simulated backtests and the admin-side user table;
- `services/marketService.ts`: market prices and candlesticks, with a fallback snapshot and a simulated candle series;
- `constants.ts`: the seeded users, signal providers, administrator rows and generated signals;
- the screens: dashboard, image analysis, community, admin panel, login and pricing;
- `App.tsx`: the application shell.

There is one Dafny module per source file:

| module | source |
|---|---|
| `Types` | `types.ts` |
| `Strings` | the JavaScript string operations used, on `seq<char>` |
| `Constants` | `constants.ts` |
| `MarketService` | `services/marketService.ts` |
| `Api` | `services/api.ts` |
| `Community`, `Dashboard`, `AdminPanel`, `ImageAnalysis`, `Login`, `Pricing` | `components/*.tsx` |
| `App` | `App.tsx` |

How the model is built:

- **Pure code.** Lookups, page slicing, classification, rendering choices and the mock services' answers are functions. They have named results, and lemmas relate them.
- **Component state.** Each component's `useState` variables are the fields of a class.
- **Handlers.** Each event handler is a method with a `modifies` clause. It states the component's whole new state.
- **Asynchronous handlers.** These are split at their `await` into a `Begin…` method and an `End…` method. The outcome of the awaited call is a parameter of the `End…` method: an `Option`, a success flag or a result.
- **Whole interactions.** Composite methods (`…FromBackend`, `Analyze`, `ToggleStatus`, `HandleLogin`, …) answer the `End…` half from the mock back end. They prove what the screen then shows.
- **Randomness and the clock.** `Math.random()` draws and `Date.now()` are inputs. Draws are reals in `[0, 1)`; the clock is a natural number of milliseconds.
- **Prices.** Prices and percentages are mathematical reals.

## Model

| member | source | states |
|---|---|---|
| Strings.ToLower | components/Dashboard.tsx:131 | `toLowerCase` keeps the length and lowers each ASCII capital and nothing else |
| Strings.ToLowerIdempotent | components/Dashboard.tsx:131 | lowering twice is lowering once, so lowering a lowered symbol finds the same map entry |
| Strings.FirstIndex | components/Dashboard.tsx:300 | the first position of a character (what `replace` with a one-character pattern looks for); no earlier position holds it |
| Strings.NatToString | services/api.ts:49 | the decimal rendering of `Date.now()` in a new account id is non-empty and all digits |
| Strings.NatToStringInjective | services/api.ts:49 | different clock readings give different decimal texts |
| Strings.TaggedNatInjective | services/api.ts:49 | two `new_<time>` ids are equal only when their times are |
| Constants.PickIndex | constants.ts:33-46 | `Math.floor(Math.random() * n)` is a valid index below `n`, and the floor of the scaled draw |
| Constants.ScaledDrawBelow | constants.ts:33-46 | a scaled draw lies in `[0, n)` |
| Constants.MockSignalWellFormed | constants.ts:37-49 | every generated signal has id `sig<i+1>`, a seeded provider, one of the six pairs, one of the four timeframes, one of the seven justifications, and entry, target and stop in [0, 1000), [0, 1200) and [0, 900) |
| Constants.GenerateMockSignals | constants.ts:18-51 | the loop produces `count` signals, the i-th from the i-th draws; all are well formed and their ids are pairwise distinct |
| Constants.SeedIdsDistinct | constants.ts:4-61 | the seeded users, providers and administrator rows each have pairwise distinct ids |
| MarketService.GetMarketPrices | services/marketService.ts:9-29 | an ok response is returned as is; any failure yields the four-coin snapshot with its prices and 24h changes |
| MarketService.MapRows | services/marketService.ts:65-71 | each Binance row becomes one candle: time in seconds (ms / 1000) and open, high, low, close copied in order |
| MarketService.SymbolToId | services/marketService.ts:40-45 | each of the four known pairs (BTCUSDT to bitcoin, ETHUSDT to ethereum, SOLUSDT to solana, ADAUSDT to cardano) maps to its CoinGecko id; anything else falls back to bitcoin (also line 80) |
| MarketService.StaticBasePrice | services/marketService.ts:77 | 95000 if the symbol contains BTC, else 3500 if it contains ETH, else 150 |
| MarketService.BasePrice | services/marketService.ts:76-90 | a usable live quote wins; otherwise the static base price is used |
| MarketService.ChangeWithinHalf | services/marketService.ts:103-104 | one simulated step changes the price by at most 0.25% either way |
| MarketService.PadWithinCap | services/marketService.ts:113-114 | the wick padding above and below a candle is between 0 and 0.1% of the price |
| MarketService.StepBounds | services/marketService.ts:110-114 | a simulated candle has low ≤ min(open, close) ≤ max(open, close) ≤ high; it is positive for a positive price |
| MarketService.SimulatedCandleBounds | services/marketService.ts:100-116 | a candle closes at the walk's current price, at its own time, with ordered OHLC |
| MarketService.WalkBackwardShape | services/marketService.ts:93-125 | walking backward from now, one candle per hour: each candle's open is the next candle's close (`currentSimPrice = open`) and every candle is ordered |
| MarketService.WalkLoop | services/marketService.ts:93-125 | the `for` loop pushes, newest first, exactly the candles of the backward walk from the base price |
| MarketService.Reverse | services/marketService.ts:128 | `reverse()` keeps the length and mirrors the positions |
| MarketService.SynthesizedSeriesShape | services/marketService.ts:93-128 | the simulated series has 100 candles, hourly and ascending in time; it ends now at the base price, is continuous (close = next open) and every candle is ordered |
| MarketService.ReverseInPlace | services/marketService.ts:128 | the in-place `reverse()` on an array leaves the mirror image of its old contents |
| MarketService.SynthesizeKlines | services/marketService.ts:93-128 | the loop and the reverse build exactly the specified series, with its time grid, continuity and candle order |
| MarketService.GetBinanceKlines | services/marketService.ts:47-129 | an ok klines response is mapped row by row; on failure the 100-candle simulation from the base price, ending now, is returned |
| MarketService.OfflineBitcoinChart | services/marketService.ts:77-128 | with both APIs down, the BTC chart is 100 positive candles ending at 95000 |
| Api.FirstIndexBy | services/api.ts:33 | `find`/`findIndex` on one key: the first position whose key matches, with no match before it, or the length for -1; used for the email lookup here and the id lookups at lines 151, 184 and 196 |
| Api.FirstIndexByPrefix | services/api.ts:33-56 | appending elements keeps a lookup that already succeeds, and otherwise continues it into the appended part |
| Api.Login | services/api.ts:11-42 | the backdoor pair yields the master administrator; otherwise the first seeded user with that email; otherwise a free guest with that email |
| Api.UpgradePlan | services/api.ts:147-169 | a known id yields a premium copy of the first user with that id; an unlisted "guest" or "admin_master" id yields a fixed premium stand-in ("Usuário Convidado" or "Admin Krug", email test@test.com); otherwise "User not found", exactly when the id is unknown |
| Api.ToggleFollowProvider | services/api.ts:171-177 | the mock always reports success |
| Api.SliceIndex | services/api.ts:90 | a `slice` bound clamped into `[0, length]` |
| Api.GetSignals | services/api.ts:84-102 | page `p` of size `l` holds the signals from `(p-1)*l` on, at most `l` of them; `hasMore` holds iff `p*l` is below the total; the total, page and limit are echoed |
| Api.PageProduct | services/api.ts:88-89 | the end index of one page is the start index of the next |
| Api.LoadedPagesArePrefix | services/api.ts:84-102 | pages 1..n concatenated are the first `min(n*l, total)` signals; `hasMore` for page n holds iff signals remain |
| Api.PageExtendsPrefix | services/api.ts:88-91 | the loaded prefix followed by page n is the prefix one page longer |
| Api.FirstPageStartsFeed | services/api.ts:84-102 | the first page begins a consistent feed: the first `l` signals, with `hasMore` for page 1 |
| Api.NextPageExtendsFeed | services/api.ts:84-102 | appending the next page to a consistent feed gives the prefix one page longer, still consistent; the new `hasMore` holds iff signals remain |
| Api.RunBacktest | services/api.ts:115-145 | 50 ≤ trades < 200 and 50 ≤ win rate < 90; return in [50, 250) and drawdown in (-20, -5]; 15 trades, each +5% iff its draw was under the win rate, with dates strictly descending |
| Api.MockStore.constructor | constants.ts:4-61 | the store starts with the seeded users and administrator rows and 50 well-formed signals with distinct ids |
| Api.MockStore.Register | services/api.ts:44-70 | a free `new_<time>` user is appended to the users; an active "Gratuito" row is put at the front of the administrator rows |
| Api.MockStore.UpdateUserStatus | services/api.ts:181-191 | the first row with that id gets the new status; an unknown id changes nothing; the users are untouched |
| Api.MockStore.DeleteUser | services/api.ts:193-203 | the first row with that id is spliced out; an unknown id changes nothing |
| Api.RegisteredUserCanLogIn | services/api.ts:33-56 | after registration a login by that email finds the new user, unless an older account has the email |
| Api.IndexOfEmailPrefix | services/api.ts:33-56 | registering users does not change an email lookup that already succeeded, and otherwise the lookup continues into the new users |
| Community.Toggle | components/Community.tsx:209-217 | following flips exactly the clicked provider's membership in the followed set |
| Community.ToggleTwice | components/Community.tsx:209-217 | two successful clicks restore the followed set |
| Community.AdSlotsPerFour | components/Community.tsx:254 | a feed of n signals shows `n / 4` ads, one after every fourth signal |
| Community.InsertAt | components/Community.tsx:293 | one insertion pass of the in-place sort extends the descending prefix by one element, as a permutation |
| Community.SortByWinRate | components/Community.tsx:292-293 | the in-place sort leaves the providers in descending win rate and is a permutation of them |
| Community.CommunityState.constructor | components/Community.tsx:153-164 | the initial state: nothing loaded, both spinners on, page 1, `hasMore` |
| Community.CommunityState.EndFetchProviders | components/Community.tsx:167-176 | a response replaces the providers; a failure keeps them; the providers spinner stops; nothing else changes |
| Community.CommunityState.BeginLoadSignals | components/Community.tsx:182-184 | page 1 starts the main spinner and any other page starts the "load more" spinner |
| Community.CommunityState.EndLoadSignals | components/Community.tsx:186-196 | page 1 replaces the feed and later pages append to it; page and `hasMore` follow the response; a failure keeps them; both spinners stop |
| Community.CommunityState.HandleLoadMore | components/Community.tsx:182-203 | the next page is requested iff no further page is loading and more remain; it raises only the load-more spinner, and every other field is kept |
| Community.CommunityState.EndFirstLoadFromBackend | components/Community.tsx:179-196 | after the first load the feed is the first five signals and matches the back end, page is 1, both signal spinners are off, and providers, their spinner and the follow state are kept |
| Community.CommunityState.EndLoadMoreFromBackend | components/Community.tsx:187-190 | each "load more" keeps the feed equal to the first `page*5` signals; `hasMore` holds iff some are not shown; both signal spinners end off; providers, their spinner and the follow state are kept |
| Community.CommunityState.BeginToggleFollow | components/Community.tsx:206 | the clicked provider's button shows the spinner; the followed set is unchanged |
| Community.CommunityState.EndToggleFollow | components/Community.tsx:207-222 | success toggles that provider and failure keeps the set; the spinner clears either way |
| Community.VerifiedArePrefix | components/Community.tsx:292-304 | in the descending win-rate order the providers with the PRO badge (`winRate > 80`, `IsVerified`) take exactly the first places, as many as there are badges |
| Community.TopBadges | components/Community.tsx:292-304 | the first `n` places of the ranking show `min(n, number of badged providers)` badges |
| Community.CommunityState.TopTraders | components/Community.tsx:292-304 | the providers are sorted in place by descending win rate (a permutation); the top list is the first five, each of them wins at least as often as every provider left out, and it shows `min(5, badged providers)` PRO badges |
| Dashboard.GetBinanceSymbol | components/Dashboard.tsx:120-132 | the lowered symbol's entry in the eight-coin map, or BTCUSDT when it has none; always one of the map's pairs |
| Dashboard.GetBinanceSymbolIgnoresCase | components/Dashboard.tsx:131 | the lookup ignores ASCII case |
| Dashboard.FallbackCoinsMapToTheirPairs | components/Dashboard.tsx:120-131 | the four fallback coins, in either case, select their own USDT pairs |
| Dashboard.Classify | components/Dashboard.tsx:26-34 | the sentiment bands: below 25, [25, 45), [45, 55] (neutral), (55, 75), and 75 or more |
| Dashboard.ClassifyMonotone | components/Dashboard.tsx:31-34 | a higher index never reads as a more fearful sentiment |
| Dashboard.Rotation | components/Dashboard.tsx:27 | the needle angle for a value in [0, 100] lies in [-90, 90] degrees |
| Dashboard.RotationIsLinear | components/Dashboard.tsx:27 | the angle is linear, at 1.8 degrees per point: 0 → -90, 50 → 0, 100 → 90 |
| Dashboard.GaugeReadsGreed | components/Dashboard.tsx:26-34 | the fixed value 65 reads "Ganância" at 27 degrees |
| Dashboard.FavouriteDropsSlash | components/Dashboard.tsx:300 | `replace('/', '')` on `BASE/USDT` gives `BASEUSDT` |
| Dashboard.FavouriteMatchesCoin | components/Dashboard.tsx:120-131 | a favourite selects the same pair as a click on its coin (also line 300) |
| Dashboard.FavouritesMatchCoinMap | components/Dashboard.tsx:297-300 | all four favourites select the pairs their coins map to |
| Dashboard.SummaryCards | components/Dashboard.tsx:153 | the summary shows the first `min(4, n)` coins, in order |
| Dashboard.OfflineSummaryCards | components/Dashboard.tsx:153 | offline, the summary shows exactly the four-coin fallback snapshot |
| Dashboard.DashboardState.constructor | components/Dashboard.tsx:72-78 | the initial state: empty feed, loading, page 1, `hasMore`, BTCUSDT selected |
| Dashboard.DashboardState.EndInitialFetch | components/Dashboard.tsx:81-95 | both answers set the feed, `hasMore` and the prices; a rejection keeps them; loading ends |
| Dashboard.DashboardState.InitialFetchFromBackend | components/Dashboard.tsx:81-95 | the first load shows the first five signals, matches the back end and shows the prices `getMarketPrices` yields; loading ends, page stays 1, and the selected pair and the load-more spinner are kept |
| Dashboard.DashboardState.BeginLoadMore | components/Dashboard.tsx:105-109 | it requests page + 1 and starts the spinner |
| Dashboard.DashboardState.EndLoadMore | components/Dashboard.tsx:109-117 | a response appends its page and advances `page` and `hasMore`; a failure keeps them; the spinner stops |
| Dashboard.DashboardState.LoadMoreFromBackend | components/Dashboard.tsx:105-118 | each "load more" keeps the feed equal to the first `page*5` signals; `hasMore` holds iff some are not shown; the spinner ends off; prices, `loading` and the selected pair are kept |
| Dashboard.DashboardState.HandleCoinClick | components/Dashboard.tsx:134-137 | the clicked coin's pair is selected, and the highlighted cards are exactly the coins with that pair (also lines 204-205) |
| Dashboard.DashboardState.HandleFavouriteClick | components/Dashboard.tsx:300 | the favourite's pair without its slash is selected; nothing else changes |
| AdminPanel.Opposite | components/AdminPanel.tsx:153 | the toggle always changes the status |
| AdminPanel.OppositeInvolutive | components/AdminPanel.tsx:153 | toggling twice restores the status |
| AdminPanel.WithStatus | components/AdminPanel.tsx:158 | the `map` sets the status of the rows with that id and keeps every other row |
| AdminPanel.WithoutUser | components/AdminPanel.tsx:172 | the `filter` keeps exactly the rows with another id |
| AdminPanel.WithoutUserSplits | components/AdminPanel.tsx:172 | filtering distributes over concatenation |
| AdminPanel.WithStatusSplits | components/AdminPanel.tsx:158 | the status map distributes over concatenation |
| AdminPanel.UnknownIdIsNoOp | components/AdminPanel.tsx:158-172 | an id on no row leaves the table unchanged under both actions |
| AdminPanel.StatusThenRemove | components/AdminPanel.tsx:158-172 | a status change and a removal commute |
| AdminPanel.RemoveThenRemove | components/AdminPanel.tsx:172 | two removals commute |
| AdminPanel.ActionsCommute | components/AdminPanel.tsx:152-178 | applied to the current rows, actions on two different users give the same table in either order |
| AdminPanel.StaleSnapshotLosesUpdate | components/AdminPanel.tsx:158-172 | as written: a suspension settled from a snapshot taken before a pending deletion brings the deleted user back into the table; settling against the current table leaves them out |
| AdminPanel.MaxValue | components/AdminPanel.tsx:20 | the chart's maximum bounds every bar and is reached by one; an empty series has none |
| AdminPanel.HeightFits | components/AdminPanel.tsx:27-28 | a bar's percentage height lies in [0, 100]; the maximum reaches 100 |
| AdminPanel.BarsFit | components/AdminPanel.tsx:20-28 | every bar of a non-negative series fits the chart |
| AdminPanel.ChartDataScale | components/AdminPanel.tsx:8-20 | the fixed series scales to 480 |
| AdminPanel.RenderContent | components/AdminPanel.tsx:68-76 | each of the four keys renders its own tab; any other key renders the dashboard tab |
| AdminPanel.TabButtonsRenderTheirTab | components/AdminPanel.tsx:61-85 | each tab button's key renders that tab |
| AdminPanel.OnlyThirdCardNegative | components/AdminPanel.tsx:99-102 | only the third stat card's change is shown in the negative colour (also line 319) |
| AdminPanel.UserManagement.constructor | components/AdminPanel.tsx:133-135 | the initial state: no rows, loading, no row busy |
| AdminPanel.UserManagement.EndFetchUsers | components/AdminPanel.tsx:137-146 | the fetched rows replace the table; a failure keeps it; loading ends |
| AdminPanel.UserManagement.BeginToggleStatus | components/AdminPanel.tsx:152-156 | the action is the opposite status for that id; the row is marked busy; the closure's snapshot is the current table |
| AdminPanel.UserManagement.BeginDelete | components/AdminPanel.tsx:166-170 | a cancelled confirmation changes nothing; otherwise the row is marked busy with a removal pending |
| AdminPanel.UserManagement.EndAction | components/AdminPanel.tsx:157-177 | as written: success replaces the table by the action applied to the click-time snapshot; failure keeps it; the busy mark clears |
| AdminPanel.UserManagement.EndActionOnCurrent | components/AdminPanel.tsx:157-177 | corrected: success applies the action to the table as it is now |
| AdminPanel.UserManagement.ToggleStatus | components/AdminPanel.tsx:152-164 | one uninterrupted toggle changes just that user's status, and only on success; the spinner clears and `loading` is kept |
| AdminPanel.UserManagement.Delete | components/AdminPanel.tsx:166-178 | one uninterrupted deletion removes just that user's rows, only when confirmed and successful; a confirmed deletion clears the spinner, a declined one leaves it; `loading` is kept |
| ImageAnalysis.AnalysesRemaining | components/ImageAnalysis.tsx:20-21 | a free user has `2 - count` credits left; anyone else (or no user) is unlimited |
| ImageAnalysis.FailureMessage | components/ImageAnalysis.tsx:81 | the error's message, or the generic text when it is empty; never empty |
| ImageAnalysis.ImageAnalysisState.constructor | components/ImageAnalysis.tsx:13-18 | the initial state: no file, preview, result or error; not loading; count 0 |
| ImageAnalysis.ImageAnalysisState.ButtonMatchesGuards | components/ImageAnalysis.tsx:60-68 | when not loading, the button is disabled exactly when the handler would refuse (also line 153) |
| ImageAnalysis.ImageAnalysisState.ChooseFile | components/ImageAnalysis.tsx:23-43 | a chosen or dropped file replaces the image and preview and clears the result and error; no file changes nothing |
| ImageAnalysis.ImageAnalysisState.RemoveImage | components/ImageAnalysis.tsx:50-57 | file, preview and result are cleared, the error is kept, and the old preview URL is the one revoked |
| ImageAnalysis.ImageAnalysisState.BeginAnalyze | components/ImageAnalysis.tsx:59-72 | without a file, the select-image error; a free user at the quota gets the limit error; otherwise loading starts with result and error cleared; the call is made iff neither guard fires |
| ImageAnalysis.ImageAnalysisState.EndAnalyze | components/ImageAnalysis.tsx:74-84 | a result is stored, and counted only for a free user; a failure shows its message; loading ends |
| ImageAnalysis.ImageAnalysisState.Analyze | components/ImageAnalysis.tsx:59-85 | a click never takes the count past the quota of 2 or a free user's credits below 0; the count rises by one exactly for a successful free analysis; a started analysis shows its result with no error, or its failure message with no result; a refused click keeps the result and shows the no-image or limit error; image and preview are kept |
| Login.SubmitCall | components/Login.tsx:59-69 | nothing while signing in; the register form calls `onRegister(name, email, password)`, the login form `onLogin(email, password)`, the recovery form nothing |
| Login.SwitchedMode | components/Login.tsx:281-284 | the switch link goes from login to register and from anything else to login |
| Login.SwitchTwice | components/Login.tsx:281-284 | between the login and register forms the link toggles, and twice comes back |
| Login.LoginForm.constructor | components/Login.tsx:50-57 | the initial state: login mode, empty fields, hidden password, idle recovery |
| Login.LoginForm.SetAuthMode | components/Login.tsx:91-93 | a change of mode resets the recovery status through the effect; setting the same mode keeps it |
| Login.LoginForm.SwitchMode | components/Login.tsx:281-284 | swaps login and register and clears the name |
| Login.LoginForm.ForgotPassword | components/Login.tsx:256 | opens the recovery form; the status resets to idle when the mode changes and is kept otherwise; the other fields are kept |
| Login.LoginForm.BackToLogin | components/Login.tsx:145 | returns from recovery to the login form with the status reset; the other fields are kept (also line 182) |
| Login.LoginForm.HandleSubmit | components/Login.tsx:59-69 | the handler's callback is exactly `SubmitCall` of the form's state |
| Login.LoginForm.BeginRecover | components/Login.tsx:71-73 | the status becomes sending; nothing else changes |
| Login.LoginForm.EndRecover | components/Login.tsx:74-80 | sent on success, back to idle on failure; nothing else changes |
| Login.LoginForm.RecoverPassword | components/Login.tsx:71-81 | a request shows sending and then sent (or idle on failure); nothing else changes |
| Login.LoginForm.HandleDemoLogin | components/Login.tsx:83-88 | ignored while signing in; otherwise it fills the demo email and password and logs in with exactly those; mode, name, status and visibility are kept |
| Login.LoginForm.ToggleShowPassword | components/Login.tsx:246 | the eye button flips the password's visibility; nothing else changes |
| Pricing.AllIncluded | components/Pricing.tsx:44 | the premium list has the free list's texts, in order, all included |
| Pricing.FeatureLists | components/Pricing.tsx:32-44 | nine features; the free plan includes exactly the first four; the premium plan includes all nine |
| Pricing.FreeButton | components/Pricing.tsx:46 | the free plan's button is disabled, and says "current plan", exactly for a free user (also lines 105-110) |
| Pricing.LabelsTellTheStep | components/Pricing.tsx:49-75 | each payment step shows a different label from the others and from the idle one, and the button is disabled during every step (also line 136) |
| Pricing.PricingState.constructor | components/Pricing.tsx:12 | the status starts idle |
| Pricing.PricingState.HandleUpgradeClick | components/Pricing.tsx:14-30 | redirecting, processing and success are shown in turn before `onUpgrade` is called; the status returns to idle once it resolves |
| Pricing.AnyListedAdminLosesAdminPage | components/Pricing.tsx:136 | for an administrator listed first among the users, the premium button is enabled, the upgrade returns a premium copy of the account, and that copy is refused the admin page that the original could open |
| Pricing.AdminUpgradeLosesAdminPage | components/Pricing.tsx:136 | as written: the button is enabled for the seeded administrator, and the upgrade turns that account into a premium one that is refused the admin page |
| Pricing.EnabledUpgradeNeverLowersRole | components/Pricing.tsx:136 | corrected: with the button offered to free accounts only, an upgrade always raises the role |
| App.Render | App.tsx:65-86 | signed out always shows the login screen; the admin page is the panel for administrators and "access denied" for everyone else; unknown pages fall back to the dashboard |
| App.BuildNavItems | App.tsx:88-98 | five entries for everyone, plus the admin entry exactly for administrators |
| App.NavItemsOpenTheirPages | App.tsx:65-98 | no navigation entry leads to "access denied", and only the dashboard entry shows the dashboard |
| App.BackdoorReachesAdminPanel | App.tsx:20-25 | the hard-coded administrator login sees the admin entry and the panel (also lines 76, 96-98) |
| App.SeededNonAdminsAreDenied | App.tsx:76-98 | the seeded premium and free accounts get no admin entry and are refused the page |
| App.AppState.constructor | App.tsx:16-18 | the initial state: nobody signed in, the dashboard page, not signing in |
| App.AppState.BeginSignIn | App.tsx:21-35 | the sign-in flag goes up |
| App.AppState.EndSignIn | App.tsx:22-45 | a user signs in on the dashboard; a failure keeps user and page; the flag drops either way |
| App.AppState.HandleLogin | App.tsx:20-32 | with the mock service, the signed-in user is `login`'s answer and the dashboard shows |
| App.AppState.HandleRegister | App.tsx:34-46 | the new free account is registered with the fixed password "password" and signed in; the store gains that user at the end and its "Gratuito" row at the front of the administrator table; it never sees the admin entry |
| App.AppState.HandleLogout | App.tsx:48-51 | nobody is signed in, the page resets to the dashboard, and the login screen shows |
| App.AppState.BeginUpgradePlan | App.tsx:53-55 | the closure's user id, or no call when nobody is signed in |
| App.AppState.EndUpgradePlan | App.tsx:56-61 | as written: an upgraded copy is installed whoever is signed in by then; a rejection keeps the user; page and sign-in flag kept |
| App.AppState.EndUpgradePlanIfStillSignedIn | App.tsx:56-61 | corrected: the copy is installed only while the clicking account is still signed in; otherwise nothing changes |
| App.AppState.HandleUpgradePlan | App.tsx:53-63 | with nothing happening during the call: nothing without a user; otherwise `upgradePlan`'s copy replaces the user; a rejection keeps it |
| App.LogoutDuringUpgrade | App.tsx:53-57 | as written: logging out while the payment sequence runs ends with the upgraded copy signed in again |
| App.LogoutDuringGuardedUpgrade | App.tsx:53-57 | corrected: a logout during the sequence stays in effect, and without one the upgrade still lands |
| App.AppState.Navigate | App.tsx:17 | the header's page change sets only the page |

## Left out

- I/O and timing: `fetch`, the fake delays, `setTimeout` and `Promise.all` are not modelled. The outcome of each awaited call is an input.
- Refresh: the 60-second refresh of the dashboard's prices is not modelled. It re-applies `getMarketPrices`, which is modelled.
- Events during an `await`: these are captured only through the split into `Begin…` and `End…` methods. The interleaving itself is not modelled.
- Arithmetic: IEEE floating point, `toFixed` and `parseFloat` are not modelled. Prices, percentages and draws are exact reals, and generated signals keep their draws as reals rather than two-decimal strings.
- Case folding: `toLowerCase` is modelled for ASCII letters only.
- Map lookup: `map[key]` in `getBinanceSymbol` and `symbolToId` could also hit inherited `Object.prototype` keys. The model looks up only the listed keys.
- `getBinanceKlines`' `interval` parameter only reaches the request URL, so it is left out.
- `getSignalProviders`, `getAdminUsers` and `recoverPassword` return fixed mock answers. They are an input to the components' `End…` methods and have no members of their own.
- `analyzeChartImage` (a generative-AI request) is not part of this model. Its outcome is an input.
- `URL.createObjectURL` and `URL.revokeObjectURL` are not modelled. The new URL is a parameter, and the revoked one is returned.
- `window.confirm` is a boolean parameter.
- Not part of this model: ChartBackground, RealTimeChart, Header, AdPlaceholder, Backtesting, the geminiService module, the server, and the Firebase and Supabase clients. JSX markup and CSS are left out.
- Api.RunBacktest: the final sort by date is modelled as the identity. The dates it produces (`2024-05-25` down to `2024-05-11`) are already strictly descending, as the contract states. The time-of-day behaviour of `new Date` is not modelled.
- Community.SortByWinRate: the contract does not state stability, which `Array.prototype.sort` guarantees.
- Community.CommunityState.TopTraders: `getSignalProviders` hands the screen the shared seed array, and the screen's `sort` reorders it in place. That aliasing between the screen and the service is not modelled.
- AdminPanel.UserManagement.EndAction: the table's rows are the service's own row objects (`getAdminUsers` copies the array, not the rows), so a status change in the service also shows in every earlier snapshot. The model's rows are values, so an older snapshot keeps the old status. For that reason the stale-snapshot finding uses a deletion followed by a suspension, whose outcome does not depend on this aliasing.
- Api.MockStore.UpdateUserStatus: the service changes row objects that the admin screen's table also holds. The model keeps separate values, so this aliasing is not captured.
- Community.CommunityState.HandleLoadMore requires `page >= 1`. The page starts at 1 and only increases, so this holds in every reachable state.
- ImageAnalysis.ImageAnalysisState.Analyze requires that nothing is loading. The button is disabled while an analysis runs, so a second click cannot start one.
- AdminPanel.BarHeight: the cases where the maximum is 0 (a NaN height) and where the series is empty (`-Infinity`) are not modelled. The fixed series has a maximum of 480.
- Pricing.PricingState.HandleUpgradeClick: when `onUpgrade` rejects, the status stays at success. The model returns that state; the uncaught rejection itself is not modelled.

## Findings

| source | as written | input that shows it | evidently intended | confidence | as-written member | corrected member |
|---|---|---|---|---|---|---|
| components/AdminPanel.tsx:158,172 | after the await, `setUsers(users.map(…))` and `setUsers(users.filter(…))` rebuild the table from the `users` captured when the button was clicked | delete u2; while that call is pending (`FAKE_DELAY / 2`), suspend u1; the delete settles first and shows only u1, then the suspension's `users.map(…)` over the pre-delete snapshot shows u2 again although the service spliced it out | apply each change to the current table (a functional `setUsers(prev => …)`), so two actions on different users commute | high, not executed | AdminPanel.StaleSnapshotLosesUpdate | AdminPanel.ActionsCommute |
| App.tsx:56-57 | `handleUpgradePlan` calls `setCurrentUser(updatedUser)` after the await without checking who is signed in by then; Pricing's `onUpgrade` runs about 4.5 s after the click (components/Pricing.tsx:14-28) | sign in, click the premium upgrade, then log out through the header before the success step ends | install the copy only while the same account is signed in, so a logout stays in effect | medium, not executed | App.LogoutDuringUpgrade | App.LogoutDuringGuardedUpgrade |
| components/Pricing.tsx:136 | the premium button is disabled only for premium users, so an administrator can buy the upgrade; `upgradePlan` (services/api.ts:151-158) then returns the account with role PREMIUM, and `renderPage` (App.tsx:76) refuses the admin page | sign in as admin@cryptocandles.ai, open Planos and click the upgrade button | offer the upgrade to free accounts only, so an upgrade never lowers a role | medium, not executed | Pricing.AdminUpgradeLosesAdminPage | Pricing.EnabledUpgradeNeverLowersRole |
