# spot-stats-client: session, tabs, routing and the authorization URL in Dafny

spot-stats-client is a single-page web client. It shows a listener's music
statistics and signs the listener in through Spotify's OAuth 2.0 login. Almost all of it is
presentation code. This project models the decision logic inside it:

- **Session provider** (`Auth`, class `AuthProvider`). It holds the signed-in
  user and resolves it from the identity request. Once that request has loaded,
  an anonymous visitor under `/stats` is sent to `/login`. Logout posts to
  `/auth/spotify/logout`, then clears the session and goes to `/login`. Login
  sends the browser to the authorization URL.
- **Authorization URL** (`AuthUrl`). This is an authorization-code request as
  in section 4.1.1 of RFC 6749. Its `scope` is space-delimited as in section 3.3
  of RFC 6749. The four scopes, the client id and the redirect URI are fixed
  constants. The query-string encoder is a parameter. Proved: the query splits
  back into exactly four `key=value` fields in the source's order, and the
  scope string splits back into the four scopes.
- **Statistics pages** (`Stats` with class `StatsPage`, `CreatorStats` with
  class `CreatorStatsPage`). Each page holds the selected time-range tab and a
  loading flag. Fetched songs are shaped into display records. Six tab entries
  are built, and only the selected one carries songs. Filtering by the selected
  tab yields exactly that entry. The personal page's request path comes from
  the user's `sub` and is skipped when there is no `sub`. The creator page's
  path needs no user and is never skipped. The two pages shape data
  identically.
- **Route table and guard** (`Routes`). `/stats` is guarded by the presence of
  the `spotify_access_token` key in local storage. `/` redirects to `/login`.
  Every other route renders whatever the storage holds.
- **OAuth callback** (`Callback`, class `CallbackPage`). A truthy `code`
  schedules a navigation to `/stats` after 2000 ms and shows the progress
  view. Otherwise the page navigates to `/login` at once and shows the failure
  caption.
- **Shared vocabulary** (`Types`). The six-member `ClientTimeRange` with its
  wire values, and the `Song` record.

External inputs are parameters of the model:

- the API client's `data` and `loading` results;
- the query-string encoder;
- local storage, as a map;
- the `code` query parameter.

The router location and `window.location.href` are class fields. Outbound
actions (the logout POST, route changes and the full-page redirect) are
recorded in order in `AuthProvider.effects`.

Notes on the code:

- The `/stats` guard reads local storage, not the provider's session. None of
  the modelled components writes that storage key, so a resolved session alone
  does not open `/stats`.
- The session record has the fields the code declares: `sub`, `email`,
  `spotifyId`, `expiresIn` and `iat`.
- Logout awaits the POST before it clears the session. If `trigger` rejects,
  src/providers/auth-provider.tsx:44-45 do not run: the session is kept and
  there is no navigation to /login. Whether a failed POST makes `trigger`
  reject depends on the API client, which is not modelled.

One more observation: a personal request path equals the creator request path
exactly when the user's `sub` is the text `creator`
(`CreatorStats.PersonalMeetsCreator`).

## Model

| member | source | states |
|---|---|---|
| Types.FromWire | src/types/common.ts:7-14 | reading a string back gives a member only if that member's wire value is the string, and nothing when no member has it |
| Types.WireRoundTrip | src/types/common.ts:8-13 | every member's wire value reads back as that member |
| Types.WireInjective | src/types/common.ts:8-13 | two members with the same wire value are the same member (the values are pairwise distinct) |
| Types.Wire | src/types/common.ts:8-13 | the wire value of each member: 1hr, 24hr, 7day, 1month, 6month, 12month; WireRoundTrip and WireInjective state that it is invertible and injective |
| Types.IndexOf | src/types/common.ts:7-14 | each member sits at exactly one position of the declaration order |
| Types.AllRangesComplete | src/types/common.ts:7-14 | the enumeration has exactly six members, each listed once in order |
| AuthUrl.Join | src/utils/common.ts:7-12 | `Array.prototype.join` with one separator character; SplitJoin states that Split reverses it when no part holds the separator |
| AuthUrl.Params | src/utils/common.ts:14-19 | the four request parameters in stringify order; AuthorizeQuery states their keys, values and order |
| AuthUrl.Stringify | src/utils/common.ts:14-19 | `qs.stringify`: each pair as encoded key=value, joined by &; AuthorizeQuery states that it splits back into the encoded pairs |
| AuthUrl.SplitJoin | src/utils/common.ts:7-12 | splitting a joined list at the separator gives the list back when no part holds the separator |
| AuthUrl.ScopeValue | src/utils/common.ts:7-12 | the scope value splits at spaces into exactly the four requested scopes, in order |
| AuthUrl.ScopeValueLiteral | src/utils/common.ts:7-12 | the scope value is the four scopes joined by single spaces |
| AuthUrl.AuthorizeUrl | src/utils/common.ts:23 | the URL is the authorize endpoint followed by the stringified parameters |
| AuthUrl.AuthorizeQuery | src/utils/common.ts:14-23 | the query has exactly four fields, in the order response_type=code, client_id, scope, redirect_uri, with the fixed client id and redirect URI |
| Auth.Resolve | src/providers/auth-provider.tsx:48-60 | while loading nothing changes; once loaded the session is the reported user; the location becomes /login exactly when nobody is reported and the path starts with /stats |
| Auth.ResolvedAnonymousLeavesStats | src/providers/auth-provider.tsx:54-58 | after a loaded anonymous resolution the session is empty and the location is not under /stats |
| Auth.ResolveIdempotent | src/providers/auth-provider.tsx:48-60 | running the resolution twice on the same inputs gives the state of running it once |
| Auth.AuthProvider.constructor | src/providers/auth-provider.tsx:29 | the session starts empty with no effects issued |
| Auth.AuthProvider.ResolveEffect | src/providers/auth-provider.tsx:48-60 | the new session is Resolve of the old one; a navigation to /login is issued exactly when Resolve bounces; href is unchanged |
| Auth.AuthProvider.HandleLogout | src/providers/auth-provider.tsx:42-46 | the logout POST is issued before the navigation to /login; afterwards the session is empty and the location is /login |
| Auth.AuthProvider.HandleLogin | src/providers/auth-provider.tsx:36-40 | href becomes exactly the authorization URL; the session and the router location are unchanged |
| Stats.GenerateSongs | src/components/StatsPage.tsx:30-38 | length and order kept; each record copies name, artist and genre, has id = name, zero plays and duration, and an empty image URL |
| Stats.GenerateSongsRoundTrip | src/components/StatsPage.tsx:30-38 | the fetched songs can be read back from the display records |
| Stats.TimeRanges | src/components/StatsPage.tsx:88-132 | six entries in enumeration order; the selected one carries the shaped data (or none for missing data) and every other one is empty |
| Stats.FilterByValue | src/components/StatsPage.tsx:271 | the filter keeps each entry with the selected value as often as it occurs and drops every other entry |
| Stats.FilterAppend | src/components/StatsPage.tsx:271 | filtering a concatenation is the concatenation of the filtered parts, so the kept entries stay in their original order |
| Stats.SelectedTab | src/components/StatsPage.tsx:271 | filtering the six entries by the selected tab yields exactly one entry, the selected one with its data |
| Stats.FetchFor | src/components/StatsPage.tsx:79-82 | the request is skipped exactly when there is no user or an empty sub; otherwise its path is /stats/track-stats/ + sub + ?timeRange= + the wire value |
| Stats.SubText | src/components/StatsPage.tsx:80 | `${user?.sub}`: the user's sub, or the text undefined when there is no user; FetchFor states when that path is used |
| Stats.FetchNamesRange | src/components/StatsPage.tsx:80 | the selected range reads back from the end of the request path |
| Stats.FetchPathInjective | src/components/StatsPage.tsx:80 | for one user, different tabs give different request paths |
| Stats.StatsPage.constructor | src/components/StatsPage.tsx:64-65 | the page starts on the hourly tab, loading |
| Stats.StatsPage.HandleTabChange | src/components/StatsPage.tsx:67-75 | re-selecting the current tab changes nothing; another tab is selected and loading is set |
| Stats.StatsPage.LoadingEffect | src/components/StatsPage.tsx:134-139 | a settled request clears loading; a loading one changes nothing; the tab is unchanged |
| Stats.StatsPage.Shown | src/components/StatsPage.tsx:260-271 | nothing is shown while loading, otherwise exactly one panel: the selected tab with its shaped data |
| CreatorStats.GenerateCreatorSongs | src/components/CreatorStatsPage.tsx:40-48 | length and order kept; each record copies name, artist and genre, has id = name, zero plays and duration, and an empty image URL |
| CreatorStats.SameShapingAsStats | src/components/CreatorStatsPage.tsx:40-48 | the creator generator gives the same records as the personal one |
| CreatorStats.CreatorTimeRanges | src/components/CreatorStatsPage.tsx:95-132 | six entries in enumeration order; only the selected one carries data |
| CreatorStats.SameTabsAsStats | src/components/CreatorStatsPage.tsx:95-132 | the creator tabs equal the personal tabs built from the same data |
| CreatorStats.CreatorSelectedTab | src/components/CreatorStatsPage.tsx:368 | filtering the six entries by the selected tab yields exactly the selected one |
| CreatorStats.CreatorFetch | src/components/CreatorStatsPage.tsx:90-93 | never skipped; the path is /stats/track-stats/creator?timeRange= followed by the wire value of the tab |
| CreatorStats.PersonalMeetsCreator | src/components/CreatorStatsPage.tsx:90-93 | a personal request path equals the creator path for the same tab if and only if the user's sub is "creator" |
| CreatorStats.CreatorStatsPage.constructor | src/components/CreatorStatsPage.tsx:74-75 | the page starts on the hourly tab, loading |
| CreatorStats.CreatorStatsPage.HandleTabChange | src/components/CreatorStatsPage.tsx:77-84 | re-selecting the current tab changes nothing; another tab is selected and loading is set |
| CreatorStats.CreatorStatsPage.LoadingEffect | src/components/CreatorStatsPage.tsx:134-139 | a settled request clears loading; a loading one changes nothing |
| CreatorStats.CreatorStatsPage.Shown | src/components/CreatorStatsPage.tsx:357-368 | nothing is shown while loading, otherwise exactly the selected tab's panel |
| Routes.IsAuthenticated | src/App.tsx:119-121 | `isAuthenticated`: the token key is present in storage; EmptyTokenCounts states that an empty value counts and a missing key does not |
| Routes.EmptyTokenCounts | src/App.tsx:119-121 | a stored token counts as authenticated even when empty; without the key there is no authentication |
| Routes.ProtectedRoute | src/App.tsx:124-129 | the children when authenticated, otherwise a replacing redirect to /login |
| Routes.Element | src/App.tsx:137-148 | the stats page renders if and only if the path is /stats and the storage holds the token; the only redirects go to /login, for / and for an unauthenticated /stats |
| Routes.OnlyStatsGuarded | src/App.tsx:137-147 | every path other than /stats renders the same whatever the storage holds |
| Routes.RootRedirects | src/App.tsx:148 | / always redirects to /login, replacing the history entry |
| Routes.PublicViews | src/App.tsx:137-147 | /login, /callback and /creator render their pages regardless of authentication |
| Callback.IsTruthy | src/components/CallbackPage.tsx:13 | JavaScript truthiness of `code`: present and non-empty; Decide and Shown state that both branches turn on it |
| Callback.Decide | src/components/CallbackPage.tsx:11-23 | a truthy code gives a 2000 ms delayed navigation to /stats, anything else an immediate navigation to /login |
| Callback.Shown | src/components/CallbackPage.tsx:47-169 | the progress view is shown if and only if the code is truthy |
| Callback.ShownMatchesDecision | src/components/CallbackPage.tsx:13-22 | the progress view goes with the delayed navigation and the failure caption with the immediate one |
| Callback.CodeValueIrrelevant | src/components/CallbackPage.tsx:13-18 | any two non-empty codes lead to the same decision and the same view |
| Callback.CallbackPage.constructor | src/components/CallbackPage.tsx:6-9 | the page starts with no pending timer at its location |
| Callback.CallbackPage.Effect | src/components/CallbackPage.tsx:11-23 | one run performs exactly one navigation: it schedules one timer or moves to /login, never both |
| Callback.CallbackPage.FireTimer | src/components/CallbackPage.tsx:16-18 | the oldest pending timer navigates to its target and is removed |

## Left out

- Rendering: JSX, MUI components, styling, animations, `TabPanel`, icons and the theme object (src/App.tsx:8-117). The mock `creatorInfo` constants. These are presentation only.
- src/components/LoginPage.tsx is not part of this model. It only wires buttons to `handleLogin` and to a fixed navigation.
- The internals of `useGet` and `useMutation` from `@nnaumovski/react-api-client`, including `urlRefetch` and how `skip` is honoured. Their results are inputs of the model.
- Auth.AuthProvider.HandleLogout: only a POST whose `trigger` completes is modelled; the path where `trigger` rejects (session kept, no navigation) is not.
- AuthUrl.AuthorizeUrl: the character escaping of `qs.stringify` is a parameter. The only property the query lemma assumes of it is that `&` and `=` never appear in its output.
- Callback.CallbackPage.Effect: the 2000 ms of `setTimeout` is recorded as a pending timer, not as elapsed time. Timers are never cancelled, as in the code.
- Routes.Element: paths match exactly. React Router's case-insensitive matching and trailing-slash tolerance are not modelled.
- React scheduling: when effects run, render batching and async interleaving. Each effect is a method that the caller invokes.
- The context plumbing of `useAuth`. Its error for a missing provider cannot happen, because the context has a default value.
- The "view creator stats" and "back" buttons (src/components/StatsPage.tsx:84-86, src/components/CreatorStatsPage.tsx:86-88). Each is a single fixed `navigate` call.
- `console.log` calls.
