# League of Legends tracker backend: the stats endpoint in Dafny

This project models the Express backend of a League of Legends statistics
tracker, `backend/server.js`. Given a Riot ID (name and tagline) and a region
token, `GET /api/stats` gathers a player's profile from the Riot API in six
awaited stages:

1. the account (the Riot ID lookup);
2. the summoner profile;
3. the league entries;
4. the champion masteries;
5. the list of recent match ids;
6. one detail fetch per match id.

It answers with a snapshot: name, tag, icon, level, solo-queue rank, top
champion and recent matches. If a stage fails, it answers with an error
status and body.

The model has these parts:

- **Region table** (`Regions`): `regionMap` and how a region token resolves to a platform cluster and a routing cluster.
- **Display labels** (`Labels`): the game-mode and queue tables, with their fallbacks.
- **Champion catalog** (`Catalog`): the module-level `championData` as a class `ChampionCatalog`. `Load` replaces its table from the Data Dragon feeds or leaves it as it was. `GetChampionInfo` is the search loop, which compares keys with `parseInt`.
- **`parseInt` and `String(n)`** (`JsNumbers`): how the endpoint uses them on integers.
- **The handler** (`StatsEndpoint`):
  - `HandleStats` is the handler itself. It is an imperative method: the mastery stage threads `topChampion` through an inner try/catch, and a `while` loop builds the match summaries by appending.
  - `Stats` is the handler's specification. It is a function of the query, a `World` of canned upstream responses and the catalog state. It returns the reply and the ordered list of calls issued.
  - `HandleStats` is proved to compute exactly `Stats`. Its list of calls is ghost.
- **Properties of `Stats`** (`StatsProperties`): lemmas about what the handler guarantees.

The stages are modelled as the code runs them:

- The Riot ID lookup always goes to the `europe` host, whatever the region.
- A mastery 403 is absorbed, and any other mastery error fails the request.
- A match whose participants do not include the player raises a TypeError, which ends in a 500.
- The catch block answers with the upstream status, or 500. Its body is the upstream body, or "Błąd backendu".

Two more behaviours of the code as written:

- The search form offers `euw1` and `na1`. These are not keys of `regionMap`, so the backend rejects them with 400 ("Nieznany region").
- The `!region` test after the region check can never decide. A region that passes the check is a non-empty token.

## Model

| member | source | states |
|---|---|---|
| Regions.ResolveRegion | backend/server.js:11-17 | a token resolves exactly when it is one of eune, eun1, euw, na, kr; the platform is one of eun1/euw1/na1/kr and the routing one of europe/americas/asia |
| Regions.RegionClustersAgree | backend/server.js:11-17 | every resolved token pairs a platform with the routing cluster that serves it (eun1/euw1 → europe, na1 → americas, kr → asia) |
| Regions.SearchFormTokens | frontend/src/pages/SearchPage.jsx:36-41 | of the tokens the search form sends, euw1 and na1 are rejected and eun1 and kr resolve; an absent region is rejected |
| Regions.InheritedNamePassesGuard | backend/server.js:86-98 | as written, the token "constructor" passes the `!regionInfo` guard and becomes the platform host itself, while the corrected resolution rejects it and every other inherited Object.prototype name |
| Labels.GameModeFallBack | backend/server.js:19-30 | a known game mode gets its non-empty table label; an unknown one is shown as the raw mode string |
| Labels.QueueFallBack | backend/server.js:32-46 | a known queue id gets its table label (never starting like the fallback); an unknown id is shown as "Queue ID " followed by text that `parseInt` reads back as that id |
| Labels.QueueLabelsDistinct | backend/server.js:190 | two queue ids with the same label are the same id, whether the labels come from the table or from the fallback |
| Labels.GameModeLabel | backend/server.js:189 | the game-mode label never fails: it is one of the table's labels or the raw mode string, and it is non-empty for a non-empty mode |
| Labels.QueueTypeLabel | backend/server.js:190 | the queue label never fails and is never empty: it is one of the table's labels or starts with "Queue ID " |
| JsNumbers.ParseIntOfDecimal | backend/server.js:73 | `parseInt` of the decimal rendering of any integer, possibly followed by text that cannot continue the number, is that integer |
| JsNumbers.ParseInt | backend/server.js:73 | `parseInt` skips leading white space; blank text, or text whose first other character is neither a sign nor a decimal digit, gives NaN; text starting with a decimal digit (and not "0x") gives a non-negative number |
| Catalog.ChampionInfoOf | backend/server.js:70-71 | before the catalog is loaded every lookup yields nothing |
| Catalog.FirstWithKeyFindsFirst | backend/server.js:72-78 | when the record at index i is the first whose key parses to the id, the lookup returns that record's name and icon |
| Catalog.FirstWithKeyNone | backend/server.js:72-80 | the lookup yields nothing exactly when no record's key parses to the id |
| Catalog.LookupByDecimalKey | backend/server.js:70-81 | over a table keyed by the decimal renderings of distinct ids, a listed id finds its own record and any other id finds nothing |
| Catalog.ChampionCatalog.constructor | backend/server.js:49 | the catalog starts unloaded |
| Catalog.ChampionCatalog.Load | backend/server.js:51-66 | a failed version fetch or champion-file fetch leaves the catalog as it was; otherwise the catalog becomes the `data` of the file for the first listed version (missing if the file has none) |
| Catalog.ChampionCatalog.GetChampionInfo | backend/server.js:70-81 | the search loop returns the first record in enumeration order whose key parses to the id, and nothing when the catalog is unloaded or no key matches |
| Catalog.CatalogLifecycle | backend/server.js:49-81 | a fresh catalog answers nothing, still answers nothing after a failed load, and after a successful load finds a record by its decimal key |
| StatsEndpoint.Caught | backend/server.js:203-212 | the catch block always answers an error: with the upstream status when there is a non-zero one and 500 otherwise (a zero status, or no response at all); with the upstream body when it is truthy and "Błąd backendu" otherwise |
| StatsEndpoint.RankedSolo | backend/server.js:123-125 | the rank is the first RANKED_SOLO_5x5 entry of the league list and is null exactly when the list has none |
| StatsEndpoint.MasteryStage | backend/server.js:128-152 | an empty list gives no top champion; a non-empty one keeps element 0's id and points, named from the catalog or "Unknown" with no image; a 403 gives no top champion; any other failure is rethrown |
| StatsEndpoint.TopChampionOf | backend/server.js:128-152 | the inner try/catch on a mutable `topChampion` computes exactly the mastery stage |
| StatsEndpoint.FetchMatchDetails | backend/server.js:161-192 | the match loop issues and summarises the detail fetches exactly as the loop specification does, stopping at the first failure |
| StatsEndpoint.FetchStats | backend/server.js:96-213 | the try block issues the awaited calls and answers exactly as the stage specification does |
| StatsEndpoint.HandleStats | backend/server.js:83-214 | the handler's reply and call list are exactly those of the specification: the region check, then the parameter check, then the try block |
| StatsEndpoint.DetailsStopAtFailure | backend/server.js:162-192 | once the match loop has thrown, later ids change neither its result nor its calls |
| StatsEndpoint.SummarizeFindsPlayer | backend/server.js:168-191 | the pushed summary takes championName, kills, deaths, assists and win from the first participant carrying the player's puuid, the date from the start time and the labelled mode and queue; with no such participant a TypeError without response is thrown |
| StatsEndpoint.Stats | backend/server.js:83-214 | the handler's specification: an unresolved region issues no call; a request that issues no call is answered 400; a request that issues calls had a present name and tagline and starts with the Riot ID lookup on the europe host |
| StatsProperties.RequestGuards | backend/server.js:86-95 | an unknown or absent region gets 400 "Nieznany region: …" with no call; then a missing or empty name or tagline gets 400 "Brak wymaganych parametrów" with no call; otherwise the try block runs |
| StatsProperties.DetailsCalls | backend/server.js:162-166 | the match loop fetches a prefix of the ids, in order, on the routing host, and all of them when it completes |
| StatsProperties.DetailsSummaries | backend/server.js:161-192 | a completed match loop holds exactly one summary per id, in the order of the ids, each built from that id's fetched details |
| StatsProperties.DetailsEffects | backend/server.js:162-192 | in the match loop every fetch before the last carried on, and the loop throws exactly when its last fetch threw, with that error |
| StatsProperties.CallsFollowPlan | backend/server.js:101-166 | the calls are a prefix of account → summoner → league → mastery → match ids → one fetch per id, with account on "europe", and the whole sequence on success |
| StatsProperties.FirstFailureDecides | backend/server.js:101-166 | every call before the last one succeeded (or was an absorbed mastery 403); the reply is an error exactly when the last call threw, and then carries that failure's status or 500 and its body or "Błąd backendu" |
| StatsProperties.BadMatchThrows | backend/server.js:162-183 | if any listed match fails to load or does not name the player, the match loop throws, so no partial list is returned |
| StatsProperties.MissingParticipantFails | backend/server.js:168-183 | a request that stops at a match without the player answers 500 "Błąd backendu" |
| StatsProperties.SnapshotContents | backend/server.js:194-202 | a snapshot echoes the query's name and tag, takes icon and level from the summoner, has the first solo-queue entry as rank, has the mastery stage's top champion, and one summary per match id in order |
| StatsProperties.OtherMasteryErrorFails | backend/server.js:146-151 | a mastery failure other than 403 fails the request after exactly the first four calls, with that failure's status and body |
| StatsProperties.ForbiddenMasteryLikeEmpty | backend/server.js:135-148 | a mastery endpoint answering 403 gives the same reply and calls as one answering an empty list |
| StatsProperties.DetailsReadOnlyMatches | backend/server.js:162-192 | the match loop depends only on the match endpoint and the date formatting |
| StatsProperties.AccountFailureStopsAll | backend/server.js:101-107 | a failed Riot ID lookup answers with its status and body after that single call |
| StatsProperties.ChallengerDetails | backend/server.js:161-192 | with two fetchable matches that name the player, the loop yields both summaries in order after two fetches |
| StatsProperties.ChallengerScenario | backend/server.js:83-214 | a full request on region kr with a flex entry before the solo entry yields the solo entry as rank, the first mastery entry as top champion, both matches in order, and seven calls |

## Left out

- Express setup, CORS, `app.listen` and the port: transport plumbing.
- The HTTP calls through axios and the URLs they build (`encodeURIComponent`, the API key header). Each call is a `Call` value answered by a function of the `World`. A network error or a timeout is a failure with no response.
- `console.log`, `console.warn` and `console.error` output.
- The date of a match: `toLocaleString("pl-PL", …)` depends on the locale and the time zone. The `World` supplies it as a function `formatDate` of the start timestamp.
- Number precision: JavaScript numbers are modelled as unbounded integers. `NaN` is modelled as the absent value, and `String(n)` is only modelled for integers below 10^21.
- Upstream bodies of the wrong shape are not modelled, for example a league answer that is not an array or a match without `info`. The model only covers a match whose participants lack the player, which raises a TypeError.
- A champion record without `image` is not modelled. The record always carries `image.full`.
- Lookups of inherited names in `gameModeMap` are not modelled. A game mode such as "constructor" would be labelled with a function.
- Query parameters given as arrays or objects (`?region=a&region=b`) are not modelled. Each parameter is a string or absent.
- The order of `for…in` over the champion object is an input. Records are given in enumeration order, and JavaScript lists integer-like keys first.
- `loadChampionData()` at start-up is not awaited, so a request can run before or after it completes. The catalog state is a parameter of `Stats`, and `HandleStats` reads it from the `ChampionCatalog` object.
- At most five matches: the handler asks for `count=5` and trusts the answer. The model loops over whatever list the `World` returns, so no bound on `recentMatches` is claimed.
- Catalog.ChampionCatalog.Load: does not model a version list that is not an array; `versionsRes.data[0]` on an empty list is modelled as the text "undefined" in the file URL.
- The as-written behaviour for inherited region names such as "constructor" is captured only by the guard and platform of `Regions.InheritedNamePassesGuard`. The request pipeline uses the corrected `Regions.ResolveRegion`.
- The frontend pages (`StatsPage.jsx`, `SearchPage.jsx`, `App.jsx`) are not part of this model. The one exception is the list of region tokens the search form offers.

## Findings

| source | as written | input that shows it | evidently intended | confidence | as-written member | corrected member |
|---|---|---|---|---|---|---|
| backend/server.js:86-98 | `regionMap[region]` is looked up on a plain object, so the `!regionInfo` guard also passes for names inherited from `Object.prototype`; the platform then falls back to the raw token | `region=constructor` with the name and tagline of an existing player: the guard passes, the account call is issued, the summoner call goes to host `constructor.api.riotgames.com` and fails without a response, and the reply is 500 "Błąd backendu" | an unknown region is rejected with 400 "Nieznany region: constructor" before any call | not executed | Regions.InheritedNamePassesGuard | Regions.ResolveRegion |
