# Live matches and odds snapshot cache

This project models the in-memory snapshot cache of a small Node.js backend. The backend
polls a match-list provider and an odds provider once a second. It keeps the latest
`liveData = { matches, odds }` in memory, broadcasts `updateMatches` / `updateOdds` to
connected subscribers, and answers `GET /api/odds?market_id=<id>` from the cache.

Modules:

- `Wrappers` (`wrappers.dfy`): `Option`, which stands for a JavaScript field being absent or present.
- `Feed` (`feed.dfy`): the upstream records (`RawMatch`, `MatchListReply`, `MarketReply`, `OddsResult`) and the
  stored records (`Match`, `OddsEntry`). It also holds the pure helpers: the `.map` projection, the marketId
  list, the `.find` lookup and the construction of an odds entry.
- `OddsTick` (`odds_tick.dfy`): the odds tick as a specification. `Run` is a left-to-right fold over the
  marketIds and their replies. It ends either `Completed` or `Aborted` at the first failing request. The
  lemmas about it cover key-by-key contents, abort, last write wins, no eviction and idempotence.
- `OddsQuery` (`odds_query.dfy`): the `/api/odds` reply as a function, and what it returns after a tick.
- `LiveStore` (`live_data.dfy`): the class `LiveData`. Its fields `matches` and `odds` are updated in place
  by the two tick methods. A ghost `events` log records every broadcast. The class also has the query
  handler and the greeting sent to a new subscriber.

Upstream replies are method parameters. `FetchOngoingMatches` receives a `MatchListReply`. `FetchOdds`
receives one `MarketReply` per match, in match order: `Fail` when the request throws, `NoResult` when the
reply has no `result`, or `Result(...)`. Each tick is one atomic method.

## Model

| member | source | states |
|---|---|---|
| `Feed.MatchListData` | server.js:53-55 | a match-list reply is rejected exactly when the request failed, or the body or its data field is absent; otherwise the data list is taken as is, even when empty |
| `Feed.ProjectAll` | server.js:57-63 | the stored list has the upstream list's length and order, and each record copies eventId, matchName, matchDate, marketId and scoreIframe from the raw match at the same index |
| `Feed.MarketIds` | server.js:74 | the marketIds snapshot lists every match's marketId, in match order, duplicates included |
| `Feed.FindByMarket` | server.js:85 | the lookup finds nothing exactly when no match has the marketId; otherwise it returns the first match with that marketId |
| `Feed.BuildEntryFields` | server.js:85-94 | for the entry `BuildEntry` writes for one result, the entry's matchName is that of the first match with the marketId, or "Market " + marketId when there is none; each of the four tables is the upstream table, or [] when it is absent |
| `OddsTick.Run` | server.js:74-101 | the tick as a left-to-right fold over the marketIds and their replies. Each iteration (`Step`, server.js:78-95) upserts the `BuildEntry` entry for a result, leaves the map alone without one, and throws on a failure. The tick stops at the first failing request with earlier writes kept, and an abort index is below the number of markets; what the fold computes is stated by `RunFailsFirst` and `RunAt` |
| `OddsTick.RunFailsFirst` | server.js:72-101 | a tick completes exactly when no request fails; an aborted tick stops at the first failing request |
| `OddsTick.LastResult` | server.js:77-88 | finds the last of the first n requests that wrote a key, and no later one among them writes it; None means none of them wrote it |
| `OddsTick.RunAt` | server.js:77-96 | for each key, the map after the fold `Run` of `Step`s holds the entry of the last processed request that returned a result for it; otherwise it holds what it held before, or stays absent |
| `OddsTick.RunAbortedIsPrefix` | server.js:72-101 | an aborted tick leaves exactly the map that a completed tick over the markets before the failing one would leave |
| `OddsTick.RunAbortsAt` | server.js:77-80 | if the tick over the requests before index i completes and request i fails, the tick aborts at i with the map built by the first i requests |
| `OddsTick.RunAbortedUntouched` | server.js:77-101 | after an abort, a key that no request before the failing one wrote keeps its old value or stays absent |
| `OddsTick.RunLastWriteWins` | server.js:77-94 | when a marketId is written more than once, the stored entry is the one built from the last result processed before any failure; requests never sent after an abort do not matter |
| `OddsTick.AbortedLastWriteExample` | server.js:72-101 | for marketIds a, b, a with replies result, failure, result, the tick aborts at index 1 and a keeps the entry built from the first result |
| `OddsTick.RunKeys` | server.js:84-88 | no key is ever removed: the keys after a tick are the old keys plus the marketIds whose request returned a result before any failure |
| `OddsTick.RunIdempotent` | server.js:74-98 | re-running a tick with identical replies yields the same outcome and the same map |
| `OddsTick.RunNamesFromMatches` | server.js:84-89 | every processed market whose reply had a result is stored under the matchName of the first match with that marketId |
| `OddsQuery.Answer` | server.js:110-114 | returns 200 with the stored entry exactly when the parameter is present, non-empty and stored; otherwise 404 with "No odds available" |
| `OddsQuery.AnswerAfterTick` | server.js:88-114 | after a tick, a query for a non-empty marketId returns the last entry written for the marketId, else the entry stored before the tick, else 404 |
| `LiveStore.LiveData.constructor` | server.js:33-36 | the store starts with no matches, no odds and no broadcasts |
| `LiveStore.LiveData.FetchOngoingMatches` | server.js:53-68 | a reply rejected by `MatchListData` (request failed, body or data absent) changes nothing and broadcasts nothing; an accepted one, even an empty list, replaces the matches with the projected list and broadcasts it once; odds never change |
| `LiveStore.LiveData.FetchOdds` | server.js:72-101 | matches are unchanged; with no matches nothing happens; otherwise odds become the outcome of `Run`, and exactly one `updateOdds` with the full map is broadcast only when no request failed |
| `LiveStore.LiveData.QueryOdds` | server.js:109-115 | the handler replies as `Answer` on the current odds and modifies nothing |
| `LiveStore.LiveData.Connect` | server.js:118-121 | a new subscriber receives the current matches and then the current odds |

## Left out

- HTTP requests to both providers, their URLs, headers and the bearer token (server.js:41-51, 78-80). Their outcomes are method parameters.
- Express, CORS, JSON middleware, routing and the listening port (server.js:8-22, 109, 127-128). These are framework configuration.
- The socket.io transport (server.js:25-30, 118-124). Broadcasts are a ghost event log. The per-connection greeting is a return value. Disconnects are not modelled.
- The one-second timers and the interleaving of the two pollers at `await` points (server.js:105-106, 78). Each tick is one atomic method. Overlapping runs of the same poller are not modelled either: `setInterval` starts a new tick every second even while the previous one of the same poller is still waiting at an `await`, so in the source two odds ticks (or two matches ticks) can interleave their writes. So the `.find` at server.js:85 reads the same matches as the snapshot taken at server.js:74. A matches tick landing between two odds requests is not modelled.
- Console logging and `JSON.stringify` (server.js:67, 82, 100). They have no behaviour to verify.
- `LiveStore.LiveData.FetchOdds`: requires one reply per match. This describes the environment oracle; the source has no such precondition.
- JavaScript values beyond absent/present. All match fields and marketIds are strings. Falsy values other than absence (null, 0, "", false) for `data`, `result` or a table are treated as absent. Non-array `data` and null list elements are not modelled; in the source the `.map` would throw and the tick would be rejected. Strict equality between a numeric and a string marketId is not modelled either. Nor is a repeated query parameter: `?market_id=a&market_id=b` is parsed as an array, and the lookup at server.js:111 and 114 then reads the key "a,b". `OddsQuery.Answer` takes a single optional string.
- Keys that collide with `Object.prototype` members, such as `__proto__` or `constructor`, in the odds object or in the query. The model treats `odds` as a plain dictionary.
