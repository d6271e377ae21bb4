# Autoplay and music start-up configuration, modelled in Dafny

This project models the music subsystem of a Discord bot built on Lavalink.

- **Autoplay.** When a player's queue runs dry, `autoplayFunction` (src/handlers/player.js)
  derives a follow-up search from the track that just finished, keyed by the provider it came from.
  It issues one search on behalf of that track's requester. If nothing is found, it posts a warning
  and destroys the player. Otherwise it draws random results until three tracks whose identifiers
  are neither in the play history nor already queued have been appended.
- **Start-up configuration.** `getLavalinkNodes` and `validateSearchPlatform` (src/config.ts) build
  the Lavalink node list from four environment variables and validate the default search platform.
  The `MUSIC` block evaluates both when the configuration module loads.

Modules, one per concern:

- `Wrappers` (wrappers.dfy): `Option` stands for JavaScript's nullable values; `Result` stands for a
  value or a thrown `Error`.
- `Config` (config.dfy): the environment is a `map<string, string>`. Each validator is a total function
  returning a `Result`.
- `Tracks`: the track fields the handler reads, and the `some(...)` identifier test used for dedup.
- `AutoplayQuery`: the `switch` on `sourceName` as a pure function, with parsers that read the seed
  back out of the Spotify query and the YouTube watch URL.
- `AutoplaySampling`: `Sampled`, the tracks the dedup loop appends for a given sequence of random
  draws. Lemmas state when the loop can finish.
- `PlayerHandler`: a `Player` class whose fields are the queue, the history, the destroyed flag, the
  log of posted warnings and the log of searches. `Autoplay` is the handler as written and
  `AutoplayBounded` is the corrected handler (see Findings).
- `AutoplayScenarios`: concrete runs that exhibit both findings.

The random index `Math.floor(Math.random() * n)` is an input: the k-th draw of the loop is
`draws[k]`, an index below the number of results. The written loop has no attempt cap, so it is
run on a finite sequence of draws. If the draws run out before three tracks are accepted, the
outcome is `StillDrawing`: the handler would keep drawing.

## Model

| member | source | states |
|---|---|---|
| `Config.GetLavalinkNodes` | src/config.ts:15-38 | Fails exactly when one of LAVALINK_ID, LAVALINK_HOST, LAVALINK_PORT, LAVALINK_PASSWORD is unset or empty, always with the one generic message. On success it returns exactly one node whose id, host and authorization are those variables and whose port is `Number(LAVALINK_PORT)`. Every node has secure = false, retryAmount = 20, retryDelay = 30000 |
| `Config.NodesDependOnlyOnRequiredKeys` | src/config.ts:16-19 | Two environments that agree on the four Lavalink variables give the same node list |
| `Config.ValidPlatformsJoined` | src/config.ts:43-51 | The valid list joined with ", " reads "ytsearch, ytmsearch, scsearch, spsearch" |
| `Config.ValidateSearchPlatform` | src/config.ts:42-55 | Succeeds exactly for the four valid platforms and then returns the platform unchanged. Otherwise the error names the platform and lists the valid set |
| `Config.DefaultSource` | src/config.ts:106 | Validating 'scsearch' succeeds and gives a member of the valid set, so this initialisation never throws |
| `Config.LoadMusicConfig` | src/config.ts:101-108 | Loading the MUSIC block succeeds exactly when all four Lavalink variables are set. Its only failure is the missing-configuration error. On success the default source is 'scsearch' and the node list is exactly what `GetLavalinkNodes` returns for the same environment (one node) |
| `AutoplayQuery.DeriveQuery` | src/handlers/player.js:13-35 | spotify: source 'sprec', and the query reads back to the identifier, or '11xbo8bGa5XTrXrGP77zwc' when it is null. youtube: source 'ytsearch', and the URL's v parameter is the id ('lpeuIu-ZYJY' when null) and its list parameter is 'RD' plus the same id. jiosaavn: source 'jsrec', and the query is the id or 'Hvma-gqd'. Any other source: the author's name, searched on 'scsearch' |
| `AutoplayQuery.SpotifyRoundTrip` | src/handlers/player.js:17 | Stripping the fixed prefix and suffix from a Spotify recommendation query gives back its seed, for every seed |
| `AutoplayQuery.WatchRoundTrip` | src/handlers/player.js:22 | Reading the watch URL's v and list parameters gives the seed and 'RD' plus the seed, for every seed without '&' |
| `AutoplayQuery.ParamValueStopsAtAmp` | src/handlers/player.js:22 | A URL parameter value is read up to the next '&' |
| `AutoplaySampling.Sampled` | src/handlers/player.js:56-70 | The queue after the loop extends the queue before it, by at most three tracks |
| `AutoplaySampling.SampledAppendsFresh` | src/handlers/player.js:56-70 | Loop invariant: every appended track came from the results, and when it was appended its identifier was in neither `queue.previous` nor `queue.tracks` |
| `AutoplaySampling.AppendedFreshIsDistinct` | src/handlers/player.js:59-68 | Hence the appended identifiers are pairwise distinct, and none of them is in the history |
| `AutoplaySampling.FilledNeedsThreeFreshIds` | src/handlers/player.js:56-70 | If the loop appends three tracks, the results hold at least three distinct identifiers absent from the history |
| `AutoplaySampling.ThreeFreshIdsCanFill` | src/handlers/player.js:56-70 | Conversely, with at least three such identifiers, some sequence of draws makes the loop append three tracks |
| `AutoplaySampling.DrawThreeFresh` | src/handlers/player.js:56-70 | Three draws that hit fresh results with distinct identifiers append exactly those three results |
| `AutoplaySampling.AllInHistoryNeverFills` | src/handlers/player.js:56-70 | When the identifier of every result is already in the history, no sequence of draws appends anything |
| `AutoplaySampling.FreshIdsAfterAppend` | src/handlers/player.js:59-68 | Appending a fresh result removes exactly its identifier from the fresh identifiers |
| `AutoplaySampling.HasIdAppend` | src/handlers/player.js:63-65 | The queued-identifier test after an append is the old test, or a match with the appended track |
| `PlayerHandler.Player.Autoplay` | src/handlers/player.js:5-85 | The pass is skipped, changing nothing, exactly when the queue is non-empty or there is no finished track. Otherwise it issues exactly one search, for the derived query, on behalf of the finished track's requester. An absent or empty reply posts one "No results found" warning and destroys the player, with the queue unchanged. If the channel is not cached, the warning throws first and nothing is destroyed. Any other reply leaves the queue equal to `Sampled` of the draws: tracks from the results with pairwise distinct identifiers, none in the history. Nothing is posted or destroyed on that path. The pass ends with tracks queued exactly when three were appended. The "No unique track found" branch is proved unreachable |
| `PlayerHandler.Player.SampleInto` | src/handlers/player.js:56-70 | The loop leaves the queue equal to `Sampled` of the draws, and its counter equals the number of tracks appended, at most three |
| `PlayerHandler.Player.AutoplayBounded` | src/handlers/player.js:5-85 | Corrected handler. It always finishes. It queues min(3, number of fresh distinct identifiers) tracks, all distinct and fresh. When there is no fresh identifier, it takes the "No unique track found" path. Both warnings use `channel?.`, so the player is destroyed even when the channel is not cached |
| `PlayerHandler.Player.FillFresh` | src/handlers/player.js:56-84 | Corrected loop. It appends min(3, number of fresh distinct identifiers) tracks, pairwise distinct and absent from the history |
| `PlayerHandler.DistinctFreshAppend` | src/handlers/player.js:59-68 | Appending a track that passes the dedup test keeps the queue free of duplicates and history entries |
| `AutoplayScenarios.EmptyReplyUncachedChannel` | src/handlers/player.js:42-54 | As written: with an empty reply and no cached channel, the player is not destroyed and its queue stays empty |
| `AutoplayScenarios.EmptyReplyUncachedChannelBounded` | src/handlers/player.js:42-54 | Corrected: the same input destroys the player without a warning |
| `AutoplayScenarios.OnlyReplayAvailable` | src/handlers/player.js:56-84 | As written: when the only result was just played, no draws queue anything and the loop never exits |
| `AutoplayScenarios.OnlyReplayAvailableBounded` | src/handlers/player.js:56-84 | Corrected: the same input posts one "No unique track found" warning and destroys the player |

## Left out

- Guild and channel lookup through the Discord client cache: only its result is kept, as the flag `channelCached`. Embeds and colours are left out: a warning is its text and its auto-delete delay (10 seconds).
- `player.search` and the lavalink-client types are foreign. The reply is an input (`None` for a missing result). A search that rejects is not modelled.
- `Math.random` and `Math.floor` are floating point. They are replaced by the supplied draws (as written) and by an arbitrary choice among fresh results (corrected).
- The async/await interleaving, and any concurrent autoplay passes on one player, are left out. The code has no coalescing of concurrent triggers.
- `Number(port)` is JavaScript numeric coercion. It is kept as the uninterpreted term `Number(text)`, and no check of the port is claimed. The code throws one generic message for any missing variable and does not validate the port.
- The other constants of the configuration object (src/config.ts:57-172) are plain data.
- An undefined `queue.previous` behaves, through `?.`, like an empty history. `null` and `undefined` identifiers are both `None`.
- src/commands/moderation/timeout.js, src/commands/economy/withdraw.js and src/structures/Command.ts are not part of this model. They hold command glue and type declarations.
- PlayerHandler.Player.Autoplay: the written loop's divergence is shown only on finite prefixes of the random draws (outcome `StillDrawing`). Infinite runs are not modelled, because the draws are a finite input.
- AutoplayQuery.DeriveQuery: the YouTube URL is read back as its v and list parameters only for identifiers without '&'. For other identifiers the contract states only the source.

## Findings

| source | as written | input that shows it | evidently intended | confidence | as-written member | corrected member |
|---|---|---|---|---|---|---|
| src/handlers/player.js:56-84 | The sampling loop has no attempt cap and exits only after three tracks were appended, so the "No unique track found" branch at line 72 is dead | The search returns only the track that was just played (it is in `queue.previous`): every draw is rejected and the loop never ends. Its only `await` (line 67) is never reached, so the loop never yields and blocks the event loop of the whole bot | Stop drawing when no fresh result is left. Take the "No unique track found" path when nothing was queued | high, not executed | `AutoplayScenarios.OnlyReplayAvailable` | `PlayerHandler.Player.AutoplayBounded` |
| src/handlers/player.js:43 | `channel.safeSend(...)` is called without optional chaining, unlike line 73 | Empty search reply while the guild's text channel is not in the client cache: a TypeError is thrown before `player.destroy()`, so the player is left alive with an empty queue | `channel?.safeSend(...)`, so the player is destroyed in any case | medium, not executed | `AutoplayScenarios.EmptyReplyUncachedChannel` | `PlayerHandler.Player.AutoplayBounded` |
