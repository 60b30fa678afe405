# Utility Discord Bot: movies, ChatGPT conversations and reply buttons, in Dafny

This project models the deterministic core of a Discord bot written in TypeScript, and proves properties of that model. It covers four parts of the bot:

- **Movie filtering and upsert** (`movies` slash command). The `list` and `pick` subcommands share one filter. It is a conjunction of optional criteria: case-insensitive substring tests, an inclusive length cap, a strict rating threshold and a favourite flag. `create`/`edit` validates its inputs and picks the OMDb query parameter. It turns the OMDb `Runtime` into a length by keeping its digits. When anything on the OMDb path fails, it falls back to a title-only row.
- **The `movies` table** (`models/movies.ts`). The model covers the row shape and the comma-separated-list validator. It also covers the 0-100 rating checks and the two unique indexes, (guild, title) and (guild, non-null IMDb id). An upsert keeps all of these invariants.
- **ChatGPT conversations** (`getChatGptResponse`). A service object holds a conversation cache keyed by `userId + guildId`. Each call does these steps in order:
  - it checks that an API key is configured;
  - it picks the rate limiter from the allow-list;
  - it resolves the history: explicit, else cached, else empty;
  - it sends that history plus one user turn;
  - it appends exactly two turns to the cache, only when a reply message arrived, caching is on and no explicit history was given;
  - it returns the reply text, or a fixed fallback string when the text is empty.
- **Reply buttons** (`removeButtons`, `listenForButtons`). `RemoveButtons` chooses which of three edits strips the buttons, or makes no edit. `ButtonCollector` models the collector as an object. Its state is a phase plus a log of the actions it has caused. Its `Collect` and `End` methods stand for the collector's `collect` and `end` events.

The model follows the code rather than an idealised single-shot collector:
- the collector stays open after a click is dispatched, so repeated clicks dispatch again;
- the cleanup callback runs on every dispatch whose handler returns (a handler that throws synchronously skips it);
- buttons are removed only on `end` or when setting up the collector throws;
- when no channel is found, nothing ever removes them.

In the same way, the conversation key is plain string concatenation. It is not injective, and the model shows two different (user, guild) pairs that share one history.

Files: `basics.dfy` (Option, Result), `text.dfy` (character helpers), `movie_schema.dfy`, `movie_commands.dfy`, `chatgpt.dfy`, `buttons.dfy`.

Things the model takes as inputs because the code cannot decide them:
- the OMDb answer, and whether the reply edit succeeded;
- the rate limiter's verdict and the OpenAI reply;
- whether creating the collector threw;
- the current time.

## Model

| member | source | states |
|---|---|---|
| `MovieSchema.CommaListCharacterization` | src/models/movies.ts:44 | The list pattern `^([^,]+,\s*)*[^,]+$`, modelled as a grammar, accepts a string iff it is non-empty, does not start or end with ',' and contains no ",,". |
| `MovieSchema.AfterSeparatorCharacterization` | src/models/movies.ts:44 | The `\s*` after a separator, followed by the rest of the pattern, accepts exactly the same strings as the pattern itself. So whitespace after a comma never changes the verdict. |
| `MovieSchema.BlankItemAccepted` | src/models/movies.ts:44 | A whitespace-only item, as in "a, ,b", is accepted. |
| `MovieSchema.Upsert` | src/models/movies.ts:54-149 | It succeeds iff every column validator passes (comma lists for actors/genre, 0..100 for the three ratings, nulls allowed) and no row under another (guild, title) key has the same non-null IMDb id. On success the new row is present, rows with other (guild, title) keys are kept, nothing else appears, and a valid table stays valid: no two rows share (guild, title) or (guild, non-null imdb id). |
| `MovieSchema.NullImdbIdsNeverClash` | src/models/movies.ts:137-145 | A row with a null IMDb id never clashes on the IMDb index, so a guild may hold any number of them. |
| `MovieCommands.FilterMovie` | src/commands/movies/index.ts:314-352 | The step-by-step flag of filterMovie ends true iff the movie passes every criterion. Text criteria are case-insensitive substring tests. A null or empty column fails a set text criterion. The length criterion needs a non-zero length <= the cap. The rating criterion needs a non-zero rating > the threshold. The favourite criterion needs the favourite flag. A criterion that is unset or falsy imposes nothing. |
| `MovieCommands.NoCriteriaMatchesEverything` | src/commands/movies/index.ts:314-352 | With every option absent or falsy ("" / 0 / false), every movie matches. |
| `MovieCommands.MoreCriteriaNarrow` | src/commands/movies/index.ts:315-351 | Adding criteria (keeping those already set) never turns a non-match into a match. |
| `MovieCommands.IncludesIgnoringCaseOfLower` | src/commands/movies/index.ts:316-340 | The case-insensitive substring test depends only on the lower-cased option value. |
| `MovieCommands.TextCriteriaIgnoreCase` | src/commands/movies/index.ts:315-351 | Options that differ only in the letter case of the search term, genre, actors or director give the same verdict on every movie. |
| `MovieCommands.FilterMovies` | src/commands/movies/index.ts:360 | The list step keeps only matching movies and never grows the list. |
| `MovieCommands.FilterMoviesKeepsMatches` | src/commands/movies/index.ts:360 | Each matching movie is kept as many times as the list holds it, and each non-matching movie is dropped. |
| `MovieCommands.FilterMoviesOfConcat` | src/commands/movies/index.ts:376 | Filtering a concatenation is concatenating the filtered parts, so the pick step keeps the order of the stored rows. |
| `MovieCommands.FilterMoviesIdempotent` | src/commands/movies/index.ts:376 | Filtering an already-filtered list with the same options changes nothing. |
| `MovieCommands.DigitsOf` | src/commands/movies/index.ts:242 | Stripping `[^\d]` leaves only digits, never more characters than the input. |
| `MovieCommands.RuntimeMinutes` | src/commands/movies/index.ts:242 | The length is `Number` of the runtime's digits. With no digits it is 0. |
| `MovieCommands.DigitsOfConcat` | src/commands/movies/index.ts:242 | Stripping non-digits works piece by piece: the digits of a concatenation are the concatenated digits, in order. |
| `MovieCommands.DigitsOfDigits` | src/commands/movies/index.ts:242 | A string of digits is left as it is. |
| `MovieCommands.DecimalRoundTrip` | src/commands/movies/index.ts:242 | Reading back the decimal spelling of n gives n. |
| `MovieCommands.RuntimeOfMinutes` | src/commands/movies/index.ts:242 | An OMDb runtime "<n> min" is stored as length n. |
| `MovieCommands.RuntimeWithoutDigits` | src/commands/movies/index.ts:242 | A runtime with no digit, such as "N/A", is stored as 0, not as null. |
| `MovieCommands.OmdbQuery` | src/commands/movies/index.ts:214-221 | The query always starts with the API key. When an IMDb id is given it carries `i` and never `t`. With only a title it carries `t` and never `i`. |
| `MovieCommands.TitleOnlyRecordShape` | src/commands/movies/index.ts:271-291 | The fallback row has the guild and title, `is_favorite = favorite \|\| false`, `was_watched` false, every metadata column null, and it passes every validator. |
| `MovieCommands.ApiRecordLength` | src/commands/movies/index.ts:237-255 | The row stored from OMDb takes its length from the runtime's digits. |
| `MovieCommands.ApiAttempt` | src/commands/movies/index.ts:223-269 | The try block reports a row only when the answer is 'True' with a Rotten Tomatoes rating, the database stored the OMDb row and the reply went out. Every other outcome falls through. A fall-through leaves the table as it was, except after a stored row whose reply edit failed, which leaves the updated table. A valid table stays valid. |
| `MovieCommands.TitleOnlyUpsert` | src/commands/movies/index.ts:271-301 | Without a title it fails with 'Movie not created…'. With one it stores the title-only row: it succeeds iff the database accepts that row, returning the new table and the row. Otherwise it passes on the database error. A valid table stays valid. |
| `MovieCommands.HandleUpsert` | src/commands/movies/index.ts:181-302 | It fails with 'You must provide IMDb code or title' when both inputs are empty, and then makes no OMDb request and leaves the table alone. Otherwise it makes the `OmdbQuery` request exactly when an API key is configured. The table it leaves behind keeps the invariants. On success the returned row is in that table. On failure the table is unchanged, except when an OMDb row was stored and the reply edit after it failed. An OMDb row is returned only for a usable `Response: 'True'` answer. It falls back to the title-only upsert on the untouched table when there is no key, the request fails, the answer is 'False' or anything else, Rotten Tomatoes is missing, or the database refuses the OMDb row. A failed reply edit after a stored OMDb row also reaches the title-only upsert, on the updated table. Without a title the fallback fails with 'Movie not created…'. A database error reaches the caller only from the title-only upsert. |
| `MovieCommands.HandleUpsertQueryChoice` | src/commands/movies/index.ts:214-221 | With a key configured, the request handleUpsert makes starts with the key. It asks by `i` and never by `t` when an IMDb id is given, and by `t` and never by `i` when only a title is given. |
| `MovieCommands.StoredMovieReportedNotCreated` | src/commands/movies/index.ts:237-300 | With an IMDb id, no title and a usable OMDb answer that the database stores, a failed reply edit makes handleUpsert fail with 'Movie not created…' while the OMDb row stays in the table. |
| `MovieCommands.StoredMovieReportedNotCreatedExample` | src/commands/movies/index.ts:237-300 | A concrete case: an empty table gains a row, yet the answer is 'Movie not created…'. |
| `MovieCommands.HandleUpsertIntended` | src/commands/movies/index.ts:181-302 | handleUpsert with a stored OMDb row reported as created even when the reply edit fails. A failure then always leaves the table unchanged. A usable answer that the database accepts is always reported as an OMDb row. |
| `ChatGpt.DropSpaces` | src/constants.ts:47 | The greedy `\s*` after a separator leaves a string no longer than its input that does not start with whitespace. |
| `ChatGpt.SplitOnCommaSpaces` | src/commands/utilities/chatgpt.ts:31 | `split(/,\s*/)` always yields at least one piece. Its pieces are characterised by `SplitPieces` and `SplitJoinRoundTrip`. |
| `ChatGpt.SplitPieces` | src/commands/utilities/chatgpt.ts:31 | No allow-list piece contains a comma, and no piece after the first starts with whitespace. |
| `ChatGpt.SplitJoinRoundTrip` | src/constants.ts:47 | Splitting on `/,\s*/` undoes joining with ", ", for pieces without commas whose later pieces do not start with whitespace. |
| `ChatGpt.AllowList` | src/commands/utilities/chatgpt.ts:31 | An unset variable gives the empty allow-list. Otherwise the allow-list is exactly the set of split pieces. |
| `ChatGpt.AllowListOfJoin` | src/commands/utilities/chatgpt.ts:31 | For a value written as "a, b, c", a user id is allow-listed iff it is one of the pieces. |
| `ChatGpt.ConversationKey` | src/commands/utilities/chatgpt.ts:66 | The key starts with the user id. |
| `ChatGpt.History` | src/commands/utilities/chatgpt.ts:67 | The history sent is the explicit conversation when one is given. Otherwise it is the cached entry under the key when caching is on and the entry exists. Otherwise it is empty. |
| `ChatGpt.KeysCollide` | src/commands/utilities/chatgpt.ts:66 | The concatenated key is not injective: (u, c·g) and (u·c, g) are different pairs with the same key. |
| `ChatGpt.NullGuildCollides` | src/commands/utilities/chatgpt.ts:50-66 | A null guild and a guild whose id is "null" share a key. |
| `ChatGpt.ReplyText` | src/commands/utilities/chatgpt.ts:93 | The answer is never empty. It is the reply content when that is non-empty, else 'Something went wrong. Blame Open AI.'. |
| `ChatGpt.ExchangesExtend` | src/commands/utilities/chatgpt.ts:81-91 | Appending [user turn, reply] to a history made of exchanges gives a history made of exchanges. |
| `ChatGpt.ChooseLimiter` | src/commands/utilities/chatgpt.ts:63 | The allow-listed limiter is chosen iff the user is on the allow-list. |
| `ChatGpt.ChatGptService.constructor` | src/commands/utilities/chatgpt.ts:15-31 | The service is configured iff the API key is non-empty. Caching is on iff the time-limit variable is set and non-empty. The allow-list comes from the variable. The cache starts empty. |
| `ChatGpt.ChatGptService.GetResponse` | src/commands/utilities/chatgpt.ts:50-94 | Without a key, it fails with NotConfigured before any limiter attempt or cache change. Otherwise exactly one attempt is logged, on the limiter chosen by allow-list membership. A limiter refusal fails before anything is sent. The sent messages are the explicit history, else the cached entry under `userId + guildId`, else empty, followed by one user turn with the query. A backend failure fails with BackendError. Success returns `ReplyText`. The cache gains `prior + [user turn, reply]` under the key iff the limiter allowed, a reply message exists, caching is on and no explicit history was given; in every other case it is unchanged. Every cached entry remains a run of (user, reply) exchanges. |
| `ChatGpt.ChatGptService.Expire` | src/commands/utilities/chatgpt.ts:22-26 | Time-to-live expiry removes exactly one key. |
| `ChatGpt.ChatGptService.CachedHistory` | src/commands/utilities/chatgpt.ts:67 | The cached history is a run of (user, reply) exchanges. It is empty when caching is off. |
| `ChatGpt.FirstExchange` | src/commands/utilities/chatgpt.ts:81-91 | After one successful call for an identity with no entry, its cached history is exactly [user turn, reply]. |
| `ChatGpt.FailedCallKeepsHistory` | src/commands/utilities/chatgpt.ts:68-91 | A failed backend call leaves the cached history unchanged. No partial turn is recorded. |
| `Buttons.RemoveButtons` | src/commands/utils.ts:11-30 | At most one edit is made. `message.edit` when there is no interaction and the message is an editable default-type message. Else the follow-up edit of `message.id` when both are present. Else `editReply` when only the interaction is present. Else nothing. Every edit sets `components` to the empty list. |
| `Buttons.CollectorTime` | src/commands/utils.ts:54-56 | With an interaction, the collector's time limit ends 15 minutes after the interaction was created, whenever setup happens. Without one there is no limit. |
| `Buttons.WatchedMessageId` | src/commands/utils.ts:57 | Clicks are collected for the given message's id, else for the interaction's fetched reply. |
| `Buttons.FindChannel` | src/commands/utils.ts:58-62 | The channel is the interaction's channel when there is an interaction. Otherwise it is the channel of a full message object, which may be uncached. A raw message has no channel. |
| `Buttons.ClickActionCounts` | src/commands/utils.ts:72-81 | One click is acknowledged once and never removes the buttons. It runs a handler iff its custom id is registered. The handler throws at most once. The cleanup callback runs iff a handler ran, returned without throwing and a callback exists. |
| `Buttons.ButtonCollector.Listen` | src/commands/utils.ts:48-89 | The time limit is `createdTimestamp + 900000 - now` with an interaction, else none. The watched id is `message.id`, else the fetched reply's id. With no channel (no interaction channel, a raw message, or a message whose channel is not in the client cache) nothing happens. A throw during setup removes the buttons once. Otherwise the collector is listening. |
| `Buttons.ButtonCollector.Collect` | src/commands/utils.ts:69-81 | Only clicks on the watched message of a listening collector act. They append exactly the click's actions, where a synchronous throw from the handler skips the cleanup callback. The phase is unchanged: the collector is not stopped, not even by a throw. No buttons are removed. Every cleanup callback follows a handler that returned. |
| `Buttons.ButtonCollector.End` | src/commands/utils.ts:82-85 | Ending a listening collector removes the buttons exactly once. Over the collector's life, buttons are removed at most once. |
| `Buttons.NoChannelNeverStrips` | src/commands/utils.ts:58-68 | With no channel, no sequence of events (clicks on any message, in any order with ends) ever removes the buttons. |
| `Buttons.RepeatedClicksRedispatch` | src/commands/utils.ts:72-81 | Two clicks on a registered button run its handler twice, whether or not the first run threw. |

## Left out

- Discord rendering and command registration are not modelled: the embeds, the delete button, the slash-command builders, `run`, `chunkReplies` and `replyWithEmbeds` are UI glue.
- The OMDb HTTP request, Sequelize itself and `src/models/index.ts` (file scan, connection, `sync`) are not modelled. The table is a set of rows, and its upsert is defined by the invariants: replace the row with the same (guild, title), refuse a row that fails a validator or clashes on the IMDb index. The UUID primary key is left out; rows are told apart by value.
- HandleUpsert: the numeric OMDb fields (`Year`, `imdbRating * 10`, `Metascore`, the Rotten Tomatoes percentage) come in already converted to integers. `Number(...)` parsing, NaN and floating point are not modelled.
- RuntimeMinutes: `Number` of a very long digit string loses precision in JavaScript; the model reads any length exactly.
- FilterMovie: case folding covers the ASCII letters only. JavaScript's `toLowerCase` folds all of Unicode. Option values are integers, where the bot accepts any number.
- The title-only path's reply edit, the delete-button listener it attaches and the delete handler (`movie.destroy`) are not modelled.
- `getRandomElement` in `handlePick` is left out, together with its failure on an empty list; only the filter step is modelled.
- Rate limiter internals (budgets, windows, per-guild counts) are in a file that is not part of this model. Each call receives the chosen limiter's verdict.
- The OpenAI call (model name, network) is replaced by its outcome: a failure, or a reply message that may be absent.
- The cache's time-to-live, the 600-second sweep and entry ages are not modelled; `Expire` removes any entry at any time instead. The chatgpt command's `run` (which passes `guildId || ''`) is not modelled.
- Async interleaving is not modelled: events are processed one at a time, and handlers are not awaited in the source. A failed `deferUpdate` only logs, so `Acknowledge` is recorded for every collected click. A throw from `fetchReply`, outside the try block, is not modelled.
- Buttons.ButtonCollector.Collect: only a synchronous throw from a handler is modelled, and it skips `cleanupCb`. A handler that returns a rejected promise counts as returning, because the promise is not awaited and `cleanupCb` still runs. What the Node process does with the listener's unhandled rejection is not modelled.
- Buttons.ClickActionCounts: it describes one click under the same assumption: a handler either returns or throws synchronously.
- The collector's timer is not modelled: `End` stands for its `end` event, whatever caused it. Only one `end` is ever acted on.
- Column widths (STRING 255, 32-bit INTEGER) are not modelled.

## Findings

| source | as written | input that shows it | evidently intended | confidence | as-written member | corrected member |
|---|---|---|---|---|---|---|
| src/commands/movies/index.ts:237-300 | After the OMDb row is upserted, a failing `editReply` is swallowed by the catch. Control then reaches the title-only path, which throws 'Movie not created…' when no title was given. | `imdb_id: "tt1"`, no title, a key configured, OMDb answers 'True' with a Rotten Tomatoes rating, the upsert succeeds, the reply edit throws | A stored movie is not reported as "not created": a failure leaves the table as it was | medium, not executed | `MovieCommands.StoredMovieReportedNotCreated` | `MovieCommands.HandleUpsertIntended` |
