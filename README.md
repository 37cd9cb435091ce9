# Yellow Books AI search, modelled in Dafny

A business directory (the `YellowBook` table) is searched in natural language. The query is
embedded, the stored records are ranked by cosine similarity to it, and a chat model writes an
answer about the best five. The answer is cached in Redis. The repository has two versions of
this pipeline, and they differ on several points:

- the NestJS controller `AiYellowBooksController.search`
  (module `YellowBooksController`);
- the Express handler `searchWithAI` (module `AiSearchMiddleware`).

Around them sit a shared caching service (`CacheService`), the API's authentication middleware
(`ApiAuth`), the web application's session helpers (`WebAuth`), the sign-in error page
(`AuthErrorPage`) and two offline scripts that backfill embeddings (`EmbedBusinesses`,
`GenerateEmbeddings`).

Shared modules:

- `Wrappers`: `Option`, `Result` and `Fault`.
- `Text`: JavaScript's `trim`, `toLowerCase`, `startsWith`, `join` and decimal numerals.
- `KeyValue`: the Redis store, as a map from key to value and TTL, and a `RedisStore` class with
  GET, SETEX, KEYS and DEL.
- `VectorMath`: both cosine similarities. Every floating-point operation is an uninterpreted
  parameter.
- `Ranking`: the stable descending sort and `slice(0, k)` both pipelines use.
- `Directory`: the `Business` record, the `findMany` filter, the embedding `update`, and a
  `YellowBookTable` class.

Each request handler is a method over the Redis store and the table objects. Each method is
proved equal to a function on values (`Respond`, `Handle`). That function takes the expensive
stage after the cache lookup as a parameter, so the cache lemmas hold whatever that stage
computes. The methods instantiate the parameter with the real pipeline (`Compute`, `Similar`).
The external services are fields of a `Providers` value:

- the embedding and chat endpoints;
- `JSON.parse` and `JSON.stringify`;
- the floating-point operations.

Failures of Redis and of the database are fields of a `Faults` value.

## Model

| member | source | states |
|---|---|---|
| Text.TrimStartShape | apps/api/src/ai-yellow-books.controller.ts:44 | the leading part `trim` drops is all white space, and what it keeps is a suffix of the input that does not start with white space |
| Text.TrimEndShape | apps/api/src/ai-yellow-books.controller.ts:44 | the trailing part `trim` drops is all white space, and what it keeps is a prefix of the input that does not end with white space |
| Text.TrimShape | apps/api/src/ai-yellow-books.controller.ts:44 | `trim()` returns a string no longer than its input, whose first and last characters are not ECMAScript white space |
| Text.TrimEmptyIffAllSpace | apps/api/src/ai-yellow-books.controller.ts:44 | a query trims to the empty string exactly when it is made only of white space |
| Text.TrimIdempotent | apps/api/src/ai-yellow-books.controller.ts:57 | trimming a trimmed query changes nothing |
| Text.TrimIgnoresPadding | apps/api/src/ai-yellow-books.controller.ts:57 | outer white space of any length does not change the trimmed query |
| Text.Trim | apps/api/src/ai-yellow-books.controller.ts:44 | `trim()`: drops leading, then trailing ECMAScript white space (its properties are the `Trim*` lemmas) |
| Text.ToLower | apps/api/src/ai-yellow-books.controller.ts:57 | `toLowerCase()` of the query, as long as the query |
| Text.LowerCharIdempotent | apps/api/src/ai-yellow-books.controller.ts:57 | a character that has been lower-cased is its own lower case |
| Text.ToLowerPointwise | apps/api/src/ai-yellow-books.controller.ts:57 | `toLowerCase()` maps the query character by character (for the letters `LowerChar` covers; JavaScript's few one-to-many mappings are not modelled) |
| Text.ToLowerIdempotent | apps/api/src/ai-yellow-books.controller.ts:57 | lower-casing twice is lower-casing once |
| Text.ToLowerTrimCommute | apps/api/src/ai-yellow-books.controller.ts:57 | lower-casing then trimming equals trimming then lower-casing |
| Text.NormalizeIgnoresCaseAndPadding | apps/api/src/ai-yellow-books.controller.ts:57 | queries that differ only in case or in outer white space get the same `toLowerCase().trim()` form |
| Text.CyrillicQueriesFoldCase | apps/api/src/ai-yellow-books.controller.ts:57 | a Cyrillic query in capitals (`ТӨВ`) and in lower case (`төв`) get the same normal form, hence the same cache key |
| Text.NormalizeEmptyIffBlank | apps/api/src/middleware/ai-search.middleware.ts:101 | the normal form is as long as the trimmed query, so it is empty exactly when the query is all white space |
| Text.PrefixCancels | apps/api/src/ai-yellow-books.controller.ts:57 | strings behind a common key prefix are equal exactly when the strings themselves are |
| Text.Join | tools/embed-businesses.ts:22 | `Array.prototype.join(sep)`: the parts with one separator between neighbours (its properties are `JoinLength` and `JoinEmptyIff`) |
| Text.JoinLength | tools/embed-businesses.ts:22 | `join(sep)` puts one separator between each pair of neighbouring parts and nothing else; no parts give `""` |
| Text.JoinEmptyIff | tools/embed-businesses.ts:22 | joining non-empty parts gives `""` only when there are no parts |
| Text.Decimal | apps/api/src/ai-yellow-books.controller.ts:122 | the numeral written for `i + 1` is a non-empty run of digits, one digit long exactly below 10 |
| Text.DecimalRoundTrip | apps/api/src/ai-yellow-books.controller.ts:122 | the numeral reads back as the number, so distinct ranks get distinct labels |
| KeyValue.Lookup | apps/api/src/services/cache.service.ts:45 | GET finds a value exactly when the key is stored, and returns the stored value |
| KeyValue.Put | apps/api/src/services/cache.service.ts:63 | SETEX stores the value with its TTL under the key and leaves every other key as it was |
| KeyValue.LookupAfterPut | apps/api/src/services/cache.service.ts:63 | a GET after a SETEX of the same key returns the written value; other keys read as before |
| KeyValue.Matching | apps/api/src/services/cache.service.ts:77 | KEYS returns exactly the stored keys the pattern matches |
| KeyValue.Without | apps/api/src/services/cache.service.ts:79 | DEL removes exactly the given keys and keeps the values of all others |
| KeyValue.ClearMatchingExact | apps/api/src/services/cache.service.ts:76-80 | after KEYS then DEL, a key reads as a miss exactly when it matches, and the store shrinks by the number matched |
| KeyValue.RedisStore.Get | apps/api/src/ai-yellow-books.controller.ts:59 | GET on the live store returns `Lookup` of its entries |
| KeyValue.RedisStore.SetEx | apps/api/src/ai-yellow-books.controller.ts:141 | SETEX changes the store to `Put` of its old entries |
| KeyValue.RedisStore.Keys | apps/api/src/services/cache.service.ts:77 | KEYS on the live store returns `Matching` of its entries |
| KeyValue.RedisStore.Del | apps/api/src/services/cache.service.ts:79 | DEL leaves `Without` of the old entries and returns how many of the keys existed |
| VectorMath.Cosine | apps/api/src/ai-yellow-books.controller.ts:157-180 | the controller's `cosineSimilarity` as a value: a dimension error on vectors of different lengths, 0 on a zero magnitude, otherwise the dot product over the product of the magnitudes (stated by `CosineGuards`, and the loop is proved equal to it) |
| VectorMath.CosineSimilarity | apps/api/src/ai-yellow-books.controller.ts:157-180 | the one-pass loop accumulates the dot product and both squared magnitudes, and returns exactly `Cosine`: the mismatch error, 0 for a zero magnitude, or the quotient |
| VectorMath.DotSelf | apps/api/src/ai-yellow-books.controller.ts:166-170 | a vector's dot product with itself equals its accumulated squared magnitude |
| VectorMath.DotSymmetric | apps/api/src/ai-yellow-books.controller.ts:166-170 | with a commutative `*`, the dot product does not depend on argument order |
| VectorMath.CosineGuards | apps/api/src/ai-yellow-books.controller.ts:158-179 | the error happens exactly on a length mismatch, and its message is the fixed one; the score is 0 when either magnitude is 0, and otherwise the dot product over the product of the magnitudes |
| VectorMath.CosineSymmetric | apps/api/src/ai-yellow-books.controller.ts:157-180 | with a commutative `*`, the similarity of a to b equals that of b to a |
| VectorMath.CosineOfSelf | apps/api/src/ai-yellow-books.controller.ts:172-179 | a non-zero vector scores against itself as its squared magnitude over the squared root; that is 1 when sqrt and `/` are exact |
| VectorMath.UnguardedCosine | apps/api/src/middleware/ai-search.middleware.ts:20-25 | the middleware's `cosineSimilarity`: the dot product over the query's length divided by the product of the magnitudes, with no guard (its behaviour is stated by the three `Unguarded*` lemmas) |
| VectorMath.UnguardedShorterIsNaN | apps/api/src/middleware/ai-search.middleware.ts:21 | the middleware's score is NaN when the record vector is shorter than the query's |
| VectorMath.UnguardedAgreesWhenGuardsPass | apps/api/src/middleware/ai-search.middleware.ts:20-25 | where the controller's guards do not fire, both similarities are equal |
| VectorMath.UnguardedDiverges | apps/api/src/middleware/ai-search.middleware.ts:20-25 | on a longer record vector the controller throws while the middleware divides a truncated dot product; on a zero magnitude the controller gives 0 while the middleware divides by 0 |
| Ranking.Insert | apps/api/src/ai-yellow-books.controller.ts:106 | inserting one scored record into a ranking adds exactly that record (as a multiset) |
| Ranking.SortBySimilarity | apps/api/src/ai-yellow-books.controller.ts:106 | the sort is a permutation of its input |
| Ranking.TopK | apps/api/src/ai-yellow-books.controller.ts:107 | `slice(0, k)` of the sorted list has `min(k, n)` elements |
| Ranking.Items | apps/api/src/middleware/ai-search.middleware.ts:55 | `map(item => item.business)` keeps the length and takes each record in order |
| Ranking.InsertDescending | apps/api/src/ai-yellow-books.controller.ts:106 | inserting a numeric score into a descending ranking keeps it descending |
| Ranking.SortDescending | apps/api/src/ai-yellow-books.controller.ts:106 | with numeric scores, no later element outranks an earlier one |
| Ranking.WithScoreInsert | apps/api/src/ai-yellow-books.controller.ts:106 | insertion keeps the relative order of the elements with any one score |
| Ranking.SortStable | apps/api/src/ai-yellow-books.controller.ts:106 | equal scores keep their input order, as `Array.prototype.sort` is stable |
| Ranking.TopKDescending | apps/api/src/ai-yellow-books.controller.ts:106-107 | with numeric scores the top k come highest similarity first |
| Ranking.TopKBest | apps/api/src/ai-yellow-books.controller.ts:106-107 | the top k are drawn from the input and ranked highest first, and nothing left out outranks anything kept |
| Ranking.TopKDrawn | apps/api/src/middleware/ai-search.middleware.ts:52-54 | each of the top k is one of the ranked elements |
| Directory.OrEmpty | scripts/generate-embeddings.ts:31 | `x \|\| ''` on a nullable column is its value when present and `""` when null |
| Directory.Select | apps/api/src/ai-yellow-books.controller.ts:74-80 | `findMany({ where })` returns exactly the rows satisfying the filter and is no longer than the table |
| Directory.SelectKeepsUniqueIds | apps/api/src/ai-yellow-books.controller.ts:74-80 | the rows `findMany` returns have distinct ids when the table does |
| Directory.SetEmbedding | tools/embed-businesses.ts:73-76 | `update` sets the embedding of the row with that id and changes no other row or column |
| Directory.Backfilled | tools/embed-businesses.ts:61-89 | updating the processed records in turn keeps the table's length and every row's id |
| Directory.BackfilledOnlyEmbedding | tools/embed-businesses.ts:73-76 | a backfill changes no column of any row except the embedding |
| Directory.BackfilledWritten | scripts/generate-embeddings.ts:52-79 | with distinct ids, a row whose record was processed and whose update went through holds what was written for it |
| Directory.BackfilledUntouched | scripts/generate-embeddings.ts:52-79 | a row for which no processed record had a value written is exactly as it was |
| Directory.Written | scripts/generate-embeddings.ts:65 | the success count never exceeds the number of records processed |
| Directory.SelectedStillThere | tools/embed-businesses.ts:73-76 | a selected record can still be found by its id after any number of earlier updates |
| Directory.BackfillStep | scripts/generate-embeddings.ts:52-79 | one more processed record extends the count and the table by exactly that record's effect |
| Directory.YellowBookTable.FindMany | apps/api/src/ai-yellow-books.controller.ts:74-80 | the query on the live table returns `Select` of its rows |
| Directory.YellowBookTable.Update | tools/embed-businesses.ts:73-76 | the update succeeds exactly when the id exists and the database accepts the write, and then applies `SetEmbedding`; otherwise nothing changes |
| YellowBooksController.CacheKeyShared | apps/api/src/ai-yellow-books.controller.ts:57 | two queries share a cache key exactly when their lower-cased, trimmed forms agree |
| YellowBooksController.FromCache | apps/api/src/ai-yellow-books.controller.ts:58-64 | the cache step: without Redis nothing is read; a failed GET is an error; a non-empty entry is the parsed stored response; an empty or missing one is a miss (stated by `AnsweredFromCache`) |
| YellowBooksController.Scoring | apps/api/src/ai-yellow-books.controller.ts:84-103 | a scored record carries all its columns except the embedding, and a score that is the guarded cosine of the query and its parsed embedding |
| YellowBooksController.ScoreAll | apps/api/src/ai-yellow-books.controller.ts:83-105 | `map` then `filter`: the records with a truthy embedding scored in order, the first failure failing the whole step (stated by the four `ScoreAll*` lemmas) |
| YellowBooksController.MismatchedVectorFails | apps/api/src/ai-yellow-books.controller.ts:83-105 | a stored vector whose length differs from the query vector's makes the scoring, and so the search, fail |
| YellowBooksController.ScoreAllSucceeds | apps/api/src/ai-yellow-books.controller.ts:83-105 | scoring succeeds exactly when every record with a truthy embedding scores |
| YellowBooksController.ScoreAllValues | apps/api/src/ai-yellow-books.controller.ts:83-105 | on success the scores are those of the records with a truthy embedding, one for one and in order |
| YellowBooksController.ScoreAllFails | apps/api/src/ai-yellow-books.controller.ts:83-105 | a failure is the error of some record with a truthy embedding |
| YellowBooksController.ScoreAllNone | apps/api/src/ai-yellow-books.controller.ts:83-105 | when no record has a truthy embedding, nothing is scored and nothing fails |
| YellowBooksController.ScoresCarried | apps/api/src/ai-yellow-books.controller.ts:102 | every listing carries the score it is ranked by, and that score is a number whenever no division yields NaN |
| YellowBooksController.UserMessage | apps/api/src/ai-yellow-books.controller.ts:119-124 | the chat request's user message: the question in quotes, then the numbered entries separated by blank lines (stated by `Entries` and `EntryNumbered`) |
| YellowBooksController.Entries | apps/api/src/ai-yellow-books.controller.ts:119-124 | there is one context entry per ranked record |
| YellowBooksController.EntryNumbered | apps/api/src/ai-yellow-books.controller.ts:122 | the i-th entry opens with the numeral of i + 1, which reads back as i + 1 |
| YellowBooksController.AnswerText | apps/api/src/ai-yellow-books.controller.ts:131 | the answer is the model's content when non-empty, otherwise `No answer available`, so it is never empty |
| YellowBooksController.Compute | apps/api/src/ai-yellow-books.controller.ts:66-137 | the miss path as a value: embed the query, fetch, score, keep the top five, ask the chat model (stated by `RankedFromRecords`, `ListedRecord`, `ComputedAnswer` and `GeneratesWithoutMatches`; `ComputeAnswer` is proved equal to it) |
| YellowBooksController.ComputeAnswer | apps/api/src/ai-yellow-books.controller.ts:66-137 | the miss path (embed, fetch, score, rank, ask) returns exactly `Compute` of the query and the table |
| YellowBooksController.Respond | apps/api/src/ai-yellow-books.controller.ts:41-153 | the whole handler as a value of the query, the key setting, the Redis contents and the miss path: its reply and the new Redis contents (stated by the lemmas from `RejectsBlankQuery` to `RepeatedSearchHits`; `Search` is proved equal to it) |
| YellowBooksController.Search | apps/api/src/ai-yellow-books.controller.ts:41-153 | the reply and the new Redis contents are those `Respond` gives, with the real pipeline as the miss path; without Redis nothing is stored |
| YellowBooksController.RejectsBlankQuery | apps/api/src/ai-yellow-books.controller.ts:44-46 | the reply is 400 `Query is required` exactly when the query is missing or only white space |
| YellowBooksController.PastValidation | apps/api/src/ai-yellow-books.controller.ts:44-46 | a query that is not blank after trimming never gets the 400 reply, whatever the cache, the key or the pipeline |
| YellowBooksController.KeyCheckedBeforeCache | apps/api/src/ai-yellow-books.controller.ts:48-53 | without an API key a non-blank query gets 503 and the cache is not touched, whatever it holds |
| YellowBooksController.AnsweredFromCache | apps/api/src/ai-yellow-books.controller.ts:58-64 | a non-empty entry under the key is returned parsed, with `cached: true`, whatever the pipeline would compute, and the cache does not change |
| YellowBooksController.CacheWrittenOnlyWithAnswer | apps/api/src/ai-yellow-books.controller.ts:139-152 | the cache changes only by a one-hour write of a freshly computed answer under the query's key; every error leaves it as it was, is 400, 500 or 503, and a 500 starts with `AI search failed: `; without Redis nothing is stored |
| YellowBooksController.SameNormalForm | apps/api/src/ai-yellow-books.controller.ts:44-57 | queries with the same normal form share a key and are blank together |
| YellowBooksController.RepeatedSearchHits | apps/api/src/ai-yellow-books.controller.ts:58-143 | after an answered search with Redis, a query with the same normal form is answered from the cache with the same response, now marked cached, provided the response survives JSON |
| YellowBooksController.RankedFromRecords | apps/api/src/ai-yellow-books.controller.ts:74-107 | the ranking has `min(5, n)` listings, n being the number of records with an embedding; each listing shows a stored record with an embedding |
| YellowBooksController.ListedRecord | apps/api/src/ai-yellow-books.controller.ts:83-107 | each of the top five shows a fetched record with a truthy embedding |
| YellowBooksController.RankedDescending | apps/api/src/ai-yellow-books.controller.ts:106 | when no division yields NaN, listings come highest similarity first |
| YellowBooksController.ComputedAnswer | apps/api/src/ai-yellow-books.controller.ts:131-137 | a computed response has a non-empty answer, `cached: false`, at most five listings, and those listings are the ranking |
| YellowBooksController.GeneratesWithoutMatches | apps/api/src/ai-yellow-books.controller.ts:110-137 | with no embedded record the chat model is still asked; the request succeeds exactly when it answers, with no listings |
| AiSearchMiddleware.RetryDelay | apps/api/src/middleware/ai-search.middleware.ts:13-16 | the reconnect delay is `50 × times` up to 40 attempts and 2000 ms from then on, never more, and there is no give-up |
| AiSearchMiddleware.RetryDelayMonotone | apps/api/src/middleware/ai-search.middleware.ts:14 | later attempts never wait less |
| AiSearchMiddleware.Details | apps/api/src/middleware/ai-search.middleware.ts:148 | the details are an `Error`'s message, otherwise `Unknown error` |
| AiSearchMiddleware.Accepted | apps/api/src/middleware/ai-search.middleware.ts:94 | `!query \|\| typeof query !== 'string'` negated: a non-empty string is accepted, white space only included (stated by `RejectsMissingQuery`) |
| AiSearchMiddleware.ScoreEach | apps/api/src/middleware/ai-search.middleware.ts:46-50 | every fetched record's stored vector parsed and scored, in order, the first parse failure failing the step (stated by `ScoreEachMeaning`) |
| AiSearchMiddleware.ScoreEachMeaning | apps/api/src/middleware/ai-search.middleware.ts:46-50 | scoring succeeds exactly when every fetched embedding parses; then each record keeps its place with the unguarded cosine as its score |
| AiSearchMiddleware.FindSimilarBusinesses | apps/api/src/middleware/ai-search.middleware.ts:37-56 | the records with a non-null embedding, scored, sorted highest first and cut to `limit` (stated by `FoundAmongRecords`, `FoundRecord` and `FoundBestFirst`) |
| AiSearchMiddleware.FoundAmongRecords | apps/api/src/middleware/ai-search.middleware.ts:37-56 | `findSimilarBusinesses` returns `min(limit, n)` records, n being the number with a non-null embedding, each a stored record with an embedding |
| AiSearchMiddleware.FoundRecord | apps/api/src/middleware/ai-search.middleware.ts:52-55 | each of the top records is one of the fetched records |
| AiSearchMiddleware.FoundBestFirst | apps/api/src/middleware/ai-search.middleware.ts:52-55 | when no score is NaN, the records are the top `limit` by similarity, highest first, and none left out outranks one returned |
| AiSearchMiddleware.ContextEntries | apps/api/src/middleware/ai-search.middleware.ts:63-68 | there is one context entry per record found |
| AiSearchMiddleware.ContextEntryNumbered | apps/api/src/middleware/ai-search.middleware.ts:66 | the i-th entry opens with the numeral of i + 1, which reads back as i + 1 |
| AiSearchMiddleware.UserPrompt | apps/api/src/middleware/ai-search.middleware.ts:63-80 | the chat request's user message: the query in quotes, the numbered entries separated by blank lines, then the closing request (stated by `ContextEntries` and `ContextEntryNumbered`) |
| AiSearchMiddleware.GenerateAIResponse | apps/api/src/middleware/ai-search.middleware.ts:59-88 | it succeeds exactly when the completion does, never with an empty answer, and otherwise passes the thrown error on |
| AiSearchMiddleware.Summaries | apps/api/src/middleware/ai-search.middleware.ts:127-136 | the response lists one projection per record found, in rank order, with the eight listed columns |
| AiSearchMiddleware.Handle | apps/api/src/middleware/ai-search.middleware.ts:90-151 | the whole handler as a value of the query, the Redis contents and the search and generation steps: its reply and the new Redis contents (stated by the lemmas from `RejectsMissingQuery` to `CacheKeyShared`; `SearchWithAI` is proved equal to it) |
| AiSearchMiddleware.SearchWithAI | apps/api/src/middleware/ai-search.middleware.ts:90-151 | the reply and the new Redis contents are those `Handle` gives, with the real similarity search and generation |
| AiSearchMiddleware.Similar | apps/api/src/middleware/ai-search.middleware.ts:110-113 | embed the query, fetch the records and find the similar ones; a failing embedding or fetch is the step's error (`FindSimilar` is proved equal to it) |
| AiSearchMiddleware.FindSimilar | apps/api/src/middleware/ai-search.middleware.ts:110-113 | embedding the query and searching the table returns exactly `Similar` |
| AiSearchMiddleware.RejectsMissingQuery | apps/api/src/middleware/ai-search.middleware.ts:94-96 | 400 exactly when the query is missing, not a string or empty; a query of white space alone is accepted; a 400 leaves the cache alone |
| AiSearchMiddleware.AnsweredFromCache | apps/api/src/middleware/ai-search.middleware.ts:102-107 | a non-empty entry under the key is sent as parsed, with no flag added, whatever the search would find, and the cache does not change |
| AiSearchMiddleware.NothingFoundNotCached | apps/api/src/middleware/ai-search.middleware.ts:115-120 | when nothing is found the fixed apology is sent with no records; the result does not depend on the generator, and nothing is cached |
| AiSearchMiddleware.CacheWrittenOnlyWithAnswer | apps/api/src/middleware/ai-search.middleware.ts:123-150 | the cache changes only by a one-hour write, under the query's key, of a generated answer listing at least one record; anything other than 200 is 400 or 500 and leaves the cache alone, and a 500 carries `Failed to process AI search` with details |
| AiSearchMiddleware.RepeatedSearchHits | apps/api/src/middleware/ai-search.middleware.ts:101-140 | after a search that sent records, a query with the same normal form gets the very same reply from the cache, provided the body survives JSON |
| AiSearchMiddleware.WrittenAfterMiss | apps/api/src/middleware/ai-search.middleware.ts:140 | a search that missed the cache and sent records leaves its body under its key |
| AiSearchMiddleware.CacheKeyShared | apps/api/src/middleware/ai-search.middleware.ts:101 | two queries share a cache key exactly when their lower-cased, trimmed forms agree |
| CacheService.RetryStrategy | apps/api/src/services/cache.service.ts:13-19 | it gives up exactly when `times > 3`; otherwise the delay is `100 × times`, so the 3000 cap is never reached |
| CacheService.CachedValue | apps/api/src/services/cache.service.ts:44-52 | a missing or empty entry reads as null, and a non-empty one reads as its parsed value |
| CacheService.CachedAfterCaching | apps/api/src/services/cache.service.ts:63 | whatever `cacheResponse` stores, `getCachedResponse` reads back when the JSON round-trips; other keys read as before |
| CacheService.CachedAfterClear | apps/api/src/services/cache.service.ts:72-85 | after `clearCache`, a matching key reads as a miss and every other key as before |
| CacheService.Cache.constructor | apps/api/src/services/cache.service.ts:7 | the client variable starts out null |
| CacheService.Cache.GetRedisClient | apps/api/src/services/cache.service.ts:9-35 | an existing client is reused; otherwise one is created and kept exactly when construction succeeds |
| CacheService.Cache.GetCachedResponse | apps/api/src/services/cache.service.ts:40-53 | with no client, or when GET fails, the result is null; otherwise it is `CachedValue` of the store |
| CacheService.Cache.CacheResponse | apps/api/src/services/cache.service.ts:58-67 | with a client and no failure the JSON text is stored for 1800 s; otherwise the store is unchanged and nothing is reported |
| CacheService.Cache.ClearCache | apps/api/src/services/cache.service.ts:72-85 | with a client and no failure, exactly the matching keys are deleted and their number returned; otherwise 0 and nothing changes |
| ApiAuth.RequireRole | apps/api/src/middleware/auth.ts:16-36 | the request goes on exactly when there is a user whose role is a listed string (`includes` is strict, so a number or boolean role never matches); no user gives 401, and any other role gives 403 naming the roles joined by ` or ` |
| ApiAuth.RequireAdminExact | apps/api/src/middleware/auth.ts:78 | `requireAdmin` lets through exactly the users whose role is `admin`; other users get 403 naming `admin` |
| ApiAuth.Split | apps/api/src/middleware/auth.ts:58 | `split('.')` gives at least one piece, and no piece contains a dot |
| ApiAuth.SplitJoin | apps/api/src/middleware/auth.ts:58 | joining the pieces with the separator restores the string |
| ApiAuth.JoinSplit | apps/api/src/middleware/auth.ts:58 | pieces free of the separator, once joined, split back exactly |
| ApiAuth.PayloadOfJwt | apps/api/src/middleware/auth.ts:58 | for `header.payload.signature` the payload segment is `payload` |
| ApiAuth.Member | apps/api/src/middleware/auth.ts:61-63 | `decoded.name` is defined exactly when the parsed payload is an object with that own property |
| ApiAuth.UserOf | apps/api/src/middleware/auth.ts:58-64 | a payload that parses to `null` throws on member access; otherwise the id is `decoded.id` if truthy (under JavaScript truthiness, of any JSON type), else `decoded.sub`; the email is `decoded.email`; the role is `decoded.role` if truthy, else `user`, and so is always truthy |
| ApiAuth.IdKeepsItsType | apps/api/src/middleware/auth.ts:61 | a numeric id stays a number, and an id of `0`, being falsy, gives way to `sub` |
| ApiAuth.ClaimsOf | apps/api/src/middleware/auth.ts:52-58 | the payload is read from the second dot-separated segment of the token after `Bearer `; no such segment, or a decoding that throws, gives nothing |
| ApiAuth.AuthRequest.AuthenticateUser | apps/api/src/middleware/auth.ts:42-73 | a missing or non-Bearer header gives 401 and leaves the user unset; an unreadable token, or one whose payload is `null`, gives 401 `Invalid token`; otherwise the user is set from the payload and the request goes on |
| ApiAuth.AuthenticatedRole | apps/api/src/middleware/auth.ts:63 | an authenticated request passes `requireRole` exactly when its payload's truthy role is a listed string, or, when the role is missing or falsy, when `user` is listed |
| ApiAuth.NonStringRoleForbidden | apps/api/src/middleware/auth.ts:27 | a truthy role that is not a string (a number, `true`, an array) gets 403 whatever roles are required |
| ApiAuth.CsrfProtection | apps/api/src/middleware/auth.ts:84-101 | 403 `CSRF token missing` exactly for POST, PUT, DELETE or PATCH without a truthy token header; every other request goes on |
| WebAuth.GetCurrentUser | apps/web/src/lib/auth.ts:8-11 | the session's user, or nothing when there is no session or no user |
| WebAuth.RequireAuth | apps/web/src/lib/auth.ts:13-19 | it returns the session's user, and throws `Unauthorized` exactly when there is none |
| WebAuth.RequireAdmin | apps/web/src/lib/auth.ts:21-27 | it returns the same user exactly when the role is `admin`; no user throws `Unauthorized`, and any other role throws the admin error |
| WebAuth.AdminImpliesAuth | apps/web/src/lib/auth.ts:21-27 | whoever `requireAdmin` admits, `requireAuth` admits with the same user; `requireAdmin` rejects exactly the authenticated non-admins beyond that |
| AuthErrorPage.ErrorMessage | apps/web/src/app/auth/error/page.tsx:30 | a listed code shows its table entry; an absent, empty or unlisted code shows the default message; the message is always one of the table's |
| AuthErrorPage.ShowNotLinkedNotice | apps/web/src/app/auth/error/page.tsx:48 | the notice shows exactly when the code is `OAuthAccountNotLinked` |
| AuthErrorPage.ErrorCodeBox | apps/web/src/app/auth/error/page.tsx:57-63 | the box shows exactly when the code is present and non-empty, and repeats it after `Error code: ` |
| AuthErrorPage.NoticeComesWithCode | apps/web/src/app/auth/error/page.tsx:48-63 | a page with the notice also shows the code box, naming `OAuthAccountNotLinked` |
| AuthErrorPage.NoticeComesWithMessage | apps/web/src/app/auth/error/page.tsx:30-50 | a page with the notice shows the not-linked message, which is not the default one |
| AuthErrorPage.PropertyOf | apps/web/src/app/auth/error/page.tsx:30 | a property read on the table finds an own entry, else an inherited `Object.prototype` member, else undefined |
| AuthErrorPage.InheritedLookupCounterexample | apps/web/src/app/auth/error/page.tsx:30 | the lookup as written agrees with `ErrorMessage` except on inherited member names; for `?error=toString` it yields a function instead of the default message |
| EmbedBusinesses.EmbeddingParts | tools/embed-businesses.ts:13-21 | at most five parts are kept, none of them empty |
| EmbedBusinesses.GenerateEmbeddingText | tools/embed-businesses.ts:13-23 | pushing the present fields and joining them gives `EmbeddingText` |
| EmbedBusinesses.EmbeddingText | tools/embed-businesses.ts:13-23 | name, category, city, state and description, those that are present, joined by single spaces (stated by `EmbeddingTextShape` and `EmbeddingTextStartsWithName`) |
| EmbedBusinesses.EmbeddingTextShape | tools/embed-businesses.ts:16-22 | the text is empty exactly when none of the five fields is present; otherwise its length is that of the fields plus one space between each pair |
| EmbedBusinesses.EmbeddingTextStartsWithName | tools/embed-businesses.ts:16 | a record with a name is embedded under a text that opens with that name |
| EmbedBusinesses.WrittenBy | tools/embed-businesses.ts:67-76 | what one record's pass writes to its embedding column: `store` of the embedded vector (the raw array is handed over; see "Left out"), or nothing when embedding or the update fails |
| EmbedBusinesses.EmbedOne | tools/embed-businesses.ts:62-88 | one record's pass succeeds exactly when its text embeds and the update is accepted, and only then is its embedding column set to the stored vector |
| EmbedBusinesses.EmbedAllBusinesses | tools/embed-businesses.ts:42-103 | only records with a null embedding are processed; successes plus errors equal their number; successes are the records whose embedding and update went through, and the table holds those updates; there is one pause per success except after the last record; a failing `findMany` does nothing |
| GenerateEmbeddings.CreateBusinessText | scripts/generate-embeddings.ts:29-35 | the record's columns in a one-line template (stated by the three `CreateBusinessText*` lemmas) |
| GenerateEmbeddings.CreateBusinessTextOpensWithName | scripts/generate-embeddings.ts:29-35 | the text opens with `<name> - <category>. ` |
| GenerateEmbeddings.CreateBusinessTextLength | scripts/generate-embeddings.ts:29-35 | every field appears whole and the template adds 25 characters of its own |
| GenerateEmbeddings.CreateBusinessTextNullIsEmpty | scripts/generate-embeddings.ts:31-34 | a null description, website or email renders as the empty string |
| GenerateEmbeddings.WrittenBy | scripts/generate-embeddings.ts:54-63 | what one record's pass writes to its embedding column: the JSON text of the embedded vector, or nothing when embedding or the update fails |
| GenerateEmbeddings.EmbedOne | scripts/generate-embeddings.ts:53-78 | one record's pass succeeds exactly when its text embeds and the update is accepted, and only then is its embedding column set to the vector's JSON text |
| GenerateEmbeddings.GenerateAll | scripts/generate-embeddings.ts:37-87 | only records whose embedding is null or `''` are processed; processed plus errors equal their number; processed counts the successful updates, and the table holds them; every success is followed by a pause; a failing `findMany` does nothing |

## Left out

- Floating-point arithmetic is not modelled. `+`, `*`, `Math.sqrt` and `/` are uninterpreted operations of a `Float` value, and a score is a real number or NaN. Rounding, infinities and the value of any similarity are outside the model.
- YellowBooksController.RankedDescending: proved only under the premise that no division yields NaN. Under IEEE arithmetic the controller's guards rule out `0/0`; the only NaN left would come from overflowing sums.
- AiSearchMiddleware.FoundBestFirst: proved only when no division yields NaN and every stored vector is at least as long as the query's. A shorter vector gives NaN, and a NaN score makes the comparator return NaN. The resulting order is the one the model's insertion sort gives, not necessarily the engine's.
- Ranking.SortBySimilarity: a stable insertion sort that treats a NaN comparison as "not before". V8's TimSort gives the same order whenever the scores are numbers; with NaN scores the two may differ.
- The OpenAI and Gemini embedding and chat calls, Prisma's queries and Redis commands are parameters. So are `JSON.parse`, `JSON.stringify` and the base64 decoding of a token. Their failures carry the thrown message (`Thrown` in the middleware).
- Text.LowerChar: lower-cases the ASCII and Latin-1 capitals, the basic Cyrillic capitals (U+0400..U+042F, so Ё too) and the Mongolian Ү and Ө, each to one code point. JavaScript's `toLowerCase` covers every script and maps a few characters to two code points (`İ`, U+0130, becomes `i` plus a combining dot). Those other scripts and those one-to-many mappings are not modelled, so `ToLower` keeps the length of its input.
- The glob semantics of Redis KEYS are an abstract predicate on keys.
- TTL expiry is not modelled, only the TTL each write stores. Redis connection events, reconnection and the sleeps between attempts are out too: `RetryStrategy` and `RetryDelay` compute the delays but nothing waits. The same goes for the pauses of the embedding scripts, which are counted but never waited out.
- All console logging is left out. Process exit codes and `prisma.$disconnect` are also out.
- The system prompts and the model options (temperature, token limit) of the chat requests are constants of the services, not modelled. Only the user message is built.
- A non-string query in the controller (`query.trim` on a number) throws before the `try` block and is left to the framework. The controller's query is modelled as a string or nothing.
- apps/api/src/services/ai.service.ts is not part of this model: it is a thin wrapper over the Gemini SDK.
- The UI pages, the route handlers, the seed data and the setup scripts are not part of this model.
- Cache writes are not best-effort. Both handlers `await` SETEX inside their `try`, so a failed write turns an answer that was already computed into a 500. The model keeps that (`CacheWrittenOnlyWithAnswer` in both modules).
- The controller does not skip generation when nothing matches. It asks the chat model with an empty list of businesses (`YellowBooksController.GeneratesWithoutMatches`). Only the middleware answers without generating in that case.
- The middleware does not reject a query made only of white space. Its check is `!query`, which a non-empty blank string passes (`AiSearchMiddleware.RejectsMissingQuery`). The controller trims before it checks.
- EmbedBusinesses.WrittenBy: the type of the embedding column is not part of this model; the Prisma schema is not among the modelled files. The script hands the database the raw number array (`embedding as any`), whereas `generate-embeddings` writes `JSON.stringify` and both searches `JSON.parse` the column. `store` stands for whatever text the column keeps for that array, and a database that refuses an array is `updateFails`, which makes every update an error. The script also embeds with Gemini's `embedding-001`, while the searches embed queries with OpenAI's `text-embedding-ada-002`. Vectors of different lengths make every controller search fail (`YellowBooksController.MismatchedVectorFails`), and they make the middleware's scores NaN or computed over a truncated vector (`VectorMath.UnguardedDiverges`).
- CacheService.RetryStrategy: the `Math.min(..., 3000)` cap is modelled, but because the strategy gives up after three retries it can never apply.

## Findings

| source | as written | input that shows it | evidently intended | confidence | as-written member | corrected member |
|---|---|---|---|---|---|---|
| apps/web/src/app/auth/error/page.tsx:30 | `errorMessages[error] \|\| errorMessages.default` reads a plain object literal, so a code naming an inherited `Object.prototype` member finds that member, which is truthy | `?error=toString` (likewise `constructor`, `valueOf`, `__proto__`): the page gets a function or an object instead of a message | an unlisted code shows the default message | not executed; follows from JavaScript's property lookup | AuthErrorPage.InheritedLookupCounterexample | AuthErrorPage.ErrorMessage |
