# Downtime-Matcher in Dafny

Downtime-Matcher is a lookup service for manufacturing downtime codes. Each code
(such as `D17`) names a fault. It carries a description, the machine concerned
and a fault type. The server keeps the codes in one Postgres table,
`downtime_codes`. It lists them, searches them case-insensitively and accepts new
ones. At start-up it seeds an empty table with a fixed list of 89 codes. The web
client filters the fetched codes as the user types. It also offers a form to
register a code.

This project models that logic and proves what it promises:

- `Schema` (schema.dfy): the row and insert shapes and the column constraints.
  These are the primary key, the unique `code`, and the varchar widths of 50 and
  100. It also holds how Postgres stores a string in a `varchar(n)` column.
- `Storage` (storage.dfy): the `DatabaseStorage` class. It owns the table's rows
  in insertion order and the next value of the serial `id` sequence. Search is a
  function of that state and goes through an explicit model of `ILIKE`. Create is
  a method that appends a row and draws from the sequence.
- `SqlLike` (sql_like.dfy): Postgres `LIKE`/`ILIKE` with `%`, `_` and the
  default `\` escape.
- `Seeds` (seeds.dfy): the 89 seed entries, column by column, with proofs that
  their codes are pairwise distinct and fit their columns.
- `ServerRoutes` (server_routes.dfy): the list handler, the create handler and
  seed-if-empty.
- `SharedRoutes` (shared_routes.dfy): the shared endpoint path, the body of a
  validation error and `buildUrl`. `buildUrl` includes the `$` patterns that
  `String.prototype.replace` interprets in its replacement string.
- `Home` (home.dfy): the search page's `filteredResults` and its "match"/"matches"
  count label.
- `DowntimeHooks` (hooks.dfy): the list query's cache key and URL, and how the
  list query and the create mutation read HTTP answers.
- `DowntimeCodeCard` (card.dfy): `getCategoryColor`. It sums UTF-16 code units
  and picks one of five palette entries.
- `Exchange` (exchange.dfy): the create path followed from the client's input
  through the server handler and back.
- `Text` (text.dfy), `Seqs` (seqs.dfy) and `Wrappers` (wrappers.dfy): JavaScript
  string operations (`toLowerCase`, `includes`, `indexOf`, `trim`, `String(n)`),
  `Array.prototype.filter`, and `Option`/`Result`.

The list and create endpoints are declared with the same literal path
(`/api/downtime-codes`, shared/routes.ts:21,31). The model defines it once, as
`SharedRoutes.DowntimeCodesPath`. The list key, the list URL, the invalidated key
and the URL of the create request all use it.

Three behaviours of the code are easy to miss. The model keeps them:

- Search wraps the query in `%...%` without escaping it and matches with
  `ILIKE` (server/storage.ts:18-23). So `%`, `_` and `\` in a query are pattern
  characters, not text. `Storage.PercentQueryListsAll` and
  `Storage.UnderscoreQueryMatchesAnyCharacter` show this. Search is a
  case-insensitive substring match only for queries without those three
  characters (`Storage.SearchIsSubstringMatch`).
- After seeding, searching for "spring" finds D63 ("CUTTER SPRING CUT",
  server/routes.ts:99) as well as D17 (server/routes.ts:53). See
  `ServerRoutes.SpringSearchFindsD17AndD63`.
- The insert schema (shared/schema.ts:13) adds no non-empty rule. So an empty
  `code` is not a validation error. Validation is an input (`Schema.Validation`)
  and is not derived from the columns.

## Model

| member | source | states |
|---|---|---|
| Schema.InsertShapeIsRecordWithoutId | Downtime-Matcher/shared/schema.ts:13 | the insert shape is the row without its id: converting either way and back loses nothing |
| Schema.AssignVarchar | Downtime-Matcher/shared/schema.ts:7-10 | a string fits a varchar(n) column iff it is at most n long or everything past n is spaces; the stored value is the input when it fits and exactly its first n characters when the excess is spaces |
| Schema.EnumeratedTableValid | Downtime-Matcher/shared/schema.ts:6-10 | rows inserted one after another with pairwise distinct codes that fit the columns, under consecutive ids, satisfy the primary key, the unique code and the widths |
| Storage.StoredRow | Downtime-Matcher/shared/schema.ts:7-10 | the row is built iff code, machine and type can each be assigned to their varchar columns, and it is then the input under the given id with each of those three values as assigned; the code column rejects the insert iff the code cannot be assigned to varchar(50); a stored row always fits |
| Storage.InsertOutcome | Downtime-Matcher/server/storage.ts:33 | a length error of the row is the insert's error; once the row is built, the result is that row when its stored code is free and a violation of downtime_codes_code_unique when it is taken; a success fits and its code no row has |
| Storage.InsertKeepsInvariant | Downtime-Matcher/shared/schema.ts:6-10 | a successful insert under an id above all existing ones keeps unique ids, unique codes and the widths |
| Storage.DatabaseStorage.constructor | Downtime-Matcher/server/storage.ts:38 | the store starts with an empty table and a sequence at 1, and satisfies the table invariant |
| Storage.DatabaseStorage.GetAllDowntimeCodes | Downtime-Matcher/server/storage.ts:28-30 | every row of the table, in table order; nothing changes |
| Storage.DatabaseStorage.SearchDowntimeCodes | Downtime-Matcher/server/storage.ts:16-26 | the empty query returns exactly what GetAllDowntimeCodes returns; any other query returns the rows whose code, description or machine is ILIKE the pattern; the result is an ordered sub-sequence and sub-multiset of the table |
| Storage.DatabaseStorage.CreateDowntimeCode | Downtime-Matcher/server/storage.ts:32-35 | the result is the insert outcome; on success the table grows by exactly the returned row, whose id is above every earlier id; on failure, in particular for a code already taken, the table is unchanged; the sequence advances iff every value could be assigned to its column, a unique violation included; the invariant is kept |
| Storage.ILikeSearchPatternIsContains | Downtime-Matcher/server/storage.ts:18-23 | for a query without `%`, `_` or `\`, ILIKE against the search pattern is substring containment after lower-casing |
| Storage.SearchIsSubstringMatch | Downtime-Matcher/server/storage.ts:18-25 | for a non-empty plain query, a row is found iff the lower-cased query occurs in its lower-cased code, description or machine; the type is not consulted |
| Storage.SearchIgnoresCase | Downtime-Matcher/server/storage.ts:18-23 | queries that differ only in letter case return the same rows in the same order |
| Storage.PercentQueryListsAll | Downtime-Matcher/server/storage.ts:18 | the query "%" lists the whole table, because it is not escaped |
| Storage.UnderscoreQueryMatchesAnyCharacter | Downtime-Matcher/server/storage.ts:18 | the query "_" finds exactly the rows with a non-empty code, description or machine |
| SqlLike.LikeInfixIsContains | Downtime-Matcher/server/storage.ts:18 | a pattern `%p%` with plain p matches exactly the strings that contain p |
| Seeds.SeedList | Downtime-Matcher/server/routes.ts:36-126 | the 89 seed entries in listed order, entry i being the i-th listed code with its description, machine and type |
| Seeds.SeedCodesDistinct | Downtime-Matcher/server/routes.ts:36-126 | no two seed entries share a code |
| Seeds.SeedsFitColumns | Downtime-Matcher/server/routes.ts:36-126 | every seed entry fits the varchar widths |
| Seeds.SeedCodesNumberedLow | Downtime-Matcher/server/routes.ts:37-80 | the number after the leading letter of the i-th of the first 44 seed codes is i + 1 |
| Seeds.SeedCodesNamedLow | Downtime-Matcher/server/routes.ts:37-80 | the first 44 seed codes are exactly "D1" to "D44" in order |
| Seeds.SeedCodesNumberedHigh | Downtime-Matcher/server/routes.ts:81-125 | the number after the leading letter of each remaining seed code is 45 to 87 in order, then 1140 and 1320 |
| Seeds.SeedCodesNamedHigh | Downtime-Matcher/server/routes.ts:81-125 | the remaining seed codes are exactly "D45" to "D87" in order, then "D1140" and "D1320" |
| Seeds.SeededTable | Downtime-Matcher/server/routes.ts:36-130 | the rows seeding produces hold 89 entries and satisfy every table constraint |
| ServerRoutes.ListQuery | Downtime-Matcher/server/routes.ts:12-13 | the storage query is empty iff the search parameter is absent or empty, and is the parameter otherwise |
| ServerRoutes.HandleList | Downtime-Matcher/server/routes.ts:11-15 | the answer is 200 with the storage search for the parameter; an absent or empty search returns the whole table |
| ServerRoutes.JoinPath | Downtime-Matcher/server/routes.ts:26 | an empty path joins to "" and a one-segment path to that segment |
| ServerRoutes.JoinPathAppend | Downtime-Matcher/server/routes.ts:26 | each further segment is joined to the rest with one "." |
| ServerRoutes.ValidationFailureBody | Downtime-Matcher/server/routes.ts:24-27 | the 400 body carries the first issue's message and, as its field, the first issue's path joined with "." ("" for an empty path, "code" for the path [code]) |
| ServerRoutes.HandleCreate | Downtime-Matcher/server/routes.ts:17-31 | invalid input gives 400 with the first issue and leaves storage untouched; valid input gives 201 with the inserted row, or rethrows the storage error; 400 happens iff validation failed; exactly one row is persisted on 201 and none otherwise; the sequence is untouched on 400 and otherwise advances iff the values fit their columns |
| ServerRoutes.SeedIfEmpty | Downtime-Matcher/server/routes.ts:33-131 | a non-empty table is left untouched; an empty table ends up holding exactly the seed list in order, with every insert succeeding, and the sequence advances by 89 |
| ServerRoutes.SpringSearchFindsD17AndD63 | Downtime-Matcher/server/routes.ts:53 | after seeding, searching for "spring" finds the D17 row and also the D63 row (routes.ts:99) |
| SharedRoutes.ParamString | Downtime-Matcher/shared/routes.ts:46 | a number parameter is written without any `$` or `:` |
| SharedRoutes.SubstituteVerbatim | Downtime-Matcher/shared/routes.ts:46 | a replacement without `$` is inserted verbatim |
| SharedRoutes.ReplaceFirst | Downtime-Matcher/shared/routes.ts:46 | an absent pattern leaves the string unchanged; a present one is replaced at its first occurrence only, with the text before and after kept, by the replacement after its `$$`, `$&`, `` $` `` and `$'` patterns are expanded against that occurrence |
| SharedRoutes.Step | Downtime-Matcher/shared/routes.ts:45-47 | a key whose placeholder does not occur leaves the url unchanged |
| SharedRoutes.BuildUrl | Downtime-Matcher/shared/routes.ts:41-51 | without params the result is the path; otherwise it is the path after every entry has been applied in order |
| SharedRoutes.NoParamsKeepPath | Downtime-Matcher/shared/routes.ts:42-50 | an empty parameter object returns the path |
| SharedRoutes.ApplyParamsAppend | Downtime-Matcher/shared/routes.ts:44-48 | entries apply in order, each to the url the earlier ones produced |
| SharedRoutes.NoColonPathUnchanged | Downtime-Matcher/shared/routes.ts:44-50 | a path without `:` is returned unchanged for any params |
| SharedRoutes.ReplacesFirstOccurrence | Downtime-Matcher/shared/routes.ts:45-46 | a present `:key` with no `:` before it becomes the value's text, and everything after it, later placeholders included, is kept |
| SharedRoutes.IdMatchesIdentifierPrefix | Downtime-Matcher/shared/routes.ts:45-46 | the key `id` fills the first three characters of `:identifier`, leaving "entifier" |
| SharedRoutes.DollarAmpersandValueKeepsPlaceholder | Downtime-Matcher/shared/routes.ts:46 | a value "$&" puts the placeholder itself back |
| Home.FilteredResults | Downtime-Matcher/client/src/pages/Home.tsx:24-33 | a blank term gives no results; otherwise an item is kept iff its lower-cased description, code or machine includes the lower-cased untrimmed term; results are an ordered sub-sequence of the items, and each kept item occurs as often as in the items |
| Home.ResultCountText | Downtime-Matcher/client/src/pages/Home.tsx:66 | the count reads "1 match" iff there is exactly one result, and "N matches" otherwise |
| Home.LeadingSpaceIsMatched | Downtime-Matcher/client/src/pages/Home.tsx:25-32 | a term with a leading space only keeps items where a field has that space before the word |
| Home.NoSpaceItemMissesLeadingSpaceTerm | Downtime-Matcher/client/src/pages/Home.tsx:25-32 | an item whose fields hold no space is never kept for a term with a leading space |
| Home.TypeNeverDecides | Downtime-Matcher/client/src/pages/Home.tsx:28-32 | item lists that differ only in types give results that differ only in types |
| Text.TrimEmptyIffBlank | Downtime-Matcher/client/src/pages/Home.tsx:25 | the trimmed term is empty iff the term is made only of whitespace |
| Text.IndexOf | Downtime-Matcher/shared/routes.ts:45-46 | the result is -1 iff the pattern does not occur, and otherwise the first index at which it occurs |
| Text.IntToDecimal | Downtime-Matcher/shared/routes.ts:46 | `String(n)` is a minus sign exactly for negative n, then digits without a leading zero; for n ≥ 0 it is the numeral of n, whose digits read back as n, and for n < 0 it is "-" followed by `String(-n)` |
| Text.NoLeadingZero | Downtime-Matcher/shared/routes.ts:46 | the numeral of n starts with 0 only for n = 0 and is one digit exactly for n < 10 |
| Seqs.Filter | Downtime-Matcher/client/src/pages/Home.tsx:28 | the result is an ordered sub-sequence holding exactly the elements that pass the test, each as often as in the input |
| DowntimeHooks.KeyOf | Downtime-Matcher/client/src/hooks/use-downtime-codes.ts:6 | `[path, search].filter(Boolean)` with a non-empty path is [path] for an absent or empty search and [path, search] otherwise |
| DowntimeHooks.QueryKey | Downtime-Matcher/client/src/hooks/use-downtime-codes.ts:6 | the key is [path] for an absent or empty search and [path, search] otherwise, and holds no falsy part |
| DowntimeHooks.InvalidationCoversEveryList | Downtime-Matcher/client/src/hooks/use-downtime-codes.ts:47-49 | the invalidated key is a prefix of every list query key |
| DowntimeHooks.DistinctSearchesDistinctKeys | Downtime-Matcher/client/src/hooks/use-downtime-codes.ts:6 | different non-empty searches get different keys |
| DowntimeHooks.ListUrl | Downtime-Matcher/client/src/hooks/use-downtime-codes.ts:11-13 | a falsy search fetches the bare path; otherwise the path with `?search=` and the encoded search |
| DowntimeHooks.KeyDeterminesUrl | Downtime-Matcher/client/src/hooks/use-downtime-codes.ts:6-13 | searches with the same cache key fetch the same URL |
| DowntimeHooks.ListOutcomeOf | Downtime-Matcher/client/src/hooks/use-downtime-codes.ts:15-19 | a non-ok status fails with "Failed to fetch downtime codes"; data is loaded iff the status is ok and the body is an array, and it is that array |
| DowntimeHooks.ListErrorIgnoresBody | Downtime-Matcher/client/src/hooks/use-downtime-codes.ts:16 | the outcome of a non-ok answer does not depend on its body |
| DowntimeHooks.CreateOutcomeOf | Downtime-Matcher/client/src/hooks/use-downtime-codes.ts:37-45 | 400 with an error body fails with its message; another non-ok status fails with "Failed to create downtime code"; success iff the status is ok and the body is JSON, which is then returned |
| DowntimeHooks.CreateMutation | Downtime-Matcher/client/src/hooks/use-downtime-codes.ts:26-50 | invalid input sends no request and fails; valid input sends exactly that input to /api/downtime-codes and reads the answer; the lists are invalidated iff the mutation succeeds |
| DowntimeCodeCard.CodeUnits | Downtime-Matcher/client/src/components/DowntimeCodeCard.tsx:24 | a character below U+10000 is the single unit of its own code; any other is a high surrogate (D800-DBFF) followed by a low surrogate (DC00-DFFF) that decode back to it |
| DowntimeCodeCard.UnitSumAppend | Downtime-Matcher/client/src/components/DowntimeCodeCard.tsx:24 | the code-unit sum of two unit lists joined is the sum of their sums |
| DowntimeCodeCard.HashIsUnitSum | Downtime-Matcher/client/src/components/DowntimeCodeCard.tsx:24 | the category's hash is the sum of its UTF-16 code units, taken first to last |
| DowntimeCodeCard.GetCategoryColor | Downtime-Matcher/client/src/components/DowntimeCodeCard.tsx:22-33 | the colour is always one of the five palette entries, blue for the empty category |
| DowntimeCodeCard.HashOfConcat | Downtime-Matcher/client/src/components/DowntimeCodeCard.tsx:24 | the hash of a concatenation is the sum of the parts' hashes |
| DowntimeCodeCard.AppendShiftsIndex | Downtime-Matcher/client/src/components/DowntimeCodeCard.tsx:24-32 | appending a character with code c below U+10000 moves the palette index by c mod 5 |
| DowntimeCodeCard.PermutationKeepsHash | Downtime-Matcher/client/src/components/DowntimeCodeCard.tsx:24 | categories with the same characters in any order have the same hash |
| DowntimeCodeCard.PermutationKeepsColor | Downtime-Matcher/client/src/components/DowntimeCodeCard.tsx:22-33 | categories with the same characters in any order get the same colour |
| Exchange.CreateWire | Downtime-Matcher/server/routes.ts:21-29 | only a created row is sent with an ok status, and 400 is sent iff validation failed |
| Exchange.ClientReadsCreateAnswer | Downtime-Matcher/client/src/hooks/use-downtime-codes.ts:37-45 | the client gets back the created row, the server's first validation message, or the fixed message for a rethrown error such as a duplicate code |
| Exchange.ClientReadsListAnswer | Downtime-Matcher/client/src/hooks/use-downtime-codes.ts:15-19 | a 200 list answer is loaded as exactly the rows sent |
| Exchange.SubmitCreate | Downtime-Matcher/client/src/hooks/use-downtime-codes.ts:28-45 | invalid input changes nothing; for valid input the client gets the inserted row when the insert succeeds and "Failed to create downtime code" for any storage error, a length error included; valid input with fitting values and a free code succeeds with the input under the next id; a taken code ends in "Failed to create downtime code" with the table unchanged; success means exactly the returned row was appended; the sequence advances iff the input was valid and its values fit |

## Left out

- Case folding covers ASCII letters only. `toLowerCase` and Postgres `lower()` also fold other letters (`Text.Lower`).
- `encodeURIComponent` is a function parameter of `DowntimeHooks.ListUrl`, because its percent-encoding is not modelled.
- Express, `fetch`, JSON encoding and React Query's cache are I/O and libraries. They become inputs such as `HttpResponse` and cache keys.
- The Postgres connection is left out. The table is an in-memory sequence.
- Storage.DatabaseStorage.SearchDowntimeCodes: results come back in insertion order. Postgres promises no order for a `SELECT` without `ORDER BY`.
- Storage.DatabaseStorage.CreateDowntimeCode: the serial sequence is unbounded. The 32-bit limit of `serial` is not modelled.
- Storage.DatabaseStorage.CreateDowntimeCode: a value too long for its column is taken to be rejected before `nextval` runs. That holds when the driver's parameters are folded into the plan, as for an unnamed statement. Under a generic plan the length error would come after the id is drawn, and then a failed length check would also use up an id. A unique violation always uses one up.
- Storage.StoredRow: Postgres rejects the character U+0000 in text columns. That error is not modelled.
- Concurrency is left out: the non-atomic check-then-insert of seeding and concurrent creates.
- The zod and drizzle-zod validators are not modelled. Their outcome is the input `Schema.Validation`, and the order of their issues is taken as given.
- ServerRoutes.HandleList: `search` is a string or absent. A repeated or nested `search` query parameter is not modelled.
- ServerRoutes.SpringSearchFindsD17AndD63: only shows that D17 and D63 are found. It does not show that no other seeded row is found. Evaluating substring tests over all 89 literal descriptions is beyond what the verifier does cheaply.
- Exchange.CreateWire: a rethrown error is taken to become status 500 with a non-JSON body. The server's error handling is not part of the model.
- SharedRoutes.ParamString: `String(n)` is modelled for integers only. Fractions and numbers of 1e21 or more are left out.
- SharedRoutes.BuildUrl: parameters arrive as a sequence in the order `Object.entries` lists them (integer-like keys first). That ordering is not derived.
- DowntimeHooks.ListOutcomeOf: list elements are records. The 200 schema checks nothing about them, and non-record elements are not represented.
- `getCategoryColor` takes a plain string. The card passes `code.category`, which the record lacks, and that mismatch is not modelled.
- JSX, the create dialog, the search input, toasts and the clipboard are left out as presentation.
- Strings are sequences of Unicode scalar values. JavaScript strings with lone surrogates cannot be represented.
