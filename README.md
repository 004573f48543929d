# lambda-response-helpers in Dafny

A model of the two response builders of `lambda-response-helpers`, the small
library serverless handlers use to shape their return values:

- `LambdaResponse`, an HTTP response builder. It keeps a header table, a
  status code (200 by default) and a body. The chained setters `headers`,
  `status` and `body` overwrite them. The terminal `json` forces the
  content-type header to `application/json` in the table and returns
  `{ statusCode, headers, body }` with the body serialised.
- `LambdaSqsResponse`, a batch-failure builder for SQS handlers. It keeps an
  append-only list of failed message ids without duplicates. `json` reports
  them as `{ batchItemFailures: [{ itemIdentifier }, ...] }`.

Files:

- `wrappers.dfy`: `Option`, whose `None` stands for JavaScript's `undefined`.
- `header_tables.dfy` (module `HeaderTables`): the header table. It is a sequence of
  (name, value) pairs in `Object.keys` order, with no name twice. The module holds the
  property write `table[name] = value` (`Assign`), the case-insensitive search
  (`ContentTypeIndex`), the normalisation `json` applies (`Normalize`) and its lemmas.
- `lambda_response.dfy` (module `LambdaHttp`): the class `LambdaResponse<B>` with its
  fields and setters, the scan `FindContentTypeKey`, and client methods that replay the
  documented call chains.
- `lambda_sqs_response.dfy` (module `LambdaSqs`): the class `LambdaSqsResponse`, the scan
  `Includes`, the mapping to records, and lemmas about sequences of `addFailure` calls.

The body is a value of the type parameter `B`, the JSON values the caller
uses. JSON `null` is one of those values, and the predicate `isNull: B -> bool`
says which. `JSON.stringify` is the function `stringify: B -> string`. Both are
handed to the constructor. `None` stands for `undefined`:

- A `json` call without an argument is `Json(None)`, and `json(null)` is
  `Json(Some(v))` with `isNull(v)`. The `??` in `body ?? _body` (index.ts:74)
  treats both as nullish and falls back to the stored body
  (`LambdaHttp.SerializedBody`, `LambdaHttp.NullArgumentFallsThrough`).
- For the stored body, `None` means nothing was stored, or `body(undefined)` was
  called. A stored `null` is `Some(v)` with `isNull(v)`, and it is serialised
  (`LambdaHttp.StoredNullSerialised`).

The result body is `Option<string>`. It is `None` exactly when the effective body
is `undefined`, because `JSON.stringify(undefined)` is `undefined`.

The comment at index.ts:67 says the lookup is there to prevent sending multiple
headers cased differently. The code only rewrites the FIRST key that matches
`content-type` case-insensitively, or adds `content-type` when none matches. So it
stops only the duplicate that `json` itself would add. A caller table that already
holds both `Content-Type` and `content-type` keeps both
(`HeaderTables.NormalizeKeepsLaterCasing`). Normalisation never adds a second such
key (`HeaderTables.NormalizeSingleContentType`).

## Model

| member | source | states |
|---|---|---|
| `HeaderTables.LowerChar` | index.ts:68 | ASCII lower-casing of one character. The result is never an upper-case letter. A character that is not `A`-`Z` is unchanged, and `A`-`Z` map to `a`-`z` in the same alphabet position. |
| `HeaderTables.Lower` | index.ts:68 | `key.toLowerCase()` under ASCII. The length is kept and no upper-case letter remains. Other characters are unchanged, and each upper-case letter moves down by 32 code points. |
| `HeaderTables.IsContentType` | index.ts:68 | The `find` test `key.toLowerCase() === 'content-type'`. A matching key has the length of `content-type`, and `content-type` itself matches. |
| `HeaderTables.Assign` | index.ts:69 | The write `table[name] = value`. An existing key keeps its position and gets the new value, and every other entry is unchanged. A missing key is appended at the end, so the count grows by one. Keys stay unique. |
| `HeaderTables.ContentTypeIndex` | index.ts:66-68 | Gives the index of the first key, in key order, whose ASCII lower-case form is `content-type`. No earlier key matches. The result is none exactly when no key matches. |
| `HeaderTables.ContentTypeKey` | index.ts:68 | The key `find` returns. There is a key exactly when some key matches case-insensitively. The returned key is in the table, it matches, and no earlier key matches. |
| `HeaderTables.Normalize` | index.ts:66-69 | The table after `json`. Keys stay unique and every existing key keeps its name and position. The length is unchanged when a key matched and grows by one otherwise. Every entry other than the first match is unchanged, and with no match the new last entry is `content-type: application/json`. |
| `HeaderTables.NormalizeMatched` | index.ts:66-69 | If some key matches case-insensitively, the first match keeps its name and position and now maps to `application/json`. No key is added and every other entry is unchanged. |
| `HeaderTables.NormalizeUnmatched` | index.ts:68-69 | If no key matches, the result is the old table with the single entry `content-type: application/json` appended. |
| `HeaderTables.NormalizeHasContentType` | index.ts:65-69 | After normalisation a content-type key is always present with value `application/json`. It sits at the old match's position, or at the end if there was no match. |
| `HeaderTables.NormalizeIdempotent` | index.ts:66-69 | Normalising an already normalised table leaves it identical, and the table keeps unique keys. |
| `HeaderTables.NormalizeSingleContentType` | index.ts:67-69 | Normalisation never adds a second content-type key. A table with at most one key matching case-insensitively has at most one afterwards, and by `NormalizeHasContentType` exactly one. |
| `HeaderTables.NormalizeKeepsLaterCasing` | index.ts:67-69 | Only the first matching key is rewritten. In `{Content-Type, content-type}` the second entry keeps its value. |
| `LambdaHttp.SerializedBody` | index.ts:74 | `JSON.stringify(body ?? _body)`. A non-nullish argument is serialised and wins over the stored body. With an argument that is `undefined` or `null`, the stored body is serialised, a stored `null` included. The result is absent exactly when the argument is nullish and nothing is stored. |
| `LambdaHttp.FindContentTypeKey` | index.ts:66-68 | The scan behind `find`. It returns a key exactly when some key matches case-insensitively, and the key it returns is the first match in key order. |
| `LambdaHttp.LambdaResponse.constructor` | index.ts:25-28 | A fresh builder has an empty header table, status 200 and no body. |
| `LambdaHttp.LambdaResponse.Headers` | index.ts:46-49 | Replaces the whole table with `h`, so nothing of the previous table survives. Status and body are unchanged, and the builder itself is returned. |
| `LambdaHttp.LambdaResponse.Status` | index.ts:52-55 | Stores the code verbatim, with no range check. Headers and body are unchanged, and the builder is returned. |
| `LambdaHttp.LambdaResponse.Body` | index.ts:58-61 | Stores the body. Headers and status are unchanged, and the builder is returned. |
| `LambdaHttp.LambdaResponse.Json` | index.ts:64-76 | Rewrites the table in place to its normalised form and leaves status and stored body unchanged. Returns the status, the normalised table, and the body `SerializedBody` gives: the serialised argument when it is not `undefined` or `null`, else the serialised stored body. |
| `LambdaHttp.ShorthandMatchesBody` | index.test.ts:18-28 | For every non-null `b`, `status(c).json(b)` and `status(c).body(b).json()` give equal records. Both are `{c, {content-type: application/json}, stringify(b)}`. For a `null` `b` they differ, see `StoredNullSerialised`. |
| `LambdaHttp.HeadersKeptByJson` | index.test.ts:30-45 | `status(429).headers({content-type: application/json, x-token: p@ssword123}).json(b)` keeps both headers, in order, with `x-token` unchanged. |
| `LambdaHttp.JsonTwice` | index.ts:64-76 | On any valid builder, whatever calls came before, two `json` calls in a row give equal records. The table is the normalisation of the table before the first call, and the status is kept. |
| `LambdaHttp.StoredNullSerialised` | index.ts:74 | `body(null).json()` serialises the stored JSON `null`. `json(null)` on a fresh builder gives no body. |
| `LambdaHttp.NullArgumentFallsThrough` | index.ts:74 | `body(x).json(null)` gives the same record as `body(x).json()`, with `x` serialised. |
| `LambdaHttp.HeadersAfterJson` | index.ts:46-49 | A `headers(h)` call after `json` discards the earlier normalised key. The next `json` reports the normalisation of `h` alone. |
| `LambdaSqs.Includes` | index.ts:96 | The scan behind `includes`. It returns true exactly when the id is already in the list, using exact, case-sensitive comparison. |
| `LambdaSqs.ItemFailures` | index.ts:102-104 | The `map`. It gives one `{ itemIdentifier }` record per id, in the same order. |
| `LambdaSqs.IdentifiersOfItemFailures` | index.ts:100-105 | Reading the identifiers back out of the records gives exactly the recorded ids, in order. |
| `LambdaSqs.LambdaSqsResponse.constructor` | index.ts:86-87 | A fresh builder has no failures. |
| `LambdaSqs.LambdaSqsResponse.AddFailure` | index.ts:95-98 | Appends the id at the end exactly when it is not already present, and otherwise leaves the list unchanged. The list stays free of duplicates. |
| `LambdaSqs.LambdaSqsResponse.Json` | index.ts:100-106 | Gives one record per recorded id, in order, and its identifiers are exactly the list. It reads the state and changes nothing, so repeated calls are equal. |
| `LambdaSqs.AddUnique` | index.ts:96 | The list after `addFailure(id)`. The old list is a prefix, and the length grows by one exactly when the id was absent. The set of ids gains only `id`, and a duplicate-free list stays duplicate-free. |
| `LambdaSqs.AddAll` | index.ts:95-96 | The list after replaying `addFailure` on each of a sequence of ids. It has no duplicates and holds exactly the ids that were added. |
| `LambdaSqs.ReplayFailures` | index.ts:95-105 | Calling `addFailure` with each id in turn on a fresh builder leaves exactly `AddAll(ids)`, and `json` reports it as records in that order. |
| `LambdaSqs.AddAllFirstInsertionOrder` | index.ts:95-97 | After any sequence of `addFailure` calls, the recorded ids appear in the order of their first insertion. |
| `LambdaSqs.DuplicateRecordedOnce` | index.ts:95-96 | `addFailure("X")` twice reports a single `X` record. |
| `LambdaSqs.InsertionOrderKept` | index.ts:95-96 | `addFailure("B")` then `addFailure("A")` reports `B` before `A`. |
| `LambdaSqs.EmptyBatch` | index.test.ts:50-56 | A builder with no failures reports an empty list, and asking twice gives equal results. |
| `LambdaSqs.SingleFailure` | index.test.ts:57-65 | `addFailure("123")` reports exactly one record, `123`. |

## Left out

- `JSON.stringify` is not modelled. It is the function `stringify` handed to the constructor, so the JSON text of a body (and the `undefined` it gives for functions or symbols) is outside the model.
- `B` stands for JSON values with `null` picked out by `isNull`. Functions, symbols and the rest of the JavaScript value model are not modelled.
- `toLowerCase` is ASCII lower-casing (`A`-`Z` only). Unicode case mapping is not modelled.
- Key order is plain insertion order. JavaScript enumerates integer-like keys first, and that is not modelled.
- Aliasing is not modelled. `headers(h)` keeps the caller's object and `json` mutates it, and the record `json` returns shares that object. With values in place of objects, later mutations are not visible through an earlier result or through the caller's reference.
- `LambdaHttp.LambdaResponse.Headers` requires unique keys in `h`. A JavaScript object cannot hold a key twice, so this is the type's own guarantee rather than a demand on callers.
- The status code is a mathematical integer. A JavaScript `number` can also be fractional or `NaN`, and that is not modelled.
- `addFailure` returns nothing. The arrow function's `this` (index.ts:97) is not the builder, so chaining on it is not modelled.
- The `res` alias (index.ts:81) and the test harness are not part of this model.
