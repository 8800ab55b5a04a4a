# mcrud record identifiers, modelled in Dafny

mcrud is a thin CRUD layer over MongoDB. Its one piece of real logic gives new
records readable identifiers such as `ORD00000001`. The identifier is built from a
per-collection counter kept in the Mongo collection `counter`. This project models
that generator and proves what it promises.

- `IdFormat` models `generateId(name, length, next)`. The prefix is the first three
  characters of the collection name, upper-cased. The padding is `length - d` zeros,
  where `d` is the number of decimal digits of a positive `next` and 0 when
  `next <= 0`, and no zeros when `length - d` is not positive. The decimal numeral of `next` follows and is never truncated. `GenerateId`
  is the source's two loops (the digit count by repeated division and the zero-padding
  loop) written as a method. It is proved equal to the specification function
  `RenderId`. The lemmas prove the properties: padding count, fixed width, no
  truncation, round trip back to `next`, and injectivity.
- `Counter` models `getNextId(options)`. The `counter` collection is the `map` field
  of the class `CounterStore`. `GetNextId` takes the collection name and a `fault`
  parameter that says which store call fails, if any. When no record exists, it
  inserts 1 and renders 1. When the record holds `v`, it renders `v + 1` and stores
  `v + 1`. Any failure rejects with that call's error and leaves the store unchanged.
  The pure functions `NextValue`, `Bump`, `Issued` and `After` describe runs of
  successful calls. Their lemmas prove three things. Values issued for one collection
  strictly increase, with no duplicates and no gaps, however calls for different
  collections interleave. Identifiers issued for one
  collection are distinct. Stored values never decrease, and other collections'
  records are untouched.
- `AsWritten` models `getNextId` as the code is actually written, including three
  evident defects, and proves what each defect does (see "## Findings").
  `CounterStore.GetNextId` is the corrected version, and the rest of the model uses it.

Three facts about the code shape the model:

- The stored `next` is meant to be the last value issued, not the next one to hand
  out: the first call is meant to store 1 and render 1, and later calls to render and
  store `v + 1`. As written, the first call renders an identifier ending in
  "undefined" and every later call throws (see "## Findings"); the model follows the
  intended behaviour.
- The lookup and the write are two separate store calls, not one atomic
  increment-and-fetch.
- The code has no `#` patterns, no block allocation for batches, and no administrative
  get/set of the counter.

## Model

| member | source | states |
|---|---|---|
| `IdFormat.Upper` | utils.js:4 | upper-casing keeps the length and maps each character through ASCII upper-casing |
| `IdFormat.Prefix` | utils.js:4 | the prefix has min(3, length of the name) characters, each the upper-cased character of the name at that position (shorter names use all their characters) |
| `IdFormat.DigitCount` | utils.js:5-10 | the digit-count loop yields 0 for `next <= 0` and at least 1 for positive `next` |
| `IdFormat.DigitCountBounds` | utils.js:5-10 | for positive `next`, the count `d` satisfies `10^(d-1) <= next < 10^d`, so it is exactly the number of decimal digits |
| `IdFormat.Numeral` | utils.js:14 | the text `prefix + next` appends for `next`: all digits whose decimal value is `next` when `next >= 0`, and a minus sign followed by digits whose value is `-next` when `next < 0` |
| `IdFormat.NatNumeral` | utils.js:14 | the numeral appended for `next` is all decimal digits, has `DigitCount(next)` characters and no leading zero for positive `next`, and is "0" for 0 |
| `IdFormat.GenerateId` | utils.js:3-15 | the loop-based renderer returns exactly `RenderId(name, length, next)`: prefix, `max(0, length - DigitCount(next))` zeros, numeral (so a full `length` zeros when `next <= 0`) |
| `IdFormat.PaddingCount` | utils.js:11-14 | by position: the identifier has length prefix + `ZeroCount` + numeral, starts with the prefix, holds '0' at every position of the padding window, and ends with the numeral, where `ZeroCount` is `max(0, length - DigitCount(next))` by definition (that the loop appends exactly this many zeros is proved by the invariants of `GenerateId`) |
| `IdFormat.FixedWidth` | utils.js:11-14 | a positive `next` with at most `length` digits fills exactly `length` characters after the prefix, all digits |
| `IdFormat.NoTruncation` | utils.js:11-14 | the whole numeral of `next` ends the identifier, and when `DigitCount(next) >= length` no zero is inserted |
| `IdFormat.RoundTrip` | utils.js:3-15 | for positive `next`, removing the prefix and the leading zeros and parsing the rest as decimal gives `next` back |
| `IdFormat.RenderInjective` | utils.js:3-15 | for a fixed name and width, distinct positive values give distinct identifiers |
| `IdFormat.ExampleOrders` | utils.js:3-15 | collection "orders" with width 8 and value 1 renders as "ORD00000001" |
| `IdFormat.ExampleWide` | utils.js:11-14 | a value wider than the width is rendered whole: "ab", width 2, value 123 gives "AB123" |
| `Counter.CounterStore.GetNextId` | utils.js:17-53 | connect or lookup failure: rejected with that error, store unchanged; no record: insert 1 and return the render of 1 (insert failure: rejected, unchanged); record `v`: return the render of `v + 1` and store `v + 1` (update failure: rejected, unchanged); succeeds exactly when no call fails; other records unchanged; no stored value decreases |
| `Counter.BumpMonotone` | utils.js:39-48 | a successful step raises the next value for its own collection by one and lowers none |
| `Counter.IssuedAtLeast` | utils.js:30-48 | every value issued in a run for a collection is at least the value the store would issue now |
| `Counter.IssuedIncreasing` | utils.js:39-48 | in a run of successful calls, values issued for the same collection strictly increase |
| `Counter.IssuedConsecutive` | utils.js:30-48 | `m` successive calls for one collection issue exactly `b, b+1, ..., b+m-1`, where `b` is `NextValue`, the value the next call issues: no duplicates, no gaps |
| `Counter.IssuedExact` | utils.js:30-48 | in any run, however collections interleave, the j-th call issues `NextValue` for its collection plus the number of earlier calls in the run for that collection: no gaps and no duplicates per collection |
| `Counter.IssuedIdsDistinct` | utils.js:17-53 | identifiers issued in a run for the same collection are pairwise distinct |
| `Counter.AfterMonotone` | utils.js:30-48 | over a run no stored value decreases, and the records of collections no call names are left exactly as they were |
| `Counter.TwoCalls` | utils.js:39-48 | two successful calls on one store object return the renders of `n` and `n + 1`, where `n` is `NextValue`, the value the next call issues; the two identifiers differ; afterwards the store holds `n + 1` for the key and is otherwise unchanged |
| `AsWritten.RenderUndefined` | utils.js:3-15 | `generateId(name, length, undefined)`: the prefix, then `max(0, length)` zeros (no digit is counted), then the text "undefined" |
| `AsWritten.GetNextIdAsWritten` | utils.js:17-53 | the code as written issues an identifier exactly when no call fails and the collection has no record; that identifier is `RenderUndefined(collection, 8)` and 1 is stored; otherwise the store is unchanged; a failed connect or insert rejects with its own error; an existing record makes the callback throw; a failed lookup rejects with no error |
| `AsWritten.FirstIdAsWrittenUnreadable` | utils.js:36 | as written, the first identifier for a new collection does not parse back to any sequence value, while the intended one parses back to 1 |
| `AsWritten.UndefinedUnreadable` | utils.js:36 | an identifier ending in the text "undefined" never parses to a sequence value, whatever the padding |
| `AsWritten.LookupFailureAsWrittenLosesError` | utils.js:26-28 | as written, a failed lookup rejects with no error and leaves the store unchanged |
| `AsWritten.SecondCallAsWrittenThrows` | utils.js:39-41 | as written, once a collection has a record, the next call throws before writing, so no second identifier is issued; the corrected step issues 1 and then 2 |

## Findings

| source | as written | input that shows it | evidently intended | confidence | as-written member | corrected member |
|---|---|---|---|---|---|---|
| utils.js:36 | renders `doc2.next`, but the insert result has no `next` field, so the identifier is the prefix, eight zeros and the text "undefined" | any call for a collection without a counter record | render the inserted value 1 | high; not executed | `AsWritten.FirstIdAsWrittenUnreadable` | `Counter.CounterStore.GetNextId` |
| utils.js:40-41 | reads `doc1`, which is not declared; the looked-up record is `doc`, so the callback throws a ReferenceError before the update is sent | any call for a collection that already has a record, e.g. the second call ever | render and store `doc.next + 1` | high; not executed | `AsWritten.SecondCallAsWrittenThrows` | `Counter.CounterStore.GetNextId` |
| utils.js:27 | a failed lookup rejects with `err1`, the connect error, which is null on this path | a successful connect followed by a failing `findOne` | reject with the lookup's error `err2` | high; not executed | `AsWritten.LookupFailureAsWrittenLosesError` | `Counter.CounterStore.GetNextId` |

## Left out

- index.js is not part of this model. It only passes arguments through to the MongoDB driver (`count`, `get`, `post`, `put`, `delete`). Its own small pieces of logic are broken as written: the pagination test at index.js:56 is always false, the sort at index.js:60 applies only when no sort is given, and `generateIdIfNot` is called with two arguments at index.js:82 but declared with one at index.js:136.
- MongoDB connections and I/O (`MongoClient.connect`, `findOne`, `insert`, `findOneAndUpdate`) become the map field plus the `fault` parameter. A failed call is modelled only as "error, no state change". The connection is never closed in the source, and that is not modelled.
- Concurrency: the lookup and the write are separate calls, so two processes can read the same record and issue the same value. A sequential model cannot express that race; only the sequential step is verified.
- `IdFormat.Upper`: `toUpperCase` is modelled for ASCII letters only; Unicode case mapping (including mappings that change length) is not modelled.
- `IdFormat.Prefix`: names are cut after three Unicode code points, whereas the code cuts after three UTF-16 code units, so names containing characters outside the Basic Multilingual Plane (such as emoji) are not modelled.
- `IdFormat.GenerateId`: `next` and `length` are modelled as integers. JavaScript numbers are doubles, so fractional values, values beyond 2^53 and the exponent notation of very large numbers are not modelled.
- `Counter.CounterStore.GetNextId`: counter values are unbounded integers. In JavaScript, from 2^53 on `parseInt(doc.next + '') + 1` no longer increases the stored value, so the counter would repeat values; the strict increase proved by `Counter.IssuedIncreasing` and `Counter.IssuedExact` holds for the source only below 2^53.
- `Counter.CounterStore.GetNextId`: the stored `next` is taken to be a non-negative integer. If it were stored as a string, the source's `doc.next + 1` would concatenate text while `parseInt(doc.next + '') + 1` would add; that divergence is not modelled.
- The connection options `url` and `database` are not modelled; only the collection name is used, as the key.
- Configurable `#` patterns, custom-id handling, block allocation for batches and administrative counter get/set are absent from the code and are not modelled.
