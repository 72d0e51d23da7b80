# Anime watchlist page — a Dafny model

The page is one React component, `App` in `src/main.jsx`. It fetches a list
of anime records once, groups them by genre into a dictionary `genreMap`, and
shows a loading line, an error line, or the total count followed by one
section of cards per genre, with genres in sorted order. This project models
the three pieces of logic in that component and proves what they promise:

- **Grouping** (`grouping.dfy`, module `GenreGrouping`). `genreMap` is a
  `GenreMap` value: its own keys in creation order and a `map` from genre to
  bucket. `Group` is the recursive specification: one record at a time, the
  record is pushed under each genre it lists, or under `"Unknown"` when
  `genres` is missing or empty. `GroupByGenre` is the nested loop that
  updates the dictionary in place, and it is proved equal to `Group`.
  `Origins` describes each bucket independently of pushing: the input
  positions it is filled from. The lemmas tie the two descriptions together:
  - input order is kept;
  - a record appears once per time it lists a genre, with no deduplication;
  - the key set is exactly the listed genres plus `"Unknown"`;
  - buckets only grow by appending;
  - the entry count is the sum over records.
- **Settlement** (`loader.dfy`, module `Loader`). The three state hooks
  `animeList`, `loading` and `error` are fields of the class `WatchlistState`.
  `FetchAnime` replays the `try`/`catch`/`finally` of `fetchAnime` on an
  abstract `FetchOutcome`: the request was rejected, or a response arrived
  with its `ok` flag and a body that parses or does not. It is proved against
  the specification function `Settled`.
- **View** (`view.dfy`, module `View`). `Render` maps a state to a `Page`:
  `LoadingPage`, `ErrorPage(message)`, or `ContentPage(total, sections)`.
  JavaScript truthiness is kept. `error` is shown only when it is a
  non-empty string, so an exception with an empty message leads to the
  content page with an empty list. This is what the code does, although a
  reading of the component as three states (loading, error, ready) would
  expect an error page there.
- `records.dfy` holds the record type. `string_order.dfy` holds the string
  order used by `sort()` and an insertion sort proved sorted and a
  permutation. `plain_object.dfy` models the grouping on a plain JavaScript
  object, for the finding below.

## Model

| member | source | states |
|---|---|---|
| AnimeRecords.BucketKeys | src/main.jsx:29-36 | every record is pushed under at least one key: its genres when present and non-empty, otherwise "Unknown" |
| StringOrder.Sort | src/main.jsx:66 | the sorted keys are in non-descending lexicographic order, are a permutation of the input (same multiset and same elements), and stay free of repeats |
| StringOrder.SortedDistinctAscending | src/main.jsx:66 | sorted keys without repeats are strictly ascending |
| StringOrder.BelowTotal | src/main.jsx:66 | any two different strings are ordered one way or the other |
| StringOrder.BelowTransitive | src/main.jsx:66 | the string order is transitive |
| GenreGrouping.PushAllBucket | src/main.jsx:30-33 | the inner loop appends the record to bucket g once per occurrence of g among its keys and leaves other buckets alone |
| GenreGrouping.PushAllKeys | src/main.jsx:31 | the inner loop creates exactly the listed keys that were missing |
| GenreGrouping.PushAllKeepsKeyOrder | src/main.jsx:31 | keys are only appended to the creation order, never removed or reordered |
| GenreGrouping.Group | src/main.jsx:27-38 | the grouping has each key once in its key order, the key order and bucket keys agree, and no bucket is empty |
| GenreGrouping.GroupByGenre | src/main.jsx:27-38 | the in-place nested loop yields exactly the `Group` of the input list |
| GenreGrouping.BucketFollowsInput | src/main.jsx:28-37 | bucket g consists of the records at positions `Origins(list, g)`, which are in non-decreasing order, so input order is kept within every bucket |
| GenreGrouping.PositionMultiplicity | src/main.jsx:28-37 | record i fills bucket g exactly as often as it lists g (or once for "Unknown" when it lists nothing): no deduplication |
| GenreGrouping.ListedGenreHoldsRecord | src/main.jsx:29-33 | for a record with genres, every genre it lists is a key whose bucket holds the record |
| GenreGrouping.GenrelessGoesToUnknown | src/main.jsx:29-36 | a record with missing or empty genres is in the "Unknown" bucket, and its position is in no other bucket |
| GenreGrouping.GroupKeySet | src/main.jsx:29-37 | the keys are exactly the genres some record lists, plus "Unknown" exactly when some record has no genres; a record tagged "Unknown" shares that bucket |
| GenreGrouping.GroupGrowsByAppend | src/main.jsx:28-37 | every earlier stage of the outer loop has a prefix of the final key order and a prefix of every final bucket |
| GenreGrouping.EntryCount | src/main.jsx:28-37 | a list contributes at least as many entries as it has records |
| GenreGrouping.GroupEntryTotal | src/main.jsx:27-38 | over any repeat-free list of keys naming every bucket, the bucket sizes add up to the sum over records of their number of genres, or 1 without genres |
| Loader.Thrown | src/main.jsx:11-17 | the `try` block completes exactly when the response is ok and its body parses |
| Loader.SettleFromMount | src/main.jsx:5-19 | from the mount state, settlement always clears `loading`. Success stores the list and leaves `error` null. A non-ok response leaves the list empty and sets the fixed message, whatever the body. A rejection or a parse failure sets its own message |
| Loader.WatchlistState.constructor | src/main.jsx:5-7 | the hooks start as an empty list, loading, and a null error |
| Loader.WatchlistState.FetchAnime | src/main.jsx:10-20 | the method clears `loading`, and the new state is `Settled` of the old state and the outcome |
| View.Sections | src/main.jsx:66-78 | one section per key, headings strictly ascending, every bucket has a section, and each section holds exactly its non-empty bucket |
| View.ViewSelection | src/main.jsx:40-56 | loading wins over an error, a truthy error wins over the content, and the content shows only when neither is set |
| View.ContentCounts | src/main.jsx:56-66 | the displayed total is the length of the list, while the cards drawn add up to the entry count, which is never smaller |
| View.SectionCardsFollowInput | src/main.jsx:66-78 | the cards of each section are the input records at that genre's origin positions, in input order |
| View.PageAfterSettlement | src/main.jsx:11-56 | after settlement the page is never the loading line. A non-ok response shows the fixed message and a rejection its message. A rejection with an empty message shows an empty content page. Success shows the content for the data |
| View.EmptyListPage | src/main.jsx:56-66 | an empty list shows a total of 0 and no sections |
| View.ActionThenUnknownBuckets | src/main.jsx:27-38 | records with genres ["Action"] and [] give buckets "Action" and "Unknown", created in that order |
| View.ActionThenUnknown | src/main.jsx:56-78 | the same records show a total of 2, an "Action" section and then an "Unknown" section |
| View.RepeatedGenreRepeatsCard | src/main.jsx:30-33 | a record listing "Action" twice is drawn twice in the one "Action" section |
| PlainObjectGrouping.AsWrittenAgreesUnlessInherited | src/main.jsx:27-38 | on a plain object the grouping finishes exactly when no record is pushed under a name inherited from `Object.prototype`. It then equals `Group`; otherwise it throws at an inherited name |
| PlainObjectGrouping.ConstructorGenreThrows | src/main.jsx:31-32 | a record tagged "constructor" makes the grouping as written throw, while `Group` gives it its own bucket |

## Left out

- The request itself (`fetch`, `res.json()`), the asynchronous timing of `useEffect` and its run-once-on-mount behaviour are not modelled. The request's outcome is the input `FetchOutcome`, and `FetchAnime` is the code that runs once it has settled.
- Whether React batches `setAnimeList` and `setLoading` into one render is not modelled. A render in between would still show the loading line.
- JSX markup, inline styles, the hover handlers, the footer, the image fallback to `/fallback.png` and the `createRoot(...).render` call are not modelled. They are presentation and DOM side effects. A card is modelled as the record it draws.
- StringOrder.Sort: it compares characters by Unicode scalar value. `Array.prototype.sort()` compares UTF-16 code units, and the two orders differ for strings mixing characters above U+FFFF with characters from U+E000 to U+FFFF.
- `Object.keys` lists integer-like keys first, in numeric order. The model keeps plain creation order, which changes nothing once the keys are sorted.
- JSON shapes other than the modelled ones are not modelled: a body that is not an array, `genres` that is truthy but not an array, or an exception without a string `message`. The data is typed as a list of records, `genres` as an optional list of strings, and every failure as carrying a message string.
- `mal_id`, `url`, `image` and `title` are carried without any property of their own. Only `genres` takes part in the logic.

## Findings

| source | as written | input that shows it | evidently intended | confidence | as-written member | corrected member |
|---|---|---|---|---|---|---|
| src/main.jsx:27-32 | `genreMap` is a plain `{}`, so `genreMap[genre]` for a genre named after an `Object.prototype` member ("constructor", "toString", "__proto__", …) reads the inherited value. That value is truthy, so no bucket is created, and `.push` on it throws a `TypeError` while rendering | a record whose genres are ["constructor"] | every genre string gets a bucket of its own, as with a `Map` or `Object.create(null)` | high (not executed) | PlainObjectGrouping.ConstructorGenreThrows | GenreGrouping.ListedGenreHoldsRecord |
