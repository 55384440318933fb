# wani-anki sync core in Dafny

This project models the core logic of the wani-anki Anki add-on (`addon/__init__.py`). It has three parts:

- **Unlocked-kanji sync.** `update_unlocked_kanji` makes one pass against the WaniKani API. It walks the paged
  assignment feed conditionally, using the ETag and `updated_after` watermarks kept in `KanjiListCache`. It then
  walks the subject feed incrementally for every reported and every cached id. Finally it makes a New-mode
  follow-up walk (meant to be unconditional; see Findings) for exactly the ids that got no definition back. It writes back the truthy
  watermarks and merges both answers into the cached id → characters map, later answers winning.
- **Cache serialisation and query building.** `KanjiListCache.to_json` / `from_json`, the `Config` constructor's
  fallback to an empty cache, and `Config.kanji_query`. That method builds a search string: the global template
  around the `" or "`-join of the individual template, instantiated once per cached definition.
- **Edit distance and the field swap.** `levenshtein` is the two-row dynamic programme, proved equal to the
  Wagner-Fischer recurrence. That distance drives the Meaning/ExtraInfo swap.

Modules: `Common` (Option, Result, Python truthiness, `str()` of an id), `Levenshtein`, `NoteFields`, `Cache`,
`Settings` (templates, query, `Config`), `WaniKani` (the two paged feed clients), `Sync` (the pass).

The network is an abstract input. Each walk gets a script `seq<Response<T>>`: its k-th element answers the
k-th request. A response is either a decoded page (`ETag` header, `data_updated_at`, the data records,
`pages.next_url`) or an `HttpError(code)`. An HTTP 304 arrives as `HttpError(304)`, because `urllib` raises it,
and the fetchers test for that code as the add-on does (the If-None-Match mechanism of RFC 9110, section 13.1.2).
Each fetch method also returns the requests it sent, so the URL filters and headers can be stated. The first
request is kept as structured query parameters (`AssignmentsQuery`, `SubjectsQuery`); later requests follow
`next_url`.

Behaviour worth knowing:

- A 304 on a later page discards the ids or definitions gathered from earlier pages.
- The incremental definitions call is made even with an empty id set. Only the follow-up call is guarded by
  `if missing_ids:`.
- A fresh cache's watermarks are `""`, not absent. A loaded cache's watermarks are `None` when the key is
  missing or null.
- `PRACTICE_SENTENCE_THRESHOLD = 6` is declared but never used. The swap compares the distance with the literal
  `5`, and so does the model.

## Model

| member | source | states |
|---|---|---|
| `Common.IdKey` | addon/__init__.py:270 | `str()` of a subject id is a non-empty run of decimal digits, a single digit exactly when the id is below 10 |
| `Common.IdKeyValue` | addon/__init__.py:270 | the digits of `str(n)` denote `n` |
| `Common.IdKeyInjective` | addon/__init__.py:270 | distinct subject ids give distinct cache keys |
| `Levenshtein.Levenshtein` | addon/__init__.py:90-109 | the swap at entry, the empty-`s2` shortcut and the row loop together return exactly the edit distance of the two strings |
| `Levenshtein.NextRow` | addon/__init__.py:99-107 | one pass of the inner loop turns the row of distances for `s1[..i]` into the row for `s1[..i+1]`, cell by cell |
| `Levenshtein.EditDistanceSymmetric` | addon/__init__.py:91-92 | the distance is symmetric, so answering `levenshtein(s2, s1)` when `s1` is shorter is sound |
| `Levenshtein.EditDistanceToEmpty` | addon/__init__.py:95-96 | against the empty string the distance is the other string's length |
| `Levenshtein.EditDistanceSelf` | addon/__init__.py:89-109 | a string is at distance 0 from itself |
| `Levenshtein.EditDistanceBounds` | addon/__init__.py:89-109 | the distance lies between the length difference and the longer length |
| `NoteFields.SwapMeaningAndExtraInfo` | addon/__init__.py:118-131 | a note without both fields is left alone; otherwise only the two fields change; the new Meaning is always the old ExtraInfo; the new ExtraInfo is `""` when the stripped Meaning is within distance 4 of "practice sentence", else the old Meaning |
| `NoteFields.SwapTwiceRestores` | addon/__init__.py:125-131 | when neither field is a practice-sentence marker, swapping twice restores the note |
| `NoteFields.ExactMarkerIsDropped` | addon/__init__.py:125-128 | a Meaning that is exactly "practice sentence" is discarded and ExtraInfo becomes empty |
| `Cache.EmptyCache` | addon/__init__.py:202-208 | `KanjiListCache()` has no definitions and four falsy watermarks |
| `Cache.DecodeDefinitions` | addon/__init__.py:204 | `dict(definitions or {})`: a falsy entry gives the empty map, an object gives its string entries key for key |
| `Cache.FromJson` | addon/__init__.py:190-200 | a falsy input gives `None`, and every other accepted input gives a cache; each of the four watermarks is read from the entry of the same name, a missing or null entry giving `None`; the definitions are `dict(definitions or {})` of the `definitions` entry |
| `Cache.ToJson` | addon/__init__.py:210-216 | the serialised cache is a truthy object with exactly the five entries, readable by `from_json` |
| `Cache.RoundTrip` | addon/__init__.py:190-216 | `from_json(to_json(c))` gives back all five fields of `c` |
| `Settings.LoadedCache` | addon/__init__.py:161-169 | a falsy stored cache entry leaves the config with an empty cache; any other entry with what `from_json` reads |
| `Settings.SavedCacheLoadsBack` | addon/__init__.py:169-216 | a cache saved by `to_json` is loaded back into the config unchanged |
| `Settings.Config.constructor` | addon/__init__.py:163-169 | the fields are stored as given, and a missing cache is replaced by `KanjiListCache()` |
| `Settings.KanjiQuery` | addon/__init__.py:180-184 | the query starts with the global template's prefix and ends with its suffix; with no definitions it is the template with an empty substitution |
| `Settings.KanjiQueryMentionsEveryDefinition` | addon/__init__.py:180-184 | every cached definition's instantiated individual template occurs in the query |
| `Settings.KanjiQueryLength` | addon/__init__.py:180-184 | the query's length is exactly that of the global template, every instantiated term, and 4 characters per `" or "` between consecutive terms |
| `Settings.JoinContains` | addon/__init__.py:182 | every element of a `" or "`-join occurs in the joined string |
| `WaniKani.LinkedPages` | addon/__init__.py:271-274 | the walk goes on exactly while pages carry a truthy `next_url`: every counted page links onward and the next one does not |
| `WaniKani.Requests` | addon/__init__.py:254-259 | the first request goes to the built query; each later one goes to the previous page's `next_url`; all carry the bearer key, revision 20170710 and the same conditional header |
| `WaniKani.AssignmentsUpdatedAfter` | addon/__init__.py:249-250 | `updated_after` is added exactly when the cached list timestamp is truthy |
| `WaniKani.AssignmentsIfNoneMatch` | addon/__init__.py:258-259 | `If-None-Match` is sent exactly when the cached list ETag is truthy |
| `WaniKani.GetUpdatedKanjiAssignments` | addon/__init__.py:244-275 | the loop's answer is the assignment walk's result: the sentinel on a 304, the error on any other status, otherwise the last page's ETag and timestamp with the gathered ids; it sends one request per linked page plus one, with the headers above |
| `WaniKani.NotModifiedDiscardsAssignments` | addon/__init__.py:264-266 | a 304 on any request of the assignment walk gives `(None, None, set())`, whatever earlier pages brought |
| `WaniKani.AssignmentsErrorPropagates` | addon/__init__.py:264-267 | any other HTTP status ends the assignment walk as an error carrying that code |
| `WaniKani.DefinitionsErrorPropagates` | addon/__init__.py:303-306 | any other HTTP status ends the subject walk as an error carrying that code |
| `WaniKani.AssignmentsAreUnionOfPages` | addon/__init__.py:268-275 | a completed assignment walk answers the last page's ETag and `data_updated_at` and exactly the union of the pages' ids |
| `WaniKani.DefinitionsUpdatedAfter` | addon/__init__.py:288-289 | `updated_after` is added exactly in Updated mode with a truthy cached definition timestamp |
| `WaniKani.DefinitionsIfNoneMatch` | addon/__init__.py:297-298 | corrected header: `If-None-Match` is sent exactly in Updated mode with a truthy cached definition ETag, never in New mode |
| `WaniKani.DefinitionsIfNoneMatchAsWritten` | addon/__init__.py:290-298 | as written, the header is only ever the cached definition ETag, and on the first request it is sent exactly as in Updated mode, whatever the mode |
| `WaniKani.NewModeSendsCachedEtagAsWritten` | addon/__init__.py:290-298 | as written, a New-mode walk still sends the cached definition ETag on its first request |
| `WaniKani.GetKanjiDefinitions` | addon/__init__.py:282-317 | the loop's answer is the subject walk's result; the first request asks for exactly the given ids; the `updated_after` filter and `If-None-Match` header are absent in New mode and present in Updated mode only when cached and truthy |
| `WaniKani.RecordPage` | addon/__init__.py:309-312 | the per-item loop writes each item's characters under its id in order |
| `WaniKani.RecordIsUpdate` | addon/__init__.py:309-312 | recording a page into a map is `dict.update` with that page's own map, whose keys are the page's ids |
| `WaniKani.RecordLastWins` | addon/__init__.py:309-312 | the last item carrying an id decides that id's characters |
| `WaniKani.DefsOfIsUpdate` | addon/__init__.py:307-316 | each page's definitions overwrite those gathered from earlier pages |
| `WaniKani.NotModifiedDiscardsDefinitions` | addon/__init__.py:303-305 | a 304 on any request of the subject walk gives `(None, None, {})`, whatever earlier pages brought |
| `WaniKani.DefinitionsAreUnionOfPages` | addon/__init__.py:307-317 | a completed subject walk answers the last page's ETag and `data_updated_at` and a definition for exactly the ids on its pages |
| `Sync.MissingIds` | addon/__init__.py:224 | `missing_ids` is a subset of the reported ids, disjoint from the answered ids, and covers every reported id that was not answered |
| `Sync.WriteBack` | addon/__init__.py:229-240 | each watermark is overwritten only by a truthy fetched value; the new definitions are old, then the incremental answer, then the follow-up answer, later winning; ids in neither answer keep their text |
| `Sync.UpdateUnlockedKanji` | addon/__init__.py:219-241 | on any fetch error the cache is untouched, otherwise it becomes the pass's result; the incremental walk asks for the reported plus cached ids in Updated mode; the incremental walk happens exactly when the assignment walk succeeds; the follow-up walk happens exactly when ids are missing, for exactly those ids, with the corrected header (no `If-None-Match`) |
| `Sync.Store` | addon/__init__.py:229-240 | the six guarded writes leave the config's cache equal to the write-back of the fetched results |
| `Sync.NotModifiedPassKeepsCache` | addon/__init__.py:220-240 | when both conditional requests return 304, the pass leaves the cache exactly as it was, whatever the follow-up script holds |
| `Sync.FollowUpOnlyWhenMissing` | addon/__init__.py:225-228 | when no id is missing, the follow-up script has no influence on the pass |
| `Sync.FollowUpWatermarksDiscarded` | addon/__init__.py:226 | the follow-up walk's ETag and timestamp never reach the cache's watermarks |
| `Sync.WriteBackIdempotent` | addon/__init__.py:229-240 | writing the same fetched results back twice equals writing them once |
| `Sync.ReportedIdsGetDefinitions` | addon/__init__.py:220-240 | if the follow-up walk answers every id it asks about, every id the assignment feed reported ends up cached |
| `Sync.PassKeepsCachedIds` | addon/__init__.py:237-240 | a successful pass never removes a cached id |

## Left out

- Cache.FromJson: accepts only string or null watermarks and a string-valued `definitions` object. The add-on
  also keeps other JSON values unchanged (an object-valued watermark, non-string definition values); the model's
  `Option<string>` fields cannot hold them. A truthy stored entry that is not an object makes `from_json` raise
  (`.get` on it fails); the model excludes it.

- HTTP and JSON plumbing (`urllib.request`, header objects, `json.loads`). Pages arrive already decoded, and
  assignment and subject records are reduced to the fields the add-on reads.
- URL text: the fixed filters and the `ids=` list are kept as structured query parameters. `",".join(kanji_ids)`
  over a Python set has no specified order.
- `Settings.KanjiQuery`: `str.format` is modelled for templates with exactly one `{kanji}` placeholder and no
  escaped braces. The query is defined for any enumeration of the cached ids; the dictionary's insertion order is
  not modelled.
- Cache aliasing: the cache is a value held in `Config.kanjiListCache`. Each in-place field assignment is a
  reassignment of that field. No other reference to the cache object exists in this code.
- `Config.save`, `Config.from_config` and `mw`: host configuration storage. `update_unlocked_kanji` ends with
  `config.save()`; the model ends with the updated `Config`.
- `sync_wani_kani`, `find_unsuspendable_kanji_cards`, `reshow_card`, `current_note_in_review`, `note.flush`: host
  collection queries, card unsuspension, review UI and report text (including the `time()` measurements).
  `find_unsuspendable_kanji_cards` also refers to an undefined `query` and is never called.
- `toggle_sound`: it depends on the host's sound-tag parser and a file-existence check. What is left is a
  plain field assignment.
- `stripHTMLMedia` is an arbitrary function parameter of the swap.
- `FinderButFast`, `_findFieldButFaster`, `make_searching_fast`, `normalize_field_name`, `wrap_list_and_add` and
  the shortcut/menu registration: monkeypatching, an SQLite user function, Unicode normalisation and UI wiring.
  The `should_searching_be_fast` field of `Config` is read only by the fast-search patch and by
  `sync_wani_kani`'s report text, both left out; `Config.from_json` loads it and `Config.save` stores it.
  Of `Config.from_json`, only the reading of the stored cache entry is modelled (`Settings.LoadedCache`).
- Transport failures are modelled only as a response script that runs out (`NoReply`); a timeout is not
  distinguished from it.
- The model's pages always carry `data_updated_at`, `data` and `pages`, and its records always carry
  `subject_id`, `id` and `characters`; the `KeyError` a malformed page or record raises is not modelled.

## Findings

| source | as written | input that shows it | evidently intended | confidence | as-written member | corrected member |
|---|---|---|---|---|---|---|
| addon/__init__.py:290-298 | `updated = None` rebinds the mode parameter, so the guard `updated != NEW_KANJI` on `If-None-Match` compares `None` (then a timestamp) with "New" and is true in both modes | `get_kanji_definitions(config, missing_ids, updated=NEW_KANJI)` with `last_definition_etag = "W/abc"`: the first request carries `If-None-Match: W/abc` | New mode sends no `If-None-Match`, like the `updated_after` guard at line 288 | high; not executed | `WaniKani.DefinitionsIfNoneMatchAsWritten`, `WaniKani.NewModeSendsCachedEtagAsWritten` | `WaniKani.DefinitionsIfNoneMatch`, `WaniKani.GetKanjiDefinitions`, `Sync.UpdateUnlockedKanji` |

The as-written header is `WaniKani.DefinitionsIfNoneMatchAsWritten`. Under it, the follow-up walk for
never-seen ids could be answered with a 304. The follow-up would then return `{}`, and those ids would stay
without a definition. The rest of the model uses the corrected header, `WaniKani.DefinitionsIfNoneMatch`.
