# SkinsRestorer skin cache and skin resolution, modelled in Dafny

This project models two pieces of the SkinsRestorer server plugin.

- **`SkinStorage`** is the plugin's cache of skin records. It maps lowered player names to `SkinProfile` records. It offers a forced-flag query, remove, a set that always pins the record as forced, and an atomic get-or-create that inserts a placeholder. It also has a load that merges the cache file into the live map and a save that exports only the records that should be serialised.
- **`SkinFetchUtils.fetchSkinProfile`** resolves a player's skin from the Mojang API. If it has a UUID, it first looks the skin up by that UUID. It keeps that answer only when the returned name matches the requested one ignoring case. Otherwise it looks up the name's profile and then the skin for that profile's id. Every failure becomes a `SkinFetchFailedException` with one `Reason`.

Files:

- `wrappers.dfy`: `Option` and `Result`.
- `text.dfy`: ASCII `toLowerCase` (`Lower`) and `equalsIgnoreCase`.
- `format.dfy`: the `Profile` and `SkinProfile` records, as far as the cache and the pipeline use them.
- `storage.dfy`: the class `SkinStorage`. Its `skins` field is a `map` that each method reassigns. Each method is tied to a function that gives its effect on the map, and lemmas state the cache's properties about those functions.
- `fetch_utils.dfy`: the pipeline as pure functions. The Mojang API is a value `MojangApi` holding two functions. Each returns a `Result` whose failure is a `Throwable`: `SkinFetchFailed(e)`, `JsonSyntax` or `OtherThrowable(className)`. Java's nested `try`/`catch` becomes explicit branching. Each evaluation also returns the API calls it made, in order.

Notes on the code as written:

- **Malformed cache file.** `loadData` catches only `JsonIOException` and `IOException` (`src/main/java/skinsrestorer/shared/storage/SkinStorage.java:85`). A syntactically malformed file makes the decoder throw `JsonSyntaxException`, which is a `RuntimeException`, so it leaves `loadData` uncaught. The empty handler at `src/main/java/skinsrestorer/shared/storage/SkinStorage.java:85-86` shows load failures are meant to be silent, but `JsonSyntaxException` is not among the caught types, so it also propagates out of `init` (line 53). `SkinStorage.LoadData` returns `thrown == true` exactly for a `Malformed` file, and the map is left unchanged.
- **Fast-path failures.** The inner handler of the UUID fast path catches only `SkinFetchFailedException` (`src/main/java/skinsrestorer/shared/utils/SkinFetchUtils.java:37`). A `JsonSyntaxException` or any other throwable from the UUID lookup therefore skips the name-based fallback. The outer handlers turn it into `SKIN_RECODE_FAILED` or `GENERIC_ERROR`.
- **Placeholder name.** The placeholder's profile name is the lowered key, not the player's display case. This is kept as written.

## Model

| member | source | states |
|---|---|---|
| `Text.Lower` | src/main/java/skinsrestorer/shared/storage/SkinStorage.java:59 | `toLowerCase` keeps the length and lowers each character at its own position (ASCII letters only) |
| `Text.LowerIdempotent` | src/main/java/skinsrestorer/shared/storage/SkinStorage.java:59 | a lowered name has no upper-case letter, and lowering it again gives the same key |
| `Text.EqualsIgnoreCaseIffSameLower` | src/main/java/skinsrestorer/shared/utils/SkinFetchUtils.java:34 | `equalsIgnoreCase` holds of two names exactly when their lowered forms (cache keys) are equal |
| `Text.EqualsIgnoreCaseIsEquivalence` | src/main/java/skinsrestorer/shared/utils/SkinFetchUtils.java:34 | the fast path's name comparison is reflexive, symmetric and transitive |
| `Format.SkinProfile.CloneAsForced` | src/main/java/skinsrestorer/shared/storage/SkinStorage.java:71 | the copy stored by `setSkinData` is forced whatever the original's flag, and keeps the profile, payload and timestamp |
| `Storage.Removed` | src/main/java/skinsrestorer/shared/storage/SkinStorage.java:66-68 | removal deletes exactly the lowered key; every other key and record is unchanged, and an absent key is a no-op |
| `Storage.Stored` | src/main/java/skinsrestorer/shared/storage/SkinStorage.java:70-72 | set puts a forced copy of the record (same profile, payload, timestamp) at the lowered key and changes no other key |
| `Storage.GetOrCreate` | src/main/java/skinsrestorer/shared/storage/SkinStorage.java:74-76 | a present key returns its record and leaves the map unchanged; an absent key gets a placeholder with profile (null id, lowered key), no payload, timestamp 0 and not forced, and nothing else changes |
| `Storage.Merged` | src/main/java/skinsrestorer/shared/storage/SkinStorage.java:79-87 | a decoded file's entries are added and override live ones, other live entries stay; an unreadable, empty or malformed file leaves the map as it was |
| `Storage.Exported` | src/main/java/skinsrestorer/shared/storage/SkinStorage.java:92-96 | the exported map holds exactly the live entries whose record should be serialised, with the same records |
| `Storage.SkinStorage.constructor` | src/main/java/skinsrestorer/shared/storage/SkinStorage.java:56 | the cache starts empty |
| `Storage.SkinStorage.IsSkinDataForced` | src/main/java/skinsrestorer/shared/storage/SkinStorage.java:58-64 | true exactly when an entry exists at the lowered name and it is forced; an absent entry gives false; the map is not modified |
| `Storage.SkinStorage.RemoveSkinData` | src/main/java/skinsrestorer/shared/storage/SkinStorage.java:66-68 | the new map is `Removed` of the old one |
| `Storage.SkinStorage.SetSkinData` | src/main/java/skinsrestorer/shared/storage/SkinStorage.java:70-72 | the new map is `Stored` of the old one, and the name is forced afterwards |
| `Storage.SkinStorage.GetOrCreateSkinData` | src/main/java/skinsrestorer/shared/storage/SkinStorage.java:74-76 | the returned record and the new map are those of `GetOrCreate` on the old map |
| `Storage.SkinStorage.LoadData` | src/main/java/skinsrestorer/shared/storage/SkinStorage.java:79-87 | the new map is `Merged` of the old one, and an exception escapes exactly when the file is malformed JSON |
| `Storage.SkinStorage.SaveData` | src/main/java/skinsrestorer/shared/storage/SkinStorage.java:89-102 | the snapshot handed to the encoder is `Exported` of the live map, and the live map is not modified |
| `Storage.SetThenForced` | src/main/java/skinsrestorer/shared/storage/SkinStorage.java:70-72 | after set the name is forced, and an unforced profile is not itself what gets stored |
| `Storage.RemoveThenFresh` | src/main/java/skinsrestorer/shared/storage/SkinStorage.java:66-76 | after remove the name is not forced, and get-or-create then returns a fresh placeholder |
| `Storage.GetOrCreateIdempotent` | src/main/java/skinsrestorer/shared/storage/SkinStorage.java:75 | a second get-or-create returns the same record and leaves the map as the first one left it |
| `Storage.KeysIgnoreCase` | src/main/java/skinsrestorer/shared/storage/SkinStorage.java:58-76 | names that are equal ignoring case address the same entry in query, remove, set and get-or-create |
| `Storage.KeyOfKey` | src/main/java/skinsrestorer/shared/storage/SkinStorage.java:58-76 | every operation on a name and on its lowered form gives the same result |
| `Storage.OperationsKeepNormalised` | src/main/java/skinsrestorer/shared/storage/SkinStorage.java:66-76 | remove, set and get-or-create keep every key in lower case |
| `Storage.MergeKeepsNormalisedIff` | src/main/java/skinsrestorer/shared/storage/SkinStorage.java:83 | loading keeps every key in lower case exactly when the file's keys are, since `putAll` does not lower them |
| `Storage.ExportedIsSubmap` | src/main/java/skinsrestorer/shared/storage/SkinStorage.java:92-96 | the save filter only drops entries, so lower-case keys stay lower case |
| `Storage.SaveLoadRoundTrip` | src/main/java/skinsrestorer/shared/storage/SkinStorage.java:79-96 | loading a saved export into an empty cache gives exactly the entries that should be serialised |
| `Storage.PlaceholderNotSaved` | src/main/java/skinsrestorer/shared/storage/SkinStorage.java:75-96 | if placeholders are not serialised, creating one does not change what a save writes |
| `Storage.FailedLoadLeavesEmpty` | src/main/java/skinsrestorer/shared/storage/SkinStorage.java:79-87 | an unreadable, empty or malformed file leaves a fresh cache empty |
| `FetchUtils.WithReason` | src/main/java/skinsrestorer/shared/utils/SkinFetchUtils.java:57-60 | `new SkinFetchFailedException(r).getReason() == r`, with no cause |
| `FetchUtils.Wrapping` | src/main/java/skinsrestorer/shared/utils/SkinFetchUtils.java:62-65 | wrapping a throwable gives reason `GENERIC_ERROR`, with that throwable as its cause |
| `FetchUtils.ByName` | src/main/java/skinsrestorer/shared/utils/SkinFetchUtils.java:40-41 | the name path calls `getProfile(name)` first; if that throws, only its throwable escapes; otherwise the result is `getSkinProfile` of the returned id |
| `FetchUtils.Rethrown` | src/main/java/skinsrestorer/shared/utils/SkinFetchUtils.java:42-47 | a JSON syntax error gives `SKIN_RECODE_FAILED`, a `SkinFetchFailedException` is rethrown as it is, and anything else becomes a wrapped `GENERIC_ERROR` |
| `FetchUtils.FetchSkinProfile` | src/main/java/skinsrestorer/shared/utils/SkinFetchUtils.java:29-49 | one to three calls, in the order UUID lookup (only with a UUID), then `getProfile(name)`, then, only when that succeeded, `getSkinProfile` of the id it returned; a returned record is the UUID lookup's with a case-insensitively matching name, or the skin for the name's current id |
| `FetchUtils.NoUuidTakesNamePath` | src/main/java/skinsrestorer/shared/utils/SkinFetchUtils.java:31-41 | without a UUID the first call is `getProfile(name)`; when it succeeds the calls are exactly that and `getSkinProfile` of its id, and the result is that lookup's after the outer handlers; when it fails, that failure is rethrown after the one call |
| `FetchUtils.FastPathHit` | src/main/java/skinsrestorer/shared/utils/SkinFetchUtils.java:31-36 | a UUID lookup whose name matches ignoring case is returned at once, and `getProfile` is never called |
| `FetchUtils.FallbackIsNamePath` | src/main/java/skinsrestorer/shared/utils/SkinFetchUtils.java:34-41 | a mismatched name, or a `SkinFetchFailedException` from the UUID lookup, gives exactly the result and calls of the name-based fetch, after the one UUID call |
| `FetchUtils.FastPathEscapes` | src/main/java/skinsrestorer/shared/utils/SkinFetchUtils.java:33-47 | any other throwable from the UUID lookup skips the fallback: the only call is the UUID lookup, and a JSON syntax error gives `SKIN_RECODE_FAILED` while anything else gives a wrapped `GENERIC_ERROR` |
| `FetchUtils.NamePathExceptionRethrown` | src/main/java/skinsrestorer/shared/utils/SkinFetchUtils.java:40-45 | a `SkinFetchFailedException` from `getProfile` reaches the caller unchanged, with the same reason |
| `FetchUtils.FailureComesFromLastCall` | src/main/java/skinsrestorer/shared/utils/SkinFetchUtils.java:29-49 | every failure comes from the last call made, through the outer handlers, so the caller sees one reason from the closed set |
| `FetchUtils.ExampleFastPath` | src/main/java/skinsrestorer/shared/utils/SkinFetchUtils.java:31-36 | for UUID "abc-123" answering "notch" to a request for "Notch", the answer is returned after one call |
| `FetchUtils.ExampleFallback` | src/main/java/skinsrestorer/shared/utils/SkinFetchUtils.java:31-41 | for a UUID now answering "OldName" to a request for "NewName", the result is the name path's, after three calls |

## Left out

- JSON encoding and decoding, the `GsonTypeAdapter`, the reader and writer helpers, `mkdirs` and the cache file path are not modelled. These are I/O and a foreign library. Load receives what reading produced (`CacheFile`). Save returns the map that would be encoded.
- `SaveLoadRoundTrip` assumes the encoder and decoder pair, including the `GsonTypeAdapter` of `SkinProfile` (not part of this model), gives back every exported record unchanged: reading the written file is taken to produce `Decoded` of the exported map.
- A failed write in `saveData` is only logged, and it leaves the live map untouched, which the model already says. The file contents after a failed write are not modelled.
- Cache-file entries whose value is JSON `null` are not modelled. `ConcurrentHashMap.putAll` would throw part-way through on such an entry. `CacheFile.Decoded` holds only non-null records.
- Concurrency is not modelled. This covers the atomicity of `ConcurrentHashMap.compute` and the linearizability of the per-key operations. Operations are sequential.
- The singleton instance and the static `init(pluginfolder)` wiring are not modelled. They only connect the plugin to the cache.
- `SkinProfile.shouldSerialize` is not part of this model. Its source is not available, and it may depend on a clock. `Exported`, `SaveData` and the save lemmas take it as a parameter. `PlaceholderNotSaved` assumes `shouldSerialize` rejects the placeholder (null id, no payload, timestamp 0, not forced).
- Only what the cache and the pipeline use of `SkinProfile` and `Profile` is modelled. The skin payload is an opaque optional string. `cloneAsForced` is a copy with the forced flag set.
- The Mojang API's HTTP requests, response parsing and rate limiting are not modelled. Its two lookups are arbitrary functions to a success or a throwable. How a transport or parse failure becomes `SkinFetchFailed`, `JsonSyntax` or another throwable is the API's business.
- A UUID is modelled by its `toString()` text.
- Null player names, null profile names and null returns from the API are not modelled. The Java would throw `NullPointerException` for some of them.
- Exception messages and their localized `Reason` texts (`getExceptionCause`) are not modelled. They are localization, not logic.
- `Text.Lower` and `Text.EqualsIgnoreCase` handle case on ASCII letters only. Java's locale-dependent `toLowerCase`, full Unicode case mapping and UTF-16 code units are not modelled.
