# schengen-visa in Dafny

A model of the core of `schengen-visa`, a TypeScript library that checks
Schengen visa-appointment sites and answers questions from reference tables
of consulate contacts, visa requirements and document checklists. The model
covers five parts.

- **`Cache`** (`cache.dfy`). An in-memory key-value store.
  - Entries expire lazily once `now > expiresAt`.
  - A size cap evicts the oldest-inserted key.
  - It keeps hit and miss counters, an enable switch and a mutable default TTL.
  - The class `Caching.Cache` holds the fields the TypeScript class updates.
  - Each of its methods is proved equal to a step function on a `CacheState`
    snapshot. The lemmas about the step functions state what `get`, `set`,
    `has`, `clear`, `clearExpired`, `setEnabled` and `setTTL` promise.
- **`StatisticsTracker`** (`statistics.dfy`). Counters of checks, a window of
  the last 100 response times with a rounded mean, and per-country records
  kept in a JavaScript `Map`.
  - The class `Stats.StatisticsTracker` is proved against `RecordStep`.
  - `Consistent` is the invariant `RecordStep` preserves: successful plus failed
    equals total, hits plus misses equals total, and the per-country checks and
    successes sum to the counters.
  - The top-ten list is a stable sort by check count, cut to ten.
- **`SchengenChecker`** (`checker.dfy`).
  - option defaults;
  - the keyword classifier for a centre's page;
  - the shape of a check's result for each HTTP outcome;
  - the batch loop;
  - `hasFullInfo`.
- **Lookups over the reference tables** (`contact_info.dfy`,
  `visa_requirements.dfy`, `document_checklist.dfy`). These are `filter` and
  `find` with a lower-cased country id. Each table is a parameter, not its
  literal contents.
- **Shared definitions.**
  - `ordered_map.dfy`: a JavaScript `Map` as an insertion order plus a map.
    `set` on a present key keeps its place.
  - `seqs.dfy`: `filter`, `find` and subsequences.
  - `text.dfy`: ASCII `toLowerCase`, `includes` and integer printing.
  - `types.dfy`: the record shapes.
  - `wrappers.dfy`: `Option` and `Result`.

The clock (`Date.now()`, `new Date()`) is an integer parameter `now`.
Rates and means are `real`, and `Math.round` is `floor(x + 1/2)`. The
constants module (`SCHENGEN_ULKELERI`, `VIZE_MERKEZLERI`, `getCountryConfig`)
is not part of this model. It enters as the parameters `reg` and `configOf`.
The HTTP request enters as its outcome (`HttpOutcome`).

## Model

| member | source | states |
|---|---|---|
| Caching.Initial | src/utils/Cache.ts:12-19 | a new cache is empty with zero counters; each option defaults (`enabled` true, `ttl` 300000, `maxSize` 100) only when absent, so an explicit 0 or false is kept |
| Caching.GetStep | src/utils/Cache.ts:24-46 | a `get` that returns data counts one hit and no miss, one that returns nothing counts one miss and no hit; the options stay and the map stays well formed |
| Caching.GetWhenDisabled | src/utils/Cache.ts:25-28 | when disabled, `get` returns nothing, counts one miss and leaves the storage untouched |
| Caching.GetAbsent | src/utils/Cache.ts:30-35 | on an enabled cache, a key that is not stored is a miss that changes nothing else |
| Caching.GetExpired | src/utils/Cache.ts:37-42 | a stale entry (`now > expiresAt`) is deleted, the map shrinks by one, no other key changes, one miss is counted and nothing is returned |
| Caching.GetLive | src/utils/Cache.ts:30-45 | a live entry, including one at `now == expiresAt`, returns its data and counts only a hit |
| Caching.GetHitIff | src/utils/Cache.ts:24-46 | `get` returns data exactly when the cache is enabled and the key holds a live entry, and exactly when it counts a hit |
| Caching.EvictOldest | src/utils/Cache.ts:56-63 | eviction keeps the map well formed and only removes entries |
| Caching.SetStep | src/utils/Cache.ts:51-73 | `set` never touches the counters or the options |
| Caching.SetStoresEntry | src/utils/Cache.ts:65-72 | on an enabled cache, `set` stores the data with `timestamp = now` and `expiresAt = now + (ttl ?? options.ttl)`, an explicit 0 included |
| Caching.SetWhenDisabled | src/utils/Cache.ts:52-54 | `set` on a disabled cache changes nothing |
| Caching.SetThenGet | src/utils/Cache.ts:51-73 | right after `set` with a non-negative TTL, `get` of the same key at the same time returns the data and counts a hit |
| Caching.SetEvictsBeforeOverwrite | src/utils/Cache.ts:57-63 | at capacity, `set` evicts the oldest key even when the key written is already present, so the size drops by one |
| Caching.EmptyOldestKeySkipsEviction | src/utils/Cache.ts:59-62 | when the oldest key is `""`, nothing is evicted and a new key takes the size past `maxSize` |
| Caching.SetKeepsSizeBound | src/utils/Cache.ts:57-72 | with `maxSize >= 1` and no empty key, `set` keeps the size at or below `maxSize` |
| Caching.OverwriteKeepsPosition | src/utils/Cache.ts:72 | below capacity, overwriting a key keeps the insertion order and every other entry |
| Caching.SetNewKeyAppends | src/utils/Cache.ts:72 | below capacity, a new key goes last in the insertion order |
| Caching.SetAtCapacityEvictsFirst | src/utils/Cache.ts:57-72 | at capacity, a new key is appended after the oldest key is removed |
| Caching.SetEach | src/utils/Cache.ts:51-73 | a run of `set` calls keeps the options and a well-formed map |
| Caching.FillInOrder | src/utils/Cache.ts:72 | filling an empty cache with up to `maxSize` distinct keys yields exactly those keys in order |
| Caching.FillThenOverflow | src/utils/Cache.ts:56-72 | one key past `maxSize` evicts exactly the first key inserted and keeps the rest in order |
| Caching.HasStep | src/utils/Cache.ts:78-94 | `has` never changes the counters or the options |
| Caching.HasAgreesWithGet | src/utils/Cache.ts:78-94 | `has` answers as `get` would and deletes what `get` would delete, without counting |
| Caching.GetAfterTtl | src/utils/Cache.ts:38-42 | an entry read after its TTL has passed is a miss and is deleted |
| Caching.ClearStep | src/utils/Cache.ts:99-103 | `clear` empties the storage and zeroes both counters |
| Caching.Sweep | src/utils/Cache.ts:108-115 | `clearExpired` keeps exactly the live entries, with their data and in their order |
| Caching.ClearExpiredStep | src/utils/Cache.ts:108-115 | `clearExpired` does not touch the counters or the options |
| Caching.SweepOne | src/utils/Cache.ts:110-113 | visiting the next key of the loop takes the swept prefix one key further |
| Caching.SweepEnds | src/utils/Cache.ts:108-115 | before the loop nothing is swept; after it the map is `Sweep` of the original |
| Caching.DropOrder | src/utils/Cache.ts:111-112 | deleting the stale key visited next leaves the live keys visited so far, then the unvisited keys |
| Caching.KeepOrder | src/utils/Cache.ts:111 | keeping a live key extends the kept prefix by that key |
| Caching.SetEnabledStep | src/utils/Cache.ts:137-142 | `setEnabled` sets the flag and leaves the other options alone; enabling keeps the storage and counters, disabling empties the storage and zeroes the counters |
| Caching.DisableThenEnable | src/utils/Cache.ts:137-142 | after disabling, the cache is empty with zero counters and misses every `get`; re-enabling does not bring entries back |
| Caching.SetTtlStep | src/utils/Cache.ts:147-149 | `setTTL` replaces the default TTL and keeps the storage, the counters, `enabled` and `maxSize` |
| Caching.SetTtlAffectsOnlyLaterSets | src/utils/Cache.ts:147-149 | `setTTL` leaves stored entries alone and only sets the expiry of later `set` calls without a TTL |
| Caching.Cache.constructor | src/utils/Cache.ts:12-19 | the new object's state is `Initial` of the options |
| Caching.Cache.Get | src/utils/Cache.ts:24-46 | the new state and the result are `GetStep` of the old state |
| Caching.Cache.Set | src/utils/Cache.ts:51-73 | the new state is `SetStep` of the old state |
| Caching.Cache.Has | src/utils/Cache.ts:78-94 | the new state and the answer are `HasStep` of the old state |
| Caching.Cache.Clear | src/utils/Cache.ts:99-103 | the new state is `ClearStep` of the old state |
| Caching.Cache.ClearExpired | src/utils/Cache.ts:108-115 | the loop over the keys leaves `Sweep` of the old map and nothing else changed |
| Caching.Cache.GetStats | src/utils/Cache.ts:120-132 | the reported size, limits and counters are the cache's own; the hit rate is hits as a percentage of lookups, 0 with no lookups |
| Caching.Cache.SetEnabled | src/utils/Cache.ts:137-142 | the new state is `SetEnabledStep` of the old state |
| Caching.Cache.SetTTL | src/utils/Cache.ts:147-149 | the new state is `SetTtlStep` of the old state, and the cache stays well formed |
| OrderedMaps.OrderedMap.First | src/utils/Cache.ts:59 | the first key of the iteration order, when there is one, is a stored key |
| OrderedMaps.OrderedMap.Put | src/utils/Cache.ts:72 | `Map.set` stores the value, changes no other key, keeps a present key's place and appends a new one |
| OrderedMaps.OrderedMap.Remove | src/utils/Cache.ts:39 | `Map.delete` removes the key, changes no other key, shrinks the size by one exactly when the key was present and keeps the order of the rest |
| OrderedMaps.Empty | src/utils/Cache.ts:13 | `new Map()` is empty |
| Stats.SuccessTestsAgree | src/utils/Statistics.ts:37-57 | the success test of the counters and that of the per-country records agree on every outcome |
| Stats.Round | src/utils/Statistics.ts:85 | `Math.round` lands within one half of its argument |
| Stats.Mean | src/utils/Statistics.ts:82-86 | the average response time is 0 for no samples, otherwise within one half of the samples' mean |
| Stats.MeanIntegerForm | src/utils/Statistics.ts:84-85 | the rounded mean equals `(2*sum + n) div (2*n)` |
| Stats.SumBounds | src/utils/Statistics.ts:84 | the sum of samples between two bounds lies between n times those bounds |
| Stats.MeanWithinRange | src/utils/Statistics.ts:82-86 | the rounded mean of samples between two bounds lies between them |
| Stats.PushSample | src/utils/Statistics.ts:50-53 | pushing a sample keeps the window at most 100 long and puts the sample last |
| Stats.LastSamples | src/utils/Statistics.ts:50-53 | the window is the last `min(n, 100)` samples of the history |
| Stats.WindowIsLastSamples | src/utils/Statistics.ts:50-53 | pushing a sample onto the last samples of a history gives the last samples of the longer history |
| Stats.UpdateCountry | src/utils/Statistics.ts:65-77 | the country's record gains one check, one success when successful, and the response time; other countries are unchanged; a new country goes last |
| Stats.SumOverIgnores | src/utils/Statistics.ts:65-77 | a record outside the summed keys does not change a sum |
| Stats.SumOverAppend | src/utils/Statistics.ts:94 | a sum over two runs of keys is the sum of the two sums |
| Stats.SumOverReplace | src/utils/Statistics.ts:76 | replacing one record changes a sum by the difference of the two records |
| Stats.CountryTotalsAfterUpdate | src/utils/Statistics.ts:65-77 | one update adds exactly one check, and one success when successful, to the totals over all countries |
| Stats.FirstRecord | src/utils/Statistics.ts:16-77 | the first record on a fresh tracker gives one check counted by its outcome and source, a window holding its time, an average equal to that time, and one country with one check |
| Stats.InitialStatistics | src/utils/Statistics.ts:17-26 | the initial counters and mean are 0 and the top list is empty |
| Stats.InitialTracker | src/utils/Statistics.ts:16-29 | a new tracker is consistent, with no countries and an empty window |
| Stats.RecordStep | src/utils/Statistics.ts:34-60 | each record adds exactly one check and stamps `lastUpdated` |
| Stats.RecordCounts | src/utils/Statistics.ts:35-47 | the counter updates (`CountCheck`): exactly one of successful and failed moves (successful for musait, dolu and bilinmiyor), and exactly one of cache hits and misses, as `fromCache` says |
| Stats.RecordCountryEffect | src/utils/Statistics.ts:57-76 | the checked country gains a check, a success unless hata or timeout, and the response time; no other country changes |
| Stats.RecordPreservesConsistency | src/utils/Statistics.ts:34-77 | the counting invariants survive every record: successful plus failed and hits plus misses equal total, per-country sums match the counters, successes never exceed checks, and the window holds `min(total, 100)` samples whose rounded mean is the average |
| Stats.MakeStat | src/utils/Statistics.ts:96-103 | a country view carries the configured name and flag, falling back to the country id and the white flag when absent or empty (`DisplayName`, `DisplayFlag`), the check count, the success rate as a percentage of checks and the rounded mean time per check, both 0 without checks, the rate between 0 and 100 |
| Stats.InsertByCheckCount | src/utils/Statistics.ts:106 | one insertion step of the sort keeps the same elements |
| Stats.InsertMembers | src/utils/Statistics.ts:106 | an insertion step adds nothing but the inserted element |
| Stats.SortedTail | src/utils/Statistics.ts:106 | the tail of a descending list is descending |
| Stats.SortedCons | src/utils/Statistics.ts:106 | a head no smaller than the rest extends a descending list |
| Stats.InsertKeepsSorted | src/utils/Statistics.ts:106 | inserting into a descending list keeps it descending |
| Stats.SortByCheckCount | src/utils/Statistics.ts:106 | the sort is a permutation and is descending by check count |
| Seqs.FilterCons | src/utils/Statistics.ts:106 | filtering a list with a head filters the head, then the tail |
| Stats.InsertKeepsTies | src/utils/Statistics.ts:106 | an insertion step keeps the relative order of elements with the same count |
| Stats.InsertPassesLarger | src/utils/Statistics.ts:106 | moving past a larger element does not reorder equal counts |
| Stats.FilterSwap | src/utils/Statistics.ts:106 | swapping two elements that do not both pass a test leaves its filter unchanged |
| Stats.SortIsStable | src/utils/Statistics.ts:106 | countries with equal counts keep their `Map` insertion order |
| Stats.Take | src/utils/Statistics.ts:106 | `slice(0, n)` keeps the first `min(length, n)` elements |
| Stats.StatRows | src/utils/Statistics.ts:94-104 | one view per recorded country, in `Map` order |
| Stats.MostChecked | src/utils/Statistics.ts:91-107 | the top list holds `min(countries, 10)` views, in descending order of checks |
| Stats.MostCheckedRowsAreRecorded | src/utils/Statistics.ts:94-106 | every row of the top list is the view of a recorded country |
| Stats.MostCheckedAreTop | src/utils/Statistics.ts:91-107 | a recorded country is in the top list, or the list is full of countries checked at least as often |
| Stats.Percent | src/utils/Statistics.ts:158-170 | a part as a percentage of a whole, 0 for an empty whole, between 0 and 100 when the part fits |
| Stats.StatisticsTracker.constructor | src/utils/Statistics.ts:16-29 | the new tracker is consistent, with zero counters and no countries or samples |
| Stats.StatisticsTracker.RecordCheck | src/utils/Statistics.ts:34-60 | the new state is `RecordStep` of the old one, and the window remains the last 100 samples recorded |
| Stats.StatisticsTracker.UpdateCountryStats | src/utils/Statistics.ts:65-77 | the country map becomes `UpdateCountry` of the old one and nothing else changes |
| Stats.StatisticsTracker.GetMostCheckedCountries | src/utils/Statistics.ts:91-107 | the loop over the countries and the sort give `MostChecked` of the country map |
| Stats.StatisticsTracker.GetStatistics | src/utils/Statistics.ts:112-117 | the counters as they are, with the top list filled in |
| Stats.StatisticsTracker.GetCountryStatistics | src/utils/Statistics.ts:122-135 | no view for a never-recorded country, otherwise its `MakeStat` view, with at least one check and a rate between 0 and 100 |
| Stats.StatisticsTracker.Reset | src/utils/Statistics.ts:140-153 | all counters zero, no countries and no samples, and the tracker consistent again |
| Stats.StatisticsTracker.GetSuccessRate | src/utils/Statistics.ts:158-161 | successful checks as a percentage of all checks, 0 before any check, between 0 and 100 |
| Stats.StatisticsTracker.GetCacheHitRate | src/utils/Statistics.ts:166-170 | cache hits as a percentage of hits and misses, 0 before any check, between 0 and 100 |
| Checker.ClassifyPage | src/SchengenChecker.ts:103-118 | the page is dolu exactly when a full keyword occurs in the lower-cased body, musait exactly when none does and an available keyword does, and otherwise bilinmiyor, each with its message |
| Checker.NoAppointmentIsFull | src/SchengenChecker.ts:106-114 | a body containing "no appointment" contains the available keyword "appointment" and is still dolu |
| Checker.GercekRandevuKontrol | src/SchengenChecker.ts:83-158 | status 200 is classified and reachable with `httpDurum` 200; another status below 500 is hata, unreachable, with that status and its message; a timeout is timeout with no status; a status of 500 or more and every other error is thrown |
| Checker.BatchEntry | src/SchengenChecker.ts:169-185 | a thrown error becomes a hata entry for the country with the error's message and an empty URL |
| Checker.SchengenChecker.constructor | src/SchengenChecker.ts:29-32 | a falsy city or rate limit (absent, `''`, 0) takes the default `ankara` or 2000, so neither field is falsy |
| Checker.SchengenChecker.SchengenCaseInsensitive | src/SchengenChecker.ts:37-39 | `schengenMi` looks up the lower-cased id, so ids differing only in letter case get the same answer |
| Checker.SchengenChecker.ChosenSehir | src/SchengenChecker.ts:64 | a check's city is the non-empty option, otherwise the instance's city, never empty |
| Checker.SchengenChecker.ChosenVizeTipi | src/SchengenChecker.ts:65 | a check's visa type is the non-empty option, otherwise `turist`, never empty |
| Checker.SchengenChecker.MusaitRandevuKontrol | src/SchengenChecker.ts:44-78 | a non-Schengen country throws before any lookup; a country without a centre is bilinmiyor with an empty URL; otherwise the result carries the centre's URL and is the check's result for the chosen city and type, and any request error (a thrown failure or a status of 500 or more) becomes hata with the prefixed error message |
| Checker.SchengenChecker.TopluRandevuKontrol | src/SchengenChecker.ts:163-188 | exactly one result per input country, in input order, each the country's check or its error entry; non-Schengen countries give hata entries with an empty URL |
| Checker.SchengenChecker.TumUlkelerKontrol | src/SchengenChecker.ts:193-197 | one result per country of the centre table, in key order, each the batch entry of that key's check; a lower-case Schengen key carries its own centre's URL |
| Checker.SchengenChecker.GetCountryFullInfo | src/SchengenChecker.ts:305-318 | the configuration, the country's contacts, and its tourist requirements and checklist |
| Checker.SchengenChecker.HasFullInfoIff | src/SchengenChecker.ts:305-318 | `hasFullInfo` holds exactly when there is a configuration, a contact of the country, and a tourist requirement record and checklist for it |
| ContactLookup.GetContactInfo | src/data/contact-info.ts:93-99 | the records returned are of the lower-cased country, of the lower-cased city when one is given, in table order |
| ContactLookup.GetContactInfoComplete | src/data/contact-info.ts:94-96 | every matching record is returned as often as the table holds it, and nothing else |
| ContactLookup.NoCityMeansWholeCountry | src/data/contact-info.ts:95-98 | without a city, absent or `''`, the result is every record of the country |
| ContactLookup.CityNarrowsCountry | src/data/contact-info.ts:94-97 | the result with a city is a subsequence of the result without one |
| ContactLookup.ContactCaseInsensitive | src/data/contact-info.ts:94 | country ids differing only in letter case give the same records |
| RequirementLookup.GetVisaRequirements | src/data/visa-requirements.ts:131-135 | a record of the lower-cased country and the exact visa type (default `tourist`) from the table, absent exactly when the table has none |
| RequirementLookup.VisaRequirementsFirstMatch | src/data/visa-requirements.ts:131-135 | the record returned is the first match in table order |
| RequirementLookup.GetAllVisaTypes | src/data/visa-requirements.ts:137-139 | records of the lower-cased country only, in table order |
| RequirementLookup.AllVisaTypesComplete | src/data/visa-requirements.ts:137-139 | every record of the country is returned as often as the table holds it |
| RequirementLookup.RequirementsAmongAllTypes | src/data/visa-requirements.ts:131-139 | the requirements are the first of the country's records with the visa type, so they are defined exactly when such a record exists |
| RequirementLookup.RequirementsCaseInsensitive | src/data/visa-requirements.ts:133-138 | country ids differing only in letter case give the same results |
| ChecklistLookup.GetDocumentChecklist | src/data/document-checklist.ts:161-165 | a checklist of the lower-cased country and the exact visa type (default `tourist`), absent exactly when the table has none |
| ChecklistLookup.ChecklistFirstMatch | src/data/document-checklist.ts:161-165 | the checklist returned is the first match in table order |
| ChecklistLookup.ChecklistCaseInsensitive | src/data/document-checklist.ts:163 | country ids differing only in letter case give the same checklist |

## Left out

- HTTP request. The request (`axios.get` with its headers, 10-second timeout and
  redirect limit) is not modelled. Its outcome is the input `HttpOutcome`: a
  response with status and body, a timeout (`ECONNABORTED`), or another error
  with its message.
- HTTP error message. A status of 500 or more, rejected by `validateStatus`,
  is modelled as an error with the HTTP client's message "Request failed with
  status code N". That text comes from the client library, not from this
  repository.
- `Checker.SchengenChecker.TopluRandevuKontrol`: the `bekle` sleep between
  requests and the `console.log` lines are not modelled, because they are
  timing and output. All results of one batch carry the same `now`.
- `Checker.SchengenChecker.TumUlkelerKontrol`: `Object.keys(VIZE_MERKEZLERI)`
  is the parameter `keys`. The URL clause of its ensures is stated for
  lower-case keys, which the centre table uses; every key's entry is tied to
  its check.
- Constants module. `SCHENGEN_ULKELERI`, `VIZE_MERKEZLERI`, `COUNTRY_CONFIGS`
  and `getCountryConfig` are not part of this model. They are the parameters
  `reg` and `configOf`, and the literal tables are not reproduced.
- Listing helpers of `SchengenChecker` are not modelled, because each only
  reads or forwards the constants module, which is not part of this model:
  - `vizeMerkeziBilgisi`, `vizeMerkezleriListele`, `sehreGoreVizeMerkezleri`;
  - `getAllCountries`, `getCountryById`, `getCountryByName`,
    `getCountriesByProvider`, `listCountriesWithFlags`.
- Forwarding wrappers. `getContactInfo`, `getVisaRequirements`,
  `getAllVisaTypes` and `getDocumentChecklist` on the class only forward to
  the data modules. Those functions are modelled directly.
- Unused fields. The `randevular` field is never read or written after
  construction. The options `ulke`, `cache` and `enableStatistics` are
  declared but unused by the class. None of them is modelled.
- `Text.ToLower`: lower-cases ASCII letters only. JavaScript's
  `toLowerCase` also lower-cases other scripts, for instance Turkish `İ`,
  which this model leaves unchanged.
- Non-string page bodies. A non-string `response.data` would make
  `toLowerCase` throw; the model takes the body as a string.
- `Caching.Cache.GetStats`: the hit rate is the real percentage. The
  `toFixed(2) + '%'` string, and `'0%'` when there were no lookups, are not
  modelled.
- Time stamps. `Date` stamps (`timestamp`, `lastUpdated`, `kontrolTarihi`)
  are the integer `now`. `Caching.SetStep` reads the clock once, while `set`
  calls `Date.now()` twice, for `timestamp` and for `expiresAt`; the model
  assumes both reads give the same time. Floating-point rounding of rates and means is not
  modelled: they are exact reals.
- `Caching.Cache.ClearExpired`: the loop deletes from a local copy of the map
  value and assigns it back at the end. The TypeScript code deletes from the
  live `Map` while iterating. Both visit every key of the original order once.
- `Stats.SortByCheckCount`: `Array.prototype.sort` is modelled as a stable
  insertion sort. Its result is determined by its stability and order, which
  are proved.
- `Stats.StatisticsTracker.RecordCheck`: the counter branches and the
  `push`/`shift` of the window are written as the functions `CountCheck` and
  `PushSample`. The method assigns their results.
- Facade composition. There is no composition of `Cache` and
  `StatisticsTracker` into the checker in the TypeScript class, and none is
  modelled.
- Compiled duplicates. The compiled files under `dist/` repeat the `src/`
  logic and are not modelled separately.
