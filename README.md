# sector_alarm navigation core, in Dafny

This project models the JSON-tree engine behind the two command-line front
ends of the Sector Alarm client, `interactive.py` and `main.py`. The client
works like this:

- It fetches each category of an alarm panel's data (doors, temperatures,
  logs and so on).
- It caches a redacted *skeleton* of each category. Values are nulled. The
  identifying fields `Name`, `Label`, `Id` and `Key` are kept, and only the
  backbone keys `Components`, `Places` and `Sections` are followed.
- The user navigates that skeleton through menus.
- At the chosen place, the client re-fetches the category live and replays
  the navigated path against it.

`main.py` adds three more pieces:

- a second navigator with its own descent and naming rules;
- a newest-first listing of the logs;
- redaction of serial numbers and a search by `Id`.

JSON values are the datatype `JsonValues.Json`. An object is an ordered
sequence of fields, because key order decides menus and first-match rules.
Python's `None` and JSON `null` are the single value `Null`. Objects are
assumed to have distinct keys, as a parsed dictionary does; `Get` takes the
first field with a key, which is the only one under that assumption. The network is
a parameter `fetch: map<string, Json>`: a category absent from the map is
one whose request failed. The interactive menus are replaced by pure
decision functions, whose outcome says:

- which node comes next, and along which path;
- which menu is offered;
- or where the data is resolved.

Modules, one per concern:

- `JsonValues` (json.dfy): the data model, plus Python's `dict.get`,
  `str()`, ASCII `.lower()` and truthiness.
- `Paths` (paths.dfy): steps and display paths, the list-item identifier,
  `int()` of a step key, and the resolver `fetch_data_at_path`.
- `Skeleton` (skeleton.dfy): `extract_structure`, and the "redaction of"
  relation `Mirrors`.
- `ShapeCaching` (cache.dfy): the cache as an insertion-ordered dictionary,
  and `build_cache` as a method of the class `ShapeCache`.
- `Statistics` (statistics.dfy): the `cache_statistics` traversal, with its
  counters threaded through a recursive method.
- `Navigator` (navigator.dfy): the decision of `interactive.py`'s
  `navigate_structure`, and the theorem that paths built on a skeleton
  replay on the live data.
- `LogOrder` (log_order.dfy): the stable newest-first sort of the logs.
- `MainNavigator` (main_navigator.dfy): `main.py`'s identifier and
  navigation decision, and where the two front ends agree and differ.
- `Masking` (masking.dfy): `mask_sensitive_data`.
- `IdSearch` (id_search.dfy): `find_items_by_id`, as a specification
  function and as the recursive method with its accumulating list.

`main.py`'s `get_display_path`, `fetch_data_at_path` and `cache_statistics`
(main.py:374-400 and main.py:412-430) are the same code as
`interactive.py`'s. They are modelled once, by the `Paths` and `Statistics`
members below.

## Model

| member | source | states |
|---|---|---|
| JsonValues.Get | interactive.py:307-308 | `d.get(k)`: present exactly when `k` is one of the object's keys, and then the value stored under it |
| Paths.Join | interactive.py:293-295 | joining no parts gives "", one part gives that part |
| Paths.JoinLength | interactive.py:293-295 | the length of a join is the parts' total plus one separator between each pair |
| Paths.JoinConcat | interactive.py:293-295 | joining two non-empty lists equals joining each and putting one separator between them |
| Paths.DisplayPathConcat | interactive.py:293-295 | the display of an extended path is the old display, " > ", then the display of the added steps |
| Paths.FirstTruthy | interactive.py:285-288 | scanning from a given position: `None` exactly when no listed key from there on is present and truthy; otherwise the position of the first such key in list order |
| Paths.Identifier | interactive.py:283-291 | a non-object gives its `str()`; an object gives the `str()` of its first truthy `Name`/`Label`/`Id`/`Key`, or "Item" when there is none |
| Paths.ParseIndex | interactive.py:311 | `int(key)` succeeds exactly on an optional sign followed by decimal digits |
| Paths.IndexKeyRoundTrip | interactive.py:309-312 | the key `str(i)` a menu writes for element `i` parses back to `i` |
| Paths.PyIndex | interactive.py:312 | `xs[i]` is in range exactly when `-len <= i < len`; a negative index counts from the end |
| Paths.WalkAppend | interactive.py:305-318 | replaying `ks + more` replays `ks` and then, only if that found a value, `more` from there |
| Paths.ShortCircuit | interactive.py:309-318 | once a step reaches a scalar or misses, every longer path misses too |
| Paths.FailedFetchResolvesToNull | interactive.py:300-302 | a category whose fetch fails resolves to `None` at every path |
| Paths.MissingKeyMisses | interactive.py:307-308 | a step into an object by a key it lacks misses, whatever steps follow |
| Paths.FetchDataAtPath | interactive.py:297-319 | the loop that replays a path returns the value the path resolves to, with `None` for a failed fetch or any miss |
| Skeleton.Extract | interactive.py:45-67 | a scalar becomes `None`; objects keep exactly their keys in order and lists their length; identifying fields are copied verbatim; below `Components` every other field is `None`; elsewhere only backbone fields are recursed, with the key appended to the key path; list elements keep the key path |
| Skeleton.ExtractIdempotent | interactive.py:45-67 | extracting a skeleton again with the same key path changes nothing |
| Skeleton.ExtractMirrorsSource | interactive.py:45-67 | a skeleton is a redaction of its source: same keys in the same order, same list lengths, every kept scalar unchanged |
| Skeleton.MirroredGet | interactive.py:307-308 | in two objects with the same keys, a lookup lands on the field at the same position |
| ShapeCaching.Put | interactive.py:90 | `cache[name] = s` keeps keys distinct; `name` then maps to `s`; every other key is unchanged; an existing key keeps its position and a new key goes last |
| ShapeCaching.BuiltLookup | interactive.py:80-90 | after the loop, a category whose fetch succeeded maps to the skeleton of its data; any other key keeps its old entry, since the cache is never cleared |
| ShapeCaching.BuiltKeepsOrder | interactive.py:80-90 | the loop keeps keys distinct; existing keys keep their positions; every new key is a category whose fetch succeeded |
| ShapeCaching.ShapeCache.BuildCache | interactive.py:69-92 | the loop leaves the cache as the left-to-right sequence of insertions does, with the lookups and the key order stated above |
| Statistics.Tally | interactive.py:119-128 | scalars count nothing |
| Statistics.TallyCountsOwnEntries | interactive.py:119-128 | an object counts at least its keys as sections, a list at least its length as items |
| Statistics.Traverse | interactive.py:119-128 | the recursive traversal adds exactly the node's tally to the counters it is given |
| Statistics.CacheStatistics | interactive.py:113-131 | categories is the number of cache entries; sections and items are the sums of key counts and list lengths at every depth of every cached tree |
| Statistics.TallyFieldsMonotone | interactive.py:119-128 | counts over a list of fields grow when each field's counts grow |
| Statistics.TallyItemsMonotone | interactive.py:119-128 | counts over a list of elements grow when each element's counts grow |
| Statistics.MirrorsTallyBound | interactive.py:119-128 | a redaction never counts more sections or items than the tree it redacts |
| Statistics.SkeletonTallyBound | interactive.py:113-131 | a cached skeleton's statistics never exceed those of the data it came from |
| Navigator.FirstPresent | interactive.py:188-189 | the first of `Places`, `Components`, `Sections` present in the object, in that priority order; none when none is present |
| Navigator.KeyChoices | interactive.py:204-228 | the sections menu has one entry per key, in order, stepping `(key, key)` into `d[key]` |
| Navigator.ItemChoices | interactive.py:248-270 | the items menu has one entry per element, entry `i` stepping `(str(i), identifier)` into element `i` |
| Navigator.Decide | interactive.py:185-281 | an object with a backbone key hops into the first one by priority; otherwise it resolves if all values are leaves, else offers its keys; an empty list reports empty; one element hops with key "0"; more elements give an indexed menu; a scalar or `None` resolves at the unchanged path |
| Navigator.SingleElementNeverMenu | interactive.py:241-246 | a one-element list always hops, with step `('0', identifier)`, and never shows a menu |
| Navigator.OnlyHopsDescend | interactive.py:185-281 | the navigator descends without asking only into a one-element list or an object with a backbone key |
| Navigator.MoveShape | interactive.py:185-281 | every move steps into an object by one of its keys, or into a list by the decimal index of an element |
| Navigator.MirroredMove | interactive.py:185-281 | a move made on a redaction is a step the redacted tree can take, landing on a node the move's target mirrors |
| Navigator.NavigatedStepsReplay | interactive.py:185-319 | every step sequence navigable in a redaction replays without a miss on the redacted tree |
| Navigator.SkeletonPathsReplay | interactive.py:185-319 | a path navigated in a category's cached skeleton replays on the live data the skeleton was extracted from; every key is present, every index in range, and the resolver returns the value found |
| MainNavigator.IdentifierMain | main.py:355-372 | a truthy `Time` wins over Name/Label/Id/Key: formatted if it parses, verbatim if not, a raised error if it is not text; without one, the identifier is the other front end's |
| MainNavigator.Identifiers | main.py:322-325 | the identifiers of all elements, or an error exactly when one of them raises |
| MainNavigator.IndexedChoices | main.py:337-341 | entry `i` of an items menu steps by key `str(i)`, labelled by the `i`-th identifier, into element `i` |
| MainNavigator.FirstBackboneKey | main.py:259-260 | the first key, in the object's own order, whose lower-case form is `places`, `components` or `sections`; none if there is no such key |
| MainNavigator.LogEntries | main.py:218-245 | the log menu lists the logs in sorted order; entry `i` steps `(str(i), identifier)`; an error exactly when an identifier raises |
| MainNavigator.LogsOutcome | main.py:204-248 | a failed fetch reports failure; a non-list payload reports an unexpected format; unsortable entries or a raising identifier raise; otherwise the sorted log menu |
| MainNavigator.DecideMain | main.py:200-353 | "logs" in any case lists the live logs; another string navigates its cached tree with the same path, or reports no data; an object hops into its first case-insensitive backbone key in its own order; all-leaf objects resolve; lists behave as in the other front end but name items by the main.py identifier, raising when one raises; other scalars resolve |
| MainNavigator.StringNodesAreCategories | main.py:201-256 | a string node resolves in `interactive.py` but is never resolved by `main.py`, which takes it for a category name |
| MainNavigator.BackbonePriorityDiffers | main.py:259-265 | with `Sections` before `Places`, `interactive.py` hops into `Places` but `main.py` hops into `Sections` |
| MainNavigator.CaseVariantBackbone | main.py:259-260 | only `main.py` follows a backbone key written in another case, such as `places` |
| MainNavigator.ObjectsWithoutBackboneAgree | main.py:257-304 | on an object with no backbone key in any case, both front ends decide alike |
| MainNavigator.ListsWithoutTimeAgree | main.py:305-347 | on a list with no truthy `Time` in its elements, both front ends decide alike |
| MainNavigator.SkeletonHasNoTime | interactive.py:45-67 | the root of an extracted value never carries a truthy `Time` |
| MainNavigator.SkeletonIdentifiersAgree | main.py:355-372 | hence both identifier rules name the root of an extracted value alike |
| MainNavigator.SkeletonListsAgree | main.py:305-347 | both front ends decide alike on a list produced by extraction |
| MainNavigator.VerbatimTimeDiffers | interactive.py:53-58 | a list under `Name` is copied into the skeleton verbatim, so an item with a truthy `Time` survives below the root, and there `main.py` names it by its time where `interactive.py` says "Item" |
| LogOrder.LexLeTotal | main.py:218 | any two strings compare one way or the other |
| LogOrder.LexLeTransitive | main.py:218 | string order is transitive |
| LogOrder.LexLeAntisymmetric | main.py:218 | strings ordered both ways are equal |
| LogOrder.Insert | main.py:218 | insertion adds exactly one entry and keeps the others |
| LogOrder.InsertSorted | main.py:218 | insertion into a newest-first list keeps it newest first |
| LogOrder.SortLogs | main.py:218 | the sorted logs are a permutation of the fetched list, and no entry's time is above its predecessor's |
| LogOrder.SortLogsStable | main.py:218 | entries with equal times keep their original relative order |
| Masking.Mask | main.py:97-111 | scalars are unchanged; objects keep their keys in order and lists their length; a sensitive key's value becomes "\*\*\*MASKED\*\*\*" without being looked into; every other value is masked recursively |
| Masking.MaskIdempotent | main.py:97-111 | masking masked data changes nothing |
| Masking.MaskHidesEverySensitiveValue | main.py:97-111 | in the result, every sensitive key at any depth holds the marker |
| Masking.MaskKeepsCleanData | main.py:97-111 | data with no sensitive key anywhere comes back unchanged |
| IdSearch.FindById | main.py:140-152 | every result is an object whose stringified, lower-cased `Id` equals the lower-cased id; a matching object is returned alone, without searching its values; a scalar gives nothing |
| IdSearch.FindItemsById | main.py:140-152 | the recursive search with its accumulating list returns exactly the specified matches, in order |
| IdSearch.FindByIdExactly | main.py:140-152 | a value is returned exactly when it matches and is reachable through lists and non-matching objects only |
| IdSearch.FindInItemsAppend | main.py:149-151 | the matches under a list are those of its first part followed by those of the rest (depth-first, left to right) |
| IdSearch.FindInFieldsAppend | main.py:146-147 | the matches under an object's values come in the object's key order |

## Left out

- HTTP, login and the panel actions: `login`, `retrieve_category_data`, the lock, unlock, arm and disarm calls, the authentication token and the endpoint table. A fetch is the map parameter `fetch`.
- The `sectoralarm` package (`cache_manager`, `actions_manager`) is not part of this model. `main.py`'s cache is a parameter of `MainNavigator.DecideMain`.
- Menu loops, prompts, printing, command-line parsing, `config.json`, and saving or loading `cache.json`. Only the decision each navigator step takes is modelled. The "F" (resolve here) and "0" (back) entries, common to every menu, are not listed among a menu's choices.
- `fetch_all_data` and the printing in `fetch_direct_data`: they are network loops around `find_items_by_id`, which is modelled.
- `build_cache` goes through every endpoint, including the panel actions, which are POST requests. The model takes the list of endpoint names as given.
- Exact time formatting. `strptime`/`strftime` is the function parameter `formatTime`.
- `str()` of objects and lists is a plain rendering: single-quoted strings, no escaping, no floats. `.lower()` is ASCII only. JSON numbers are integers.
- Paths.ParseIndex: `int()` also accepts surrounding whitespace, underscores and non-ASCII digits. The model does not; the navigator only writes plain decimal keys.
- LogOrder.SortLogs: `Time` values that are not text are not ordered. Two or more log entries where any `Time` is present but not a string are treated as raising. Python raises for `None` or mixed incomparable types, but orders any times of mutually comparable non-text types (all numbers, all booleans, numbers mixed with booleans, all lists).
- `key_path` in the navigators only feeds further recursive calls and changes no decision, so the decision functions do not take it.
- Both navigators recurse after each decision, and a string node reached deep in `main.py`'s trees is looked up as a category again. The model gives one step of each; only the `interactive.py` navigator's multi-step paths are characterised, by `Navigator.Navigable`.
- SkeletonHasNoTime: holds for the root of `Extract(v, keyPath)`, for any `v` and key path, so for every node extraction rebuilds. Values under `Name`, `Label`, `Id` or `Key` are copied verbatim, and nodes inside such a copy can carry a truthy `Time` (`MainNavigator.VerbatimTimeDiffers`).
- SkeletonIdentifiersAgree: covers nodes rebuilt by extraction only. An item inside a list copied verbatim under an identifying key is named by its `Time` in `main.py` and by "Item" in `interactive.py`.
- SkeletonListsAgree: covers lists rebuilt by extraction only. On a list copied verbatim under an identifying key, the two front ends can label the menu entries differently.
