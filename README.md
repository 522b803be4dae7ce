# Offline-first expense tracker: the data layer in Dafny

This project models the data layer of an Angular expense tracker that keeps working offline,
and the small calculations built on top of it.

- **Outbox.** Writes that cannot reach the server wait in a persisted first-in-first-out outbox
  under the `offline:outbox` localStorage key (`OfflineService`).
- **Expense cache and writes.** Expenses are read through a cache (`cache:expenses`), with a
  built-in seed list as the last resort. A new expense that cannot be posted gets a `local-…`
  placeholder id. The placeholder is cached at once and its POST is queued.
- **Replay.** `syncOutbox` replays the queue in order and stops at the first failure. When the
  server confirms a queued POST, the placeholder in the cache is replaced by the server's record.
- **Other caches.** Exchange rates (`cache:rates`) and categories (`cache:categories`) follow
  the same read-through policy.
- **Dashboard.** The dashboard filters by period, computes income and spending totals, and pages
  through the filtered list 10 records at a time.
- **Add-expense form.** The form converts an amount to US dollars, builds the payload and
  validates receipt files. It also has two category colour tables.
- **Small state holders.** A toast list numbers its notifications with a counter. A user
  service loads, saves and merges the profile and picks the greeting.

The model keeps each source file's shape:

- A service or component that updates fields becomes a Dafny `class`, with `modifies` clauses.
  Each method is proved against a specification function of the old state and the inputs.
- Pure logic becomes functions, and the lemmas are stated about those functions.

Shared modules:

- `Js` states the JavaScript built-ins the code relies on: `filter`, `map`, `slice`,
  `toLowerCase`, `startsWith`, truthiness and `Number(x.toFixed(2))`.
- `Records` holds the entity records.
- `Storage` models localStorage. Each key's entry is represented by what `JSON.parse` makes of
  it: absent, corrupt, or a parsed document. A `writable` flag stands for a `setItem` that throws.

The outside world enters only as parameters:

- the network: one `Fetch` outcome per request;
- connectivity: a `Navigator` value;
- time and randomness: `Tickets` for the generated ids, `now` for `Date.now()`, and a `Clock`
  for the local date.

## Model

| member | source | states |
|---|---|---|
| Js.Filter | src/app/shared/offline.service.ts:40 | the filter result is never longer than its input |
| Js.Min | src/app/shared/expenses.service.ts:100 | the smaller of two integers: where `slice` clamps a bound to the length |
| Js.FilterMembers | src/app/pages/dashboard/dashboard.component.ts:146-152 | an element is in the filtered list exactly when it is in the input and satisfies the predicate |
| Js.FilterIsSubsequence | src/app/pages/dashboard/dashboard.component.ts:146 | filtering keeps the surviving elements in their original order (the result is a subsequence of the input) |
| Js.FilterKeepsAll | src/app/shared/offline.service.ts:40 | a predicate that holds for every element leaves the list unchanged |
| Js.FilterWeaker | src/app/pages/dashboard/dashboard.component.ts:150-151 | a weaker predicate keeps a superset of the records, in the same order |
| Js.FilterKeepsIncreasing | src/app/shared/toast.service.ts:21 | a list whose keys strictly increase still has strictly increasing keys after any filter |
| Js.Map | src/app/shared/expenses.service.ts:191 | `map` keeps the length, and position i of the result is f applied to position i of the input |
| Js.SliceBound | src/app/shared/expenses.service.ts:100 | a slice bound resolves into [0, n]: non-negative bounds are clamped to n, and negative bounds count back from the end |
| Js.Slice | src/app/shared/expenses.service.ts:100 | `s.slice(start, end)` per ECMAScript: both bounds resolved by SliceBound, empty when the end does not pass the start |
| Js.SliceWindow | src/app/shared/expenses.service.ts:100 | for 0 <= start <= end, `slice` is the window [start, end) cut off at the end of the list, or empty past it |
| Js.Lower | src/app/pages/dashboard/dashboard.component.ts:231 | lower-casing keeps the length, turns each capital A-Z into its own lower-case letter, leaves no capital, and changes no other character |
| Js.StartsWith | src/app/pages/add-expense/add-expense.component.ts:156 | `s.startsWith(prefix)`: the prefix is no longer than s and equals its first characters |
| Js.TruthyString | src/app/pages/dashboard/dashboard.component.ts:59 | JavaScript truthiness of a string: every string but the empty one |
| Js.HalfUp | src/app/pages/dashboard/dashboard.component.ts:175 | `toFixed(2)` of a non-negative exact value: the nearest hundredth, the larger one on a tie |
| Js.Round2 | src/app/pages/dashboard/dashboard.component.ts:175-177 | `Number(x.toFixed(2))`: |x| rounded by HalfUp, with the sign of x restored |
| Js.Round2Error | src/app/pages/dashboard/dashboard.component.ts:175-177 | `Number(x.toFixed(2))` is within half a hundredth of x |
| Js.Round2Monotone | src/app/pages/dashboard/dashboard.component.ts:175-177 | rounding to hundredths keeps the order of two values |
| Js.Round2Sign | src/app/pages/dashboard/dashboard.component.ts:177 | rounding to hundredths never turns a non-positive value positive, or a non-negative value negative |
| Storage.Parse | src/app/shared/offline.service.ts:27-31 | a missing entry and the empty string read as empty; text JSON.parse rejects (garbled, or a non-empty plain string) is corrupt; every JSON document reads as itself |
| Storage.Get | src/app/shared/offline.service.ts:27 | `localStorage.getItem(key)`: the stored entry, or null |
| Storage.KeyName | src/app/shared/offline.service.ts:13 | the storage key string of each entry the application writes |
| Storage.KeyNamesDistinct | src/app/shared/offline.service.ts:13 | two keys have the same storage string exactly when they are the same key, so distinct keys never share an entry |
| Records.TruthyIdent | src/app/shared/expenses.service.ts:188 | JavaScript truthiness of an id value: a number other than 0, or a non-empty string |
| Storage.LocalStorage.GetItem | src/app/shared/offline.service.ts:27 | `getItem` returns the stored entry, or nothing when the key is absent |
| Storage.LocalStorage.SetItem | src/app/shared/offline.service.ts:22 | `setItem` succeeds exactly when storage is writable; then only that key changes, and on failure nothing changes |
| Storage.LocalStorage.RemoveItem | src/app/shared/offline.service.ts:36 | `removeItem` drops that key and keeps every other key |
| Offline.IsOnline | src/app/shared/offline.service.ts:15-17 | without a navigator the app counts as online; otherwise it follows `navigator.onLine` |
| Offline.OutboxOf | src/app/shared/offline.service.ts:25-33 | an absent, empty or unparseable outbox reads as [], and a stored list reads back as itself (it never throws) |
| Offline.Stamped | src/app/shared/offline.service.ts:21 | pushing replaces the item's id with the fresh id and leaves every other field unchanged |
| Offline.WithoutId | src/app/shared/offline.service.ts:40 | removal keeps exactly the items whose id differs, in their original order (a subsequence of the old list), and is a no-op when no item has that id |
| Offline.Pushed | src/app/shared/offline.service.ts:19-23 | after a push the outbox is the old outbox plus the stamped item at the end, and no other key changes |
| Offline.Removed | src/app/shared/offline.service.ts:39-42 | after a removal the outbox is the filtered outbox, and no other key changes |
| Offline.PushAll | src/app/shared/offline.service.ts:19-23 | successive successful pushes, each with its own fresh id, in order |
| Offline.StampedAll | src/app/shared/offline.service.ts:21 | a run of pushed items has one stamped item per pushed item |
| Offline.StampedAllAt | src/app/shared/offline.service.ts:21 | the i-th item of a pushed run is the i-th input stamped with the i-th fresh id |
| Offline.PushAllKeepsOrder | src/app/shared/offline.service.ts:19-23 | after any number of pushes the outbox reads back as its old contents followed by the pushed items, in push order, each with its own id |
| Offline.OfflineService.GetOutbox | src/app/shared/offline.service.ts:25-33 | `getOutbox` returns the outbox as storage holds it |
| Offline.OfflineService.Push | src/app/shared/offline.service.ts:19-23 | a push stores the outbox with the stamped item appended; when `setItem` throws, the failure is reported and nothing changes |
| Offline.OfflineService.ClearOutbox | src/app/shared/offline.service.ts:35-37 | after `clearOutbox` the key is gone and the outbox reads as [] |
| Offline.OfflineService.RemoveItem | src/app/shared/offline.service.ts:39-42 | the outbox is rewritten without the items that have this id; when `setItem` throws, nothing changes |
| Expenses.SeedExpenses | src/app/shared/expenses.service.ts:22-86 | the seed has 7 records with ids 1..7, all in USD with amountUsd equal to the amount, and all dated before today |
| Expenses.CachedListOf | src/app/shared/expenses.service.ts:124-132 | an absent, empty or unparseable cache reads as [], and a stored list reads back as itself |
| Expenses.DataSource | src/app/shared/expenses.service.ts:97 | offline reads use the cache when it is non-empty, and the seed otherwise |
| Expenses.PageOf | src/app/shared/expenses.service.ts:100 | the page `source.slice((page - 1) * limit, page * limit)`; PageWindow gives its closed form |
| Expenses.PageWindow | src/app/shared/expenses.service.ts:100 | for page >= 1, a page is the `limit` records starting at (page-1)*limit, cut short at the end of the list |
| Expenses.CachedRatesOf | src/app/shared/expenses.service.ts:213-218 | the cached rates are the stored table, or null when the entry is absent or unparseable |
| Expenses.RatesSpec | src/app/shared/expenses.service.ts:210-237 | offline or after a failed request, `getRates` answers from the cache and changes nothing; an online success is returned; no key other than `cache:rates` is touched |
| Expenses.RatesReadThrough | src/app/shared/expenses.service.ts:220-235 | once an online answer is stored, a later offline read or failed request returns that same table |
| Expenses.DeferredPost | src/app/shared/expenses.service.ts:149-154 | the deferred POST of an expense to the expenses endpoint, its body tagged with the local id and stamped with the time |
| Expenses.LocalId | src/app/shared/expenses.service.ts:147 | the placeholder id starts with `local-` |
| Expenses.EnqueueLocal | src/app/shared/expenses.service.ts:146-159 | the local fallback: push the tagged POST first (when that write throws, nothing is stored and add rejects), then cache the placeholder in front of the list read when add began |
| Expenses.AddSpec | src/app/shared/expenses.service.ts:142-177 | `add` as one step: offline or after a failed POST, the local fallback; after a successful POST, the server record in front of the cached list (re-reading the cache after the POST gives the same list, as the step is atomic) |
| Expenses.OfflineAddDefers | src/app/shared/expenses.service.ts:146-164 | offline, `add` returns the expense under a `local-` id and puts it in front of the cached list; the outbox grows by exactly one POST to the expenses endpoint, placed after the old items and tagged with that id; earlier items are kept |
| Expenses.OnlineAddCaches | src/app/shared/expenses.service.ts:167-172 | a successful POST returns the server's record and leaves the outbox unchanged; the record is put in front of the cached list when storage accepts the write |
| Expenses.FailedPostIsOfflinePath | src/app/shared/expenses.service.ts:173-176 | a failed POST gives exactly the offline result |
| Expenses.AddRejectsOnlyOnStorageFailure | src/app/shared/expenses.service.ts:142-177 | `add` rejects if and only if it had to enqueue and the outbox write threw |
| Expenses.Reconcile | src/app/shared/expenses.service.ts:191 | reconciliation keeps the length; entries with the local id become the response, and every other entry keeps its position; no placeholder survives unless the response carries the local id |
| Expenses.ReconcileSinglePlaceholder | src/app/shared/expenses.service.ts:191 | a single placeholder is replaced in place, with nothing added and nothing duplicated |
| Expenses.LocalIdOf | src/app/shared/expenses.service.ts:187 | the local id is taken exactly when the body carries a non-empty (truthy) `_localId`, and is then that value |
| Expenses.Confirms | src/app/shared/expenses.service.ts:188 | `localId && res && res.id`: the item carries a local id and the response a truthy id |
| Expenses.AfterPost | src/app/shared/expenses.service.ts:187-196 | after a confirmed POST with storage writable, the cache is the reconciled list; otherwise storage is unchanged; only `cache:expenses` can change |
| Expenses.IsPost | src/app/shared/expenses.service.ts:184 | the item's method is POST |
| Expenses.Sent | src/app/shared/expenses.service.ts:184-185 | the request an item sends: itself when it is a POST, nothing otherwise |
| Expenses.Settle | src/app/shared/expenses.service.ts:184-197 | handling a sent item never changes the outbox itself |
| Expenses.AfterEmpty | src/app/shared/expenses.service.ts:182-204 | a replay with nothing sent before it, or nothing sent after it, is just the other part |
| Expenses.AfterAfter | src/app/shared/expenses.service.ts:182-204 | joining the requests of consecutive replay steps is associative |
| Expenses.SyncFrom | src/app/shared/expenses.service.ts:182-204 | the replay loop stops at an index between its starting point and the end of the snapshot |
| Expenses.Sync | src/app/shared/expenses.service.ts:180-205 | `syncOutbox` as one step: the replay of the stored outbox from its first item |
| Expenses.FirstFailure | src/app/shared/expenses.service.ts:199-202 | the first failing POST, searching from k, lies between k and the end |
| Expenses.FirstFailureIsFirst | src/app/shared/expenses.service.ts:199-202 | every item before the first failure goes through, and the item at that index is a failed POST |
| Expenses.RemoveHead | src/app/shared/expenses.service.ts:198 | with distinct ids, removing the head's id from a suffix leaves exactly the rest of that suffix |
| Expenses.Posts | src/app/shared/expenses.service.ts:184-185 | reference definition: the POST items among items[from..to), in order |
| Expenses.SyncFromStop | src/app/shared/expenses.service.ts:182-204 | with storage writable, the replay stops exactly at the first failed POST |
| Expenses.PostsStep | src/app/shared/expenses.service.ts:184-185 | the requests for items k..m start with item k's own request |
| Expenses.PostsThrough | src/app/shared/expenses.service.ts:182-204 | reference definition: the POSTs of the items from k up to and including the first failed one |
| Expenses.PostsThroughAtFailure | src/app/shared/expenses.service.ts:199-202 | at a failing POST the requests sent are that POST alone |
| Expenses.PostsThroughPast | src/app/shared/expenses.service.ts:182-204 | past an item that goes through, the requests sent are its own followed by those of the rest |
| Expenses.PostsThroughFirstFailure | src/app/shared/expenses.service.ts:182-204 | the requests sent are the POSTs of the items up to and including the first failed one |
| Expenses.SyncFromPosted | src/app/shared/expenses.service.ts:184-185 | with storage writable, the replay sends the POSTs of items k up to the first failure, in order; other verbs send nothing |
| Expenses.SyncFromDrainsPrefix | src/app/shared/expenses.service.ts:198 | with distinct outbox ids, once the replay stops the outbox holds exactly the items from the stopping point on, in order |
| Expenses.SyncKeepsFailedSuffix | src/app/shared/expenses.service.ts:180-205 | `syncOutbox` stops at the first failed POST f: items 0..f-1 are gone, items f.. remain in order, and the requests sent are the POSTs of items 0..f |
| Expenses.Confirmed | src/app/shared/expenses.service.ts:184-188 | item j is a POST whose response confirms its local placeholder |
| Expenses.Unconfirmed | src/app/shared/expenses.service.ts:187-191 | a cache entry carries none of the local ids confirmed by the items in a range |
| Expenses.SettleKeepsCache | src/app/shared/expenses.service.ts:187-198 | one replayed item keeps the cache's length, and every entry without that item's confirmed local id keeps its position and value |
| Expenses.SyncFromKeepsCache | src/app/shared/expenses.service.ts:182-204 | with storage writable, replay from item k keeps the cache's length, and every entry whose id is not the local id of a POST confirmed before the stop keeps its position and value |
| Expenses.SyncKeepsUnconfirmedCache | src/app/shared/expenses.service.ts:180-205 | a whole `syncOutbox` run keeps `cache:expenses` the same length and changes only entries carrying a local id confirmed by a POST before the stop |
| Expenses.SyncWithoutStorageChangesNothing | src/app/shared/expenses.service.ts:198-202 | when storage refuses writes, the replay changes nothing stored, stops at the first item, and sends at most one request |
| Expenses.SyncScenarioThirdFails | src/app/shared/expenses.service.ts:180-205 | with three queued POSTs where only the third fails, all three are sent and only the third remains queued |
| Expenses.AddThenSyncReconciles | src/app/shared/expenses.service.ts:142-205 | after an offline add and a replay that confirms it, the server record replaces the placeholder at the head of the cache, and the outbox is empty again |
| Expenses.ExpensesService.constructor | src/app/shared/expenses.service.ts:22-88 | the service holds the seed dated from the day it is created |
| Expenses.ExpensesService.GetCachedList | src/app/shared/expenses.service.ts:124-132 | `getCachedList` returns the cached list as storage holds it |
| Expenses.ExpensesService.CacheList | src/app/shared/expenses.service.ts:134-140 | a write failure is swallowed; when the write goes through, the list reads back as itself |
| Expenses.ExpensesService.PaginatedList | src/app/shared/expenses.service.ts:95-122 | offline or after a failed GET, the result is the page window of the cache-or-seed list, and nothing is stored; an online success is returned and cached only for page 1 |
| Expenses.ExpensesService.List | src/app/shared/expenses.service.ts:90-93 | `list` is page 1 of 10: the offline or failed answer is that window, and an online success is returned and replaces the cache |
| Expenses.ExpensesService.EnqueueAndReturnLocal | src/app/shared/expenses.service.ts:146-159 | the local fallback does exactly what `EnqueueLocal` specifies |
| Expenses.ExpensesService.Add | src/app/shared/expenses.service.ts:142-177 | `add` leaves storage and its result exactly as `AddSpec` specifies, so the lemmas about `AddSpec` apply to it |
| Expenses.ExpensesService.SettleItem | src/app/shared/expenses.service.ts:184-197 | the reconciliation step leaves storage as `Settle` specifies |
| Expenses.ExpensesService.ReplayOne | src/app/shared/expenses.service.ts:183-203 | one pass of the loop body is one step of the replay specification; it reports whether the loop continues |
| Expenses.ExpensesService.SyncOutbox | src/app/shared/expenses.service.ts:180-205 | the loop leaves storage and the requests sent exactly as `Sync` specifies, so `SyncKeepsFailedSuffix` applies to it |
| Expenses.ExpensesService.GetRates | src/app/shared/expenses.service.ts:210-237 | `getRates` leaves storage and its answer exactly as `RatesSpec` specifies |
| Categories.SeedCategories | src/app/shared/categories.service.ts:18-27 | the seed has 8 categories with distinct ids, each with an icon |
| Categories.CachedCategoriesOf | src/app/shared/categories.service.ts:46-54 | absent, empty or unparseable storage reads as [], and a stored list reads back as itself |
| Categories.Fallback | src/app/shared/categories.service.ts:34 | the offline answer is the cache when it is non-empty, and the seed otherwise, so it is never empty |
| Categories.OfflineListNeverEmpty | src/app/shared/categories.service.ts:32-35 | whatever storage holds, the offline category list is non-empty |
| Categories.CacheRoundTrip | src/app/shared/categories.service.ts:46-51 | a cached list reads back unchanged |
| Categories.CategoriesService.GetCached | src/app/shared/categories.service.ts:46-54 | `getCached` returns the cached list as storage holds it |
| Categories.CategoriesService.Cache | src/app/shared/categories.service.ts:56-62 | a write failure is swallowed; when the write goes through, the list reads back as itself |
| Categories.CategoriesService.List | src/app/shared/categories.service.ts:31-44 | offline or after a failed GET, the result is the fallback list and storage is unchanged; an online success is returned and replaces the cache wholesale |
| Toasts.Messages | src/app/shared/toast.service.ts:3-6 | the texts of the toasts, one per toast, in order |
| Toasts.Without | src/app/shared/toast.service.ts:21 | dismissal keeps exactly the toasts with a different id |
| Toasts.DismissKeepsOrder | src/app/shared/toast.service.ts:21 | dismissal keeps the remaining toasts in their order |
| Toasts.DismissKeepsIdsIncreasing | src/app/shared/toast.service.ts:21 | dismissal keeps the ids strictly increasing |
| Toasts.DismissAbsentIsNoOp | src/app/shared/toast.service.ts:20-22 | dismissing an id no toast carries leaves the list unchanged |
| Toasts.IncreasingIdsAreUnique | src/app/shared/toast.service.ts:12-16 | strictly increasing ids are pairwise distinct |
| Toasts.ToastService.constructor | src/app/shared/toast.service.ts:10-12 | the service starts with no toasts and the counter at 1 |
| Toasts.ToastService.Show | src/app/shared/toast.service.ts:14-18 | `show` appends one toast with the current counter value and keeps all earlier toasts in order; the counter goes up by one; ids stay increasing and below the counter |
| Toasts.ToastService.Dismiss | src/app/shared/toast.service.ts:20-22 | `dismiss` removes the toasts with that id, does not touch the counter, and keeps ids increasing |
| User.Merge | src/app/shared/user.service.ts:62 | each field given in the update is taken from it, and every other field keeps its current value |
| User.MergeLaws | src/app/shared/user.service.ts:60-64 | an empty update changes nothing, and applying an update twice is the same as once |
| User.Greeting | src/app/shared/user.service.ts:69-74 | the greeting is "Good Morning" exactly when hour < 12, "Good Afternoon" exactly when 12 <= hour < 18, and "Good Evening" exactly when the hour is 18 or later |
| User.UserService.constructor | src/app/shared/user.service.ts:20-24 | the service starts on the default profile and loads the stored one |
| User.UserService.SaveProfile | src/app/shared/user.service.ts:48-55 | storage and profile both change when the write goes through; neither changes when it throws |
| User.UserService.LoadProfile | src/app/shared/user.service.ts:29-43 | a stored profile becomes the profile; nothing stored persists the default (if storage accepts it); an unreadable entry gives the default without writing |
| User.UserService.UpdateProfile | src/app/shared/user.service.ts:60-64 | the merged profile is saved and becomes the profile; when the write throws, nothing changes |
| Dashboard.DaysBeforeMonth | src/app/pages/dashboard/dashboard.component.ts:133-139 | the days of a year before a month (0-based) lie between 0 and 335 |
| Dashboard.IsLeap | src/app/pages/dashboard/dashboard.component.ts:133-139 | the Gregorian leap-year rule the date constructor follows |
| Dashboard.DaysBeforeYear | src/app/pages/dashboard/dashboard.component.ts:133-139 | the days from January 1 of year 0 to January 1 of year y |
| Dashboard.DayOrdinal | src/app/pages/dashboard/dashboard.component.ts:133-139 | the day `new Date(y, m, d)` denotes, with months outside 0-11 carried into the year and days outside the month carried into the months |
| Dashboard.MonthLength | src/app/pages/dashboard/dashboard.component.ts:133-139 | the number of days of each month, February with 29 days in a leap year |
| Dashboard.YearLength | src/app/pages/dashboard/dashboard.component.ts:133-139 | a year has 366 days exactly when it is a leap year, and 365 otherwise |
| Dashboard.MonthTableStep | src/app/pages/dashboard/dashboard.component.ts:133-139 | within a year, the days before month m+1 are the days before month m plus its length |
| Dashboard.NextMonthStart | src/app/pages/dashboard/dashboard.component.ts:133-139 | the first of the next month is the first of this month plus this month's length, and after December the carry reaches January 1 of the next year |
| Dashboard.PeriodStart | src/app/pages/dashboard/dashboard.component.ts:127-144 | the start day of each period: today minus six days, the first of the month, January 1, or none for 'All Time' and unlisted periods |
| Dashboard.LastSevenDaysStartsSixDaysBack | src/app/pages/dashboard/dashboard.component.ts:133 | 'Last 7 Days' starts six days before today, including its crossing of month and year ends |
| Dashboard.MonthWithinYear | src/app/pages/dashboard/dashboard.component.ts:136-139 | the first of the month lies between January 1 and today |
| Dashboard.InPeriod | src/app/pages/dashboard/dashboard.component.ts:147-151 | the filter callback: the date parses, and is on or after the start when there is one |
| Dashboard.FilterByPeriod | src/app/pages/dashboard/dashboard.component.ts:126-153 | a record is kept exactly when its date parses and is on or after the period's start, if the period has one; records without a date or with an invalid one are never kept |
| Dashboard.FilterByPeriodKeepsOrder | src/app/pages/dashboard/dashboard.component.ts:146 | the period filter is an order-preserving subsequence of its input |
| Dashboard.UnlistedPeriodIsAllTime | src/app/pages/dashboard/dashboard.component.ts:129-150 | 'All Time' and any period the switch does not list are the same filter, and they keep every validly dated record |
| Dashboard.PeriodsNest | src/app/pages/dashboard/dashboard.component.ts:131-151 | 'This Month' keeps a subsequence of 'This Year', and every period keeps a subsequence of 'All Time' |
| Dashboard.ScenarioDays | src/app/pages/dashboard/dashboard.component.ts:133-139 | concrete calendar positions: 1 Jan 2024, 20 May 2024 and 31 Dec 2023 |
| Dashboard.ThisYearScenario | src/app/pages/dashboard/dashboard.component.ts:138-151 | on 1 June 2024, 'This Year' keeps a May 2024 record and drops a December 2023 record and one without a date |
| Dashboard.AmountOf | src/app/pages/dashboard/dashboard.component.ts:163 | `amountUsd ?? amount ?? 0` |
| Dashboard.IncomeOf | src/app/pages/dashboard/dashboard.component.ts:162-169 | `totalIncome`: the sum of the positive amounts |
| Dashboard.SpentOf | src/app/pages/dashboard/dashboard.component.ts:162-172 | `totalExpenses`: the sum of the magnitudes of all amounts |
| Dashboard.LossOf | src/app/pages/dashboard/dashboard.component.ts:170-172 | reference definition: the sum of the magnitudes of the non-positive amounts |
| Dashboard.SummaryLaws | src/app/pages/dashboard/dashboard.component.ts:162-173 | income is non-negative and never exceeds spending, and the balance equals minus the sum of the non-positive amounts |
| Dashboard.Summarise | src/app/pages/dashboard/dashboard.component.ts:175-177 | the three figures the dashboard shows: income, spending and balance, each rounded to hundredths |
| Dashboard.RoundedSummaryLaws | src/app/pages/dashboard/dashboard.component.ts:175-177 | the rounded figures keep this: income <= spending, and the balance is <= 0 and equals minus the non-positive total, rounded |
| Dashboard.IconProperty | src/app/pages/dashboard/dashboard.component.ts:217-231 | what the property read `icons[key]` yields: an own glyph, a member inherited from Object.prototype, or undefined |
| Dashboard.CategoryIconAsWritten | src/app/pages/dashboard/dashboard.component.ts:216-232 | the lookup as written, which also sees members inherited from Object.prototype; its behaviour is stated by the lemmas below |
| Dashboard.AsWrittenLeaksPrototype | src/app/pages/dashboard/dashboard.component.ts:231 | as written, "Constructor" and "__proto__" give an inherited member instead of an icon |
| Dashboard.AsWrittenLeaksOnlyTwoNames | src/app/pages/dashboard/dashboard.component.ts:231 | as written, an inherited member comes back exactly when the lower-cased category is "constructor" or "__proto__" |
| Dashboard.CapitalisedMembers | src/app/pages/dashboard/dashboard.component.ts:231 | every other Object.prototype member name has a capital letter, so no lower-cased key reaches it |
| Dashboard.CategoryIcon | src/app/pages/dashboard/dashboard.component.ts:216-232 | the corrected lookup always yields a non-empty glyph |
| Dashboard.IconDefaultExactlyForUnknown | src/app/pages/dashboard/dashboard.component.ts:231 | the default icon is returned exactly for categories whose lower-cased name the table does not list |
| Dashboard.IconIgnoresCase | src/app/pages/dashboard/dashboard.component.ts:231 | the icon does not depend on the letter case of the category |
| Dashboard.IconAsWrittenAgreesElsewhere | src/app/pages/dashboard/dashboard.component.ts:231 | wherever the lookup as written gives no inherited member, it agrees with the corrected lookup |
| Dashboard.LoadMore | src/app/pages/dashboard/dashboard.component.ts:183-199 | `loadMoreExpenses()` on the pagination fields: append the next batch of 10 and advance the page only when the batch is non-empty; `hasMore` is whether the batch end is before the end of the list |
| Dashboard.LoadMoreTimes | src/app/pages/dashboard/dashboard.component.ts:183-199 | k successive calls of `loadMoreExpenses` |
| Dashboard.PagerAfter | src/app/pages/dashboard/dashboard.component.ts:82-84 | reference definition of the pager after j calls following the reset: the first min(10j, n) records, one page step per non-empty batch |
| Dashboard.LoadMoreFirst | src/app/pages/dashboard/dashboard.component.ts:183-199 | the first call after the reset shows the first min(10, n) records |
| Dashboard.LoadMoreFull | src/app/pages/dashboard/dashboard.component.ts:189-195 | a call that finds records appends the next batch and advances the page |
| Dashboard.LoadMoreDrained | src/app/pages/dashboard/dashboard.component.ts:191-198 | a call past the end adds nothing, keeps the page, and clears `hasMore` |
| Dashboard.LoadMoreStep | src/app/pages/dashboard/dashboard.component.ts:183-199 | one more call moves the reference pager one step on |
| Dashboard.LoadMoreTimesSucc | src/app/pages/dashboard/dashboard.component.ts:183-199 | k calls are k-1 calls and then one more |
| Dashboard.LoadMoreOnceMore | src/app/pages/dashboard/dashboard.component.ts:183-199 | if k-1 calls match the reference pager, so do k calls |
| Dashboard.LoadMoreTimesAfterReset | src/app/pages/dashboard/dashboard.component.ts:82-84 | after the reset, k >= 1 calls show the first min(10k, n) filtered records in order; `hasMore` holds exactly when 10k < n, and the page advances once per non-empty batch |
| Dashboard.DashboardComponent.constructor | src/app/pages/dashboard/dashboard.component.ts:25-40 | the component starts on page 1 of an empty list, with `hasMore`, 'This Month' selected, and zero totals |
| Dashboard.DashboardComponent.CalculateSummary | src/app/pages/dashboard/dashboard.component.ts:158-178 | the accumulating loop sets the three figures to the rounded totals, so `RoundedSummaryLaws` holds of them |
| Dashboard.DashboardComponent.LoadMoreExpenses | src/app/pages/dashboard/dashboard.component.ts:183-199 | the pagination fields move exactly one `LoadMore` step |
| Dashboard.DashboardComponent.ApplyFilterAndPagination | src/app/pages/dashboard/dashboard.component.ts:111-121 | the filtered list is the period filter of all expenses; the totals summarise it; the pager moves one step over it |
| Dashboard.SavedPeriod | src/app/pages/dashboard/dashboard.component.ts:56-65 | the saved filter is restored exactly when `dashboard:filter` holds non-empty text, and it is that text |
| Dashboard.PersistedPeriodReloads | src/app/pages/dashboard/dashboard.component.ts:56-85 | what `onPeriodChange` writes is what `loadPersistedFilter` restores (nothing for the empty value), and writes under other keys do not change it |
| Dashboard.LoadAllWindow | src/app/pages/dashboard/dashboard.component.ts:94 | offline or on a failed GET the dashboard sees only the first 1000 records of the cache or seed |
| Dashboard.DashboardComponent.LoadPersistedFilter | src/app/pages/dashboard/dashboard.component.ts:56-65 | a truthy saved period replaces the selection; otherwise the selection is unchanged |
| Dashboard.DashboardComponent.LoadAllExpenses | src/app/pages/dashboard/dashboard.component.ts:90-106 | all expenses become page 1 of 1000 from `paginatedList`, with that call's `cache:expenses` write; then the filter, the totals and one pager step from the current page are recomputed over them |
| Dashboard.DashboardComponent.OnPeriodChange | src/app/pages/dashboard/dashboard.component.ts:70-85 | the period is selected and persisted (a failed write is ignored); then from page 1 with nothing shown, the first batch of the new filter is loaded and the totals recomputed |
| AddExpense.CategoryBgColor | src/app/pages/add-expense/add-expense.component.ts:23-42 | the table is total: it returns one of its listed colours, and gray for every id without a colour of its own |
| AddExpense.CategoryIconColor | src/app/pages/add-expense/add-expense.component.ts:44-63 | the table is total: it returns one of its listed colours, and gray for every id without a colour of its own |
| AddExpense.ColourTablesAgree | src/app/pages/add-expense/add-expense.component.ts:23-63 | each table gives gray exactly for the ids without a colour of their own ("news" included) |
| AddExpense.FormValid | src/app/pages/add-expense/add-expense.component.ts:83-89 | the form validators: category, amount, currency and date required, and the amount at least 0.01 |
| AddExpense.ResetForm | src/app/pages/add-expense/add-expense.component.ts:265-268 | the form after `form.reset({ currency: 'USD', date: today })` |
| AddExpense.CurrencyOf | src/app/pages/add-expense/add-expense.component.ts:226 | the currency is never empty, and for a valid form it is the form's currency |
| AddExpense.Rate | src/app/pages/add-expense/add-expense.component.ts:233-237 | a rate is used exactly when the response has a rates table holding a non-zero rate for the currency |
| AddExpense.Convert | src/app/pages/add-expense/add-expense.component.ts:225-249 | the `amountUsd` choice of `save` and the toasts it shows on the way |
| AddExpense.ConvertCases | src/app/pages/add-expense/add-expense.component.ts:225-249 | USD gives the rounded amount; a usable rate gives amount / rate rounded; a missing rate gives the raw amount with a toast; a thrown request gives the raw amount; a null response leaves `amountUsd` undefined |
| AddExpense.UsdAmountIsRounded | src/app/pages/add-expense/add-expense.component.ts:228-229 | for USD, the stored amount is within half a cent of the typed amount |
| AddExpense.PayloadOf | src/app/pages/add-expense/add-expense.component.ts:251-258 | the payload carries the form's category, amount and date, plus the resolved currency and USD amount; its receipt is the form's receipt, or null when that is falsy |
| AddExpense.RatesFor | src/app/pages/add-expense/add-expense.component.ts:228-232 | the rates `save` works with: requested only for a currency other than USD |
| AddExpense.SubmitSpec | src/app/pages/add-expense/add-expense.component.ts:219-260 | the part of `save` between validation and the outcome toast: convert, build the payload, add it |
| AddExpense.SaveSpec | src/app/pages/add-expense/add-expense.component.ts:208-286 | `save` as one step: the reminder for an invalid form; otherwise the submission followed by the success or failure toast |
| AddExpense.InvalidFormNeverSubmits | src/app/pages/add-expense/add-expense.component.ts:209-213 | an invalid form shows only the reminder: nothing is stored and `add` is not called |
| AddExpense.OfflineSaveQueues | src/app/pages/add-expense/add-expense.component.ts:260-262 | a valid form saved offline with working storage is added under a local id, the success toast is shown last, and the outbox grows by one |
| AddExpense.AcceptsFile | src/app/pages/add-expense/add-expense.component.ts:156-165 | a receipt is accepted when its type starts with `image/` and it is at most 5 MiB |
| AddExpense.AddExpenseComponent.constructor | src/app/pages/add-expense/add-expense.component.ts:64-89 | the form starts reset (USD, today's date), with no receipt and no conversion preview |
| AddExpense.AddExpenseComponent.UpdateConversion | src/app/pages/add-expense/add-expense.component.ts:122-143 | with no positive amount, no currency, or USD, both previews are cleared and nothing is fetched; otherwise the rates are fetched, and a usable rate gives the rate and the rounded conversion, while an unusable one leaves the previews as they were |
| AddExpense.AddExpenseComponent.OnFileChange | src/app/pages/add-expense/add-expense.component.ts:145-179 | no file clears the preview; a non-image type or a size over 5 MiB appends its toast under the next id, advances the counter by one and sets nothing else; an accepted file sets its name, the preview and the receipt field and shows no toast |
| AddExpense.AddExpenseComponent.ResolveAmountUsd | src/app/pages/add-expense/add-expense.component.ts:225-249 | the USD amount and the toasts shown are those `Convert` specifies, and storage is left as the rates request leaves it |
| AddExpense.AddExpenseComponent.Submit | src/app/pages/add-expense/add-expense.component.ts:219-260 | for a valid form: convert, build the payload and add it, exactly as `SubmitSpec` specifies |
| AddExpense.AddExpenseComponent.Finish | src/app/pages/add-expense/add-expense.component.ts:262-285 | the outcome toast is shown; after a success the form and previews are reset; after a failure the form, selected category, previews and conversion are left as they were; loading ends either way |
| AddExpense.AddExpenseComponent.Save | src/app/pages/add-expense/add-expense.component.ts:208-286 | `save` leaves storage, toasts and its result as `SaveSpec` specifies; loading ends after a submission; the form is reset exactly when the expense was added, and after an invalid form or a failed add the form, selected category, previews and conversion are left as they were |

## Left out

- Storage writability is one store-wide flag (`writable`), so the writes of one operation all
  succeed or all throw. In the source each `setItem` can throw on its own, for example on a
  quota error that depends on the size of the write. Two paths are therefore not modelled:
  - Expenses.ExpensesService.Add (`add`): the outbox `push` succeeds, then caching
    `[toSave, ...current]` throws and is swallowed. The record is returned and queued, but the
    cache holds no placeholder.
  - Expenses.ExpensesService.SyncOutbox (`syncOutbox`): the reconciling `cacheList` throws and
    is swallowed, then the smaller `removeItem` write succeeds. The POST leaves the outbox and
    the `local-…` placeholder stays in the cache, never reconciled.

  `SyncKeepsUnconfirmedCache`, `AddThenSyncReconciles` and `AddRejectsOnlyOnStorageFailure` are
  stated for this all-or-nothing storage.
- HTTP and RxJS are not modelled as asynchronous. Each request is one `Fetch` outcome passed in
  as a parameter (for `syncOutbox`, `reply(k)` answers the POST at position k of the queue), and each operation
  runs as one atomic step. Two kinds of race are not modelled:
  - between `add` reading the cache and the response arriving;
  - between overlapping `syncOutbox` runs.
- The JSON wire format is not modelled. A stored entry is represented by its parsed view.
  Well-formed JSON of an unexpected shape (for example a number stored under
  `cache:expenses`) is treated like unparseable text. The services only ever write their own
  shapes under their own keys.
- User.UserService.LoadProfile: a parseable entry that is not a profile object gives the
  default. The source would install whatever the entry parses to. This follows from the
  previous point.
- Floating point is not modelled. Amounts are exact reals and division is exact.
  `Number(x.toFixed(2))` is rounding to hundredths, half away from zero, on the exact value. The
  binary representation that makes some `toFixed` ties round down is not modelled. NaN rates are
  not modelled.
- Dates are day ordinals. Time of day and time zones are not modelled. In particular, the source
  compares `new Date("YYYY-MM-DD")`, which is UTC midnight, with a local-midnight start. Near the
  start day this can put a record on the other side of the boundary in a time zone west of UTC.
  The seed dates are today minus n days.
- `Date.now()` and `Math.random()` are not modelled. The generated ids are passed in as
  `Tickets`, and `createdAt` as `now`. Their uniqueness is assumed where a lemma needs it
  (`DistinctIds` in `SyncKeepsFailedSuffix`), not derived.
- Toasts.ToastService.Show: the `setTimeout` that dismisses a toast after `timeout` ms (2500 by
  default) is not modelled, and neither is the `timeout` parameter. `Dismiss` can be called on
  its own.
- The navigation after a save (`setTimeout` plus `router.navigate`) and `goBack` are not
  modelled. They only change the route.
- The loading indicator (`loadingService.show`/`hide`) is not modelled. It has no data logic.
- AddExpense.AddExpenseComponent.OnFileChange: `FileReader` is not modelled. Its base64 result is
  the `dataUrl` parameter, and a reader error (which would reject the promise after the file
  name was set) is not modelled. Clearing `input.value` is not modelled either.
- AddExpense.AddExpenseComponent.Submit: two limitations.
  - The `Threw` branch of `Convert` is not reachable through it. `getRates` catches every error
    of its own, both in the offline branch and in `catchError`, so the rates call always
    resolves. `ConvertCases` still states that branch.
  - The conversion toasts are shown before `add` runs, as in the source. A toast that `add`
    itself would raise is not modelled.
- AddExpense.FormValid models the form validators: required fields, and an amount of at least
  0.01. Angular's form machinery, `markAllAsTouched` and `chooseCategory` are not modelled.
- The add-expense `ngOnInit` is not modelled. It stores the categories from `list()` and the
  sorted keys of the loaded rates as the currency list. When the form's currency is not among
  those keys, it also resets the currency to `base_code`, or to 'USD' when that is missing. The
  model's rates carry no `base_code` and the component keeps no currency list, so this reset is
  not captured.
- The dashboard's `ngOnInit` is not modelled as one step. It is `loadAllExpenses` followed by
  `loadPersistedFilter`, and both are modelled on their own. A restored period does not refilter
  the view by itself.
- Dashboard.DashboardComponent.LoadPersistedFilter restores only a `Text` entry. An entry of
  another shape under `dashboard:filter` would be restored as its raw text in the source. Only
  `onPeriodChange` writes that key, and it writes plain text.
- Dashboard.DashboardComponent.LoadAllExpenses does not model `isLoading`, `error` or the
  `error` callback. `paginatedList` catches every HTTP error, so that callback is not reached.
- `onScroll`, `navigate` and `removeReceipt` are UI-only and not modelled. They only wire the
  modelled operations to the page.
- Js.Lower lower-cases ASCII letters only. `toLowerCase` on other scripts is not modelled. The
  icon keys are all ASCII.
- The signals (`signal`, `asReadonly`) are not modelled. They are plain fields here, and change
  detection is not modelled.
- Offline.OfflineService.RemoveItem removes every item with the given id, as the code does,
  not just one. With the fresh ids `push` assigns, that is the one item.
- Categories.CategoriesService.List returns and caches an online success even when it is an
  empty list, as the code does. Only the offline and failure paths fall back to the seed.

## Findings

| source | as written | input that shows it | evidently intended | confidence | as-written member | corrected member |
|---|---|---|---|---|---|---|
| src/app/pages/dashboard/dashboard.component.ts:217-231 | `icons[category.toLowerCase()] \|\| default` reads the key through the object literal's prototype chain | category "Constructor" or "__proto__": the lowered key names an Object.prototype member, so the result is a function or an object, not a glyph, and the default is not used | an own-key lookup: a glyph for the listed categories, and the default icon for every other name | not executed | Dashboard.CategoryIconAsWritten (shown by Dashboard.AsWrittenLeaksPrototype and Dashboard.AsWrittenLeaksOnlyTwoNames) | Dashboard.CategoryIcon (proved by Dashboard.IconDefaultExactlyForUnknown) |
