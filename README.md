# Admin dashboard page rules, modelled in Dafny

This project models the rules inside the pages of a Next.js admin dashboard.
The dashboard has pages for proxy analytics, the message queue, packages,
orders and discounts, logs, users and databases, plus a routing guard and a
Redux user slice. The model leaves out fetching and rendering and keeps the
logic the pages apply to what they fetch:

- the proxy page's group-by reducers and country ranking, the twelve per-day
  series and the date-range check with its 394-day cap;
- the message-queue page's `formatMs` uptime formatter, the
  "queues with statistics first" ordering and the operation rows of a queue card;
- how the package tabs and the discount modal patch their in-memory lists after
  the server answers: replace by id, filter by id, append, or re-fetch;
- the `$<n>.00` price text and the way it is parsed back;
- the query records of the logs, orders, users and extra-package lists and the
  handlers that change them (page resets, sort toggles, antd sort-order mapping,
  row numbers);
- the middleware's redirect decision and the user slice's reducers;
- the string rules: the thousands separator, the birthdate reshaping and the
  case-insensitive table-name filter.

Component state is a Dafny `class` per page, with one method per handler.
Each method's `ensures` gives the new state in terms of the old one and of the
server's answer, which is a parameter. The main and combo package tabs and
the orders, users and database pages have a `State()` record of all their
fields, and each handler states its new `State()` as the old one with the
changed fields updated. The other pages name each field a handler keeps. The rules the
handlers rely on are functions over values, and lemmas state their properties:
round trips, permutations, sums, idempotence, and agreement with a second
definition. Dates are whole day numbers. A server's answer is a parameter
shaped by what the handler reads of it. Most are a datatype with one variant
for a call that threw or was rejected and one for an answer, carrying its
status, its body or both. A package delete is only `Resolved` or `Rejected`. The
discount handlers take the answer's status as an `Option<int>`, with `None`
for a call that threw. `HandleBan` and `HandleUnban` take only a flag saying
whether the call threw, because they read nothing of the answer.

Files (one module per source file, plus shared helpers):

| file | module(s) | models |
|---|---|---|
| `text.dfy` | `Wrappers`, `Text` | `Option`; the JavaScript string and number built-ins the pages use |
| `antd_table.dfy` | `AntTable` | the sorter and page arguments an antd table hands to the list pages' change handlers |
| `middleware.dfy` | `Middleware` | `src/middleware.ts` |
| `user_slice.dfy` | `UserSlice` | `src/redux/slices/user.slices.ts` |
| `settings.dfy` | `Settings` | `src/app/settings/page.tsx` |
| `rabbitmq.dfy` | `RabbitMq` | `src/app/rabbitmq/page.tsx` |
| `proxy_grouping.dfy` | `Grouping` | the find-or-push reducer shared by the proxy page's charts |
| `proxy_charts.dfy` | `ProxyCharts` | the proxy page's chart aggregations and country ranking |
| `proxy_page.dfy` | `ProxyPage` | the proxy page's date range and analytics state |
| `packages.dfy` | `PackageLists`, `MainPackages`, `ComboPackages`, `ExtraPackages` | `src/app/packages/_packages/*.tsx` |
| `discount.dfy` | `Discounts` | `src/app/order/components/DiscountModal.tsx` |
| `logs.dfy` | `Logs` | `src/app/logs/page.tsx` |
| `order.dfy` | `Orders` | `src/app/order/page.tsx` |
| `users.dfy` | `Users` | `src/app/users/page.tsx` |
| `database.dfy` | `Database` | `src/app/database/page.tsx` |

## Model

| member | source | states |
|---|---|---|
| Text.ParseInt | src/app/packages/_packages/MainPackage.tsx:180 | `parseInt` reads the leading decimal digits; it yields NaN (`None`) exactly when the text is empty or does not start with a digit |
| Text.ParseIntOfNumber | src/app/packages/_packages/MainPackage.tsx:180 | parsing a number's decimal text followed by a non-digit gives the number back |
| Text.NatToStringValue | src/app/logs/page.tsx:278-280 | `toString` of a natural number is a digit string whose decimal value is the number |
| Text.Lower | src/app/database/page.tsx:196 | `toLowerCase` keeps the length and lower-cases each character |
| Text.IncludesAt | src/app/database/page.tsx:196 | `includes` holds exactly when the needle occurs at some index |
| Middleware.Guard | src/middleware.ts:3-16 | a missing or empty token redirects to `/login`; with both tokens, `/` redirects to `/dashboard`; any other path passes through |
| Middleware.PassThroughExactly | src/middleware.ts:7-15 | a request passes through exactly when both tokens are present and the path is not `/` |
| Middleware.RootWithoutSessionGoesToLogin | src/middleware.ts:7-12 | the token check comes first, so `/` without a session goes to `/login` |
| Middleware.LoginRedirectOnlyWithoutSession | src/middleware.ts:7-9 | a redirect to `/login` happens exactly when a token is missing or empty |
| UserSlice.Reduce | src/redux/slices/user.slices.ts:37-47 | both reducers clear `loading` and `error`; `userLogout` returns the initial state; `setUser` stores the payload |
| UserSlice.LastActionDecides | src/redux/slices/user.slices.ts:37-47 | after any non-empty run of actions, only the last action decides the state |
| UserSlice.LogoutIdempotent | src/redux/slices/user.slices.ts:37-41 | logging out twice equals logging out once |
| UserSlice.SetUserThenActions | src/redux/slices/user.slices.ts:37-47 | of two `setUser` calls the second payload wins; `setUser` then `userLogout` gives the initial state |
| UserSlice.UserStore.constructor | src/redux/slices/user.slices.ts:27-31 | the initial state is no user, not loading, no error |
| UserSlice.UserStore.UserLogout | src/redux/slices/user.slices.ts:37-41 | the store's fields are reset to the initial values, as `Reduce` says |
| UserSlice.UserStore.SetUser | src/redux/slices/user.slices.ts:42-47 | the store holds the payload, with loading and error cleared, as `Reduce` says |
| Settings.JoinSplit | src/app/settings/page.tsx:52 | joining the `split` pieces with the separator gives the text back |
| Settings.SplitThree | src/app/settings/page.tsx:52 | `Y-M-D` splits into exactly the three pieces when none of them contains `-` |
| Settings.SplitIsoDate | src/app/settings/page.tsx:52 | a date of three digit runs joined by `-` splits into exactly those three runs |
| Settings.ReshapeIsoDate | src/app/settings/page.tsx:52 | a birthdate `YYYY-MM-DD…` becomes `DD/MM/YYYY`; only the first ten characters are used |
| Settings.PrefillFrom | src/app/settings/page.tsx:46-57 | the form is pre-filled from the stored user (the birthdate reshaped), or with `undefined` when there is none |
| Settings.SettingsPage.HandleChange | src/app/settings/page.tsx:89-90 | the new file list replaces the old; the avatar buttons are disabled exactly when it is empty |
| Settings.SettingsPage.HandleCancel | src/app/settings/page.tsx:96-98 | the file list becomes `undefined`, so the buttons are disabled and the placeholder is shown |
| Settings.SettingsPage.HandleSubmit | src/app/settings/page.tsx:59-77 | only a 200 answer dispatches `setUser(data["0"])` and shows success; any other status or a throw leaves the store unchanged and shows an error |
| RabbitMq.Layout | src/app/rabbitmq/page.tsx:327-350 | the raw milliseconds exactly when ms < 1000; otherwise a unit is printed iff it or a larger unit is non-zero, and the hours, minutes and seconds shown are below 24, 60 and 60 |
| RabbitMq.FormatMsMillisExactly | src/app/rabbitmq/page.tsx:333-335 | `formatMs` ends in ` ms` exactly when ms < 1000, and is then `"<ms> ms"` |
| RabbitMq.FormatMsRecomposes | src/app/rabbitmq/page.tsx:327-350 | the printed days, hours, minutes and seconds recompose `floor(ms/1000)`; the sub-second part is dropped |
| RabbitMq.CardFor | src/app/rabbitmq/page.tsx:145-207 | a queue without `message_stats` gets a "no data" card; a queue with it gets exactly the rows Publish, Deliver, Get, Acknowledge with their counts and rates |
| RabbitMq.WithStats | src/app/rabbitmq/page.tsx:881-885 | every queue kept has `message_stats` |
| RabbitMq.WithoutStats | src/app/rabbitmq/page.tsx:881-885 | every queue kept lacks `message_stats` |
| RabbitMq.StatsFirstIsPermutation | src/app/rabbitmq/page.tsx:881-885 | the ordering is a permutation of the queues |
| RabbitMq.StatsFirstLength | src/app/rabbitmq/page.tsx:881-885 | the ordering keeps the number of queues |
| RabbitMq.StatsFirstOrdered | src/app/rabbitmq/page.tsx:881-885 | every queue with `message_stats` comes before every queue without |
| RabbitMq.SortQueues | src/app/rabbitmq/page.tsx:881-885 | the in-place stable sort leaves the array as the queues with statistics, in order, followed by the rest, in order |
| RabbitMq.Partition | src/app/rabbitmq/page.tsx:881-885 | one pass over the array collects the queues with `message_stats` and those without, each group in array order |
| RabbitMq.Overwrite | src/app/rabbitmq/page.tsx:881-885 | the array ends up holding the given ordering, element for element |
| RabbitMq.Cards | src/app/rabbitmq/page.tsx:886-890 | one card per queue, in order |
| RabbitMq.NoDataCardsLast | src/app/rabbitmq/page.tsx:881-890 | after the sort, every "no data" card follows every card with rows |
| Grouping.GroupByKeys | src/app/proxy/page.tsx:241-255 | the groups appear in first-seen order of their keys |
| Grouping.GroupByOnePerKey | src/app/proxy/page.tsx:241-255 | exactly one group per distinct key of the input |
| Grouping.GroupByTotals | src/app/proxy/page.tsx:244-253 | each group's total is the sum of the amounts of the rows with its key |
| Grouping.GroupByConserves | src/app/proxy/page.tsx:244-253 | the group totals add up to the sum of all amounts |
| Grouping.GroupByTotalOf | src/app/proxy/page.tsx:244-253 | the total stored under any key is that key's sum (0 for an absent key) |
| Grouping.AddKeys | src/app/proxy/page.tsx:244-253 | one reducer step adds the row's key at the end only when it is new |
| Grouping.AddTotals | src/app/proxy/page.tsx:244-253 | one reducer step adds the row's amount to the grand total |
| Grouping.Accumulate | src/app/proxy/page.tsx:244-253 | the `find`, then `+=` or `push`, performs one reducer step |
| ProxyCharts.AccumulateEntries | src/app/proxy/page.tsx:244-253 | running the reducer over further entries turns the group-by of the entries seen so far into the group-by of all of them |
| ProxyCharts.GroupDays | src/app/proxy/page.tsx:326-371 | the nested `reduce`/`forEach` over days and entries equals the group-by of all entries, in day order |
| ProxyCharts.BrowserData | src/app/proxy/page.tsx:326-339 | the browser chart is the group-by of `pageViews` per `uaBrowserFamily` |
| ProxyCharts.BrowserDataSums | src/app/proxy/page.tsx:326-339 | one entry per browser family, each total the sum of its page views, all totals adding up to all page views |
| ProxyCharts.ResponseStatusData | src/app/proxy/page.tsx:358-371 | the status chart is the group-by of `requests` per numeric `edgeResponseStatus` |
| ProxyCharts.GroupContentViews | src/app/proxy/page.tsx:341-356 | the content-type aggregation sums `bytes` and `requests` independently per name: each view equals the group-by of its own field |
| ProxyCharts.AccumulateContent | src/app/proxy/page.tsx:343-353 | the `find`, then `+=` on both fields or `push`, performs one content-type step |
| ProxyCharts.AccumulateDayContent | src/app/proxy/page.tsx:342-354 | the inner `forEach` over one day's entries extends the aggregation of the earlier entries by that day's entries, in order |
| ProxyCharts.ContentTypeData | src/app/proxy/page.tsx:341-356 | the content-type chart is that aggregation over all days' entries |
| ProxyCharts.InsertDescPermutes | src/app/proxy/page.tsx:256 | one insertion step adds exactly the inserted country |
| ProxyCharts.InsertDescSorted | src/app/proxy/page.tsx:256 | inserting into a list sorted by value, largest first, keeps it sorted |
| ProxyCharts.RankDescPermutes | src/app/proxy/page.tsx:256 | the ranking is a permutation of the countries |
| ProxyCharts.RankDescSorted | src/app/proxy/page.tsx:256 | the ranking is ordered by value, largest first |
| ProxyCharts.RankDescKeepsRanked | src/app/proxy/page.tsx:256 | a list already ranked is left as it is (the sort is stable) |
| ProxyCharts.InsertInto | src/app/proxy/page.tsx:256 | one insertion step of the in-place sort: the first i+1 slots become the ranked prefix with `a[i]` inserted behind every value at least as large, and the rest of the array is unchanged |
| ProxyCharts.RankCountries | src/app/proxy/page.tsx:256 | the in-place sort of the country array produces the ranking |
| ProxyCharts.Ranked | src/app/proxy/page.tsx:256 | `.sort((a, b) => b.value - a.value)` on the reduced list returns its ranking |
| ProxyCharts.CountryRanking | src/app/proxy/page.tsx:240-256 | the world map's data is the ranking of the per-country sums of `requests` |
| ProxyCharts.CountryRankingSums | src/app/proxy/page.tsx:240-256 | the world map lists one entry per country, each the sum of its requests, ordered by value, largest first |
| ProxyPage.DayDifference | src/app/proxy/page.tsx:634-637 | the whole days between two instants, rounded down |
| ProxyPage.DayDifferenceOfDays | src/app/proxy/page.tsx:634-637 | between two midnights the difference is exactly the number of days |
| ProxyPage.RangeCheckAccepts | src/app/proxy/page.tsx:640-656 | a range is accepted exactly when it runs forwards and spans at most 394 days; it is refused as backwards exactly when end < start |
| ProxyPage.ChartsOfNumbers | src/app/proxy/page.tsx:562-624 | each numeric series has one point per day group, in order, with that day's date and number |
| ProxyPage.ChartsOfMaps | src/app/proxy/page.tsx:562-624 | each map series has one entry per day group, in order, with that day's date and map |
| ProxyPage.Collect | src/app/proxy/page.tsx:562-612 | the `forEach` that pushes one entry onto each of the twelve lists builds the aligned series |
| ProxyPage.ProxyStatistics.constructor | src/app/proxy/page.tsx:526-528 | the range starts as the last 30 days, with `limit` 30 |
| ProxyPage.ProxyStatistics.HandleDateChange | src/app/proxy/page.tsx:639-665 | a null date is ignored; a backwards or over-394-day range changes nothing; otherwise only the picked bound moves and `limit` becomes the span in days; a valid range stays valid |
| ProxyPage.ProxyStatistics.FetchAnalytics | src/app/proxy/page.tsx:543-632 | a 200 answer replaces all twelve series; any other status or a throw replaces none; loading ends either way |
| PackageLists.RemoveIdMembers | src/app/packages/_packages/MainPackage.tsx:201-206 | the delete filter keeps exactly the entries with another id |
| PackageLists.RemoveIdAppend | src/app/packages/_packages/MainPackage.tsx:201-206 | the delete filter works entry by entry, so the kept entries stay in order |
| PackageLists.RemoveIdIdempotent | src/app/packages/_packages/MainPackage.tsx:201-206 | deleting the same id twice equals deleting it once |
| PackageLists.RemoveAbsentId | src/app/packages/_packages/MainPackage.tsx:201-206 | deleting an id no entry has leaves the list unchanged |
| PackageLists.ReplaceId | src/app/packages/_packages/MainPackage.tsx:241-252 | the update map keeps the length and replaces exactly the entries with the id |
| PackageLists.ReplaceIdKeepsOthers | src/app/packages/_packages/MainPackage.tsx:241-252 | the update changes nothing but the entries with that id |
| PackageLists.FormatPrice | src/app/packages/_packages/MainPackage.tsx:248 | the price text is `$`, the digits, then `.00` |
| PackageLists.EditPrice | src/app/packages/_packages/MainPackage.tsx:180 | `parseInt(price.slice(1))` is NaN exactly when the second character is missing or not a digit |
| PackageLists.PriceRoundTrip | src/app/packages/_packages/MainPackage.tsx:180 | parsing the formatted `$n.00` gives n back |
| MainPackages.Priced | src/app/packages/_packages/MainPackage.tsx:243-252 | the listed entry keeps the record's id, its price text is `$n.00`, and the edit form reads n back from it |
| MainPackages.MainPackageTab.constructor | src/app/packages/_packages/MainPackage.tsx:24-39 | an empty list on page 1 with 10 per page, no search and all dialogs closed |
| MainPackages.MainPackageTab.Query | src/app/packages/_packages/MainPackage.tsx:47-53 | the list query carries the page, size and search text, sorted by `id_main_package` descending |
| MainPackages.MainPackageTab.PaginationTotal | src/app/packages/_packages/MainPackage.tsx:314 | the pagination total is the list length |
| MainPackages.MainPackageTab.HandleSearch | src/app/packages/_packages/MainPackage.tsx:64-67 | the search text is set and the page goes back to 1; the list, the selection, the form and the dialogs are kept |
| MainPackages.MainPackageTab.HandlePageChange | src/app/packages/_packages/MainPackage.tsx:69-72 | page and size are set, and the query follows; everything else is kept |
| MainPackages.MainPackageTab.HandleEditButtonClick | src/app/packages/_packages/MainPackage.tsx:177-185 | the record is selected, the edit form's price is parsed from its price text and the edit dialog opens; everything else is kept |
| MainPackages.MainPackageTab.HandleDeleteButtonClick | src/app/packages/_packages/MainPackage.tsx:187-190 | the record is selected and the delete dialog opens; everything else is kept |
| MainPackages.MainPackageTab.HandleDeleteOk | src/app/packages/_packages/MainPackage.tsx:196-212 | a resolved delete removes every entry with the id selected before the call and closes the dialog; a rejected one changes nothing; the selection and everything else are kept |
| MainPackages.MainPackageTab.HandleFormSubmit | src/app/packages/_packages/MainPackage.tsx:228-262 | a successful update replaces the entries with the answer's id by the priced record and closes the dialog; a failure changes nothing; everything else is kept |
| MainPackages.MainPackageTab.HandleCreateFormSubmit | src/app/packages/_packages/MainPackage.tsx:264-291 | an answered create appends exactly the priced record at the end and closes the modal; an answer without a record also closes the modal and leaves an updater that throws at the next render; a rejection changes nothing; page, search, selection, form and the other dialogs are kept |
| ComboPackages.Priced | src/app/packages/_packages/ComboPackage.tsx:259-269 | the listed combo keeps the record's id and extras, and its price text reads back as the record's price |
| ComboPackages.ExtraIds | src/app/packages/_packages/ComboPackage.tsx:218-222 | the edit form's extras are the extras' `id_extra_package` values, in their order |
| ComboPackages.ExtraIdsAppend | src/app/packages/_packages/ComboPackage.tsx:218-222 | the projection works extra by extra, so the order is kept |
| ComboPackages.ActiveExtras | src/app/packages/_packages/ComboPackage.tsx:449-451 | the selectors offer exactly the extras with `is_active` true |
| ComboPackages.ActiveExtrasAppend | src/app/packages/_packages/ComboPackage.tsx:540-542 | the filter works extra by extra, so the offered extras keep their order |
| ComboPackages.ComboPackageTab.constructor | src/app/packages/_packages/ComboPackage.tsx:29-37 | an empty list on page 1 with 10 per page, no search and all dialogs closed |
| ComboPackages.ComboPackageTab.Query | src/app/packages/_packages/ComboPackage.tsx:67-73 | the list query carries the page, size and search text, sorted by `id_combo_package` descending |
| ComboPackages.ComboPackageTab.PaginationTotal | src/app/packages/_packages/ComboPackage.tsx:351 | the pagination total is the list length |
| ComboPackages.ComboPackageTab.HandleSearch | src/app/packages/_packages/ComboPackage.tsx:84-87 | the search text is set and the page goes back to 1; the list, the selection, the form and the dialogs are kept |
| ComboPackages.ComboPackageTab.HandlePageChange | src/app/packages/_packages/ComboPackage.tsx:89-92 | page and size are set, and the query follows; everything else is kept |
| ComboPackages.ComboPackageTab.HandleEditButtonClick | src/app/packages/_packages/ComboPackage.tsx:214-226 | the form gets the parsed price and the extras' ids, in order; the record is selected and the edit dialog opens; everything else is kept |
| ComboPackages.ComboPackageTab.HandleDeleteButtonClick | src/app/packages/_packages/ComboPackage.tsx:228-231 | the record is selected and the delete dialog opens; everything else is kept |
| ComboPackages.ComboPackageTab.HandleEditFormSubmit | src/app/packages/_packages/ComboPackage.tsx:248-275 | an answered update replaces only the entries with the answer's `id_combo_package`, closes the modal and resets the form (`onEditCancel`); an answer without a record does the same to the modal and the form and makes the next render throw unless the list is empty; a rejection changes nothing; everything else is kept |
| ComboPackages.ComboPackageTab.HandleCreateFormSubmit | src/app/packages/_packages/ComboPackage.tsx:276-308 | a create into an empty list asks for a re-fetch with the current page, size and search; into a non-empty list it appends exactly one priced entry, or, for an answer without a record, leaves an updater that throws at the next render; every answer closes the modal and resets the form (`onCreateCancel`); a rejection changes nothing; everything else is kept |
| ComboPackages.ComboPackageTab.ReceivePage | src/app/packages/_packages/ComboPackage.tsx:286-295 | the re-fetched page replaces the list; everything else is kept |
| ComboPackages.ComboPackageTab.HandleDeleteOk | src/app/packages/_packages/ComboPackage.tsx:309-324 | a resolved delete removes every entry with the id selected before the call and nothing else, then closes the dialog and resets the form (`onDeleteCancel`, lines 243-246); a rejected one changes nothing; the selection and everything else are kept |
| ExtraPackages.SortChange | src/app/packages/_packages/ExtraPackage.tsx:69-82 | a column click on the current column toggles `sortDesc`; any other call sets it to the given value; `sortBy` and `currentSortColumn` both become the new column |
| ExtraPackages.TableSortChange | src/app/packages/_packages/ExtraPackage.tsx:233-236 | a table change sorts by the field, descending exactly when the order is `descend` |
| ExtraPackages.DoubleClickRestores | src/app/packages/_packages/ExtraPackage.tsx:74-75 | two clicks on the current column restore its direction |
| ExtraPackages.NewColumnThenClicks | src/app/packages/_packages/ExtraPackage.tsx:74-81 | clicking a new column uses the given direction, and clicking it again flips it |
| ExtraPackages.ExtraPackageTab.constructor | src/app/packages/_packages/ExtraPackage.tsx:22-32 | page 1, 10 per page, sorted by `id_extra_package` ascending |
| ExtraPackages.ExtraPackageTab.HandlePageChange | src/app/packages/_packages/ExtraPackage.tsx:34-37 | page and size are set; search and sort are kept |
| ExtraPackages.ExtraPackageTab.HandleSearch | src/app/packages/_packages/ExtraPackage.tsx:63-66 | the search text is set and the page goes back to 1 |
| ExtraPackages.ExtraPackageTab.HandleSortChange | src/app/packages/_packages/ExtraPackage.tsx:69-82 | the sort state moves as `SortChange` says, and `sortBy` stays equal to `currentSortColumn`; page, size and search are kept |
| Discounts.FindCode | src/app/order/components/DiscountModal.tsx:73-74 | `findIndex` gives -1 exactly when no row has the code, and otherwise the first row with it |
| Discounts.FindIndex | src/app/order/components/DiscountModal.tsx:73-74 | the linear scan finds that index |
| Discounts.Merge | src/app/order/components/DiscountModal.tsx:76-80 | the merged row keeps the stored code and takes the form's percentage and expiry |
| Discounts.Saved | src/app/order/components/DiscountModal.tsx:71-95 | saving a code already listed keeps the length; saving a missing code appends the form row |
| Discounts.SavedReplacesOne | src/app/order/components/DiscountModal.tsx:75-81 | saving a listed code replaces only the first row with it, keeping that row's code |
| Discounts.SavedIdempotent | src/app/order/components/DiscountModal.tsx:71-83 | saving the same row twice equals saving it once |
| Discounts.WithoutCode | src/app/order/components/DiscountModal.tsx:108-110 | no row left after a delete has the code |
| Discounts.WithoutCodeMembers | src/app/order/components/DiscountModal.tsx:108-110 | the delete keeps exactly the rows with another code |
| Discounts.DeletedNotFound | src/app/order/components/DiscountModal.tsx:104-114 | after a delete, `findIndex` no longer finds the code |
| Discounts.ValidateNumber | src/app/order/components/DiscountModal.tsx:124-129 | a value is accepted exactly when it is truthy and numeric |
| Discounts.ValidateNumberEdges | src/app/order/components/DiscountModal.tsx:124-129 | 0, empty input and missing input are refused; the text "0" passes; non-numeric text is refused |
| Discounts.DiscountModal.Edit | src/app/order/components/DiscountModal.tsx:53-61 | `editingKey` becomes the record's code, `isEditing` holds exactly for rows with that code, and every edit button is disabled |
| Discounts.DiscountModal.Cancel | src/app/order/components/DiscountModal.tsx:63-65 | `editingKey` is cleared, so no row is being edited |
| Discounts.DiscountModal.Save | src/app/order/components/DiscountModal.tsx:67-102 | a failed validation changes nothing; otherwise the list becomes `Saved` and the key is cleared, before the update call, with no revert when it fails; the key is the row's code or `undefined`, which matches the rows without a code |
| Discounts.DiscountModal.HandleDelete | src/app/order/components/DiscountModal.tsx:104-122 | the code's rows are removed only on a 200 answer (for a row without a code, `undefined` removes every row without one); otherwise the list is unchanged |
| Discounts.DiscountModal.Create | src/app/order/components/DiscountModal.tsx:304-335 | the submitted discount is appended only on a 201 answer |
| Discounts.DiscountModal.CloseModal | src/app/order/components/DiscountModal.tsx:263-268 | closing the modal clears `editingKey` |
| Logs.RowNumber | src/app/logs/page.tsx:136 | the row number is the index plus one, offset by `(page-1)*itemsPerPage` |
| Logs.RowNumbersContinue | src/app/logs/page.tsx:136 | page p holds exactly the numbers `(p-1)*size+1 .. p*size`, so numbering continues across pages |
| Logs.SeparateIsRegex | src/app/logs/page.tsx:278-280 | grouping from the right puts the commas where the regex does: after a digit exactly when the digits to its right are a positive multiple of three |
| Logs.SeparateRoundTrip | src/app/logs/page.tsx:278-280 | removing the commas restores the digits |
| Logs.SeparateShape | src/app/logs/page.tsx:278-280 | no leading or trailing comma, no two commas in a row, one comma per full group of three |
| Logs.CounterRoundTrip | src/app/logs/page.tsx:276-280 | each counter reads back, without its commas, as the number it shows |
| Logs.ToPoints | src/app/logs/page.tsx:253-258 | each `{time, count}` becomes `{x, y}`, keeping order and length |
| Logs.ToPointsInverse | src/app/logs/page.tsx:253-258 | the buckets can be read back from the points |
| Logs.RenderLogLevel | src/app/logs/page.tsx:84-91 | "info" gives the success tag, "error" the error tag, and any other text passes through unchanged |
| Logs.Direction | src/app/logs/page.tsx:181-184 | the sorter order `ascend` gives "asc"; anything else gives "desc" |
| Logs.LogsPage.constructor | src/app/logs/page.tsx:57-81 | the filter starts at page 1, 10 per page, direction "desc", every other field null |
| Logs.TableChange | src/app/logs/page.tsx:178-197 | page and size come from a complete pagination, otherwise stay; the direction follows a sorter with a field only when no complete pagination came with it; every search field is kept |
| Logs.LogsPage.HandleTableChange | src/app/logs/page.tsx:178-197 | the filter becomes `TableChange` of the old filter; rows, chart, counters and the spinner are kept |
| Logs.SortLostWithPagination | src/app/logs/page.tsx:178-197 | a new direction sent together with a complete pagination is lost, although the same sorter alone, or sorter then pagination one after the other, sets it (latent: the table is rendered with `pagination={false}`, so no complete pagination reaches this handler) |
| Logs.LogsPage.HandleColumnTitleClick | src/app/logs/page.tsx:199-210 | "desc" becomes "asc", anything else "desc"; the other fields are kept |
| Logs.LogsPage.HandleSearch | src/app/logs/page.tsx:227-233 | the form's six fields replace the filter's, and the page goes back to 1 |
| Logs.LogsPage.HandlePaginationChange | src/app/logs/page.tsx:534-537 | the pager sets page and size only |
| Logs.LogsPage.GetLogsData | src/app/logs/page.tsx:212-225 | the rows are replaced only by a 200 answer |
| Logs.LogsPage.GetChartData | src/app/logs/page.tsx:245-266 | a 200 answer replaces the chart points and ends loading; a throw ends loading; another status returns early with the spinner still on |
| Logs.LogsPage.GetLogsCount | src/app/logs/page.tsx:268-289 | a 200 answer shows each counter with thousands separators |
| Orders.PackageType | src/app/order/page.tsx:182-195 | the type column follows main, then extra, then combo, with "" when there is no package |
| Orders.PackageName | src/app/order/page.tsx:196-209 | the name column follows the same precedence, with "" when there is no package |
| Orders.ColumnsAgree | src/app/order/page.tsx:182-209 | both columns describe the first present package in the order main, extra, combo |
| Orders.DetailPackageType | src/app/order/page.tsx:357-363 | the detail tab's type line, corrected, equals the table's type column |
| Orders.DetailFixOnlyForNoPackage | src/app/order/page.tsx:357-363 | the correction changes the line only for orders with no package |
| AntTable.ActiveSorter | src/app/order/page.tsx:266 | the active sorter is the single sorter, or the first of an array (none for an empty array) |
| Orders.MapOrder | src/app/order/page.tsx:273-278 | `ascend` maps to ASC, `descend` to DESC, anything else to null |
| AntTable.OrDefault | src/app/order/page.tsx:269-270 | a missing or zero page value falls back to the default |
| Orders.FieldOrNull | src/app/order/page.tsx:272 | a missing or empty sort field becomes null |
| Orders.OrderPage.constructor | src/app/order/page.tsx:125-132 | page 1, 10 per page, type ALL, no search and no sort |
| Orders.OrderPage.HandleSearch | src/app/order/page.tsx:244-250 | the keyword is set and the page goes back to 1; the other query fields, the list, the selection and the modal are kept |
| Orders.OrderPage.HandlePackageChange | src/app/order/page.tsx:252-258 | the type is set and the page goes back to 1; everything else is kept |
| Orders.OrderPage.HandleTableChange | src/app/order/page.tsx:260-280 | page and size default to 1 and 10, the sort comes from the first sorter, and search, type, list, selection and modal are untouched |
| Orders.OrderPage.GetListUserOrders | src/app/order/page.tsx:137-148 | the orders and the total are replaced together, only by a 200 answer; the query, selection and modal are kept |
| Orders.OrderPage.ShowOrderDetails | src/app/order/page.tsx:234-237 | the order is selected and the modal opens; everything else is kept |
| Orders.OrderPage.HandleModalClose | src/app/order/page.tsx:239-242 | the modal closes and the selection is cleared; everything else is kept |
| Orders.OrderPage.DetailType | src/app/order/page.tsx:357-363 | the open order's type line, through the corrected chain `DetailPackageType`, agrees with its table column (the chain as written is `DetailPackageTypeAsWritten`, see Findings) |
| Users.SortIcon | src/app/users/page.tsx:175-180 | the current column shows ↓ when descending and ↑ when ascending; every other column shows nothing |
| Users.SortClick | src/app/users/page.tsx:117-124 | a click on the current column toggles the direction; a new column becomes the sort, descending |
| Users.SortClickTwice | src/app/users/page.tsx:117-124 | two clicks on the current column restore its direction; a new column clicked twice ends ascending |
| Users.SortClickIcon | src/app/users/page.tsx:117-124 | after a click only the clicked column shows an arrow, pointing the way it now sorts |
| Users.SortField | src/app/users/page.tsx:135 | only a missing sorter field becomes "" |
| Users.AscendShowsDescending | src/app/users/page.tsx:136 | as written, an `ascend` request sets `sortDesc` and shows ↓ |
| Users.TableSortDesc | src/app/users/page.tsx:136 | corrected: descending exactly when the order is `descend` |
| Users.TableSortIconAgrees | src/app/users/page.tsx:136 | with the correction, the arrow agrees with antd's order, and the correction differs from the code on both orders |
| Users.UsersPage.constructor | src/app/users/page.tsx:59-74 | page 1, 10 per page, empty search, sorted by `id_user` descending |
| Users.UsersPage.GetSortIcon | src/app/users/page.tsx:175-180 | the header arrow for a field is `SortIcon` of the current sort |
| Users.UsersPage.HandleSort | src/app/users/page.tsx:117-124 | the sort moves as `SortClick` says; page, size, search, list, loading flag and dialogs are kept |
| Users.UsersPage.HandleTableChange | src/app/users/page.tsx:126-138 | page and size default to 1 and 20, the sort field to ""; the direction uses the corrected mapping; with no column sorter (every column today) the sort becomes "" ascending; search, list and dialogs are kept |
| Users.PagerDropsHeaderSort | src/app/users/page.tsx:133-136 | a pager change from a table whose columns declare no `sorter` sets the column to "" and the direction to ascending under either mapping, so the column chosen by a header click is lost |
| Users.UsersPage.HandleSearch | src/app/users/page.tsx:140-143 | the search text is set and the page goes back to 1; size, sort, list and dialogs are kept |
| Users.UsersPage.FetchUsers | src/app/users/page.tsx:85-103 | a missing list becomes empty and a missing total 0; a throw leaves both; loading ends either way; query, dialogs and target are kept |
| Users.UsersPage.BanAccount | src/app/users/page.tsx:145-148 | the target is set and the ban dialog opens; everything else is kept |
| Users.UsersPage.UnbanAccount | src/app/users/page.tsx:150-153 | the target is set and the unban dialog opens; everything else is kept |
| Users.UsersPage.HandleBan | src/app/users/page.tsx:155-163 | only a call that does not throw closes the dialog and asks for a re-fetch; everything else is kept |
| Users.UsersPage.HandleUnban | src/app/users/page.tsx:165-173 | only a call that does not throw closes the dialog and asks for a re-fetch; everything else is kept |
| Database.FilteredData | src/app/database/page.tsx:195-197 | every kept row's table name contains the search text, ignoring case |
| Database.FilteredMembers | src/app/database/page.tsx:195-197 | exactly the matching rows are kept |
| Database.FilteredAppend | src/app/database/page.tsx:195-197 | the filter works row by row, so the kept rows stay in order |
| Database.EmptySearchKeepsAll | src/app/database/page.tsx:195-197 | an empty search keeps every row |
| Database.SearchCaseInsensitive | src/app/database/page.tsx:195-197 | searching the lower-cased text keeps the same rows |
| Database.DatabasePage.constructor | src/app/database/page.tsx:103-109 | empty lists, neither flag set, empty search |
| Database.DatabasePage.Mount | src/app/database/page.tsx:136-141 | the mount effect raises both loading flags; the lists and the search are kept |
| Database.DatabasePage.GetPostgresqlData | src/app/database/page.tsx:111-123 | both PostgreSQL lists are stored only on a 200 answer; the flag drops in `finally`; the MongoDB list, its flag and the search are kept |
| Database.DatabasePage.GetMongoStat | src/app/database/page.tsx:125-134 | any answer is stored, whatever its status; the flag drops in `finally`; the PostgreSQL lists, their flag and the search are kept |
| Database.DatabasePage.HandleSearch | src/app/database/page.tsx:191-193 | only the search text changes |
| Database.DatabasePage.Render | src/app/database/page.tsx:242-253 | only a spinner while either flag is set; otherwise the tables, with the filtered table-size list |

## Left out

- The repository and use-case classes (`src/repository/*`, `src/usecase/*`) are not part of this model. They are `fetch` wrappers, and every answer they give is a parameter of the handler that receives it.
- Async ordering is not modelled: no stale-answer guard and no last-request-wins. A handler and the fetch its new state triggers are separate methods. `ComboPackageTab.HandleCreateFormSubmit` returns the re-fetch as a value, and `ReceivePage` models its answer.
- The logs page's table loading flag is raised and cleared around an un-awaited call. It is not modelled.
- Floating point is not modelled: `formatBytes`, the pie-chart percentages, the logs error rate, `parseFloat` column sorters and the queue rates (carried as `real`, with no arithmetic).
- Dates are day numbers. `dayjs`, `toLocaleString`, `toISOString` and the `YYYY-MM-DD` formatting of discount expiries are not modelled. The proxy date check converts day numbers to midnight-UTC milliseconds.
- Text.ParseInt: reads only a leading run of decimal digits. It does not model leading whitespace, a sign, a radix prefix or values past 2^53.
- Text.Lower: lower-cases ASCII letters only. Unicode case mapping is not modelled.
- Discounts.ValidateNumber: `Number()` on text is reduced to "an optional sign, then digits with at most one point". Whitespace, exponents, hex and `Infinity` are not modelled.
- Discounts.DiscountModal.Save: the form values are the two editable fields, already validated. The notices are a datatype and the update call's answer is a parameter.
- Logs.Filter: `statusCode` holds the form's text, not a number. The search input is a text input whatever its declared type.
- Orders.FieldOrNull: a sorter field given as an array (a nested `dataIndex`) is not modelled.
- Orders.OrderPage.DetailType: it uses the corrected chain `DetailPackageType`. The code as written is `DetailPackageTypeAsWritten` (see Findings).
- Users.UsersPage.HandleTableChange: it uses the corrected direction mapping. The mapping as written is `TableSortDescAsWritten` (see Findings).
- Prices are whole numbers. A non-integer price in a `$n.00` string is not modelled.
- `localeCompare` sorters are not modelled, because their order is locale dependent.
- The IP-lookup modals on the logs and database pages are not modelled, because they only fetch and display.
- The top-users-login fetch on the users page is not modelled, because it only fetches and displays.
- The dashboard, feedback and packages index pages are not modelled, because they are fetch-and-render plumbing.
- `OrderModal.tsx` is not modelled, because it repeats the order page's detail-tab precedence.
- The Redux store wiring and the cookies are not modelled.
- The middleware's `matcher` regex is not modelled: the guard is modelled for every path it is given.
- Rendering, antd, the chart and map libraries and styling are not modelled. A rendered cell appears only where a rule picks its content (`RenderLogLevel`, `CardFor`, `Render`, the package columns).

## Findings

| source | as written | input that shows it | evidently intended | confidence | as-written member | corrected member |
|---|---|---|---|---|---|---|
| src/app/users/page.tsx:136 | `sortDesc` is set to true when antd reports `ascend`, and false otherwise | latent: a sorter with order `ascend` would set `sortDesc` true, ask the server for a descending list and show ↓; no users column declares `sorter` today, so antd sends no order and both mappings agree on every reachable input | descending exactly for `descend`, as the extra-package table does (src/app/packages/_packages/ExtraPackage.tsx:233-236) | low (latent), not executed | Users.AscendShowsDescending | Users.TableSortDesc |
| src/app/order/page.tsx:357-363 | the detail tab's "Package Type" line falls through to "Combo Package" with no check that a combo package exists | an order whose main, extra and combo packages are all null: the table says "" and the detail tab says "Combo Package" | the same main > extra > combo > "" chain as the table column and the tab's own "Package Name" line | high, not executed | Orders.DetailDisagreesWithoutPackage | Orders.DetailPackageType |
