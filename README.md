# indallo-web client core, modelled in Dafny

indallo-web is the browser client of a Telegram news-digest service. A user
arrives from the bot with a `telegram_id` in the address, or opens the client
inside Telegram's host runtime. The client stores that identifier in local
storage and sends it with every backend request. It shows three pages:
per-channel summaries for a chosen day, breaking news per day, and a profile
page with preferences and channel management.

This project models the client's logic without its UI framework:

- the translation lookup `t(key)` with its Uzbek fallback, and the locale store;
- the route table's authentication flags and the navigation guard;
- the HTTP service layer: the request interceptor that injects the identity,
  the response interceptor that normalises errors, and every endpoint
  operation with its error rule, including the per-channel fan-out of
  `getUserSummaries` and the day-by-day expansion of a breaking-news range;
- the `execute` wrapper, with its `loading` flag and its error slot;
- the summaries, profile, breaking-news and authentication stores.

Some of this code only computes a value from its inputs: the translation
lookup, the endpoint operations and the date arithmetic. That code is written
as functions and datatypes. The stores, the `execute` wrapper, the request
configuration and local storage are changed in place by the source, so they
are classes whose methods state the whole new state. Each such method is tied
to a pure function of the old state, and the properties are proved about
those functions. The loops of `t`, `getDateRange` and `loadBreakingNews` are
methods with loop invariants.

The backend is a parameter. An operation that sends one request receives that
request's answer as a `Response` value: a body, or a transport failure
carrying the library's message and the HTTP response, if there was one. An
operation that sends many requests receives an endpoint function from the
request's path argument and query parameters to its answer. For
`loadBreakingNews`, the endpoint function is also indexed by request number,
so a later answer for the same day may differ from an earlier one.

Modules, one file each:

| file | module | models |
|---|---|---|
| `wrappers.dfy` | `Wrappers` | `Option` and `Result` |
| `strings.dfy` | `Strings` | splitting on a separator, joining, decimal digits, `padStart` |
| `calendar.dfy` | `Calendar` | calendar days, `new Date(y, m, d)` normalisation, the two day formats |
| `entities.dfy` | `Entities` | the records exchanged with the backend and the error shapes |
| `storage.dfy` | `BrowserStorage` | `localStorage` |
| `translation.dfy` | `Translation` | `t(key)` |
| `locale_store.dfy` | `LocaleStore` | the locale store |
| `router.dfy` | `Router` | route flags and the `beforeEach` guard |
| `api.dfy` | `Api` | interceptors and endpoint operations |
| `async_call.dfy` | `AsyncCall` | `useApi` / `execute` |
| `summaries.dfy` | `Summaries` | `useSummaries` |
| `user_store.dfy` | `UserStore` | `useUser` |
| `breaking_news.dfy` | `BreakingNews` | `useBreakingNews` |
| `auth.dfy` | `Auth` | `useAuth` |

Behaviours of the code that the model makes explicit:

- In `loadSummaries`, when a channel is selected, `summaries` and
  `allSummaries` end up equal, with at most that channel's group.
- In `removeChannel`, each of the three `execute` calls clears the shared
  error slot. The slot therefore ends with the subscription reload's error,
  and a failed removal is not reported once the reload succeeds.
- In `useAuth.loadUser`, a successful request whose body is null still stores
  the identifier. The guard then lets protected pages through, although
  `isAuthenticated` is false.
- In `execute`, the recorded `error` text is the thrown value's `message`.
  For a normalised HTTP error that is the server's `error` field, when the
  server sent one, and not the library's message.
- In `loadSummaries` with no channel selected, the channel list is requested
  twice: once by the store for `allChannels`, and once inside
  `getUserSummaries`. The two answers are separate values in the model, so the
  shown groups belong to `allChannels` only when the two answers agree.
- `checkBreakingNewsAccess` throws a script error on a null body, because it
  reads a field of `null`. `execute` records that error with status 500.

## Model

| member | source | states |
|---|---|---|
| Strings.Split | src/utils/i18n.ts:17 | the parts contain no separator, there is at least one, and joining them gives back the string |
| Strings.SplitJoin | src/utils/i18n.ts:17 | splitting the dotted join of separator-free segments gives back exactly those segments |
| Strings.PadStart | src/composables/useSummaries.ts:49-50 | the padded numeral is all digits, denotes the number, is at least `width` long, and is the plain numeral when that is long enough |
| Strings.IntToDecimal | src/router/index.ts:79 | `String(n)` is a non-empty numeral denoting `n`, with a leading `-` exactly for negative numbers and no leading zero except for `0` itself |
| Strings.IntToDecimalInjective | src/router/index.ts:79 | different user ids are stored as different strings |
| Translation.T | src/utils/i18n.ts:16-33 | the loop walks the active locale's file, re-walks the whole key in the Uzbek file on the first missing segment, and returns the key when the result is falsy; it is total |
| Translation.Translate | src/utils/i18n.ts:16-33 | `t(key)` is either the key itself or a non-empty value found at the key's path in the active locale's file or in the Uzbek file |
| Translation.WalkIsDescend | src/utils/i18n.ts:20-21 | the loop's left-to-right optional steps from a file's root reach the entry at the key's path |
| Translation.FoundInActiveLocale | src/utils/i18n.ts:17-21 | a key whose segments all resolve, to a non-empty value, in the active locale yields that value |
| Translation.MissingInActiveLocale | src/utils/i18n.ts:22-28 | a key with a segment missing in the active locale translates exactly as with Uzbek active, giving the Uzbek value when it is non-empty |
| Translation.MissingEverywhere | src/utils/i18n.ts:32 | a key found in neither the active locale nor Uzbek comes back unchanged |
| Translation.EmptyTextYieldsKey | src/utils/i18n.ts:32 | an empty string found in the active locale yields the key, without consulting Uzbek |
| Translation.UnknownLocale | src/utils/i18n.ts:18-24 | a locale without a file translates every key as Uzbek does |
| Translation.NonexistentKeyExample | src/utils/i18n.ts:32 | `nonexistent.key` comes back as itself whenever neither the active locale's file nor the Uzbek file has a top-level `nonexistent` entry |
| LocaleStore.LocaleState.constructor | src/store/i18n.ts:5 | the locale starts as `uz` |
| LocaleStore.LocaleState.SetLocale | src/store/i18n.ts:7-10 | any string becomes the locale and is saved under `locale`; no other key changes |
| LocaleStore.LocaleState.InitLocale | src/store/i18n.ts:12-17 | the locale becomes the saved value exactly when that is one of `uz`, `ru`, `en`; storage is not written |
| LocaleStore.RestoredLocale | src/store/i18n.ts:13-16 | the result is the saved value when that is supported, and the current locale otherwise |
| LocaleStore.LocaleRoundTrip | src/store/i18n.ts:7-17 | a supported locale that was saved is the one restored, whatever the current locale |
| LocaleStore.SetThenInit | src/store/i18n.ts:7-17 | `setLocale(x)` then `initLocale()` leaves `x` selected and saved, for every supported `x` |
| Router.RouteMetaAt | src/router/index.ts:86 | the flag the guard reads is that of the first route record with the target path |
| Router.RouteTableFlags | src/router/index.ts:10-49 | the profile, summaries and breaking-news pages require an identity; login, registration-required and the root do not |
| Router.BeforeEach | src/router/index.ts:57-100 | the guard writes the deep-link id, or else the host user's id, strips the query string exactly when there is a deep link, and answers `next` as the decision function says |
| Router.DeepLinkGoesToLanding | src/router/index.ts:62-72 | a deep-link id is stored and the navigation goes to `/app/summaries`, whatever the target |
| Router.HostUserIsStored | src/router/index.ts:75-82 | inside the host runtime with a user, the stored id becomes `String(user.id)`, and the decision uses it |
| Router.GuardKeepsStoredId | src/router/index.ts:57-100 | the guard never removes the stored id and leaves every other key as it was |
| Router.NoLoginWithStoredId | src/router/index.ts:88-99 | with an id already stored, the guard never redirects to `/login` |
| Router.DecideCases | src/router/index.ts:88-99 | redirect to login iff the page requires an identity and none is stored; proceed iff neither a login redirect nor a landing redirect applies; no other outcome |
| Router.GuardExamples | src/router/index.ts:88-99 | a protected page with no identity goes to login; login with one goes to the summaries page; registration-required with one proceeds |
| Calendar.NormalizeDay | src/composables/useSummaries.ts:44 | an out-of-range day rolls into the neighbouring months to give a real day; a real day is kept |
| Calendar.NormalizeDayCount | src/composables/useSummaries.ts:42-44 | day `d` of a month is the real day `d - 1` days after the month's first day, for every integer `d`, and no other real day |
| Calendar.YearLength | src/composables/useSummaries.ts:42-44 | a leap year has 366 days and any other year 365 |
| Calendar.DayNumberNext | src/utils/api.ts:231 | the next day is one further along the line of days |
| Calendar.DayNumberPrev | src/composables/useSummaries.ts:44 | the previous day is one back along the line of days |
| Calendar.DayNumberInjective | src/composables/useSummaries.ts:42-44 | a position on the line of days names at most one real day |
| Calendar.MakeDate | src/composables/useSummaries.ts:42-44 | `new Date(year, monthIndex, day)` always denotes a real calendar day |
| Calendar.MakeDateCount | src/composables/useSummaries.ts:42-44 | `new Date(year, monthIndex, day)` is the real day `day - 1` days after the first of the month that the year (1900 + `year` for 0 to 99) and the overflowing month index name, and no other |
| Calendar.MakeDateOverflowExample | src/composables/useSummaries.ts:42-44 | `new Date(2024, 1, 31)` is 2 March 2024 |
| Calendar.MakeDateOfValid | src/composables/useSummaries.ts:42 | for a real day from year 100 on, `new Date(y, m - 1, d)` is that day |
| Calendar.MakeDateTwoDaysBefore | src/composables/useSummaries.ts:44 | `new Date(y, m - 1, d - 2)` is the day two days before, across month and year starts |
| Calendar.ParseLocalFormat | src/composables/useSummaries.ts:47-52 | a day printed by `formatDate` splits back on `-` into its year, month and day |
| Calendar.ParseDayPartsAccepts | src/composables/useSummaries.ts:33-40 | a day string that yields numbers is three non-empty digit strings joined by `-`, and the numbers are what those digits denote |
| Calendar.ParseDayPartsOfDigits | src/composables/useSummaries.ts:33-40 | any three non-empty digit strings joined by `-` yield the numbers they denote |
| Calendar.ParseIsoDay | src/utils/api.ts:228-229 | a parsed date-only ISO string is a real day with a year from 0 to 9999 |
| Calendar.ParseIsoDayRoundTrip | src/utils/api.ts:228-232 | a day's `YYYY-MM-DD` string parses back to that day |
| Calendar.NextDay | src/utils/api.ts:231 | `setDate(getDate() + 1)` gives a real day strictly after the cursor |
| Calendar.NothingBetween | src/utils/api.ts:231 | no real day lies strictly between a day and the next one |
| Calendar.DaysFrom | src/utils/api.ts:231 | the days run from the start to the end inclusive, all real days between them; empty exactly when the start is after the end |
| Calendar.DaysFromStep | src/utils/api.ts:231 | a run that does not start after its end is its first day followed by the run from the next day |
| Calendar.DaysFromConsecutive | src/utils/api.ts:231 | each day of a run is the next day of the one before it |
| Calendar.WindowOfValid | src/composables/useSummaries.ts:42-44 | for a real day from year 100 on, the two `new Date` calls give the day two days before and the day itself |
| AsyncCall.ApiCall.constructor | src/composables/useApi.ts:5-6 | a new wrapper is not loading and holds no error |
| AsyncCall.ApiCall.Execute | src/composables/useApi.ts:8-27 | `loading` ends false; on success the result comes back and the error slot is empty; on failure null comes back and the slot holds the captured error |
| AsyncCall.Captured | src/composables/useApi.ts:17-21 | the captured error has a non-empty text and a non-zero status: the thrown value's non-empty message, else the default text; its non-zero status, else 500; a script error always gets 500 |
| AsyncCall.IndependentInstances | src/composables/useApi.ts:4-6 | a call through one wrapper instance leaves another instance as it was |
| Api.WithIdentity | src/utils/api.ts:26-35 | with a stored id, a GET with params gets `telegram_id` in its params, otherwise a request with a body gets it in its body; without an id nothing changes; other fields are kept |
| Api.RequestConfig.AttachIdentity | src/utils/api.ts:24-38 | the interceptor changes the request's params and body in place, exactly as `WithIdentity` says |
| Api.QueryParams | src/utils/api.ts:29-30 | a GET's query carries the stored id under `telegram_id` and every other parameter unchanged |
| Api.NormalizeError | src/utils/api.ts:43-50 | every failure becomes `{error, status, message}`: the library's non-empty message, else the default text; the non-zero response status, else 500; and the server's `error` field, else the library's message |
| Api.Settle | src/utils/api.ts:41-58 | a request succeeds with its body exactly when the transport succeeded, and fails with the normalised error otherwise |
| Api.CheckUserExists | src/utils/api.ts:60-71 | true iff the lookup succeeds; false iff it fails with status 404; every other failure is rethrown |
| Api.NotifyBotCacheUpdate | src/utils/api.ts:100-110 | the cache notification never fails |
| Api.UpdateThenNotify | src/utils/api.ts:73-98 | an update operation fails exactly when its update request fails, with that request's normalised error |
| Api.NotificationIsIrrelevant | src/utils/api.ts:100-110 | the notification's answer cannot change an update's outcome |
| Api.CheckBreakingNewsAccess | src/utils/api.ts:123-128 | true iff the flag is `true`; false when it is missing or false; a null body is a script error; a failed request rethrows |
| Api.GetUserChannels | src/utils/api.ts:131-138 | the channel array, or an empty list for any other body; a failed request rethrows |
| Api.PostQueryParams | src/utils/api.ts:146-148 | `start_date` and `end_date` are sent exactly when given and non-empty, and nothing else is sent |
| Api.GetPostsByChannel | src/utils/api.ts:141-164 | succeeds iff both the probe and the filtered request succeed; the result is the filtered body, or `[]` when it is null |
| Api.GroupFor | src/utils/api.ts:181-200 | each channel's group carries its id, title and username, and its posts, or none when its request failed |
| Api.ChannelGroups | src/utils/api.ts:181-202 | one group per channel, in channel order, each built from that channel's posts request over the window |
| Api.DropEmptyGroups | src/utils/api.ts:203 | a group survives iff it was there and has posts |
| Api.DropEmptyGroupsAppend | src/utils/api.ts:203 | the filter keeps the groups' order |
| Api.GetUserSummaries | src/utils/api.ts:166-206 | succeeds iff the channel list does; returns the non-empty groups of the channel fan-out, in channel order |
| Api.SummariesFromUserChannels | src/utils/api.ts:172-205 | every returned group belongs to one of the user's channels |
| Api.FailedChannelDropped | src/utils/api.ts:191-203 | a channel whose posts request fails gets an empty group, and no group of it is returned |
| Api.GetBreakingNewsByDate | src/utils/api.ts:209-214 | one request with the `date` parameter; its body as it came, or its normalised error |
| Api.MapDays | src/utils/api.ts:232 | one string per day, the first and last being the first and last day's |
| Api.DaysFromYears | src/utils/api.ts:231 | every day of a run lies in a year between the start's and the end's |
| Api.MapDaysAt | src/utils/api.ts:232 | the string at each position is that position's day, formatted |
| Api.MapDaysSnoc | src/utils/api.ts:232-233 | one more day appends exactly its string |
| Api.IsoDaysBetween | src/utils/api.ts:231-236 | one ISO string per day from the start to the end, beginning with the start's and ending with the end's |
| Api.IsoDaysStep | src/utils/api.ts:231-235 | one loop step emits the cursor's string and continues from the next day |
| Api.IsoOfParsed | src/utils/api.ts:232 | a string that parses as a date-only ISO day prints back as itself |
| Api.DateRange | src/utils/api.ts:226-239 | a non-empty range starts with the start string and ends with the end string, both valid; for two valid days it is empty exactly when the start is after the end |
| Api.DateRangeOfDays | src/utils/api.ts:226-239 | the range between two days' ISO strings is the ISO strings of the consecutive days between them, inclusive |
| Api.GetDateRange | src/utils/api.ts:226-239 | the cursor loop yields exactly the range above |
| Api.CollectIsoDays | src/utils/api.ts:231-236 | from a start to an end day, the cursor loop collects the ISO strings of the days between them, in order |
| Api.CursorStep | src/utils/api.ts:231-233 | the cursor is the next day of the run, and one turn appends its string and moves the rest of the run to the following day |
| Api.DateRangeOfParsed | src/utils/api.ts:226-239 | for two parseable bounds the range is the ISO strings of the days between the parsed days |
| Api.ExampleRangeDays | src/utils/api.ts:226-239 | 2024-01-01 to 2024-01-03 yields those three days, in order |
| Api.FetchDays | src/utils/api.ts:219-222 | all per-day requests succeed iff the batch does, whose bodies are the days' bodies in date order; a failed batch reports one of the days' errors |
| Api.NonNull | src/utils/api.ts:223 | a post is kept iff it occurred as a non-null item |
| Api.NonNullAppend | src/utils/api.ts:223 | dropping the nulls keeps the posts' order |
| Api.CollectMembers | src/utils/api.ts:223 | a post is collected iff some day's body holds it |
| Api.CollectAppend | src/utils/api.ts:223 | flattening keeps the days' order |
| Api.CollectDays | src/utils/api.ts:219-223 | the batch over a list of days succeeds iff every day's request does; no days give `[]` |
| Api.CollectDaysContents | src/utils/api.ts:219-223 | a post is collected iff some day's request returned it |
| Api.ThreeDayRange | src/utils/api.ts:219-223 | three successful days give their non-null posts concatenated in order |
| Api.GetBreakingNewsRange | src/utils/api.ts:216-224 | succeeds iff every day's request does; an empty range gives `[]` without a request |
| Api.RangeContents | src/utils/api.ts:216-224 | a post is in the result iff some day of the range returned it |
| Api.BreakingNewsRangeExample | src/utils/api.ts:216-224 | 2024-01-01 to 2024-01-03 returns the three days' non-null posts concatenated in date order |
| Summaries.PostsOnDate | src/composables/useSummaries.ts:71-76 | a post is kept iff it is in the list and its `posted_date` before any `T` is the day |
| Summaries.PostsOnDateAppend | src/composables/useSummaries.ts:71-76 | the day filter keeps the posts' order |
| Summaries.RestrictToDate | src/composables/useSummaries.ts:112-119 | every group keeps its channel fields, with its posts narrowed to the day |
| Summaries.GroupsOnDateShowsOnly | src/composables/useSummaries.ts:112-120 | after narrowing and dropping, every group is non-empty and holds only posts of the day |
| Summaries.GroupsOnDateChannels | src/composables/useSummaries.ts:112-120 | narrowing and dropping introduce no new channel |
| Summaries.GroupsOnDateMembers | src/composables/useSummaries.ts:112-120 | a group is kept iff it is an input group narrowed to the day's posts and some post is left |
| Summaries.GroupsOnDateAppend | src/composables/useSummaries.ts:112-120 | narrowing and dropping keep the groups' order |
| Summaries.GroupsOfChannel | src/composables/useSummaries.ts:144-146 | a group survives iff it was there and belongs to the channel |
| Summaries.GroupsOfChannelAppend | src/composables/useSummaries.ts:144-146 | the channel filter keeps the groups' order |
| Summaries.GroupsOfChannelIdempotent | src/composables/useSummaries.ts:144-146 | filtering by a channel twice is filtering once |
| Summaries.ChannelFilter | src/composables/useSummaries.ts:138-148 | every group with no selection; otherwise exactly the selected channel's groups |
| Summaries.ChannelFilterAppend | src/composables/useSummaries.ts:138-148 | `applyChannelFilter` keeps the groups' order |
| Summaries.ChannelFilterIdempotent | src/composables/useSummaries.ts:138-148 | re-applying the filter to its own output changes nothing |
| Summaries.ChannelFilterShowsOnly | src/composables/useSummaries.ts:138-148 | the filter keeps the shown list to non-empty groups of the day |
| Summaries.FindChannel | src/composables/useSummaries.ts:62 | a channel of the list with the id, the head when the head has it, and none iff no channel has it |
| Summaries.FindChannelFirst | src/composables/useSummaries.ts:62 | the channel found sits at a position with no channel of that id before it |
| Summaries.SummaryWindow | src/composables/useSummaries.ts:33-55 | a window exists iff the day string splits into three numbers |
| Summaries.WindowOfParts | src/composables/useSummaries.ts:38-55 | a day string that splits into `y`, `m`, `d` gets the formatted `new Date` days of `y-m-d` as its window |
| Summaries.WindowOfDay | src/composables/useSummaries.ts:42-55 | for a real day, the window runs from two days earlier to the day itself |
| Summaries.WindowAcrossMonthStart | src/composables/useSummaries.ts:42-55 | the window of 2024-03-01 starts on 2024-02-28 |
| Summaries.ChannelsOrEmpty | src/composables/useSummaries.ts:23-29 | the channel list, or empty when the request failed |
| Summaries.SelectedChannelGroups | src/composables/useSummaries.ts:68-94 | a group is present iff the request succeeded with some post of the day, and it is then exactly the selected channel's id, title and username with those posts |
| Summaries.ListsShowOnly | src/composables/useSummaries.ts:68-129 | whatever the request returned, both lists built from it hold only non-empty groups of posts of the day |
| Summaries.LoadShowsOnlyDate | src/composables/useSummaries.ts:16-136 | after a load of a well-formed day, both lists hold only non-empty groups of posts of that day, and the channel selection is kept |
| Summaries.InvalidDateKeepsLists | src/composables/useSummaries.ts:33-37 | a malformed day records the day and the channels, sends no request and keeps both lists |
| Summaries.SelectedChannelLoad | src/composables/useSummaries.ts:61-98 | with a channel selected, both lists end equal with at most that channel's group; an unknown channel empties both without a request |
| Summaries.AllChannelsLoad | src/composables/useSummaries.ts:100-129 | with no channel selected, the shown list is the whole list; every group belongs to a channel that `getUserSummaries`' own channel request listed, and so to a loaded channel when the two channel requests answered alike |
| Summaries.AllChannelsLists | src/composables/useSummaries.ts:100-129 | an all-channels request yields two equal lists whose groups all belong to channels its own channel request listed |
| Summaries.AllChannelsComplete | src/composables/useSummaries.ts:100-129 | with no channel selected, the whole list holds exactly the returned groups that have posts of the day, each narrowed to those posts, in the returned order |
| Summaries.AllFetchLists | src/composables/useSummaries.ts:109-123 | the whole list built from returned groups holds exactly those groups narrowed to the day and non-empty, in their order |
| Summaries.FailedFetchLists | src/composables/useSummaries.ts:91-129 | a request that failed leaves both lists empty |
| Summaries.FailedLoadEmpties | src/composables/useSummaries.ts:91-129 | a failed request empties both lists |
| Summaries.SelectWithoutDate | src/composables/useSummaries.ts:159-162 | with no day selected, choosing a channel only re-filters the loaded groups |
| Summaries.SelectWithDate | src/composables/useSummaries.ts:154-158 | with a day selected and an id stored, choosing a channel reloads that day under the new selection |
| Summaries.SummariesStore.constructor | src/composables/useSummaries.ts:7-11 | empty lists, no day, no channel selected |
| Summaries.SummariesStore.ApplyChannelFilter | src/composables/useSummaries.ts:138-148 | the shown list becomes the filtered whole list; nothing else changes |
| Summaries.SummariesStore.LoadSummaries | src/composables/useSummaries.ts:16-136 | the new state is the load function of the old state, under separate answers for the store's channel request and `getUserSummaries`' own; the wrapper's error slot is the request's; the shown lists hold only groups of the day |
| Summaries.SummariesStore.LoadInWindow | src/composables/useSummaries.ts:16-136 | once the window is known, the new state is the load of the old state under that window; the error slot is the request's; the shown lists hold only groups of the day |
| Summaries.SummariesStore.LoadChannelPosts | src/composables/useSummaries.ts:61-98 | both lists become the selected channel's group of the day, if any |
| Summaries.SummariesStore.LoadAllChannels | src/composables/useSummaries.ts:100-129 | the whole list becomes the day's groups of `getUserSummaries`' answer and the shown list its channel-filtered form; a failure empties both |
| Summaries.SummariesStore.SetSelectedChannel | src/composables/useSummaries.ts:150-163 | the selection changes, then either the day is reloaded or the filter is re-applied, as the select function says; a reload leaves the wrapper's error slot as the load's request does, and no reload leaves the wrapper alone |
| UserStore.AfterLoad | src/composables/useUser.ts:14-28 | a cached record is replaced only by a record that came back, and a cached record is never cleared |
| UserStore.ChannelsAfterLoad | src/composables/useUser.ts:30-37 | any list that came back replaces the cache, even an empty one; a failure keeps it |
| UserStore.EmptyChannelListReplaces | src/composables/useUser.ts:34-36 | a successful load of no channels clears the list |
| UserStore.WithLanguage | src/composables/useUser.ts:41-43 | a cached user gets the new language and nothing else changes; with no cached user there is still none |
| UserStore.WithHour | src/composables/useUser.ts:48-50 | a cached user gets the new hour and nothing else changes; with no cached user there is still none |
| UserStore.ProfileStore.constructor | src/composables/useUser.ts:7-9 | no user, no subscription, no channels |
| UserStore.ProfileStore.ChannelCount | src/composables/useUser.ts:60-62 | the subscription's channel count, or 0 |
| UserStore.ProfileStore.MaxChannels | src/composables/useUser.ts:64-66 | the subscription's non-zero limit, or 3; never 0 |
| UserStore.ProfileStore.LoadUser | src/composables/useUser.ts:14-19 | the user is replaced only by a user that came back; the error slot is the request's |
| UserStore.ProfileStore.LoadSubscription | src/composables/useUser.ts:21-28 | the subscription is replaced only by one that came back; the error slot is the request's |
| UserStore.ProfileStore.LoadChannels | src/composables/useUser.ts:30-37 | the channels are replaced by any list that came back |
| UserStore.ProfileStore.UpdateLanguage | src/composables/useUser.ts:39-44 | the cached user's language is set whether or not the request succeeded; the error slot is the update's |
| UserStore.ProfileStore.UpdateTime | src/composables/useUser.ts:46-51 | the cached user's hour is set whether or not the request succeeded; the error slot is the update's |
| UserStore.ProfileStore.RemoveChannel | src/composables/useUser.ts:53-58 | channels and subscription are reloaded whatever the removal did; the error slot ends with the subscription reload's error |
| UserStore.RemovalErrorOverwritten | src/composables/useUser.ts:53-58 | a failed removal followed by a successful subscription reload leaves no error |
| BreakingNews.AccessGrantedIff | src/composables/useBreakingNews.ts:16 | access is granted iff the check returned the flag `true` |
| BreakingNews.NewsMapKeys | src/composables/useBreakingNews.ts:32-41 | a day is a key iff some request for it returned an array |
| BreakingNews.NewsMapLastWins | src/composables/useBreakingNews.ts:34-39 | under each day sits the array of the last request for it that returned one, even an empty array |
| BreakingNews.BreakingNewsStore.constructor | src/composables/useBreakingNews.ts:6-7 | no news, no access |
| BreakingNews.BreakingNewsStore.CheckAccess | src/composables/useBreakingNews.ts:12-18 | access becomes, and is returned as, whether the check returned `true` |
| BreakingNews.BreakingNewsStore.LoadBreakingNews | src/composables/useBreakingNews.ts:20-42 | access is checked only when not yet granted; without access the news are kept; with access they become the days' map |
| Auth.AuthStore.constructor | src/composables/useAuth.ts:6-8 | no user, not loading |
| Auth.AuthStore.LoadUser | src/composables/useAuth.ts:11-23 | on success the body becomes the user, the id is stored and the store is authenticated iff the body is not null; on failure nothing changes and the normalised error is rethrown |
| Auth.AuthStore.Logout | src/composables/useAuth.ts:35-38 | the user and the stored id are gone, and the store is not authenticated |
| Auth.AuthStore.InitAuth | src/composables/useAuth.ts:40-49 | with a stored id the user is loaded, and a failed load logs out; without one nothing changes |
| Auth.AuthStore.HandleAuthCallback | src/composables/useAuth.ts:52-62 | with an id in the address the user is loaded and the query string stripped; a failed load changes nothing |
| Auth.LoggedOutGoesToLogin | src/composables/useAuth.ts:35-38 | after a logout, every protected page redirects to `/login` |
| Auth.LoadedIdOpensProtectedPages | src/composables/useAuth.ts:11-23 | after a successful load, protected pages proceed, even when the user body was null |

## Left out

- The HTTP library, the UI framework's reactivity and the store library are not modelled. State that the source holds in reactive references is held in class fields.
- The base URL and the 30-second timeout are not modelled. A timeout is one more transport failure.
- Logging is not modelled.
- The content of the unfiltered probe request in `getPostsByChannel` is only logged, so only its failure is modelled.
- `getSubscriptionPlans` is not modelled. It is a plain GET with no logic of its own.
- The request bodies of the update, removal, notification and access-check requests are not modelled. Their effect on the outcome is.
- `useAuth.login` is not modelled. It only assigns `window.location`.
- Stripping the query string is modelled only as a boolean result. The `history.replaceState` call itself is not.
- `src/utils/telegramWebApp.ts`, `src/main.ts` and `src/utils/config.ts` are not part of this model.
- `src/types/channel.ts` is not part of this model. Its `Channel` record is reconstructed from the fields the core reads.
- The other type files are modelled as the datatypes in `entities.dfy`.
- Time of day, time zones and daylight-saving shifts are not modelled. Dates are calendar days, so the shift that `toISOString` (UTC) can make against the local-time `setDate` is absent.
- Api.FetchDays: the requests are modelled as a sequential map, and a failed batch reports the first failing day in date order. The source issues the requests concurrently, and its failure is whichever request rejects first.
- Api.GetBreakingNewsRange: the failure case states only which outcome fails, not which day's error is reported, for the same reason.
- Api.ChannelGroups: the concurrent per-channel requests are modelled as a sequential map. Each request's outcome is independent of the others, so the result does not depend on timing.
- Router.RouteMetaAt: routes are matched by exact path. vue-router also matches a target with a trailing slash or in other letter case, which the model treats as an unknown path with no `requiresAuth` flag.
- Router.BeforeEach: the model hands `/` to the guard as a target, and the guard's own `/` branches decide it. vue-router first resolves the route table's redirect from `/` to `/app/summaries`, so in the source the guard sees that page instead. The redirect itself is not modelled.
- Calendar.MakeDate: the range limit of JavaScript dates (about 275760 years from 1970) is not modelled. Outside it `new Date` is an invalid date and `formatDate` prints `NaN-NaN-NaN`, while the model still gives a real day.
- Calendar.ParseDayParts: the digits of a part are read as an unbounded integer. JavaScript `Number` loses precision on digit strings longer than about 15 digits.
- Calendar.ParseIsoDay: only the strict date-only `YYYY-MM-DD` form is accepted. Any other string that `new Date` would accept, such as a full timestamp, is treated as an invalid date, which gives an empty range.
- Calendar.ParseDayParts: a part must be a plain digit string. JavaScript `Number` also accepts an empty part (as 0), surrounding whitespace, signs, decimals and exponents. Such day strings are rejected here, while the source would compute a window from them.
- Summaries.WindowOfDay: stated for years from 100 on. `MakeDate` itself models the 1900 offset that `new Date` applies to years 0 to 99.
- Summaries.SummariesStore.LoadSummaries: the catch block of `loadSummaries` is not modelled. `execute` never rethrows, and the posts arrays the endpoints return are always arrays.
- Translation.T: a locale file's values are strings or nested tables. Numbers, arrays, indexing into a string by a key segment, and inherited object properties are not modelled.
- Api.NormalizeError: the server's `error` field is modelled as an optional string. A non-string value is not modelled.
- UserStore.WithLanguage: the source mutates the shared user object in place. The model replaces the cached value, so aliasing of that object by other holders is not modelled.
- UserStore.WithHour: not modelled as an in-place mutation, for the same reason.
- Auth.AuthStore.InitAuth: the load completes before the method returns. In the source, `initAuth` returns before the load settles, so state read in between is not modelled.
- Auth.AuthStore.HandleAuthCallback: the load completes before the query string is stripped. In the source, the rejection of a failed load is unhandled and the strip happens first. The resulting store state is the same.
