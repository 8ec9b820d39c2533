# HERO front-end stores, modelled in Dafny

This project models the state-holding core of the HERO HR front end:

- the **notification-settings store**. It holds nine on/off flags and the
  two-way `allNotificationsEnabled` aggregate over the six category flags.
  It loads the flags from the browser's key/value storage as a JSON object,
  lets the browser's notification permission decide the browser flag, saves
  the flags back, and resets them;
- the **vacation-history** and **personal-attendance** stores. Each holds one
  page of a list and its paging fields. Each builds the query of a fetch
  and replaces the list and paging fields with the page the server sends;
- the **`unwrap`** adapter of the attendance-settings API, and
  `listWorkSystemTemplates`, which returns what it picks;
- the **organization store**. It holds the organization chart and one
  employee's department and grade histories, with the chart's loading flag
  and error message.

Every server reply is a parameter of the method that awaits it:
`Reply<T> = Resolved(value) | Rejected(error)`. So is the browser's
notification permission, and a refused storage write. An async action
with a loading flag is split in two at its `await`:

- a `Begin…` method runs up to the `await`;
- an `End…` method runs from the `await` on;
- a third method composes the two.

This split makes the state during the request (loading on) part of the
contracts. Browser storage is a class holding a `map<string, string>`.
`JSON.stringify` of the settings is written out character by character.
`JSON.parse` is a reader for flat objects with boolean members, and the
round trip between the two is proved.

Modules:

- `Js`: `any` values read from responses, optional chaining, truthiness;
- `Http`: replies, thrown errors, query parameters, the page envelope;
- `Wrappers`: `Option`;
- `FlatJson`: the JSON text of a flat boolean object, and its reader;
- `NotificationSettings`;
- `VacationHistory`;
- `PersonalAttendance`;
- `SettingsAttendanceApi`;
- `Organization`.

## Model

| member | source | states |
|---|---|---|
| NotificationSettings.Defaults | hero-fe/src/stores/notification/notificationSettingsStore.ts:28-38 | every one of the nine flags starts on |
| NotificationSettings.NotificationSettingsStore.constructor | hero-fe/src/stores/notification/notificationSettingsStore.ts:28-43 | the store starts with the default flags and `isSaving` false |
| NotificationSettings.AllEnabled | hero-fe/src/stores/notification/notificationSettingsStore.ts:56-65 | the aggregate is true exactly when all six category flags are on; the browser, e-mail and SMS flags play no part |
| NotificationSettings.WithAllCategories | hero-fe/src/stores/notification/notificationSettingsStore.ts:70-77 | writing the aggregate gives each category flag the value and leaves the three channel flags as they were |
| NotificationSettings.SetThenGet | hero-fe/src/stores/notification/notificationSettingsStore.ts:52-78 | reading the aggregate after writing `v` gives `v` |
| NotificationSettings.GetThenSet | hero-fe/src/stores/notification/notificationSettingsStore.ts:52-78 | writing back the value just read changes nothing exactly when the six categories agree |
| NotificationSettings.NotificationSettingsStore.SetAllNotificationsEnabled | hero-fe/src/stores/notification/notificationSettingsStore.ts:70-77 | the store's settings become the written-aggregate settings, the aggregate then reads `v`, and `isSaving` is untouched |
| NotificationSettings.Merge | hero-fe/src/stores/notification/notificationSettingsStore.ts:92 | a flag whose key the saved object holds takes the saved value; every other flag keeps its current value |
| NotificationSettings.MergeIdempotent | hero-fe/src/stores/notification/notificationSettingsStore.ts:92 | merging the same saved object twice equals merging it once |
| NotificationSettings.Stringify | hero-fe/src/stores/notification/notificationSettingsStore.ts:115 | the stored text is a braced JSON object; the flags it holds are stated by `StringifyRoundTrip` and `StringifyKeys` |
| FlatJson.RoundTrip | hero-fe/src/stores/notification/notificationSettingsStore.ts:90 | reading back the text of an object with plain, distinct keys gives an object with exactly those keys, each with its value |
| FlatJson.ParseObject | hero-fe/src/stores/notification/notificationSettingsStore.ts:90 | only a text framed in braces is read as an object; what it reads back from a written object is stated by `FlatJson.RoundTrip` |
| NotificationSettings.StringifyRoundTrip | hero-fe/src/stores/notification/notificationSettingsStore.ts:115 | the text a save writes parses back to an object holding every flag's key with that flag's value |
| NotificationSettings.StringifyKeys | hero-fe/src/stores/notification/notificationSettingsStore.ts:115 | that object has no key other than the nine flags' keys |
| NotificationSettings.MergeStored | hero-fe/src/stores/notification/notificationSettingsStore.ts:90-92 | merging the object read back from saved settings into any settings gives exactly the saved settings |
| NotificationSettings.SavedObject | hero-fe/src/stores/notification/notificationSettingsStore.ts:87-90 | a missing or empty stored text gives no saved object; a non-empty text gives exactly its parse, so a text that parses is merged and one that does not gives no saved object |
| NotificationSettings.Restore | hero-fe/src/stores/notification/notificationSettingsStore.ts:88-101 | after a load every flag takes the saved value when the saved object has its key and keeps its value otherwise, except that the browser flag equals (permission is granted) whenever the browser reports a permission; with nothing usable saved and no permission the settings are unchanged |
| NotificationSettings.WithBrowser | hero-fe/src/stores/notification/notificationSettingsStore.ts:100 | only the browser flag changes |
| NotificationSettings.RestoreIdempotent | hero-fe/src/stores/notification/notificationSettingsStore.ts:88-101 | applying the same saved object and permission twice equals applying them once |
| NotificationSettings.Loaded | hero-fe/src/stores/notification/notificationSettingsStore.ts:85-102 | `loadSettings` as a function: a partial update, where each flag other than a permission-decided browser flag takes the parsed object's value when a non-empty stored text parses and holds its key, and keeps its value otherwise (missing, empty or unparsable text included); the browser flag equals (permission is granted) whenever there is a permission; with no stored text and no permission the settings are unchanged; `LoadAfterSave` and `LoadIdempotent` state its round trip and idempotence |
| NotificationSettings.LoadIdempotent | hero-fe/src/stores/notification/notificationSettingsStore.ts:85-102 | loading twice from the same storage text and permission equals loading once |
| NotificationSettings.LoadAfterSave | hero-fe/src/stores/notification/notificationSettingsStore.ts:85-128 | loading the text a save wrote restores the saved settings, whatever the settings were before; only the browser flag follows the permission when there is one |
| NotificationSettings.NotificationSettingsStore.LoadSettings | hero-fe/src/stores/notification/notificationSettingsStore.ts:85-102 | the store's settings become the loaded settings for the text stored under `notificationSettings` and the permission; storage is only read |
| NotificationSettings.NotificationSettingsStore.SaveSettings | hero-fe/src/stores/notification/notificationSettingsStore.ts:110-128 | an accepted write stores the settings' JSON text under `notificationSettings` and resolves to success; a refused write changes no storage entry and resolves to failure with the error; the settings are unchanged and `isSaving` ends false either way |
| NotificationSettings.NotificationSettingsStore.ResetSettings | hero-fe/src/stores/notification/notificationSettingsStore.ts:133-145 | every flag is on afterwards, so a second reset changes nothing |
| NotificationSettings.SaveThenLoad | hero-fe/src/stores/notification/notificationSettingsStore.ts:85-128 | a store loading from the storage a store (itself or another) just saved to ends with the saver's settings, browser flag aside |
| VacationHistory.VacationHistoryStore.constructor | hero-fe/src/stores/vacation/vacationHistory.ts:55-68 | the store starts on page 1 with page size 10, no rows, zero totals, empty dates, no employee and not loading |
| VacationHistory.VacationHistoryStore.SetFilterDates | hero-fe/src/stores/vacation/vacationHistory.ts:74-77 | only the two dates change |
| VacationHistory.VacationHistoryStore.SetEmployeeId | hero-fe/src/stores/vacation/vacationHistory.ts:83-85 | only the employee id changes |
| VacationHistory.VacationHistoryStore.SetPageSize | hero-fe/src/stores/vacation/vacationHistory.ts:90-92 | only the page size changes |
| VacationHistory.VacationHistoryStore.RequestParams | hero-fe/src/stores/vacation/vacationHistory.ts:102-118 | the query always has the page and the current page size; it has each date exactly when that date is non-empty, and the employee id exactly when one is set; it has no other key |
| Http.QueryDetermined | hero-fe/src/stores/vacation/vacationHistory.ts:102-118 | that description fixes the query completely: two queries meeting it for the same inputs are equal |
| Http.UnfilteredQueryKeys | hero-fe/src/stores/attendanceStore.ts:39-42 | a query without dates or employee has exactly the keys `page` and `size` |
| VacationHistory.VacationHistoryStore.BeginFetch | hero-fe/src/stores/vacation/vacationHistory.ts:98-124 | while the request is out, loading is on, the page on display is unchanged, and the request carries that query |
| VacationHistory.VacationHistoryStore.EndFetch | hero-fe/src/stores/vacation/vacationHistory.ts:121-135 | a resolved reply replaces the list, page, size and totals with the server's values, so the server's page and size win over the requested ones; a rejection leaves them all as they were and propagates; loading is off either way and the filters are untouched |
| VacationHistory.VacationHistoryStore.FetchVacationHistory | hero-fe/src/stores/vacation/vacationHistory.ts:98-136 | the whole fetch: the query is built from the state before the call, with the page defaulting to 1, and the reply is then applied as above |
| VacationHistory.VacationHistoryStore.ResetFilters | hero-fe/src/stores/vacation/vacationHistory.ts:141-145 | the dates end empty; page 1 is fetched with the same page size and employee and without date parameters; the reply is applied as in a fetch |
| PersonalAttendance.AttendanceStore.constructor | hero-fe/src/stores/attendanceStore.ts:23-30 | the store starts on page 1 with page size 10, no rows, zero totals and not loading |
| PersonalAttendance.AttendanceStore.RequestParams | hero-fe/src/stores/attendanceStore.ts:39-42 | the query meets the same query description as the vacation store's, with no dates and no employee: the page and the current page size, and no other key |
| PersonalAttendance.AttendanceStore.BeginFetch | hero-fe/src/stores/attendanceStore.ts:33-44 | while the request is out, loading is on and the page on display is unchanged |
| PersonalAttendance.AttendanceStore.EndFetch | hero-fe/src/stores/attendanceStore.ts:36-53 | a resolved reply overwrites the list and all four paging fields; a rejection changes none of them and propagates; loading is off either way |
| PersonalAttendance.AttendanceStore.FetchPersonal | hero-fe/src/stores/attendanceStore.ts:33-54 | the whole fetch: the page defaults to 1, the query is built from the size before the call, and the reply is then applied as above |
| SettingsAttendanceApi.Unwrap | hero-fe/src/api/settings/settings-attendance.api.ts:29-36 | the payload is `body.data` when that is defined, else `body.result`; the result is `undefined` exactly when both are undefined; this equals the first defined value of `[data, result]` |
| SettingsAttendanceApi.NestedBranchUnreachable | hero-fe/src/api/settings/settings-attendance.api.ts:31-33 | the `body.data.data` test is reached only when `body.data` is undefined, and then it fails too |
| SettingsAttendanceApi.NestedEnvelopeUnwrapsOneLevel | hero-fe/src/api/settings/settings-attendance.api.ts:31-33 | a doubly wrapped payload is unwrapped only one level |
| SettingsAttendanceApi.UnwrapMissing | hero-fe/src/api/settings/settings-attendance.api.ts:29-36 | a missing response or body gives `undefined` instead of throwing |
| SettingsAttendanceApi.ListWorkSystemTemplates | hero-fe/src/api/settings/settings-attendance.api.ts:73-76 | a rejected request propagates with its error; a resolved one returns exactly what `unwrap` picks |
| Organization.ChartFrom | hero-fe/src/stores/organization/organization.store.ts:21-28 | reading the body throws exactly when it is null or undefined; otherwise the chart becomes `data` when `success` and `data` are both truthy, else the body itself when it is an array (an array body is always kept as it is), else an empty array |
| Organization.HistoryFrom | hero-fe/src/stores/organization/organization.store.ts:42-46 | reading the body throws exactly when it is null or undefined; otherwise the list becomes `data` exactly when `success` and `data` are both truthy, and an empty array in every other case |
| Organization.BareArrayChart | hero-fe/src/stores/organization/organization.store.ts:22-25 | a bare array body always becomes the chart, because the envelope test cannot claim an array |
| Organization.BareArrayHistory | hero-fe/src/stores/organization/organization.store.ts:42-46 | a non-empty bare array body empties a history list, where the chart would have kept it |
| Organization.EnvelopeAgrees | hero-fe/src/stores/organization/organization.store.ts:22-28 | for an object body the chart selection and the history selection agree |
| Organization.OrganizationStore.constructor | hero-fe/src/stores/organization/organization.store.ts:8-12 | three empty lists, not loading, no error |
| Organization.OrganizationStore.BeginLoadOrganizationChart | hero-fe/src/stores/organization/organization.store.ts:15-17 | while the request is out, loading is on, the error is cleared and no list changes |
| Organization.OrganizationStore.EndLoadOrganizationChart | hero-fe/src/stores/organization/organization.store.ts:18-35 | a usable body sets the chart from the selection; a rejected fetch or an unreadable body leaves the chart and sets the fixed failure message; nothing is rethrown, loading ends off, the histories are untouched |
| Organization.OrganizationStore.LoadOrganizationChart | hero-fe/src/stores/organization/organization.store.ts:15-35 | afterwards the error is set exactly when the load failed, and loading is off |
| Organization.OrganizationStore.LoadDepartmentHistory | hero-fe/src/stores/organization/organization.store.ts:37-51 | a usable body sets the department history from the selection; a rejection is rethrown, and so is the TypeError of an unreadable body, with the list unchanged; the chart, the grade history, the loading flag and the error are never touched |
| Organization.OrganizationStore.LoadGradeHistory | hero-fe/src/stores/organization/organization.store.ts:53-67 | as the department history, for the grade history |

## Left out

- Logging through `console.error` (in `unwrap`, the organization loaders and the settings load and save) is not modelled.
- Vue and Pinia reactivity (`ref`, `computed`, store identity) is not modelled. The settings are one value the store replaces, so aliasing of `settings.value` by a component is not captured.
- Overlapping fetches are not modelled: two requests in flight, replies arriving out of order, and the shared loading flag between them. The `Begin…`/`End…` split exposes the state at the `await`, but nothing is proved about other actions running in between.
- The HTTP client, base URLs and endpoint paths are not modelled; only the query parameters are. The reply is a parameter, and it is not tied to the query the store sent.
- JavaScript numbers are modelled as unbounded integers. Page numbers, sizes, totals, ids and work durations that are fractional or beyond 2^53 are not captured.
- FlatJson.ParseObject: the settings reader accepts only flat JSON objects whose members are `true` or `false`, with no whitespace and no escapes in keys. Other texts `JSON.parse` accepts, such as `null`, nested values or spacing, are treated as a parse failure. Those texts are never written by the store itself.
- NotificationSettings.Merge: keys of the saved object that are not among the nine flags are dropped. In the source they would be added to the settings object.
- `saveSettings` has no `await`, so `isSaving` is never observably true. The model sets and clears it within one method. The backend call it mentions is absent from the source, and so from the model. A storage read that throws is not modelled.
- The presence of the Notification API and its permission are the `permission` parameter of the load.
- VacationHistory.VacationHistoryStore.EndFetch: replies are assumed to have the declared page shape. A body missing the page fields, which would store `undefined`, is not modelled. The same holds for PersonalAttendance.AttendanceStore.EndFetch.
- SettingsAttendanceApi.ListWorkSystemTemplates: the cast of the payload to the template list type is unchecked in the source. The model returns the untyped value.
- `upsertWorkSystemTemplates` and the remaining API modules and route tables are not part of this model. They only pass values to the HTTP client.
- The employee id given to the history loaders only addresses the request, which is not modelled.
