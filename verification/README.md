# filo-frontend, modelled in Dafny

filo-frontend is the browser side of a fleet-management dashboard (vehicles,
drivers, tasks, mileage records, expenses). This project models its core as
pure Dafny functions over immutable data and proves what the code promises:

- **The session.** The login page stores an access/refresh token pair. The
  HTTP client attaches `Authorization: Bearer <access>` to every request
  (section 2.1 of RFC 6750). On a `401 Unauthorized` (section 15.5.2 of
  RFC 9110) it asks the refresh endpoint for a new access token once per
  request and re-sends. If the refresh fails, it clears both tokens and sends
  the browser to `/login`. One call is a state machine (`Api.Step`) driven by
  the answers of the server and of the refresh endpoint. The proofs show that
  any run of it sends at most two requests, makes at most one refresh POST and
  navigates at most once.
- **The route guards.** The server-side middleware reads the `access_token`
  cookie for `/` and `/login`. The client layout of `src/app/components`, which
  only the home page `/` renders, reads `localStorage` whenever the path
  changes. The other pages use the sidebar layout of `src/components`, which
  has no check of its own. Both logout handlers are modelled, as are the two sidebar menus and
  their highlighting rule.
- **The resource paths** `apiService` builds, `/api/<resource>/[<id>/]`. The
  proofs show each path reads back as its resource and id.
- **The five modals.**
  - The expense, mileage and task modals fill their forms from a record or
    reset them, with dates cut at their `T`.
  - The expense and mileage modals run their submit-time checks in order and
    show the first failure as a toast.
  - The task modal builds its submission: ISO timestamps, a default status,
    and the plate and driver name looked up by id.
  - The driver and vehicle modals copy a record into the form, edit single
    fields and hand the form to `onSave`.
  - Each submit has an effect trace: the loading flag, `onSave`, `onClose`
    and toasts, in the order they happen.
- **The four list pages.** Each has a fetch on mount with an error message,
  a case-insensitive search over two fields, a render rule, and its status
  badges or icons.

JavaScript semantics the code relies on are written out in `base.dfy`,
`text.dfy` and `seqs.dfy`:

- truthiness of strings and numbers, and `a || b`;
- `split('T')[0]`, `split`/`join` with a one-character separator, and
  `includes`;
- ASCII `toLowerCase`/`toUpperCase`;
- `filter` and `find`.

The outside world becomes parameters: server replies, the clock (`nowIso`,
`currentYear`, `toIso`), the environment variable and the outcome of `onSave`.

Nothing in the source writes the `access_token` cookie that the middleware
reads. The login page stores its tokens in `localStorage` only, and the
sidebar logout only expires the cookie. So the model takes the cookie jar as
an input, independent of `localStorage`. `AppLayout.AgreesWithMiddleware`
states how the client check relates to the middleware's decision function,
and to the deployed guard inside and outside its matcher, when both see the
same token.

Two behaviours are proved but not listed as findings, because the source
does not show they are unintended:

- The vehicle modal never resets its form when it is reopened for a new
  vehicle (`VehicleModal.AddAfterEditShowsEdited`).
- The expense form offers the fuel type spelled `yakıt` (dotless ı), while
  the expenses page gives its fuel icon to `yakit`
  (`ExpensesPage.FormFuelSpellingGetsDefaultIcon`). The page reads a
  `kategori` field and the form writes `tip`. Whether those are the same
  field is not settled by the code.

The login page's default base URL already ends in `/api`, but the API
client's does not; each is modelled as written.

## Model

| member | source | states |
|---|---|---|
| Api.Authenticate | src/services/api.ts:10-16 | with a truthy access token in storage, the request leaves with `Authorization: Bearer <token>` and every other header and field unchanged; with no token or an empty one it leaves exactly as it came |
| Api.BearerRoundTrip | src/services/api.ts:13 | the token is recovered from a header written as `Bearer <token>` |
| Api.Dispatch | src/services/api.ts:10-16 | the request that leaves is the one the request interceptor produced: it carries `Bearer <access>` when a truthy token is stored and is the caller's request unchanged otherwise; the store is left alone, the `_retry` mark is kept, and exactly one send is appended |
| Api.OnReply | src/services/api.ts:19-31 | 2xx passes through; a non-401 error, or a 401 on an already marked request, is rejected with that same error; a first 401 marks the request and issues one refresh POST to `<API_URL>/api/token/refresh/` with the stored refresh token; the store is never touched |
| Api.OnRefreshReply | src/services/api.ts:33-43 | on success the new access token is stored, every other key is kept, and the marked request is re-sent with `Bearer <new token>`; on failure both tokens are removed, other keys are kept, the browser goes to `/login`, and the call fails with the refresh error |
| Api.CallInvariant | src/services/api.ts:22-25 | a new call starts unmarked with one send issued and a budget of three answers |
| Api.StepInvariant | src/services/api.ts:19-48 | every step keeps the call's invariant; every accepted answer strictly lowers the remaining budget; an answer that does not fit the phase changes nothing |
| Api.RefreshOnce | src/services/api.ts:24-25 | whatever the server and the refresh endpoint answer, one call sends at most two requests, posts to the refresh endpoint at most once and navigates at most once |
| Api.AcceptedRunIsShort | src/services/api.ts:19-48 | a call accepts at most three answers, and one that has used all three has settled |
| Api.EndpointPaths | src/services/api.ts:57-89 | every endpoint's path reads back as its resource and exactly its id (none for list and create); GET is used for list and get, POST for create, PUT for update and DELETE for delete |
| Api.EndpointPathsDistinct | src/services/api.ts:57-89 | two endpoints share a path only when they address the same resource and id |
| Storage.ClearTokens | src/services/api.ts:39-40 | after removing both session keys neither token can be read, and every other key keeps its value |
| Middleware.Decide | src/middleware.ts:4-19 | redirects to `/login` exactly when there is no token and the path is not `/login`; redirects to `/` exactly when there is a token on `/login`; continues otherwise |
| Middleware.NoRedirectLoop | src/middleware.ts:4-23 | every redirect targets a path inside the matcher, and following it with the same cookie passes through |
| Middleware.OutOfScopePassesThrough | src/middleware.ts:21-23 | paths outside `['/', '/login']` are never redirected |
| AppLayout.CheckAuth | src/app/components/Layout.tsx:15-27 | afterwards the user is logged in exactly when a truthy token is stored, loading is over, and the router is pushed to `/login` exactly when there is no token and the path is not `/login` |
| AppLayout.RenderAfterCheck | src/app/components/Layout.tsx:44-52 | once checked, the login page shows its children alone, the chrome appears exactly with a token off the login page, and nothing is shown exactly when a redirect was issued |
| AppLayout.Render | src/app/components/Layout.tsx:44-77 | the children alone exactly while loading or on `/login`; nothing exactly when checked, not logged in and off `/login`; otherwise the chrome, whose highlighted entries are exactly those of the menu as written whose path is the current one |
| AppLayout.ChildrenWhileLoading | src/app/components/Layout.tsx:44-47 | before the first check every path shows its children without the chrome |
| AppLayout.AgreesWithMiddleware | src/app/components/Layout.tsx:21-23 | with the same token, the client check redirects to `/login` exactly when the middleware's decision function does (ignoring its matcher), and never follows that function's `/login` to `/` redirect; under the deployed matcher `['/', '/login']` the two agree on in-scope paths, while outside it the guard lets everything through and only the client check redirects a visitor without a token |
| AppLayout.Logout | src/app/components/Layout.tsx:29-33 | both tokens are removed, other keys are kept, and the router goes to `/login` |
| AppLayout.LogoutLocksOut | src/app/components/Layout.tsx:29-33 | after this layout's logout, every path it wraps other than the login page (in the source it wraps only `/`) renders nothing and redirects to `/login` |
| AppLayout.MenuAsWrittenMissesMileagePage | src/app/components/Layout.tsx:35-42 | the menu as written points its mileage entry at `/kilometre`, which is not a page, so on `/kilometre-kayitlari` no entry is highlighted and a logged-in visitor's chrome there would highlight nothing |
| AppLayout.MenuAsWrittenFailsHighlighting | src/app/components/Layout.tsx:35-42 | so the menu as written does not highlight exactly one entry on every page |
| AppLayout.MenuHighlightsPage | src/app/components/Layout.tsx:67-77 | with the mileage entry pointing at its page, each page highlights exactly the one entry whose path is that page |
| AppLayout.MenuHighlightsEachPage | src/app/components/Layout.tsx:67-77 | with the mileage entry pointing at its page, every page highlights exactly one entry |
| Navigation.ActiveItems | src/app/components/Layout.tsx:73-77 | the highlighted entries are exactly those whose path equals the current path, in menu order |
| SidebarLayout.Logout | src/components/Layout.tsx:63-69 | both tokens leave both `localStorage` and the cookie jar, other keys are kept, and the location becomes `/login` |
| SidebarLayout.LogoutEndsSession | src/components/Layout.tsx:63-69 | afterwards the middleware sends `/` to `/login` and lets `/login` through, and the next request leaves without a bearer token |
| SidebarLayout.Toggle | src/components/Layout.tsx:56 | the fold button always flips the sidebar's state |
| SidebarLayout.ToggleTwice | src/components/Layout.tsx:56 | two clicks restore the sidebar's state |
| SidebarLayout.MenuHighlightsEachPage | src/components/Layout.tsx:15-22 | every page highlights exactly one entry of this menu |
| Login.HandleSubmit | src/app/login/page.tsx:12-28 | both messages are cleared and the credentials are posted to `<base>/token/`; on success both tokens are stored, other keys are kept, and the success message is the fixed prefix followed by the access token; on failure the store is untouched and only the fixed error is shown |
| Login.LoginOpensSession | src/app/login/page.tsx:22-24 | after a login with a non-empty access token the layout lets every page through and every API request carries `Bearer <access>` |
| Login.SessionScenario | src/services/api.ts:24-37 | login T1/R1, then a 401, a refresh with R1 returning T2, and a re-send with Bearer T2 resolving 200: exactly two sends, and the store holds T2/R1 |
| ExpenseModal.Populate | src/components/modals/ExpenseModal.tsx:58-76 | an expense is copied with a missing description as `''`; without one the form resets to no vehicle, type `bakim`, amount 0, and today's date: the prefix of the timestamp that has no `T` and stops at its first `T` |
| ExpenseModal.PopulateStable | src/components/modals/ExpenseModal.tsx:58-66 | populating from the expense a populated form describes gives the same form |
| ExpenseModal.ResetDateIsToday | src/components/modals/ExpenseModal.tsx:70 | the reset date is exactly `split('T')[0]` of the timestamp |
| ExpenseModal.Validate | src/components/modals/ExpenseModal.tsx:81-94 | the reported problem is the first failing check in order (falsy vehicle, empty date, non-positive amount), and none is reported exactly when all three pass |
| ExpenseModal.HandleSubmit | src/components/modals/ExpenseModal.tsx:78-119 | a failed check yields its toast alone and no save; otherwise the trace is exactly: loading on, the unchanged form saved, then close and the success toast, or the error toast for the rejection, and loading off |
| ExpenseModal.SaveErrorMessage | src/components/modals/ExpenseModal.tsx:101-115 | an axios error with an object body gives its `field: messages` lines, starting with the first entry's (and `''` for an empty object); an axios error with any other body gives the fixed save-failure text; anything else gives the unexpected-error text |
| ExpenseModal.SaveBeforeOutcome | src/components/modals/ExpenseModal.tsx:96-118 | `onSave` is awaited: the save precedes the close and every toast, a success toast comes only with the close, and loading is on around the save |
| ExpenseModal.ServerErrorLines | src/components/modals/ExpenseModal.tsx:102-108 | the validation toast splits back into exactly one `field: messages` line per entry of the server's object, in order |
| MileageModal.Populate | src/components/modals/MileageModal.tsx:34-50 | a record is copied with its date cut at the first `T` (a prefix of the original with no `T`, followed by a `T` wherever it stops); without one the form resets to 0, 0, `''` and today, the timestamp cut the same way |
| MileageModal.PopulateStable | src/components/modals/MileageModal.tsx:39 | populating again from a populated form changes nothing |
| MileageModal.Validate | src/components/modals/MileageModal.tsx:71-79 | vehicle 0 is reported first, then a non-positive distance; the form is accepted exactly when neither holds |
| MileageModal.SaveErrorMessage | src/components/modals/MileageModal.tsx:86-92 | an axios error gives `Hata: ` followed by the server's detail or the error message; anything else gives the fixed message |
| MileageModal.HandleSubmit | src/components/modals/MileageModal.tsx:68-96 | a failed check yields its toast alone and no save; otherwise the trace is exactly: loading on, the form saved, then the success toast and close, or the error toast, and loading off |
| MileageModal.SaveBeforeOutcome | src/components/modals/MileageModal.tsx:81-95 | `onSave` is awaited: the save precedes every toast and the close, a success toast comes only with the close, and loading is on around the save |
| MileageModal.OnOpenChange | src/components/modals/MileageModal.tsx:52-66 | vehicles are fetched exactly when the modal is open |
| TaskModal.Populate | src/components/modals/TaskModal.tsx:47-65 | a task is copied whole with both dates cut at their first `T` (no `T` left, a `T` wherever the cut stops); without one the form resets to status `beklemede`, today (the timestamp cut the same way) as both dates, and no id, vehicle, driver, plate or driver name |
| TaskModal.PopulateStable | src/components/modals/TaskModal.tsx:47-56 | populating from a task the form already holds changes nothing |
| TaskModal.Submission | src/components/modals/TaskModal.tsx:70-83 | all fields are kept except that the dates become ISO timestamps of local midnight, an empty status becomes `beklemede`, and the plate and driver name come from the first vehicle and driver with the chosen id (absent exactly when none has it) |
| TaskModal.SubmissionNamesChosen | src/components/modals/TaskModal.tsx:71-82 | with unique ids the submission carries exactly the chosen vehicle's plate and the chosen driver's `ad soyad` |
| TaskModal.FreshSubmission | src/components/modals/TaskModal.tsx:54-83 | a task from a fresh form goes out as `beklemede` with no id, plate or driver name |
| TaskModal.HandleSubmit | src/components/modals/TaskModal.tsx:67-94 | a driver list that is not an array throws before any save; otherwise the trace is exactly the save of the submission followed by the close when it succeeds, with nothing else; a rejection is rethrown unchanged |
| TaskModal.SubmitAfterLoadAsWrittenThrows | src/components/modals/TaskModal.tsx:28-45 | as written, once the drivers have loaded every submit throws and nothing is saved |
| TaskModal.SubmitAfterLoadSaves | src/components/modals/TaskModal.tsx:28-45 | with the response's array stored, a submit saves the chosen driver's name and closes |
| DriverModal.Populate | src/components/modals/DriverModal.tsx:21-33 | the form is the given driver, or blank and active |
| DriverModal.SetAktif | src/components/modals/DriverModal.tsx:102-107 | the checkbox sets `aktif` and changes nothing else |
| DriverModal.SetAktifLastWins | src/components/modals/DriverModal.tsx:106 | only the checkbox's last state counts, and restoring it restores the form |
| DriverModal.HandleSubmit | src/components/modals/DriverModal.tsx:35-39 | the trace is exactly the save of the form followed by the close when it succeeds, with no toast or second save; a rejection escapes unchanged |
| DriverModal.EditedDriverIsSent | src/components/modals/DriverModal.tsx:21-39 | editing a driver and toggling the box sends exactly that driver with the new `aktif` |
| VehicleModal.Initial | src/components/modals/VehicleModal.tsx:14-23 | the first form is empty, this year, `ozmal`, `havuzda` |
| VehicleModal.Populate | src/components/modals/VehicleModal.tsx:25-29 | a given vehicle replaces the form; with none the form stays as it was |
| VehicleModal.AddAfterEditShowsEdited | src/components/modals/VehicleModal.tsx:25-29 | after an edit, opening for a new vehicle still shows the edited one |
| VehicleModal.EditPlate | src/components/modals/VehicleModal.tsx:49 | the plate is the typed text with no lower-case letter left: same length, non-letters as typed, the same letters up to case; nothing else changes |
| VehicleModal.EditPlateStable | src/components/modals/VehicleModal.tsx:49 | re-entering the shown plate changes nothing |
| VehicleModal.HandleSubmit | src/components/modals/VehicleModal.tsx:31-34 | submitting only hands the form to `onSave`: no close, no toast |
| VehicleModal.Render | src/components/modals/VehicleModal.tsx:36 | the form is shown exactly while the modal is open |
| ListPage.FetchErrorMessage | src/app/gorevler/page.tsx:21-27 | an axios error gives the page's prefix followed by the server's detail or the error message; anything else gives `Beklenmeyen bir hata oluştu` |
| ListPage.Fetch | src/app/gorevler/page.tsx:14-34 | after the fetch settles loading is off; a success replaces the list and leaves no error; a failure keeps the list and sets the message; the search term is untouched |
| ListPage.Search | src/app/gorevler/page.tsx:36-39 | the shown items are an order-preserving sublist holding exactly the items one of whose two fields contains the term, both lower-cased, with every copy of a matching item kept and no copy of any other |
| ListPage.EmptySearchKeepsAll | src/app/gorevler/page.tsx:12 | the initial empty search shows every item in order |
| ListPage.SearchIgnoresTermCase | src/app/gorevler/page.tsx:36-39 | lower-casing the term does not change the result |
| ListPage.SearchNarrows | src/app/gorevler/page.tsx:36-39 | typing more characters never adds an item |
| ListPage.Render | src/app/gorevler/page.tsx:148-171 | the spinner shows exactly while loading, the error exactly when one is set, and otherwise the count of all items with the matching ones |
| ListPage.FirstScreen | src/app/gorevler/page.tsx:14-34 | after the first fetch the page shows every item with its total, or the error message alone |
| TasksPage.Search | src/app/gorevler/page.tsx:36-39 | tasks match on title or description up to case, keeping every copy of a matching item, in order |
| TasksPage.FetchFailureScreen | src/app/gorevler/page.tsx:21-27 | a failed fetch shows only the error, `Görevler yüklenirken hata oluştu: ` followed by the detail or message for an axios error, the fixed message otherwise |
| TasksPage.StatusColor | src/app/gorevler/page.tsx:41-54 | grey exactly for a status outside the four known ones; `beklemede` is yellow, `devam_ediyor` blue, `tamamlandi` green and `iptal_edildi` red |
| TasksPage.StatusText | src/app/gorevler/page.tsx:56-69 | a status is shown raw exactly when it is unknown; each of the four known codes gets its own Turkish label (`beklemede` → `Beklemede`, `devam_ediyor` → `Devam Ediyor`, `tamamlandi` → `Tamamlandı`, `iptal_edildi` → `İptal Edildi`) |
| TasksPage.StatusBadgeConsistent | src/app/gorevler/page.tsx:102-103 | a status is grey exactly when it is shown raw, and distinct known statuses differ in both label and colour |
| ExpensesPage.Search | src/app/harcamalar/page.tsx:36-39 | expenses match on description or category up to case, keeping every copy of a matching item, in order |
| ExpensesPage.FetchFailureScreen | src/app/harcamalar/page.tsx:21-27 | a failed fetch shows only the error, `Harcamalar yüklenirken hata oluştu: ` followed by the detail or message for an axios error, the fixed message otherwise |
| ExpensesPage.ExpenseIcon | src/app/harcamalar/page.tsx:41-54 | the card icon appears exactly for a category that is not fuel, maintenance, insurance or tax after lower-casing; lower-cased `yakit` gets ⛽, `bakim` 🔧, `sigorta` 📄 and `vergi` 💰 |
| ExpensesPage.IconIgnoresCase | src/app/harcamalar/page.tsx:42 | a category and its lower-cased form get the same icon |
| ExpensesPage.FormFuelSpellingGetsDefaultIcon | src/app/harcamalar/page.tsx:41-54 | `yakıt` with a dotless ı gets the card icon, while `YAKIT` gets the fuel icon |
| DriversPage.Search | src/app/suruculer/page.tsx:36-39 | drivers match on full name or licence number up to case, keeping every copy of a matching item, in order |
| DriversPage.FetchFailureScreen | src/app/suruculer/page.tsx:21-27 | a failed fetch shows only the error, `Sürücüler yüklenirken hata oluştu: ` followed by the detail or message for an axios error, the fixed message otherwise |
| DriversPage.StatusBadge | src/app/suruculer/page.tsx:72-77 | `Aktif` in green exactly for an active driver, `Pasif` in red exactly for an inactive one |
| MileagesPage.Search | src/app/kilometre-kayitlari/page.tsx:36-39 | records match on plate or driver name up to case, keeping every copy of a matching item, in order |
| MileagesPage.FetchFailureScreen | src/app/kilometre-kayitlari/page.tsx:21-27 | a failed fetch shows only the error, `Kilometre kayıtları yüklenirken hata oluştu: ` followed by the detail or message for an axios error, the fixed message otherwise |
| MileagesPage.PlateSearchIgnoresCase | src/app/kilometre-kayitlari/page.tsx:36-39 | a plate typed in lower case finds a record whose plate contains it in upper case |
| Text.BeforeFirst | src/components/modals/ExpenseModal.tsx:30 | `split('T')[0]` is the longest prefix without a `T`, and it stops at the first `T` |
| Text.Includes | src/app/gorevler/page.tsx:37 | `includes` is true exactly when the term occurs at some position |

## Left out

- Rendering is left out: markup, CSS classes other than the status colours, icons other than the expense icons, and the loading spinner of the task modal. Only what decides what is shown is modelled.
- React effect timing is left out. Each effect is a function of the inputs it depends on. Re-renders, stale closures and `router` identity are not modelled.
- The network, axios and JSON are left out. Replies are inputs: a status or no response for requests, and a token or a failure for the refresh POST. A refresh reply without an `access` field, which would store `undefined`, is not modelled.
- Api.RefreshOnce: covers one call. Several calls that meet a 401 together each refresh on their own, and that interleaving is not modelled.
- axios's default `validateStatus` is assumed: 2xx resolves and everything else rejects.
- The clock is a parameter: `new Date().toISOString()`, `getFullYear()` and `new Date(d + 'T00:00:00').toISOString()` become `nowIso`, `currentYear` and `toIso`.
- Numbers are left out: `NaN`, and numeric fields that arrive as strings from `<select>` and `<input>`. Form numbers are mathematical integers, and ids in paths are natural numbers.
- Case folding covers ASCII letters only. JavaScript's full Unicode mapping, such as `İ`, is not modelled.
- `src/app/page.tsx`, `src/app/araclar/page.tsx` and the dashboard endpoints (`getDashboardStats`, `getRecentActivities`) are outside the modelled core.
- The mount-time vehicle fetches of the expense and task modals are not modelled, nor the failure toasts of the expense modal's fetch and of the mileage modal's fetch (src/components/modals/MileageModal.tsx:57-60); `MileageModal.OnOpenChange` only issues the fetch. The vehicle list is an input to the form.
- Field handlers that only copy an input value into the form (`{...formData, x: value}`) are not modelled one by one. Only the plate and `aktif` handlers, which do more, are modelled.
- The `Modal` component from `src/components/ui` is not part of this model. The expense, mileage, task and driver modals are modelled without their open/closed rendering.
- The login request's `Content-Type` header and console logging are not modelled.
- ListPage.Fetch: states the settled state only. While the request is in flight the page is still loading, and `ListPage.Render` shows the spinner then.
- Ui.Detail: a `detail` value is taken as the string it renders to. A detail that is an array or an object is not modelled.

## Findings

| source | as written | input that shows it | evidently intended | confidence | as-written member | corrected member |
|---|---|---|---|---|---|---|
| src/app/components/Layout.tsx:40 | the mileage menu entry links to `/kilometre` | on `/`, the one page this layout wraps, the mileage entry leads to `/kilometre`, which has no page; were the layout rendered on `/kilometre-kayitlari`, its chrome would highlight nothing there | `/kilometre-kayitlari`, the page's route, as the other layout uses (src/components/Layout.tsx:21) | not executed; high | AppLayout.MenuAsWrittenMissesMileagePage | AppLayout.MenuHighlightsEachPage |
| src/components/modals/TaskModal.tsx:36 | `setDrivers(driversResponse)` stores the whole axios response | any successful `GET /api/suruculer/`: `drivers.find` at line 72 (and `drivers.map` at line 173) runs on an object that is not an array and throws a TypeError; the render's `drivers.map` throws first, so in practice the form cannot be shown or submitted at all once the drivers have loaded | `setDrivers(driversResponse.data)`, as line 35 does for vehicles | not executed; high | TaskModal.SubmitAfterLoadAsWrittenThrows | TaskModal.SubmitAfterLoadSaves |
