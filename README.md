# Barangay health dashboard: the decision core in Dafny

This project models the rules inside a browser dashboard for a barangay health office. The pages are a login form, a route guard, and pages for citizens, monthly histories, supplies, user approval and citizen profiles. Each page is mostly DOM and `fetch` code, but each one contains small decisions on strings, integers and lists, and those are what the model covers:

- the route guard's redirect table;
- the login outcome and the session it writes;
- the header merge of authenticated requests;
- the whole-years age;
- table search, sort and re-append;
- the selected-service list;
- the month/year menu;
- the pending-user filter and row removal;
- the diagnostic and transaction tables;
- the notification banner's timed states;
- the role-gated navigation and the side navigation update.

## How the model is organised

- **Entities.** Each entity of a page is a Dafny value: a table row, a citizen, a user, a timer. Each DOM element whose fields a handler updates in place is a class: a table body, a button, a banner, a menu, `localStorage`.
- **Handlers.** Each handler is a method that changes those fields and is proved against a function stating the outcome.
- **Inputs.** The network, `localStorage` reads and the current date are inputs:
  - a `Response` is a status plus a parsed body, a body that fails to parse, or a network failure;
  - a token is an `Option<string>`;
  - "today" is a `Date`.
- **JavaScript semantics** are written out explicitly:
  - truthiness (`Truthy`, `Present`) and `||` on strings (`OrElse`);
  - `${…}` of an absent value (`TemplateText`);
  - `parseInt` and `trim`;
  - `toLowerCase` and `includes`;
  - `Array.prototype.sort`, a stable sort, modelled as an insertion sort over the comparator's order;
  - `appendChild` of a row already in the table, which moves the row to the end.

Modules: `Common`, `Sorting`, `Table`, `Dates`, `Session`, `Router`, `Login`, `Utils`, `Citizen`, `History`, `Supplies`, `Admin`, `Profiling`.

## Model

| member | source | states |
|---|---|---|
| Common.Lower | js/system/citizen.js:394-407 | `toLowerCase` keeps the length and lower-cases each ASCII letter in place |
| Common.IncludesAt | js/system/citizen.js:394-407 | `includes` holds exactly when the needle occurs at some index |
| Common.IncludesLower | js/system/history.js:186-197 | a text that contains the needle still contains it once both are lower-cased |
| Common.ParseIntAuto | js/system/profiling.js:182 | without a radix, a text with no "0x"/"0X" after its sign parses as in base 10; with the prefix it is NaN exactly when no hexadecimal digit follows |
| Common.ParseIntOfIntToString | js/system/supplies.js:495-505 | `parseInt` of a rendered integer gives back that integer |
| Common.Button.ShowBusy | js/auth/login.js:11-13 | the submit button is disabled and shows the spinner |
| Common.Button.Restore | js/auth/login.js:61-65 | the submit button is re-enabled with its plain caption |
| Sorting.SortPermutes | js/system/citizen.js:367-383 | the sort keeps exactly the rows it was given (a permutation) |
| Sorting.SortSorts | js/system/citizen.js:367-383 | after the sort no row's key goes strictly before an earlier row's key in the chosen direction |
| Sorting.SortStable | js/system/supplies.js:495-505 | rows with equal keys keep their relative order |
| Table.Searched | js/system/citizen.js:394-407 | searching keeps every row and its cells, and recomputes only each row's display |
| Table.SearchShowsExactMatches | js/system/citizen.js:394-407 | a row is shown ("") exactly when one of its cells contains the lower-cased query; otherwise it is "none" |
| Table.EmptySearchShowsAll | js/system/history.js:186-197 | an empty query shows every row that has a cell |
| Table.SearchIgnoresCase | js/system/supplies.js:511-524 | a cell that contains the query as typed shows its row |
| Table.TableBody.Search | js/system/supplies.js:511-524 | the `forEach` over the rows leaves the body equal to `Searched` of the old rows |
| Table.TableBody.AppendChild | js/system/citizen.js:382 | appending a row already in the body moves it to the end |
| Table.TableBody.SortBy | js/system/citizen.js:367-383 | sorting the copied rows and re-appending each one leaves the body in exactly the sorted order |
| Dates.CalculateAge | js/system/citizen.js:104-117 | "N/A" exactly for a falsy birthdate and NaN exactly for one `new Date` cannot read; otherwise the n-th anniversary is on or before today and the (n+1)-th is after it |
| Dates.AgeIsUnique | js/system/citizen.js:108-116 | the anniversary condition determines the age, so the calculation returns the only such count |
| Dates.AgeMonotone | js/system/history.js:165-178 | a later day never gives a smaller age |
| Dates.AgeOnBirthday | js/system/citizen.js:108-116 | on a birthday the age is the year difference |
| Dates.AgeText | js/system/citizen.js:85 | the age cell reads "N/A" exactly for a falsy birthdate and "NaN" exactly for an invalid one, so no number of years shows either text |
| Dates.AgeTextReadsBack | js/system/citizen.js:85 | a number of years renders as text that parses back to it |
| Session.Storage.SetItem | js/auth/login.js:37-38 | one key takes the new value; every other entry stays |
| Router.SetRouter | js/router/router.js:1-29 | the redirect equals the guard table applied to the path's class and the token's truthiness; a redirect goes only to "/" or "/dashboard.html" |
| Router.EntryWithTokenGoesToDashboard | js/router/router.js:10-13 | an entry page with a non-empty token redirects to the dashboard |
| Router.ProtectedWithoutTokenGoesHome | js/router/router.js:16-28 | each protected page without a truthy token redirects to "/" |
| Router.UnlistedNeverRedirects | js/router/router.js:10-28 | a path in neither list never redirects, whatever the token |
| Router.ReportsPageIsUnguarded | js/router/router.js:16-28 | "/reports.html" is not guarded |
| Router.MatchingSessionStays | js/router/router.js:10-28 | an entry page without a token, or a protected page with one, stays |
| Router.RoleIsIgnored | js/router/router.js:3-28 | the stored role never changes the decision |
| Router.RedirectSettles | js/router/router.js:10-28 | the page a redirect lands on does not redirect again, so one invocation decides at most one move |
| Login.LoginResult | js/auth/login.js:29-60 | sign-in happens exactly for a 2xx response with a token, user data and `approved !== false`; the stored token is the response's and the role is its `String` text ("null" for a null role); a network or parse failure gives the generic error |
| Login.RefusalMessages | js/auth/login.js:46-60 | 401 gives the server message or "Invalid username or password."; 403 gives the fixed pending copy; 422 gives the server message or the validation default; any other status gives the unexpected-error copy |
| Login.OnlyFalseBlocksSignIn | js/auth/login.js:34-41 | with a token and user data, sign-in is refused exactly when `approved` is the boolean false |
| Login.MissingRoleStoredAsUndefined | js/auth/login.js:37 | a user without a role stores the text "undefined", and a null role the text "null" |
| Login.SignedInSessionPassesGuard | js/auth/login.js:37-41 | the written token lets the dashboard stay, and it sends the login page on to the dashboard |
| Login.Submit | js/auth/login.js:7-66 | only the approved branch writes token and role, announces success and redirects; every other outcome writes nothing and shows its message; after a sign-in, reading the stored token back passes the dashboard guard; the button always ends re-enabled as "Login" |
| Utils.Notified | js/utils/utils.js:53-73 | text and display "block" are set at once; two timers are added after the pending ones: add "show" at +10 ms, and remove it at +timeout×1000 ms |
| Utils.Earliest | js/utils/utils.js:63-72 | the timer that fires next is one with the least due time, the first of any tie |
| Utils.StepKeepsTime | js/utils/utils.js:63-72 | firing a timer never moves the clock back or leaves a timer overdue |
| Utils.NotifyKeepsTime | js/utils/utils.js:63-72 | a notification only schedules timers in the future |
| Utils.NotificationTimeline | js/utils/utils.js:63-72 | on an idle banner the states are: shown at +10 ms, not shown at +timeout×1000 ms, then display "none" 500 ms later with nothing pending |
| Utils.OverlappingNoticeEndsEarly | js/utils/utils.js:63-72 | a second notice does not cancel the first one's timers, so it loses "show" at the first notice's deadline |
| Utils.Banner.Notify | js/utils/utils.js:53-73 | a missing element changes nothing; otherwise the banner's state becomes `Notified` of the old one |
| Utils.Banner.Tick | js/utils/utils.js:63-72 | firing the next timer is `Step` of the old state |
| Utils.NavAdminPages.Show | js/utils/utils.js:25-49 | the four admin links appear only for the role "admin" on a page that has the container; the call throws exactly for "admin" without it |
| Utils.UpdatedView | js/utils/utils.js:128-152 | no data changes nothing, and an absent element stays absent |
| Utils.BarangayShownWhenPresent | js/utils/utils.js:134-139 | the barangay element shows "Brgy. <barangay>" exactly when it exists and the barangay is truthy, and otherwise keeps its text |
| Utils.PictureShownWhenPresent | js/utils/utils.js:147-151 | the image takes `profile_picture` exactly when it exists and the picture is truthy, and otherwise keeps its source |
| Utils.UserNameShownWhenBothNames | js/utils/utils.js:136-151 | the user name changes only when both names are present, and then it shows them joined by a space |
| Utils.UpdateIdempotent | js/utils/utils.js:128-152 | applying the same update twice equals applying it once |
| Utils.DetailsAuthorization | js/utils/utils.js:100-110 | a request is made exactly when the token is truthy, and it carries "Bearer " and the token |
| Utils.DetailsResult | js/utils/utils.js:99-126 | the side nav refreshes exactly on a 2xx response with a body; a non-2xx response with a body shows that body's `message` as element text; a network failure, an unparsable body or a null non-2xx body shows the fixed error; every report lasts 10 s |
| Utils.SideNav.Update | js/utils/utils.js:128-152 | the side nav becomes `UpdatedView` of the old one |
| Utils.SideNav.FetchUserDetails | js/utils/utils.js:99-126 | no token means a notice, no request and no change; otherwise the side nav is refreshed, or the failure is reported and nothing changes |
| Citizen.Assign | js/system/citizen.js:37-43 | assigning keeps the length, or appends a new key at the end |
| Citizen.FetchWithAuth | js/system/citizen.js:36-45 | URL, method and body pass through; the headers are the defaults spread with the caller's |
| Citizen.AssignLookup | js/system/citizen.js:43 | after an assignment the name reads the new value and every other key reads what it read before |
| Citizen.SpreadLookup | js/system/citizen.js:43 | after the spread a key reads the caller's value when the caller has it, and the default otherwise |
| Citizen.AuthHeaders | js/system/citizen.js:37-43 | every request carries Accept and Authorization; a caller header of the same name wins; without one, Authorization is "Bearer " and the token (or "null") |
| Citizen.AssignKeepsUnique | js/system/citizen.js:43 | an assignment never duplicates a key |
| Citizen.SpreadKeepsUnique | js/system/citizen.js:43 | the merged headers never hold a name twice |
| Citizen.CitizenTableShape | js/system/citizen.js:68-101 | no citizens, or a non-array, gives the single "No citizens found." row; otherwise there is one row per citizen, a permutation, with ids non-increasing |
| Citizen.DisplayCitizens | js/system/citizen.js:68-101 | the loop leaves the body equal to `CitizenTable` |
| Citizen.Without | js/system/citizen.js:178-186 | the filter removes every occurrence of the id and keeps every other id |
| Citizen.WithoutAppend | js/system/citizen.js:178-186 | the filter distributes over concatenation, so order is kept |
| Citizen.WithoutUndoesPush | js/system/citizen.js:174-195 | deselecting right after selecting restores the list without the id |
| Citizen.RemoveFirstName | js/system/citizen.js:178-186 | the first badge of that name goes and the rest stays; a name not shown leaves the badges unchanged |
| Citizen.ServiceSelection.Toggle | js/system/citizen.js:174-195 | a selected service is removed from both lists; an unselected one is appended once to both |
| Citizen.SaveNeverSentAsWritten | js/system/citizen.js:316 | as written, no save request is ever sent: an empty selection is refused, and anything else fails on the undefined `data` |
| Citizen.Submit | js/system/citizen.js:276-344 | nothing is sent exactly when no service is selected; otherwise a PUT or POST to "/api/citizen/<id>" carries the form with `services_availed`; the page reloads exactly on the success notice |
| Citizen.SubmitCorrected | js/system/citizen.js:309-318 | the corrected save agrees with the as-written code on an empty selection; otherwise it sends the form, with PUT for a non-empty id and POST otherwise |
| Citizen.SubmitForm | js/system/citizen.js:276-344 | the corrected handler (see Findings): its outcome is `Submit` of the current selection, which sends the form object; the button always ends as "Save" |
| Citizen.SortTable | js/system/citizen.js:367-383 | the body ends in the stable last-name order, ascending only for "Ascending"; a body of at most one row is unchanged |
| Citizen.SortTableOrders | js/system/citizen.js:367-383 | every row is kept, and last names are ordered in the requested direction |
| History.YearOfMonthKey | js/system/history.js:100 | the year of "<Month> <Year>" is its second space-separated field |
| History.Dedup | js/system/history.js:98-102 | the distinct years are exactly the collected years, each once |
| History.DedupFirstOccurrenceOrder | js/system/history.js:98-102 | the distinct years keep first-occurrence order |
| History.OptionFor | js/system/history.js:103-116 | the key is "<Month> <Year>"; it is muted and suffixed " - No citizens found" exactly when that month has no list or an empty one |
| History.OptionsCount | js/system/history.js:98-117 | the menu holds 12 entries per distinct year |
| History.OptionsAtOffset | js/system/history.js:98-117 | month-major layout: entry j of month a sits right after every entry of the earlier months |
| History.MonthMenu.Render | js/system/history.js:75-129 | the nested loops leave the menu equal to `OptionsUpTo(…, 12)` over the distinct years |
| History.HistoryTableShape | js/system/history.js:131-159 | no selected month, or an empty list, gives exactly one placeholder row; otherwise there is one six-cell row per citizen, with services defaulting to "No services availed" |
| History.RenderHistoryTable | js/system/history.js:131-159 | the body becomes `HistoryTable` |
| History.HistoryResult | js/system/history.js:41-72 | rendering happens exactly for a 2xx response with non-empty data; empty data reports the no-records error; a non-2xx status reports "HTTP-Error: <status>"; a network failure or an unparsable 2xx body reports "An error occurred: <reason>" |
| History.GetHistoryByMonth | js/system/history.js:41-72 | on data, the menu and the table are rendered from it; on a report, nothing is rendered and the notice is shown |
| Supplies.SuppliesView.ShowTable | js/system/supplies.js:35-49 | "medicine" shows the medicine table and hides the equipment one, "equipment" does the reverse, and any other value changes nothing |
| Supplies.LoadResult | js/system/supplies.js:58-111 | a 2xx list renders one row per item with no notice; a non-2xx status gives the failure placeholder and "Failed to fetch <noun> data."; a network failure or an unparsable 2xx body gives the error placeholder and "An error occurred: <reason>" |
| Supplies.GetMedicine | js/system/supplies.js:58-111 | the body first shows "Loading...", then `LoadResult` |
| Supplies.GetEquipment | js/system/supplies.js:264-321 | the same sequence for equipment |
| Supplies.EmptyListEmptiesTable | js/system/supplies.js:74-93 | an empty 2xx list leaves the table empty, with no notice |
| Supplies.SortTable | js/system/supplies.js:495-508 | the body ends in the stable quantity order, ascending only for "Ascending"; a body of at most one row, such as a placeholder, is unchanged |
| Supplies.SortByQuantity | js/system/supplies.js:495-508 | every row is kept (a permutation), quantities are ordered in the requested direction, and equal quantities keep their order |
| Supplies.RenderedQuantity | js/system/supplies.js:74-93 | a rendered medicine row reads back its own quantity in the sorted column |
| Supplies.SubmitResult | js/system/supplies.js:137-159 | saved exactly on a 2xx response with a parsable body, announcing only an edit; 422 shows the server message (empty text when it has none); any other status shows "An error occurred: Network response was not ok."; a network failure or an unparsable 2xx or 422 body shows "An error occurred: <reason>"; every notice lasts 5 s |
| Supplies.Submit | js/system/supplies.js:116-164 | the outcome is `SubmitResult`, and the button is always re-enabled with its caption |
| Admin.PendingUsers | js/system/admin.js:109-111 | exactly the users with falsy `approved` and a role other than "admin" are kept, with no duplicates added |
| Admin.PendingUsersAppend | js/system/admin.js:109-111 | the filter distributes over concatenation, so the original order is kept |
| Admin.PendingUsersIdempotent | js/system/admin.js:109-111 | filtering twice equals filtering once |
| Admin.ZeroApprovedSignsInAndIsPending | js/system/admin.js:109-111 | a user with `approved: 0` can sign in (only `false` blocks login) and is still listed as pending |
| Admin.UserRows | js/system/admin.js:113-140 | one row per listed user, with id "user-<user_id>"; a null field prints "null" and a missing one "undefined" |
| Admin.RemoveByIdShape | js/system/admin.js:149-154 | removal drops one row when a row has that id, and is a no-op otherwise |
| Admin.RemoveByIdOnlyThatRow | js/system/admin.js:149-154 | with unique ids, exactly that row goes and every other row stays |
| Admin.AdminTable.RemoveUserRow | js/system/admin.js:149-154 | the table becomes `RemoveById` of the old rows |
| Admin.AdminTable.FetchAdmin | js/system/admin.js:95-147 | a 2xx list renders the pending users' rows with no notice; a non-2xx status shows "HTTP-Error: <status>"; a network failure or an unparsable 2xx body shows "An error occurred: <reason>"; each failure keeps the table |
| Admin.AdminTable.Decide | js/system/admin.js:41-93 | a 2xx answer removes the user's row and refetches; otherwise no row is removed |
| Admin.DecisionNotice | js/system/admin.js:41-93 | success exactly on a 2xx answer; a non-2xx answer shows "Error approving user: Failed to approve user" (or the decline wording), and a network failure shows the action's prefix and the error's message |
| Profiling.AddDiagnostic | js/system/profiling.js:37-81 | an empty diagnosis is refused with no request; the modal closes exactly on a 2xx answer with truthy `success`; `success: false` shows the server message or the default; a non-2xx answer shows "HTTP Error: <status>"; a network failure or an unparsable 2xx body shows "An error occurred: <reason>" |
| Profiling.CitizenDetailsResult | js/system/profiling.js:84-112 | the page is filled in exactly for a 2xx body with a truthy `citizen_id`; a null body or falsy id gives "Citizen not found"; a non-2xx status gives "HTTP-Error: <status>"; a network failure or an unparsable 2xx body gives "An error occurred: <reason>" |
| Profiling.MonthFiltered | js/system/profiling.js:179-184 | the filter keeps exactly the histories whose month number equals the radix-less `parseInt` of the selected month |
| Profiling.MonthFilteredAppend | js/system/profiling.js:180-183 | the filter keeps the histories' order |
| Profiling.NonNumericMonthSelectsNothing | js/system/profiling.js:180-183 | a month text that does not parse selects no history |
| Profiling.HexMonthText | js/system/profiling.js:182 | "0x3" and "0X3" are read in base 16 and select March, as does " 3"; "0x" alone selects nothing |
| Profiling.FilteredTableShape | js/system/profiling.js:186-198 | an empty result is exactly the single "No transactions found" row; otherwise each row's services cell is the transaction, or "No services availed" |
| Profiling.HistoryRows | js/system/profiling.js:255-270 | a history contributes one row per diagnostic, or one placeholder row when it has none |
| Profiling.DiagnosticRowCount | js/system/profiling.js:255-270 | the diagnostic table has the sum over histories of max(1, number of diagnostics) rows |
| Profiling.HistoryPage.FilterByMonth | js/system/profiling.js:179-198 | before the histories are fetched the filter throws and nothing changes; otherwise the table becomes `FilteredTable` |
| Profiling.HistoryPage.ViewDiagnosticDetails | js/system/profiling.js:244-276 | no histories gives the single "No diagnostic details available" row and no modal; otherwise the nested loops produce `DiagnosticRows` and the modal opens |

## Findings

| source | as written | input that shows it | evidently intended | confidence | as-written member | corrected member |
|---|---|---|---|---|---|---|
| js/system/citizen.js:316 | the request body is `JSON.stringify(data)`, but no `data` is declared in scope, so the call throws a ReferenceError before `fetch`, and the catch shows "Error occurred while saving citizen data: data is not defined" | any non-empty service selection, e.g. `selectedServiceIds = [1]` | send the form object built just above, with `services_availed` set, to "/api/citizen/<id>" | not executed | Citizen.SubmitAsWritten, Citizen.SaveNeverSentAsWritten | Citizen.Submit, Citizen.SubmitCorrected, Citizen.SubmitForm |

## Left out

- Network calls, `localStorage` persistence and `window.location` are not modelled as effects. Each response is an input value, the session is a `Storage` object, and a navigation is a returned path.
- HTML templating, Bootstrap modals and event-listener wiring are left out. The `<p>` wrapper of the services cell and the escaping of badge HTML are not modelled.
- Chart rendering (js/system/reports.js, js/system/demo.js) and the view glue of js/system/dashboard.js and js/system/service_view.js are not part of this model.
- The medicine and equipment forms each register two submit handlers. Each handler is modelled by itself, and their interleaving is not.
- Logout handlers, `handleResponse` (js/utils/utils.js:10-22) and the `getCitizens` query URL are left out. They hold no rule beyond the network call.
- Also left out as form filling and network glue: `fetchServices`, `editCitizen`, `populateCitizenForm`, `editMedicine`, `editEquipment`, the add-user form (js/system/admin.js:169-228), `fetchTransactionHistory` and `populateCitizenDetails`.
- JavaScript `Date` parsing, time zones and `toLocaleDateString` are left out:
  - dates are (year, month, day) integers;
  - formatted dates are given as text;
  - a birthdate that does not parse is `InvalidDate`, whose age is NaN; a transaction date that does not parse is `None`, whose month matches no selection;
  - the epoch-millisecond age at js/system/profiling.js:284-289 is not modelled.
- `localeCompare` is modelled as code-unit order, and `toLowerCase` as ASCII-only.
- Numbers in JSON bodies are integers. Floating point is not modelled, and neither is the NaN a comparator returns for a quantity that does not parse.
- Supplies.SortTable: requires every row of a body with two or more rows to have a parsable quantity cell, so the order of such rows without one is not captured.
- Citizen.SortTable: requires every row of a body with two or more rows to have a first cell, because reading a missing cell throws.
- History.HistoryTable: requires the selected key to be present in the data, because the code throws on an absent key (js/system/history.js:133-135). History.RenderHistoryTable and History.GetHistoryByMonth carry the same precondition.
- Citizen.DefaultHeaders: follows the code, which sends "Bearer null" without a token, rather than leaving the header out.
- Utils.Notified: follows the code, which does not cancel an earlier notification's timers. Utils.OverlappingNoticeEndsEarly shows the effect.
- Real timers are abstract ticks: `Tick` fires the earliest pending timer and advances the clock to its due time. Concurrency with other events is not modelled.
- Citizen.ObjectJson: renders the request body's members in order, without JSON string escaping.
- Header names are compared case-sensitively, as keys of a plain object, not as HTTP header names.
- Profiling.CitizenDetails: holds the `citizen_id` the not-found check reads, plus the two names, which `Populate` carries unread. Copying these and the other fields into the page (`populateCitizenDetails`) is not modelled.
- `console.log` output is not modelled.
- JSON null and a missing field are told apart (`Scalar`) only where the text matters to the model: the stored role (Login.LoginResult) and the admin table cells (Admin.UserRows). The other optional string fields of citizen, supply, history and diagnostic records are `Option<string>`, so a null there is modelled like a missing field.
- Admin.UserRows: the created-at cell is the text `toLocaleString` gives, which is an input to the model ("Invalid Date" for a missing date); the date formatting itself is not modelled.
