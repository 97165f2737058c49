# Helpdesk ticketing: a verified model

This project models the core of a small helpdesk web application. Employees
register with their NIP (staff number), log in, and file support tickets.
An administrator logs in with a fixed account, searches and filters every
ticket, and answers a ticket by changing its status and writing a response.

The model has one Dafny module per source file, plus a few shared modules:

- `Wrappers`: `Option`.
- `Text`: ASCII `toLowerCase` and JavaScript's `String.prototype.includes`.
- `Seqs`: `filter`, `find`, counting, and order-preserving subsequences.
- `Records`: the shared data shapes.
- `Storage`: the browser's `localStorage` keys (`registeredUsers`, `currentUser`, `tickets`).
- `Statistics`: the status count cards.

The pages and services become these modules:

- Pages: `App`, `Admin`, `Dashboard`, `Register` and `Login`. The Admin and Dashboard pages keep state of their own, so each is a class (`AdminPage`, `DashboardPage`) whose fields are its `useState` slots and whose handlers are methods. The Register and Login handlers only read and write browser storage, so they are methods over the storage object. `App`'s route gate is a function.
- `DataService`: the Supabase-backed service. The database is a `Backend` object holding the `users` and `tickets` tables. The tables carry the constraints the schema implies: unique user ids and NIPs, unique ticket ids, and every ticket's `user_id` naming a user.
- `MockDataService`: the mock service, whose module-level `mockTickets` array is the field of a `MockStore` object.
- `UserService`: the local-storage fallback of the user service.

Clock readings (`Date.now()`, `new Date().toISOString()`) and ids the database generates are parameters of the operations.

Three inconsistencies of the application stay visible in the model:

- Ticket status is kept as a string. The pages count and filter `in-progress`, but the mock data stores `in_progress`. No page reads the mock service, but if the mock list were shown, its ticket in progress would appear on no status card (`Dashboard.MockInProgressIsNotCounted`).
- The Dashboard creates tickets through the database service, but the Admin page lists only the browser's `tickets` key, which only the Admin page itself writes (`src/pages/Admin.tsx:67-72`, `:122`). A ticket created by a user therefore never reaches the administrator's list. Both pages are modelled as written.
- The two services treat an empty status in an update differently. The database service drops it from the patch. The mock service spreads it over the ticket (`MockDataService.EmptyStatusDiffersBetweenServices`).

## Model

| member | source | states |
|---|---|---|
| App.Gate | src/App.tsx:16-37 | No session redirects to `redirectPath`. A session with no required role, or with the required role, is allowed. On a role mismatch the visitor goes to `/admin` (admin) or `/dashboard` (user). Allow holds iff there is a session and the role fits. |
| App.HomeOf | src/App.tsx:31-34 | The mismatch target is `/admin` for an administrator and `/dashboard` for anybody else. |
| App.TrimTrailingSlashes | src/App.tsx:62-75 | The path without its trailing slashes: a prefix of the path, followed only by slashes, never empty for a non-empty path, so the root stays `/`. |
| App.RouteKey | src/App.tsx:62-75 | The key the router matches on has no capital letter and no trailing slash, and is non-empty for a non-empty path. |
| App.TrimLowerCommute | src/App.tsx:62-75 | Lower-casing a path and trimming its trailing slashes can be done in either order. |
| App.RouteKeyIgnoresCase | src/App.tsx:62-75 | Two paths that are equal up to letter case select the same route. |
| App.RouteKeyIgnoresTrailingSlash | src/App.tsx:62-75 | Appending a slash to a non-empty path does not change the route it selects. |
| App.RouteFor | src/App.tsx:62-75 | Matching ignores letter case and trailing slashes, as the router does. `/` and `/login` show the login page and `/register` the register page. `/dashboard` is protected with no required role and `/admin` requires the admin role, both redirecting to `/login`. Exactly these two routes are protected, and unknown paths show the not-found page. |
| App.RootShowsLogin | src/App.tsx:63 | `/` and `//` both show the login page. |
| App.AdminRouteVariants | src/App.tsx:66-73 | `/Admin/` reaches the same role-checked route as `/admin`, and `/DASHBOARD//` the dashboard route. |
| App.VisitPath | src/App.tsx:62-75 | A public route shows its page whatever the session. |
| App.ProtectedViewsNeedSession | src/App.tsx:19-29 | Without a session both protected views send the visitor to the default `/login`. |
| App.AdminMayOpenDashboard | src/App.tsx:66-69 | Any signed-in user, an administrator included, is shown the dashboard. |
| App.AdminViewOnlyForAdmins | src/App.tsx:70-73 | `/admin` shows the admin page to administrators and sends users to `/dashboard`. |
| App.InitRegisteredUsers | src/App.tsx:45-48 | `registeredUsers` becomes `[]` only when absent. An existing list and the other keys are left as they were. |
| Text.ToLower | src/pages/Admin.tsx:81-85 | Lower-casing keeps the length, turns each capital A-Z into its lower-case letter and keeps every other character. |
| Text.Includes | src/pages/Admin.tsx:81-85 | `includes` is true iff the needle occurs at some position of the haystack. |
| Seqs.Filter | src/pages/Admin.tsx:80-97 | An element is in the result iff it is in the input and passes the test, and the result is no longer than the input. |
| Seqs.FilterMultiplicity | src/pages/Admin.tsx:80-97 | `filter` keeps every copy of a passing element and no copy of any other. |
| Seqs.CountIsPositions | src/pages/Admin.tsx:182-184 | `filter(..).length` is the number of positions holding a passing element. |
| Seqs.StagesAreConjunction | src/pages/Admin.tsx:79-97 | Three optional filter steps in a row are one filter by the conjunction of the switched-on tests. |
| Seqs.Find | src/lib/userService.ts:88 | `find` returns the first element satisfying the test, and nothing iff no element does. |
| Storage.BrowserStorage.RegisteredUsers | src/pages/Register.tsx:60 | The stored users, or the empty list when the key is absent. |
| Records.NipTaken | src/lib/userService.ts:58 | `some` by NIP holds exactly when `find` by that NIP finds a record. |
| Records.FindByNip | src/pages/Login.tsx:60 | The lookup by NIP finds nothing iff no stored user has that NIP. Otherwise it finds the first stored user with it. |
| Records.FindByNipIsTheOnlyMatch | src/pages/Login.tsx:60 | When NIPs are unique, the user found is the only stored user with that NIP. |
| Records.AppendFreshNip | src/pages/Register.tsx:61-83 | Appending a user whose NIP is not taken keeps the NIPs unique. |
| Statistics.CountStatus | src/pages/Admin.tsx:182-184 | A status count is the number of positions holding a ticket with that status, so at most the number of tickets. |
| Statistics.TicketStats | src/pages/Admin.tsx:181-184 | The total is the list length, and the three figures are the counts of `open`, `in-progress` and `resolved`. Because a ticket has one status, the three together are at most the total. |
| Admin.MatchesSearch | src/pages/Admin.tsx:80-86 | An empty term matches every ticket, and a term found in the NIP as typed matches. A ticket that fails the search contains the lower-cased term in none of its lower-cased title, description, owner name and owner division, and the term as typed is not in its owner NIP. |
| Admin.SearchReadsOnlyFiveFields | src/pages/Admin.tsx:80-86 | Two tickets that agree on title, description, owner name, owner NIP and owner division match the same search terms. |
| Admin.FilterTickets | src/pages/Admin.tsx:75-100 | The filtered list is an order-preserving subsequence of the tickets. A ticket is in it iff it passes search, status and priority. A status or priority filter other than `all` guarantees that value on every result. |
| Admin.FilterTicketsIsConjunction | src/pages/Admin.tsx:79-97 | The three sequential filters equal one filter by the conjunction of the three tests. |
| Admin.FilterOrderIrrelevant | src/pages/Admin.tsx:79-97 | Applying priority, then status, then search gives the same list as the page's order. |
| Admin.FilterTicketsDefaults | src/pages/Admin.tsx:79-97 | An empty term with both selects on `all` lists every ticket in order. |
| Admin.FilterTicketsMultiplicity | src/pages/Admin.tsx:79-97 | The filtered list keeps every copy of a selected ticket and no copy of any other. |
| Admin.FilterTicketsIdempotent | src/pages/Admin.tsx:76-99 | Filtering the filtered list again with the same settings changes nothing. |
| Admin.SearchIgnoresCaseOutsideNip | src/pages/Admin.tsx:81-85 | Two terms differing only in letter case match the same tickets, as far as title, description, name and division go. |
| Admin.NipSearchIsCaseSensitive | src/pages/Admin.tsx:84 | The NIP is searched as typed: `ADMIN` finds NIP `ADMIN001` and `admin` does not. |
| Admin.UpdateTickets | src/pages/Admin.tsx:110-120 | The list keeps its length, and tickets with another id are unchanged. The selected ticket takes the new status and response unless empty, and its `updatedAt` becomes now. Every other field stays the same. |
| Admin.EmptyDialogOnlyTouchesTimestamp | src/pages/Admin.tsx:112-117 | Saving with both fields empty changes only the selected ticket's `updatedAt`. |
| Admin.AdminPage.constructor | src/pages/Admin.tsx:40-49 | The page starts empty, with no selection, a closed dialog and both filters on `all`. |
| Admin.AdminPage.FilteredTickets | src/pages/Admin.tsx:75-100 | The displayed list is a subsequence of the page's tickets, holding exactly those that pass the page's search, status and priority settings. |
| Admin.AdminPage.Load | src/pages/Admin.tsx:51-73 | Without an admin session nothing changes. Otherwise the page takes the session and, when stored, the `tickets` key. |
| Admin.AdminPage.OpenTicketDialog | src/pages/Admin.tsx:133-138 | The dialog opens on the ticket, prefilled with its response (or empty) and its status. |
| Admin.AdminPage.HandleUpdateTicket | src/pages/Admin.tsx:107-131 | Without a selection nothing happens. Otherwise the updated list is stored under `tickets` and in state, and the dialog is closed and cleared. Length, session, users and filters are kept. |
| Dashboard.CreateRequest | src/pages/Dashboard.tsx:113-119 | The create request copies the form and carries the session user's id as `user_id`. |
| Dashboard.ToView | src/pages/Dashboard.tsx:70-84 | A service ticket becomes a page ticket field by field. A missing joined user, or an empty field of one, falls back to the session user's name, NIP and division. Missing timestamps take the fallback. |
| Dashboard.OwnTickets | src/pages/Dashboard.tsx:68-84 | The list has one entry per position of the fetch holding a ticket of the session user, mapped in fetch order, and every entry belongs to the session user. |
| Dashboard.OwnTicketsExactly | src/pages/Dashboard.tsx:68-69 | Every fetched ticket of the session user is listed. Every listed ticket comes from such a ticket. Fetch order is kept. |
| Dashboard.MockInProgressIsNotCounted | src/lib/dataService_new.ts:79 | The mock ticket in progress is stored as `in_progress`. Were the mock list shown, it would count as neither open, in progress nor resolved. |
| Dashboard.DashboardPage.constructor | src/pages/Dashboard.tsx:40-48 | The page starts with no user, no tickets, a closed dialog and the empty form with priority `medium`. |
| Dashboard.DashboardPage.Cards | src/pages/Dashboard.tsx:233-274 | The cards show the statistics of the page's list: its length and its `open`, `in-progress` and `resolved` counts. |
| Dashboard.DashboardPage.LoadUserData | src/pages/Dashboard.tsx:50-94 | Without a session nothing changes. Otherwise the page takes the session, and on a successful fetch the list becomes the user's own tickets. A failed fetch keeps the list. |
| Dashboard.DashboardPage.HandleCreateTicket | src/pages/Dashboard.tsx:101-161 | An empty title, description or category is rejected with no store call. Success appends exactly one `open` ticket of the session user at the end, resets the form to empty with `medium` and closes the dialog. Any failure leaves list, form and dialog as they were. Success holds iff the form is complete, there is a user and the insert is accepted. |
| DataService.ListedUser | src/lib/dataService.ts:38-42 | A listed user has every column of the row except the password. |
| DataService.Owner | src/lib/dataService.ts:66-69 | The embedded owner is absent iff no user has the ticket's `user_id`. Otherwise it is a user row with that id, listed without its creation time. |
| DataService.Joined | src/lib/dataService.ts:63-70 | A fetched ticket has the row's columns and its owner embedded. |
| DataService.JoinAll | src/lib/dataService.ts:63-70 | The ticket query returns one joined ticket per row, in table order. |
| DataService.BuildPatch | src/lib/dataService.ts:94-98 | The patch holds `status` iff a non-empty status was supplied, and `admin_response` iff a non-empty response was supplied. It always holds `updated_at`. |
| DataService.ApplyPatch | src/lib/dataService.ts:92-99 | Only the keys present in the patch and `updated_at` change the row. |
| DataService.PatchWhereId | src/lib/dataService.ts:92-99 | The update keeps the table length and changes only rows with that id. |
| DataService.StatusOnlyUpdateKeepsResponse | src/lib/dataService.ts:94-98 | An update that supplies only a status keeps the stored admin response. |
| DataService.EmptyFieldsAreIgnored | src/lib/dataService.ts:95-96 | Empty status and response are treated exactly as if left out. |
| DataService.DemoPasswordAccepts | src/lib/dataService.ts:139 | The NIP itself and `password123` are accepted, and every other password is rejected. |
| DataService.StoredPasswordIgnored | src/lib/dataService.ts:127-146 | Two user tables that differ only in their passwords give the same login outcome for every NIP and password. |
| DataService.RowSession | src/lib/dataService.ts:141 | The database login stores the whole row as the session, password included. |
| DataService.InsertRecord | src/lib/dataService.ts:169-176 | The insert copies title, description, category, priority and `user_id`, and its status is always `open`. |
| DataService.InsertedRow | src/lib/dataService.ts:167-181 | The stored row has the generated id, the inserted title, description, category, priority, status and owner, no response, and both timestamps set to now. |
| DataService.CreatedTicketIsListedOnce | src/lib/dataService.ts:155-194 | After a create, the ticket list shows the new ticket exactly once, last, with the generated id, status `open`, the caller's fields and its owner embedded. |
| DataService.CreatedTicketIsOpen | src/lib/dataService.ts:174 | Every created ticket starts `open`. |
| DataService.RegisteredRow | src/lib/dataService.ts:210-221 | The inserted user has the caller's fields and always role `user`. |
| DataService.RegisterErrorMessage | src/lib/dataService.ts:224-229 | Error code `23505` reads as `NIP sudah terdaftar`, and any other error keeps its message. |
| DataService.AppendUserKeepsValid | src/lib/dataService.ts:210-221 | Inserting a user with a fresh id and NIP keeps the table constraints. |
| DataService.AppendTicketKeepsValid | src/lib/dataService.ts:167-181 | Inserting a ticket with a fresh id and an existing owner keeps the table constraints. |
| DataService.PatchKeepsValid | src/lib/dataService.ts:92-99 | An update keeps the table constraints. |
| DataService.Backend.GetUsers | src/lib/dataService.ts:33-55 | Unconfigured it fails with `Supabase client not configured`. Otherwise it lists every user without the password, in table order. |
| DataService.Backend.GetTickets | src/lib/dataService.ts:58-83 | Unconfigured it fails. Otherwise it returns every ticket joined with its owner. |
| DataService.Backend.UpdateTicket | src/lib/dataService.ts:86-117 | Unconfigured it fails and changes nothing. Otherwise the table is patched by id. A missing id fails with no change. An existing id returns the patched row, joined. The constraints are kept. |
| DataService.Backend.LoginUser | src/lib/dataService.ts:120-151 | Unconfigured or unknown NIP fails without a session. A known NIP succeeds iff the password is the NIP or `password123`, whatever password is stored, storing the row as the session. Otherwise it fails with `Password salah`. |
| DataService.Backend.CreateTicket | src/lib/dataService.ts:155-194 | It succeeds iff configured, the id is fresh and the owner exists. Success appends exactly the `open` row and returns it joined. Every failure leaves the table unchanged. |
| DataService.Backend.RegisterUser | src/lib/dataService.ts:196-238 | It succeeds iff configured and the NIP and id are fresh, appending the `user` row. A taken NIP fails with `NIP sudah terdaftar` and leaves the table unchanged. |
| MockDataService.Merge | src/lib/dataService_new.ts:170-174 | Every supplied field overwrites the ticket's, even when empty, and `updated_at` becomes now. Id, title, owner and creation time are kept, and so is every unsupplied field. |
| MockDataService.MergeWhereId | src/lib/dataService_new.ts:168-177 | The array keeps its length. Tickets with another id are unchanged, and tickets with that id are merged. |
| MockDataService.MergeMissingIdIsIdentity | src/lib/dataService_new.ts:168-177 | With no ticket of that id, the merged array equals the original. |
| MockDataService.EmptyStatusDiffersBetweenServices | src/lib/dataService_new.ts:172 | An empty status empties the mock ticket's status, but leaves the database row's status. |
| MockDataService.MockStore.constructor | src/lib/dataService_new.ts:54-111 | The store starts with the three fixed tickets. |
| MockDataService.MockStore.GetUsers | src/lib/dataService_new.ts:114-135 | It returns the fixed users as stored. |
| MockDataService.MockStore.GetTickets | src/lib/dataService_new.ts:138-162 | It returns the current array as stored, with no reordering. |
| MockDataService.MockStore.UpdateTicket | src/lib/dataService_new.ts:164-201 | The array is replaced by its merged copy of the same length. The result is always `ok`, carrying the first ticket with that id after the update. A missing id leaves the array unchanged and returns no data. |
| UserService.LocalRecord | src/lib/userService.ts:59 | The stored record has id `user_<nip>_<millis>`, role `user` and the payload's fields. |
| UserService.SessionOf | src/lib/userService.ts:91 | The session holds id, name, NIP, division, role, email and phone, but not the password. |
| UserService.RegisterUser | src/lib/userService.ts:57-60 | A taken NIP fails with `NIP sudah terdaftar` and the list is unchanged. Otherwise exactly one record is appended, and NIP uniqueness is preserved. |
| UserService.LoginUser | src/lib/userService.ts:87-93 | An unknown NIP or a wrong password fails without a session. A matching password stores and returns the session without the password. The user list is never changed. |
| UserService.Logout | src/lib/userService.ts:25 | The session is removed and nothing else changes. |
| Register.Validate | src/pages/Register.tsx:40-67 | The checks run in order: required fields, then confirmation, then length under 6, then taken NIP. Each error holds iff its check fails and all earlier ones pass. |
| Register.FormChecksIgnoreStoredUsers | src/pages/Register.tsx:40-56 | Every outcome except the taken-NIP error is independent of the stored users. |
| Register.NewUser | src/pages/Register.tsx:70-79 | The record copies name, NIP, division, email, phone and password, not the confirmation. Its id is `user_<nip>_<millis>`. |
| Register.HandleRegister | src/pages/Register.tsx:36-96 | The result is the first failing check. On failure storage is unchanged. On success the list grows by exactly that record at the end, and NIP uniqueness is preserved. |
| Login.UserSession | src/pages/Login.tsx:71-77 | The session copies id, name, NIP and division, and always has role `user`. |
| Login.HandleUserLogin | src/pages/Login.tsx:47-95 | Empty fields, an unknown NIP and a wrong password each fail without writing the session. With unique NIPs, the session is written iff a stored user has that NIP and exactly that password. The user list is never changed. |
| Login.HandleAdminLogin | src/pages/Login.tsx:97-122 | It succeeds iff the username is `admin` and the password is `admin123`. It then stores the fixed `admin_1` identity with role admin. Nothing else changes. |

## Left out

- The Supabase client and its network round trips. `src/lib/supabase.ts` is not part of this model. The tables are in-memory sequences with the constraints the schema implies. Database errors are constraint violations, and their message texts are placeholders.
- DataService.Backend.GetUsers: the `order('created_at', { ascending: false })` of the user query is not modelled. The model returns table order.
- DataService.Backend.GetTickets: the ticket query's `ORDER BY created_at DESC` is likewise not modelled.
- DataService.RegisterErrorMessage: an error that is not an `Error` instance turns into `Unknown error` in the source. The model always uses the database's message.
- `src/lib/userService.ts:29-41, 44-55, 65-85`: the branches that delegate to the mock service or query Supabase directly. Only the local fallback is modelled.
- UserService.SessionOf: a stored record without a role gets role `user` in the session. The source would store no role at all.
- JSON parsing of stored values, and every `catch` path for malformed storage or thrown errors.
- Dashboard.DashboardPage.HandleCreateTicket: `user!.id` on a missing user throws inside the `try`. The model gives the failure toast without a store call, and does not model the exception itself.
- Text.ToLower: only ASCII letters are folded. Unicode case mapping is not modelled.
- App.RouteFor: of the router's matching rules, only case-insensitivity and trailing slashes are modelled. Percent-decoding of the path is not.
- Register.Validate: `length` counts UTF-16 code units in the source. The model counts characters.
- Spreading an explicit `undefined` value in the mock update is not modelled. A supplied field is a present key with a string value.
- The session written by the database login keeps no `created_at`.
- Rendering, toasts, badges, `navigate`, `setTimeout` redirects, loading flags, dynamic `import()` and asynchrony.
- `src/lib/seedData.ts`, `src/lib/utils.ts` and `src/main.tsx` are not part of this model.
