# Lost-and-found luggage tracker, as a state machine

This project models the lost-and-found luggage web application (`app.py`).
Passengers register, log in, file lost-luggage reports and track them by id.
Administrators list and update reports and match found items to lost ones.
Anyone may file a found-item report without logging in.

The model has four pieces of state:

- the `users` table, with the UNIQUE email constraint;
- the `lost_reports` table;
- the `found_reports` table;
- the browser session, which either is empty or holds `user_id`, `name` and `role`.

Each table is a `Tables.Table`. It keeps its rows in storage (rowid) order,
together with the AUTOINCREMENT counter, which starts at 1. Every route handler
is one pure function from a state and the submitted form to an `Outcome`: the
next state and a response. A GET request has no form (`None`). A response is a
redirect to an endpoint or a rendered page with the data handed to its
template. The flashed message travels with the response as a `Notice` tag.
`Luggage.Step` dispatches a `Request` to its handler, and `Luggage.Run` serves
a sequence of requests. These two model dispatch only and carry no contract of
their own. `Invariants.StepPreservesInv`, `Invariants.RunPreservesInv`,
`Properties.StepFrame` and `Properties.StatusLifecycle` state what they do.

Modules:

- `Tables` (tables.dfy): the four SQL shapes the application uses. These are
  an AUTOINCREMENT insert, `fetchone`/`fetchall` over `SELECT ... WHERE`, and
  `UPDATE ... WHERE id = ?`.
- `Decimal` (decimal.dfy): decimal text of a number, used in the match
  annotation, and the parser that reads it back.
- `Luggage` (luggage.dfy): entities, requests, responses and the thirteen
  route handlers.
- `Invariants` (invariants.dfy): the invariant every reachable state keeps.
- `Properties` (properties.dfy): properties that relate several handlers or
  several steps.

Notes on `app.py`:

- A lost report also has a `flight_no` column.
- The match annotation names only the found report ("Matched with found report #5").
  The lost id appears only in the flashed message, so `Notice.MatchApplied`
  carries both ids.
- The `<int:...>` URL parameters `report_id` and `found_id` have no upper
  bound. The database driver refuses to bind a value beyond SQLite's 64-bit
  INTEGER range, and the request fails with a server error before anything is
  written. The model answers `ServerError` and leaves the state unchanged.
- The routes that check `"role" not in session` send a refused request to the
  home page. The routes that check `"user_id" not in session` send it to the
  login page.

## Model

| member | source | states |
|---|---|---|
| Tables.Empty | app.py:16-50 | A freshly created table is well formed and holds no rows. |
| Tables.FetchOne | app.py:97-98 | `fetchone` finds nothing exactly when no row matches. Otherwise it returns a matching row, and no earlier row matches. |
| Tables.FetchAll | app.py:134-135 | `fetchall` returns exactly the matching rows and never more rows than the table has. |
| Tables.FetchAllIncreasing | app.py:134-135 | The selected rows keep the table's storage order. |
| Tables.FetchAllAppend | app.py:134 | After a row is appended, a selection returns what it returned before, followed by the new row if that row matches. |
| Tables.Find | app.py:180-181 | Lookup by id finds nothing exactly when no row has that id. Otherwise it returns a stored row with that id. |
| Tables.Insert | app.py:156-162 | An AUTOINCREMENT insert appends one row under the counter's value. No stored row uses that key, and the table stays well formed. |
| Tables.UpdateWhereId | app.py:223-224 | `UPDATE ... WHERE id` rewrites only the rows with that id. Keys, order, counter and every other row are unchanged, and a missing id changes nothing. |
| Tables.FindStored | app.py:18 | In a well-formed table, the primary key of a stored row finds that row. |
| Tables.FindAfterAdd | app.py:156-162 | After an insert, the new key finds the new row and every other key finds what it found before. |
| Decimal.Show | app.py:294 | The decimal text of a number is non-empty, all digits, and has no leading zero except for 0 itself. |
| Decimal.ParseShow | app.py:294 | Parsing the decimal text of n gives back n. |
| Decimal.ShowParse | app.py:294 | Rendering a parsed canonical text gives back the text. |
| Decimal.ShowInjective | app.py:294 | Different numbers have different decimal texts. |
| Luggage.Init | app.py:11-57 | The initial state has empty, well-formed tables and nobody logged in. |
| Luggage.Refuse | app.py:128-130 | A refused role gate changes nothing and redirects to the given endpoint with an "Unauthorized access" notice. |
| Luggage.SetStatus | app.py:223-224 | The status update overwrites only the status and remarks of the reports with that id. A missing id changes nothing. |
| Luggage.FindAfterSetsStatus | app.py:223-224 | After a status update, the updated id shows the new status and remarks. Every other id shows what it showed before. |
| Luggage.MatchRemark | app.py:293-294 | The match annotation is the fixed prefix followed by the found id in decimal, and that decimal text parses back to the found id. |
| Luggage.MatchRemarkReadsBack | app.py:293-294 | A match annotation reads back as the found id it was written with. |
| Luggage.Join | app.py:198-201 | The inner join of lost reports with users yields at most one row per lost report. |
| Luggage.JoinSound | app.py:198-201 | Every admin-dashboard row comes from a lost report whose owner is a user, and it carries that owner's name. |
| Luggage.JoinComplete | app.py:198-201 | When every owner is a user, the join has one row per lost report, in storage order, with the owner's name. |
| Luggage.PendingRows | app.py:286-287 | The match page's candidate list holds exactly the projections of the lost reports whose status is "Pending". |
| Luggage.PendingRowsIncreasing | app.py:286-287 | The candidate list keeps the storage order of the lost reports, and no report appears twice. |
| Luggage.Home | app.py:60-62 | The landing page changes nothing. |
| Luggage.Register | app.py:64-85 | A new email adds exactly one user, with role "passenger", under a fresh id. An email already on file changes nothing and shows the "already registered" notice. |
| Luggage.Login | app.py:89-115 | Login succeeds exactly when some user has that email and password, and then the first such user fills the session. The admin dashboard is the target exactly when the role is "admin". A failed login changes nothing. |
| Luggage.Logout | app.py:119-123 | Logout empties the session, whatever it held, and leaves the tables alone. |
| Luggage.PassengerDashboard | app.py:126-138 | Only a logged-in passenger is served, and they see exactly the reports they own. Nothing changes. |
| Luggage.MyReportsIncreasing | app.py:134-135 | A passenger's dashboard lists their reports in storage order, and no report appears twice. |
| Luggage.ReportLuggage | app.py:142-168 | A logged-in passenger's submission appends one report under a fresh id. The session user owns it, its status is "Pending" and its remarks are empty. The notice carries the new id. The other tables and the session are unchanged. |
| Luggage.TrackLuggage | app.py:171-187 | Tracking shows the stored report with that id, or no report and an "Invalid Report ID" notice. There is no session check, and nothing changes. |
| Luggage.AdminDashboard | app.py:190-205 | Only an admin is served, and nothing changes. Every row belongs to a lost report whose owner is a user and carries that owner's name. When every owner is a user, there is one row per report, in storage order. |
| Luggage.UpdateStatus | app.py:208-231 | Only an admin is served. An id beyond SQLite's INTEGER range fails with a server error and changes nothing. Otherwise the form shows the report if it exists, and a submission overwrites only that report's status and remarks. |
| Luggage.FinderReport | app.py:234-255 | Anybody may submit a found report. It is appended under a fresh id, and nothing else changes. |
| Luggage.AdminFoundReports | app.py:257-269 | Only an admin is served, and they see the whole found-reports table. Nothing changes. |
| Luggage.MatchLuggage | app.py:272-302 | Only an admin is served. A found id beyond SQLite's INTEGER range fails with a server error and changes nothing. Otherwise the form shows the found item when it exists. Every offered entry comes from a stored "Pending" lost report, and every "Pending" report is offered. A submission sets the chosen report to "Found" with the annotation and writes no found report. |
| Luggage.AdminLostReports | app.py:305-317 | Only an admin is served, and they see the whole lost-reports table. Nothing changes. |
| Invariants.InitInv | app.py:11-57 | The initial state satisfies the invariant. |
| Invariants.RegisterKeepsEmailsUnique | app.py:20 | Registration keeps user emails pairwise distinct. |
| Invariants.StepPreservesInv | app.py:64-317 | Every handler keeps the invariant. The invariant has four parts: well-formed tables, unique emails, report owners that are users, and a session that names an existing user with that user's name and role. |
| Invariants.RunPreservesInv | app.py:64-317 | Any sequence of requests keeps the invariant. |
| Invariants.ReachableInv | app.py:20 | In every reachable state, no two users share an email and every lost report belongs to a user. |
| Properties.LoginFindsTheUser | app.py:97-111 | With unique emails, the user holding the given email and password is the one whose id, name and role fill the session. The admin dashboard is the target exactly when that user is an admin. |
| Properties.RegisterTwice | app.py:74-81 | Registering the same email twice refuses the second attempt and leaves the state as the first attempt left it. |
| Properties.PassengerGate | app.py:128-130 | Without a passenger session, the passenger routes change nothing and redirect to login. |
| Properties.AdminGate | app.py:192-194 | Without an admin session, every admin route changes nothing and redirects with a notice. Two of those routes redirect to login and the other three to home. |
| Properties.StepFrame | app.py:64-317 | Users change only on registration, found reports only on a finder's submission, and the session only on login or logout. Lost reports change only when a passenger files one or an admin updates or matches one. |
| Properties.StatusLifecycle | app.py:156-159 | Lost reports are never removed. A report's owner and details never change. Its status and remarks change only by an admin's update (to the submitted values) or an admin's match (to "Found" and the annotation). |
| Properties.NewReportIsPending | app.py:156-159 | A new lost report appears only when a logged-in passenger files it. It belongs to that passenger, holds the submitted details, is "Pending" and has empty remarks. |
| Properties.FiledReportOnDashboard | app.py:156-166 | After a passenger files a report, their dashboard is the old dashboard with the new report appended. |
| Properties.DashboardListsEveryReport | app.py:196-205 | With the invariant, the admin dashboard lists every lost report in storage order, with its reporter's name. |
| Properties.TrackShowsStored | app.py:176-187 | Tracking an existing id shows exactly the stored report, whoever is logged in. |
| Properties.TrackIgnoresSession | app.py:172-187 | What tracking shows does not depend on the session. |
| Properties.UpdateIdempotent | app.py:220-228 | Submitting the same status update twice gives the same state and response as submitting it once. |
| Properties.UpdateThenTrack | app.py:215-224 | After an update, tracking the report shows the new status and remarks, and every other column as before. For an id beyond SQLite's INTEGER range the update fails and tracking shows the report unchanged. |
| Properties.UpdateMissingIsNoOp | app.py:223-224 | A status update for an id no report has changes nothing. |
| Properties.MatchThenTrack | app.py:282-295 | A match marks any existing lost report "Found", whatever its earlier status and whether or not the found id exists. The annotation reads back as the found id, and the found-reports table is untouched. A found id beyond SQLite's INTEGER range changes nothing. |
| Properties.MatchOffersPending | app.py:282-287 | When the found id is in SQLite's INTEGER range, a stored lost report is offered on the match page exactly when its status is "Pending". |
| Properties.MatchRemarkInjective | app.py:293-294 | Matches with different found reports leave different annotations. |
| Properties.RegisterThenLogin | app.py:64-111 | A newcomer who registers and logs in gets a passenger session with the new id and their name. |
| Properties.FileThenAdminLogin | app.py:142-166 | After a passenger files a report and an admin logs in, the admin's session is in place. The report is stored as "Pending" under the id the notice reported. |
| Properties.RegisterFileUpdateTrack | app.py:64-231 | Register, log in, file, admin login, update, then track: tracking shows the admin's status and remarks next to the passenger's details, when the new report's id is in SQLite's INTEGER range. |

## Left out

- Presentation is not modelled: templates, flash message texts, `redirect`/`url_for` URLs and the landing page. A response is only a tag: a target endpoint or a page with its data, plus a notice.
- Database plumbing is not modelled: connecting, committing and closing, and running the DDL in `init_db`. The tables are in-memory values that start empty. A storage failure such as a full disk or a lock is not modelled.
- Form fields and URL parameters are not parsed. Every submitted form carries all its fields; a POST missing one, which Flask answers with 400 on any route, is not modelled. Ids arrive as natural numbers. A non-numeric `report_id` or `lost_id`, and SQLite's type affinity when it compares text with the integer key, are not modelled.
- Concurrency is not modelled: two admins racing between the match list and the match submission, and several browser sessions. The model has one session and serves requests one at a time.
- Cookie signing with `app.secret_key`, `app.run` and the debug server are not modelled.
- Passwords are compared as plain strings, as the code does. No hashing is modelled.
- Admin accounts are not created by any route. The lemmas that need an admin take a state holding one; `Init` starts with none.
- The session is either empty or holds all three keys. A session with `user_id` but no `role` cannot arise, because only login and logout write the session. So the `KeyError` such a session would raise is not modelled.
- The order of the admin dashboard's join is modelled as the storage order of `lost_reports`. SQL leaves that order unspecified, and SQLite's plan for this query scans `lost_reports` and looks up each owner by key.
- Luggage.MatchLuggage: a POST without a `lost_id` field answers 400 and writes nothing. The model's form always carries the field, so it cannot express that request. A `lost_id` is bound as text; text beyond the INTEGER range matches no row, as a missing id does in the model.
- Luggage.UpdateStatus: a POST without a `status` or `remarks` field answers 400 and writes nothing. The model's form always carries both fields, so it cannot express that request.
- The AUTOINCREMENT counter is never exhausted. SQLite refuses an insert once the largest INTEGER key has been used; the model's keys are unbounded.
- A registration refused by the UNIQUE constraint leaves the AUTOINCREMENT counter unchanged, because the failed statement is rolled back.
