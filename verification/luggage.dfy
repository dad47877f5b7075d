/**
 The lost-and-found luggage application as a state machine. The state is the
 three database tables (users, lost reports, found reports) and the browser
 session; every route handler is one pure transition from a state and the
 submitted form (absent for a GET) to the next state and a response. A response
 is either a redirect to another route or a rendered page; a flashed notice
 travels with it as a tag.
 */
module Luggage {
  import opened Base
  import opened Tables
  import Decimal

  const Passenger: string := "passenger"
  const Admin: string := "admin"
  const Pending: string := "Pending"
  const Found: string := "Found"
  const MatchRemarkPrefix: string := "Matched with found report #"

  /** The largest value an SQLite INTEGER holds. The driver refuses to bind a
      larger Python int as a query parameter and raises `OverflowError`. */
  const MaxSqlInteger: int := 0x7FFF_FFFF_FFFF_FFFF

  /** A row of `users`; the key is the row's id. */
  datatype User = User(name: string, email: string, password: string, role: string)

  /** A row of `lost_reports`. */
  datatype LostReport = LostReport(
    passengerId: nat,
    flightNo: string,
    description: string,
    lastSeen: string,
    dateLost: string,
    status: string,
    remarks: string)

  /** A row of `found_reports`. */
  datatype FoundReport = FoundReport(
    finderName: string,
    contact: string,
    description: string,
    placeFound: string,
    dateFound: string)

  /** The session cookie. Login writes `user_id`, `name` and `role` together and
      logout clears them together, so a session holds either all three or none. */
  datatype Session = Anonymous | LoggedIn(userId: nat, name: string, role: string)

  datatype State = State(
    users: Table<User>,
    lost: Table<LostReport>,
    found: Table<FoundReport>,
    session: Session)

  /** Submitted forms; a GET request carries none. */
  datatype Registration = Registration(name: string, email: string, password: string)
  datatype Credentials = Credentials(email: string, password: string)
  datatype LostForm = LostForm(flightNo: string, description: string, lastSeen: string, dateLost: string)
  datatype StatusForm = StatusForm(status: string, remarks: string)
  datatype FinderForm = FinderForm(
    finderName: string,
    contact: string,
    description: string,
    placeFound: string,
    dateFound: string)

  /** One HTTP request per route; an `Option` form is `None` for a GET. */
  datatype Request =
    | HomeRequest
    | RegisterRequest(registration: Option<Registration>)
    | LoginRequest(credentials: Option<Credentials>)
    | LogoutRequest
    | PassengerDashboardRequest
    | ReportLuggageRequest(lostForm: Option<LostForm>)
    | TrackLuggageRequest(trackedId: Option<nat>)
    | AdminDashboardRequest
    | UpdateStatusRequest(reportId: nat, statusForm: Option<StatusForm>)
    | FinderReportRequest(finderForm: Option<FinderForm>)
    | AdminFoundReportsRequest
    | MatchLuggageRequest(foundId: nat, lostId: Option<nat>)
    | AdminLostReportsRequest

  /** The routes a handler redirects to. */
  datatype Endpoint =
    | HomeEndpoint
    | LoginEndpoint
    | PassengerDashboardEndpoint
    | AdminDashboardEndpoint
    | FinderReportEndpoint
    | AdminFoundReportsEndpoint

  /** The flashed messages. */
  datatype Notice =
    | NoNotice
    | RegistrationSuccessful
    | EmailAlreadyRegistered
    | LoginSuccessful
    | InvalidCredentials
    | LoggedOut
    | UnauthorizedAccess
    | ReportSubmitted(reportId: nat)
    | InvalidReportId
    | StatusUpdated
    | FoundReportReceived
    | MatchApplied(lostId: nat, foundId: nat)

  /** A row of the admin dashboard's join of `lost_reports` with `users`. */
  datatype DashboardRow = DashboardRow(
    reportId: nat,
    reporterName: string,
    flightNo: string,
    description: string,
    status: string,
    remarks: string)

  /** A row of the match page's list of still-pending lost reports. */
  datatype PendingRow = PendingRow(reportId: nat, description: string, lastSeen: string, status: string)

  /** The rendered templates and the data each is given. */
  datatype View =
    | HomePage
    | RegisterPage
    | LoginPage
    | PassengerDashboardPage(name: string, myReports: seq<Row<LostReport>>)
    | ReportPage
    | TrackPage(statusData: Option<Row<LostReport>>)
    | AdminDashboardPage(dashboard: seq<DashboardRow>)
    | UpdatePage(report: Option<Row<LostReport>>)
    | FinderPage
    | FoundReportsPage(foundReports: seq<Row<FoundReport>>)
    | MatchPage(foundItem: Option<Row<FoundReport>>, pending: seq<PendingRow>)
    | LostReportsPage(lostReports: seq<Row<LostReport>>)

  /** A redirect, a rendered page, or the 500 answer of an uncaught exception. */
  datatype Response =
    | Redirect(to: Endpoint, notice: Notice)
    | Render(view: View, notice: Notice)
    | ServerError

  datatype Outcome = Outcome(state: State, response: Response)

  /** The state right after the tables are created: nothing stored, nobody logged in. */
  function Init(): (st: State)
    ensures Ids(st.users) == {} && Ids(st.lost) == {} && Ids(st.found) == {}
    ensures Valid(st.users) && Valid(st.lost) && Valid(st.found)
    ensures st.session.Anonymous?
  {
    State(Empty(), Empty(), Empty(), Anonymous)
  }

  // ---------- Helpers shared by the handlers ----------

  function Emails(users: Table<User>): set<string> {
    set i | 0 <= i < |users.rows| :: users.rows[i].data.email
  }

  predicate Matches(u: User, c: Credentials) {
    u.email == c.email && u.password == c.password
  }

  /** The gate of the passenger routes: a `user_id` and the passenger role. */
  predicate IsPassenger(s: Session) {
    s.LoggedIn? && s.role == Passenger
  }

  /** The gate of the admin routes. Some check `user_id` and some check `role`
      for presence; with both keys written and cleared together they agree. */
  predicate IsAdmin(s: Session) {
    s.LoggedIn? && s.role == Admin
  }

  /** What a role gate does when it refuses: nothing changes and the browser is
      sent to `to` with an "Unauthorized access" notice. */
  function Refuse(st: State, to: Endpoint): (out: Outcome)
    ensures out.state == st && out.response.Redirect? && out.response.notice == UnauthorizedAccess
    ensures out.response.to == to
  {
    Outcome(st, Redirect(to, UnauthorizedAccess))
  }

  /** `t'` is `t` where every report keyed `id` has its status and remarks
      overwritten, and every other column and row is untouched. */
  ghost predicate SetsStatus(t: Table<LostReport>, t': Table<LostReport>, id: nat, status: string, remarks: string) {
    && t'.nextId == t.nextId
    && |t'.rows| == |t.rows|
    && Ids(t') == Ids(t)
    && (forall i :: 0 <= i < |t.rows| ==> t'.rows[i].id == t.rows[i].id)
    && (forall i :: 0 <= i < |t.rows| && t.rows[i].id == id ==>
          t'.rows[i].data == t.rows[i].data.(status := status, remarks := remarks))
    && (forall i :: 0 <= i < |t.rows| && t.rows[i].id != id ==> t'.rows[i] == t.rows[i])
    && (Valid(t) ==> Valid(t'))
  }

  /** After a status update, the updated id finds its report with the new status
      and remarks, and every other id finds what it found before. */
  lemma FindAfterSetsStatus(t: Table<LostReport>, t': Table<LostReport>, id: nat, status: string, remarks: string, k: nat)
    requires Valid(t) && SetsStatus(t, t', id, status, remarks)
    ensures k in Ids(t) <==> k in Ids(t')
    ensures k == id && k in Ids(t) ==>
              Find(t', k) == Some(Row(k, Find(t, k).value.data.(status := status, remarks := remarks)))
    ensures k != id ==> Find(t', k) == Find(t, k)
  {
    if k in Ids(t) {
      var x := Find(t, k).value;
      var i :| 0 <= i < |t.rows| && t.rows[i] == x;
      FindStored(t', t'.rows[i]);
    }
  }

  /** `UPDATE lost_reports SET status=?, remarks=? WHERE id=?`. */
  function SetStatus(t: Table<LostReport>, id: nat, status: string, remarks: string): (t': Table<LostReport>)
    ensures SetsStatus(t, t', id, status, remarks)
    ensures id !in Ids(t) ==> t' == t
  {
    UpdateWhereId(t, id, (r: LostReport) => r.(status := status, remarks := remarks))
  }

  /** The annotation a match writes into the lost report's remarks: the fixed
      prefix, then the found report's id in decimal, which reads back. */
  function MatchRemark(foundId: nat): (s: string)
    ensures |s| > |MatchRemarkPrefix| && s[..|MatchRemarkPrefix|] == MatchRemarkPrefix
    ensures Decimal.Parse(s[|MatchRemarkPrefix|..]) == Some(foundId)
  {
    Decimal.ParseShow(foundId);
    var s := MatchRemarkPrefix + Decimal.Show(foundId);
    assert s[|MatchRemarkPrefix|..] == Decimal.Show(foundId);
    s
  }

  /** The found-report id a match annotation names, if the text is one. */
  function MatchedWith(remarks: string): (r: Option<nat>)
    ensures r.Some? ==> remarks == MatchRemark(r.value)
  {
    var n := |MatchRemarkPrefix|;
    if |remarks| > n && remarks[..n] == MatchRemarkPrefix then
      var id := Decimal.Parse(remarks[n..]);
      if id.Some? then
        Decimal.ShowParse(remarks[n..]);
        assert remarks == remarks[..n] + remarks[n..];
        id
      else None
    else None
  }

  /** A match annotation reads back as the found id it was written with. */
  lemma MatchRemarkReadsBack(foundId: nat)
    ensures MatchedWith(MatchRemark(foundId)) == Some(foundId)
  {
    var s := MatchRemark(foundId);
    assert |s| > |MatchRemarkPrefix|;
  }

  /** A dashboard row: the report's id, its reporter's name and four report columns. */
  function DashboardRowOf(l: Row<LostReport>, owner: User): DashboardRow {
    DashboardRow(l.id, owner.name, l.data.flightNo, l.data.description, l.data.status, l.data.remarks)
  }

  /** The admin dashboard's inner join `lost_reports JOIN users ON passenger_id = users.id`:
      each lost report, in storage order, with its reporter; a report whose
      owner is not a user has no row. */
  function Join(lost: seq<Row<LostReport>>, users: Table<User>): (r: seq<DashboardRow>)
    ensures |r| <= |lost|
  {
    if |lost| == 0 then []
    else
      var rest := Join(lost[1..], users);
      match Find(users, lost[0].data.passengerId)
      case None => rest
      case Some(u) => [DashboardRowOf(lost[0], u.data)] + rest
  }

  /** The dashboard row of a report whose owner is a user. */
  ghost predicate RowOfOwnedReport(row: DashboardRow, l: Row<LostReport>, users: Table<User>) {
    l.data.passengerId in Ids(users) && row == DashboardRowOf(l, Find(users, l.data.passengerId).value.data)
  }

  /** Every dashboard row comes from a lost report whose owner is a user, and
      carries that owner's name. */
  lemma {:induction false} JoinSound(lost: seq<Row<LostReport>>, users: Table<User>, row: DashboardRow)
    requires row in Join(lost, users)
    ensures exists l :: l in lost && RowOfOwnedReport(row, l, users)
  {
    var rest := Join(lost[1..], users);
    if row in rest {
      JoinSound(lost[1..], users, row);
      var l :| l in lost[1..] && RowOfOwnedReport(row, l, users);
      assert l in lost;
    } else {
      assert RowOfOwnedReport(row, lost[0], users);
    }
  }

  /** When every report's owner is a user, the dashboard lists every report, in
      storage order, each with its owner's name. */
  lemma {:induction false} JoinComplete(lost: seq<Row<LostReport>>, users: Table<User>)
    requires forall j :: 0 <= j < |lost| ==> lost[j].data.passengerId in Ids(users)
    ensures |Join(lost, users)| == |lost|
    ensures forall i :: 0 <= i < |lost| ==>
              Join(lost, users)[i] == DashboardRowOf(lost[i], Find(users, lost[i].data.passengerId).value.data)
  {
    if |lost| > 0 {
      JoinComplete(lost[1..], users);
      assert forall i :: 1 <= i < |lost| ==> lost[i] == lost[1..][i - 1];
    }
  }

  function PendingRowOf(r: Row<LostReport>): PendingRow {
    PendingRow(r.id, r.data.description, r.data.lastSeen, r.data.status)
  }

  /** `SELECT id, description, last_seen, status FROM lost_reports WHERE status='Pending'`:
      exactly the pending reports, in storage order. */
  function PendingRows(lost: seq<Row<LostReport>>): (r: seq<PendingRow>)
    ensures forall i :: 0 <= i < |r| ==>
              exists x :: x in lost && x.data.status == Pending && r[i] == PendingRowOf(x)
    ensures forall j :: 0 <= j < |lost| && lost[j].data.status == Pending ==> PendingRowOf(lost[j]) in r
  {
    var selected := FetchAll(lost, (x: Row<LostReport>) => x.data.status == Pending);
    var r := seq(|selected|, i requires 0 <= i < |selected| => PendingRowOf(selected[i]));
    assert forall i :: 0 <= i < |r| ==> selected[i] in lost && selected[i].data.status == Pending && r[i] == PendingRowOf(selected[i]);
    assert forall j :: 0 <= j < |lost| && lost[j].data.status == Pending ==> PendingRowOf(lost[j]) in r by {
      forall j | 0 <= j < |lost| && lost[j].data.status == Pending ensures PendingRowOf(lost[j]) in r {
        var i :| 0 <= i < |selected| && selected[i] == lost[j];
        assert r[i] == PendingRowOf(lost[j]);
      }
    }
    r
  }

  /** The match page lists the pending reports in storage order, each once. */
  lemma PendingRowsIncreasing(lost: seq<Row<LostReport>>)
    requires Increasing(lost)
    ensures var r := PendingRows(lost);
            forall i, j :: 0 <= i < j < |r| ==> r[i].reportId < r[j].reportId
  {
    var selected := FetchAll(lost, (x: Row<LostReport>) => x.data.status == Pending);
    FetchAllIncreasing(lost, (x: Row<LostReport>) => x.data.status == Pending);
    var r := PendingRows(lost);
    assert |r| == |selected| && forall i :: 0 <= i < |r| ==> r[i].reportId == selected[i].id;
  }

  // ---------- Route handlers ----------

  /** GET / */
  function Home(st: State): (out: Outcome)
    ensures out.state == st && out.response.Render?
  {
    Outcome(st, Render(HomePage, NoNotice))
  }

  /** GET/POST /register: a new account always gets the passenger role; an email
      already on file is refused by the UNIQUE constraint and nothing changes. */
  function Register(st: State, form: Option<Registration>): (out: Outcome)
    ensures out.state.lost == st.lost && out.state.found == st.found && out.state.session == st.session
    ensures form.None? ==> out == Outcome(st, Render(RegisterPage, NoNotice))
    ensures form.Some? && form.value.email in Emails(st.users) ==>
              out == Outcome(st, Render(RegisterPage, EmailAlreadyRegistered))
    ensures form.Some? && form.value.email !in Emails(st.users) ==>
              && out.response == Redirect(LoginEndpoint, RegistrationSuccessful)
              && AddsRow(st.users, out.state.users, st.users.nextId,
                         User(form.value.name, form.value.email, form.value.password, Passenger))
              && Emails(out.state.users) == Emails(st.users) + {form.value.email}
  {
    match form
    case None => Outcome(st, Render(RegisterPage, NoNotice))
    case Some(f) =>
      if f.email in Emails(st.users) then
        Outcome(st, Render(RegisterPage, EmailAlreadyRegistered))
      else
        var (users', id) := Insert(st.users, User(f.name, f.email, f.password, Passenger));
        assert Emails(users') == Emails(st.users) + {f.email} by {
          forall e | e in Emails(users') ensures e in Emails(st.users) + {f.email} {
            var i :| 0 <= i < |users'.rows| && users'.rows[i].data.email == e;
            if i < |st.users.rows| { assert st.users.rows[i] == users'.rows[i]; }
          }
          assert users'.rows[|st.users.rows|].data.email == f.email;
          forall e | e in Emails(st.users) ensures e in Emails(users') {
            var i :| 0 <= i < |st.users.rows| && st.users.rows[i].data.email == e;
            assert users'.rows[i] == st.users.rows[i];
          }
        }
        Outcome(st.(users := users'), Redirect(LoginEndpoint, RegistrationSuccessful))
  }

  /** GET/POST /login: the first user, in storage order, with exactly this
      email and password fills the session; an admin is sent to the admin
      dashboard and anyone else to the passenger dashboard. No match leaves
      everything as it was. */
  function Login(st: State, form: Option<Credentials>): (out: Outcome)
    ensures out.state.users == st.users && out.state.lost == st.lost && out.state.found == st.found
    ensures form.None? ==> out == Outcome(st, Render(LoginPage, NoNotice))
    ensures form.Some? ==>
              (out.response.Redirect? <==>
                 exists i :: 0 <= i < |st.users.rows| && Matches(st.users.rows[i].data, form.value))
    ensures out.response.Render? ==> out.state == st
    ensures form.Some? && out.response.Render? ==> out.response.notice == InvalidCredentials
    ensures form.Some? && out.response.Redirect? ==>
              exists i :: 0 <= i < |st.users.rows| && Matches(st.users.rows[i].data, form.value)
                          && (forall j :: 0 <= j < i ==> !Matches(st.users.rows[j].data, form.value))
                          && out.state.session == LoggedIn(st.users.rows[i].id, st.users.rows[i].data.name,
                                                           st.users.rows[i].data.role)
    ensures out.response.Redirect? ==>
              && out.state.session.LoggedIn?
              && out.response.notice == LoginSuccessful
              && (out.response.to == AdminDashboardEndpoint <==> out.state.session.role == Admin)
              && (out.response.to != AdminDashboardEndpoint ==> out.response.to == PassengerDashboardEndpoint)
  {
    match form
    case None => Outcome(st, Render(LoginPage, NoNotice))
    case Some(c) =>
      match FetchOne(st.users.rows, (x: Row<User>) => Matches(x.data, c))
      case None => Outcome(st, Render(LoginPage, InvalidCredentials))
      case Some(u) =>
        var session := LoggedIn(u.id, u.data.name, u.data.role);
        var to := if u.data.role == Admin then AdminDashboardEndpoint else PassengerDashboardEndpoint;
        Outcome(st.(session := session), Redirect(to, LoginSuccessful))
  }

  /** GET /logout: the session is emptied whatever it held. */
  function Logout(st: State): (out: Outcome)
    ensures out.state.session == Anonymous
    ensures out.state.users == st.users && out.state.lost == st.lost && out.state.found == st.found
    ensures out.response == Redirect(HomeEndpoint, LoggedOut)
  {
    Outcome(st.(session := Anonymous), Redirect(HomeEndpoint, LoggedOut))
  }

  /** GET /passenger/dashboard: exactly the lost reports the session user owns. */
  function PassengerDashboard(st: State): (out: Outcome)
    ensures out.state == st
    ensures !IsPassenger(st.session) ==> out.response == Redirect(LoginEndpoint, UnauthorizedAccess)
    ensures IsPassenger(st.session) ==>
              && out.response.Render?
              && out.response.view.PassengerDashboardPage?
              && out.response.view.name == st.session.name
              && var mine := out.response.view.myReports;
                 && (forall i :: 0 <= i < |mine| ==>
                       mine[i] in st.lost.rows && mine[i].data.passengerId == st.session.userId)
                 && (forall j :: 0 <= j < |st.lost.rows| && st.lost.rows[j].data.passengerId == st.session.userId ==>
                       st.lost.rows[j] in mine)
  {
    if !IsPassenger(st.session) then Refuse(st, LoginEndpoint)
    else
      var uid := st.session.userId;
      var mine := FetchAll(st.lost.rows, (x: Row<LostReport>) => x.data.passengerId == uid);
      Outcome(st, Render(PassengerDashboardPage(st.session.name, mine), NoNotice))
  }

  /** A passenger's dashboard lists their reports in storage order, each once. */
  lemma MyReportsIncreasing(st: State)
    requires Valid(st.lost) && IsPassenger(st.session)
    ensures Increasing(PassengerDashboard(st).response.view.myReports)
  {
    var uid := st.session.userId;
    FetchAllIncreasing(st.lost.rows, (x: Row<LostReport>) => x.data.passengerId == uid);
  }

  /** GET/POST /passenger/report: one new report owned by the session user,
      status "Pending" and empty remarks, under a fresh id that the notice
      hands back. */
  function ReportLuggage(st: State, form: Option<LostForm>): (out: Outcome)
    ensures !IsPassenger(st.session) ==> out == Refuse(st, LoginEndpoint)
    ensures IsPassenger(st.session) && form.None? ==> out == Outcome(st, Render(ReportPage, NoNotice))
    ensures IsPassenger(st.session) && form.Some? ==>
              && out.state.users == st.users && out.state.found == st.found && out.state.session == st.session
              && (var f := form.value;
                  AddsRow(st.lost, out.state.lost, st.lost.nextId,
                          LostReport(st.session.userId, f.flightNo, f.description, f.lastSeen, f.dateLost, Pending, "")))
              && out.response == Redirect(PassengerDashboardEndpoint, ReportSubmitted(st.lost.nextId))
  {
    if !IsPassenger(st.session) then Refuse(st, LoginEndpoint)
    else
      match form
      case None => Outcome(st, Render(ReportPage, NoNotice))
      case Some(f) =>
        var report := LostReport(st.session.userId, f.flightNo, f.description, f.lastSeen, f.dateLost, Pending, "");
        var (lost', id) := Insert(st.lost, report);
        Outcome(st.(lost := lost'), Redirect(PassengerDashboardEndpoint, ReportSubmitted(id)))
  }

  /** GET/POST /passenger/track: anybody may look a report up by id; there is no
      session or ownership check and nothing changes. */
  function TrackLuggage(st: State, reportId: Option<nat>): (out: Outcome)
    ensures out.state == st
    ensures out.response.Render? && out.response.view.TrackPage?
    ensures reportId.None? ==> out.response == Render(TrackPage(None), NoNotice)
    ensures reportId.Some? && reportId.value in Ids(st.lost) ==>
              && out.response.notice == NoNotice
              && out.response.view.statusData.Some?
              && out.response.view.statusData.value in st.lost.rows
              && out.response.view.statusData.value.id == reportId.value
    ensures reportId.Some? && reportId.value !in Ids(st.lost) ==>
              out.response == Render(TrackPage(None), InvalidReportId)
  {
    match reportId
    case None => Outcome(st, Render(TrackPage(None), NoNotice))
    case Some(k) =>
      var found := Find(st.lost, k);
      Outcome(st, Render(TrackPage(found), if found.None? then InvalidReportId else NoNotice))
  }

  /** GET /admin/dashboard: every lost report joined with its reporter's name. */
  function AdminDashboard(st: State): (out: Outcome)
    ensures out.state == st
    ensures !IsAdmin(st.session) ==> out.response == Redirect(LoginEndpoint, UnauthorizedAccess)
    ensures IsAdmin(st.session) ==>
              && out.response.Render?
              && out.response.view.AdminDashboardPage?
              && |out.response.view.dashboard| <= |st.lost.rows|
              && forall row :: row in out.response.view.dashboard ==>
                   exists l :: l in st.lost.rows && RowOfOwnedReport(row, l, st.users)
    ensures IsAdmin(st.session) && (forall j :: 0 <= j < |st.lost.rows| ==> st.lost.rows[j].data.passengerId in Ids(st.users)) ==>
              && |out.response.view.dashboard| == |st.lost.rows|
              && forall i :: 0 <= i < |st.lost.rows| ==>
                   RowOfOwnedReport(out.response.view.dashboard[i], st.lost.rows[i], st.users)
  {
    if !IsAdmin(st.session) then Refuse(st, LoginEndpoint)
    else
      var dashboard := Join(st.lost.rows, st.users);
      assert forall row :: row in dashboard ==> exists l :: l in st.lost.rows && RowOfOwnedReport(row, l, st.users) by {
        forall row | row in dashboard ensures exists l :: l in st.lost.rows && RowOfOwnedReport(row, l, st.users) {
          JoinSound(st.lost.rows, st.users, row);
        }
      }
      assert (forall j :: 0 <= j < |st.lost.rows| ==> st.lost.rows[j].data.passengerId in Ids(st.users)) ==>
               |dashboard| == |st.lost.rows|
               && forall i :: 0 <= i < |st.lost.rows| ==> RowOfOwnedReport(dashboard[i], st.lost.rows[i], st.users) by {
        if forall j :: 0 <= j < |st.lost.rows| ==> st.lost.rows[j].data.passengerId in Ids(st.users) {
          JoinComplete(st.lost.rows, st.users);
        }
      }
      Outcome(st, Render(AdminDashboardPage(dashboard), NoNotice))
  }

  /** GET/POST /admin/update/<report_id>: the form shows the report (if any); a
      submission overwrites that report's status and remarks and nothing else.
      A missing id updates no row. An id beyond SQLite's INTEGER range makes the
      first SELECT raise, so the request fails before anything is written. */
  function UpdateStatus(st: State, reportId: nat, form: Option<StatusForm>): (out: Outcome)
    ensures !IsAdmin(st.session) ==> out == Refuse(st, LoginEndpoint)
    ensures IsAdmin(st.session) && reportId > MaxSqlInteger ==> out.state == st && out.response.ServerError?
    ensures IsAdmin(st.session) && reportId <= MaxSqlInteger && form.None? ==>
              && out.state == st
              && out.response.Render? && out.response.view.UpdatePage?
              && (out.response.view.report.Some? <==> reportId in Ids(st.lost))
              && (out.response.view.report.Some? ==>
                    out.response.view.report.value in st.lost.rows && out.response.view.report.value.id == reportId)
    ensures IsAdmin(st.session) && reportId <= MaxSqlInteger && form.Some? ==>
              && out.state.users == st.users && out.state.found == st.found && out.state.session == st.session
              && SetsStatus(st.lost, out.state.lost, reportId, form.value.status, form.value.remarks)
              && out.response == Redirect(AdminDashboardEndpoint, StatusUpdated)
  {
    if !IsAdmin(st.session) then Refuse(st, LoginEndpoint)
    else if reportId > MaxSqlInteger then Outcome(st, ServerError)
    else
      match form
      case None => Outcome(st, Render(UpdatePage(Find(st.lost, reportId)), NoNotice))
      case Some(f) =>
        Outcome(st.(lost := SetStatus(st.lost, reportId, f.status, f.remarks)),
                Redirect(AdminDashboardEndpoint, StatusUpdated))
  }

  /** GET/POST /finder/report: anybody may file a found report; it is stored
      under a fresh id and nothing else changes. */
  function FinderReport(st: State, form: Option<FinderForm>): (out: Outcome)
    ensures form.None? ==> out == Outcome(st, Render(FinderPage, NoNotice))
    ensures form.Some? ==>
              && out.state.users == st.users && out.state.lost == st.lost && out.state.session == st.session
              && (var f := form.value;
                  AddsRow(st.found, out.state.found, st.found.nextId,
                          FoundReport(f.finderName, f.contact, f.description, f.placeFound, f.dateFound)))
              && out.response == Redirect(FinderReportEndpoint, FoundReportReceived)
  {
    match form
    case None => Outcome(st, Render(FinderPage, NoNotice))
    case Some(f) =>
      var (found', _) := Insert(st.found, FoundReport(f.finderName, f.contact, f.description, f.placeFound, f.dateFound));
      Outcome(st.(found := found'), Redirect(FinderReportEndpoint, FoundReportReceived))
  }

  /** GET /admin/found_reports: the whole found-reports table. */
  function AdminFoundReports(st: State): (out: Outcome)
    ensures out.state == st
    ensures !IsAdmin(st.session) ==> out.response == Redirect(HomeEndpoint, UnauthorizedAccess)
    ensures IsAdmin(st.session) ==>
              && out.response.Render? && out.response.view.FoundReportsPage?
              && out.response.view.foundReports == st.found.rows
  {
    if !IsAdmin(st.session) then Refuse(st, HomeEndpoint)
    else Outcome(st, Render(FoundReportsPage(st.found.rows), NoNotice))
  }

  /** GET/POST /admin/match/<found_id>: the form shows the found item (if any)
      and the still-pending lost reports; a submission marks the chosen lost
      report "Found" with an annotation naming the found report. Neither the
      found id's existence nor the lost report's current status is checked, and
      the found-reports table is never written. A found id beyond SQLite's
      INTEGER range makes the first SELECT raise, for a GET and a POST alike. */
  function MatchLuggage(st: State, foundId: nat, lostId: Option<nat>): (out: Outcome)
    ensures !IsAdmin(st.session) ==> out == Refuse(st, HomeEndpoint)
    ensures IsAdmin(st.session) && foundId > MaxSqlInteger ==> out.state == st && out.response.ServerError?
    ensures IsAdmin(st.session) && foundId <= MaxSqlInteger && lostId.None? ==>
              && out.state == st
              && out.response.Render? && out.response.view.MatchPage?
              && (out.response.view.foundItem.Some? <==> foundId in Ids(st.found))
              && (out.response.view.foundItem.Some? ==>
                    out.response.view.foundItem.value in st.found.rows && out.response.view.foundItem.value.id == foundId)
              && out.response.view.pending == PendingRows(st.lost.rows)
    ensures IsAdmin(st.session) && foundId <= MaxSqlInteger && lostId.Some? ==>
              && out.state.users == st.users && out.state.found == st.found && out.state.session == st.session
              && SetsStatus(st.lost, out.state.lost, lostId.value, Found, MatchRemark(foundId))
              && out.response == Redirect(AdminFoundReportsEndpoint, MatchApplied(lostId.value, foundId))
  {
    if !IsAdmin(st.session) then Refuse(st, HomeEndpoint)
    else if foundId > MaxSqlInteger then Outcome(st, ServerError)
    else
      var foundItem := Find(st.found, foundId);
      var pending := PendingRows(st.lost.rows);
      match lostId
      case None => Outcome(st, Render(MatchPage(foundItem, pending), NoNotice))
      case Some(k) =>
        Outcome(st.(lost := SetStatus(st.lost, k, Found, MatchRemark(foundId))),
                Redirect(AdminFoundReportsEndpoint, MatchApplied(k, foundId)))
  }

  /** GET /admin/lost_reports: the whole lost-reports table. */
  function AdminLostReports(st: State): (out: Outcome)
    ensures out.state == st
    ensures !IsAdmin(st.session) ==> out.response == Redirect(HomeEndpoint, UnauthorizedAccess)
    ensures IsAdmin(st.session) ==>
              && out.response.Render? && out.response.view.LostReportsPage?
              && out.response.view.lostReports == st.lost.rows
  {
    if !IsAdmin(st.session) then Refuse(st, HomeEndpoint)
    else Outcome(st, Render(LostReportsPage(st.lost.rows), NoNotice))
  }

  /** Dispatch a request to its route handler. */
  function Step(st: State, req: Request): Outcome {
    match req
    case HomeRequest => Home(st)
    case RegisterRequest(form) => Register(st, form)
    case LoginRequest(form) => Login(st, form)
    case LogoutRequest => Logout(st)
    case PassengerDashboardRequest => PassengerDashboard(st)
    case ReportLuggageRequest(form) => ReportLuggage(st, form)
    case TrackLuggageRequest(id) => TrackLuggage(st, id)
    case AdminDashboardRequest => AdminDashboard(st)
    case UpdateStatusRequest(id, form) => UpdateStatus(st, id, form)
    case FinderReportRequest(form) => FinderReport(st, form)
    case AdminFoundReportsRequest => AdminFoundReports(st)
    case MatchLuggageRequest(foundId, lostId) => MatchLuggage(st, foundId, lostId)
    case AdminLostReportsRequest => AdminLostReports(st)
  }

  /** The state after serving a sequence of requests in order. */
  function Run(st: State, reqs: seq<Request>): State
    decreases |reqs|
  {
    if |reqs| == 0 then st else Run(Step(st, reqs[0]).state, reqs[1..])
  }
}
