/**
 Properties of the application that relate several handlers or several steps:
 what login finds, what each role gate blocks, which tables each request may
 change, the lifecycle of a lost report's status, and how filing, tracking,
 updating and matching look to the other routes afterwards.
 */
module Properties {
  import opened Base
  import opened Tables
  import opened Luggage
  import opened Invariants

  // ---------- Accounts and the session ----------

  /** With emails unique, the user whose email and password were given is the
      one login puts in the session; the redirect goes to the admin dashboard
      exactly when that user is an admin. */
  lemma LoginFindsTheUser(st: State, u: Row<User>, c: Credentials)
    requires Inv(st) && u in st.users.rows && Matches(u.data, c)
    ensures Login(st, Some(c)).state.session == LoggedIn(u.id, u.data.name, u.data.role)
    ensures Login(st, Some(c)).response ==
              Redirect(if u.data.role == Admin then AdminDashboardEndpoint else PassengerDashboardEndpoint, LoginSuccessful)
    ensures Login(st, Some(c)).state == st.(session := LoggedIn(u.id, u.data.name, u.data.role))
  {
    var k :| 0 <= k < |st.users.rows| && st.users.rows[k] == u;
    var out := Login(st, Some(c));
    var i :| 0 <= i < |st.users.rows| && Matches(st.users.rows[i].data, c)
             && (forall j :: 0 <= j < i ==> !Matches(st.users.rows[j].data, c))
             && out.state.session == LoggedIn(st.users.rows[i].id, st.users.rows[i].data.name, st.users.rows[i].data.role);
    assert i == k;
  }

  /** Registering the same email twice: the second attempt is refused and the
      users table stays as the first attempt left it. */
  lemma RegisterTwice(st: State, form: Registration)
    ensures var first := Register(st, Some(form)).state;
            Register(first, Some(form)) == Outcome(first, Render(RegisterPage, EmailAlreadyRegistered))
  {
    var first := Register(st, Some(form)).state;
    if form.email !in Emails(st.users) {
      assert form.email in Emails(first.users);
    }
  }

  // ---------- Role gates ----------

  predicate PassengerRoute(req: Request) {
    req.PassengerDashboardRequest? || req.ReportLuggageRequest?
  }

  predicate AdminRoute(req: Request) {
    || req.AdminDashboardRequest?
    || req.UpdateStatusRequest?
    || req.AdminFoundReportsRequest?
    || req.MatchLuggageRequest?
    || req.AdminLostReportsRequest?
  }

  /** A passenger route refuses every session that is not a logged-in
      passenger, and then nothing changes. */
  lemma PassengerGate(st: State, req: Request)
    requires PassengerRoute(req) && !IsPassenger(st.session)
    ensures Step(st, req) == Outcome(st, Redirect(LoginEndpoint, UnauthorizedAccess))
  {
  }

  /** An admin route refuses every session that is not a logged-in admin, in
      particular every passenger session, and then nothing changes. */
  lemma AdminGate(st: State, req: Request)
    requires AdminRoute(req) && !IsAdmin(st.session)
    ensures Step(st, req).state == st
    ensures Step(st, req).response.Redirect? && Step(st, req).response.notice == UnauthorizedAccess
    ensures Step(st, req).response.to == (if req.AdminDashboardRequest? || req.UpdateStatusRequest? then LoginEndpoint
                                          else HomeEndpoint)
  {
  }

  // ---------- What each request may change ----------

  /** Users change only by a registration, found reports only by a finder's
      submission, the session only by login or logout, and lost reports only
      by a passenger filing one or an admin updating or matching one. */
  lemma StepFrame(st: State, req: Request)
    ensures var st' := Step(st, req).state;
            && (st'.users != st.users ==> req.RegisterRequest? && req.registration.Some?)
            && (st'.found != st.found ==> req.FinderReportRequest? && req.finderForm.Some?)
            && (st'.session != st.session ==> req.LoginRequest? || req.LogoutRequest?)
            && (st'.lost != st.lost ==>
                  || (req.ReportLuggageRequest? && req.lostForm.Some? && IsPassenger(st.session))
                  || (req.UpdateStatusRequest? && req.statusForm.Some? && IsAdmin(st.session))
                  || (req.MatchLuggageRequest? && req.lostId.Some? && IsAdmin(st.session)))
  {
  }

  /** Lost reports are never removed and their ids never reused; a report's
      owner and the details the passenger gave never change; its status and
      remarks change only when an admin submits a status update for it (to the
      submitted values) or a match for it (to "Found" and the annotation). */
  lemma StatusLifecycle(st: State, req: Request, k: nat)
    requires Valid(st.lost) && k in Ids(st.lost)
    ensures var st' := Step(st, req).state;
            && k in Ids(st'.lost)
            && var before := Find(st.lost, k).value.data;
               var after := Find(st'.lost, k).value.data;
               && after == before.(status := after.status, remarks := after.remarks)
               && ((after.status, after.remarks) != (before.status, before.remarks) ==>
                     && IsAdmin(st.session)
                     && (|| (req.UpdateStatusRequest? && req.reportId == k
                             && req.statusForm == Some(StatusForm(after.status, after.remarks)))
                         || (req.MatchLuggageRequest? && req.lostId == Some(k)
                             && after.status == Found && after.remarks == MatchRemark(req.foundId))))
  {
    var out := Step(st, req);
    match req
    case ReportLuggageRequest(form) =>
      if IsPassenger(st.session) && form.Some? {
        var f := form.value;
        FindAfterAdd(st.lost, out.state.lost, st.lost.nextId,
                     LostReport(st.session.userId, f.flightNo, f.description, f.lastSeen, f.dateLost, Pending, ""), k);
      }
    case UpdateStatusRequest(id, form) =>
      if IsAdmin(st.session) && id <= MaxSqlInteger && form.Some? {
        FindAfterSetsStatus(st.lost, out.state.lost, id, form.value.status, form.value.remarks, k);
      }
    case MatchLuggageRequest(foundId, lostId) =>
      if IsAdmin(st.session) && foundId <= MaxSqlInteger && lostId.Some? {
        FindAfterSetsStatus(st.lost, out.state.lost, lostId.value, Found, MatchRemark(foundId), k);
      }
    case _ =>
  }

  /** A lost report comes into existence only when a logged-in passenger files
      it; it belongs to that passenger, is "Pending" and has empty remarks. */
  lemma NewReportIsPending(st: State, req: Request, k: nat)
    requires Valid(st.lost) && k !in Ids(st.lost) && k in Ids(Step(st, req).state.lost)
    ensures req.ReportLuggageRequest? && req.lostForm.Some? && IsPassenger(st.session)
    ensures var r := Find(Step(st, req).state.lost, k).value.data;
            && r.passengerId == st.session.userId
            && r.status == Pending && r.remarks == ""
            && r.flightNo == req.lostForm.value.flightNo && r.description == req.lostForm.value.description
            && r.lastSeen == req.lostForm.value.lastSeen && r.dateLost == req.lostForm.value.dateLost
  {
    var out := Step(st, req);
    match req
    case ReportLuggageRequest(form) =>
      var f := form.value;
      FindAfterAdd(st.lost, out.state.lost, st.lost.nextId,
                   LostReport(st.session.userId, f.flightNo, f.description, f.lastSeen, f.dateLost, Pending, ""), k);
    case _ =>
  }

  // ---------- Filing and listing ----------

  /** After a passenger files a report, their dashboard is what it was before
      with the new report (fresh id, "Pending", empty remarks) added at the end. */
  lemma FiledReportOnDashboard(st: State, form: LostForm)
    requires IsPassenger(st.session)
    ensures var filed := ReportLuggage(st, Some(form));
            var report := LostReport(st.session.userId, form.flightNo, form.description, form.lastSeen,
                                     form.dateLost, Pending, "");
            && filed.response == Redirect(PassengerDashboardEndpoint, ReportSubmitted(st.lost.nextId))
            && PassengerDashboard(filed.state).response.view.myReports ==
               PassengerDashboard(st).response.view.myReports + [Row(st.lost.nextId, report)]
  {
    var filed := ReportLuggage(st, Some(form));
    var uid := st.session.userId;
    var report := LostReport(uid, form.flightNo, form.description, form.lastSeen, form.dateLost, Pending, "");
    var n := |st.lost.rows|;
    assert filed.state.lost.rows == st.lost.rows + [Row(st.lost.nextId, report)] by {
      assert filed.state.lost.rows == filed.state.lost.rows[..n] + [filed.state.lost.rows[n]];
    }
    FetchAllAppend(st.lost.rows, Row(st.lost.nextId, report), (x: Row<LostReport>) => x.data.passengerId == uid);
  }

  /** With the invariant, the admin dashboard lists every lost report in storage
      order, each with its reporter's name. */
  lemma DashboardListsEveryReport(st: State)
    requires Inv(st) && IsAdmin(st.session)
    ensures var rows := AdminDashboard(st).response.view.dashboard;
            && |rows| == |st.lost.rows|
            && forall i :: 0 <= i < |rows| ==>
                 && rows[i].reportId == st.lost.rows[i].id
                 && rows[i].status == st.lost.rows[i].data.status
                 && rows[i].remarks == st.lost.rows[i].data.remarks
                 && rows[i].reporterName == Find(st.users, st.lost.rows[i].data.passengerId).value.data.name
  {
    JoinComplete(st.lost.rows, st.users);
  }

  // ---------- Tracking ----------

  /** Tracking an existing id shows exactly the stored report, to anybody. */
  lemma TrackShowsStored(st: State, x: Row<LostReport>, s: Session)
    requires Valid(st.lost) && x in st.lost.rows
    ensures TrackLuggage(st.(session := s), Some(x.id)) ==
            Outcome(st.(session := s), Render(TrackPage(Some(x)), NoNotice))
  {
    FindStored(st.lost, x);
  }

  /** What tracking shows does not depend on who is logged in. */
  lemma TrackIgnoresSession(st: State, s: Session, id: Option<nat>)
    ensures TrackLuggage(st.(session := s), id).response == TrackLuggage(st, id).response
  {
  }

  // ---------- Status updates and matches ----------

  /** Submitting the same status update twice leaves the same state and
      response as submitting it once. */
  lemma UpdateIdempotent(st: State, k: nat, form: StatusForm)
    ensures var once := UpdateStatus(st, k, Some(form));
            UpdateStatus(once.state, k, Some(form)) == once
  {
    var once := UpdateStatus(st, k, Some(form));
    if IsAdmin(st.session) {
      var twice := UpdateStatus(once.state, k, Some(form));
      assert twice.state.lost.rows == once.state.lost.rows;
    }
  }

  /** After an admin updates an existing report, tracking it shows the new
      status and remarks and every other column as before. An id too large
      for SQLite fails the update, and tracking shows the report unchanged. */
  lemma UpdateThenTrack(st: State, k: nat, form: StatusForm)
    requires Valid(st.lost) && IsAdmin(st.session) && k in Ids(st.lost)
    ensures var updated := UpdateStatus(st, k, Some(form)).state;
            var shown := TrackLuggage(updated, Some(k)).response.view.statusData;
            && (k <= MaxSqlInteger ==>
                  && shown.Some?
                  && shown.value == Row(k, Find(st.lost, k).value.data.(status := form.status, remarks := form.remarks)))
            && (k > MaxSqlInteger ==> shown == Find(st.lost, k))
  {
    var updated := UpdateStatus(st, k, Some(form)).state;
    if k <= MaxSqlInteger {
      FindAfterSetsStatus(st.lost, updated.lost, k, form.status, form.remarks, k);
    }
  }

  /** A status update for an id no report has changes nothing. */
  lemma UpdateMissingIsNoOp(st: State, k: nat, form: StatusForm)
    requires k !in Ids(st.lost)
    ensures UpdateStatus(st, k, Some(form)).state == st
  {
  }

  /** A match marks any existing lost report "Found", whatever its status was
      and whether or not the found id exists; the annotation reads back as the
      found id, and the found-reports table is left alone. A found id too large
      for SQLite fails the request before anything is written. */
  lemma MatchThenTrack(st: State, foundId: nat, k: nat)
    requires Valid(st.lost) && IsAdmin(st.session) && k in Ids(st.lost)
    ensures var matched := MatchLuggage(st, foundId, Some(k)).state;
            var shown := TrackLuggage(matched, Some(k)).response.view.statusData;
            && matched.found == st.found
            && (foundId <= MaxSqlInteger ==>
                  && shown.Some?
                  && shown.value.data == Find(st.lost, k).value.data.(status := Found, remarks := MatchRemark(foundId))
                  && MatchedWith(shown.value.data.remarks) == Some(foundId))
            && (foundId > MaxSqlInteger ==> matched == st)
  {
    var matched := MatchLuggage(st, foundId, Some(k)).state;
    if foundId <= MaxSqlInteger {
      FindAfterSetsStatus(st.lost, matched.lost, k, Found, MatchRemark(foundId), k);
      MatchRemarkReadsBack(foundId);
    }
  }

  /** The match page offers exactly the lost reports still "Pending". */
  lemma MatchOffersPending(st: State, foundId: nat, x: Row<LostReport>)
    requires IsAdmin(st.session) && x in st.lost.rows
    ensures foundId <= MaxSqlInteger ==>
              (PendingRowOf(x) in MatchLuggage(st, foundId, None).response.view.pending <==> x.data.status == Pending)
  {
    if foundId <= MaxSqlInteger && PendingRowOf(x) in MatchLuggage(st, foundId, None).response.view.pending {
      assert PendingRowOf(x).status == Pending;
    }
  }

  /** Two matches with different found reports leave different annotations. */
  lemma MatchRemarkInjective(a: nat, b: nat)
    requires MatchRemark(a) == MatchRemark(b)
    ensures a == b
  {
    MatchRemarkReadsBack(a);
    MatchRemarkReadsBack(b);
  }

  // ---------- A whole session ----------

  /** A newcomer registers and logs in: the session holds the new passenger. */
  lemma RegisterThenLogin(st: State, alice: Registration)
    requires Inv(st) && alice.email !in Emails(st.users)
    ensures var s2 := Login(Register(st, Some(alice)).state, Some(Credentials(alice.email, alice.password))).state;
            && Inv(s2)
            && s2.session == LoggedIn(st.users.nextId, alice.name, Passenger)
            && s2.users.rows[..|st.users.rows|] == st.users.rows
            && s2.lost == st.lost
  {
    var aliceRow := Row(st.users.nextId, User(alice.name, alice.email, alice.password, Passenger));
    var s1 := Register(st, Some(alice)).state;
    RegisterPreservesInv(st, Some(alice));
    assert s1.users.rows[|st.users.rows|] == aliceRow;
    LoginFindsTheUser(s1, aliceRow, Credentials(alice.email, alice.password));
    LoginPreservesInv(s1, Some(Credentials(alice.email, alice.password)));
  }

  /** A passenger files a report and an admin then logs in: the admin's session
      is in place and the report is stored, "Pending", under the id handed out. */
  lemma FileThenAdminLogin(st: State, admin: Row<User>, form: LostForm)
    requires Inv(st) && IsPassenger(st.session) && admin in st.users.rows && admin.data.role == Admin
    ensures var filed := ReportLuggage(st, Some(form));
            var s4 := Login(filed.state, Some(Credentials(admin.data.email, admin.data.password))).state;
            && filed.response.notice == ReportSubmitted(st.lost.nextId)
            && Inv(s4) && IsAdmin(s4.session)
            && Find(s4.lost, st.lost.nextId) ==
               Some(Row(st.lost.nextId, LostReport(st.session.userId, form.flightNo, form.description, form.lastSeen,
                                                   form.dateLost, Pending, "")))
  {
    var filed := ReportLuggage(st, Some(form));
    var report := LostReport(st.session.userId, form.flightNo, form.description, form.lastSeen, form.dateLost, Pending, "");
    ReportLuggagePreservesInv(st, Some(form));
    FindAfterAdd(st.lost, filed.state.lost, st.lost.nextId, report, st.lost.nextId);
    LoginFindsTheUser(filed.state, admin, Credentials(admin.data.email, admin.data.password));
    LoginPreservesInv(filed.state, Some(Credentials(admin.data.email, admin.data.password)));
  }

  /** A passenger registers, logs in and files a report; an admin logs in and
      updates it; tracking the report then shows the admin's status and remarks
      next to the passenger's details. */
  lemma RegisterFileUpdateTrack(st: State, admin: Row<User>, alice: Registration, form: LostForm, update: StatusForm)
    requires Inv(st) && admin in st.users.rows && admin.data.role == Admin
    requires alice.email !in Emails(st.users)
    ensures st.lost.nextId <= MaxSqlInteger ==>
            var s2 := Login(Register(st, Some(alice)).state, Some(Credentials(alice.email, alice.password))).state;
            var s4 := Login(ReportLuggage(s2, Some(form)).state,
                            Some(Credentials(admin.data.email, admin.data.password))).state;
            var s5 := UpdateStatus(s4, st.lost.nextId, Some(update)).state;
            TrackLuggage(s5, Some(st.lost.nextId)).response.view.statusData ==
            Some(Row(st.lost.nextId, LostReport(st.users.nextId, form.flightNo, form.description, form.lastSeen,
                                                form.dateLost, update.status, update.remarks)))
  {
    RegisterThenLogin(st, alice);
    var s2 := Login(Register(st, Some(alice)).state, Some(Credentials(alice.email, alice.password))).state;
    var k :| 0 <= k < |st.users.rows| && st.users.rows[k] == admin;
    assert s2.users.rows[k] == s2.users.rows[..|st.users.rows|][k];
    FileThenAdminLogin(s2, admin, form);
    var s4 := Login(ReportLuggage(s2, Some(form)).state, Some(Credentials(admin.data.email, admin.data.password))).state;
    UpdateThenTrack(s4, st.lost.nextId, update);
  }
}
