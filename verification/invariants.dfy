/**
 The invariant every reachable state of the application keeps: well-formed
 tables, pairwise distinct user emails, every lost report owned by an existing
 user, and a logged-in session that names an existing user with that user's
 name and role.
 */
module Invariants {
  import opened Base
  import opened Tables
  import opened Luggage

  /** The UNIQUE constraint on `users.email`. */
  ghost predicate EmailsUnique(users: Table<User>) {
    forall i, j :: 0 <= i < j < |users.rows| ==> users.rows[i].data.email != users.rows[j].data.email
  }

  ghost predicate OwnersAreUsers(st: State) {
    forall i :: 0 <= i < |st.lost.rows| ==> st.lost.rows[i].data.passengerId in Ids(st.users)
  }

  ghost predicate SessionIsUser(st: State) {
    st.session.LoggedIn? ==>
      && st.session.userId in Ids(st.users)
      && Find(st.users, st.session.userId).value.data.name == st.session.name
      && Find(st.users, st.session.userId).value.data.role == st.session.role
  }

  ghost predicate Inv(st: State) {
    && Valid(st.users) && Valid(st.lost) && Valid(st.found)
    && EmailsUnique(st.users)
    && OwnersAreUsers(st)
    && SessionIsUser(st)
  }

  lemma InitInv()
    ensures Inv(Init())
  {
  }

  /** Registration keeps emails distinct: the new email is not on file. */
  lemma RegisterKeepsEmailsUnique(st: State, form: Registration)
    requires Valid(st.users) && EmailsUnique(st.users)
    ensures EmailsUnique(Register(st, Some(form)).state.users)
  {
    var users' := Register(st, Some(form)).state.users;
    if form.email !in Emails(st.users) {
      var n := |st.users.rows|;
      forall i, j | 0 <= i < j < |users'.rows|
        ensures users'.rows[i].data.email != users'.rows[j].data.email
      {
        assert users'.rows[i] == users'.rows[..n][i] == st.users.rows[i];
        if j < n {
          assert users'.rows[j] == users'.rows[..n][j];
        } else {
          assert users'.rows[i].data.email in Emails(st.users);
        }
      }
    }
  }

  /** A user row that is kept finds the same row afterwards. */
  lemma SessionSurvivesInsert(st: State, users': Table<User>, id: nat, u: User)
    requires Inv(st) && AddsRow(st.users, users', id, u)
    ensures SessionIsUser(st.(users := users'))
    ensures OwnersAreUsers(st.(users := users'))
  {
    if st.session.LoggedIn? {
      FindAfterAdd(st.users, users', id, u, st.session.userId);
    }
  }

  lemma RegisterPreservesInv(st: State, form: Option<Registration>)
    requires Inv(st)
    ensures Inv(Register(st, form).state)
  {
    if form.Some? {
      RegisterKeepsEmailsUnique(st, form.value);
      if form.value.email !in Emails(st.users) {
        var f := form.value;
        SessionSurvivesInsert(st, Register(st, form).state.users, st.users.nextId,
                              User(f.name, f.email, f.password, Passenger));
      }
    }
  }

  lemma LoginPreservesInv(st: State, form: Option<Credentials>)
    requires Inv(st)
    ensures Inv(Login(st, form).state)
  {
    var st' := Login(st, form).state;
    if form.Some? && st'.session != st.session {
      var i :| 0 <= i < |st.users.rows| && Matches(st.users.rows[i].data, form.value)
               && st'.session == LoggedIn(st.users.rows[i].id, st.users.rows[i].data.name, st.users.rows[i].data.role);
      FindStored(st.users, st.users.rows[i]);
    }
  }

  /** A new report's owner is the session user, who exists. */
  lemma ReportLuggagePreservesInv(st: State, form: Option<LostForm>)
    requires Inv(st)
    ensures Inv(ReportLuggage(st, form).state)
  {
    var st' := ReportLuggage(st, form).state;
    if IsPassenger(st.session) && form.Some? {
      var n := |st.lost.rows|;
      forall i | 0 <= i < |st'.lost.rows| ensures st'.lost.rows[i].data.passengerId in Ids(st'.users) {
        if i < n {
          assert st'.lost.rows[i] == st'.lost.rows[..n][i] == st.lost.rows[i];
        }
      }
    }
  }

  /** A status overwrite keeps every report's owner. */
  lemma SetsStatusPreservesInv(st: State, lost': Table<LostReport>, id: nat, status: string, remarks: string)
    requires Inv(st) && SetsStatus(st.lost, lost', id, status, remarks)
    ensures Inv(st.(lost := lost'))
  {
    assert forall i :: 0 <= i < |lost'.rows| ==> lost'.rows[i].data.passengerId == st.lost.rows[i].data.passengerId;
  }

  lemma {:induction false} StepPreservesInv(st: State, req: Request)
    requires Inv(st)
    ensures Inv(Step(st, req).state)
  {
    match req
    case RegisterRequest(form) => RegisterPreservesInv(st, form);
    case LoginRequest(form) => LoginPreservesInv(st, form);
    case ReportLuggageRequest(form) => ReportLuggagePreservesInv(st, form);
    case UpdateStatusRequest(id, form) =>
      if IsAdmin(st.session) && id <= MaxSqlInteger && form.Some? {
        SetsStatusPreservesInv(st, Step(st, req).state.lost, id, form.value.status, form.value.remarks);
      }
    case MatchLuggageRequest(foundId, lostId) =>
      if IsAdmin(st.session) && foundId <= MaxSqlInteger && lostId.Some? {
        SetsStatusPreservesInv(st, Step(st, req).state.lost, lostId.value, Found, MatchRemark(foundId));
      }
    case _ =>
  }

  /** Every state reached by serving requests from an invariant state keeps it. */
  lemma {:induction false} RunPreservesInv(st: State, reqs: seq<Request>)
    requires Inv(st)
    ensures Inv(Run(st, reqs))
    decreases |reqs|
  {
    if |reqs| > 0 {
      StepPreservesInv(st, reqs[0]);
      RunPreservesInv(Step(st, reqs[0]).state, reqs[1..]);
    }
  }

  /** However requests arrive, no two users ever share an email, and every lost
      report belongs to a registered user. */
  lemma ReachableInv(reqs: seq<Request>)
    ensures Inv(Run(Init(), reqs))
    ensures EmailsUnique(Run(Init(), reqs).users)
    ensures OwnersAreUsers(Run(Init(), reqs))
  {
    InitInv();
    RunPreservesInv(Init(), reqs);
  }
}
