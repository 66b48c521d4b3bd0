/** The top-level controller of src/App.tsx: its four pieces of state (`currentPage`, `user`,
    `isLoginMode`, `appointments`), the mock identity rule of `handleLogin`, the three store
    operations (append, merge by id, filter out by id) and the page router `renderPage`. */
module App {
  import opened Types
  import opened Text
  import opened Seqs

  /** The one e-mail address that logs in as administrator. */
  const AdminEmail := "admin@losmecanics.com"

  /** The pages the router and the navigation bar name. */
  const HomePage := "home"
  const LoginPage := "login"
  const SignupPage := "signup"
  const UserDashboardPage := "user-dashboard"
  const AdminDashboardPage := "admin-dashboard"

  // ---------------------------------------------------------------------------------------
  // Identity

  /** `name || email.split('@')[0]`: a non-empty given name wins; otherwise the part of the
      e-mail before its first '@', or the whole e-mail when it has no '@'. */
  function DisplayName(email: string, name: Option<string>): (r: string)
    ensures r == "" ==> (name.None? || name.value == "") && (email == [] || email[0] == '@')
  {
    if name.Some? && name.value != "" then name.value else LocalPart(email)
  }

  /** A non-empty given name wins; otherwise the name is the longest '@'-free prefix of the e-mail. */
  lemma DisplayNameSpec(email: string, name: Option<string>)
    ensures name.Some? && name.value != "" ==> DisplayName(email, name) == name.value
    ensures (name.None? || name.value == "") ==>
      var r := DisplayName(email, name);
      r <= email && '@' !in r && (|r| == |email| || email[|r|] == '@')
  {
  }

  /** The session `handleLogin` builds. The password and the sign-up flag play no part;
      `now` stands for `Date.now()`. */
  function ResolveIdentity(email: string, name: Option<string>, now: nat): (u: User)
    ensures u.role == AdminRole <==> email == AdminEmail
    ensures u.id == "admin" <==> email == AdminEmail
    ensures u.role == UserRole ==> u.id == DecimalString(now)
    ensures u.email == email
    ensures u.name == DisplayName(email, name)
  {
    var isAdmin := email == AdminEmail;
    assert !IsDigit("admin"[0]);
    DecimalIsNotWord(now, "admin");
    User(if isAdmin then "admin" else DecimalString(now),
         email,
         DisplayName(email, name),
         if isAdmin then AdminRole else UserRole)
  }

  /** The dashboard a role lands on after logging in; the navigation bar's user button
      (src/components/Navigation.tsx) targets the same page. */
  function DashboardPage(role: Role): (page: string)
    ensures page == AdminDashboardPage || page == UserDashboardPage
  {
    match role
    case AdminRole => AdminDashboardPage
    case UserRole => UserDashboardPage
  }

  /** Each role has its own dashboard. */
  lemma DashboardPageByRole(role: Role)
    ensures DashboardPage(role) == AdminDashboardPage <==> role == AdminRole
    ensures DashboardPage(role) == UserDashboardPage <==> role == UserRole
  {
    assert AdminDashboardPage[0] != UserDashboardPage[0];
  }

  // ---------------------------------------------------------------------------------------
  // Appointment store

  /** The record `addAppointment` builds from a draft: the draft's fields, a fresh id rendered
      from the timestamp `now`, the creation stamp, and status pending. */
  function NewAppointment(d: Draft, now: nat, createdAt: string): (a: Appointment)
    ensures DraftOf(a) == d
    ensures a.status == Pending
    ensures a.id == DecimalString(now) && a.createdAt == createdAt
  {
    Appointment(DecimalString(now), d.userId, d.userName, d.userEmail, d.userPhone,
                d.service, d.date, d.time, Pending, d.notes, createdAt)
  }

  /** Appending keeps every earlier record where it was and puts the new one last. */
  lemma AppendedSpec(s: seq<Appointment>, d: Draft, now: nat, createdAt: string)
    ensures |s + [NewAppointment(d, now, createdAt)]| == |s| + 1
    ensures (s + [NewAppointment(d, now, createdAt)])[..|s|] == s
    ensures (s + [NewAppointment(d, now, createdAt)])[|s|].status == Pending
  {
  }

  /** Appending a record whose id is not yet taken keeps ids unique. The source does not
      guarantee freshness of `Date.now()`; this is the condition under which ids stay unique. */
  lemma AppendPreservesUniqueIds(s: seq<Appointment>, d: Draft, now: nat, createdAt: string)
    requires UniqueIds(s) && !HasId(s, DecimalString(now))
    ensures UniqueIds(s + [NewAppointment(d, now, createdAt)])
  {
    var r := s + [NewAppointment(d, now, createdAt)];
    forall i, j | 0 <= i < j < |r| ensures r[i].id != r[j].id {
      if j == |s| {
        assert r[i] == s[i];
      }
    }
  }

  /** A patch field's value when it is present, the record's own otherwise. */
  function Pick<T>(field: Option<T>, current: T): T
  {
    if field.Some? then field.value else current
  }

  /** `{ ...a, ...p }`: every field present in the patch replaces the record's. */
  function Merge(a: Appointment, p: Patch): (r: Appointment)
    // fields absent from the patch keep the record's value
    ensures p.id.None? ==> r.id == a.id
    ensures p.userId.None? ==> r.userId == a.userId
    ensures p.userName.None? ==> r.userName == a.userName
    ensures p.userEmail.None? ==> r.userEmail == a.userEmail
    ensures p.userPhone.None? ==> r.userPhone == a.userPhone
    ensures p.service.None? ==> r.service == a.service
    ensures p.date.None? ==> r.date == a.date
    ensures p.time.None? ==> r.time == a.time
    ensures p.status.None? ==> r.status == a.status
    ensures p.notes.None? ==> r.notes == a.notes
    ensures p.createdAt.None? ==> r.createdAt == a.createdAt
    // fields present in the patch win
    ensures p.id.Some? ==> r.id == p.id.value
    ensures p.userId.Some? ==> r.userId == p.userId.value
    ensures p.userName.Some? ==> r.userName == p.userName.value
    ensures p.userEmail.Some? ==> r.userEmail == p.userEmail.value
    ensures p.userPhone.Some? ==> r.userPhone == p.userPhone.value
    ensures p.service.Some? ==> r.service == p.service.value
    ensures p.createdAt.Some? ==> r.createdAt == p.createdAt.value
    ensures p.date.Some? ==> r.date == p.date.value
    ensures p.time.Some? ==> r.time == p.time.value
    ensures p.status.Some? ==> r.status == p.status.value
    ensures p.notes.Some? ==> r.notes == p.notes
  {
    Appointment(
      Pick(p.id, a.id), Pick(p.userId, a.userId), Pick(p.userName, a.userName),
      Pick(p.userEmail, a.userEmail), Pick(p.userPhone, a.userPhone), Pick(p.service, a.service),
      Pick(p.date, a.date), Pick(p.time, a.time), Pick(p.status, a.status),
      if p.notes.Some? then p.notes else a.notes,
      Pick(p.createdAt, a.createdAt))
  }

  /** `{ ...p, ...q }`: the patch that applies `p` and then `q`. */
  function Then(p: Patch, q: Patch): Patch
  {
    Patch(
      if q.id.Some? then q.id else p.id,
      if q.userId.Some? then q.userId else p.userId,
      if q.userName.Some? then q.userName else p.userName,
      if q.userEmail.Some? then q.userEmail else p.userEmail,
      if q.userPhone.Some? then q.userPhone else p.userPhone,
      if q.service.Some? then q.service else p.service,
      if q.date.Some? then q.date else p.date,
      if q.time.Some? then q.time else p.time,
      if q.status.Some? then q.status else p.status,
      if q.notes.Some? then q.notes else p.notes,
      if q.createdAt.Some? then q.createdAt else p.createdAt)
  }

  /** The empty patch changes nothing. */
  lemma MergeEmpty(a: Appointment)
    ensures Merge(a, EmptyPatch()) == a
  {
  }

  /** Merging two patches one after the other is merging their combination once; in
      particular merging the same patch twice is merging it once. */
  lemma MergeThen(a: Appointment, p: Patch, q: Patch)
    ensures Merge(Merge(a, p), q) == Merge(a, Then(p, q))
    ensures Merge(Merge(a, p), p) == Merge(a, p)
  {
  }

  /** `prev.map(apt => apt.id === id ? { ...apt, ...updates } : apt)`. */
  function Updated(s: seq<Appointment>, id: string, p: Patch): (r: seq<Appointment>)
    ensures |r| == |s|
    ensures forall i :: 0 <= i < |s| && s[i].id == id ==> r[i] == Merge(s[i], p)
    ensures forall i :: 0 <= i < |s| && s[i].id != id ==> r[i] == s[i]
    ensures !HasId(s, id) ==> r == s
  {
    if s == [] then []
    else [if s[0].id == id then Merge(s[0], p) else s[0]] + Updated(s[1..], id, p)
  }

  /** An update whose patch leaves `id` alone keeps ids unique. */
  lemma UpdatePreservesUniqueIds(s: seq<Appointment>, id: string, p: Patch)
    requires UniqueIds(s) && p.id.None?
    ensures UniqueIds(Updated(s, id, p))
  {
    var r := Updated(s, id, p);
    assert forall i :: 0 <= i < |s| ==> r[i].id == s[i].id;
  }

  /** With unique ids, an update changes the one record with that id as the patch says
      and leaves everything else about it unchanged. */
  lemma UpdateFindsRecord(s: seq<Appointment>, k: nat, p: Patch)
    requires UniqueIds(s) && k < |s|
    ensures Updated(s, s[k].id, p)[k] == Merge(s[k], p)
    ensures forall i :: 0 <= i < |s| && i != k ==> Updated(s, s[k].id, p)[i] == s[i]
  {
  }

  /** The predicate `apt => apt.id !== id`. */
  function OtherThan(id: string): Appointment -> bool
  {
    (a: Appointment) => a.id != id
  }

  /** `prev.filter(apt => apt.id !== id)`. */
  function Removed(s: seq<Appointment>, id: string): (r: seq<Appointment>)
    ensures |r| <= |s|
    ensures forall i :: 0 <= i < |r| ==> r[i].id != id && r[i] in s
  {
    Filter(s, OtherThan(id))
  }

  /** Deleting removes exactly the records with that id: none is left, every other record keeps
      its multiplicity, and the survivors keep their relative order. */
  lemma RemovedSpec(s: seq<Appointment>, id: string)
    ensures forall i :: 0 <= i < |Removed(s, id)| ==> Removed(s, id)[i].id != id
    ensures forall a: Appointment :: a.id != id ==> multiset(Removed(s, id))[a] == multiset(s)[a]
    ensures Subseq(Removed(s, id), s)
    ensures |Removed(s, id)| <= |s|
  {
    forall a: Appointment | a.id != id
      ensures multiset(Removed(s, id))[a] == multiset(s)[a]
    {
      FilterMultiplicity(s, OtherThan(id), a);
    }
    FilterIsSubseq(s, OtherThan(id));
  }

  /** Deleting twice is deleting once. */
  lemma RemovedIdempotent(s: seq<Appointment>, id: string)
    ensures Removed(Removed(s, id), id) == Removed(s, id)
  {
    FilterIdempotent(s, OtherThan(id));
  }

  /** Deleting an id that is not present changes nothing. */
  lemma RemovedUnknown(s: seq<Appointment>, id: string)
    requires !HasId(s, id)
    ensures Removed(s, id) == s
  {
    FilterAll(s, OtherThan(id));
  }

  /** Deleting keeps ids unique. */
  lemma {:induction false} RemovedPreservesUniqueIds(s: seq<Appointment>, id: string)
    requires UniqueIds(s)
    ensures UniqueIds(Removed(s, id))
  {
    if s != [] {
      RemovedPreservesUniqueIds(s[1..], id);
      var rest := Removed(s[1..], id);
      assert Removed(s, id) == (if s[0].id != id then [s[0]] else []) + rest;
      forall j | 0 <= j < |rest| ensures rest[j].id != s[0].id {
        var k :| 0 <= k < |s[1..]| && s[1..][k] == rest[j];
        assert s[k + 1] == rest[j];
      }
    }
  }

  /** After an update and a delete of the same id, no record with that id is left, whatever
      the patch; a corollary of RemovedSpec. */
  lemma UpdateThenDelete(s: seq<Appointment>, id: string, p: Patch)
    ensures !HasId(Removed(Updated(s, id, p), id), id)
  {
    RemovedSpec(Updated(s, id, p), id);
  }

  /** The predicate `apt => apt.userId === uid`. */
  function OwnedBy(uid: string): Appointment -> bool
  {
    (a: Appointment) => a.userId == uid
  }

  /** The appointments a signed-in user's dashboard receives: exactly those they own, in order. */
  function Own(s: seq<Appointment>, uid: string): (r: seq<Appointment>)
    ensures forall i :: 0 <= i < |r| ==> r[i] in s && r[i].userId == uid
    ensures forall i :: 0 <= i < |s| && s[i].userId == uid ==> s[i] in r
    ensures forall x :: multiset(r)[x] == if x.userId == uid then multiset(s)[x] else 0
    ensures Subseq(r, s)
  {
    FilterIsSubseq(s, OwnedBy(uid));
    FilterMultiset(s, OwnedBy(uid));
    Filter(s, OwnedBy(uid))
  }

  /** A newly booked appointment is added at the end of its owner's dashboard list and leaves
      everybody else's list as it was. */
  lemma BookedVisibleToOwnerOnly(s: seq<Appointment>, d: Draft, now: nat, createdAt: string, uid: string)
    ensures Own(s + [NewAppointment(d, now, createdAt)], uid) ==
            Own(s, uid) + (if d.userId == uid then [NewAppointment(d, now, createdAt)] else [])
  {
    var a := NewAppointment(d, now, createdAt);
    FilterAppend(s, [a], OwnedBy(uid));
    assert Filter([a], OwnedBy(uid)) == if a.userId == uid then [a] else [] by {
      assert [a][1..] == [];
    }
  }

  /** The two fixture records loaded when the application starts. */
  function MockAppointments(): (r: seq<Appointment>)
    ensures |r| == 2 && UniqueIds(r)
  {
    [ Appointment("1", "user1", "John Doe", "john@example.com", "(555) 123-4567",
                  "Engine Repair", "2025-09-15", "10:00", Confirmed,
                  Some("Check engine light issue"), "2025-09-01"),
      Appointment("2", "user2", "Jane Smith", "jane@example.com", "(555) 987-6543",
                  "Brake Service", "2025-09-16", "14:00", Pending,
                  Some("Brake pads replacement needed"), "2025-09-02") ]
  }

  // ---------------------------------------------------------------------------------------
  // Router

  /** The one view `renderPage` produces, with the data it hands to it. */
  datatype View =
    | LoginView(isLoginMode: bool)
    | UserDashboardView(user: User, appointments: seq<Appointment>)
    | AdminDashboardView(appointments: seq<Appointment>)
    | HomeView
    | ServicesView
    | BookAppointmentView(bookingUser: Option<User>)
    | AboutView
    | ContactView

  /** `renderPage`: the login screen for an anonymous user on login or signup; the user dashboard
      for any signed-in user; the admin dashboard for an administrator; otherwise the page switch,
      whose default (unknown names, and login, signup and the dashboards once they fall through)
      is Home. */
  function RenderPage(user: Option<User>, page: string, isLoginMode: bool, apts: seq<Appointment>): (v: View)
    ensures v.LoginView? <==> user.None? && (page == LoginPage || page == SignupPage)
    ensures v.LoginView? ==> v.isLoginMode == isLoginMode
    ensures v.UserDashboardView? <==> user.Some? && page == UserDashboardPage
    ensures v.UserDashboardView? ==>
      v.user == user.value &&
      Subseq(v.appointments, apts) &&
      (forall i :: 0 <= i < |v.appointments| ==> v.appointments[i].userId == user.value.id) &&
      (forall i :: 0 <= i < |apts| && apts[i].userId == user.value.id ==> apts[i] in v.appointments) &&
      (forall x :: multiset(v.appointments)[x] == if x.userId == user.value.id then multiset(apts)[x] else 0)
    ensures v.AdminDashboardView? <==> user.Some? && user.value.role == AdminRole && page == AdminDashboardPage
    ensures v.AdminDashboardView? ==> v.appointments == apts
    ensures v.ServicesView? <==> page == "services"
    ensures v.BookAppointmentView? <==> page == "book-appointment"
    ensures v.BookAppointmentView? ==> v.bookingUser == user
    ensures v.AboutView? <==> page == "about"
    ensures v.ContactView? <==> page == "contact"
    ensures v.HomeView? <==>
      page !in ["services", "book-appointment", "about", "contact"] &&
      !(user.None? && (page == LoginPage || page == SignupPage)) &&
      !(user.Some? && page == UserDashboardPage) &&
      !(user.Some? && user.value.role == AdminRole && page == AdminDashboardPage)
  {
    if user.None? && (page == LoginPage || page == SignupPage) then LoginView(isLoginMode)
    else if user.Some? && page == UserDashboardPage then UserDashboardView(user.value, Own(apts, user.value.id))
    else if user.Some? && user.value.role == AdminRole && page == AdminDashboardPage then AdminDashboardView(apts)
    else if page == "services" then ServicesView
    else if page == "book-appointment" then BookAppointmentView(user)
    else if page == "about" then AboutView
    else if page == "contact" then ContactView
    else HomeView
  }

  /** The fall-throughs that differ from what a reader might expect: an anonymous user asking for
      a dashboard, a signed-in user asking for login or signup, and a non-administrator asking for
      the admin dashboard all get Home. */
  lemma RouterFallsThroughToHome(user: Option<User>, isLoginMode: bool, apts: seq<Appointment>)
    ensures user.None? ==> RenderPage(user, UserDashboardPage, isLoginMode, apts) == HomeView
    ensures user.None? ==> RenderPage(user, AdminDashboardPage, isLoginMode, apts) == HomeView
    ensures user.Some? ==> RenderPage(user, LoginPage, isLoginMode, apts) == HomeView
    ensures user.Some? ==> RenderPage(user, SignupPage, isLoginMode, apts) == HomeView
    ensures user.Some? && user.value.role == UserRole ==>
      RenderPage(user, AdminDashboardPage, isLoginMode, apts) == HomeView
  {
  }

  /** After a login the router shows the administrator all appointments, and any other user
      the dashboard with their own. */
  lemma LoginShowsDashboard(email: string, name: Option<string>, now: nat, isLoginMode: bool, apts: seq<Appointment>)
    ensures var u := ResolveIdentity(email, name, now);
            RenderPage(Some(u), DashboardPage(u.role), isLoginMode, apts) ==
              if email == AdminEmail then AdminDashboardView(apts) else UserDashboardView(u, Own(apts, u.id))
  {
    var u := ResolveIdentity(email, name, now);
    if email != AdminEmail {
      assert DashboardPage(u.role) == UserDashboardPage;
    }
  }

  // ---------------------------------------------------------------------------------------
  // Controller state

  /** The state of the `App` component and the handlers that change it. */
  class Controller {
    var currentPage: string
    var user: Option<User>
    var isLoginMode: bool
    var appointments: seq<Appointment>

    /** The initial state, before the fixture records are loaded. */
    constructor ()
      ensures currentPage == HomePage && user.None? && isLoginMode && appointments == []
    {
      currentPage := HomePage;
      user := None;
      isLoginMode := true;
      appointments := [];
    }

    /** The mount effect that installs the two fixture records. */
    method LoadMockAppointments()
      modifies this
      ensures appointments == MockAppointments()
      ensures currentPage == old(currentPage) && user == old(user) && isLoginMode == old(isLoginMode)
    {
      appointments := MockAppointments();
    }

    /** The view the current state renders. */
    function View(): (v: View)
      reads this
      ensures user.None? ==> !v.UserDashboardView? && !v.AdminDashboardView?
      ensures v.AdminDashboardView? ==> v.appointments == appointments && user.Some? && user.value.role == AdminRole
    {
      RenderPage(user, currentPage, isLoginMode, appointments)
    }

    /** `setCurrentPage`, the `onNavigate` callback every page receives. */
    method Navigate(page: string)
      modifies this
      ensures currentPage == page
      ensures user == old(user) && isLoginMode == old(isLoginMode) && appointments == old(appointments)
    {
      currentPage := page;
    }

    /** `handleLogin`: replace the session, whatever it was, and go to the role's dashboard. */
    method HandleLogin(email: string, password: string, isSignup: bool, name: Option<string>, now: nat)
      modifies this
      ensures user == Some(ResolveIdentity(email, name, now))
      ensures currentPage == DashboardPage(user.value.role)
      ensures isLoginMode == old(isLoginMode) && appointments == old(appointments)
    {
      var u := ResolveIdentity(email, name, now);
      user, currentPage := Some(u), DashboardPage(u.role);
    }

    /** `handleLogout`: drop the session and go home; the appointments stay. */
    method HandleLogout()
      modifies this
      ensures user.None? && currentPage == HomePage
      ensures isLoginMode == old(isLoginMode) && appointments == old(appointments)
      ensures View() == HomeView
    {
      user := None;
      currentPage := HomePage;
    }

    /** `addAppointment`. */
    method AddAppointment(d: Draft, now: nat, createdAt: string)
      modifies this
      ensures appointments == old(appointments) + [NewAppointment(d, now, createdAt)]
      ensures currentPage == old(currentPage) && user == old(user) && isLoginMode == old(isLoginMode)
    {
      appointments := appointments + [NewAppointment(d, now, createdAt)];
    }

    /** `updateAppointment`. */
    method UpdateAppointment(id: string, p: Patch)
      modifies this
      ensures appointments == Updated(old(appointments), id, p)
      ensures currentPage == old(currentPage) && user == old(user) && isLoginMode == old(isLoginMode)
    {
      appointments := Updated(appointments, id, p);
    }

    /** `deleteAppointment`. */
    method DeleteAppointment(id: string)
      modifies this
      ensures appointments == Removed(old(appointments), id)
      ensures currentPage == old(currentPage) && user == old(user) && isLoginMode == old(isLoginMode)
    {
      appointments := Removed(appointments, id);
    }

    /** The login screen's `onToggleMode`: flip between sign-in and sign-up, nothing else. */
    method ToggleLoginMode()
      modifies this
      ensures isLoginMode == !old(isLoginMode)
      ensures currentPage == old(currentPage) && user == old(user) && appointments == old(appointments)
    {
      isLoginMode := !isLoginMode;
    }

    /** The navigation bar's `onLogin`: open the login screen in sign-in mode. */
    method OpenLogin()
      modifies this
      ensures isLoginMode && currentPage == LoginPage
      ensures user == old(user) && appointments == old(appointments)
      ensures user.None? ==> View() == LoginView(true)
    {
      isLoginMode := true;
      currentPage := LoginPage;
    }
  }
}
