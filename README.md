# Car-service appointments: controller, router and dashboards in Dafny

This project models the logic of a small website for a car-repair shop. The model covers the
in-memory appointment lifecycle and the session and page state of the `App` component. It also
covers the list logic that the customer dashboard, the administrator dashboard and the booking
form apply to that state.

- `types.dfy` (module `Types`): the records `User`, `Appointment`, the booking `Draft`
  (an appointment without `id`, `createdAt` and `status`) and the update `Patch`
  (`Partial<Appointment>`: each field `Some` when present). Also the five statuses and their
  string names.
- `seqs.dfy` (module `Seqs`): `Filter`, of which every `.filter` in the source is an instance,
  and `Subseq`, "kept in original order". Also the general facts about them.
- `text.dfy` (module `Text`): ASCII lower-casing, `String.prototype.includes`,
  `email.split('@')[0]`, and `n.toString()` for the `Date.now()` timestamps.
- `app.dfy` (module `App`): the mock identity rule of `handleLogin`. The store operations:
  append, merge by id (`Updated`) and filter out by id (`Removed`). The router `RenderPage`.
  The class `Controller` holds the four state fields `currentPage`, `user`, `isLoginMode` and
  `appointments`, with one method per handler.
- `user_dashboard.dfy` (module `UserDashboard`): the upcoming/past split, the completed count
  and `getStatusColor`.
- `admin_dashboard.dfy` (module `AdminDashboard`): the search and status filter, the
  statistics, the edit patch, and the class `Dashboard` with the edit, save and delete handlers.
  These handlers call back into the `Controller`.
- `book_appointment.dfy` (module `BookAppointment`): the form state, `handleInputChange`, and
  the three-way guard of `handleSubmit`. The class `Form` submits into the `Controller`.

Time and identifiers are parameters. `now: nat` stands for `Date.now()`, and an id is its
decimal rendering, so it is all digits and never `"admin"`. `createdAt: string` stands for
`new Date().toISOString()`. The browser's `confirm` is the boolean `confirmed`. The calendar's
selection is the date already formatted as `yyyy-MM-dd` (`Option<string>`). `handleSubmit`
reads the `user` prop from the `Controller`, because `App` passes `user={user}`. The
source does not guarantee that ids are unique. The lemmas that keep `UniqueIds` take a fresh
id as a hypothesis. They do not claim uniqueness.

Two router behaviours are easy to misread:
- A signed-in user who asks for `login` or `signup` gets Home, not the login screen. The page
  switch has no case for those names.
- An anonymous user who asks for `user-dashboard` also gets Home, not a forced login.

The store checks neither the caller's role nor who owns a record. The model shows this as well:
`Updated` and `Removed` take any id.

## Model

| member | source | states |
|---|---|---|
| Types.ParseStatus | src/App.tsx:20 | a parsed status is written back as the same string |
| Types.ParseStatusName | src/App.tsx:20 | every status reads back as itself from its name |
| Types.StatusNameInjective | src/App.tsx:20 | the five status names are distinct and none is the filter value "all" |
| Text.LocalPart | src/App.tsx:80 | the longest prefix of the e-mail without '@': a prefix, '@'-free, ending at the end or at the first '@' |
| Text.DecimalString | src/App.tsx:78 | a timestamp renders as a non-empty string of digits with no leading zero |
| Text.DecimalRoundTrip | src/App.tsx:95 | reading the digits back gives the timestamp |
| Text.DecimalInjective | src/App.tsx:95 | distinct timestamps give distinct ids |
| Text.DecimalIsNotWord | src/App.tsx:78 | a rendered timestamp never equals a word with a non-digit, such as "admin" |
| Text.Includes | src/components/AdminDashboard.tsx:55-57 | a term included in a string is never longer than it |
| Text.IncludesAt | src/components/AdminDashboard.tsx:55-57 | `includes` holds exactly when the term occurs at some position (both directions) |
| Text.IncludesEmpty | src/components/AdminDashboard.tsx:55-57 | every string includes the empty search term |
| Text.Lower | src/components/AdminDashboard.tsx:55-57 | same length; each ASCII capital becomes the same letter in lower case, every other character is kept |
| Text.SameLetterLower | src/components/AdminDashboard.tsx:55-57 | two strings that differ only in the case of ASCII letters lower-case to the same string |
| Text.LowerIsLower | src/components/AdminDashboard.tsx:55-57 | lower-casing leaves no ASCII capital and is idempotent |
| App.DisplayName | src/App.tsx:80 | the display name is empty only when no non-empty name is given and the e-mail is empty or starts with '@' |
| App.DisplayNameSpec | src/App.tsx:80 | a non-empty given name wins; otherwise the part of the e-mail before the first '@', or all of it |
| App.ResolveIdentity | src/App.tsx:75-82 | role admin iff the e-mail is admin@losmecanics.com; id "admin" iff so, and the rendered timestamp otherwise; the e-mail is kept; the name is DisplayName |
| App.DashboardPage | src/App.tsx:84 | the landing page is always one of the two dashboards |
| App.DashboardPageByRole | src/App.tsx:84 | admins land on admin-dashboard, users on user-dashboard (both directions) |
| App.LoginShowsDashboard | src/App.tsx:83-84 | after a login the router shows an admin all appointments and any other user their own dashboard |
| App.NewAppointment | src/App.tsx:92-98 | the new record carries every draft field unchanged, status pending, the fresh id and the creation stamp |
| App.AppendedSpec | src/App.tsx:99 | appending grows the list by one, keeps every earlier record in place, and puts a pending record last |
| App.AppendPreservesUniqueIds | src/App.tsx:92-100 | appending a record whose id is not yet taken keeps ids unique |
| App.Merge | src/App.tsx:104 | each of the eleven fields: absent from the patch, it keeps the record's value; present, the patch's value wins |
| App.MergeEmpty | src/App.tsx:104 | the empty patch changes nothing |
| App.MergeThen | src/App.tsx:104 | merging p then q is merging their combination; merging a patch twice is merging it once |
| App.Updated | src/App.tsx:102-106 | length and order kept; records with the id get the patch merged in, all others are unchanged; an unknown id leaves the list identical |
| App.UpdatePreservesUniqueIds | src/App.tsx:102-106 | an update whose patch has no id keeps ids unique |
| App.UpdateFindsRecord | src/App.tsx:102-106 | with unique ids, updating a record's id changes that record as the patch says and no other |
| App.Removed | src/App.tsx:109 | never longer than the store; no survivor has the id, and every survivor comes from the store |
| App.RemovedSpec | src/App.tsx:108-110 | no record with the id is left; every other record keeps its multiplicity; survivors keep their relative order |
| App.RemovedIdempotent | src/App.tsx:108-110 | deleting twice equals deleting once |
| App.RemovedUnknown | src/App.tsx:108-110 | deleting an absent id is a no-op |
| App.RemovedPreservesUniqueIds | src/App.tsx:108-110 | deleting keeps ids unique |
| App.UpdateThenDelete | src/App.tsx:102-110 | after updating an id with any patch and deleting it, no record with it is left (a corollary of RemovedSpec) |
| App.Own | src/App.tsx:128 | the user dashboard's list is exactly the records with `userId == user.id`, each with its multiplicity in the store, in order |
| App.BookedVisibleToOwnerOnly | src/App.tsx:124-132 | a new booking is appended to its owner's list and leaves every other user's list unchanged |
| App.MockAppointments | src/App.tsx:43-73 | the two fixture records have distinct ids |
| App.RenderPage | src/App.tsx:112-165 | Login iff anonymous on login/signup; UserDashboard iff signed in on user-dashboard, with exactly the user's records, each as often as in the store, in order; AdminDashboard iff an admin on admin-dashboard, with all records; each static page iff named; Home in every other case |
| App.RouterFallsThroughToHome | src/App.tsx:145-164 | anonymous on a dashboard, signed in on login/signup, and a non-admin on admin-dashboard all get Home |
| App.Controller.constructor | src/App.tsx:37-40 | start on home, no user, sign-in mode, no appointments |
| App.Controller.View | src/App.tsx:112-165 | what the current state renders: no dashboard while signed out; the admin dashboard only for an administrator, with the whole store |
| App.Controller.LoadMockAppointments | src/App.tsx:72 | the mount effect installs the fixtures and changes nothing else |
| App.Controller.Navigate | src/App.tsx:129 | `setCurrentPage` changes the page only |
| App.Controller.HandleLogin | src/App.tsx:75-85 | the session is replaced unconditionally by ResolveIdentity; the page is the role's dashboard; nothing else changes |
| App.Controller.HandleLogout | src/App.tsx:87-90 | no user, page home, which renders Home; appointments and mode untouched |
| App.Controller.AddAppointment | src/App.tsx:92-100 | the new record is appended; nothing else changes |
| App.Controller.UpdateAppointment | src/App.tsx:102-106 | the list becomes Updated; nothing else changes |
| App.Controller.DeleteAppointment | src/App.tsx:108-110 | the list becomes Removed; nothing else changes |
| App.Controller.ToggleLoginMode | src/App.tsx:118 | flips the mode and changes nothing else |
| App.Controller.OpenLogin | src/App.tsx:173-176 | sign-in mode and page login; an anonymous user then sees the login screen |
| UserDashboard.Upcoming | src/components/UserDashboard.tsx:40-42 | no upcoming record is completed or cancelled |
| UserDashboard.Past | src/components/UserDashboard.tsx:44-46 | every past record is completed or cancelled |
| UserDashboard.UpcomingPastPartition | src/components/UserDashboard.tsx:40-46 | each record is in exactly one of the two; their sizes add up to the total; both keep input order |
| UserDashboard.CompletedCount | src/components/UserDashboard.tsx:102 | the number of completed records, never more than the list holds |
| UserDashboard.CompletedAtMostPast | src/components/UserDashboard.tsx:102 | the completed count is at most the number of past records |
| UserDashboard.GetStatusColor | src/components/UserDashboard.tsx:23-38 | a string naming a status gets that status's class; any other string the gray default |
| UserDashboard.GetStatusColorSpec | src/components/UserDashboard.tsx:23-38 | total: a status name gets that status's class, any other string the gray default |
| UserDashboard.GetStatusColorOfStatus | src/components/UserDashboard.tsx:23-38 | each of the five statuses maps to its fixed class |
| AdminDashboard.FilteredAppointments | src/components/AdminDashboard.tsx:54-61 | an ordered subsequence; a record is kept, as often as it occurs, iff the search hits name, e-mail or service and the status filter is "all" or its status; otherwise it is dropped |
| AdminDashboard.ShowsAllInitially | src/components/AdminDashboard.tsx:27-28 | with an empty search and "all" the whole list is shown |
| AdminDashboard.FilterByStatus | src/components/AdminDashboard.tsx:58 | with a specific status every result has it |
| AdminDashboard.UnknownStatusShowsNothing | src/components/AdminDashboard.tsx:58 | a filter value that is neither "all" nor a status shows nothing |
| AdminDashboard.CaseVariantsSearchAlike | src/components/AdminDashboard.tsx:55-57 | two search terms that differ only in the case of ASCII letters ("JOHN", "john") select the same records |
| AdminDashboard.SearchIgnoresCase | src/components/AdminDashboard.tsx:55-57 | searching a term and its lower-cased form give the same list |
| AdminDashboard.CountStatus | src/components/AdminDashboard.tsx:96-99 | the number of records with one status, never more than the list holds |
| AdminDashboard.CountStatusOccurrences | src/components/AdminDashboard.tsx:96-99 | that number equals the multiplicity of the status among the records' statuses, an independent count |
| AdminDashboard.StatusCountsCover | src/components/AdminDashboard.tsx:94-100 | the five per-status counts add up to the list length |
| AdminDashboard.ComputeStats | src/components/AdminDashboard.tsx:94-100 | total is the length; each card is the number of times its status occurs among the records' statuses; the four cards plus the cancelled records make the total |
| AdminDashboard.SeedForm | src/components/AdminDashboard.tsx:65-70 | the seeded form's status parses back to the appointment's status |
| AdminDashboard.EditPatch | src/components/AdminDashboard.tsx:76-81 | the patch holds exactly date, time, status and notes from the form |
| AdminDashboard.EditKeepsIdentity | src/components/AdminDashboard.tsx:73-85 | saving preserves id, owner, contact fields, service and createdAt, and sets the four edited fields |
| AdminDashboard.SaveUnchangedEdit | src/components/AdminDashboard.tsx:63-85 | opening and saving an edit unchanged returns the record, with absent notes turned into '' |
| AdminDashboard.Dashboard.constructor | src/components/AdminDashboard.tsx:27-35 | empty search, filter "all", nothing under edit, empty form, so the visible list is every record it is given |
| AdminDashboard.Dashboard.SetSearchTerm | src/components/AdminDashboard.tsx:183 | changes the search term only |
| AdminDashboard.Dashboard.SetStatusFilter | src/components/AdminDashboard.tsx:191 | changes the status filter only |
| AdminDashboard.Dashboard.HandleEdit | src/components/AdminDashboard.tsx:63-71 | the appointment is under edit; the form holds its date, time, status and notes, or '' for absent notes |
| AdminDashboard.Dashboard.SetEditDate | src/components/AdminDashboard.tsx:285-288 | changes the form's date only |
| AdminDashboard.Dashboard.SetEditTime | src/components/AdminDashboard.tsx:295-298 | changes the form's time only |
| AdminDashboard.Dashboard.SetEditStatus | src/components/AdminDashboard.tsx:318-321 | sets the form's status to a status name, keeping the invariant that it parses |
| AdminDashboard.Dashboard.SetEditNotes | src/components/AdminDashboard.tsx:340-343 | changes the form's notes only |
| AdminDashboard.Dashboard.HandleSaveEdit | src/components/AdminDashboard.tsx:73-85 | nothing without an edit; otherwise one update of that id with the edit patch, then `editingAppointment` is cleared (the dialog itself stays open) |
| AdminDashboard.Dashboard.HandleDelete | src/components/AdminDashboard.tsx:87-92 | deletes only when confirmed; otherwise nothing changes |
| BookAppointment.WithField | src/components/BookAppointment.tsx:57-59 | the named field takes the value and every other field keeps its own |
| BookAppointment.InitialForm | src/components/BookAppointment.tsx:30-37 | name and e-mail from the user or '', every other field '' |
| BookAppointment.Decide | src/components/BookAppointment.tsx:61-89 | login iff no user; rejected iff a user but no date, service or time; otherwise a draft owned by `user.id` with the form's fields and the date |
| BookAppointment.ContactFieldsNotRequired | src/components/BookAppointment.tsx:70-73 | empty name, e-mail and phone still book |
| BookAppointment.BookedShowsOnDashboard | src/components/BookAppointment.tsx:75-88 | a booking that goes through is pending and shows on its owner's user dashboard |
| BookAppointment.Form.constructor | src/components/BookAppointment.tsx:29-37 | the form starts as InitialForm with no date |
| BookAppointment.Form.HandleInputChange | src/components/BookAppointment.tsx:57-59 | the form becomes WithField; the date is untouched |
| BookAppointment.Form.SelectDate | src/components/BookAppointment.tsx:201 | changes the selected date only |
| BookAppointment.Form.HandleSubmit | src/components/BookAppointment.tsx:61-89 | no user: nothing added, page login; missing field: nothing changes; otherwise exactly one append, then user-dashboard |

`getStatusColor` in src/components/AdminDashboard.tsx:37-52 is the same switch as the one in
the customer dashboard. `UserDashboard.GetStatusColor` models both.

## Left out

- All JSX rendering, Tailwind classes, icons, dialogs, selects, popovers and toast
  notifications: presentation only.
- The static pages Home, Services, About and Contact, and the Login component, which only
  forwards `!isLoginMode` as `isSignup` after a simulated delay.
- Text.Lower: folds ASCII letters only, because Unicode `toLowerCase` is not modelled.
- The clock: `Date.now()` and `toISOString()` are parameters. The date-fns formatting and the
  calendar's "before today or Sunday" rule for disabled days depend on the clock and the locale.
- The uniqueness of ids: the source does not ensure it. `AppendPreservesUniqueIds` assumes a
  fresh timestamp.
- App.Merge: a patch cannot set `notes` back to `undefined`. A present `notes` always holds a
  string; the only caller sends a string.
- BookAppointment.WithField: the field is one of the six form keys; `handleInputChange` with
  any other key would add an unused property, which is not modelled.
- The mount effect's timing: `LoadMockAppointments` is a separate step after construction.
- The browser's form validation in the booking form: the `required` name, phone and e-mail
  inputs, `type="email"` and the submit button disabled without a user
  (src/components/BookAppointment.tsx:139-163, 248). `Decide` models only what `handleSubmit` checks.
- `window.open` and the browser's `confirm` dialog. The answer is the `confirmed` input.
- Authorization inside the store: the source has none, so the model has none.
