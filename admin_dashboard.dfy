/** The administrator dashboard of src/components/AdminDashboard.tsx: the searchable,
    status-filtered list, the statistics cards, and the edit and delete handlers that call
    back into the controller. */
module AdminDashboard {
  import opened Types
  import opened Text
  import opened Seqs
  import opened App

  /** The lower-cased search term is a substring of the lower-cased name, e-mail or service. */
  predicate SearchHit(a: Appointment, term: string)
  {
    || Includes(Lower(a.userName), Lower(term))
    || Includes(Lower(a.userEmail), Lower(term))
    || Includes(Lower(a.service), Lower(term))
  }

  /** `statusFilter === 'all' || appointment.status === statusFilter`. */
  predicate StatusMatches(a: Appointment, statusFilter: string)
  {
    statusFilter == "all" || StatusName(a.status) == statusFilter
  }

  function Matches(term: string, statusFilter: string): Appointment -> bool
  {
    (a: Appointment) => SearchHit(a, term) && StatusMatches(a, statusFilter)
  }

  /** `filteredAppointments`: the records that match both the search and the status filter,
      in their original order. */
  function FilteredAppointments(apts: seq<Appointment>, term: string, statusFilter: string): (r: seq<Appointment>)
    ensures Subseq(r, apts)
    ensures forall i :: 0 <= i < |r| ==>
      r[i] in apts && SearchHit(r[i], term) && (statusFilter == "all" || StatusName(r[i].status) == statusFilter)
    ensures forall i :: 0 <= i < |apts| && SearchHit(apts[i], term) && StatusMatches(apts[i], statusFilter) ==>
      apts[i] in r
    ensures forall x ::
      multiset(r)[x] == if SearchHit(x, term) && StatusMatches(x, statusFilter) then multiset(apts)[x] else 0
  {
    FilterIsSubseq(apts, Matches(term, statusFilter));
    FilterMultiset(apts, Matches(term, statusFilter));
    Filter(apts, Matches(term, statusFilter))
  }

  /** With an empty search and status "all" (the initial state) the whole list is shown. */
  lemma ShowsAllInitially(apts: seq<Appointment>)
    ensures FilteredAppointments(apts, "", "all") == apts
  {
    assert Lower("") == "";
    forall i | 0 <= i < |apts| ensures Matches("", "all")(apts[i]) {
      IncludesEmpty(Lower(apts[i].userName));
    }
    FilterAll(apts, Matches("", "all"));
  }

  /** Filtering on a status keeps only records with that status. */
  lemma FilterByStatus(apts: seq<Appointment>, term: string, st: Status)
    ensures forall i :: 0 <= i < |FilteredAppointments(apts, term, StatusName(st))| ==>
      FilteredAppointments(apts, term, StatusName(st))[i].status == st
  {
    var r := FilteredAppointments(apts, term, StatusName(st));
    forall i | 0 <= i < |r| ensures r[i].status == st {
      StatusNameInjective(st, r[i].status);
    }
  }

  /** A status filter that is neither "all" nor a status name shows nothing. */
  lemma UnknownStatusShowsNothing(apts: seq<Appointment>, term: string, statusFilter: string)
    requires statusFilter != "all" && ParseStatus(statusFilter).None?
    ensures FilteredAppointments(apts, term, statusFilter) == []
  {
    forall i | 0 <= i < |apts| ensures !Matches(term, statusFilter)(apts[i]) {
      ParseStatusName(apts[i].status);
    }
    FilterNone(apts, Matches(term, statusFilter));
  }

  /** The search ignores the case of ASCII letters in the search term. */
  lemma SearchIgnoresCase(apts: seq<Appointment>, term: string, statusFilter: string)
    ensures FilteredAppointments(apts, Lower(term), statusFilter) == FilteredAppointments(apts, term, statusFilter)
  {
    LowerIsLower(term);
    FilterExtensional(apts, Matches(Lower(term), statusFilter), Matches(term, statusFilter));
  }

  /** Two search terms differing only in the case of ASCII letters select the same records. */
  lemma CaseVariantsSearchAlike(apts: seq<Appointment>, t1: string, t2: string, statusFilter: string)
    requires |t1| == |t2|
    requires forall i :: 0 <= i < |t1| ==> SameLetter(t1[i], t2[i])
    ensures FilteredAppointments(apts, t1, statusFilter) == FilteredAppointments(apts, t2, statusFilter)
  {
    SameLetterLower(t1, t2);
    FilterExtensional(apts, Matches(t1, statusFilter), Matches(t2, statusFilter));
  }

  /** The number of records with exactly the status `st`. */
  function CountStatus(apts: seq<Appointment>, st: Status): (n: nat)
    ensures n <= |apts|
  {
    |Filter(apts, HasStatus(st))|
  }

  /** Counting peels off the first record. */
  lemma CountStatusStep(apts: seq<Appointment>, st: Status)
    requires apts != []
    ensures CountStatus(apts, st) == (if apts[0].status == st then 1 else 0) + CountStatus(apts[1..], st)
  {
  }

  /** The status of each record, in order. */
  function Statuses(apts: seq<Appointment>): seq<Status>
  {
    seq(|apts|, i requires 0 <= i < |apts| => apts[i].status)
  }

  /** Counting a status among the statuses peels off the first record. */
  lemma StatusesStep(apts: seq<Appointment>, st: Status)
    requires apts != []
    ensures multiset(Statuses(apts))[st] == (if apts[0].status == st then 1 else 0) + multiset(Statuses(apts[1..]))[st]
  {
    var rest := Statuses(apts[1..]);
    assert Statuses(apts) == [apts[0].status] + rest;
  }

  /** CountStatus is the number of times `st` occurs among the records' statuses. */
  lemma {:induction false} CountStatusOccurrences(apts: seq<Appointment>, st: Status)
    ensures CountStatus(apts, st) == multiset(Statuses(apts))[st]
  {
    if apts != [] {
      CountStatusOccurrences(apts[1..], st);
      CountStatusStep(apts, st);
      StatusesStep(apts, st);
    }
  }

  /** The five counts together cover every record exactly once. */
  lemma {:induction false} StatusCountsCover(apts: seq<Appointment>)
    ensures CountStatus(apts, Pending) + CountStatus(apts, Confirmed) + CountStatus(apts, InProgress)
            + CountStatus(apts, Completed) + CountStatus(apts, Cancelled) == |apts|
  {
    if apts != [] {
      StatusCountsCover(apts[1..]);
      CountStatusStep(apts, Pending);
      CountStatusStep(apts, Confirmed);
      CountStatusStep(apts, InProgress);
      CountStatusStep(apts, Completed);
      CountStatusStep(apts, Cancelled);
    }
  }

  /** The statistics cards. */
  datatype Stats = Stats(total: nat, pending: nat, confirmed: nat, inProgress: nat, completed: nat)

  /** `stats`: the total, and the count of each status but cancelled, which has no card; so
      the four counts add up to the total less the cancelled records. */
  function ComputeStats(apts: seq<Appointment>): (r: Stats)
    ensures r.total == |apts|
    ensures r.pending == multiset(Statuses(apts))[Pending]
    ensures r.confirmed == multiset(Statuses(apts))[Confirmed]
    ensures r.inProgress == multiset(Statuses(apts))[InProgress]
    ensures r.completed == multiset(Statuses(apts))[Completed]
    ensures r.pending + r.confirmed + r.inProgress + r.completed + CountStatus(apts, Cancelled) == r.total
    ensures r.pending + r.confirmed + r.inProgress + r.completed <= r.total
  {
    StatusCountsCover(apts);
    CountStatusOccurrences(apts, Pending);
    CountStatusOccurrences(apts, Confirmed);
    CountStatusOccurrences(apts, InProgress);
    CountStatusOccurrences(apts, Completed);
    Stats(|apts|, CountStatus(apts, Pending), CountStatus(apts, Confirmed),
          CountStatus(apts, InProgress), CountStatus(apts, Completed))
  }

  /** The edit dialog's form; `status` is a string, as in the source. */
  datatype EditForm = EditForm(date: string, time: string, status: string, notes: string)

  /** `appointment.notes || ''`. */
  function NotesOrEmpty(notes: Option<string>): string
  {
    if notes.Some? then notes.value else ""
  }

  /** The form `handleEdit` fills in from an appointment. */
  function SeedForm(a: Appointment): (f: EditForm)
    ensures ParseStatus(f.status) == Some(a.status)
  {
    ParseStatusName(a.status);
    EditForm(a.date, a.time, StatusName(a.status), NotesOrEmpty(a.notes))
  }

  /** The patch `handleSaveEdit` sends: exactly date, time, status and notes. */
  function EditPatch(f: EditForm): (p: Patch)
    requires ParseStatus(f.status).Some?
    ensures p.date == Some(f.date) && p.time == Some(f.time) && p.notes == Some(f.notes)
    ensures p.status.Some? && StatusName(p.status.value) == f.status
    ensures p.id.None? && p.userId.None? && p.userName.None? && p.userEmail.None?
    ensures p.userPhone.None? && p.service.None? && p.createdAt.None?
  {
    Patch(None, None, None, None, None, None, Some(f.date), Some(f.time), ParseStatus(f.status), Some(f.notes), None)
  }

  /** Saving an edit keeps the identity, owner, contact details, service and creation time. */
  lemma EditKeepsIdentity(a: Appointment, f: EditForm)
    requires ParseStatus(f.status).Some?
    ensures Merge(a, EditPatch(f)).(date := a.date, time := a.time, status := a.status, notes := a.notes) == a
    ensures Merge(a, EditPatch(f)).date == f.date && Merge(a, EditPatch(f)).time == f.time
    ensures StatusName(Merge(a, EditPatch(f)).status) == f.status
    ensures Merge(a, EditPatch(f)).notes == Some(f.notes)
  {
  }

  /** Opening the editor and saving without a change gives back the appointment, except that
      missing notes come back as the empty string. */
  lemma SaveUnchangedEdit(a: Appointment)
    ensures Merge(a, EditPatch(SeedForm(a))) == a.(notes := Some(NotesOrEmpty(a.notes)))
  {
    ParseStatusName(a.status);
  }

  /** The dashboard's local state. */
  class Dashboard {
    var searchTerm: string
    var statusFilter: string
    var editing: Option<Appointment>
    var editForm: EditForm

    /** While an appointment is being edited the form's status names a status (which is what
        makes the source's `as any` cast harmless). */
    ghost predicate Valid()
      reads this
    {
      editing.Some? ==> ParseStatus(editForm.status).Some?
    }

    constructor ()
      ensures Valid()
      ensures searchTerm == "" && statusFilter == "all" && editing.None? && editForm == EditForm("", "", "", "")
      ensures forall apts :: Visible(apts) == apts
    {
      searchTerm := "";
      statusFilter := "all";
      editing := None;
      editForm := EditForm("", "", "", "");
      new;
      forall apts ensures Visible(apts) == apts {
        ShowsAllInitially(apts);
      }
    }

    /** The list the dashboard shows for the given props. */
    function Visible(apts: seq<Appointment>): seq<Appointment>
      reads this
    {
      FilteredAppointments(apts, searchTerm, statusFilter)
    }

    method SetSearchTerm(term: string)
      requires Valid()
      modifies this
      ensures Valid() && searchTerm == term
      ensures statusFilter == old(statusFilter) && editing == old(editing) && editForm == old(editForm)
    {
      searchTerm := term;
    }

    method SetStatusFilter(filter: string)
      requires Valid()
      modifies this
      ensures Valid() && statusFilter == filter
      ensures searchTerm == old(searchTerm) && editing == old(editing) && editForm == old(editForm)
    {
      statusFilter := filter;
    }

    /** `handleEdit`. */
    method HandleEdit(a: Appointment)
      modifies this
      ensures Valid() && editing == Some(a) && editForm == SeedForm(a)
      ensures editForm == EditForm(a.date, a.time, StatusName(a.status), NotesOrEmpty(a.notes))
      ensures searchTerm == old(searchTerm) && statusFilter == old(statusFilter)
    {
      editing := Some(a);
      editForm := SeedForm(a);
    }

    method SetEditDate(date: string)
      requires Valid()
      modifies this
      ensures Valid() && editForm == old(editForm).(date := date)
      ensures searchTerm == old(searchTerm) && statusFilter == old(statusFilter) && editing == old(editing)
    {
      editForm := editForm.(date := date);
    }

    method SetEditTime(time: string)
      requires Valid()
      modifies this
      ensures Valid() && editForm == old(editForm).(time := time)
      ensures searchTerm == old(searchTerm) && statusFilter == old(statusFilter) && editing == old(editing)
    {
      editForm := editForm.(time := time);
    }

    /** The status select offers exactly the five statuses. */
    method SetEditStatus(status: Status)
      requires Valid()
      modifies this
      ensures Valid() && editForm == old(editForm).(status := StatusName(status))
      ensures searchTerm == old(searchTerm) && statusFilter == old(statusFilter) && editing == old(editing)
    {
      ParseStatusName(status);
      editForm := editForm.(status := StatusName(status));
    }

    method SetEditNotes(notes: string)
      requires Valid()
      modifies this
      ensures Valid() && editForm == old(editForm).(notes := notes)
      ensures searchTerm == old(searchTerm) && statusFilter == old(statusFilter) && editing == old(editing)
    {
      editForm := editForm.(notes := notes);
    }

    /** `handleSaveEdit`: nothing without an appointment under edit; otherwise one update of
        that appointment's id with the edit patch, then `editingAppointment` is cleared (the
        dialog itself has no `open` prop and stays open). */
    method HandleSaveEdit(app: Controller)
      requires Valid()
      modifies this, app
      ensures Valid()
      ensures old(editing).None? ==> app.appointments == old(app.appointments) && editing.None?
      ensures old(editing).Some? ==>
        app.appointments == Updated(old(app.appointments), old(editing).value.id, EditPatch(old(editForm))) &&
        editing.None?
      ensures app.currentPage == old(app.currentPage) && app.user == old(app.user)
      ensures app.isLoginMode == old(app.isLoginMode)
      ensures searchTerm == old(searchTerm) && statusFilter == old(statusFilter) && editForm == old(editForm)
    {
      if editing.None? {
        return;
      }
      app.UpdateAppointment(editing.value.id, EditPatch(editForm));
      editing := None;
    }

    /** `handleDelete`: the appointment goes only when the confirmation is accepted. */
    method HandleDelete(app: Controller, id: string, confirmed: bool)
      modifies app
      ensures confirmed ==> app.appointments == Removed(old(app.appointments), id)
      ensures !confirmed ==> app.appointments == old(app.appointments)
      ensures app.currentPage == old(app.currentPage) && app.user == old(app.user)
      ensures app.isLoginMode == old(app.isLoginMode)
    {
      if confirmed {
        app.DeleteAppointment(id);
      }
    }
  }
}
