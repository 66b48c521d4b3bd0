/** The records shared by the controller and the components of src/App.tsx:
    `User`, `AppointmentStatus`, `Appointment`, the booking draft
    (`Omit<Appointment, 'id' | 'createdAt' | 'status'>`) and the update patch
    (`Partial<Appointment>`). */
module Types {

  datatype Option<T> = None | Some(value: T)

  datatype Role = UserRole | AdminRole

  /** The session identity (`type User` in src/App.tsx). */
  datatype User = User(id: string, email: string, name: string, role: Role)

  datatype Status = Pending | Confirmed | InProgress | Completed | Cancelled

  /** The string literal a status is written as. */
  function StatusName(s: Status): string
  {
    match s
    case Pending => "pending"
    case Confirmed => "confirmed"
    case InProgress => "in-progress"
    case Completed => "completed"
    case Cancelled => "cancelled"
  }

  /** The status a string names, if it names one. */
  function ParseStatus(name: string): (r: Option<Status>)
    ensures r.Some? ==> StatusName(r.value) == name
  {
    if name == "pending" then Some(Pending)
    else if name == "confirmed" then Some(Confirmed)
    else if name == "in-progress" then Some(InProgress)
    else if name == "completed" then Some(Completed)
    else if name == "cancelled" then Some(Cancelled)
    else None
  }

  /** Every status survives being written out and read back. */
  lemma ParseStatusName(s: Status)
    ensures ParseStatus(StatusName(s)) == Some(s)
  {
  }

  /** The five status names are pairwise distinct, and none of them is the filter value "all". */
  lemma StatusNameInjective(s: Status, t: Status)
    ensures StatusName(s) == StatusName(t) <==> s == t
    ensures StatusName(s) != "all"
  {
    ParseStatusName(s);
    ParseStatusName(t);
  }

  /** One appointment record; `notes` is the optional `notes?` field. */
  datatype Appointment = Appointment(
    id: string,
    userId: string,
    userName: string,
    userEmail: string,
    userPhone: string,
    service: string,
    date: string,
    time: string,
    status: Status,
    notes: Option<string>,
    createdAt: string)

  /** What a booking supplies: an appointment without `id`, `createdAt` and `status`. */
  datatype Draft = Draft(
    userId: string,
    userName: string,
    userEmail: string,
    userPhone: string,
    service: string,
    date: string,
    time: string,
    notes: Option<string>)

  /** `Partial<Appointment>`: every field may be present (Some) or absent (None). */
  datatype Patch = Patch(
    id: Option<string>,
    userId: Option<string>,
    userName: Option<string>,
    userEmail: Option<string>,
    userPhone: Option<string>,
    service: Option<string>,
    date: Option<string>,
    time: Option<string>,
    status: Option<Status>,
    notes: Option<string>,
    createdAt: Option<string>)

  /** The patch with no field present. */
  function EmptyPatch(): Patch
  {
    Patch(None, None, None, None, None, None, None, None, None, None, None)
  }

  /** The draft fields of an appointment. */
  function DraftOf(a: Appointment): Draft
  {
    Draft(a.userId, a.userName, a.userEmail, a.userPhone, a.service, a.date, a.time, a.notes)
  }

  /** The predicate `apt => apt.status === st`. */
  function HasStatus(st: Status): Appointment -> bool
  {
    (a: Appointment) => a.status == st
  }

  /** No two records of `s` share an id. */
  ghost predicate UniqueIds(s: seq<Appointment>)
  {
    forall i, j :: 0 <= i < j < |s| ==> s[i].id != s[j].id
  }

  /** Some record of `s` has id `id`. */
  predicate HasId(s: seq<Appointment>, id: string)
  {
    exists i :: 0 <= i < |s| && s[i].id == id
  }
}
