/** The booking form of src/components/BookAppointment.tsx: its form state, the field update
    handler, and the three-way guard of `handleSubmit`. */
module BookAppointment {
  import opened Types
  import opened App

  /** `formData`. */
  datatype FormData = FormData(name: string, email: string, phone: string, service: string, time: string, notes: string)

  /** The six keys `handleInputChange` is called with. */
  datatype Field = Name | Email | Phone | Service | Time | Notes

  /** The value the form holds for a field. */
  function Get(f: FormData, field: Field): string
  {
    match field
    case Name => f.name
    case Email => f.email
    case Phone => f.phone
    case Service => f.service
    case Time => f.time
    case Notes => f.notes
  }

  /** `{ ...prev, [field]: value }`: the named field takes the value, every other keeps its own. */
  function WithField(f: FormData, field: Field, value: string): (r: FormData)
    ensures Get(r, field) == value
    ensures forall other: Field :: other != field ==> Get(r, other) == Get(f, other)
  {
    match field
    case Name => f.(name := value)
    case Email => f.(email := value)
    case Phone => f.(phone := value)
    case Service => f.(service := value)
    case Time => f.(time := value)
    case Notes => f.(notes := value)
  }

  /** The initial `formData`: name and e-mail from the signed-in user (or '' without one),
      everything else empty. */
  function InitialForm(user: Option<User>): (f: FormData)
    ensures user.Some? ==> f.name == user.value.name && f.email == user.value.email
    ensures user.None? ==> f.name == "" && f.email == ""
    ensures f.phone == "" && f.service == "" && f.time == "" && f.notes == ""
  {
    if user.Some? then FormData(user.value.name, user.value.email, "", "", "", "")
    else FormData("", "", "", "", "", "")
  }

  /** What `handleSubmit` decides to do. */
  datatype Decision = NeedLogin | MissingFields | Book(draft: Draft)

  /** The guard of `handleSubmit`, and the draft it builds. `date` is the selected day,
      already formatted as yyyy-MM-dd. */
  function Decide(user: Option<User>, form: FormData, date: Option<string>): (d: Decision)
    ensures d.NeedLogin? <==> user.None?
    ensures d.MissingFields? <==> user.Some? && (date.None? || form.service == "" || form.time == "")
    ensures d.Book? ==>
      d.draft.userId == user.value.id && d.draft.date == date.value &&
      d.draft.userName == form.name && d.draft.userEmail == form.email && d.draft.userPhone == form.phone &&
      d.draft.service == form.service && d.draft.time == form.time && d.draft.notes == Some(form.notes)
  {
    if user.None? then NeedLogin
    else if date.None? || form.service == "" || form.time == "" then MissingFields
    else Book(Draft(user.value.id, form.name, form.email, form.phone, form.service, date.value, form.time, Some(form.notes)))
  }

  /** `handleSubmit` does not check name, e-mail or phone: once a signed-in user has a date, a
      service and a time, its guard lets the booking through whatever those three hold. */
  lemma ContactFieldsNotRequired(u: User, form: FormData, date: string)
    requires form.service != "" && form.time != ""
    ensures Decide(Some(u), form.(name := "", email := "", phone := ""), Some(date)).Book?
  {
  }

  /** A booking that goes through lands on its owner's dashboard, among the upcoming ones. */
  lemma BookedShowsOnDashboard(apts: seq<Appointment>, u: User, form: FormData, date: Option<string>,
                               now: nat, createdAt: string, isLoginMode: bool)
    requires Decide(Some(u), form, date).Book?
    ensures var a := NewAppointment(Decide(Some(u), form, date).draft, now, createdAt);
            var v := RenderPage(Some(u), UserDashboardPage, isLoginMode, apts + [a]);
            v.UserDashboardView? && a in v.appointments && a.status == Pending
  {
    var a := NewAppointment(Decide(Some(u), form, date).draft, now, createdAt);
    assert (apts + [a])[|apts|] == a;
  }

  /** The form component's state. */
  class Form {
    var formData: FormData
    var selectedDate: Option<string>

    /** Mounting the form for `user`. */
    constructor (user: Option<User>)
      ensures formData == InitialForm(user) && selectedDate.None?
    {
      formData := InitialForm(user);
      selectedDate := None;
    }

    /** `handleInputChange`. */
    method HandleInputChange(field: Field, value: string)
      modifies this
      ensures formData == WithField(old(formData), field, value)
      ensures selectedDate == old(selectedDate)
    {
      formData := WithField(formData, field, value);
    }

    /** The calendar's `onSelect`. */
    method SelectDate(date: Option<string>)
      modifies this
      ensures selectedDate == date && formData == old(formData)
    {
      selectedDate := date;
    }

    /** `handleSubmit`, with the controller's session as the `user` prop and its handlers as
        `onAddAppointment` and `onNavigate`: go to login without a session; stop when a required
        field is missing; otherwise add the draft and go to the user dashboard. */
    method HandleSubmit(app: Controller, now: nat, createdAt: string) returns (d: Decision)
      modifies app
      ensures d == Decide(old(app.user), formData, selectedDate)
      ensures d.NeedLogin? ==> app.currentPage == LoginPage && app.appointments == old(app.appointments)
      ensures d.MissingFields? ==> app.currentPage == old(app.currentPage) && app.appointments == old(app.appointments)
      ensures d.Book? ==>
        app.appointments == old(app.appointments) + [NewAppointment(d.draft, now, createdAt)] &&
        app.currentPage == UserDashboardPage
      ensures app.user == old(app.user) && app.isLoginMode == old(app.isLoginMode)
    {
      d := Decide(app.user, formData, selectedDate);
      match d
      case NeedLogin =>
        app.Navigate(LoginPage);
      case MissingFields =>
      case Book(draft) =>
        app.AddAppointment(draft, now, createdAt);
        app.Navigate(UserDashboardPage);
    }
  }
}
