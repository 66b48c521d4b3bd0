/** The customer dashboard of src/components/UserDashboard.tsx: its split of the user's
    appointments into upcoming and past ones, the completed count, and the badge colour
    for a status. */
module UserDashboard {
  import opened Types
  import opened Seqs

  /** `apt.status !== 'completed' && apt.status !== 'cancelled'`. */
  function IsUpcoming(a: Appointment): bool
  {
    a.status != Completed && a.status != Cancelled
  }

  /** `apt.status === 'completed' || apt.status === 'cancelled'`. */
  function IsPast(a: Appointment): bool
  {
    a.status == Completed || a.status == Cancelled
  }

  /** `upcomingAppointments`: no record in it is completed or cancelled. */
  function Upcoming(apts: seq<Appointment>): (r: seq<Appointment>)
    ensures forall i :: 0 <= i < |r| ==> r[i].status != Completed && r[i].status != Cancelled
  {
    Filter(apts, IsUpcoming)
  }

  /** `pastAppointments`: every record in it is completed or cancelled. */
  function Past(apts: seq<Appointment>): (r: seq<Appointment>)
    ensures forall i :: 0 <= i < |r| ==> r[i].status == Completed || r[i].status == Cancelled
  {
    Filter(apts, IsPast)
  }

  /** Upcoming and past partition the appointments: each one is in exactly one of the two,
      the two sizes add up to the total, and both keep the input order. */
  lemma UpcomingPastPartition(apts: seq<Appointment>)
    ensures forall i :: 0 <= i < |apts| ==> (apts[i] in Upcoming(apts) <==> apts[i] !in Past(apts))
    ensures |Upcoming(apts)| + |Past(apts)| == |apts|
    ensures Subseq(Upcoming(apts), apts) && Subseq(Past(apts), apts)
  {
    FilterComplementLength(apts, IsUpcoming, IsPast);
    FilterIsSubseq(apts, IsUpcoming);
    FilterIsSubseq(apts, IsPast);
  }

  /** The "Completed" card: the number of completed appointments. */
  function CompletedCount(apts: seq<Appointment>): (n: nat)
    ensures n <= |apts|
  {
    |Filter(apts, HasStatus(Completed))|
  }

  /** The completed count never exceeds the number of past appointments. */
  lemma CompletedAtMostPast(apts: seq<Appointment>)
    ensures CompletedCount(apts) <= |Past(apts)|
  {
    FilterMonotone(apts, HasStatus(Completed), IsPast);
  }

  const DefaultClass := "bg-gray-100 text-gray-800"

  /** The badge class of each status. */
  function StatusClass(s: Status): string
  {
    match s
    case Confirmed => "bg-green-100 text-green-800"
    case Pending => "bg-yellow-100 text-yellow-800"
    case InProgress => "bg-blue-100 text-blue-800"
    case Completed => DefaultClass
    case Cancelled => "bg-red-100 text-red-800"
  }

  /** `getStatusColor`: a switch on the status string with a gray default. */
  function GetStatusColor(status: string): (c: string)
    ensures ParseStatus(status).None? ==> c == DefaultClass
    ensures ParseStatus(status).Some? ==> c == StatusClass(ParseStatus(status).value)
  {
    if status == "confirmed" then "bg-green-100 text-green-800"
    else if status == "pending" then "bg-yellow-100 text-yellow-800"
    else if status == "in-progress" then "bg-blue-100 text-blue-800"
    else if status == "completed" then "bg-gray-100 text-gray-800"
    else if status == "cancelled" then "bg-red-100 text-red-800"
    else "bg-gray-100 text-gray-800"
  }

  /** `getStatusColor` is total: a string that names a status gets that status's class, any
      other string the gray default. */
  lemma GetStatusColorSpec(status: string)
    ensures GetStatusColor(status) ==
      match ParseStatus(status)
      case Some(s) => StatusClass(s)
      case None => DefaultClass
  {
  }

  /** Read back through the status names, the switch gives each status its own class. */
  lemma GetStatusColorOfStatus(s: Status)
    ensures GetStatusColor(StatusName(s)) == StatusClass(s)
  {
    GetStatusColorSpec(StatusName(s));
    ParseStatusName(s);
  }
}
