/**
  `ClientDetailView`: the client shown (the live copy when the list has one),
  the appointment list under the selected filter, and the day and month a
  compact appointment row prints. "Today" is a parameter, as the
  "yyyy-MM-dd" string the view compares dates with.
*/
module ClientDetailView {
  import opened Wrappers
  import opened Text
  import opened Uuids
  import opened ClientModel
  import opened AppointmentModel
  import opened Formatting
  import opened ListOps
  import opened Sorting

  datatype AppointmentFilter = Upcoming | Past | All

  function FilterRawValue(f: AppointmentFilter): string {
    match f
    case Upcoming => "Prossimi"
    case Past => "Passati"
    case All => "Tutti"
  }

  /** The filter titles tell the filters apart. */
  lemma FilterTitlesDistinct(f: AppointmentFilter, g: AppointmentFilter)
    requires f != g
    ensures FilterRawValue(f) != FilterRawValue(g)
  {
  }

  /** `{ $0.id == id }` */
  function HasId(id: Uuid): Client -> bool {
    (c: Client) => c.id == Some(id)
  }

  /** `client`: the first listed client with the initial client's id, else the initial client. */
  function ShownClient(initial: Client, clients: seq<Client>): (r: Client)
    ensures initial.id.None? ==> r == initial
    ensures initial.id.Some? && FirstIndex(clients, HasId(initial.id.value)).None? ==> r == initial
    ensures initial.id.Some? && FirstIndex(clients, HasId(initial.id.value)).Some? ==>
      r == clients[FirstIndex(clients, HasId(initial.id.value)).value] && r.id == initial.id
  {
    if initial.id.None? then initial
    else
      match FirstIndex(clients, HasId(initial.id.value))
      case Some(k) => clients[k]
      case None => initial
  }

  // ---------------------------------------------------------------- filteredAppointments

  /** `$0.date >= today && $0.status != .cancelled`: a missing status counts as not cancelled. */
  function IsUpcoming(today: string): Appointment -> bool {
    (a: Appointment) => !StrLess(a.date, today) && a.status != Some(Cancelled)
  }

  /** `$0.date < today` */
  function IsPast(today: string): Appointment -> bool {
    (a: Appointment) => StrLess(a.date, today)
  }

  /** `($0.date, $0.startTime) < ($1.date, $1.startTime)`: Swift's tuple order, date first. */
  predicate DateTimeLess(a: Appointment, b: Appointment) {
    if a.date != b.date then StrLess(a.date, b.date) else StrLess(a.startTime, b.startTime)
  }

  lemma DateTimeTrichotomy(a: Appointment, b: Appointment)
    ensures DateTimeLess(a, b) || (a.date == b.date && a.startTime == b.startTime) || DateTimeLess(b, a)
  {
    StrLessTrichotomy(a.date, b.date);
    StrLessTrichotomy(a.startTime, b.startTime);
  }

  lemma DateTimeTransitive(a: Appointment, b: Appointment, c: Appointment)
    requires DateTimeLess(a, b) && DateTimeLess(b, c)
    ensures DateTimeLess(a, c)
  {
    if a.date != b.date && b.date != c.date {
      StrLessTransitive(a.date, b.date, c.date);
      if a.date == c.date {
        StrLessIrreflexive(a.date);
      }
    } else if a.date == b.date && b.date == c.date {
      StrLessTransitive(a.startTime, b.startTime, c.startTime);
    }
  }

  lemma DateTimeAsymmetric(a: Appointment, b: Appointment)
    requires DateTimeLess(a, b)
    ensures !DateTimeLess(b, a)
  {
    if a.date != b.date {
      StrLessAsymmetric(a.date, b.date);
    } else {
      StrLessAsymmetric(a.startTime, b.startTime);
    }
  }

  lemma DateTimeNegativeTransitive(a: Appointment, b: Appointment, c: Appointment)
    requires !DateTimeLess(a, b) && !DateTimeLess(b, c)
    ensures !DateTimeLess(a, c)
  {
    DateTimeTrichotomy(a, b);
    DateTimeTrichotomy(b, c);
    if DateTimeLess(b, a) && DateTimeLess(c, b) {
      DateTimeTransitive(c, b, a);
      DateTimeAsymmetric(c, a);
    } else if a.date == b.date && a.startTime == b.startTime {
      assert DateTimeLess(a, c) == DateTimeLess(b, c);
    } else {
      assert DateTimeLess(a, c) == DateTimeLess(a, b);
    }
  }

  /** Both directions of the date-and-time order are orders `sorted(by:)` accepts. */
  lemma DateTimeOrders(ascending: (Appointment, Appointment) -> bool, descending: (Appointment, Appointment) -> bool)
    requires forall a, b :: ascending(a, b) == DateTimeLess(a, b)
    requires forall a, b :: descending(a, b) == DateTimeLess(b, a)
    ensures StrictWeakOrder(ascending) && StrictWeakOrder(descending)
  {
    forall a: Appointment
      ensures !DateTimeLess(a, a)
    {
      StrLessIrreflexive(a.startTime);
    }
    forall a: Appointment, b: Appointment, c: Appointment | DateTimeLess(a, b) && DateTimeLess(b, c)
      ensures DateTimeLess(a, c)
    {
      DateTimeTransitive(a, b, c);
    }
    forall a: Appointment, b: Appointment, c: Appointment | !DateTimeLess(a, b) && !DateTimeLess(b, c)
      ensures !DateTimeLess(a, c)
    {
      DateTimeNegativeTransitive(a, b, c);
    }
  }

  /** `{ ($0.date, $0.startTime) < ($1.date, $1.startTime) }` */
  function Earlier(): (less: (Appointment, Appointment) -> bool)
    ensures StrictWeakOrder(less)
    ensures forall a, b :: less(a, b) == DateTimeLess(a, b)
  {
    var less := (a: Appointment, b: Appointment) => DateTimeLess(a, b);
    DateTimeOrders(less, (a: Appointment, b: Appointment) => DateTimeLess(b, a));
    less
  }

  /** `{ ($0.date, $0.startTime) > ($1.date, $1.startTime) }` */
  function Later(): (less: (Appointment, Appointment) -> bool)
    ensures StrictWeakOrder(less)
    ensures forall a, b :: less(a, b) == DateTimeLess(b, a)
  {
    var less := (a: Appointment, b: Appointment) => DateTimeLess(b, a);
    DateTimeOrders((a: Appointment, b: Appointment) => DateTimeLess(a, b), less);
    less
  }

  /** The `.upcoming` list: the appointments from today on that are not cancelled, soonest first. */
  function UpcomingAppointments(appointments: seq<Appointment>, today: string): (r: seq<Appointment>)
    ensures SortedBy(r, Earlier())
    ensures forall i :: 0 <= i < |r| ==> !StrLess(r[i].date, today) && r[i].status != Some(Cancelled)
    ensures forall a :: multiset(r)[a] == if IsUpcoming(today)(a) then multiset(appointments)[a] else 0
  {
    var kept := Filter(appointments, IsUpcoming(today));
    FilterCountsAll(appointments, IsUpcoming(today));
    var r := SortBy(kept, Earlier());
    assert forall i :: 0 <= i < |r| ==> r[i] in multiset(kept);
    r
  }

  /** The `.past` list: the appointments before today, cancelled ones included, latest first. */
  function PastAppointments(appointments: seq<Appointment>, today: string): (r: seq<Appointment>)
    ensures SortedBy(r, Later())
    ensures forall i :: 0 <= i < |r| ==> StrLess(r[i].date, today)
    ensures forall a :: multiset(r)[a] == if IsPast(today)(a) then multiset(appointments)[a] else 0
  {
    var kept := Filter(appointments, IsPast(today));
    FilterCountsAll(appointments, IsPast(today));
    var r := SortBy(kept, Later());
    assert forall i :: 0 <= i < |r| ==> r[i] in multiset(kept);
    r
  }

  /** `filteredAppointments`: by the selected filter; `.all` is the list as loaded. */
  function FilteredAppointments(appointments: seq<Appointment>, filter: AppointmentFilter, today: string)
    : seq<Appointment>
  {
    match filter
    case Upcoming => UpcomingAppointments(appointments, today)
    case Past => PastAppointments(appointments, today)
    case All => appointments
  }

  /**
    No appointment is both upcoming and past; every appointment that is not
    cancelled is one or the other; `.all` shows the list as loaded.
  */
  lemma FiltersPartition(appointments: seq<Appointment>, today: string, a: Appointment)
    ensures !(a in FilteredAppointments(appointments, Upcoming, today)
              && a in FilteredAppointments(appointments, Past, today))
    ensures a in appointments && a.status != Some(Cancelled) ==>
      a in FilteredAppointments(appointments, Upcoming, today) || a in FilteredAppointments(appointments, Past, today)
    ensures FilteredAppointments(appointments, All, today) == appointments
  {
    var up := UpcomingAppointments(appointments, today);
    var past := PastAppointments(appointments, today);
    assert FilteredAppointments(appointments, Upcoming, today) == up;
    assert FilteredAppointments(appointments, Past, today) == past;
    var isUp := IsUpcoming(today)(a);
    var isPast := IsPast(today)(a);
    assert isUp ==> !isPast;
    assert a.status != Some(Cancelled) ==> isUp || isPast;
    assert multiset(up)[a] == if isUp then multiset(appointments)[a] else 0;
    assert multiset(past)[a] == if isPast then multiset(appointments)[a] else 0;
  }

  // ---------------------------------------------------------------- AppointmentRowCompact

  /** Month abbreviations indexed by month number; index 0 is unused. */
  const MonthAbbreviations: seq<string> :=
    ["", "Gen", "Feb", "Mar", "Apr", "Mag", "Giu", "Lug", "Ago", "Set", "Ott", "Nov", "Dic"]

  /** `dayString`: the third hyphen-separated piece as it is, or "" without exactly three pieces. */
  function DayString(date: string): (r: string)
    ensures r != "" <==> |Split(date, '-')| == 3
    ensures |Split(date, '-')| == 3 ==> r == Split(date, '-')[2]
  {
    var components := Split(date, '-');
    if |components| == 3 then components[2] else ""
  }

  /** `monthString`: the abbreviation of an integer month in 1...12, or "". */
  function MonthString(date: string): (r: string)
    ensures r != "" <==> |Split(date, '-')| == 3 && ParseInt(Split(date, '-')[1]).Some?
                         && 1 <= ParseInt(Split(date, '-')[1]).value <= 12
    ensures r != "" ==> r == MonthAbbreviations[ParseInt(Split(date, '-')[1]).value]
  {
    var components := Split(date, '-');
    if |components| != 3 then ""
    else
      match ParseInt(components[1])
      case Some(m) => if 1 <= m <= 12 then MonthAbbreviations[m] else ""
      case None => ""
  }

  /** On the ISO layout the server sends, the row shows the day as sent and the month's abbreviation. */
  lemma RowDateOfIsoDay(year: string, month: nat, day: nat)
    requires year != [] && '-' !in year
    requires 1 <= month <= 12 && day < 100
    ensures DayString(year + "-" + Pad2(month) + "-" + Pad2(day)) == Pad2(day)
    ensures MonthString(year + "-" + Pad2(month) + "-" + Pad2(day)) == MonthAbbreviations[month]
  {
    DigitsValueOfPad2(month);
    assert ParseInt(Pad2(month)) == Some(month as int);
    SplitDate(year, Pad2(month), Pad2(day));
  }

  /** Without exactly three pieces the row shows neither day nor month. */
  lemma RowDateRejectsShape(date: string)
    requires |Split(date, '-')| != 3
    ensures DayString(date) == "" && MonthString(date) == ""
  {
  }
}
