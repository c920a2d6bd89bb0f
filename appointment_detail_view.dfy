/**
  `AppointmentDetailView`: the appointment shown (the live copy when the
  list has one), its status colour, its date in Italian, and the phone
  number and reminder text of the WhatsApp link.
*/
module AppointmentDetailView {
  import opened Wrappers
  import opened Text
  import opened Uuids
  import opened ClientModel
  import opened ServiceModel
  import opened AppointmentModel
  import opened Formatting
  import opened ListOps

  /** `{ $0.id == appointmentId }` */
  function HasId(id: Uuid): Appointment -> bool {
    (a: Appointment) => a.id == Some(id)
  }

  /** `appointment`: the first listed appointment with the id, else the one the view was opened with. */
  function ShownAppointment(id: Uuid, initial: Appointment, appointments: seq<Appointment>): (r: Appointment)
    ensures FirstIndex(appointments, HasId(id)).None? ==> r == initial
    ensures FirstIndex(appointments, HasId(id)).Some? ==>
      r == appointments[FirstIndex(appointments, HasId(id)).value] && r.id == Some(id)
  {
    match FirstIndex(appointments, HasId(id))
    case Some(k) => appointments[k]
    case None => initial
  }

  /** `statusColor` */
  function StatusColor(status: Option<AppointmentStatus>): string {
    match status
    case Some(Scheduled) => "blue"
    case Some(Rescheduled) => "orange"
    case Some(Cancelled) => "red"
    case None => "gray"
  }

  /** A status shows in the colour the status itself names; no status is gray, a colour no status has. */
  lemma StatusColorAgrees(status: Option<AppointmentStatus>)
    ensures status.Some? ==> StatusColor(status) == ColorName(status.value)
    ensures status.None? <==> StatusColor(status) == "gray"
  {
  }

  /** The month names of `formattedDate`, a copy of the shared table. */
  const DetailMonths: seq<string> := [
    "", "Gennaio", "Febbraio", "Marzo", "Aprile", "Maggio", "Giugno",
    "Luglio", "Agosto", "Settembre", "Ottobre", "Novembre", "Dicembre"
  ]

  /** `formattedDate`: the view's own copy of the Italian date rendering. */
  function FormattedDate(date: string): string {
    var components := Split(date, '-');
    if |components| != 3 then date
    else
      match ParseInt(components[2])
      case None => date
      case Some(day) =>
        match ParseInt(components[1])
        case None => date
        case Some(month) =>
          if month < 1 || month > 12 then date
          else IntToString(day) + " " + DetailMonths[month] + " " + components[0]
  }

  /** The copy agrees with `DateFormatting.italianDate` on every input. */
  lemma FormattedDateIsItalianDate(date: string)
    ensures FormattedDate(date) == ItalianDate(date)
  {
    assert DetailMonths == ItalianMonths;
  }

  // ---------------------------------------------------------------- phone number

  function IsDigitChar(): char -> bool {
    (c: char) => IsDigit(c)
  }

  /** `components(separatedBy: CharacterSet.decimalDigits.inverted)`: the digit runs, empty ones included. */
  function DigitComponents(s: string): (r: seq<string>)
    ensures |r| >= 1
  {
    if s == [] then [""]
    else
      var rest := DigitComponents(s[1..]);
      if IsDigit(s[0]) then [[s[0]] + rest[0]] + rest[1..] else [""] + rest
  }

  /** `joined()` */
  function Joined(pieces: seq<string>): string {
    if pieces == [] then "" else pieces[0] + Joined(pieces[1..])
  }

  /** `cleanPhoneNumber(_:)` */
  function CleanPhoneNumber(phone: string): string {
    Joined(DigitComponents(phone))
  }

  /** Cleaning keeps exactly the digits of the number, in their order. */
  lemma {:induction false} CleanPhoneNumberKeepsDigits(phone: string)
    ensures CleanPhoneNumber(phone) == Filter(phone, IsDigitChar())
  {
    if phone != [] {
      CleanPhoneNumberKeepsDigits(phone[1..]);
      var rest := DigitComponents(phone[1..]);
      assert Joined(rest) == rest[0] + Joined(rest[1..]);
      if IsDigit(phone[0]) {
        var pieces := [[phone[0]] + rest[0]] + rest[1..];
        assert pieces[1..] == rest[1..];
        assert Joined(pieces) == [phone[0]] + Joined(rest);
      } else {
        var pieces := [""] + rest;
        assert pieces[1..] == rest;
        assert Joined(pieces) == Joined(rest);
      }
    }
  }

  /** A cleaned number is all digits, and cleaning it again changes nothing. */
  lemma CleanPhoneNumberIdempotent(phone: string)
    ensures AllDigits(CleanPhoneNumber(phone))
    ensures CleanPhoneNumber(CleanPhoneNumber(phone)) == CleanPhoneNumber(phone)
  {
    var clean := CleanPhoneNumber(phone);
    CleanPhoneNumberKeepsDigits(phone);
    CleanPhoneNumberKeepsDigits(clean);
    FilterEverything(clean, IsDigitChar());
  }

  /** The number the link dials: "39" put in front of a cleaned number of at most ten digits. */
  function WhatsAppNumber(clean: string): (r: string)
    ensures |r| >= |clean| && r[|r| - |clean|..] == clean
    ensures |clean| <= 10 <==> |r| == |clean| + 2
    ensures |clean| <= 10 ==> r[..2] == "39"
    ensures |clean| > 10 ==> r == clean
  {
    if |clean| <= 10 then "39" + clean else clean
  }

  // ---------------------------------------------------------------- reminder text

  /** The opening line, with "Cliente" standing in for a missing client. */
  function Greeting(a: Appointment): string {
    var name := if a.client.Some? then a.client.value.firstName else "Cliente";
    "Ciao " + name + ",\nti ricordo il tuo appuntamento del " + FormattedDate(a.date) + " alle " + a.startTime + "."
  }

  function ServiceLine(s: Service): string {
    "\n- " + s.name + " (" + FormattedPrice(s) + ")"
  }

  /** One line per service, in order. */
  function ServiceLines(services: seq<Service>): (r: seq<string>)
    ensures |r| == |services| && forall i :: 0 <= i < |services| ==> r[i] == ServiceLine(services[i])
  {
    Rendered(services, ServiceLine)
  }

  /** `items.map(render)` */
  function Rendered<T>(items: seq<T>, render: T -> string): (r: seq<string>)
    ensures |r| == |items| && forall i :: 0 <= i < |items| ==> r[i] == render(items[i])
  {
    seq(|items|, i requires 0 <= i < |items| => render(items[i]))
  }

  /** Joining works piece by piece. */
  lemma {:induction false} JoinedAppend(xs: seq<string>, ys: seq<string>)
    ensures Joined(xs + ys) == Joined(xs) + Joined(ys)
  {
    if xs == [] {
      assert xs + ys == ys;
    } else {
      assert (xs + ys)[1..] == xs[1..] + ys;
      JoinedAppend(xs[1..], ys);
    }
  }

  lemma JoinedOne(x: string)
    ensures Joined([x]) == x
  {
    assert [x][1..] == [];
  }

  const ServicesHeading := "\n\nServizi:"
  const Farewell := "\n\nA presto!"

  /** A reminder from its greeting and its service lines: the section appears when there are lines. */
  function Reminder(greeting: string, lines: seq<string>): string {
    greeting + (if lines == [] then "" else ServicesHeading + Joined(lines)) + Farewell
  }

  /** The text of the reminder: greeting, the services section when there are services, the farewell. */
  function ReminderText(a: Appointment): string {
    Reminder(Greeting(a), ServiceLines(if a.services.Some? then a.services.value else []))
  }

  /** Without services the reminder is the greeting and the farewell only. */
  lemma ReminderWithoutServices(a: Appointment)
    requires a.services.None? || a.services == Some([])
    ensures ReminderText(a) == Greeting(a) + Farewell
  {
    assert ServiceLines(if a.services.Some? then a.services.value else []) == [];
  }

  /** Any one line of a reminder sits between the lines before it and the lines after it. */
  lemma ReminderLine(greeting: string, lines: seq<string>, i: nat)
    requires i < |lines|
    ensures Reminder(greeting, lines)
      == greeting + ServicesHeading + Joined(lines[..i]) + lines[i] + Joined(lines[i + 1..]) + Farewell
  {
    assert lines == lines[..i] + [lines[i]] + lines[i + 1..];
    JoinedAppend(lines[..i] + [lines[i]], lines[i + 1..]);
    JoinedAppend(lines[..i], [lines[i]]);
    JoinedOne(lines[i]);
  }

  /** With services, each one's line follows the lines of those before it, and precedes those after it. */
  lemma ReminderListsServices(a: Appointment, i: nat)
    requires a.services.Some? && i < |a.services.value|
    ensures var lines := ServiceLines(a.services.value);
      ReminderText(a) == Greeting(a) + ServicesHeading + Joined(lines[..i]) + ServiceLine(a.services.value[i])
        + Joined(lines[i + 1..]) + Farewell
  {
    ReminderLine(Greeting(a), ServiceLines(a.services.value), i);
  }

  /** Appending one more line to a partial reminder. */
  lemma JoinedSnoc(lines: seq<string>, i: nat)
    requires i < |lines|
    ensures Joined(lines[..i + 1]) == Joined(lines[..i]) + lines[i]
  {
    assert lines[..i + 1] == lines[..i] + [lines[i]];
    JoinedAppend(lines[..i], [lines[i]]);
    JoinedOne(lines[i]);
  }

  /** The loop of `whatsappURL(phone:)`: `msg += render(item)` for each item in turn. */
  method AppendRendered<T>(prefix: string, items: seq<T>, render: T -> string) returns (msg: string)
    ensures msg == prefix + Joined(Rendered(items, render))
  {
    ghost var lines := Rendered(items, render);
    msg := prefix;
    var i := 0;
    while i < |items|
      invariant 0 <= i <= |items|
      invariant msg == prefix + Joined(lines[..i])
    {
      JoinedSnoc(lines, i);
      msg := msg + render(items[i]);
      i := i + 1;
    }
    assert lines[..i] == lines;
  }

  /** `msg` from its greeting: the services section when there are services, then the farewell. */
  method GreetingToFarewell(greeting: string, services: seq<Service>) returns (msg: string)
    ensures msg == Reminder(greeting, ServiceLines(services))
  {
    msg := greeting;
    if services != [] {
      msg := AppendRendered(msg + ServicesHeading, services, ServiceLine);
    } else {
      assert ServiceLines(services) == [];
    }
    msg := msg + Farewell;
  }

  /** The body of `whatsappURL(phone:)` that builds `msg`. */
  method ReminderMessage(a: Appointment) returns (msg: string)
    ensures msg == ReminderText(a)
  {
    msg := GreetingToFarewell(Greeting(a), if a.services.Some? then a.services.value else []);
  }
}
