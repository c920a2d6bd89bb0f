/** `Appointment`, its status and the bodies of the create and update calls. */
module AppointmentModel {
  import opened Wrappers
  import opened Uuids
  import opened ClientModel
  import opened ServiceModel
  import opened Formatting
  import Text

  /** `AppointmentStatus`, a string-backed enum. */
  datatype AppointmentStatus = Scheduled | Cancelled | Rescheduled

  function RawValue(s: AppointmentStatus): string {
    match s
    case Scheduled => "scheduled"
    case Cancelled => "cancelled"
    case Rescheduled => "rescheduled"
  }

  /** `AppointmentStatus(rawValue:)`: the case with that raw value, if any. */
  function StatusFromRaw(raw: string): (r: Option<AppointmentStatus>)
    ensures r.Some? ==> RawValue(r.value) == raw
  {
    if raw == "scheduled" then Some(Scheduled)
    else if raw == "cancelled" then Some(Cancelled)
    else if raw == "rescheduled" then Some(Rescheduled)
    else None
  }

  /** Raw values round-trip, so the status survives encoding and decoding. */
  lemma StatusRawRoundTrip(s: AppointmentStatus)
    ensures StatusFromRaw(RawValue(s)) == Some(s)
  {
  }

  function DisplayName(s: AppointmentStatus): string {
    match s
    case Scheduled => "Programmato"
    case Cancelled => "Cancellato"
    case Rescheduled => "Riprogrammato"
  }

  function IconName(s: AppointmentStatus): string {
    match s
    case Scheduled => "calendar.badge.clock"
    case Cancelled => "xmark.circle.fill"
    case Rescheduled => "arrow.triangle.2.circlepath.circle.fill"
  }

  function ColorName(s: AppointmentStatus): string {
    match s
    case Scheduled => "blue"
    case Cancelled => "red"
    case Rescheduled => "orange"
  }

  /** The three presentations tell the statuses apart. */
  lemma StatusPresentationsDistinct(a: AppointmentStatus, b: AppointmentStatus)
    requires a != b
    ensures DisplayName(a) != DisplayName(b)
    ensures IconName(a) != IconName(b)
    ensures ColorName(a) != ColorName(b)
  {
  }

  datatype Appointment = Appointment(
    id: Option<Uuid>,
    date: string,          // "YYYY-MM-DD"
    startTime: string,     // "HH:MM"
    endTime: Option<string>,
    clientId: Uuid,
    client: Option<Client>,
    services: Option<seq<Service>>,
    serviceIds: Option<seq<Uuid>>,
    totalPrice: Option<int>,
    notes: Option<string>,
    status: Option<AppointmentStatus>)

  /** `formattedTotalPrice`: the total in euros, an absent total counting as zero. */
  function FormattedTotalPrice(a: Appointment): (r: string)
    ensures ParseEuros(r) == Some(a.totalPrice.GetOr(0))
  {
    ParseEurosOfEuros(a.totalPrice.GetOr(0));
    Euros(a.totalPrice.GetOr(0))
  }

  lemma FormattedTotalPriceAbsent(a: Appointment)
    requires a.totalPrice.None?
    ensures FormattedTotalPrice(a) == "€0.00"
  {
    assert Text.Pad2(0) == "00";
  }

  /** `timeRange`: "start - end", or the start time alone when there is no end time. */
  function TimeRange(a: Appointment): (r: string)
    ensures |r| >= |a.startTime| && r[..|a.startTime|] == a.startTime
    ensures a.endTime.None? <==> |r| == |a.startTime|
    ensures a.endTime.Some? ==> r[|a.startTime|..] == " - " + a.endTime.value
  {
    if a.endTime.Some? then a.startTime + " - " + a.endTime.value else a.startTime
  }

  datatype CreateAppointmentRequest = CreateAppointmentRequest(
    date: string, startTime: string, clientId: Uuid, serviceIds: seq<Uuid>, notes: Option<string>)

  datatype UpdateAppointmentRequest = UpdateAppointmentRequest(
    date: string, startTime: string, clientId: Uuid, serviceIds: seq<Uuid>, notes: Option<string>,
    status: AppointmentStatus)

  /** The keys of the JSON object the synthesised encoder writes; a nil optional is omitted. */
  function CreateKeys(r: CreateAppointmentRequest): set<string> {
    {"date", "startTime", "clientId", "serviceIds"} + (if r.notes.Some? then {"notes"} else {})
  }

  function UpdateKeys(r: UpdateAppointmentRequest): set<string> {
    {"date", "startTime", "clientId", "serviceIds", "status"} + (if r.notes.Some? then {"notes"} else {})
  }

  /** An update always sends a status, a creation never does; otherwise the two bodies carry the same keys. */
  lemma StatusOnlyOnUpdate(c: CreateAppointmentRequest, u: UpdateAppointmentRequest)
    requires c.notes.Some? <==> u.notes.Some?
    ensures "status" in UpdateKeys(u) && "status" !in CreateKeys(c)
    ensures UpdateKeys(u) == CreateKeys(c) + {"status"}
  {
  }
}

/** `Promotion` and its validity window. Dates are `TimeInterval` seconds. */
module PromotionModel {
  import opened Wrappers
  import opened Uuids

  datatype Promotion = Promotion(
    id: Uuid,
    userId: Uuid,
    name: string,
    description: Option<string>,
    discountPercent: real,
    startDate: Option<real>,
    endDate: Option<real>,
    active: bool,
    clientIds: Option<seq<Uuid>>,
    createdAt: real,
    updatedAt: real)

  /** The window an active promotion is valid in: both ends inclusive, a missing end unbounded. */
  predicate InWindow(p: Promotion, now: real) {
    (p.startDate.None? || p.startDate.value <= now) && (p.endDate.None? || now <= p.endDate.value)
  }

  /** `isValid`, with the clock reading `now` as a parameter. */
  function IsValid(p: Promotion, now: real): (r: bool)
    ensures r <==> p.active && InWindow(p, now)
  {
    if !p.active then false
    else if p.startDate.Some? && now < p.startDate.value then false
    else if p.endDate.Some? && now > p.endDate.value then false
    else true
  }

  /** An active promotion without dates is always valid; the ends of a window are part of it. */
  lemma ValidityEdges(p: Promotion, now: real)
    requires p.active
    ensures p.startDate.None? && p.endDate.None? ==> IsValid(p, now)
    ensures p.startDate == Some(now) && (p.endDate.None? || now <= p.endDate.value) ==> IsValid(p, now)
    ensures p.endDate == Some(now) && (p.startDate.None? || p.startDate.value <= now) ==> IsValid(p, now)
  {
  }

  /** Validity only ever ends once the end date has passed: between two valid instants, every instant is valid. */
  lemma ValidityIsAnInterval(p: Promotion, t1: real, t2: real, t: real)
    requires IsValid(p, t1) && IsValid(p, t2) && t1 <= t <= t2
    ensures IsValid(p, t)
  {
  }
}

/** `AdvancedStats` and its rows. Amounts in `Double` are not computed with. */
module StatisticsModel {
  import opened Wrappers
  import opened Uuids
  import opened Text

  datatype TopSpender = TopSpender(id: Option<Uuid>, firstName: string, lastName: string, totalSpend: real)
  datatype TopService = TopService(id: Option<Uuid>, name: string, usageCount: int)
  datatype UnreliableClient = UnreliableClient(id: Option<Uuid>, firstName: string, lastName: string, count: int)
  datatype MonthlyRevenue = MonthlyRevenue(month: string, revenue: real)

  datatype AdvancedStats = AdvancedStats(
    topSpenders: Option<seq<TopSpender>>,
    topServices: Option<seq<TopService>>,
    monthlyRevenue: Option<seq<MonthlyRevenue>>,
    flopSpenders: Option<seq<TopSpender>>,
    flopServices: Option<seq<TopService>>,
    unreliableClients: Option<seq<UnreliableClient>>)

  /** `list?.isEmpty ?? true` */
  predicate NoneOrEmpty<T>(list: Option<seq<T>>) {
    list.None? || |list.value| == 0
  }

  function Count<T>(list: Option<seq<T>>): nat {
    if list.Some? then |list.value| else 0
  }

  /** How many rows the statistics hold in all. */
  function TotalRows(s: AdvancedStats): nat {
    Count(s.topSpenders) + Count(s.topServices) + Count(s.monthlyRevenue)
    + Count(s.flopSpenders) + Count(s.flopServices) + Count(s.unreliableClients)
  }

  /** `isEmpty`: true exactly when there is no row to show. */
  function IsEmpty(s: AdvancedStats): (r: bool)
    ensures r <==> TotalRows(s) == 0
  {
    NoneOrEmpty(s.topSpenders) && NoneOrEmpty(s.topServices) && NoneOrEmpty(s.monthlyRevenue)
    && NoneOrEmpty(s.flopSpenders) && NoneOrEmpty(s.flopServices) && NoneOrEmpty(s.unreliableClients)
  }

  /** "\(firstName) \(lastName)", shared by `TopSpender.fullName` and `UnreliableClient.fullName`. */
  function FullName(firstName: string, lastName: string): (r: string)
    ensures |r| == |firstName| + 1 + |lastName|
    ensures r[|firstName|] == ' '
    ensures r[..|firstName|] == firstName && r[|firstName| + 1..] == lastName
  {
    firstName + " " + lastName
  }

  /** Names without spaces can be read back from the full name. */
  lemma FullNameSplits(firstName: string, lastName: string)
    requires firstName != [] && lastName != [] && ' ' !in firstName && ' ' !in lastName
    ensures Split(FullName(firstName, lastName), ' ') == [firstName, lastName]
  {
    SplitAtSeparator(firstName, ' ', lastName);
    SplitOfPiece(firstName, ' ');
    SplitOfPiece(lastName, ' ');
    assert FullName(firstName, lastName) == firstName + [' '] + lastName;
  }

  function TopSpenderFullName(t: TopSpender): string {
    FullName(t.firstName, t.lastName)
  }

  function UnreliableClientFullName(u: UnreliableClient): string {
    FullName(u.firstName, u.lastName)
  }

  /** `MonthlyRevenue.id`: the month string, so months identify rows. */
  function MonthlyRevenueId(m: MonthlyRevenue): string {
    m.month
  }

  /** Two revenue rows share an identity exactly when they are for the same month. */
  lemma MonthlyRevenueIdentity(a: MonthlyRevenue, b: MonthlyRevenue)
    ensures MonthlyRevenueId(a) == MonthlyRevenueId(b) <==> a.month == b.month
  {
  }
}

/** `DashboardData` and its lenient decoder. */
module DashboardModel {
  import opened Wrappers
  import opened AppointmentModel

  /** What a JSON object holds under one key, as the decoder sees it. */
  datatype Field<T> = Absent | Null | Value(value: T) | Mistyped(reason: string)

  /** `decodeIfPresent`: missing key or null is nil; a value of the wrong type throws. */
  function DecodeIfPresent<T>(f: Field<T>): (r: Result<Option<T>, string>)
    ensures r.Failure? <==> f.Mistyped?
    ensures r.Success? && r.value.Some? <==> f.Value?
  {
    match f
    case Absent => Success(None)
    case Null => Success(None)
    case Value(v) => Success(Some(v))
    case Mistyped(reason) => Failure(reason)
  }

  datatype DashboardData = DashboardData(
    nextAppointments: Option<seq<Appointment>>,
    totalClients: int,
    newClientsThisMonth: int,
    monthlyEarnings: int)

  /** The value a field decodes to, with its default. */
  function Or<T>(f: Field<T>, default: T): T {
    if f.Value? then f.value else default
  }

  /**
    `DashboardData.init(from:)`: each field is `decodeIfPresent(...) ?? default`,
    so a missing or null field takes its default but a mistyped one fails
    the whole decode. Fields are decoded in declaration order, so the first
    mistyped field is the error.
  */
  function DecodeDashboard(
    next: Field<seq<Appointment>>, total: Field<int>, newClients: Field<int>, earnings: Field<int>)
    : (r: Result<DashboardData, string>)
    ensures r.Success? <==> !next.Mistyped? && !total.Mistyped? && !newClients.Mistyped? && !earnings.Mistyped?
    ensures r.Success? ==> r.value == DashboardData(Some(Or(next, [])), Or(total, 0), Or(newClients, 0), Or(earnings, 0))
    ensures next.Mistyped? ==> r == Failure(next.reason)
  {
    var a := DecodeIfPresent(next);
    var t := DecodeIfPresent(total);
    var n := DecodeIfPresent(newClients);
    var e := DecodeIfPresent(earnings);
    if a.Failure? then Failure(a.error)
    else if t.Failure? then Failure(t.error)
    else if n.Failure? then Failure(n.error)
    else if e.Failure? then Failure(e.error)
    else Success(DashboardData(Some(a.value.GetOr([])), t.value.GetOr(0), n.value.GetOr(0), e.value.GetOr(0)))
  }

  /** After a successful decode the appointment list is never nil. */
  lemma DecodedAppointmentsPresent(
    next: Field<seq<Appointment>>, total: Field<int>, newClients: Field<int>, earnings: Field<int>)
    requires DecodeDashboard(next, total, newClients, earnings).Success?
    ensures DecodeDashboard(next, total, newClients, earnings).value.nextAppointments.Some?
  {
  }
}

/** `Expense`, its category and payment method, and the URLs of its photos. */
module ExpenseModel {
  import opened Wrappers
  import opened Uuids
  import opened Formatting
  import ApiClient

  datatype ExpenseCategory = Rent | Products | Equipment | Utilities | Marketing | Other

  function CategoryRawValue(c: ExpenseCategory): string {
    match c
    case Rent => "rent"
    case Products => "products"
    case Equipment => "equipment"
    case Utilities => "utilities"
    case Marketing => "marketing"
    case Other => "other"
  }

  /** `ExpenseCategory.id` is the raw value. */
  function CategoryId(c: ExpenseCategory): (id: string)
    ensures forall d: ExpenseCategory :: CategoryRawValue(d) == id <==> d == c
  {
    CategoryRawValue(c)
  }

  function CategoryDisplayName(c: ExpenseCategory): string {
    match c
    case Rent => "Affitto"
    case Products => "Prodotti"
    case Equipment => "Attrezzatura"
    case Utilities => "Utenze"
    case Marketing => "Marketing"
    case Other => "Altro"
  }

  function CategoryIconName(c: ExpenseCategory): string {
    match c
    case Rent => "house.fill"
    case Products => "bag.fill"
    case Equipment => "wrench.and.screwdriver.fill"
    case Utilities => "bolt.fill"
    case Marketing => "megaphone.fill"
    case Other => "ellipsis.circle.fill"
  }

  lemma CategoryPresentationsDistinct(a: ExpenseCategory, b: ExpenseCategory)
    requires a != b
    ensures CategoryDisplayName(a) != CategoryDisplayName(b)
    ensures CategoryIconName(a) != CategoryIconName(b)
  {
  }

  datatype PaymentMethod = Cash | Card | Transfer

  function PaymentRawValue(p: PaymentMethod): string {
    match p
    case Cash => "cash"
    case Card => "card"
    case Transfer => "transfer"
  }

  /** `PaymentMethod.id` is the raw value. */
  function PaymentId(p: PaymentMethod): (id: string)
    ensures forall q: PaymentMethod :: PaymentRawValue(q) == id <==> q == p
  {
    PaymentRawValue(p)
  }

  function PaymentDisplayName(p: PaymentMethod): string {
    match p
    case Cash => "Contanti"
    case Card => "Carta"
    case Transfer => "Bonifico"
  }

  function PaymentIconName(p: PaymentMethod): string {
    match p
    case Cash => "banknote.fill"
    case Card => "creditcard.fill"
    case Transfer => "arrow.left.arrow.right"
  }

  lemma PaymentPresentationsDistinct(a: PaymentMethod, b: PaymentMethod)
    requires a != b
    ensures PaymentDisplayName(a) != PaymentDisplayName(b)
    ensures PaymentIconName(a) != PaymentIconName(b)
  {
  }

  datatype ExpensePhoto = ExpensePhoto(id: Uuid, expenseId: Uuid, createdAt: Option<string>)

  function PhotoBase(p: ExpensePhoto): string {
    ApiClient.BaseServerUrl + "/expense-photos/" + p.id
  }

  /** The address under which the server keeps expense photos, each under its id. */
  const ExpensePhotosPrefix: string := ApiClient.BaseServerUrl + "/expense-photos/"

  /** `thumbnailUrl`: the photo's id can be read back from between the prefix and "/thumbnail". */
  function ThumbnailUrl(p: ExpensePhoto): (url: string)
    ensures |url| == |ExpensePhotosPrefix| + |p.id| + |"/thumbnail"|
    ensures url[..|ExpensePhotosPrefix|] == ExpensePhotosPrefix
    ensures url[|ExpensePhotosPrefix|..|url| - |"/thumbnail"|] == p.id
    ensures url[|url| - |"/thumbnail"|..] == "/thumbnail"
  {
    ApiClient.BaseServerUrl + "/expense-photos/" + p.id + "/thumbnail"
  }

  /** `originalUrl`: the photo's id can be read back from between the prefix and "/view". */
  function OriginalUrl(p: ExpensePhoto): (url: string)
    ensures |url| == |ExpensePhotosPrefix| + |p.id| + |"/view"|
    ensures url[..|ExpensePhotosPrefix|] == ExpensePhotosPrefix
    ensures url[|ExpensePhotosPrefix|..|url| - |"/view"|] == p.id
    ensures url[|url| - |"/view"|..] == "/view"
  {
    ApiClient.BaseServerUrl + "/expense-photos/" + p.id + "/view"
  }

  /** The two URLs of a photo differ, and photos with different ids have different URLs. */
  lemma PhotoUrlsDistinct(p: ExpensePhoto, q: ExpensePhoto)
    ensures ThumbnailUrl(p) != OriginalUrl(p)
    ensures p.id != q.id && |p.id| == |q.id| ==> ThumbnailUrl(p) != ThumbnailUrl(q) && OriginalUrl(p) != OriginalUrl(q)
  {
    var b := PhotoBase(p);
    assert ThumbnailUrl(p)[|b|+1] == 't' && OriginalUrl(p)[|b|+1] == 'v';
    if p.id != q.id && |p.id| == |q.id| {
      var k := |ApiClient.BaseServerUrl + "/expense-photos/"|;
      var i :| 0 <= i < |p.id| && p.id[i] != q.id[i];
      assert ThumbnailUrl(p)[k + i] == p.id[i];
      assert ThumbnailUrl(q)[k + i] == q.id[i];
      assert OriginalUrl(p)[k + i] == p.id[i];
      assert OriginalUrl(q)[k + i] == q.id[i];
    }
  }

  datatype Expense = Expense(
    id: Option<Uuid>,
    description: string,
    amount: int,     // cents
    category: ExpenseCategory,
    paymentMethod: PaymentMethod,
    date: string,
    isRecurring: bool,
    notes: Option<string>,
    photos: Option<seq<ExpensePhoto>>,
    createdAt: Option<string>,
    updatedAt: Option<string>)

  /** The memberwise initialiser with every defaulted property left at its default. */
  function NewExpense(description: string, amount: int, category: ExpenseCategory,
                      paymentMethod: PaymentMethod, date: string): (e: Expense)
    ensures !e.isRecurring && e.photos == Some([])
    ensures e.id.None? && e.notes.None? && e.createdAt.None? && e.updatedAt.None?
  {
    Expense(None, description, amount, category, paymentMethod, date, false, None, Some([]), None, None)
  }

  /** `formattedAmount`: the amount in euros, read back exactly. */
  function FormattedAmount(e: Expense): (r: string)
    ensures ParseEuros(r) == Some(e.amount)
  {
    ParseEurosOfEuros(e.amount);
    Euros(e.amount)
  }
}
