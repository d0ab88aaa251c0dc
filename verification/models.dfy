/**
 * The eleven entities of core/models.py: their fields, the foreign key each
 * one holds to its parent, the unique constraint each one declares, and the
 * cross-field validator of `CurtailmentEvent`.
 *
 * Decimal columns are held as their integer value scaled by the column's
 * `decimal_places` (no arithmetic is done on them); dates are day numbers and
 * times of day are naturals.
 */
module Models {
  import opened Wrappers
  import opened Lifecycle

  /** A calendar date, as a day number. */
  type Date = nat
  /** A time of day, as a count of units since midnight. */
  type TimeOfDay = nat
  /** A fixed-point decimal column, held as its scaled integer value. */
  type Decimal = int

  /** `LoggerPlantGroup`: a named group of loggers and plant ids. */
  datatype PlantGroup = PlantGroup(groupName: string)

  /** `PowerPlantDetail`: a physical plant, in a group. */
  datatype PowerPlantDetail = PowerPlantDetail(
    systemName: string,
    systemId: string,
    customerName: string,
    resource: string,
    countryName: string,
    latitude: Decimal,
    longitude: Decimal,
    altitude: Decimal,
    azimuth: Decimal,
    tilt: Decimal,
    capacityDc: Decimal,
    capacityAc: Option<Decimal>,
    location: Option<string>,
    group: Id)

  /** `GisWeather`: daily irradiance and yield of one plant. */
  datatype GisWeather =
    GisWeather(powerPlant: Id, ghi: Decimal, gti: Decimal, pvout: Decimal, date: Option<Date>)

  /** `LoggerCategory`: a data logger, in a group. */
  datatype LoggerCategory = LoggerCategory(loggerName: string, alterPlantId: Option<string>, group: Id)

  /** `LoggerPowerGen`: daily generation of one logger (the foreign key column is `logger_name`). */
  datatype LoggerPowerGen = LoggerPowerGen(logger: Id, powerGen: Decimal, date: Option<Date>)

  /** `UtilityPlantId`: the billing-side identity of a plant, in a group. */
  datatype UtilityPlantId = UtilityPlantId(plantId: string, alterPlantId: Option<string>, group: Id)

  /** `UtilityMonthlyRevenue` (the foreign key column is `plant_id`; `rd` is the `YYYY-MM` period). */
  datatype UtilityMonthlyRevenue = UtilityMonthlyRevenue(
    plant: Id,
    contractId: Option<string>,
    startDate: Option<Date>,
    endDate: Option<Date>,
    powerCapacityKw: Option<Decimal>,
    salesDays: Option<int>,
    salesElectricityKwh: Option<Decimal>,
    salesAmountJpy: Option<Decimal>,
    taxJpy: Option<Decimal>,
    averageDailySalesKwh: Option<Decimal>,
    rd: Option<string>)

  /** `UtilityMonthlyExpense`. */
  datatype UtilityMonthlyExpense = UtilityMonthlyExpense(
    plant: Id,
    usedElectricityKwh: Option<Decimal>,
    usedAmountJpy: Option<Decimal>,
    taxJpy: Option<Decimal>,
    rd: Option<string>)

  /** `UtilityDailyProduction`. */
  datatype UtilityDailyProduction = UtilityDailyProduction(
    plant: Id,
    powerProductionKwh: Option<Decimal>,
    productionDate: Option<Date>,
    rd: Option<string>)

  /** `CurtailmentEvent`: a curtailment on one date, with an optional time window. */
  datatype CurtailmentEvent = CurtailmentEvent(
    plant: Id,
    date: Option<Date>,
    startTime: Option<TimeOfDay>,
    endTime: Option<TimeOfDay>,
    rd: Option<string>)

  /** `MailNotificatione`: a record of one mail; it references no other entity. */
  datatype MailNotification = MailNotification(
    fromField: string,
    toField: Option<string>,
    date: Option<Date>,
    mailDateTime: Option<string>,
    subject: Option<string>,
    body: Option<string>,
    impactCategory: string,
    memo: Option<string>)

  /** The tables of the store, one per entity. */
  datatype Kind =
    | GroupKind | PlantKind | WeatherKind | LoggerKind | PowerGenKind | UtilityIdKind
    | RevenueKind | ExpenseKind | ProductionKind | CurtailmentKind | MailKind

  /** The business fields of a row of any table. */
  datatype Entity =
    | Group(group: PlantGroup)
    | Plant(plant: PowerPlantDetail)
    | Weather(weather: GisWeather)
    | Logger(logger: LoggerCategory)
    | PowerGen(powerGen: LoggerPowerGen)
    | UtilityId(utilityId: UtilityPlantId)
    | Revenue(revenue: UtilityMonthlyRevenue)
    | Expense(expense: UtilityMonthlyExpense)
    | Production(production: UtilityDailyProduction)
    | Curtailment(curtailment: CurtailmentEvent)
    | Mail(mail: MailNotification)

  /** The table an entity is stored in. */
  function KindOf(e: Entity): Kind {
    match e
    case Group(_) => GroupKind
    case Plant(_) => PlantKind
    case Weather(_) => WeatherKind
    case Logger(_) => LoggerKind
    case PowerGen(_) => PowerGenKind
    case UtilityId(_) => UtilityIdKind
    case Revenue(_) => RevenueKind
    case Expense(_) => ExpenseKind
    case Production(_) => ProductionKind
    case Curtailment(_) => CurtailmentKind
    case Mail(_) => MailKind
  }

  /**
   * How far a table sits below the roots of the foreign-key tree: groups and
   * mails reference no entity, plants, loggers and utility ids reference a
   * group, and every other table references one of those.
   */
  function Level(k: Kind): nat {
    match k
    case GroupKind | MailKind => 0
    case PlantKind | LoggerKind | UtilityIdKind => 1
    case _ => 2
  }

  /** The row an entity's `on_delete=CASCADE` foreign key points to, if it has one. */
  function Parent(e: Entity): Option<(Kind, Id)> {
    match e
    case Group(_) => None
    case Plant(p) => Some((GroupKind, p.group))
    case Weather(w) => Some((PlantKind, w.powerPlant))
    case Logger(l) => Some((GroupKind, l.group))
    case PowerGen(g) => Some((LoggerKind, g.logger))
    case UtilityId(u) => Some((GroupKind, u.group))
    case Revenue(r) => Some((UtilityIdKind, r.plant))
    case Expense(x) => Some((UtilityIdKind, x.plant))
    case Production(p) => Some((UtilityIdKind, p.plant))
    case Curtailment(c) => Some((UtilityIdKind, c.plant))
    case Mail(_) => None
  }

  /** Every foreign key points exactly one level up the tree, so cascades stop after three levels. */
  lemma ParentIsOneLevelUp(e: Entity)
    ensures Parent(e).Some? ==> Level(Parent(e).value.0) + 1 == Level(KindOf(e))
    ensures Parent(e).None? <==> Level(KindOf(e)) == 0
  {
  }

  /** `10` to the power `n`. */
  function Pow10(n: nat): int {
    if n == 0 then 1 else 10 * Pow10(n - 1)
  }

  /** A `varchar(n)` column (`CharField(max_length=n)`): a longer value is rejected. */
  predicate TextFits(s: string, n: nat) {
    |s| <= n
  }

  /** A nullable `varchar(n)` column: NULL always fits. */
  predicate NullableTextFits(s: Option<string>, n: nat) {
    s.None? || TextFits(s.value, n)
  }

  /**
   * A `numeric(p, s)` column (`DecimalField(max_digits=p, decimal_places=s)`),
   * the value already scaled by `10^s`: it may have at most `p` digits.
   */
  predicate DecimalFits(v: Decimal, p: nat) {
    -Pow10(p) < v < Pow10(p)
  }

  /** A nullable `numeric(p, s)` column: NULL always fits. */
  predicate NullableDecimalFits(v: Option<Decimal>, p: nat) {
    v.None? || DecimalFits(v.value, p)
  }

  /** A nullable `integer` column (`IntegerField`): a signed 32-bit value. */
  predicate NullableIntegerFits(v: Option<int>) {
    v.None? || -0x8000_0000 <= v.value < 0x8000_0000
  }

  /**
   * A `bigint` key column: every primary key and every foreign key is one,
   * since the project's default auto field is `BigAutoField`. Keys are never
   * negative here, so only the upper bound of a signed 64-bit value applies.
   */
  predicate KeyFits(i: Id) {
    i < 0x8000_0000_0000_0000
  }

  /**
   * Every column of the entity holds a value its database type accepts: the
   * parent key within `bigint`, and the business fields as `FieldsFit` says.
   */
  predicate ColumnsFit(e: Entity) {
    (Parent(e).None? || KeyFits(Parent(e).value.1)) && FieldsFit(e)
  }

  /**
   * The business fields hold values their database types accept: text within
   * its declared `max_length`, decimals within their `max_digits`, integers
   * within 32 bits. Text fields without a length and the date and time
   * columns take any value the model can express. A required column cannot
   * be NULL because its type has no `None`.
   */
  predicate FieldsFit(e: Entity) {
    match e
    case Group(g) => TextFits(g.groupName, 100)
    case Plant(p) =>
      && TextFits(p.systemName, 50) && TextFits(p.systemId, 50)
      && TextFits(p.customerName, 100) && TextFits(p.resource, 100)
      && TextFits(p.countryName, 100)
      && DecimalFits(p.latitude, 15) && DecimalFits(p.longitude, 15)
      && DecimalFits(p.altitude, 10) && DecimalFits(p.azimuth, 10) && DecimalFits(p.tilt, 10)
      && DecimalFits(p.capacityDc, 10) && NullableDecimalFits(p.capacityAc, 10)
      && NullableTextFits(p.location, 255)
    case Weather(w) => DecimalFits(w.ghi, 8) && DecimalFits(w.gti, 8) && DecimalFits(w.pvout, 8)
    case Logger(l) => TextFits(l.loggerName, 100) && NullableTextFits(l.alterPlantId, 100)
    case PowerGen(g) => DecimalFits(g.powerGen, 10)
    case UtilityId(u) => TextFits(u.plantId, 100) && NullableTextFits(u.alterPlantId, 100)
    case Revenue(r) =>
      && NullableTextFits(r.contractId, 50)
      && NullableDecimalFits(r.powerCapacityKw, 10)
      && NullableIntegerFits(r.salesDays)
      && NullableDecimalFits(r.salesElectricityKwh, 10)
      && NullableDecimalFits(r.salesAmountJpy, 10)
      && NullableDecimalFits(r.taxJpy, 10)
      && NullableDecimalFits(r.averageDailySalesKwh, 10)
      && NullableTextFits(r.rd, 7)
    case Expense(x) =>
      && NullableDecimalFits(x.usedElectricityKwh, 10)
      && NullableDecimalFits(x.usedAmountJpy, 10)
      && NullableDecimalFits(x.taxJpy, 10)
      && NullableTextFits(x.rd, 7)
    case Production(p) => NullableDecimalFits(p.powerProductionKwh, 10) && NullableTextFits(p.rd, 7)
    case Curtailment(c) => NullableTextFits(c.rd, 7)
    case Mail(m) => TextFits(m.impactCategory, 10)
  }

  /** A nullable text column as a key component. */
  function TextPart(s: Option<string>): Option<Component> {
    if s.Some? then Some(Text(s.value)) else None
  }

  /** A nullable date column as a key component. */
  function DayPart(d: Option<Date>): Option<Component> {
    if d.Some? then Some(Day(d.value)) else None
  }

  /** The columns of each entity's single unique constraint (`unique=True` or `unique_together`). */
  function EntityKey(e: Entity): Key {
    match e
    case Group(g) => [Some(Text(g.groupName))]
    case Plant(p) => [Some(Text(p.systemName)), Some(Text(p.systemId)), Some(Ref(p.group))]
    case Weather(w) => [Some(Ref(w.powerPlant)), DayPart(w.date)]
    case Logger(l) => [Some(Text(l.loggerName))]
    case PowerGen(g) => [Some(Ref(g.logger)), DayPart(g.date)]
    case UtilityId(u) => [Some(Text(u.plantId))]
    case Revenue(r) => [Some(Ref(r.plant)), TextPart(r.contractId), TextPart(r.rd)]
    case Expense(x) => [Some(Ref(x.plant)), TextPart(x.rd)]
    case Production(p) => [Some(Ref(p.plant)), DayPart(p.productionDate)]
    case Curtailment(c) => [Some(Ref(c.plant)), DayPart(c.date)]
    case Mail(m) => [TextPart(m.mailDateTime), TextPart(m.body)]
  }

  /** Two present, equal nullable values: the only way a nullable key column can match. */
  predicate SamePresent<T(==)>(a: Option<T>, b: Option<T>) {
    a.Some? && b.Some? && a.value == b.value
  }

  /**
   * When two rows of one table may not both be stored, stated field by field
   * for each entity: the declared columns are equal, and a nullable column
   * only counts as equal when both rows hold a value.
   */
  predicate SameUniqueKey(a: Entity, b: Entity) {
    match (a, b)
    case (Group(x), Group(y)) => x.groupName == y.groupName
    case (Plant(x), Plant(y)) =>
      x.systemName == y.systemName && x.systemId == y.systemId && x.group == y.group
    case (Weather(x), Weather(y)) => x.powerPlant == y.powerPlant && SamePresent(x.date, y.date)
    case (Logger(x), Logger(y)) => x.loggerName == y.loggerName
    case (PowerGen(x), PowerGen(y)) => x.logger == y.logger && SamePresent(x.date, y.date)
    case (UtilityId(x), UtilityId(y)) => x.plantId == y.plantId
    case (Revenue(x), Revenue(y)) =>
      x.plant == y.plant && SamePresent(x.contractId, y.contractId) && SamePresent(x.rd, y.rd)
    case (Expense(x), Expense(y)) => x.plant == y.plant && SamePresent(x.rd, y.rd)
    case (Production(x), Production(y)) =>
      x.plant == y.plant && SamePresent(x.productionDate, y.productionDate)
    case (Curtailment(x), Curtailment(y)) => x.plant == y.plant && SamePresent(x.date, y.date)
    case (Mail(x), Mail(y)) => SamePresent(x.mailDateTime, y.mailDateTime) && SamePresent(x.body, y.body)
    case _ => false
  }

  /** The database's key comparison agrees, for rows of one table, with the field-by-field reading. */
  lemma KeyCollisionIsSameUniqueKey(a: Entity, b: Entity)
    requires KindOf(a) == KindOf(b)
    ensures Collide(EntityKey(a), EntityKey(b)) <==> SameUniqueKey(a, b)
  {
    var ka, kb := EntityKey(a), EntityKey(b);
    if SameUniqueKey(a, b) {
      assert ka == kb;
    } else if ka == kb {
      assert |ka| >= 2 ==> ka[0] == kb[0] && ka[1] == kb[1];
      assert |ka| == 3 ==> ka[2] == kb[2];
    }
  }

  /** The error `clean` raises: the field it is attached to and its message. */
  datatype ValidationError = ValidationError(field: string, message: string)

  const EndTimeMessage := "End time must be later than start time."

  /**
   * `CurtailmentEvent.clean`: when both times are present the end must be
   * strictly later than the start. (A time of day is always truthy in
   * Python 3, so only a missing time skips the check.)
   */
  function Clean(c: CurtailmentEvent): (r: Outcome<ValidationError>)
    ensures r.Pass? <==> (c.startTime.None? || c.endTime.None? || c.startTime.value < c.endTime.value)
    ensures r.Fail? ==> r.error.field == "end_time" && r.error.message == EndTimeMessage
  {
    if c.startTime.Some? && c.endTime.Some? && c.endTime.value <= c.startTime.value then
      Fail(ValidationError("end_time", EndTimeMessage))
    else
      Pass
  }
}
