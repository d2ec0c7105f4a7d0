/** The dashboard figures (`src/services/dashboardService.ts`): three counts
    the store computes, and two seven-day windows computed over the fetched
    client rows. */
module DashboardService {
  import opened Common
  import opened Types
  import opened Dates

  datatype DashboardStats = DashboardStats(
    totalClients: nat,
    newClientsThisMonth: nat,
    activeBonuses: nat,
    upcomingBirthdays: nat,
    expiringBonuses: nat)

  /** The date of this year's birthday: the stored month and day placed in
      the clock's current year. */
  function BirthdayThisYear(dob: CivilDate, year: int): CivilDate {
    CivilDate(year, dob.month, dob.day)
  }

  /** The birthday test of the first filter. */
  predicate UpcomingBirthday(clock: Clock, c: Client) {
    match c.fechaNacimiento
    case None => false
    case Some(dob) => InNextWeek(Midnight(BirthdayThisYear(dob, clock.year)), clock.now)
  }

  /** The expiry test of the second filter: only a 'pendiente' bonus with a
      stored expiry date is looked at. */
  predicate ExpiringBonus(clock: Clock, c: Client) {
    match c.bonoFechaVencimiento
    case None => false
    case Some(expiry) => c.bonoEstado == PENDIENTE && InNextWeek(Midnight(expiry), clock.now)
  }

  function BirthdayIn(clock: Clock): Client -> bool {
    (c: Client) => UpcomingBirthday(clock, c)
  }

  function ExpiringIn(clock: Clock): Client -> bool {
    (c: Client) => ExpiringBonus(clock, c)
  }

  /** `upcomingBirthdaysCount` */
  function UpcomingBirthdays(clients: seq<Client>, clock: Clock): (n: nat)
    ensures n <= |clients|
    ensures n == 0 <==> forall c :: c in clients ==> !UpcomingBirthday(clock, c)
  {
    var kept := Filter(clients, BirthdayIn(clock));
    assert kept != [] ==> kept[0] in kept;
    |kept|
  }

  /** `expiringBonusesCount` */
  function ExpiringBonuses(clients: seq<Client>, clock: Clock): (n: nat)
    ensures n <= |clients|
    ensures n == 0 <==> forall c :: c in clients ==> !ExpiringBonus(clock, c)
  {
    var kept := Filter(clients, ExpiringIn(clock));
    assert kept != [] ==> kept[0] in kept;
    |kept|
  }

  /** The criterion of the active-bonus count: the stored state is exactly
      'pendiente'. */
  predicate ActiveBonus(c: Client) {
    c.bonoEstado == PENDIENTE
  }

  function ActiveIn(): Client -> bool {
    (c: Client) => ActiveBonus(c)
  }

  /** The count the store returns for the active-bonus query, given the
      whole client table. */
  function ActiveBonusCount(table: seq<Client>): (n: nat)
    ensures n <= |table|
  {
    |Filter(table, ActiveIn())|
  }

  /** `getDashboardStats`: the replies of the four store reads in order; the
      first failed read throws, a missing count is reported as 0, and a
      missing row list gives zero for both windows. */
  function GetDashboardStats(
    clock: Clock,
    totalReply: Query<Option<nat>>,
    newReply: Query<Option<nat>>,
    activeReply: Query<Option<nat>>,
    datesReply: Query<seq<Client>>): (r: Result<DashboardStats>)
    ensures totalReply.QueryError? ==> r == Threw(ErrorObj("Error fetching total clients: " + totalReply.message))
    ensures totalReply.Rows? && newReply.QueryError? ==>
              r == Threw(ErrorObj("Error fetching new clients: " + newReply.message))
    ensures totalReply.Rows? && newReply.Rows? && activeReply.QueryError? ==>
              r == Threw(ErrorObj("Error fetching active bonuses: " + activeReply.message))
    ensures totalReply.Rows? && newReply.Rows? && activeReply.Rows? && datesReply.QueryError? ==>
              r == Threw(ErrorObj("Error fetching clients for dates: " + datesReply.message))
    ensures r.Ok? <==> totalReply.Rows? && newReply.Rows? && activeReply.Rows? && datesReply.Rows?
    ensures r.Ok? ==>
              && r.value.totalClients == totalReply.data.GetOr(0)
              && r.value.newClientsThisMonth == newReply.data.GetOr(0)
              && r.value.activeBonuses == activeReply.data.GetOr(0)
              && r.value.upcomingBirthdays == UpcomingBirthdays(datesReply.data, clock)
              && r.value.expiringBonuses == ExpiringBonuses(datesReply.data, clock)
              && r.value.upcomingBirthdays <= |datesReply.data|
              && r.value.expiringBonuses <= |datesReply.data|
  {
    if totalReply.QueryError? then Threw(ErrorObj("Error fetching total clients: " + totalReply.message))
    else if newReply.QueryError? then Threw(ErrorObj("Error fetching new clients: " + newReply.message))
    else if activeReply.QueryError? then Threw(ErrorObj("Error fetching active bonuses: " + activeReply.message))
    else if datesReply.QueryError? then Threw(ErrorObj("Error fetching clients for dates: " + datesReply.message))
    else
      var rows := datesReply.data;
      Ok(DashboardStats(
        totalReply.data.GetOr(0),
        newReply.data.GetOr(0),
        activeReply.data.GetOr(0),
        UpcomingBirthdays(rows, clock),
        ExpiringBonuses(rows, clock)))
  }

  // ---------------------------------------------------------------------
  // The windows, day by day
  // ---------------------------------------------------------------------

  /** A birthday is counted exactly when its date this year is one of the
      seven days after today, or is today and the clock stands at midnight. */
  lemma BirthdayByDays(clock: Clock, c: Client)
    ensures UpcomingBirthday(clock, c) <==>
            && c.fechaNacimiento.Some?
            && var day := DayNumber(BirthdayThisYear(c.fechaNacimiento.value, clock.year));
               var today := clock.now / MINUTES_PER_DAY;
               (day == today && clock.now % MINUTES_PER_DAY == 0) || today < day <= today + 7
  {
    if c.fechaNacimiento.Some? {
      NextWeekByDays(DayNumber(BirthdayThisYear(c.fechaNacimiento.value, clock.year)), clock.now);
    }
  }

  /** An expiring bonus is counted exactly when it is 'pendiente', has an
      expiry date, and that date is one of the seven days after today, or is
      today and the clock stands at midnight. */
  lemma ExpiringByDays(clock: Clock, c: Client)
    ensures ExpiringBonus(clock, c) <==>
            && c.bonoFechaVencimiento.Some?
            && c.bonoEstado == PENDIENTE
            && var day := DayNumber(c.bonoFechaVencimiento.value);
               var today := clock.now / MINUTES_PER_DAY;
               (day == today && clock.now % MINUTES_PER_DAY == 0) || today < day <= today + 7
  {
    if c.bonoFechaVencimiento.Some? {
      NextWeekByDays(DayNumber(c.bonoFechaVencimiento.value), clock.now);
    }
  }

  /** A bonus that expires today is missed once the day has started: at any
      instant after midnight the parsed expiry lies behind `today`. */
  lemma ExpiryTodayMissedAfterMidnight(clock: Clock, c: Client)
    requires c.bonoEstado == PENDIENTE
    requires c.bonoFechaVencimiento.Some?
    requires Midnight(c.bonoFechaVencimiento.value) < clock.now < Midnight(c.bonoFechaVencimiento.value) + MINUTES_PER_DAY
    ensures !ExpiringBonus(clock, c)
  {
  }

  /** A bonus expiring seven days after today is always counted. */
  lemma {:induction false} ExpiryInSevenDaysCounted(clock: Clock, c: Client, today: CivilDate)
    requires c.bonoEstado == PENDIENTE
    requires Midnight(today) <= clock.now < Midnight(today) + MINUTES_PER_DAY
    requires c.bonoFechaVencimiento == Some(CivilDate(today.year, today.month, today.day + 7))
    ensures ExpiringBonus(clock, c)
  {
    MidnightShift(today, 7);
  }

  /** No year wrap: from 25 December on, a birthday in January (placed in
      the current year, so already past) is never counted, even when it is
      only days away. */
  lemma {:induction false} NoYearWrap(clock: Clock, c: Client)
    requires clock.now >= Midnight(CivilDate(clock.year, 12, 25))
    requires c.fechaNacimiento.Some? && c.fechaNacimiento.value.month == 1
    requires 1 <= c.fechaNacimiento.value.day <= 31
    ensures !UpcomingBirthday(clock, c)
  {
    var b := BirthdayThisYear(c.fechaNacimiento.value, clock.year);
    assert DayNumber(b) < DayNumber(CivilDate(clock.year, 12, 25));
    assert Midnight(b) < Midnight(CivilDate(clock.year, 12, 25)) by {
      var d1 := DayNumber(b);
      var d2 := DayNumber(CivilDate(clock.year, 12, 25));
      assert d1 * MINUTES_PER_DAY < d2 * MINUTES_PER_DAY;
    }
  }

  /** Each window count grows by one for an appended row inside the window
      and stays put for any other row: the count is the number of rows that
      pass the test. */
  lemma {:induction false} WindowCountsAppend(clients: seq<Client>, c: Client, clock: Clock)
    ensures UpcomingBirthdays(clients + [c], clock) ==
            UpcomingBirthdays(clients, clock) + (if UpcomingBirthday(clock, c) then 1 else 0)
    ensures ExpiringBonuses(clients + [c], clock) ==
            ExpiringBonuses(clients, clock) + (if ExpiringBonus(clock, c) then 1 else 0)
  {
    FilterAppend(clients, [c], BirthdayIn(clock));
    FilterAppend(clients, [c], ExpiringIn(clock));
    assert [c][1..] == [];
  }

  /** A bonus in its five-month alert state is not an active bonus for the
      dashboard: adding such a client leaves the count as it was, while a
      'pendiente' one raises it by one. */
  lemma {:induction false} ActiveCountsPendienteOnly(table: seq<Client>, c: Client)
    ensures c.bonoEstado == ALERTA_5_MESES ==> ActiveBonusCount(table + [c]) == ActiveBonusCount(table)
    ensures c.bonoEstado == PENDIENTE ==> ActiveBonusCount(table + [c]) == ActiveBonusCount(table) + 1
    ensures ActiveBonusCount(table + [c]) == ActiveBonusCount(table) + (if ActiveBonus(c) then 1 else 0)
  {
    FilterAppend(table, [c], ActiveIn());
    assert [c][1..] == [];
  }

  /** When the replies come from one client table (the month's new clients
      being some of its rows), the dashboard succeeds and no figure exceeds
      the total. */
  lemma DashboardCountsOneTable(clock: Clock, table: seq<Client>, newThisMonth: nat)
    requires newThisMonth <= |table|
    ensures var r := GetDashboardStats(clock, Rows(Some(|table|)), Rows(Some(newThisMonth)),
                                       Rows(Some(ActiveBonusCount(table))), Rows(table));
            && r.Ok?
            && r.value.newClientsThisMonth <= r.value.totalClients
            && r.value.activeBonuses <= r.value.totalClients
            && r.value.upcomingBirthdays <= r.value.totalClients
            && r.value.expiringBonuses <= r.value.totalClients
  {
  }
}
