/**
 * The finance page: it keeps the store's drivers, rides, orders and
 * financial figures from the last notification and derives the daily
 * statistics, the CSV export and the driver-earnings aggregates.
 */
module AdminFinance {
  import opened Wrappers
  import opened Text
  import opened Seqs
  import opened AdminDomain

  /** What the page holds; the financial figures are absent until the first notification. */
  datatype FinanceView = FinanceView(
    financialData: Option<FinancialData>, drivers: seq<Driver>, rides: seq<Ride>, orders: seq<Order>)

  const InitialFinanceView := FinanceView(None, [], [], [])

  /** The page after a notification with snapshot `st`. */
  function Receive(st: Snapshot): (v: FinanceView)
    ensures v.financialData == Some(st.financialData)
    ensures v.drivers == st.drivers && v.rides == st.rides && v.orders == st.orders
  {
    FinanceView(Some(st.financialData), st.drivers, st.rides, st.orders)
  }

  // ---------------------------------------------------------- daily figures

  datatype DailyStats = DailyStats(ridesToday: nat, ordersToday: nat, rideRevenueToday: int, orderRevenueToday: int)

  function RideFare(r: Ride): int { r.fare }
  function OrderTotal(o: Order): int { o.total }

  /** A record is today's when it was created at or after local midnight. */
  function RideIsToday(todayStart: int): Ride -> bool {
    (r: Ride) => r.createdAt >= todayStart
  }

  function OrderIsToday(todayStart: int): Order -> bool {
    (o: Order) => o.createdAt >= todayStart
  }

  function RideEarnedToday(todayStart: int): Ride -> bool {
    (r: Ride) => r.createdAt >= todayStart && r.status == RideCompleted
  }

  function OrderEarnedToday(todayStart: int): Order -> bool {
    (o: Order) => o.createdAt >= todayStart && o.status == OrderCompleted
  }

  /**
   * `calculateDailyStats()`: today's ride and order counts, and the fares
   * and order totals of today's completed records only.
   */
  function CalculateDailyStats(rides: seq<Ride>, orders: seq<Order>, todayStart: int): (d: DailyStats)
    ensures d.ridesToday <= |rides| && d.ordersToday <= |orders|
    ensures (forall r :: r in rides ==> r.status != RideCompleted) ==> d.rideRevenueToday == 0
    ensures (forall o :: o in orders ==> o.status != OrderCompleted) ==> d.orderRevenueToday == 0
  {
    FilterNoneOf(rides, RideEarnedToday(todayStart));
    FilterNoneOf(orders, OrderEarnedToday(todayStart));
    DailyStats(
      Count(rides, RideIsToday(todayStart)),
      Count(orders, OrderIsToday(todayStart)),
      Sum(Filter(rides, RideEarnedToday(todayStart)), RideFare),
      Sum(Filter(orders, OrderEarnedToday(todayStart)), OrderTotal))
  }

  /** A filter that keeps nothing returns the empty sequence. */
  lemma FilterNoneOf<T>(s: seq<T>, p: T -> bool)
    ensures (forall x :: x in s ==> !p(x)) ==> Filter(s, p) == []
  {
    if forall x :: x in s ==> !p(x) {
      FilterNone(s, p);
    }
  }

  /** A filter that keeps everything returns its input. */
  lemma FilterAllOf<T>(s: seq<T>, p: T -> bool)
    ensures (forall x :: x in s ==> p(x)) ==> Filter(s, p) == s
  {
    if forall x :: x in s ==> p(x) {
      FilterAll(s, p);
    }
  }

  /**
   * One more ride changes the figures by exactly that ride: the count when
   * it is today's, and the revenue by its fare when it is also completed.
   */
  lemma {:induction false} AddedRideStats(rides: seq<Ride>, orders: seq<Order>, todayStart: int, r: Ride)
    ensures var d := CalculateDailyStats(rides, orders, todayStart);
      var e := CalculateDailyStats(rides + [r], orders, todayStart);
      && e.ridesToday == d.ridesToday + (if r.createdAt >= todayStart then 1 else 0)
      && e.rideRevenueToday == d.rideRevenueToday + (if r.createdAt >= todayStart && r.status == RideCompleted then r.fare else 0)
      && e.ordersToday == d.ordersToday && e.orderRevenueToday == d.orderRevenueToday
  {
    FilterAppend(rides, [r], RideIsToday(todayStart));
    FilterAppend(rides, [r], RideEarnedToday(todayStart));
    var earned := RideEarnedToday(todayStart);
    assert [r][1..] == [];
    SumAppend(Filter(rides, earned), Filter([r], earned), RideFare);
    if earned(r) {
      assert Filter([r], earned) == [r];
      assert [r][..0] == [];
    } else {
      assert Filter([r], earned) == [];
    }
  }

  /**
   * One more order changes the figures by exactly that order: the count
   * when it is today's, and the revenue by its total when it is also
   * completed.
   */
  lemma {:induction false} AddedOrderStats(rides: seq<Ride>, orders: seq<Order>, todayStart: int, o: Order)
    ensures var d := CalculateDailyStats(rides, orders, todayStart);
      var e := CalculateDailyStats(rides, orders + [o], todayStart);
      && e.ordersToday == d.ordersToday + (if o.createdAt >= todayStart then 1 else 0)
      && e.orderRevenueToday == d.orderRevenueToday + (if o.createdAt >= todayStart && o.status == OrderCompleted then o.total else 0)
      && e.ridesToday == d.ridesToday && e.rideRevenueToday == d.rideRevenueToday
  {
    FilterAppend(orders, [o], OrderIsToday(todayStart));
    FilterAppend(orders, [o], OrderEarnedToday(todayStart));
    var earned := OrderEarnedToday(todayStart);
    assert [o][1..] == [];
    SumAppend(Filter(orders, earned), Filter([o], earned), OrderTotal);
    if earned(o) {
      assert Filter([o], earned) == [o];
      assert [o][..0] == [];
    } else {
      assert Filter([o], earned) == [];
    }
  }

  /** The "Net Revenue" cells: today's ride and order revenue less today's refunds. */
  function NetRevenue(d: DailyStats, refunds: int): (n: int)
    ensures n + refunds == d.rideRevenueToday + d.orderRevenueToday
  {
    d.rideRevenueToday + d.orderRevenueToday - refunds
  }

  // ---------------------------------------------------------------- the CSV

  const CsvHeaders: seq<string> := ["Date", "Rides", "Orders", "Ride Revenue", "Order Revenue", "Refunds", "Platform Net"]

  /** `x || 0` on a figure of a possibly absent record. */
  function OrZero(fd: Option<FinancialData>, field: FinancialData -> int): int {
    if fd.Some? then field(fd.value) else 0
  }

  function RideRevenue(f: FinancialData): int { f.rideRevenue }
  function OrderRevenue(f: FinancialData): int { f.orderRevenue }
  function Refunds(f: FinancialData): int { f.refundsToday }

  /** The platform net of the export: stored ride and order revenue less refunds, a missing figure counting 0. */
  function PlatformNet(fd: Option<FinancialData>): int {
    OrZero(fd, RideRevenue) + OrZero(fd, OrderRevenue) - OrZero(fd, Refunds)
  }

  /**
   * The data row: the date text, the sizes of the whole ride and order
   * lists (not today's), the three stored figures and the platform net.
   */
  function CsvRow(today: string, v: FinanceView): (row: seq<string>)
    ensures |row| == |CsvHeaders| && row[0] == today
    ensures row[1] == NatToString(|v.rides|) && row[2] == NatToString(|v.orders|)
    ensures row[3] == IntToString(OrZero(v.financialData, RideRevenue))
    ensures row[4] == IntToString(OrZero(v.financialData, OrderRevenue))
    ensures row[5] == IntToString(OrZero(v.financialData, Refunds))
    ensures row[6] == IntToString(PlatformNet(v.financialData))
  {
    [today, NatToString(|v.rides|), NatToString(|v.orders|),
     IntToString(OrZero(v.financialData, RideRevenue)),
     IntToString(OrZero(v.financialData, OrderRevenue)),
     IntToString(OrZero(v.financialData, Refunds)),
     IntToString(PlatformNet(v.financialData))]
  }

  /** `handleExportCSV`'s text: the header line and the data row, each comma-joined, separated by one newline. */
  function ExportCsv(today: string, v: FinanceView): (csv: string)
    ensures csv == Join(CsvHeaders, ",") + "\n" + Join(CsvRow(today, v), ",")
  {
    JoinTwo(Join(CsvHeaders, ","), Join(CsvRow(today, v), ","), "\n");
    Join([Join(CsvHeaders, ","), Join(CsvRow(today, v), ",")], "\n")
  }

  /** The data line: the seven cells with one comma between neighbours. */
  lemma CsvLine(today: string, v: FinanceView)
    ensures var row := CsvRow(today, v);
      Join(row, ",") == row[0] + "," + row[1] + "," + row[2] + "," + row[3] + "," + row[4] + "," + row[5] + "," + row[6]
  {
    var row := CsvRow(today, v);
    var p2 := [row[0], row[1]];
    var p3 := p2 + [row[2]];
    var p4 := p3 + [row[3]];
    var p5 := p4 + [row[4]];
    var p6 := p5 + [row[5]];
    assert row == p6 + [row[6]];
    JoinTwo(row[0], row[1], ",");
    JoinSnoc(p2, row[2], ",");
    JoinSnoc(p3, row[3], ",");
    JoinSnoc(p4, row[4], ",");
    JoinSnoc(p5, row[5], ",");
    JoinSnoc(p6, row[6], ",");
  }

  /** The last column reads back as the platform net. */
  lemma CsvNetReadsBack(today: string, v: FinanceView)
    ensures ParseInt(CsvRow(today, v)[6]) == Int(PlatformNet(v.financialData))
  {
    ParseIntOfIntToString(PlatformNet(v.financialData));
  }

  /** Before any figures arrive every money column, the net included, reads 0. */
  lemma CsvWithoutFigures(today: string, v: FinanceView)
    requires v.financialData.None?
    ensures CsvRow(today, v)[3..] == ["0", "0", "0", "0"]
  {
    assert PlatformNet(v.financialData) == 0;
    assert IntToString(0) == "0";
  }

  // ------------------------------------------------------- driver earnings

  function Earnings(d: Driver): int { d.earnings }

  /** "Total Driver Earnings": the sum over all drivers. */
  function TotalDriverEarnings(ds: seq<Driver>): (t: int)
    ensures (forall d :: d in ds ==> d.earnings >= 0) ==> t >= 0
    ensures (forall d :: d in ds ==> d.earnings == 0) ==> t == 0
  {
    SumNonNegative(ds, Earnings);
    SumOfZeros(ds, Earnings);
    Sum(ds, Earnings)
  }

  /** Adding a driver adds exactly their earnings to the total. */
  lemma AddedDriverEarnings(ds: seq<Driver>, d: Driver)
    ensures TotalDriverEarnings(ds + [d]) == TotalDriverEarnings(ds) + d.earnings
  {
    SumAppend(ds, [d], Earnings);
    assert [d][..0] == [];
  }

  /** "Active Drivers": how many drivers are active. */
  function ActiveDriverCount(ds: seq<Driver>): (n: nat)
    ensures n <= |ds|
    ensures (forall d :: d in ds ==> d.status == Active) ==> n == |ds|
    ensures (forall d :: d in ds ==> d.status != Active) ==> n == 0
  {
    var p := (d: Driver) => d.status == Active;
    FilterAllOf(ds, p);
    FilterNoneOf(ds, p);
    Count(ds, p)
  }

  /** Adding a driver raises the active count by one exactly when that driver is active. */
  lemma AddedActiveDriver(ds: seq<Driver>, d: Driver)
    ensures ActiveDriverCount(ds + [d]) == ActiveDriverCount(ds) + (if d.status == Active then 1 else 0)
  {
    var p := (d: Driver) => d.status == Active;
    FilterAppend(ds, [d], p);
    assert Filter([d], p) == (if p(d) then [d] else []) by {
      assert [d][1..] == [];
    }
  }

  /**
   * Driver `i` is the top driver: no one earns more, and everyone before
   * it earns strictly less. A stable sort by descending earnings puts
   * exactly this driver first.
   */
  predicate IsTopAt(ds: seq<Driver>, i: nat) {
    && i < |ds|
    && (forall j :: 0 <= j < |ds| ==> ds[j].earnings <= ds[i].earnings)
    && (forall j :: 0 <= j < i ==> ds[j].earnings < ds[i].earnings)
  }

  /** At most one position is the top. */
  lemma TopIsUnique(ds: seq<Driver>, i: nat, k: nat)
    requires IsTopAt(ds, i) && IsTopAt(ds, k)
    ensures i == k
  {
    assert ds[i].earnings == ds[k].earnings;
  }

  /** The position of the first driver with the highest earnings. */
  function {:induction false} TopIndex(ds: seq<Driver>): (i: nat)
    requires |ds| > 0
    ensures IsTopAt(ds, i)
    decreases |ds|
  {
    if |ds| == 1 then 0
    else
      var front := ds[..|ds| - 1];
      var k := TopIndex(front);
      assert forall j :: 0 <= j < |front| ==> front[j] == ds[j];
      if ds[|ds| - 1].earnings > ds[k].earnings then |ds| - 1 else k
  }

  /** The "Top Drivers" card: the first driver after sorting by earnings, nothing for an empty list. */
  function TopDriverName(ds: seq<Driver>): (name: Option<string>)
    ensures name.None? <==> |ds| == 0
    ensures name.Some? ==> exists i: nat :: IsTopAt(ds, i) && ds[i].name == name.value
  {
    if |ds| == 0 then None else Some(ds[TopIndex(ds)].name)
  }
}
