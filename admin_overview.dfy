/**
 * The admin overview page: on every store notification it reads the daily
 * metrics, the financial figures and two ride queries from the store and
 * derives the headline numbers and the critical-alert list.
 */
module AdminOverview {
  import opened Wrappers
  import opened Text
  import opened Seqs
  import opened AdminDomain

  /** A critical alert, with the figure its message reports. */
  datatype Alert =
    | HighVolume(rides: nat)
    | ManyCancellations(cancelled: nat)
    | HighRefunds(amount: int)

  /** The message shown for an alert (thousands separators of `toLocaleString` are not modelled). */
  function AlertMessage(a: Alert): (m: string)
    ensures |m| > 0
  {
    match a
    case HighVolume(n) => "High ride volume today: " + NatToString(n) + " rides"
    case ManyCancellations(n) => "Many cancelled rides today: " + NatToString(n) + " cancellations"
    case HighRefunds(x) => "High refunds processed: \U{20A6}" + IntToString(x)
  }

  /** The position of each kind of alert in the list. */
  function Rank(a: Alert): nat {
    match a
    case HighVolume(_) => 0
    case ManyCancellations(_) => 1
    case HighRefunds(_) => 2
  }

  /**
   * The alert list: ride volume above 50, more than 5 cancelled rides,
   * refunds above 10000, each strictly, in that fixed order.
   */
  function CriticalAlerts(ridesToday: nat, cancelled: nat, refunds: int): (r: seq<Alert>)
    ensures |r| <= 3
    ensures HighVolume(ridesToday) in r <==> ridesToday > 50
    ensures ManyCancellations(cancelled) in r <==> cancelled > 5
    ensures HighRefunds(refunds) in r <==> refunds > 10000
    ensures forall a :: a in r ==> a in [HighVolume(ridesToday), ManyCancellations(cancelled), HighRefunds(refunds)]
    ensures forall i, j :: 0 <= i < j < |r| ==> Rank(r[i]) < Rank(r[j])
  {
    (if ridesToday > 50 then [HighVolume(ridesToday)] else [])
    + (if cancelled > 5 then [ManyCancellations(cancelled)] else [])
    + (if refunds > 10000 then [HighRefunds(refunds)] else [])
  }

  /** What the page shows. */
  datatype OverviewState = OverviewState(
    ridesToday: nat, ordersToday: nat, activeDrivers: nat, activeUsers: nat,
    totalRevenue: int, driverPayoutsDue: int, ongoingRides: nat,
    criticalAlerts: seq<Alert>)

  /** The page before its first notification. */
  const InitialOverview := OverviewState(0, 0, 0, 0, 0, 0, 0, [])

  predicate InProgress(r: Ride) {
    r.status == RideInProgress
  }

  predicate IsCancelled(r: Ride) {
    r.status == RideCancelled
  }

  /**
   * The state the subscription callback computes from the store, with
   * local midnight given as `todayStart`. The ongoing-ride tile counts the
   * rides in progress; the cancellation alert counts every cancelled ride
   * in the store, whatever its creation date.
   */
  function Overview(c: AdminController, todayStart: int): (o: OverviewState)
    reads c
    ensures o.ongoingRides == Count(c.rides, InProgress) && o.ongoingRides <= |c.rides|
    ensures o.totalRevenue == c.financialData.rideRevenue + c.financialData.orderRevenue
    ensures o.ridesToday <= |c.rides| && o.ordersToday <= |c.orders|
    ensures o.ridesToday == c.CalculateDailyMetrics(todayStart).ridesToday
    ensures o.ordersToday == c.CalculateDailyMetrics(todayStart).ordersToday
    ensures o.activeDrivers == |c.GetDrivers(DriverFilter(Some(Active)))|
    ensures o.activeUsers == |c.GetCustomers(CustomerFilter(Some(Active), None))|
    ensures o.driverPayoutsDue == c.financialData.driverPayoutsDue
    ensures o.criticalAlerts == CriticalAlerts(o.ridesToday, Count(c.rides, IsCancelled), c.financialData.refundsToday)
  {
    var metrics := c.CalculateDailyMetrics(todayStart);
    var fd := c.financialData;
    FilterSame(c.rides, InProgress, (r: Ride) => RideMatches(r, RideFilter(Some(RideInProgress), None)));
    FilterSame(c.rides, IsCancelled, (r: Ride) => RideMatches(r, RideFilter(Some(RideCancelled), None)));
    var ongoing := |c.GetRides(RideFilter(Some(RideInProgress), None))|;
    var cancelled := |c.GetRides(RideFilter(Some(RideCancelled), None))|;
    OverviewState(
      metrics.ridesToday, metrics.ordersToday, metrics.activeDrivers, metrics.activeUsers,
      fd.rideRevenue + fd.orderRevenue, fd.driverPayoutsDue, ongoing,
      CriticalAlerts(metrics.ridesToday, cancelled, fd.refundsToday))
  }

  /** A store with at most five rides and refunds of at most 10000 raises no alert. */
  lemma QuietStoreRaisesNoAlert(c: AdminController, todayStart: int)
    requires |c.rides| <= 5 && c.financialData.refundsToday <= 10000
    ensures Overview(c, todayStart).criticalAlerts == []
  {
    var o := Overview(c, todayStart);
    assert forall a :: a !in o.criticalAlerts;
  }

  /** The cancellation alert does not depend on which day is "today". */
  lemma CancellationAlertIgnoresDay(c: AdminController, day1: int, day2: int)
    ensures (exists a :: a in Overview(c, day1).criticalAlerts && a.ManyCancellations?)
        <==> (exists a :: a in Overview(c, day2).criticalAlerts && a.ManyCancellations?)
  {
    var n := Count(c.rides, IsCancelled);
    var o1 := Overview(c, day1);
    var o2 := Overview(c, day2);
    CancellationAlertIffMany(o1.ridesToday, n, c.financialData.refundsToday);
    CancellationAlertIffMany(o2.ridesToday, n, c.financialData.refundsToday);
  }

  /** The list holds a cancellation alert exactly when more than five rides are cancelled. */
  lemma CancellationAlertIffMany(ridesToday: nat, cancelled: nat, refunds: int)
    ensures (exists a :: a in CriticalAlerts(ridesToday, cancelled, refunds) && a.ManyCancellations?) <==> cancelled > 5
  {
    var r := CriticalAlerts(ridesToday, cancelled, refunds);
    assert forall a :: a in r && a.ManyCancellations? ==> a == ManyCancellations(cancelled);
  }
}
