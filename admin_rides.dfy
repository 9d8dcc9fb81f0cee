/**
 * The rides and deliveries page: status filters over the rides and orders
 * of the last notification, the detail panel's ride/order discrimination,
 * the reassign form and the status badge classes.
 */
module AdminRides {
  import opened Wrappers
  import opened Text
  import opened Seqs
  import opened AdminDomain

  // ---------------------------------------------------------------- filters

  function KeepRide(fs: string): Ride -> bool {
    (r: Ride) => fs == "all" || RideStatusName(r.status) == fs
  }

  function KeepOrder(fs: string): Order -> bool {
    (o: Order) => fs == "all" || OrderStatusName(o.status) == fs
  }

  /** `getFilteredRides()`: the rides whose status is the selected one (or all), in order. */
  function FilteredRides(rs: seq<Ride>, fs: string): (r: seq<Ride>)
    ensures forall x :: x in r <==> x in rs && (fs == "all" || RideStatusName(x.status) == fs)
    ensures IsSubsequence(r, rs)
  {
    FilterIsSubsequence(rs, KeepRide(fs));
    Filter(rs, KeepRide(fs))
  }

  /** `getFilteredOrders()`. */
  function FilteredOrders(os: seq<Order>, fs: string): (r: seq<Order>)
    ensures forall x :: x in r <==> x in os && (fs == "all" || OrderStatusName(x.status) == fs)
    ensures IsSubsequence(r, os)
  {
    FilterIsSubsequence(os, KeepOrder(fs));
    Filter(os, KeepOrder(fs))
  }

  /** "all" shows both lists whole, in order. */
  lemma AllShowsEverything(rs: seq<Ride>, os: seq<Order>)
    ensures FilteredRides(rs, "all") == rs && FilteredOrders(os, "all") == os
  {
    FilterAll(rs, KeepRide("all"));
    FilterAll(os, KeepOrder("all"));
  }

  /** Choosing a ride status keeps exactly the rides with that status. */
  lemma RideOptionSelectsStatus(rs: seq<Ride>, s: RideStatus)
    ensures forall x :: x in FilteredRides(rs, RideStatusName(s)) <==> x in rs && x.status == s
  {
    assert forall a: RideStatus, b: RideStatus :: RideStatusName(a) == RideStatusName(b) ==> a == b;
  }

  /** The "In Delivery" option empties the ride list: no ride status has that name. */
  lemma InDeliveryShowsNoRide(rs: seq<Ride>)
    ensures FilteredRides(rs, "in-delivery") == []
  {
    FilterNone(rs, KeepRide("in-delivery"));
  }

  // ---------------------------------------------------------- detail panel

  /** The record whose panel is open. */
  datatype Selected = SelectedRide(ride: Ride) | SelectedOrder(order: Order)

  /**
   * The keys of the object behind the selection: the fields of the `Ride`
   * interface (AdminController.ts:59-72) and of the `Order` interface
   * (AdminController.ts:74-85). Optional keys are listed as if present,
   * which does not affect the `pickupLocation` test.
   */
  function Keys(sel: Selected): set<string> {
    match sel
    case SelectedRide(_) => {"id", "customerId", "driverId", "pickupLocation", "dropoffLocation", "status",
                              "fare", "createdAt", "startedAt", "completedAt", "distance", "penalties"}
    case SelectedOrder(_) => {"id", "customerId", "shopId", "driverId", "status", "total", "items",
                               "createdAt", "completedAt", "penalties"}
  }

  /** `"pickupLocation" in selectedRide`. */
  predicate IsRide(sel: Selected) {
    "pickupLocation" in Keys(sel)
  }

  /** The key test tells rides from orders exactly. */
  lemma IsRideIffRide(sel: Selected)
    ensures IsRide(sel) <==> sel.SelectedRide?
  {
  }

  /** The reassign form is shown for pending or assigned rides and orders only. */
  function CanReassign(sel: Selected): (b: bool)
    ensures sel.SelectedRide? ==> (b <==> sel.ride.status in {RidePending, RideAssigned})
    ensures sel.SelectedOrder? ==> (b <==> sel.order.status in {OrderPending, OrderAssigned})
  {
    if IsRide(sel) then
      RideStatusName(sel.ride.status) == "pending" || RideStatusName(sel.ride.status) == "assigned"
    else
      OrderStatusName(sel.order.status) == "pending" || OrderStatusName(sel.order.status) == "assigned"
  }

  /** The driver select's option values: none, then each driver's id as text. */
  function DriverOptions(ds: seq<Driver>): (opts: seq<string>)
    ensures |opts| == |ds| + 1 && opts[0] == ""
    ensures forall k :: 0 <= k < |ds| ==> opts[k + 1] == IntToString(ds[k].id)
  {
    [""] + seq(|ds|, k requires 0 <= k < |ds| => IntToString(ds[k].id))
  }

  /** The page state the reassign handlers change. */
  datatype RidesPage = RidesPage(reassignDriverId: string, selected: Option<Selected>)

  /** The store call for reassigning the selection: `reassignRide` for a ride, `assignOrder` for an order. */
  function ReassignCall(sel: Selected, driverId: int): (m: Mutation)
    ensures sel.SelectedRide? ==> m == Mutation.AssignRide(sel.ride.id, driverId)
    ensures sel.SelectedOrder? ==> m == Mutation.AssignOrder(sel.order.id, driverId)
  {
    if IsRide(sel) then Mutation.AssignRide(sel.ride.id, driverId)
    else Mutation.AssignOrder(sel.order.id, driverId)
  }

  /**
   * The "Reassign Driver" button: with no driver chosen there is no store
   * call; otherwise the chosen value is read with `parseInt`, the store is
   * called and the choice and the selection are cleared.
   */
  function HandleReassign(page: RidesPage, sel: Selected): (r: (RidesPage, Option<Mutation>))
    ensures page.reassignDriverId == "" ==> r == (page, None)
    ensures page.reassignDriverId != "" && ParseInt(page.reassignDriverId).Int? ==> r.1.Some?
    ensures r.1.Some? ==> r.0 == RidesPage("", None)
    ensures r.1.Some? ==> ParseInt(page.reassignDriverId).Int?
    ensures r.1.Some? ==> r.1.value == ReassignCall(sel, ParseInt(page.reassignDriverId).value)
  {
    if page.reassignDriverId == "" then (page, None)
    else match ParseInt(page.reassignDriverId)
      case NaN => (page, None)
      case Int(v) => (RidesPage("", None), Some(ReassignCall(sel, v)))
  }

  /** Choosing a driver from the select reassigns to exactly that driver's id. */
  lemma ChosenDriverIsAssigned(page: RidesPage, sel: Selected, ds: seq<Driver>, k: nat)
    requires k < |ds| && page.reassignDriverId == DriverOptions(ds)[k + 1]
    ensures HandleReassign(page, sel).1 == Some(ReassignCall(sel, ds[k].id))
  {
    ParseIntOfIntToString(ds[k].id);
  }

  /** After a reassignment of a ride, that ride has the chosen driver and status "assigned". */
  lemma ReassignedRideIsAssigned(st: Snapshot, page: RidesPage, i: nat, ds: seq<Driver>, k: nat)
    requires i < |st.rides| && k < |ds| && page.reassignDriverId == DriverOptions(ds)[k + 1]
    ensures var m := HandleReassign(page, SelectedRide(st.rides[i])).1.value;
      var r := ApplyToRides(st.rides, m)[i];
      r.driverId == Some(ds[k].id) && r.status == RideAssigned
  {
    ChosenDriverIsAssigned(page, SelectedRide(st.rides[i]), ds, k);
    var m := Mutation.AssignRide(st.rides[i].id, ds[k].id);
    assert ApplyToRides(st.rides, m) == AssignRides(st.rides, st.rides[i].id, ds[k].id);
  }

  // ---------------------------------------------------------------- badges

  /**
   * `getStatusColor(status)`: "in-progress" and "in-delivery" share a class;
   * anything unknown is shown as cancelled.
   */
  function StatusClass(status: string): (cls: string)
    ensures status in {"pending", "assigned", "completed"} ==> cls == "status-" + status
    ensures status in {"in-progress", "in-delivery"} ==> cls == "status-inprogress"
    ensures status !in {"pending", "assigned", "completed", "in-progress", "in-delivery"} ==> cls == "status-cancelled"
  {
    if status == "pending" then "status-pending"
    else if status == "assigned" then "status-assigned"
    else if status == "in-progress" || status == "in-delivery" then "status-inprogress"
    else if status == "completed" then "status-completed"
    else "status-cancelled"
  }

  /** The order statuses accepted, preparing and ready carry the cancelled badge. */
  lemma KitchenStatusesLookCancelled(s: OrderStatus)
    requires s in {OrderAccepted, OrderPreparing, OrderReady}
    ensures StatusClass(OrderStatusName(s)) == "status-cancelled"
  {
  }
}
