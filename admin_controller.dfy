/**
 * The admin domain store: five record collections (customers, drivers,
 * shops, rides, orders), the promotions, the fare rules and the financial
 * figures, with order-preserving queries, record-replacing mutations and a
 * synchronous listener list that receives a full snapshot after every
 * mutation.
 *
 * Timestamps are integers (milliseconds); the ISO date strings and the
 * `Date.now()` ids of the original are derived from a `now` argument.
 */
module AdminDomain {
  import opened Wrappers
  import opened Text
  import opened Seqs

  // ---------------------------------------------------------------- records

  datatype UserStatus = Active | Suspended | Pending | Rejected
  datatype ViolationType = PolicyViolation | Fraud | Abuse | PaymentIssue | Other
  datatype RideStatus = RidePending | RideAssigned | RideInProgress | RideCompleted | RideCancelled
  datatype OrderStatus =
    | OrderPending | OrderAccepted | OrderPreparing | OrderReady
    | OrderAssigned | OrderInDelivery | OrderCompleted | OrderCancelled
  datatype ProfileType = Regular | Student | Worker

  function UserStatusName(s: UserStatus): string {
    match s
    case Active => "active"
    case Suspended => "suspended"
    case Pending => "pending"
    case Rejected => "rejected"
  }

  function RideStatusName(s: RideStatus): string {
    match s
    case RidePending => "pending"
    case RideAssigned => "assigned"
    case RideInProgress => "in-progress"
    case RideCompleted => "completed"
    case RideCancelled => "cancelled"
  }

  function OrderStatusName(s: OrderStatus): string {
    match s
    case OrderPending => "pending"
    case OrderAccepted => "accepted"
    case OrderPreparing => "preparing"
    case OrderReady => "ready"
    case OrderAssigned => "assigned"
    case OrderInDelivery => "in-delivery"
    case OrderCompleted => "completed"
    case OrderCancelled => "cancelled"
  }

  function ProfileTypeName(p: ProfileType): string {
    match p
    case Regular => "regular"
    case Student => "student"
    case Worker => "worker"
  }

  datatype Violation = Violation(id: string, kind: ViolationType, reason: string, date: int, resolved: bool)

  datatype Customer = Customer(
    id: int, name: string, email: string, phone: string, profileType: ProfileType,
    status: UserStatus, wallet: int, joinedAt: int, lastActive: int,
    violations: seq<Violation>, totalRides: int, rating: real)

  datatype Driver = Driver(
    id: int, name: string, email: string, phone: string, bike: string,
    status: UserStatus, approvedAt: Option<int>, violations: seq<Violation>,
    rating: real, totalTrips: int, earnings: int, cancelRate: real)

  datatype Shop = Shop(
    id: int, name: string, owner: string, phone: string, category: string,
    status: UserStatus, registeredAt: int, violations: seq<Violation>,
    productCount: int, ordersAccepted: int, ordersRejected: int, rating: real)

  datatype Ride = Ride(
    id: string, customerId: int, driverId: Option<int>,
    pickupLocation: string, dropoffLocation: string, status: RideStatus,
    fare: int, createdAt: int, startedAt: Option<int>, completedAt: Option<int>,
    distance: real, penalties: int)

  datatype Order = Order(
    id: string, customerId: int, shopId: int, driverId: Option<int>,
    status: OrderStatus, total: int, items: seq<string>, createdAt: int,
    completedAt: Option<int>, penalties: int)

  datatype Promotion = Promotion(
    id: string, name: string, description: string, discount: int,
    applicableTo: seq<ProfileType>, active: bool, createdAt: int, usageCount: int)

  /** What `addPromotion` receives: a promotion without id, creation date and usage count. */
  datatype PromotionDraft = PromotionDraft(
    name: string, description: string, discount: int,
    applicableTo: seq<ProfileType>, active: bool)

  /** `Partial<Promotion>`: `None` is a key the update object does not carry. */
  datatype PromotionPatch = PromotionPatch(
    id: Option<string>, name: Option<string>, description: Option<string>,
    discount: Option<int>, applicableTo: Option<seq<ProfileType>>,
    active: Option<bool>, createdAt: Option<int>, usageCount: Option<int>)

  datatype FareRule = FareRule(
    baseFare: int, perKm: int, perMinute: int, studentDiscount: int,
    workerDiscount: int, gracePeriod: int, noShowPenalty: int, maxDetourPercentage: int)

  datatype FareRulePatch = FareRulePatch(
    baseFare: Option<int>, perKm: Option<int>, perMinute: Option<int>,
    studentDiscount: Option<int>, workerDiscount: Option<int>,
    gracePeriod: Option<int>, noShowPenalty: Option<int>, maxDetourPercentage: Option<int>)

  datatype FinancialData = FinancialData(
    totalUserWallet: int, topUpToday: int, rideRevenue: int,
    orderRevenue: int, refundsToday: int, driverPayoutsDue: int)

  datatype FinancialPatch = FinancialPatch(
    totalUserWallet: Option<int>, topUpToday: Option<int>, rideRevenue: Option<int>,
    orderRevenue: Option<int>, refundsToday: Option<int>, driverPayoutsDue: Option<int>)

  const DefaultFareRules := FareRule(500, 50, 10, 15, 10, 5, 1000, 10)
  const ZeroFinancialData := FinancialData(0, 0, 0, 0, 0, 0)

  /** What `getState` hands out: independent copies of every collection. */
  datatype Snapshot = Snapshot(
    customers: seq<Customer>, drivers: seq<Driver>, shops: seq<Shop>,
    rides: seq<Ride>, orders: seq<Order>, promotions: seq<Promotion>,
    fareRules: FareRule, financialData: FinancialData)

  // ------------------------------------------------------------- violations

  /** The record a suspension or rejection appends, stamped with `now`. */
  function NewViolation(kind: ViolationType, reason: string, now: nat): (v: Violation)
    ensures StartsWith(v.id, "v-") && !v.resolved
    ensures v.kind == kind && v.reason == reason && v.date == now
  {
    Violation("v-" + NatToString(now), kind, reason, now, false)
  }

  /** `b` extends `a`: the violation history only grows at its end. */
  predicate IsPrefix<T(==)>(a: seq<T>, b: seq<T>) {
    |a| <= |b| && b[..|a|] == a
  }

  lemma PrefixTransitive<T>(a: seq<T>, b: seq<T>, c: seq<T>)
    requires IsPrefix(a, b) && IsPrefix(b, c)
    ensures IsPrefix(a, c)
  {
    assert c[..|a|] == c[..|b|][..|a|];
  }

  // ------------------------------------------------- per-collection updates

  /** `suspendCustomer`: every customer with that id becomes suspended and gains one policy violation. */
  function SuspendCustomers(cs: seq<Customer>, id: int, reason: string, now: nat): (r: seq<Customer>)
    ensures |r| == |cs|
    ensures forall i :: 0 <= i < |cs| && cs[i].id != id ==> r[i] == cs[i]
    ensures forall i :: 0 <= i < |cs| && cs[i].id == id ==>
      r[i] == cs[i].(status := Suspended,
                     violations := cs[i].violations + [NewViolation(PolicyViolation, reason, now)])
  {
    Replace(cs, (c: Customer) => c.id == id,
      (c: Customer) => c.(status := Suspended,
                          violations := c.violations + [NewViolation(PolicyViolation, reason, now)]))
  }

  /** `unsuspendCustomer`: every customer with that id becomes active; nothing else changes. */
  function UnsuspendCustomers(cs: seq<Customer>, id: int): (r: seq<Customer>)
    ensures |r| == |cs|
    ensures forall i :: 0 <= i < |cs| ==>
      r[i] == if cs[i].id == id then cs[i].(status := Active) else cs[i]
  {
    Replace(cs, (c: Customer) => c.id == id, (c: Customer) => c.(status := Active))
  }

  /** `approveDriver`: status active and `approvedAt` stamped, violations untouched. */
  function ApproveDrivers(ds: seq<Driver>, id: int, now: nat): (r: seq<Driver>)
    ensures |r| == |ds|
    ensures forall i :: 0 <= i < |ds| ==>
      r[i] == if ds[i].id == id then ds[i].(status := Active, approvedAt := Some(now)) else ds[i]
  {
    Replace(ds, (d: Driver) => d.id == id, (d: Driver) => d.(status := Active, approvedAt := Some(now)))
  }

  /** `rejectDriver`: status rejected and one violation of type "other" appended. */
  function RejectDrivers(ds: seq<Driver>, id: int, reason: string, now: nat): (r: seq<Driver>)
    ensures |r| == |ds|
    ensures forall i :: 0 <= i < |ds| && ds[i].id != id ==> r[i] == ds[i]
    ensures forall i :: 0 <= i < |ds| && ds[i].id == id ==>
      r[i] == ds[i].(status := Rejected,
                     violations := ds[i].violations + [NewViolation(Other, reason, now)])
  {
    Replace(ds, (d: Driver) => d.id == id,
      (d: Driver) => d.(status := Rejected, violations := d.violations + [NewViolation(Other, reason, now)]))
  }

  /** `suspendDriver`: status suspended and one policy violation appended. */
  function SuspendDrivers(ds: seq<Driver>, id: int, reason: string, now: nat): (r: seq<Driver>)
    ensures |r| == |ds|
    ensures forall i :: 0 <= i < |ds| && ds[i].id != id ==> r[i] == ds[i]
    ensures forall i :: 0 <= i < |ds| && ds[i].id == id ==>
      r[i] == ds[i].(status := Suspended,
                     violations := ds[i].violations + [NewViolation(PolicyViolation, reason, now)])
  {
    Replace(ds, (d: Driver) => d.id == id,
      (d: Driver) => d.(status := Suspended,
                        violations := d.violations + [NewViolation(PolicyViolation, reason, now)]))
  }

  /** `unsuspendDriver`: status active, nothing else. */
  function UnsuspendDrivers(ds: seq<Driver>, id: int): (r: seq<Driver>)
    ensures |r| == |ds|
    ensures forall i :: 0 <= i < |ds| ==>
      r[i] == if ds[i].id == id then ds[i].(status := Active) else ds[i]
  {
    Replace(ds, (d: Driver) => d.id == id, (d: Driver) => d.(status := Active))
  }

  /** `approveShop` and `unsuspendShop` (the two have the same body): status active, nothing else. */
  function ActivateShops(ss: seq<Shop>, id: int): (r: seq<Shop>)
    ensures |r| == |ss|
    ensures forall i :: 0 <= i < |ss| ==>
      r[i] == if ss[i].id == id then ss[i].(status := Active) else ss[i]
  {
    Replace(ss, (s: Shop) => s.id == id, (s: Shop) => s.(status := Active))
  }

  /** `rejectShop`: status rejected and one violation of type "other" appended. */
  function RejectShops(ss: seq<Shop>, id: int, reason: string, now: nat): (r: seq<Shop>)
    ensures |r| == |ss|
    ensures forall i :: 0 <= i < |ss| && ss[i].id != id ==> r[i] == ss[i]
    ensures forall i :: 0 <= i < |ss| && ss[i].id == id ==>
      r[i] == ss[i].(status := Rejected,
                     violations := ss[i].violations + [NewViolation(Other, reason, now)])
  {
    Replace(ss, (s: Shop) => s.id == id,
      (s: Shop) => s.(status := Rejected, violations := s.violations + [NewViolation(Other, reason, now)]))
  }

  /** `suspendShop`: status suspended and one policy violation appended. */
  function SuspendShops(ss: seq<Shop>, id: int, reason: string, now: nat): (r: seq<Shop>)
    ensures |r| == |ss|
    ensures forall i :: 0 <= i < |ss| && ss[i].id != id ==> r[i] == ss[i]
    ensures forall i :: 0 <= i < |ss| && ss[i].id == id ==>
      r[i] == ss[i].(status := Suspended,
                     violations := ss[i].violations + [NewViolation(PolicyViolation, reason, now)])
  {
    Replace(ss, (s: Shop) => s.id == id,
      (s: Shop) => s.(status := Suspended,
                      violations := s.violations + [NewViolation(PolicyViolation, reason, now)]))
  }

  /** `assignRide` (and `reassignRide`, which delegates to it): driver set, status "assigned", from any status. */
  function AssignRides(rs: seq<Ride>, rideId: string, driverId: int): (r: seq<Ride>)
    ensures |r| == |rs|
    ensures forall i :: 0 <= i < |rs| ==>
      r[i] == if rs[i].id == rideId then rs[i].(driverId := Some(driverId), status := RideAssigned) else rs[i]
  {
    Replace(rs, (x: Ride) => x.id == rideId, (x: Ride) => x.(driverId := Some(driverId), status := RideAssigned))
  }

  /** `updateRideStatus`: any target status; `startedAt` is stamped only for in-progress, `completedAt` only for completed. */
  function UpdateRideStatuses(rs: seq<Ride>, rideId: string, status: RideStatus, now: nat): (r: seq<Ride>)
    ensures |r| == |rs|
    ensures forall i :: 0 <= i < |rs| && rs[i].id != rideId ==> r[i] == rs[i]
    ensures forall i :: 0 <= i < |rs| && rs[i].id == rideId ==>
      && r[i].status == status
      && r[i].startedAt == (if status == RideInProgress then Some(now) else rs[i].startedAt)
      && r[i].completedAt == (if status == RideCompleted then Some(now) else rs[i].completedAt)
      && r[i] == rs[i].(status := r[i].status, startedAt := r[i].startedAt, completedAt := r[i].completedAt)
  {
    Replace(rs, (x: Ride) => x.id == rideId,
      (x: Ride) => x.(status := status,
                      startedAt := if status == RideInProgress then Some(now) else x.startedAt,
                      completedAt := if status == RideCompleted then Some(now) else x.completedAt))
  }

  /** `updateOrderStatus`: any target status; `completedAt` stamped only for completed. */
  function UpdateOrderStatuses(os: seq<Order>, orderId: string, status: OrderStatus, now: nat): (r: seq<Order>)
    ensures |r| == |os|
    ensures forall i :: 0 <= i < |os| && os[i].id != orderId ==> r[i] == os[i]
    ensures forall i :: 0 <= i < |os| && os[i].id == orderId ==>
      && r[i].status == status
      && r[i].completedAt == (if status == OrderCompleted then Some(now) else os[i].completedAt)
      && r[i] == os[i].(status := r[i].status, completedAt := r[i].completedAt)
  {
    Replace(os, (o: Order) => o.id == orderId,
      (o: Order) => o.(status := status,
                       completedAt := if status == OrderCompleted then Some(now) else o.completedAt))
  }

  /** `assignOrder`: driver set, status "assigned", from any status. */
  function AssignOrders(os: seq<Order>, orderId: string, driverId: int): (r: seq<Order>)
    ensures |r| == |os|
    ensures forall i :: 0 <= i < |os| ==>
      r[i] == if os[i].id == orderId then os[i].(driverId := Some(driverId), status := OrderAssigned) else os[i]
  {
    Replace(os, (o: Order) => o.id == orderId, (o: Order) => o.(driverId := Some(driverId), status := OrderAssigned))
  }

  /** `{ ...p, ...updates }`: a key the patch carries wins, every other key keeps its value. */
  function MergePromotion(p: Promotion, u: PromotionPatch): (r: Promotion)
    ensures r.id == if u.id.Some? then u.id.value else p.id
    ensures r.name == if u.name.Some? then u.name.value else p.name
    ensures r.description == if u.description.Some? then u.description.value else p.description
    ensures r.discount == if u.discount.Some? then u.discount.value else p.discount
    ensures r.applicableTo == if u.applicableTo.Some? then u.applicableTo.value else p.applicableTo
    ensures r.active == if u.active.Some? then u.active.value else p.active
    ensures r.createdAt == if u.createdAt.Some? then u.createdAt.value else p.createdAt
    ensures r.usageCount == if u.usageCount.Some? then u.usageCount.value else p.usageCount
    ensures u == PromotionPatch(None, None, None, None, None, None, None, None) ==> r == p
  {
    Promotion(
      u.id.GetOr(p.id), u.name.GetOr(p.name), u.description.GetOr(p.description),
      u.discount.GetOr(p.discount), u.applicableTo.GetOr(p.applicableTo),
      u.active.GetOr(p.active), u.createdAt.GetOr(p.createdAt), u.usageCount.GetOr(p.usageCount))
  }

  /** Applying the same partial update twice is applying it once. */
  lemma MergePromotionIdempotent(p: Promotion, u: PromotionPatch)
    ensures MergePromotion(MergePromotion(p, u), u) == MergePromotion(p, u)
  {
  }

  function UpdatePromotions(ps: seq<Promotion>, id: string, u: PromotionPatch): (r: seq<Promotion>)
    ensures |r| == |ps|
    ensures forall i :: 0 <= i < |ps| ==> r[i] == if ps[i].id == id then MergePromotion(ps[i], u) else ps[i]
  {
    Replace(ps, (p: Promotion) => p.id == id, (p: Promotion) => MergePromotion(p, u))
  }

  /** `deletePromotion`: exactly the promotions with that id disappear; the rest keep their order. */
  function DeletePromotions(ps: seq<Promotion>, id: string): (r: seq<Promotion>)
    ensures forall p :: p in r <==> p in ps && p.id != id
    ensures IsSubsequence(r, ps)
  {
    var keep := (p: Promotion) => p.id != id;
    FilterIsSubsequence(ps, keep);
    Filter(ps, keep)
  }

  /** The promotion `addPromotion` appends: the draft's fields, a `promo-` id, usage 0. */
  function NewPromotion(d: PromotionDraft, now: nat): (p: Promotion)
    ensures StartsWith(p.id, "promo-") && p.usageCount == 0 && p.createdAt == now
    ensures p.name == d.name && p.description == d.description && p.discount == d.discount
    ensures p.applicableTo == d.applicableTo && p.active == d.active
  {
    Promotion("promo-" + NatToString(now), d.name, d.description, d.discount, d.applicableTo, d.active, now, 0)
  }

  /** `{ ...fareRules, ...rules }`. */
  function MergeFareRules(f: FareRule, u: FareRulePatch): (r: FareRule)
    ensures r.baseFare == if u.baseFare.Some? then u.baseFare.value else f.baseFare
    ensures r.perKm == if u.perKm.Some? then u.perKm.value else f.perKm
    ensures r.perMinute == if u.perMinute.Some? then u.perMinute.value else f.perMinute
    ensures r.studentDiscount == if u.studentDiscount.Some? then u.studentDiscount.value else f.studentDiscount
    ensures r.workerDiscount == if u.workerDiscount.Some? then u.workerDiscount.value else f.workerDiscount
    ensures r.gracePeriod == if u.gracePeriod.Some? then u.gracePeriod.value else f.gracePeriod
    ensures r.noShowPenalty == if u.noShowPenalty.Some? then u.noShowPenalty.value else f.noShowPenalty
    ensures r.maxDetourPercentage == if u.maxDetourPercentage.Some? then u.maxDetourPercentage.value else f.maxDetourPercentage
    ensures u == FareRulePatch(None, None, None, None, None, None, None, None) ==> r == f
  {
    FareRule(
      u.baseFare.GetOr(f.baseFare), u.perKm.GetOr(f.perKm), u.perMinute.GetOr(f.perMinute),
      u.studentDiscount.GetOr(f.studentDiscount), u.workerDiscount.GetOr(f.workerDiscount),
      u.gracePeriod.GetOr(f.gracePeriod), u.noShowPenalty.GetOr(f.noShowPenalty),
      u.maxDetourPercentage.GetOr(f.maxDetourPercentage))
  }

  /** A complete rule set (every key present), as the pricing page saves it, replaces the rules outright. */
  lemma FullFarePatchReplaces(f: FareRule, g: FareRule)
    ensures MergeFareRules(f, FareRulePatch(Some(g.baseFare), Some(g.perKm), Some(g.perMinute),
      Some(g.studentDiscount), Some(g.workerDiscount), Some(g.gracePeriod),
      Some(g.noShowPenalty), Some(g.maxDetourPercentage))) == g
  {
  }

  /** `{ ...financialData, ...data }`. */
  function MergeFinancialData(f: FinancialData, u: FinancialPatch): (r: FinancialData)
    ensures r.totalUserWallet == if u.totalUserWallet.Some? then u.totalUserWallet.value else f.totalUserWallet
    ensures r.topUpToday == if u.topUpToday.Some? then u.topUpToday.value else f.topUpToday
    ensures r.rideRevenue == if u.rideRevenue.Some? then u.rideRevenue.value else f.rideRevenue
    ensures r.orderRevenue == if u.orderRevenue.Some? then u.orderRevenue.value else f.orderRevenue
    ensures r.refundsToday == if u.refundsToday.Some? then u.refundsToday.value else f.refundsToday
    ensures r.driverPayoutsDue == if u.driverPayoutsDue.Some? then u.driverPayoutsDue.value else f.driverPayoutsDue
    ensures u == FinancialPatch(None, None, None, None, None, None) ==> r == f
  {
    FinancialData(
      u.totalUserWallet.GetOr(f.totalUserWallet), u.topUpToday.GetOr(f.topUpToday),
      u.rideRevenue.GetOr(f.rideRevenue), u.orderRevenue.GetOr(f.orderRevenue),
      u.refundsToday.GetOr(f.refundsToday), u.driverPayoutsDue.GetOr(f.driverPayoutsDue))
  }

  /** Saving the same fare rules twice is saving them once. */
  lemma MergeFareRulesIdempotent(f: FareRule, u: FareRulePatch)
    ensures MergeFareRules(MergeFareRules(f, u), u) == MergeFareRules(f, u)
  {
  }

  /** Applying the same partial figures twice is applying them once. */
  lemma MergeFinancialDataIdempotent(f: FinancialData, u: FinancialPatch)
    ensures MergeFinancialData(MergeFinancialData(f, u), u) == MergeFinancialData(f, u)
  {
  }

  /** A patch carrying every key replaces the figures outright. */
  lemma FullFinancialPatchReplaces(f: FinancialData, g: FinancialData)
    ensures MergeFinancialData(f, FinancialPatch(Some(g.totalUserWallet), Some(g.topUpToday),
      Some(g.rideRevenue), Some(g.orderRevenue), Some(g.refundsToday), Some(g.driverPayoutsDue))) == g
  {
  }

  // -------------------------------------------------------------- mutations

  /** Every state-changing operation of the store, with the clock reading it uses. */
  datatype Mutation =
    | SuspendCustomer(customerId: int, reason: string, now: nat)
    | UnsuspendCustomer(customerId: int)
    | ApproveDriver(driverId: int, now: nat)
    | RejectDriver(driverId: int, reason: string, now: nat)
    | SuspendDriver(driverId: int, reason: string, now: nat)
    | UnsuspendDriver(driverId: int)
    | ApproveShop(shopId: int)
    | RejectShop(shopId: int, reason: string, now: nat)
    | SuspendShop(shopId: int, reason: string, now: nat)
    | UnsuspendShop(shopId: int)
    | AssignRide(rideId: string, newDriverId: int)
    | UpdateRideStatus(rideId: string, rideStatus: RideStatus, now: nat)
    | UpdateOrderStatus(orderId: string, orderStatus: OrderStatus, now: nat)
    | AssignOrder(orderId: string, newDriverId: int)
    | UpdateFareRules(rules: FareRulePatch)
    | AddPromotion(draft: PromotionDraft, now: nat)
    | UpdatePromotion(promotionId: string, updates: PromotionPatch)
    | DeletePromotion(promotionId: string)
    | UpdateFinancialData(data: FinancialPatch)

  /** The one part of the store a mutation may change. */
  datatype Part = CustomersPart | DriversPart | ShopsPart | RidesPart | OrdersPart
                | PromotionsPart | FareRulesPart | FinancePart

  function PartOf(m: Mutation): Part {
    match m
    case SuspendCustomer(_, _, _) | UnsuspendCustomer(_) => CustomersPart
    case ApproveDriver(_, _) | RejectDriver(_, _, _) | SuspendDriver(_, _, _) | UnsuspendDriver(_) => DriversPart
    case ApproveShop(_) | RejectShop(_, _, _) | SuspendShop(_, _, _) | UnsuspendShop(_) => ShopsPart
    case AssignRide(_, _) | UpdateRideStatus(_, _, _) => RidesPart
    case UpdateOrderStatus(_, _, _) | AssignOrder(_, _) => OrdersPart
    case AddPromotion(_, _) | UpdatePromotion(_, _) | DeletePromotion(_) => PromotionsPart
    case UpdateFareRules(_) => FareRulesPart
    case UpdateFinancialData(_) => FinancePart
  }

  function ApplyToCustomers(cs: seq<Customer>, m: Mutation): (r: seq<Customer>)
    ensures |r| == |cs|
    ensures PartOf(m) != CustomersPart ==> r == cs
  {
    match m
    case SuspendCustomer(id, reason, now) => SuspendCustomers(cs, id, reason, now)
    case UnsuspendCustomer(id) => UnsuspendCustomers(cs, id)
    case _ => cs
  }

  function ApplyToDrivers(ds: seq<Driver>, m: Mutation): (r: seq<Driver>)
    ensures |r| == |ds|
    ensures PartOf(m) != DriversPart ==> r == ds
  {
    match m
    case ApproveDriver(id, now) => ApproveDrivers(ds, id, now)
    case RejectDriver(id, reason, now) => RejectDrivers(ds, id, reason, now)
    case SuspendDriver(id, reason, now) => SuspendDrivers(ds, id, reason, now)
    case UnsuspendDriver(id) => UnsuspendDrivers(ds, id)
    case _ => ds
  }

  function ApplyToShops(ss: seq<Shop>, m: Mutation): (r: seq<Shop>)
    ensures |r| == |ss|
    ensures PartOf(m) != ShopsPart ==> r == ss
  {
    match m
    case ApproveShop(id) => ActivateShops(ss, id)
    case RejectShop(id, reason, now) => RejectShops(ss, id, reason, now)
    case SuspendShop(id, reason, now) => SuspendShops(ss, id, reason, now)
    case UnsuspendShop(id) => ActivateShops(ss, id)
    case _ => ss
  }

  function ApplyToRides(rs: seq<Ride>, m: Mutation): (r: seq<Ride>)
    ensures |r| == |rs|
    ensures PartOf(m) != RidesPart ==> r == rs
  {
    match m
    case AssignRide(rideId, driverId) => AssignRides(rs, rideId, driverId)
    case UpdateRideStatus(rideId, status, now) => UpdateRideStatuses(rs, rideId, status, now)
    case _ => rs
  }

  function ApplyToOrders(os: seq<Order>, m: Mutation): (r: seq<Order>)
    ensures |r| == |os|
    ensures PartOf(m) != OrdersPart ==> r == os
  {
    match m
    case UpdateOrderStatus(orderId, status, now) => UpdateOrderStatuses(os, orderId, status, now)
    case AssignOrder(orderId, driverId) => AssignOrders(os, orderId, driverId)
    case _ => os
  }

  function ApplyToPromotions(ps: seq<Promotion>, m: Mutation): (r: seq<Promotion>)
    ensures PartOf(m) != PromotionsPart ==> r == ps
  {
    match m
    case AddPromotion(d, now) => ps + [NewPromotion(d, now)]
    case UpdatePromotion(id, u) => UpdatePromotions(ps, id, u)
    case DeletePromotion(id) => DeletePromotions(ps, id)
    case _ => ps
  }

  function ApplyToFareRules(f: FareRule, m: Mutation): (r: FareRule)
    ensures PartOf(m) != FareRulesPart ==> r == f
  {
    match m
    case UpdateFareRules(u) => MergeFareRules(f, u)
    case _ => f
  }

  function ApplyToFinancialData(f: FinancialData, m: Mutation): (r: FinancialData)
    ensures PartOf(m) != FinancePart ==> r == f
  {
    match m
    case UpdateFinancialData(u) => MergeFinancialData(f, u)
    case _ => f
  }

  /** The store's state after one mutation: only the part `PartOf(m)` names can differ. */
  function Apply(st: Snapshot, m: Mutation): (r: Snapshot)
    ensures PartOf(m) != CustomersPart ==> r.customers == st.customers
    ensures PartOf(m) != DriversPart ==> r.drivers == st.drivers
    ensures PartOf(m) != ShopsPart ==> r.shops == st.shops
    ensures PartOf(m) != RidesPart ==> r.rides == st.rides
    ensures PartOf(m) != OrdersPart ==> r.orders == st.orders
    ensures PartOf(m) != PromotionsPart ==> r.promotions == st.promotions
    ensures PartOf(m) != FareRulesPart ==> r.fareRules == st.fareRules
    ensures PartOf(m) != FinancePart ==> r.financialData == st.financialData
    ensures |r.customers| == |st.customers| && |r.drivers| == |st.drivers| && |r.shops| == |st.shops|
    ensures |r.rides| == |st.rides| && |r.orders| == |st.orders|
  {
    Snapshot(
      ApplyToCustomers(st.customers, m), ApplyToDrivers(st.drivers, m), ApplyToShops(st.shops, m),
      ApplyToRides(st.rides, m), ApplyToOrders(st.orders, m), ApplyToPromotions(st.promotions, m),
      ApplyToFareRules(st.fareRules, m), ApplyToFinancialData(st.financialData, m))
  }

  /** Applying a mutation replaces the part it names by that part's update and keeps the rest. */
  lemma ApplyReplacesItsPart(st: Snapshot, m: Mutation)
    ensures PartOf(m) == CustomersPart ==> Apply(st, m) == st.(customers := ApplyToCustomers(st.customers, m))
    ensures PartOf(m) == DriversPart ==> Apply(st, m) == st.(drivers := ApplyToDrivers(st.drivers, m))
    ensures PartOf(m) == ShopsPart ==> Apply(st, m) == st.(shops := ApplyToShops(st.shops, m))
    ensures PartOf(m) == RidesPart ==> Apply(st, m) == st.(rides := ApplyToRides(st.rides, m))
    ensures PartOf(m) == OrdersPart ==> Apply(st, m) == st.(orders := ApplyToOrders(st.orders, m))
    ensures PartOf(m) == PromotionsPart ==> Apply(st, m) == st.(promotions := ApplyToPromotions(st.promotions, m))
    ensures PartOf(m) == FareRulesPart ==> Apply(st, m) == st.(fareRules := ApplyToFareRules(st.fareRules, m))
    ensures PartOf(m) == FinancePart ==> Apply(st, m) == st.(financialData := ApplyToFinancialData(st.financialData, m))
  {
  }

  /** The state after a run of mutations, oldest first. */
  function ApplyAll(st: Snapshot, ms: seq<Mutation>): Snapshot
    decreases |ms|
  {
    if |ms| == 0 then st else ApplyAll(Apply(st, ms[0]), ms[1..])
  }

  // --------------------------------------------------------- notifications

  /** A listener is identified by the function value the caller registered. */
  type Listener = nat

  /** One call of a listener with the snapshot it received. */
  datatype Delivery = Delivery(listener: Listener, state: Snapshot)

  /** One notification round: every registered listener, in registration order, gets the same snapshot. */
  function Broadcast(ls: seq<Listener>, st: Snapshot): (r: seq<Delivery>)
    ensures |r| == |ls|
    ensures forall k :: 0 <= k < |ls| ==> r[k] == Delivery(ls[k], st)
  {
    seq(|ls|, k requires 0 <= k < |ls| => Delivery(ls[k], st))
  }

  // ---------------------------------------------------------------- filters

  /** `getCustomers` filter; a missing key or a falsy value (the empty string) does not restrict. */
  datatype CustomerFilter = CustomerFilter(status: Option<UserStatus>, profileType: Option<string>)
  datatype DriverFilter = DriverFilter(status: Option<UserStatus>)
  datatype ShopFilter = ShopFilter(status: Option<UserStatus>)
  /** `getRides` filter; a driver id of 0 is falsy and does not restrict. */
  datatype RideFilter = RideFilter(status: Option<RideStatus>, driverId: Option<int>)
  /** `getOrders` filter; a shop id of 0 is falsy and does not restrict. */
  datatype OrderFilter = OrderFilter(status: Option<OrderStatus>, shopId: Option<int>)

  predicate CustomerMatches(c: Customer, f: CustomerFilter) {
    && (f.status.None? || c.status == f.status.value)
    && (f.profileType.None? || f.profileType.value == "" || ProfileTypeName(c.profileType) == f.profileType.value)
  }

  predicate DriverMatches(d: Driver, f: DriverFilter) {
    f.status.None? || d.status == f.status.value
  }

  predicate ShopMatches(s: Shop, f: ShopFilter) {
    f.status.None? || s.status == f.status.value
  }

  predicate RideMatches(r: Ride, f: RideFilter) {
    && (f.status.None? || r.status == f.status.value)
    && (f.driverId.None? || f.driverId.value == 0 || r.driverId == Some(f.driverId.value))
  }

  predicate OrderMatches(o: Order, f: OrderFilter) {
    && (f.status.None? || o.status == f.status.value)
    && (f.shopId.None? || f.shopId.value == 0 || o.shopId == f.shopId.value)
  }

  datatype DailyMetrics = DailyMetrics(ridesToday: nat, ordersToday: nat, activeDrivers: nat, activeUsers: nat)

  predicate FirstWithId(ds: seq<Driver>, id: int, i: nat)
    requires i <= |ds|
  {
    forall j :: 0 <= j < i ==> ds[j].id != id
  }

  /** The earnings of the first driver with that id, or 0 when there is none (`find(...)?.earnings || 0`). */
  function DriverEarnings(ds: seq<Driver>, driverId: int): (e: int)
    ensures (forall d :: d in ds ==> d.id != driverId) ==> e == 0
    ensures forall i :: 0 <= i < |ds| && ds[i].id == driverId && FirstWithId(ds, driverId, i) ==> e == ds[i].earnings
  {
    if |ds| == 0 then 0
    else if ds[0].id == driverId then ds[0].earnings
    else DriverEarnings(ds[1..], driverId)
  }

  // ------------------------------------------------------------- the store

  class AdminController {
    var customers: seq<Customer>
    var drivers: seq<Driver>
    var shops: seq<Shop>
    var rides: seq<Ride>
    var orders: seq<Order>
    var promotions: seq<Promotion>
    var fareRules: FareRule
    var financialData: FinancialData
    var listeners: seq<Listener>
    /** Every listener call made so far, oldest first. */
    var deliveries: seq<Delivery>

    constructor (initialCustomers: seq<Customer>, initialDrivers: seq<Driver>, initialShops: seq<Shop>,
                 initialRides: seq<Ride>, initialOrders: seq<Order>)
      ensures State() == Snapshot(initialCustomers, initialDrivers, initialShops, initialRides,
                                  initialOrders, [], DefaultFareRules, ZeroFinancialData)
      ensures listeners == [] && deliveries == []
    {
      customers := initialCustomers;
      drivers := initialDrivers;
      shops := initialShops;
      rides := initialRides;
      orders := initialOrders;
      promotions := [];
      fareRules := DefaultFareRules;
      financialData := ZeroFinancialData;
      listeners := [];
      deliveries := [];
    }

    /** `getState()`: a snapshot of every collection and both settings records. */
    function State(): (s: Snapshot)
      reads this
    {
      Snapshot(customers, drivers, shops, rides, orders, promotions, fareRules, financialData)
    }

    /** `subscribe(fn)`: register, then call `fn` once at once with the current state. */
    method Subscribe(fn: Listener)
      modifies this`listeners, this`deliveries
      ensures listeners == old(listeners) + [fn]
      ensures deliveries == old(deliveries) + [Delivery(fn, State())]
    {
      listeners := listeners + [fn];
      deliveries := deliveries + [Delivery(fn, State())];
    }

    /** The function `subscribe` returns: drops every registration of `fn`, keeping the others in order. */
    method Unsubscribe(fn: Listener)
      modifies this`listeners
      ensures forall l :: l in listeners <==> l in old(listeners) && l != fn
      ensures listeners == Filter(old(listeners), (l: Listener) => l != fn)
    {
      listeners := Filter(listeners, (l: Listener) => l != fn);
    }

    /** `notify()`: one call per registered listener, in registration order, all with the same snapshot. */
    method Notify()
      modifies this`deliveries
      ensures deliveries == old(deliveries) + Broadcast(listeners, State())
    {
      var state := State();
      var i := 0;
      while i < |listeners|
        invariant 0 <= i <= |listeners|
        invariant deliveries == old(deliveries) + Broadcast(listeners[..i], state)
      {
        assert Broadcast(listeners[..i + 1], state) == Broadcast(listeners[..i], state) + [Delivery(listeners[i], state)];
        deliveries := deliveries + [Delivery(listeners[i], state)];
        i := i + 1;
      }
      assert listeners[..i] == listeners;
    }

    /*
     * The mutation methods. Each replaces one part of the state as `Apply`
     * says and then notifies every listener, even when no record matched.
     */

    /** `suspendCustomer(id, reason)`. */
    method SuspendCustomer(customerId: int, reason: string, now: nat)
      modifies this`customers, this`deliveries
      ensures State() == Apply(old(State()), Mutation.SuspendCustomer(customerId, reason, now))
      ensures deliveries == old(deliveries) + Broadcast(listeners, State())
    {
      ApplyReplacesItsPart(State(), Mutation.SuspendCustomer(customerId, reason, now));
      customers := SuspendCustomers(customers, customerId, reason, now);
      Notify();
    }

    /** `unsuspendCustomer(id)`. */
    method UnsuspendCustomer(customerId: int)
      modifies this`customers, this`deliveries
      ensures State() == Apply(old(State()), Mutation.UnsuspendCustomer(customerId))
      ensures deliveries == old(deliveries) + Broadcast(listeners, State())
    {
      ApplyReplacesItsPart(State(), Mutation.UnsuspendCustomer(customerId));
      customers := UnsuspendCustomers(customers, customerId);
      Notify();
    }

    /** `approveDriver(id)`. */
    method ApproveDriver(driverId: int, now: nat)
      modifies this`drivers, this`deliveries
      ensures State() == Apply(old(State()), Mutation.ApproveDriver(driverId, now))
      ensures deliveries == old(deliveries) + Broadcast(listeners, State())
    {
      ApplyReplacesItsPart(State(), Mutation.ApproveDriver(driverId, now));
      drivers := ApproveDrivers(drivers, driverId, now);
      Notify();
    }

    /** `rejectDriver(id, reason)`. */
    method RejectDriver(driverId: int, reason: string, now: nat)
      modifies this`drivers, this`deliveries
      ensures State() == Apply(old(State()), Mutation.RejectDriver(driverId, reason, now))
      ensures deliveries == old(deliveries) + Broadcast(listeners, State())
    {
      ApplyReplacesItsPart(State(), Mutation.RejectDriver(driverId, reason, now));
      drivers := RejectDrivers(drivers, driverId, reason, now);
      Notify();
    }

    /** `suspendDriver(id, reason)`. */
    method SuspendDriver(driverId: int, reason: string, now: nat)
      modifies this`drivers, this`deliveries
      ensures State() == Apply(old(State()), Mutation.SuspendDriver(driverId, reason, now))
      ensures deliveries == old(deliveries) + Broadcast(listeners, State())
    {
      ApplyReplacesItsPart(State(), Mutation.SuspendDriver(driverId, reason, now));
      drivers := SuspendDrivers(drivers, driverId, reason, now);
      Notify();
    }

    /** `unsuspendDriver(id)`. */
    method UnsuspendDriver(driverId: int)
      modifies this`drivers, this`deliveries
      ensures State() == Apply(old(State()), Mutation.UnsuspendDriver(driverId))
      ensures deliveries == old(deliveries) + Broadcast(listeners, State())
    {
      ApplyReplacesItsPart(State(), Mutation.UnsuspendDriver(driverId));
      drivers := UnsuspendDrivers(drivers, driverId);
      Notify();
    }

    /** `approveShop(id)`. */
    method ApproveShop(shopId: int)
      modifies this`shops, this`deliveries
      ensures State() == Apply(old(State()), Mutation.ApproveShop(shopId))
      ensures deliveries == old(deliveries) + Broadcast(listeners, State())
    {
      ApplyReplacesItsPart(State(), Mutation.ApproveShop(shopId));
      shops := ActivateShops(shops, shopId);
      Notify();
    }

    /** `rejectShop(id, reason)`. */
    method RejectShop(shopId: int, reason: string, now: nat)
      modifies this`shops, this`deliveries
      ensures State() == Apply(old(State()), Mutation.RejectShop(shopId, reason, now))
      ensures deliveries == old(deliveries) + Broadcast(listeners, State())
    {
      ApplyReplacesItsPart(State(), Mutation.RejectShop(shopId, reason, now));
      shops := RejectShops(shops, shopId, reason, now);
      Notify();
    }

    /** `suspendShop(id, reason)`. */
    method SuspendShop(shopId: int, reason: string, now: nat)
      modifies this`shops, this`deliveries
      ensures State() == Apply(old(State()), Mutation.SuspendShop(shopId, reason, now))
      ensures deliveries == old(deliveries) + Broadcast(listeners, State())
    {
      ApplyReplacesItsPart(State(), Mutation.SuspendShop(shopId, reason, now));
      shops := SuspendShops(shops, shopId, reason, now);
      Notify();
    }

    /** `unsuspendShop(id)`. */
    method UnsuspendShop(shopId: int)
      modifies this`shops, this`deliveries
      ensures State() == Apply(old(State()), Mutation.UnsuspendShop(shopId))
      ensures deliveries == old(deliveries) + Broadcast(listeners, State())
    {
      ApplyReplacesItsPart(State(), Mutation.UnsuspendShop(shopId));
      shops := ActivateShops(shops, shopId);
      Notify();
    }

    /** `assignRide(rideId, driverId)`. */
    method AssignRide(rideId: string, driverId: int)
      modifies this`rides, this`deliveries
      ensures State() == Apply(old(State()), Mutation.AssignRide(rideId, driverId))
      ensures deliveries == old(deliveries) + Broadcast(listeners, State())
    {
      ApplyReplacesItsPart(State(), Mutation.AssignRide(rideId, driverId));
      rides := AssignRides(rides, rideId, driverId);
      Notify();
    }

    /** `updateRideStatus(rideId, status)`. */
    method UpdateRideStatus(rideId: string, status: RideStatus, now: nat)
      modifies this`rides, this`deliveries
      ensures State() == Apply(old(State()), Mutation.UpdateRideStatus(rideId, status, now))
      ensures deliveries == old(deliveries) + Broadcast(listeners, State())
    {
      ApplyReplacesItsPart(State(), Mutation.UpdateRideStatus(rideId, status, now));
      rides := UpdateRideStatuses(rides, rideId, status, now);
      Notify();
    }

    /** `updateOrderStatus(orderId, status)`. */
    method UpdateOrderStatus(orderId: string, status: OrderStatus, now: nat)
      modifies this`orders, this`deliveries
      ensures State() == Apply(old(State()), Mutation.UpdateOrderStatus(orderId, status, now))
      ensures deliveries == old(deliveries) + Broadcast(listeners, State())
    {
      ApplyReplacesItsPart(State(), Mutation.UpdateOrderStatus(orderId, status, now));
      orders := UpdateOrderStatuses(orders, orderId, status, now);
      Notify();
    }

    /** `assignOrder(orderId, driverId)`. */
    method AssignOrder(orderId: string, driverId: int)
      modifies this`orders, this`deliveries
      ensures State() == Apply(old(State()), Mutation.AssignOrder(orderId, driverId))
      ensures deliveries == old(deliveries) + Broadcast(listeners, State())
    {
      ApplyReplacesItsPart(State(), Mutation.AssignOrder(orderId, driverId));
      orders := AssignOrders(orders, orderId, driverId);
      Notify();
    }

    /** `updateFareRules(rules)`. */
    method UpdateFareRules(rules: FareRulePatch)
      modifies this`fareRules, this`deliveries
      ensures State() == Apply(old(State()), Mutation.UpdateFareRules(rules))
      ensures deliveries == old(deliveries) + Broadcast(listeners, State())
    {
      ApplyReplacesItsPart(State(), Mutation.UpdateFareRules(rules));
      fareRules := MergeFareRules(fareRules, rules);
      Notify();
    }

    /** `addPromotion(promo)`. */
    method AddPromotion(draft: PromotionDraft, now: nat)
      modifies this`promotions, this`deliveries
      ensures State() == Apply(old(State()), Mutation.AddPromotion(draft, now))
      ensures deliveries == old(deliveries) + Broadcast(listeners, State())
    {
      ApplyReplacesItsPart(State(), Mutation.AddPromotion(draft, now));
      promotions := promotions + [NewPromotion(draft, now)];
      Notify();
    }

    /** `updatePromotion(id, updates)`. */
    method UpdatePromotion(promotionId: string, updates: PromotionPatch)
      modifies this`promotions, this`deliveries
      ensures State() == Apply(old(State()), Mutation.UpdatePromotion(promotionId, updates))
      ensures deliveries == old(deliveries) + Broadcast(listeners, State())
    {
      ApplyReplacesItsPart(State(), Mutation.UpdatePromotion(promotionId, updates));
      promotions := UpdatePromotions(promotions, promotionId, updates);
      Notify();
    }

    /** `deletePromotion(id)`. */
    method DeletePromotion(promotionId: string)
      modifies this`promotions, this`deliveries
      ensures State() == Apply(old(State()), Mutation.DeletePromotion(promotionId))
      ensures deliveries == old(deliveries) + Broadcast(listeners, State())
    {
      ApplyReplacesItsPart(State(), Mutation.DeletePromotion(promotionId));
      promotions := DeletePromotions(promotions, promotionId);
      Notify();
    }

    /** `updateFinancialData(data)`. */
    method UpdateFinancialData(data: FinancialPatch)
      modifies this`financialData, this`deliveries
      ensures State() == Apply(old(State()), Mutation.UpdateFinancialData(data))
      ensures deliveries == old(deliveries) + Broadcast(listeners, State())
    {
      ApplyReplacesItsPart(State(), Mutation.UpdateFinancialData(data));
      financialData := MergeFinancialData(financialData, data);
      Notify();
    }

    /** `reassignRide(rideId, newDriverId)`: exactly `assignRide`. */
    method ReassignRide(rideId: string, newDriverId: int)
      modifies this`rides, this`deliveries
      ensures State() == Apply(old(State()), Mutation.AssignRide(rideId, newDriverId))
      ensures deliveries == old(deliveries) + Broadcast(listeners, State())
    {
      ApplyReplacesItsPart(State(), Mutation.AssignRide(rideId, newDriverId));
      AssignRide(rideId, newDriverId);
    }

    /** `getCustomers(filter)`: the matching customers, in store order. */
    function GetCustomers(f: CustomerFilter): (r: seq<Customer>)
      reads this
      ensures forall c :: c in r <==> c in customers && CustomerMatches(c, f)
      ensures IsSubsequence(r, customers)
    {
      var p := (c: Customer) => CustomerMatches(c, f);
      FilterIsSubsequence(customers, p);
      Filter(customers, p)
    }

    function GetDrivers(f: DriverFilter): (r: seq<Driver>)
      reads this
      ensures forall d :: d in r <==> d in drivers && DriverMatches(d, f)
      ensures IsSubsequence(r, drivers)
    {
      var p := (d: Driver) => DriverMatches(d, f);
      FilterIsSubsequence(drivers, p);
      Filter(drivers, p)
    }

    function GetShops(f: ShopFilter): (r: seq<Shop>)
      reads this
      ensures forall s :: s in r <==> s in shops && ShopMatches(s, f)
      ensures IsSubsequence(r, shops)
    {
      var p := (s: Shop) => ShopMatches(s, f);
      FilterIsSubsequence(shops, p);
      Filter(shops, p)
    }

    function GetRides(f: RideFilter): (r: seq<Ride>)
      reads this
      ensures forall x :: x in r <==> x in rides && RideMatches(x, f)
      ensures IsSubsequence(r, rides)
    {
      var p := (x: Ride) => RideMatches(x, f);
      FilterIsSubsequence(rides, p);
      Filter(rides, p)
    }

    function GetOrders(f: OrderFilter): (r: seq<Order>)
      reads this
      ensures forall o :: o in r <==> o in orders && OrderMatches(o, f)
      ensures IsSubsequence(r, orders)
    {
      var p := (o: Order) => OrderMatches(o, f);
      FilterIsSubsequence(orders, p);
      Filter(orders, p)
    }

    /** `getDriverEarnings(id)`. */
    function GetDriverEarnings(driverId: int): (e: int)
      reads this
      ensures (forall d :: d in drivers ==> d.id != driverId) ==> e == 0
      ensures forall i :: 0 <= i < |drivers| && drivers[i].id == driverId && FirstWithId(drivers, driverId, i) ==>
        e == drivers[i].earnings
    {
      DriverEarnings(drivers, driverId)
    }

    /**
     * `calculateDailyMetrics()`, with local midnight given as `todayStart`:
     * today's rides and orders are those created at or after it; the active
     * counts are the sizes of the status queries.
     */
    function CalculateDailyMetrics(todayStart: int): (m: DailyMetrics)
      reads this
      ensures m.ridesToday <= |rides| && m.ordersToday <= |orders|
      ensures m.activeDrivers == |GetDrivers(DriverFilter(Some(Active)))|
      ensures m.activeUsers == |GetCustomers(CustomerFilter(Some(Active), None))|
    {
      FilterSame(drivers, (d: Driver) => d.status == Active, (d: Driver) => DriverMatches(d, DriverFilter(Some(Active))));
      FilterSame(customers, (c: Customer) => c.status == Active,
        (c: Customer) => CustomerMatches(c, CustomerFilter(Some(Active), None)));
      DailyMetrics(
        Count(rides, (r: Ride) => r.createdAt >= todayStart),
        Count(orders, (o: Order) => o.createdAt >= todayStart),
        Count(drivers, (d: Driver) => d.status == Active),
        Count(customers, (c: Customer) => c.status == Active))
    }
  }

  // ------------------------------------------------------ store properties

  /** `m` names a record id (or promotion id) that no record of its part carries. */
  predicate MissesEveryRecord(st: Snapshot, m: Mutation) {
    match m
    case SuspendCustomer(id, _, _) => forall c :: c in st.customers ==> c.id != id
    case UnsuspendCustomer(id) => forall c :: c in st.customers ==> c.id != id
    case ApproveDriver(id, _) => forall d :: d in st.drivers ==> d.id != id
    case RejectDriver(id, _, _) => forall d :: d in st.drivers ==> d.id != id
    case SuspendDriver(id, _, _) => forall d :: d in st.drivers ==> d.id != id
    case UnsuspendDriver(id) => forall d :: d in st.drivers ==> d.id != id
    case ApproveShop(id) => forall x :: x in st.shops ==> x.id != id
    case RejectShop(id, _, _) => forall x :: x in st.shops ==> x.id != id
    case SuspendShop(id, _, _) => forall x :: x in st.shops ==> x.id != id
    case UnsuspendShop(id) => forall x :: x in st.shops ==> x.id != id
    case AssignRide(id, _) => forall x :: x in st.rides ==> x.id != id
    case UpdateRideStatus(id, _, _) => forall x :: x in st.rides ==> x.id != id
    case UpdateOrderStatus(id, _, _) => forall o :: o in st.orders ==> o.id != id
    case AssignOrder(id, _) => forall o :: o in st.orders ==> o.id != id
    case UpdatePromotion(id, _) => forall p :: p in st.promotions ==> p.id != id
    case DeletePromotion(id) => forall p :: p in st.promotions ==> p.id != id
    case UpdateFareRules(_) => false
    case AddPromotion(_, _) => false
    case UpdateFinancialData(_) => false
  }

  /**
   * A mutation aimed at an id nobody carries leaves the whole state as it
   * was (the methods still notify: see their `deliveries` postcondition).
   */
  lemma UnknownIdLeavesStateUnchanged(st: Snapshot, m: Mutation)
    requires MissesEveryRecord(st, m)
    ensures Apply(st, m) == st
  {
    ApplyReplacesItsPart(st, m);
    if m.DeletePromotion? {
      FilterAll(st.promotions, (p: Promotion) => p.id != m.promotionId);
    }
  }

  /** The mutations whose second application changes nothing further. */
  predicate Repeatable(m: Mutation) {
    || m.UnsuspendCustomer? || m.ApproveDriver? || m.UnsuspendDriver?
    || m.ApproveShop? || m.UnsuspendShop? || m.AssignRide? || m.AssignOrder?
    || m.UpdateRideStatus? || m.UpdateOrderStatus?
    || m.UpdateFareRules? || m.UpdateFinancialData? || m.DeletePromotion?
  }

  /**
   * Approving, unsuspending, assigning, setting a status and merging a
   * patch are idempotent: they set fields to fixed values and never touch
   * the violation history.
   */
  lemma RepeatableIsIdempotent(st: Snapshot, m: Mutation)
    requires Repeatable(m)
    ensures Apply(Apply(st, m), m) == Apply(st, m)
  {
    if m.DeletePromotion? {
      FilterAll(Apply(st, m).promotions, (p: Promotion) => p.id != m.promotionId);
    }
  }

  /** Suspending is not idempotent: each call appends one more violation to the matching record. */
  lemma SuspendTwiceRecordsTwice(st: Snapshot, id: int, reason1: string, now1: nat, reason2: string, now2: nat, i: nat)
    requires i < |st.customers| && st.customers[i].id == id
    ensures Apply(Apply(st, SuspendCustomer(id, reason1, now1)), SuspendCustomer(id, reason2, now2)).customers[i].violations
      == st.customers[i].violations + [NewViolation(PolicyViolation, reason1, now1), NewViolation(PolicyViolation, reason2, now2)]
    ensures Apply(Apply(st, SuspendCustomer(id, reason1, now1)), SuspendCustomer(id, reason2, now2)).customers[i].status == Suspended
  {
  }

  /**
   * `b` is a later state of `a`: every record is still at its position
   * with its id, and every violation list of `a` is a prefix of `b`'s.
   */
  ghost predicate HistoryExtends(a: Snapshot, b: Snapshot) {
    && |a.customers| == |b.customers| && |a.drivers| == |b.drivers| && |a.shops| == |b.shops|
    && |a.rides| == |b.rides| && |a.orders| == |b.orders|
    && (forall i :: 0 <= i < |a.customers| ==>
          a.customers[i].id == b.customers[i].id && IsPrefix(a.customers[i].violations, b.customers[i].violations))
    && (forall i :: 0 <= i < |a.drivers| ==>
          a.drivers[i].id == b.drivers[i].id && IsPrefix(a.drivers[i].violations, b.drivers[i].violations))
    && (forall i :: 0 <= i < |a.shops| ==>
          a.shops[i].id == b.shops[i].id && IsPrefix(a.shops[i].violations, b.shops[i].violations))
    && (forall i :: 0 <= i < |a.rides| ==> a.rides[i].id == b.rides[i].id)
    && (forall i :: 0 <= i < |a.orders| ==> a.orders[i].id == b.orders[i].id)
  }

  lemma HistoryExtendsTransitive(a: Snapshot, b: Snapshot, c: Snapshot)
    requires HistoryExtends(a, b) && HistoryExtends(b, c)
    ensures HistoryExtends(a, c)
  {
    forall i | 0 <= i < |a.customers|
      ensures IsPrefix(a.customers[i].violations, c.customers[i].violations)
    {
      PrefixTransitive(a.customers[i].violations, b.customers[i].violations, c.customers[i].violations);
    }
    forall i | 0 <= i < |a.drivers|
      ensures IsPrefix(a.drivers[i].violations, c.drivers[i].violations)
    {
      PrefixTransitive(a.drivers[i].violations, b.drivers[i].violations, c.drivers[i].violations);
    }
    forall i | 0 <= i < |a.shops|
      ensures IsPrefix(a.shops[i].violations, c.shops[i].violations)
    {
      PrefixTransitive(a.shops[i].violations, b.shops[i].violations, c.shops[i].violations);
    }
  }

  lemma CustomersKeepHistory(cs: seq<Customer>, m: Mutation)
    ensures var r := ApplyToCustomers(cs, m);
      forall i :: 0 <= i < |cs| ==> r[i].id == cs[i].id && IsPrefix(cs[i].violations, r[i].violations)
  {
    var r := ApplyToCustomers(cs, m);
    forall i | 0 <= i < |cs|
      ensures r[i].id == cs[i].id && IsPrefix(cs[i].violations, r[i].violations)
    {
      assert r[i].violations[..|cs[i].violations|] == cs[i].violations;
    }
  }

  lemma DriversKeepHistory(ds: seq<Driver>, m: Mutation)
    ensures var r := ApplyToDrivers(ds, m);
      forall i :: 0 <= i < |ds| ==> r[i].id == ds[i].id && IsPrefix(ds[i].violations, r[i].violations)
  {
    var r := ApplyToDrivers(ds, m);
    forall i | 0 <= i < |ds|
      ensures r[i].id == ds[i].id && IsPrefix(ds[i].violations, r[i].violations)
    {
      assert r[i].violations[..|ds[i].violations|] == ds[i].violations;
    }
  }

  lemma ShopsKeepHistory(ss: seq<Shop>, m: Mutation)
    ensures var r := ApplyToShops(ss, m);
      forall i :: 0 <= i < |ss| ==> r[i].id == ss[i].id && IsPrefix(ss[i].violations, r[i].violations)
  {
    var r := ApplyToShops(ss, m);
    forall i | 0 <= i < |ss|
      ensures r[i].id == ss[i].id && IsPrefix(ss[i].violations, r[i].violations)
    {
      assert r[i].violations[..|ss[i].violations|] == ss[i].violations;
    }
  }

  /** One mutation keeps every record in place and only appends to violation histories. */
  lemma ApplyExtendsHistory(st: Snapshot, m: Mutation)
    ensures HistoryExtends(st, Apply(st, m))
  {
    CustomersKeepHistory(st.customers, m);
    DriversKeepHistory(st.drivers, m);
    ShopsKeepHistory(st.shops, m);
  }

  /**
   * Over any run of mutations no record is lost, moved or renamed, and no
   * violation is ever removed or rewritten: histories are append-only.
   */
  lemma {:induction false} ApplyAllExtendsHistory(st: Snapshot, ms: seq<Mutation>)
    ensures HistoryExtends(st, ApplyAll(st, ms))
    decreases |ms|
  {
    if |ms| == 0 {
      assert HistoryExtends(st, st);
    } else {
      ApplyExtendsHistory(st, ms[0]);
      ApplyAllExtendsHistory(Apply(st, ms[0]), ms[1..]);
      HistoryExtendsTransitive(st, Apply(st, ms[0]), ApplyAll(st, ms));
    }
  }

  /** Filters with predicates that agree on every element give the same result. */
  lemma {:induction false} FilterSame<T>(s: seq<T>, p: T -> bool, q: T -> bool)
    requires forall x :: x in s ==> p(x) == q(x)
    ensures Filter(s, p) == Filter(s, q)
  {
    if |s| > 0 {
      FilterSame(s[1..], p, q);
    }
  }
}
