/**
 * The users page: status and name filters over the customers, drivers and
 * shops of the last notification, the suspend / unsuspend / approve
 * handlers and the status badge classes.
 */
module AdminUsers {
  import opened Wrappers
  import opened Text
  import opened Seqs
  import opened AdminDomain

  // ---------------------------------------------------------------- filters

  /**
   * The rule all three lists share: the status filter is "all" or names the
   * entity's status, and the query is empty or occurs in the name, both
   * lower-cased.
   */
  predicate Keep(name: string, status: UserStatus, filterStatus: string, query: string) {
    && (filterStatus == "all" || UserStatusName(status) == filterStatus)
    && (query == "" || Contains(ToLower(name), ToLower(query)))
  }

  function KeepCustomer(fs: string, q: string): Customer -> bool {
    (c: Customer) => Keep(c.name, c.status, fs, q)
  }

  function KeepDriver(fs: string, q: string): Driver -> bool {
    (d: Driver) => Keep(d.name, d.status, fs, q)
  }

  function KeepShop(fs: string, q: string): Shop -> bool {
    (s: Shop) => Keep(s.name, s.status, fs, q)
  }

  /** `getFilteredUsers()`: the customers the rule keeps, in store order. */
  function FilteredUsers(cs: seq<Customer>, fs: string, q: string): (r: seq<Customer>)
    ensures forall c :: c in r <==> c in cs && Keep(c.name, c.status, fs, q)
    ensures IsSubsequence(r, cs)
  {
    FilterIsSubsequence(cs, KeepCustomer(fs, q));
    Filter(cs, KeepCustomer(fs, q))
  }

  /** `getFilteredDrivers()`. */
  function FilteredDrivers(ds: seq<Driver>, fs: string, q: string): (r: seq<Driver>)
    ensures forall d :: d in r <==> d in ds && Keep(d.name, d.status, fs, q)
    ensures IsSubsequence(r, ds)
  {
    FilterIsSubsequence(ds, KeepDriver(fs, q));
    Filter(ds, KeepDriver(fs, q))
  }

  /** `getFilteredShops()`. */
  function FilteredShops(ss: seq<Shop>, fs: string, q: string): (r: seq<Shop>)
    ensures forall s :: s in r <==> s in ss && Keep(s.name, s.status, fs, q)
    ensures IsSubsequence(r, ss)
  {
    FilterIsSubsequence(ss, KeepShop(fs, q));
    Filter(ss, KeepShop(fs, q))
  }

  /** With "all" and an empty search every list is shown whole, in order. */
  lemma AllStatusEmptySearchShowsEverything(cs: seq<Customer>, ds: seq<Driver>, ss: seq<Shop>)
    ensures FilteredUsers(cs, "all", "") == cs
    ensures FilteredDrivers(ds, "all", "") == ds
    ensures FilteredShops(ss, "all", "") == ss
  {
    FilterAll(cs, KeepCustomer("all", ""));
    FilterAll(ds, KeepDriver("all", ""));
    FilterAll(ss, KeepShop("all", ""));
  }

  /** Distinct statuses have distinct names. */
  lemma StatusNamesDistinct(a: UserStatus, b: UserStatus)
    ensures UserStatusName(a) == UserStatusName(b) <==> a == b
  {
  }

  /** Choosing a status option keeps exactly the entities with that status. */
  lemma StatusOptionSelectsStatus(name: string, status: UserStatus, s: UserStatus, q: string)
    ensures Keep(name, status, UserStatusName(s), q) <==> status == s && Keep(name, status, "all", q)
  {
    StatusNamesDistinct(status, s);
  }

  /** The search ignores the case of the query and of the name. */
  lemma SearchIgnoresCase(name: string, status: UserStatus, fs: string, q: string)
    ensures Keep(name, status, fs, q) <==> Keep(ToLower(name), status, fs, ToLower(q))
  {
    ToLowerIdempotent(name);
    ToLowerIdempotent(q);
  }

  // --------------------------------------------------------------- handlers

  datatype EntityKind = CustomerKind | DriverKind | ShopKind

  /** The entity whose detail panel is open. */
  datatype Selection = Selection(kind: EntityKind, id: int)

  /** The page state the handlers change. */
  datatype UsersPage = UsersPage(suspendReason: string, selected: Option<Selection>)

  /** The store call a suspension of that kind of entity makes. */
  function SuspendCall(kind: EntityKind, id: int, reason: string, now: nat): (m: Mutation)
    ensures PartOf(m) == match kind
      case CustomerKind => CustomersPart
      case DriverKind => DriversPart
      case ShopKind => ShopsPart
  {
    match kind
    case CustomerKind => Mutation.SuspendCustomer(id, reason, now)
    case DriverKind => Mutation.SuspendDriver(id, reason, now)
    case ShopKind => Mutation.SuspendShop(id, reason, now)
  }

  /**
   * `handleSuspend(id, type)`: a reason that is empty after trimming makes
   * no store call and changes nothing; otherwise the untrimmed reason is
   * passed on, and the reason field and the selection are cleared.
   */
  function HandleSuspend(page: UsersPage, kind: EntityKind, id: int, now: nat): (r: (UsersPage, Option<Mutation>))
    ensures r.1.None? <==> IsBlank(page.suspendReason)
    ensures r.1.None? ==> r.0 == page
    ensures r.1.Some? ==> r.0 == UsersPage("", None) && r.1.value == SuspendCall(kind, id, page.suspendReason, now)
  {
    if IsBlank(page.suspendReason) then (page, None)
    else (UsersPage("", None), Some(SuspendCall(kind, id, page.suspendReason, now)))
  }

  /** A suspension issued from the page records the reason as typed, surrounding spaces included. */
  lemma SuspendKeepsReasonVerbatim(st: Snapshot, page: UsersPage, i: nat, now: nat)
    requires i < |st.customers| && !IsBlank(page.suspendReason)
    ensures var m := HandleSuspend(page, CustomerKind, st.customers[i].id, now).1.value;
      var c := Apply(st, m).customers[i];
      && c.status == Suspended
      && c.violations == st.customers[i].violations + [NewViolation(PolicyViolation, page.suspendReason, now)]
  {
  }

  /** `handleUnsuspend(id, type)`: always calls the store and closes the panel. */
  function HandleUnsuspend(page: UsersPage, kind: EntityKind, id: int): (r: (UsersPage, Mutation))
    ensures r.0 == page.(selected := None)
    ensures r.1 in {Mutation.UnsuspendCustomer(id), Mutation.UnsuspendDriver(id), Mutation.UnsuspendShop(id)}
    ensures PartOf(r.1) == PartOf(SuspendCall(kind, id, "", 0))
  {
    match kind
    case CustomerKind => (page.(selected := None), Mutation.UnsuspendCustomer(id))
    case DriverKind => (page.(selected := None), Mutation.UnsuspendDriver(id))
    case ShopKind => (page.(selected := None), Mutation.UnsuspendShop(id))
  }

  /** `handleApproveDriver(id)`: approve, stamped with `now`, and close the panel. */
  function HandleApproveDriver(page: UsersPage, id: int, now: nat): (r: (UsersPage, Mutation))
    ensures r.0 == page.(selected := None) && r.1 == Mutation.ApproveDriver(id, now)
  {
    (page.(selected := None), Mutation.ApproveDriver(id, now))
  }

  /** `handleApproveShop(id)`. */
  function HandleApproveShop(page: UsersPage, id: int): (r: (UsersPage, Mutation))
    ensures r.0 == page.(selected := None) && r.1 == Mutation.ApproveShop(id)
  {
    (page.(selected := None), Mutation.ApproveShop(id))
  }

  // ---------------------------------------------------------------- badges

  /** `getStatusColor(status)`: three statuses have their own class, anything else is shown as rejected. */
  function StatusClass(status: string): (cls: string)
    ensures status in {"active", "suspended", "pending"} ==> cls == "status-" + status
    ensures status !in {"active", "suspended", "pending"} ==> cls == "status-rejected"
  {
    if status == "active" then "status-active"
    else if status == "suspended" then "status-suspended"
    else if status == "pending" then "status-pending"
    else "status-rejected"
  }

  /** Every status the store uses gets the class named after it. */
  lemma EveryStatusHasItsClass(s: UserStatus)
    ensures StatusClass(UserStatusName(s)) == "status-" + UserStatusName(s)
  {
  }

}
