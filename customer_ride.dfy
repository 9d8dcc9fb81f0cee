/**
 * The customer screen's ride request: a status machine driven by the
 * customer's buttons and by timeouts scheduled when a ride is requested.
 *
 * Scheduled callbacks are kept in `pending`, in the order their delays make
 * them fire (the match after 3 s or 4 s, then "on the way" and "arrived"
 * 2-2.5 s and 5-5.5 s after the match); `Fire` runs the first one. The
 * cheap-mode match draws one random number, passed to `Fire`.
 */
module CustomerRide {
  import opened Wrappers

  datatype Mode = Normal | Cheap

  datatype Status =
    | Idle | Searching | Queued | DriverAssigned | DriverOnWay | DriverArrived | Completed | Timeout

  datatype DriverInfo = DriverInfo(name: string, bike: string, plate: string)

  /** A scheduled callback. */
  datatype Timer = MatchNormal | MatchCheap | SetOnWay | SetArrived

  datatype Screen = Screen(
    mode: Mode, pickup: string, dropoff: string, showRideForm: bool,
    status: Status, driver: Option<DriverInfo>, pending: seq<Timer>)

  const InitialScreen := Screen(Normal, "", "", false, Idle, None, [])
  const CheapDriver := DriverInfo("Samuel Moto", "TVS HLX", "CM-884-YA")
  const NormalDriver := DriverInfo("Jean Moto", "Bajaj Boxer", "LT-239-CM")
  /** A cheap-mode match succeeds when the draw is strictly above this. */
  const CheapMatchThreshold := 0.4

  /** The price and ETA shown under the form. */
  datatype Estimate = Estimate(price: string, eta: string)

  /** Both fields are filled in (non-empty strings are truthy). */
  predicate RouteGiven(pickup: string, dropoff: string) {
    pickup != "" && dropoff != ""
  }

  function EstimateFor(pickup: string, dropoff: string, mode: Mode): (e: Estimate)
    ensures !RouteGiven(pickup, dropoff) ==> e == Estimate("--", "--")
    ensures RouteGiven(pickup, dropoff) && mode == Normal ==> e == Estimate("1,500 FCFA", "5 mins")
    ensures RouteGiven(pickup, dropoff) && mode == Cheap ==> e == Estimate("1,000 FCFA", "10–15 mins")
    ensures e.price == "--" <==> e.eta == "--"
  {
    if pickup != "" && dropoff != "" then
      if mode == Normal then Estimate("1,500 FCFA", "5 mins") else Estimate("1,000 FCFA", "10–15 mins")
    else Estimate("--", "--")
  }

  /** The confirm button is enabled exactly when a price is shown. */
  lemma ConfirmEnabledIffPriced(pickup: string, dropoff: string, mode: Mode)
    ensures RouteGiven(pickup, dropoff) <==> EstimateFor(pickup, dropoff, mode).price != "--"
  {
  }

  /** The fare shown on the "Ride Completed" card. */
  function FinalFare(mode: Mode): string {
    if mode == Normal then "1,650 FCFA" else "950 FCFA"
  }

  /** `requestRide()`: cheap mode queues, normal mode searches; either schedules its match. */
  function RequestRide(s: Screen): (r: Screen)
    ensures s.mode == Cheap ==> r.status == Queued && r.pending == s.pending + [MatchCheap]
    ensures s.mode == Normal ==> r.status == Searching && r.pending == s.pending + [MatchNormal]
    ensures r == s.(status := r.status, pending := r.pending)
  {
    if s.mode == Cheap then s.(status := Queued, pending := s.pending + [MatchCheap])
    else s.(status := Searching, pending := s.pending + [MatchNormal])
  }

  /** Runs a matched driver: record the driver, "driver_assigned", then schedule on-the-way and arrival. */
  function Matched(s: Screen, rest: seq<Timer>, d: DriverInfo): Screen {
    s.(driver := Some(d), status := DriverAssigned, pending := rest + [SetOnWay, SetArrived])
  }

  /** The earliest scheduled callback runs; `draw` is the cheap match's `Math.random()`. */
  function Fire(s: Screen, draw: real): (r: Screen)
    ensures s.pending == [] ==> r == s
    ensures |s.pending| > 0 && s.pending[0] == MatchCheap && draw <= CheapMatchThreshold ==>
      r == s.(status := Timeout, pending := s.pending[1..])
    ensures |s.pending| > 0 && s.pending[0] == MatchCheap && draw > CheapMatchThreshold ==>
      r.status == DriverAssigned && r.driver == Some(CheapDriver)
    ensures |s.pending| > 0 && s.pending[0] == MatchNormal ==>
      r.status == DriverAssigned && r.driver == Some(NormalDriver)
    ensures |s.pending| > 0 && (s.pending[0] == MatchNormal || s.pending[0] == MatchCheap) ==>
      r.status == Timeout || r.pending == s.pending[1..] + [SetOnWay, SetArrived]
    ensures |s.pending| > 0 && s.pending[0] == SetOnWay ==> r == s.(status := DriverOnWay, pending := s.pending[1..])
    ensures |s.pending| > 0 && s.pending[0] == SetArrived ==> r == s.(status := DriverArrived, pending := s.pending[1..])
    ensures r.mode == s.mode && r.pickup == s.pickup && r.dropoff == s.dropoff && r.showRideForm == s.showRideForm
  {
    if s.pending == [] then s
    else
      var rest := s.pending[1..];
      match s.pending[0]
      case MatchCheap =>
        if draw > CheapMatchThreshold then Matched(s, rest, CheapDriver)
        else s.(status := Timeout, pending := rest)
      case MatchNormal => Matched(s, rest, NormalDriver)
      case SetOnWay => s.(status := DriverOnWay, pending := rest)
      case SetArrived => s.(status := DriverArrived, pending := rest)
  }

  /** The customer's inputs. */
  datatype Event =
    | OpenRideRequest
    | CloseForm
    | ChooseMode(m: Mode)
    | EditPickup(text: string)
    | EditDropoff(text: string)
    | Confirm
    | CompleteRide
    | TryAgain
    | BookAnother
    | TimerFires(draw: real)

  /** Which buttons the current view shows (the idle view shows the form's controls). */
  predicate Offered(status: Status, e: Event) {
    match e
    case OpenRideRequest | CloseForm | ChooseMode(_) | EditPickup(_) | EditDropoff(_) | Confirm => status == Idle
    case CompleteRide => status == DriverArrived
    case TryAgain => status == Timeout
    case BookAnother => status == Completed
    case TimerFires(_) => true
  }

  /** One input. Buttons not on screen do nothing; a disabled confirm does nothing. */
  function Step(s: Screen, e: Event): (r: Screen)
    ensures !Offered(s.status, e) ==> r == s
    ensures e == Confirm && !RouteGiven(s.pickup, s.dropoff) ==> r == s
    ensures e == Confirm && s.status == Idle && RouteGiven(s.pickup, s.dropoff) ==>
      !r.showRideForm && r.status in {Searching, Queued}
  {
    if !Offered(s.status, e) then s
    else match e
      case OpenRideRequest => if s.status == Idle then s.(showRideForm := true) else s
      case CloseForm => s.(showRideForm := false)
      case ChooseMode(m) => s.(mode := m)
      case EditPickup(t) => s.(pickup := t)
      case EditDropoff(t) => s.(dropoff := t)
      case Confirm => if RouteGiven(s.pickup, s.dropoff) then RequestRide(s.(showRideForm := false)) else s
      case CompleteRide => s.(status := Completed)
      case TryAgain => s.(status := Idle)
      case BookAnother => s.(status := Idle)
      case TimerFires(draw) => Fire(s, draw)
  }

  /** `handleOpenRideRequest`: the form opens only from "idle". */
  lemma FormOpensOnlyWhenIdle(s: Screen, e: Event)
    requires !s.showRideForm && Step(s, e).showRideForm
    ensures s.status == Idle && e == OpenRideRequest
  {
  }

  /** "completed" is entered only by the "Start & Complete Ride" button, shown only in "driver_arrived". */
  lemma CompletedOnlyByButton(s: Screen, e: Event)
    requires s.status != Completed && Step(s, e).status == Completed
    ensures e == CompleteRide && s.status == DriverArrived
  {
  }

  /** "timeout" and "completed" go back to "idle" only through their own buttons. */
  lemma IdleOnlyByButtons(s: Screen, e: Event)
    requires s.status != Idle && Step(s, e).status == Idle
    ensures s.status == Timeout ==> e == TryAgain
    ensures s.status == Completed ==> e == BookAnother
    ensures s.status == Timeout || s.status == Completed
  {
  }

  /**
   * What the screen keeps true: the scheduled callbacks are exactly those
   * the current status still waits for, and a driver is known from the
   * match on.
   */
  predicate Inv(s: Screen) {
    match s.status
    case Idle | DriverArrived | Completed | Timeout => s.pending == []
    case Searching => s.pending == [MatchNormal] && s.mode == Normal
    case Queued => s.pending == [MatchCheap] && s.mode == Cheap
    case DriverAssigned => s.pending == [SetOnWay, SetArrived] && s.driver.Some?
    case DriverOnWay => s.pending == [SetArrived] && s.driver.Some?
  }

  /** The designed flow, from the screen's point of view. */
  predicate DesignedMove(a: Status, b: Status) {
    || a == b
    || (a == Idle && (b == Searching || b == Queued))
    || (a == Searching && b == DriverAssigned)
    || (a == Queued && (b == DriverAssigned || b == Timeout))
    || (a == DriverAssigned && b == DriverOnWay)
    || (a == DriverOnWay && b == DriverArrived)
    || (a == DriverArrived && b == Completed)
    || ((a == Completed || a == Timeout) && b == Idle)
  }

  /** Every input keeps the invariant and moves the status only along the designed flow. */
  lemma StepFollowsDesign(s: Screen, e: Event)
    requires Inv(s)
    ensures Inv(Step(s, e))
    ensures DesignedMove(s.status, Step(s, e).status)
  {
  }

  function Run(s: Screen, es: seq<Event>): Screen
    decreases |es|
  {
    if |es| == 0 then s else Run(Step(s, es[0]), es[1..])
  }

  /** Over any run of inputs the invariant holds, so every step of the run follows the designed flow. */
  lemma {:induction false} RunFollowsDesign(s: Screen, es: seq<Event>)
    requires Inv(s)
    ensures Inv(Run(s, es))
    decreases |es|
  {
    if |es| > 0 {
      StepFollowsDesign(s, es[0]);
      RunFollowsDesign(Step(s, es[0]), es[1..]);
    }
  }

  /** A normal request always ends with Jean Moto at the pickup after three callbacks. */
  lemma NormalRequestArrives(s: Screen, d1: real, d2: real, d3: real)
    requires s.status == Idle && s.mode == Normal && s.pending == [] && RouteGiven(s.pickup, s.dropoff)
    ensures Step(s, Confirm).status == Searching
    ensures var t := Run(Step(s, Confirm), [TimerFires(d1), TimerFires(d2), TimerFires(d3)]);
      t.status == DriverArrived && t.driver == Some(NormalDriver) && t.pending == []
  {
    var s1 := Step(s, Confirm);
    assert s1.pending == [MatchNormal] && s1.status == Searching;
    var s2 := Step(s1, TimerFires(d1));
    assert s2 == Matched(s1, [], NormalDriver);
    var s3 := Step(s2, TimerFires(d2));
    assert s3 == s2.(status := DriverOnWay, pending := [SetArrived]);
    var s4 := Step(s3, TimerFires(d3));
    assert s4 == s3.(status := DriverArrived, pending := []);
    RunThree(s1, TimerFires(d1), TimerFires(d2), TimerFires(d3));
  }

  lemma RunThree(s: Screen, e1: Event, e2: Event, e3: Event)
    ensures Run(s, [e1, e2, e3]) == Step(Step(Step(s, e1), e2), e3)
  {
    assert [e1, e2, e3][1..] == [e2, e3];
    assert [e2, e3][1..] == [e3];
    var s3 := Step(Step(Step(s, e1), e2), e3);
    assert Run(s3, []) == s3;
    assert Run(Step(Step(s, e1), e2), [e3]) == Run(s3, [e3][1..]);
  }

  /** A cheap request times out when the draw is at most 0.4, and otherwise ends with Samuel Moto at the pickup. */
  lemma CheapRequestResolves(s: Screen, d1: real, d2: real, d3: real)
    requires s.status == Idle && s.mode == Cheap && s.pending == [] && RouteGiven(s.pickup, s.dropoff)
    ensures Step(s, Confirm).status == Queued
    ensures d1 <= CheapMatchThreshold ==>
      var t := Step(Step(s, Confirm), TimerFires(d1));
      t.status == Timeout && t.pending == []
    ensures d1 > CheapMatchThreshold ==>
      var t := Run(Step(s, Confirm), [TimerFires(d1), TimerFires(d2), TimerFires(d3)]);
      t.status == DriverArrived && t.driver == Some(CheapDriver) && t.pending == []
  {
    var s1 := Step(s, Confirm);
    var s2 := Step(s1, TimerFires(d1));
    if d1 > CheapMatchThreshold {
      assert s2.pending == [SetOnWay, SetArrived];
      var s3 := Step(s2, TimerFires(d2));
      assert s3.pending == [SetArrived];
      RunThree(s1, TimerFires(d1), TimerFires(d2), TimerFires(d3));
    }
  }

  // ------------------------------------------------------------ the class

  /** The screen's state variables, replaced by the handlers and the callbacks. */
  class CustomerScreen {
    var mode: Mode
    var pickup: string
    var dropoff: string
    var showRideForm: bool
    var status: Status
    var driver: Option<DriverInfo>
    var pending: seq<Timer>

    constructor ()
      ensures State() == InitialScreen
    {
      mode, pickup, dropoff, showRideForm := Normal, "", "", false;
      status, driver, pending := Idle, None, [];
    }

    function State(): Screen
      reads this
    {
      Screen(mode, pickup, dropoff, showRideForm, status, driver, pending)
    }

    /** `handleOpenRideRequest`. */
    method OpenRideRequest()
      modifies this
      ensures State() == Step(old(State()), Event.OpenRideRequest)
    {
      if status == Idle {
        showRideForm := true;
      }
    }

    /** The enabled confirm button: hide the form and `requestRide()`. */
    method ConfirmRequest()
      modifies this
      ensures State() == Step(old(State()), Confirm)
    {
      if status == Idle && pickup != "" && dropoff != "" {
        showRideForm := false;
        if mode == Cheap {
          status := Queued;
          pending := pending + [MatchCheap];
        } else {
          status := Searching;
          pending := pending + [MatchNormal];
        }
      }
    }

    /** `completeRide`, reachable through its button in "driver_arrived". */
    method CompleteRidePressed()
      modifies this
      ensures State() == Step(old(State()), CompleteRide)
    {
      if status == DriverArrived {
        status := Completed;
      }
    }

    /** "Try Again" (timeout) or "Book Another Ride" (completed). */
    method BackToIdle()
      modifies this
      ensures old(status) == Timeout ==> State() == Step(old(State()), TryAgain)
      ensures old(status) == Completed ==> State() == Step(old(State()), BookAnother)
      ensures old(status) != Timeout && old(status) != Completed ==> State() == old(State())
    {
      if status == Timeout || status == Completed {
        status := Idle;
      }
    }

    /** The earliest scheduled callback runs. */
    method TimerFired(draw: real)
      modifies this
      ensures State() == Step(old(State()), TimerFires(draw))
    {
      if pending != [] {
        var t := pending[0];
        pending := pending[1..];
        match t {
          case MatchCheap =>
            if draw > CheapMatchThreshold {
              driver := Some(CheapDriver);
              status := DriverAssigned;
              pending := pending + [SetOnWay, SetArrived];
            } else {
              status := Timeout;
            }
          case MatchNormal =>
            driver := Some(NormalDriver);
            status := DriverAssigned;
            pending := pending + [SetOnWay, SetArrived];
          case SetOnWay => status := DriverOnWay;
          case SetArrived => status := DriverArrived;
        }
      }
    }
  }
}
