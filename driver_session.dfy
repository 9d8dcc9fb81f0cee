/**
 * The driver screen's session: online flag, pending offers, the active job,
 * the earnings strip, the no-show countdown and the release timers.
 *
 * Timers are events. `OfferTick` is one firing of the 3.5 s offer interval,
 * `CountdownTick` one firing of the 1 s countdown timeout together with
 * the effect that reacts to the new value, and `ReleaseFire` one firing of
 * a scheduled "clear the active job" timeout; `pendingReleases` counts the
 * scheduled ones that have not fired.
 */
module DriverSession {
  import opened Wrappers
  import opened Seqs
  import opened DriverModel
  import opened ActiveJobCard

  /** The active job as the session holds it: the accepted offer and its status. */
  datatype JobValue = JobValue(offer: OfferData, status: JobStatus)

  datatype Earnings = Earnings(today: int, week: int, month: int)

  datatype Session = Session(
    online: bool, offers: seq<OfferData>, activeJob: Option<JobValue>,
    earnings: Earnings, pickupCountdown: Option<int>, pendingReleases: nat)

  const MaxOffers := 3
  const NoShowWindow := 90
  const InitialSession := Session(false, [], None, Earnings(4200, 18200, 62400), None, 0)

  /** What the session keeps true between events. */
  predicate Inv(s: Session) {
    && |s.offers| <= MaxOffers
    && (s.activeJob.Some? ==> s.offers == [])
    && (s.pickupCountdown.Some? ==> 1 <= s.pickupCountdown.value <= NoShowWindow)
  }

  /** One firing of the offer interval: it runs only while online, and adds only with no job and fewer than 3 offers. */
  function OfferTick(s: Session, o: OfferData): (r: Session)
    ensures r == s || (r == s.(offers := s.offers + [o]) && s.online && s.activeJob.None? && |s.offers| < MaxOffers)
    ensures s.online && s.activeJob.None? && |s.offers| < MaxOffers ==> r.offers == s.offers + [o]
    ensures |s.offers| <= MaxOffers ==> |r.offers| <= MaxOffers
  {
    if !s.online || s.activeJob.Some? || |s.offers| >= MaxOffers then s
    else s.(offers := s.offers + [o])
  }

  /** `toggleOnline`: flips the flag; going offline drops every pending offer. */
  function ToggleOnline(s: Session): (r: Session)
    ensures r.online == !s.online
    ensures s.online ==> r.offers == []
    ensures !s.online ==> r.offers == s.offers
    ensures r.(online := s.online, offers := s.offers) == s
  {
    if s.online then s.(online := false, offers := []) else s.(online := true)
  }

  /** The index of the first offer with the id, if any (`offers.find`). */
  function FindOffer(offers: seq<OfferData>, id: string): (i: Option<nat>)
    ensures i.None? ==> forall o :: o in offers ==> o.id != id
    ensures i.Some? ==> i.value < |offers| && offers[i.value].id == id
    ensures i.Some? ==> forall j :: 0 <= j < i.value ==> offers[j].id != id
  {
    if |offers| == 0 then None
    else if offers[0].id == id then Some(0)
    else match FindOffer(offers[1..], id)
      case None => None
      case Some(k) => Some(k + 1)
  }

  /** `acceptOffer(id)`: an unknown id changes nothing; otherwise the first such offer becomes an assigned job and all offers go. */
  function AcceptOffer(s: Session, id: string): (r: Session)
    ensures (forall o :: o in s.offers ==> o.id != id) ==> r == s
    ensures (exists o :: o in s.offers && o.id == id) ==>
      && r.offers == []
      && r.activeJob.Some? && r.activeJob.value.status == Assigned
      && r.activeJob.value.offer in s.offers && r.activeJob.value.offer.id == id
      && r == s.(offers := [], activeJob := r.activeJob)
    ensures forall i :: 0 <= i < |s.offers| && s.offers[i].id == id && (forall j :: 0 <= j < i ==> s.offers[j].id != id) ==>
      r.activeJob == Some(JobValue(s.offers[i], Assigned))
  {
    match FindOffer(s.offers, id)
    case None => s
    case Some(i) => s.(activeJob := Some(JobValue(s.offers[i], Assigned)), offers := [])
  }

  /** `rejectOffer(id)`: removes exactly the offers with that id, keeping the others in order. */
  function RejectOffer(s: Session, id: string): (r: Session)
    ensures forall o :: o in r.offers <==> o in s.offers && o.id != id
    ensures IsSubsequence(r.offers, s.offers)
    ensures r == s.(offers := r.offers)
  {
    var keep := (o: OfferData) => o.id != id;
    FilterIsSubsequence(s.offers, keep);
    s.(offers := Filter(s.offers, keep))
  }

  /**
   * `updateJobStatus(status)`: without a job nothing happens. Otherwise the
   * status is overwritten, "arrived" starts the 90-step countdown and any
   * other status clears it, "completed" credits the fare to today's
   * earnings, and "completed" and "cancelled" schedule the job's release.
   */
  function UpdateJobStatus(s: Session, status: JobStatus): (r: Session)
    ensures s.activeJob.None? ==> r == s
    ensures s.activeJob.Some? ==>
      && r.activeJob == Some(s.activeJob.value.(status := status))
      && r.pickupCountdown == (if status == Arrived then Some(NoShowWindow) else None)
      && r.earnings.week == s.earnings.week && r.earnings.month == s.earnings.month
      && r.earnings.today == s.earnings.today + (if status == Completed then s.activeJob.value.offer.fare else 0)
      && r.pendingReleases == s.pendingReleases + (if status == Completed || status == Cancelled then 1 else 0)
      && r.online == s.online && r.offers == s.offers
  {
    match s.activeJob
    case None => s
    case Some(job) =>
      s.(activeJob := Some(job.(status := status)),
         pickupCountdown := if status == Arrived then Some(NoShowWindow) else None,
         earnings := if status == Completed then s.earnings.(today := s.earnings.today + job.offer.fare) else s.earnings,
         pendingReleases := if status == Completed || status == Cancelled then s.pendingReleases + 1 else s.pendingReleases)
  }

  /** The countdown effect at zero or below: clear the countdown and cancel a job still "arrived"; no release is scheduled. */
  function ExpireCountdown(s: Session): (r: Session)
    ensures r.pickupCountdown.None?
    ensures r.activeJob == if s.activeJob.Some? && s.activeJob.value.status == Arrived
                           then Some(s.activeJob.value.(status := Cancelled)) else s.activeJob
    ensures r.pendingReleases == s.pendingReleases
    ensures r == s.(pickupCountdown := None, activeJob := r.activeJob)
  {
    var job := match s.activeJob
      case Some(j) => if j.status == Arrived then Some(j.(status := Cancelled)) else s.activeJob
      case None => None;
    s.(pickupCountdown := None, activeJob := job)
  }

  /** One second of the countdown: without a countdown nothing happens; reaching zero expires it. */
  function CountdownTick(s: Session): (r: Session)
    ensures s.pickupCountdown.None? ==> r == s
    ensures s.pickupCountdown.Some? && s.pickupCountdown.value > 1 ==>
      r == s.(pickupCountdown := Some(s.pickupCountdown.value - 1))
    ensures s.pickupCountdown.Some? && s.pickupCountdown.value <= 1 ==> r == ExpireCountdown(s)
    ensures r.pickupCountdown.Some? ==> r.pickupCountdown.value >= 1
  {
    match s.pickupCountdown
    case None => s
    case Some(n) => if n <= 1 then ExpireCountdown(s) else s.(pickupCountdown := Some(n - 1))
  }

  /** A scheduled release fires: the active job is dropped. */
  function ReleaseFire(s: Session): (r: Session)
    ensures s.pendingReleases == 0 ==> r == s
    ensures s.pendingReleases > 0 ==> r == s.(activeJob := None, pendingReleases := s.pendingReleases - 1)
  {
    if s.pendingReleases == 0 then s else s.(activeJob := None, pendingReleases := s.pendingReleases - 1)
  }

  // ------------------------------------------------------------ invariant

  lemma OfferTickKeepsInv(s: Session, o: OfferData)
    requires Inv(s)
    ensures Inv(OfferTick(s, o))
  {
  }

  lemma ToggleOnlineKeepsInv(s: Session)
    requires Inv(s)
    ensures Inv(ToggleOnline(s))
  {
  }

  lemma AcceptOfferKeepsInv(s: Session, id: string)
    requires Inv(s)
    ensures Inv(AcceptOffer(s, id))
  {
  }

  lemma RejectOfferKeepsInv(s: Session, id: string)
    requires Inv(s)
    ensures Inv(RejectOffer(s, id))
  {
  }

  lemma UpdateJobStatusKeepsInv(s: Session, status: JobStatus)
    requires Inv(s)
    ensures Inv(UpdateJobStatus(s, status))
  {
  }

  lemma CountdownTickKeepsInv(s: Session)
    requires Inv(s)
    ensures Inv(CountdownTick(s))
  {
  }

  lemma ReleaseFireKeepsInv(s: Session)
    requires Inv(s)
    ensures Inv(ReleaseFire(s))
  {
  }

  // ------------------------------------------------------------ countdown

  /** `k` countdown ticks in a row. */
  function Ticks(s: Session, k: nat): Session
    decreases k
  {
    if k == 0 then s else Ticks(CountdownTick(s), k - 1)
  }

  /** Fewer ticks than the countdown shows only count down; the job is untouched. */
  lemma {:induction false} TicksCountDown(s: Session, n: int, k: nat)
    requires s.pickupCountdown == Some(n) && k < n
    ensures Ticks(s, k) == s.(pickupCountdown := Some(n - k))
    decreases k
  {
    if k > 0 {
      TicksCountDown(CountdownTick(s), n - 1, k - 1);
    }
  }

  /**
   * A countdown showing n expires on exactly the n-th tick: the job, if
   * still "arrived", becomes "cancelled", the countdown is cleared, and
   * further ticks change nothing (it never goes negative or fires twice).
   */
  lemma NoShowFiresOnce(s: Session, n: int, extra: nat)
    requires s.pickupCountdown == Some(n) && n >= 1
    ensures Ticks(s, n as nat) == ExpireCountdown(s)
    ensures Ticks(Ticks(s, n as nat), extra) == Ticks(s, n as nat)
  {
    TicksCountDown(s, n, n as nat - 1);
    var t := Ticks(s, n as nat - 1);
    assert Ticks(s, n as nat) == Ticks(t, 1) by {
      TicksSplit(s, n as nat - 1, 1);
    }
    TicksIdle(ExpireCountdown(s), extra);
  }

  lemma {:induction false} TicksSplit(s: Session, a: nat, b: nat)
    ensures Ticks(s, a + b) == Ticks(Ticks(s, a), b)
    decreases a
  {
    if a > 0 {
      TicksSplit(CountdownTick(s), a - 1, b);
    }
  }

  lemma {:induction false} TicksIdle(s: Session, k: nat)
    requires s.pickupCountdown.None?
    ensures Ticks(s, k) == s
    decreases k
  {
    if k > 0 {
      TicksIdle(CountdownTick(s), k - 1);
    }
  }

  /**
   * Accept an offer, report "arrived", then let 90 seconds pass: the job is
   * "cancelled" and the countdown is cleared.
   */
  lemma NoShowScenario(o: OfferData)
    ensures
      var s1 := OfferTick(ToggleOnline(InitialSession), o);
      var s2 := UpdateJobStatus(AcceptOffer(s1, o.id), Arrived);
      var s3 := Ticks(s2, NoShowWindow);
      && s3.activeJob == Some(JobValue(o, Cancelled))
      && s3.pickupCountdown.None?
  {
    var s1 := OfferTick(ToggleOnline(InitialSession), o);
    assert s1.offers == [o];
    var s2 := UpdateJobStatus(AcceptOffer(s1, o.id), Arrived);
    NoShowFiresOnce(s2, NoShowWindow, 0);
  }

  // ------------------------------------------------------- the no-show gap

  /** A session whose cancelled job is never released: no timer is pending and no countdown runs. */
  predicate StuckCancelled(s: Session) {
    && s.activeJob.Some? && s.activeJob.value.status == Cancelled
    && s.pendingReleases == 0 && s.pickupCountdown.None?
  }

  /**
   * As written, a no-show expiry cancels the job without scheduling its
   * release. From there no timer and no driver action frees the session:
   * the card shows no buttons for "cancelled", offers never arrive again,
   * and accepting or rejecting an offer has nothing to act on.
   */
  lemma NoShowNeverReleases(s: Session, o: OfferData, id: string)
    requires Inv(s) && s.activeJob.Some? && s.activeJob.value.status == Arrived
    requires s.pickupCountdown.Some? && s.pendingReleases == 0
    ensures StuckCancelled(Ticks(s, s.pickupCountdown.value as nat))
    ensures var t := Ticks(s, s.pickupCountdown.value as nat);
      && OfferTick(t, o) == t && CountdownTick(t) == t && ReleaseFire(t) == t
      && AcceptOffer(t, id) == t && RejectOffer(t, id) == t
      && StuckCancelled(ToggleOnline(t))
      && AvailableActions(t.activeJob.value.status) == []
  {
    NoShowFiresOnce(s, s.pickupCountdown.value, 0);
    var t := Ticks(s, s.pickupCountdown.value as nat);
    assert t.offers == [];
    FilterNone(t.offers, (x: OfferData) => x.id != id);
  }

  /** The countdown expiry with the release the explicit "No-show" button schedules. */
  function ExpireCountdownReleasing(s: Session): (r: Session)
    ensures r.pickupCountdown.None?
    ensures s.activeJob.Some? && s.activeJob.value.status == Arrived ==>
      r.activeJob == Some(s.activeJob.value.(status := Cancelled)) && r.pendingReleases == s.pendingReleases + 1
    ensures !(s.activeJob.Some? && s.activeJob.value.status == Arrived) ==> r == ExpireCountdown(s)
  {
    match s.activeJob
    case Some(j) =>
      if j.status == Arrived
      then s.(pickupCountdown := None, activeJob := Some(j.(status := Cancelled)),
              pendingReleases := s.pendingReleases + 1)
      else ExpireCountdown(s)
    case None => ExpireCountdown(s)
  }

  /** The corrected countdown tick: reaching zero expires through `ExpireCountdownReleasing`. */
  function CountdownTickReleasing(s: Session): (r: Session)
    ensures s.pickupCountdown.None? ==> r == s
    ensures s.pickupCountdown.Some? && s.pickupCountdown.value > 1 ==> r == CountdownTick(s)
  {
    match s.pickupCountdown
    case None => s
    case Some(n) => if n <= 1 then ExpireCountdownReleasing(s) else s.(pickupCountdown := Some(n - 1))
  }

  /** `k` corrected countdown ticks in a row. */
  function TicksReleasing(s: Session, k: nat): Session
    decreases k
  {
    if k == 0 then s else TicksReleasing(CountdownTickReleasing(s), k - 1)
  }

  /** Fewer corrected ticks than the countdown shows only count down. */
  lemma {:induction false} TicksReleasingCountDown(s: Session, n: int, k: nat)
    requires s.pickupCountdown == Some(n) && k < n
    ensures TicksReleasing(s, k) == s.(pickupCountdown := Some(n - k))
    decreases k
  {
    if k > 0 {
      TicksReleasingCountDown(CountdownTickReleasing(s), n - 1, k - 1);
    }
  }

  lemma {:induction false} TicksReleasingSplit(s: Session, a: nat, b: nat)
    ensures TicksReleasing(s, a + b) == TicksReleasing(TicksReleasing(s, a), b)
    decreases a
  {
    if a > 0 {
      TicksReleasingSplit(CountdownTickReleasing(s), a - 1, b);
    }
  }

  /**
   * With the corrected expiry the no-show behaves like the button: after
   * the countdown's ticks the job is "cancelled" with its release
   * scheduled, the release fires, the job is gone, and the next offer tick
   * while online adds an offer again. The countdown of 90 that "arrived"
   * starts is one instance.
   */
  lemma CorrectedNoShowFreesSession(s: Session, o: OfferData)
    requires Inv(s) && s.online && s.activeJob.Some? && s.activeJob.value.status == Arrived
    requires s.pickupCountdown.Some?
    ensures var e := TicksReleasing(s, s.pickupCountdown.value as nat);
      && e.activeJob == Some(s.activeJob.value.(status := Cancelled))
      && e.pickupCountdown.None? && e.pendingReleases == s.pendingReleases + 1
    ensures var t := ReleaseFire(TicksReleasing(s, s.pickupCountdown.value as nat));
      && t.activeJob.None? && t.pendingReleases == s.pendingReleases
      && OfferTick(t, o).offers == [o]
  {
    var n := s.pickupCountdown.value;
    TicksReleasingCountDown(s, n, n as nat - 1);
    TicksReleasingSplit(s, n as nat - 1, 1);
    var u := TicksReleasing(s, n as nat - 1);
    assert TicksReleasing(u, 1) == CountdownTickReleasing(u);
  }

  // ------------------------------------------------------------ the class

  /** The session as the screen's state variables, replaced by each handler and timer. */
  class DriverScreen {
    var online: bool
    var offers: seq<OfferData>
    var activeJob: Option<JobValue>
    var earnings: Earnings
    var pickupCountdown: Option<int>
    var pendingReleases: nat

    constructor ()
      ensures State() == InitialSession && Inv(State())
    {
      online := false;
      offers := [];
      activeJob := None;
      earnings := Earnings(4200, 18200, 62400);
      pickupCountdown := None;
      pendingReleases := 0;
    }

    function State(): Session
      reads this
    {
      Session(online, offers, activeJob, earnings, pickupCountdown, pendingReleases)
    }

    /** The offer interval fires with the generator's draws. */
    method OnOfferTick(typeDraw: real, idText: string, pickupDraw: real, dropoffDraw: real,
                       fareDraw: real, distanceDraw: real)
      requires 0.0 <= typeDraw < 1.0 && 0.0 <= pickupDraw < 1.0 && 0.0 <= dropoffDraw < 1.0
      requires 0.0 <= fareDraw < 1.0 && 0.0 <= distanceDraw < 1.0
      requires Inv(State())
      modifies this
      ensures State() == OfferTick(old(State()), RandomOfferData(typeDraw, idText, pickupDraw, dropoffDraw, fareDraw, distanceDraw))
      ensures Inv(State())
    {
      if online && activeJob.None? && |offers| < MaxOffers {
        offers := offers + [RandomOfferData(typeDraw, idText, pickupDraw, dropoffDraw, fareDraw, distanceDraw)];
      }
    }

    method OnToggleOnline()
      requires Inv(State())
      modifies this
      ensures State() == ToggleOnline(old(State())) && Inv(State())
    {
      if online {
        offers := [];
      }
      online := !online;
    }

    method OnAcceptOffer(id: string)
      requires Inv(State())
      modifies this
      ensures State() == AcceptOffer(old(State()), id) && Inv(State())
    {
      var i := FindOffer(offers, id);
      if i.Some? {
        activeJob := Some(JobValue(offers[i.value], Assigned));
        offers := [];
      }
    }

    method OnRejectOffer(id: string)
      requires Inv(State())
      modifies this
      ensures State() == RejectOffer(old(State()), id) && Inv(State())
    {
      offers := Filter(offers, (o: OfferData) => o.id != id);
    }

    method OnUpdateJobStatus(status: JobStatus)
      requires Inv(State())
      modifies this
      ensures State() == UpdateJobStatus(old(State()), status) && Inv(State())
    {
      if activeJob.Some? {
        var job := activeJob.value;
        activeJob := Some(job.(status := status));
        pickupCountdown := if status == Arrived then Some(NoShowWindow) else None;
        if status == Completed {
          earnings := earnings.(today := earnings.today + job.offer.fare);
          pendingReleases := pendingReleases + 1;
        }
        if status == Cancelled {
          pendingReleases := pendingReleases + 1;
        }
      }
    }

    method OnCountdownTick()
      requires Inv(State())
      modifies this
      ensures State() == CountdownTick(old(State())) && Inv(State())
    {
      if pickupCountdown.Some? {
        if pickupCountdown.value <= 1 {
          pickupCountdown := None;
          if activeJob.Some? && activeJob.value.status == Arrived {
            activeJob := Some(activeJob.value.(status := Cancelled));
          }
        } else {
          pickupCountdown := Some(pickupCountdown.value - 1);
        }
      }
    }

    method OnReleaseFire()
      requires Inv(State())
      modifies this
      ensures State() == ReleaseFire(old(State())) && Inv(State())
    {
      if pendingReleases > 0 {
        activeJob := None;
        pendingReleases := pendingReleases - 1;
      }
    }
  }
}
