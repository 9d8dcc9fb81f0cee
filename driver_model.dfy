/**
 * The driver-side data model: offers (with the random offer generator) and
 * jobs (an accepted offer plus a status that is overwritten in place).
 *
 * Each `Math.random()` call becomes a `real` draw in [0, 1), passed in the
 * order the original evaluates them; the base-36 text a draw prints as is
 * passed as a string.
 */
module DriverModel {
  import opened Wrappers
  import opened Text

  datatype OfferType = RideOffer | CheapOffer | ParcelOffer

  datatype OfferData = OfferData(
    id: string, kind: OfferType, pickup: string, dropoff: string,
    fare: int, distanceToPickup: string, note: Option<string>)

  datatype JobStatus = Assigned | OnWay | Arrived | Started | Completed | Cancelled

  const OfferTypes: seq<OfferType> := [RideOffer, CheapOffer, ParcelOffer]
  const PickupZones: seq<string> := ["Market Zone", "Station Zone", "Mall Zone", "School Zone"]
  const Dropoffs: seq<string> := ["Airport", "Center", "Harbor", "Clinic"]

  /** `String.prototype.slice(from, to)` for non-negative bounds: both are clamped to the length. */
  function Slice(s: string, from: nat, to: nat): (r: string)
    ensures |r| <= to - from || |r| == 0
    ensures |r| <= |s|
    ensures from <= to && to <= |s| ==> r == s[from..to]
  {
    var a := if from < |s| then from else |s|;
    var b := if to < |s| then to else |s|;
    if b <= a then "" else s[a..b]
  }

  /**
   * `randomId(prefix)`: the prefix, a dash, and characters 2 to 8 of the
   * draw printed in base 36 (`base36` is that printed text, "0.xxxx").
   */
  function RandomId(prefix: string, base36: string): (id: string)
    ensures StartsWith(id, prefix + "-")
    ensures |id| <= |prefix| + 8
  {
    prefix + "-" + Slice(base36, 2, 9)
  }

  /** `Math.floor(draw * n)`, an index below `n`. */
  function Pick(draw: real, n: nat): (i: nat)
    requires 0.0 <= draw < 1.0 && n > 0
    ensures i < n
  {
    var x := draw * n as real;
    assert 0.0 <= x < n as real by {
      assert (n as real) - x == (1.0 - draw) * (n as real);
    }
    x.Floor
  }

  function FareBase(t: OfferType): int {
    match t
    case CheapOffer => 800
    case ParcelOffer => 1200
    case RideOffer => 1500
  }

  /**
   * `Offer.random()`'s data from its six draws, in evaluation order: the
   * type, the id, the pickup, the dropoff, the fare delta and the distance.
   */
  function RandomOfferData(typeDraw: real, idText: string, pickupDraw: real, dropoffDraw: real,
                           fareDraw: real, distanceDraw: real): (o: OfferData)
    requires 0.0 <= typeDraw < 1.0 && 0.0 <= pickupDraw < 1.0 && 0.0 <= dropoffDraw < 1.0
    requires 0.0 <= fareDraw < 1.0 && 0.0 <= distanceDraw < 1.0
    ensures StartsWith(o.id, "offer-")
    ensures o.kind in OfferTypes
    ensures o.kind == CheapOffer ==> 800 <= o.fare < 1600
    ensures o.kind == ParcelOffer ==> 1200 <= o.fare < 2000
    ensures o.kind == RideOffer ==> 1500 <= o.fare < 2300
    ensures o.pickup in PickupZones && o.dropoff in Dropoffs
    ensures |o.distanceToPickup| == 4 && o.distanceToPickup[1..] == " km"
    ensures '1' <= o.distanceToPickup[0] <= '6'
    ensures o.note.Some? <==> o.kind == ParcelOffer
    ensures o.note.Some? ==> o.note.value == "Small parcel"
  {
    var t := OfferTypes[Pick(typeDraw, 3)];
    var km := 1 + Pick(distanceDraw, 6);
    OfferData(
      RandomId("offer", idText), t,
      PickupZones[Pick(pickupDraw, 4)], Dropoffs[Pick(dropoffDraw, 4)],
      FareBase(t) + Pick(fareDraw, 800),
      NatToString(km) + " km",
      if t == ParcelOffer then Some("Small parcel") else None)
  }

  /** Every offer type comes out of the generator for some type draw. */
  lemma EveryOfferTypeIsDrawn(t: OfferType)
    ensures exists d: real :: 0.0 <= d < 1.0 && OfferTypes[Pick(d, 3)] == t
  {
    match t
    case RideOffer => assert OfferTypes[Pick(0.0, 3)] == RideOffer;
    case CheapOffer =>
      assert Pick(0.5, 3) == 1;
      assert OfferTypes[Pick(0.5, 3)] == CheapOffer;
    case ParcelOffer =>
      assert Pick(0.9, 3) == 2;
      assert OfferTypes[Pick(0.9, 3)] == ParcelOffer;
  }

  /** `isActive()`'s test on a status. */
  predicate IsActiveStatus(s: JobStatus) {
    s != Completed && s != Cancelled
  }

  class Offer {
    const id: string
    const kind: OfferType
    const pickup: string
    const dropoff: string
    const fare: int
    const distanceToPickup: string
    const note: Option<string>

    /** `new Offer(data)`: every field copied unchanged. */
    constructor (data: OfferData)
      ensures Data() == data
    {
      id := data.id;
      kind := data.kind;
      pickup := data.pickup;
      dropoff := data.dropoff;
      fare := data.fare;
      distanceToPickup := data.distanceToPickup;
      note := data.note;
    }

    function Data(): OfferData {
      OfferData(id, kind, pickup, dropoff, fare, distanceToPickup, note)
    }

    /** `Offer.random()`: a fresh offer holding the generator's data. */
    static method Random(typeDraw: real, idText: string, pickupDraw: real, dropoffDraw: real,
                         fareDraw: real, distanceDraw: real) returns (o: Offer)
      requires 0.0 <= typeDraw < 1.0 && 0.0 <= pickupDraw < 1.0 && 0.0 <= dropoffDraw < 1.0
      requires 0.0 <= fareDraw < 1.0 && 0.0 <= distanceDraw < 1.0
      ensures fresh(o)
      ensures o.Data() == RandomOfferData(typeDraw, idText, pickupDraw, dropoffDraw, fareDraw, distanceDraw)
    {
      o := new Offer(RandomOfferData(typeDraw, idText, pickupDraw, dropoffDraw, fareDraw, distanceDraw));
    }
  }

  class Job {
    /** The fields inherited from the offer, never reassigned. */
    const offer: OfferData
    var status: JobStatus

    /** `new Job(offer, status = "assigned")`. */
    constructor (o: Offer, initial: JobStatus := Assigned)
      ensures offer == o.Data() && status == initial
    {
      offer := o.Data();
      status := initial;
    }

    /** `updateStatus(s)`: overwrite the status without checking it and hand back the same object. */
    method UpdateStatus(s: JobStatus) returns (j: Job)
      modifies this`status
      ensures j == this && status == s
    {
      status := s;
      j := this;
    }

    /** `isActive()`. */
    function IsActive(): (b: bool)
      reads this`status
      ensures b <==> IsActiveStatus(status)
    {
      status != Completed && status != Cancelled
    }
  }
}
