/** The negotiation engine's transitions as functions from the stores before a call
    to the result of the call and the stores after it. */
module Trading {
  import opened Common
  import opened Models
  import opened Scheduling

  /** The four keyed collections the engine reads and writes. */
  datatype Store = Store(
    shifts: map<ObjectId, Shift>,
    coverageRequests: map<ObjectId, CoverageRequest>,
    tradeOffers: map<ObjectId, TradeOffer>,
    pickupOffers: map<ObjectId, PickupOffer>)

  /** What a call returns or throws, and the stores it leaves behind. A call that throws
      may still have changed the stores before it threw. */
  datatype Step<T> = Step(result: Result<T>, after: Store)

  /** The references between stored records all resolve, every shift is stored under its own
      id, and no two pickup offers are for the same shift and employee. */
  ghost predicate Integrity(st: Store) {
    && (forall k :: k in st.shifts ==> st.shifts[k].id == Some(k))
    && (forall k :: k in st.coverageRequests ==> st.coverageRequests[k].shiftId in st.shifts)
    && (forall k :: k in st.tradeOffers ==>
          st.tradeOffers[k].coverageRequestId in st.coverageRequests && st.tradeOffers[k].shiftOfferedId in st.shifts)
    && (forall k :: k in st.pickupOffers ==> st.pickupOffers[k].openShiftId in st.shifts)
    && (forall k, k' ::
          (&& k in st.pickupOffers && k' in st.pickupOffers
           && st.pickupOffers[k].openShiftId == st.pickupOffers[k'].openShiftId
           && st.pickupOffers[k].employeeId == st.pickupOffers[k'].employeeId) ==> k == k')
  }

  /** The shift map after the holders of shifts `a` and `b` trade places. */
  function Swapped(shifts: map<ObjectId, Shift>, a: ObjectId, b: ObjectId): map<ObjectId, Shift>
    requires a in shifts && b in shifts
  {
    shifts[a := shifts[a].(employeeId := shifts[b].employeeId)][b := shifts[b].(employeeId := shifts[a].employeeId)]
  }

  // ---------------------------------------------------------------- scheduler

  /** The scheduler's assignment: `employee` becomes the holder of the shift (`None` clears it);
      an unknown shift is an error. */
  function AssignShift(st: Store, shiftId: ObjectId, employee: Option<ObjectId>): (r: Step<()>)
    ensures r.result.Ok? <==> shiftId in st.shifts
    ensures r.result.Err? ==> r.result.error == ObjectDoesNotExist(Shifts) && r.after == st
    ensures r.after.coverageRequests == st.coverageRequests && r.after.tradeOffers == st.tradeOffers
         && r.after.pickupOffers == st.pickupOffers
    ensures r.after.shifts.Keys == st.shifts.Keys
    ensures shiftId in st.shifts ==> r.after.shifts[shiftId] == st.shifts[shiftId].(employeeId := employee)
    ensures forall k :: k in st.shifts && k != shiftId ==> r.after.shifts[k] == st.shifts[k]
  {
    if shiftId !in st.shifts then Step(Err(ObjectDoesNotExist(Shifts)), st)
    else Step(Ok(()), st.(shifts := st.shifts[shiftId := st.shifts[shiftId].(employeeId := employee)]))
  }

  /** The scheduler's unassignment: the shift is left without a holder. */
  function UnassignShift(st: Store, shiftId: ObjectId): (r: Step<()>)
    ensures r.result.Ok? <==> shiftId in st.shifts
    ensures r.result.Err? ==> r.result.error == ObjectDoesNotExist(Shifts) && r.after == st
    ensures r.after.coverageRequests == st.coverageRequests && r.after.tradeOffers == st.tradeOffers
         && r.after.pickupOffers == st.pickupOffers
    ensures r.after.shifts.Keys == st.shifts.Keys
    ensures shiftId in st.shifts ==> r.after.shifts[shiftId] == st.shifts[shiftId].(employeeId := None)
    ensures forall k :: k in st.shifts && k != shiftId ==> r.after.shifts[k] == st.shifts[k]
  {
    AssignShift(st, shiftId, None)
  }

  // ---------------------------------------------------------------- trade execution

  /** Executes an approved trade step by step: the coverage request and its shift are fetched,
      that shift is unassigned, and only then is the offered shift fetched, unassigned, and
      both shifts reassigned. A missing offered shift therefore leaves the coverage shift
      unassigned. */
  function ExecuteTrade(st: Store, offer: TradeOffer): (r: Step<()>)
    ensures r.after.coverageRequests == st.coverageRequests && r.after.tradeOffers == st.tradeOffers
         && r.after.pickupOffers == st.pickupOffers
    ensures r.after.shifts.Keys == st.shifts.Keys
    ensures r.result.Ok? <==>
      && offer.coverageRequestId in st.coverageRequests
      && st.coverageRequests[offer.coverageRequestId].shiftId in st.shifts
      && offer.shiftOfferedId in st.shifts
    ensures (|| offer.coverageRequestId !in st.coverageRequests
             || st.coverageRequests[offer.coverageRequestId].shiftId !in st.shifts)
            ==> r.after == st && r.result.Err?
    ensures (&& offer.coverageRequestId in st.coverageRequests
             && st.coverageRequests[offer.coverageRequestId].shiftId in st.shifts
             && offer.shiftOfferedId !in st.shifts)
            ==> var a := st.coverageRequests[offer.coverageRequestId].shiftId;
                r.result == Err(ObjectDoesNotExist(Shifts))
                && r.after.shifts == st.shifts[a := st.shifts[a].(employeeId := None)]
    ensures r.result.Ok? ==>
      var a := st.coverageRequests[offer.coverageRequestId].shiftId;
      var b := offer.shiftOfferedId;
      a != b ==> r.after.shifts == Swapped(st.shifts, a, b)
  {
    if offer.coverageRequestId !in st.coverageRequests then Step(Err(ObjectDoesNotExist(CoverageRequests)), st)
    else
      var request := st.coverageRequests[offer.coverageRequestId];
      if request.shiftId !in st.shifts then Step(Err(ObjectDoesNotExist(Shifts)), st)
      else
        var requestShift := st.shifts[request.shiftId];
        var st1 := UnassignShift(st, request.shiftId).after;
        if offer.shiftOfferedId !in st1.shifts then Step(Err(ObjectDoesNotExist(Shifts)), st1)
        else
          var offeredShift := st1.shifts[offer.shiftOfferedId];
          var st2 := UnassignShift(st1, offer.shiftOfferedId).after;
          var st3 := AssignShift(st2, offer.shiftOfferedId, requestShift.employeeId).after;
          AssignShift(st3, request.shiftId, offeredShift.employeeId)
  }

  // ---------------------------------------------------------------- coverage requests

  /** Records that the holder wants their shift covered. A shift that is unknown or has already
      started is refused; a start exactly at `now` is accepted. */
  function RequestCoverage(st: Store, shiftId: ObjectId, employeeId: ObjectId, coverageType: CoverageOptions,
                           now: int, newId: ObjectId): (r: Step<ObjectId>)
    ensures shiftId !in st.shifts ==> r == Step(Err(ObjectDoesNotExist(Shifts)), st)
    ensures shiftId in st.shifts && st.shifts[shiftId].shiftPeriod.start < now ==> r == Step(Err(ShiftAlreadyStarted), st)
    ensures r.result.Err? ==> r.after == st
    ensures r.result.Ok? <==> shiftId in st.shifts && now <= st.shifts[shiftId].shiftPeriod.start && newId !in st.coverageRequests
    ensures r.result.Ok? ==>
      && r.result.value == newId
      && r.after.coverageRequests == st.coverageRequests[newId := CoverageRequest(shiftId, employeeId, coverageType)]
      && |r.after.coverageRequests| == |st.coverageRequests| + 1
      && r.after.shifts == st.shifts && r.after.tradeOffers == st.tradeOffers && r.after.pickupOffers == st.pickupOffers
  {
    if shiftId !in st.shifts then Step(Err(ObjectDoesNotExist(Shifts)), st)
    else if st.shifts[shiftId].shiftPeriod.start < now then Step(Err(ShiftAlreadyStarted), st)
    else if newId in st.coverageRequests then Step(Err(DuplicateKey(CoverageRequests)), st)
    else Step(Ok(newId), st.(coverageRequests := st.coverageRequests[newId := CoverageRequest(shiftId, employeeId, coverageType)]))
  }

  // ---------------------------------------------------------------- trade offers

  /** Offers `shiftOfferedId` in exchange for the shift under a coverage request. Both must
      exist, the offered shift must not have started and the request must allow trades. */
  function OfferTrade(st: Store, shiftOfferedId: ObjectId, coverageRequestId: ObjectId, now: int, newId: ObjectId): (r: Step<ObjectId>)
    ensures r.result.Err? ==> r.after == st
    ensures r.result.Ok? <==>
      && shiftOfferedId in st.shifts
      && coverageRequestId in st.coverageRequests
      && now <= st.shifts[shiftOfferedId].shiftPeriod.start
      && st.coverageRequests[coverageRequestId].CanTrade()
      && newId !in st.tradeOffers
    ensures shiftOfferedId in st.shifts && coverageRequestId in st.coverageRequests
         && now <= st.shifts[shiftOfferedId].shiftPeriod.start && !st.coverageRequests[coverageRequestId].CanTrade()
         ==> r.result == Err(NotTradeable)
    ensures r.result.Ok? ==>
      && r.result.value == newId
      && r.after.tradeOffers == st.tradeOffers[newId := TradeOffer(coverageRequestId, shiftOfferedId, None, None)]
      && r.after.shifts == st.shifts && r.after.coverageRequests == st.coverageRequests && r.after.pickupOffers == st.pickupOffers
  {
    if shiftOfferedId !in st.shifts then Step(Err(ObjectDoesNotExist(Shifts)), st)
    else if coverageRequestId !in st.coverageRequests then Step(Err(ObjectDoesNotExist(CoverageRequests)), st)
    else if st.shifts[shiftOfferedId].shiftPeriod.start < now then Step(Err(ShiftAlreadyStarted), st)
    else if !st.coverageRequests[coverageRequestId].CanTrade() then Step(Err(NotTradeable), st)
    else if newId in st.tradeOffers then Step(Err(DuplicateKey(TradeOffers)), st)
    else Step(Ok(newId), st.(tradeOffers := st.tradeOffers[newId := TradeOffer(coverageRequestId, shiftOfferedId, None, None)]))
  }

  /** The offer with exactly one approval flag set: the manager's or the employee's. */
  function Approved(offer: TradeOffer, isManager: bool): (o: TradeOffer)
    ensures o.coverageRequestId == offer.coverageRequestId && o.shiftOfferedId == offer.shiftOfferedId
    ensures isManager ==> o.isManagerApproved == Some(true) && o.isEmployeeApproved == offer.isEmployeeApproved
    ensures !isManager ==> o.isEmployeeApproved == Some(true) && o.isManagerApproved == offer.isManagerApproved
  {
    if isManager then offer.(isManagerApproved := Some(true)) else offer.(isEmployeeApproved := Some(true))
  }

  /** Sets one approval flag on a stored offer and, when both flags are then set, executes the
      trade. The offer stays stored after execution. */
  function ApproveTrade(st: Store, tradeOfferId: ObjectId, isManager: bool): (r: Step<()>)
    ensures tradeOfferId !in st.tradeOffers ==> r == Step(Err(ObjectDoesNotExist(TradeOffers)), st)
    ensures tradeOfferId in st.tradeOffers ==>
      var offer := Approved(st.tradeOffers[tradeOfferId], isManager);
      && r.after.tradeOffers == st.tradeOffers[tradeOfferId := offer]
      && r.after.coverageRequests == st.coverageRequests && r.after.pickupOffers == st.pickupOffers
      && (offer.FullyApproved() ==> r == ExecuteTrade(st.(tradeOffers := r.after.tradeOffers), offer))
      && (!offer.FullyApproved() ==> r.result.Ok? && r.after.shifts == st.shifts)
  {
    if tradeOfferId !in st.tradeOffers then Step(Err(ObjectDoesNotExist(TradeOffers)), st)
    else
      var result := Approved(st.tradeOffers[tradeOfferId], isManager);
      var st1 := st.(tradeOffers := st.tradeOffers[tradeOfferId := result]);
      if result.FullyApproved() then ExecuteTrade(st1, result)
      else Step(Ok(()), st1)
  }

  /** Deletes a trade offer; an unknown id is an error. Who denies makes no difference to the stores. */
  function DenyTrade(st: Store, tradeOfferId: ObjectId, isManager: bool): (r: Step<()>)
    ensures r.result.Ok? <==> tradeOfferId in st.tradeOffers
    ensures r.result.Err? ==> r.after == st && r.result.error == ObjectDoesNotExist(TradeOffers)
    ensures r.after.tradeOffers.Keys == st.tradeOffers.Keys - {tradeOfferId}
    ensures forall k :: k in r.after.tradeOffers ==> r.after.tradeOffers[k] == st.tradeOffers[k]
    ensures r.after.shifts == st.shifts && r.after.coverageRequests == st.coverageRequests
         && r.after.pickupOffers == st.pickupOffers
  {
    if tradeOfferId !in st.tradeOffers then Step(Err(ObjectDoesNotExist(TradeOffers)), st)
    else Step(Ok(()), st.(tradeOffers := st.tradeOffers - {tradeOfferId}))
  }

  // ---------------------------------------------------------------- pickup offers

  /** The ids of the pickup offers, decided or not, for one shift and one employee. */
  function OffersFor(offers: map<ObjectId, PickupOffer>, shiftId: ObjectId, employeeId: ObjectId): (r: set<ObjectId>)
    ensures r <= offers.Keys
    ensures r == {} <==> forall k :: k in offers ==> offers[k].openShiftId != shiftId || offers[k].employeeId != employeeId
  {
    var r := set k | k in offers && offers[k].openShiftId == shiftId && offers[k].employeeId == employeeId;
    assert forall k :: k in offers && offers[k].openShiftId == shiftId && offers[k].employeeId == employeeId ==> k in r;
    r
  }

  /** Offers to pick up a shift. The shift must exist, the availability service must call the
      employee schedulable for it, and no pickup offer of any state may exist for the pair. */
  function PickupShift(st: Store, openShiftId: ObjectId, employeeId: ObjectId,
                       schedulable: (ObjectId, ObjectId) -> bool, newId: ObjectId): (r: Step<ObjectId>)
    ensures r.result.Err? ==> r.after == st
    ensures r.result.Ok? <==>
      && openShiftId in st.shifts
      && schedulable(employeeId, openShiftId)
      && OffersFor(st.pickupOffers, openShiftId, employeeId) == {}
      && newId !in st.pickupOffers
    ensures openShiftId in st.shifts && !schedulable(employeeId, openShiftId) ==> r.result == Err(NotSchedulable)
    ensures (&& openShiftId in st.shifts && schedulable(employeeId, openShiftId)
             && |OffersFor(st.pickupOffers, openShiftId, employeeId)| > 0) ==> r.result == Err(DuplicatePickup)
    ensures r.result.Ok? ==>
      && r.result.value == newId
      && r.after.pickupOffers == st.pickupOffers[newId := PickupOffer(openShiftId, employeeId, None)]
      && OffersFor(r.after.pickupOffers, openShiftId, employeeId) == {newId}
      && r.after.shifts == st.shifts && r.after.coverageRequests == st.coverageRequests && r.after.tradeOffers == st.tradeOffers
  {
    if openShiftId !in st.shifts then Step(Err(ObjectDoesNotExist(Shifts)), st)
    else if !schedulable(employeeId, openShiftId) then Step(Err(NotSchedulable), st)
    else if |OffersFor(st.pickupOffers, openShiftId, employeeId)| > 0 then Step(Err(DuplicatePickup), st)
    else if newId in st.pickupOffers then Step(Err(DuplicateKey(PickupOffers)), st)
    else
      var offers := st.pickupOffers[newId := PickupOffer(openShiftId, employeeId, None)];
      assert OffersFor(offers, openShiftId, employeeId) == OffersFor(st.pickupOffers, openShiftId, employeeId) + {newId};
      Step(Ok(newId), st.(pickupOffers := offers))
  }

  /** Decides a pickup offer once: an unknown offer or one already decided is an error; otherwise
      the manager flag becomes `isApproved`. Returns the offer as it was before the update. */
  function ActOnPickup(st: Store, pickupOfferId: ObjectId, isApproved: bool): (r: Step<PickupOffer>)
    ensures pickupOfferId !in st.pickupOffers ==> r == Step(Err(ObjectDoesNotExist(PickupOffers)), st)
    ensures pickupOfferId in st.pickupOffers && st.pickupOffers[pickupOfferId].isManagerApproved.Some?
            ==> r == Step(Err(AlreadyActedOn), st)
    ensures r.result.Ok? <==> pickupOfferId in st.pickupOffers && st.pickupOffers[pickupOfferId].isManagerApproved.None?
    ensures r.result.Ok? ==>
      && r.result.value == st.pickupOffers[pickupOfferId]
      && r.result.value.isManagerApproved == None
      && r.after.pickupOffers == st.pickupOffers[pickupOfferId := r.result.value.(isManagerApproved := Some(isApproved))]
      && r.after.shifts == st.shifts && r.after.coverageRequests == st.coverageRequests && r.after.tradeOffers == st.tradeOffers
  {
    if pickupOfferId !in st.pickupOffers then Step(Err(ObjectDoesNotExist(PickupOffers)), st)
    else
      var pickup := st.pickupOffers[pickupOfferId];
      if pickup.isManagerApproved.Some? then Step(Err(AlreadyActedOn), st)
      else Step(Ok(pickup), st.(pickupOffers := st.pickupOffers[pickupOfferId := pickup.(isManagerApproved := Some(isApproved))]))
  }

  /** Approves a pickup offer, then assigns its shift to its employee. */
  function ApprovePickup(st: Store, pickupOfferId: ObjectId): (r: Step<()>)
    ensures ActOnPickup(st, pickupOfferId, true).result.Err? ==>
      r == Step(Err(ActOnPickup(st, pickupOfferId, true).result.error), st)
    ensures ActOnPickup(st, pickupOfferId, true).result.Ok? ==>
      var offer := st.pickupOffers[pickupOfferId];
      && r.after.pickupOffers == st.pickupOffers[pickupOfferId := offer.(isManagerApproved := Some(true))]
      && r.after.coverageRequests == st.coverageRequests && r.after.tradeOffers == st.tradeOffers
      && (offer.openShiftId in st.shifts ==>
            r.result.Ok? && r.after.shifts == st.shifts[offer.openShiftId := st.shifts[offer.openShiftId].(employeeId := Some(offer.employeeId))])
      && (offer.openShiftId !in st.shifts ==> r.result == Err(ObjectDoesNotExist(Shifts)) && r.after.shifts == st.shifts)
  {
    var acted := ActOnPickup(st, pickupOfferId, true);
    match acted.result
    case Err(e) => Step(Err(e), acted.after)
    case Ok(pickupOffer) => AssignShift(acted.after, pickupOffer.openShiftId, Some(pickupOffer.employeeId))
  }

  /** Denies a pickup offer; no shift changes. */
  function DenyPickup(st: Store, pickupOfferId: ObjectId): (r: Step<()>)
    ensures r.result.Ok? <==> ActOnPickup(st, pickupOfferId, false).result.Ok?
    ensures r.after == ActOnPickup(st, pickupOfferId, false).after
    ensures r.after.shifts == st.shifts
  {
    var acted := ActOnPickup(st, pickupOfferId, false);
    match acted.result
    case Err(e) => Step(Err(e), acted.after)
    case Ok(_) => Step(Ok(()), acted.after)
  }
}
