/** Properties of the negotiation engine that relate several calls, or that hold of
    every reachable store. */
module TradingProperties {
  import opened Common
  import opened Models
  import opened Scheduling
  import opened Trading

  // ---------------------------------------------------------------- trade execution

  /** Trading a shift for itself leaves it without a holder: the offered shift is read after
      the coverage shift, which is the same shift, has already been unassigned. */
  lemma SelfTradeUnassigns(st: Store, offer: TradeOffer)
    requires offer.coverageRequestId in st.coverageRequests
    requires st.coverageRequests[offer.coverageRequestId].shiftId == offer.shiftOfferedId
    requires offer.shiftOfferedId in st.shifts
    ensures ExecuteTrade(st, offer).result.Ok?
    ensures ExecuteTrade(st, offer).after.shifts == st.shifts[offer.shiftOfferedId := st.shifts[offer.shiftOfferedId].(employeeId := None)]
  {
    var a := offer.shiftOfferedId;
    var st1 := UnassignShift(st, a).after;
    assert st1.shifts[a].employeeId == None;
  }

  /** Execution is not all-or-nothing: when the offered shift is missing, the coverage shift
      has already been unassigned by the time the error is raised. */
  lemma MissingOfferedShiftLeavesCoverageShiftUnassigned(st: Store, offer: TradeOffer)
    requires offer.coverageRequestId in st.coverageRequests
    requires st.coverageRequests[offer.coverageRequestId].shiftId in st.shifts
    requires offer.shiftOfferedId !in st.shifts
    ensures ExecuteTrade(st, offer).result == Err(ObjectDoesNotExist(Shifts))
    ensures ExecuteTrade(st, offer).after.shifts[st.coverageRequests[offer.coverageRequestId].shiftId].employeeId == None
  {
  }

  // ---------------------------------------------------------------- trade approval

  /** The two approvals of an offer on which neither flag is yet set to true commute: the
      first changes no shift, and either order ends in the same stores and the same result. */
  lemma ApprovalOrderIrrelevant(st: Store, tradeOfferId: ObjectId)
    requires tradeOfferId in st.tradeOffers
    requires st.tradeOffers[tradeOfferId].isManagerApproved != Some(true)
    requires st.tradeOffers[tradeOfferId].isEmployeeApproved != Some(true)
    ensures ApproveTrade(st, tradeOfferId, true).after.shifts == st.shifts
    ensures ApproveTrade(st, tradeOfferId, false).after.shifts == st.shifts
    ensures ApproveTrade(ApproveTrade(st, tradeOfferId, true).after, tradeOfferId, false)
         == ApproveTrade(ApproveTrade(st, tradeOfferId, false).after, tradeOfferId, true)
  {
    var offer := st.tradeOffers[tradeOfferId];
    var both := offer.(isManagerApproved := Some(true), isEmployeeApproved := Some(true));
    var managerFirst := ApproveTrade(st, tradeOfferId, true).after;
    var employeeFirst := ApproveTrade(st, tradeOfferId, false).after;
    assert managerFirst == st.(tradeOffers := st.tradeOffers[tradeOfferId := Approved(offer, true)]);
    assert employeeFirst == st.(tradeOffers := st.tradeOffers[tradeOfferId := Approved(offer, false)]);
    assert Approved(Approved(offer, true), false) == both;
    assert Approved(Approved(offer, false), true) == both;
    assert managerFirst.(tradeOffers := managerFirst.tradeOffers[tradeOfferId := both])
        == employeeFirst.(tradeOffers := employeeFirst.tradeOffers[tradeOfferId := both]);
  }

  /** On an offer whose references resolve and whose two shifts differ, the manager's and the
      employee's approvals together swap the holders of the two shifts exactly once. */
  lemma FullApprovalSwapsOnce(st: Store, tradeOfferId: ObjectId, managerFirst: bool)
    requires Integrity(st)
    requires tradeOfferId in st.tradeOffers
    requires st.tradeOffers[tradeOfferId].isManagerApproved == None
    requires st.tradeOffers[tradeOfferId].isEmployeeApproved == None
    requires st.coverageRequests[st.tradeOffers[tradeOfferId].coverageRequestId].shiftId != st.tradeOffers[tradeOfferId].shiftOfferedId
    ensures
      var offer := st.tradeOffers[tradeOfferId];
      var first := ApproveTrade(st, tradeOfferId, managerFirst);
      var second := ApproveTrade(first.after, tradeOfferId, !managerFirst);
      && first.result.Ok? && first.after.shifts == st.shifts
      && second.result.Ok?
      && second.after.shifts == Swapped(st.shifts, st.coverageRequests[offer.coverageRequestId].shiftId, offer.shiftOfferedId)
      && second.after.tradeOffers[tradeOfferId].FullyApproved()
  {
    var offer := st.tradeOffers[tradeOfferId];
    var first := ApproveTrade(st, tradeOfferId, managerFirst);
    var once := Approved(offer, managerFirst);
    assert !once.FullyApproved();
    assert first.after == st.(tradeOffers := st.tradeOffers[tradeOfferId := once]);
    var both := Approved(once, !managerFirst);
    assert both.FullyApproved();
    var staged := first.after.(tradeOffers := first.after.tradeOffers[tradeOfferId := both]);
    assert ApproveTrade(first.after, tradeOfferId, !managerFirst) == ExecuteTrade(staged, both);
    assert both.coverageRequestId == offer.coverageRequestId && both.shiftOfferedId == offer.shiftOfferedId;
  }

  /** Approving an offer whose flags are both already set leaves the offer as it is and
      executes it again. */
  lemma ApprovingExecutedOfferReexecutes(st: Store, tradeOfferId: ObjectId, isManager: bool)
    requires tradeOfferId in st.tradeOffers && st.tradeOffers[tradeOfferId].FullyApproved()
    ensures ApproveTrade(st, tradeOfferId, isManager) == ExecuteTrade(st, st.tradeOffers[tradeOfferId])
  {
    var offer := st.tradeOffers[tradeOfferId];
    assert Approved(offer, isManager) == offer;
    assert st.(tradeOffers := st.tradeOffers[tradeOfferId := offer]) == st;
  }

  /** Swapping the holders of the same two shifts twice restores them. */
  lemma {:induction false} SwapTwiceRestores(shifts: map<ObjectId, Shift>, a: ObjectId, b: ObjectId)
    requires a in shifts && b in shifts && a != b
    ensures Swapped(Swapped(shifts, a, b), a, b) == shifts
  {
    var twice := Swapped(Swapped(shifts, a, b), a, b);
    assert twice.Keys == shifts.Keys;
    forall k | k in shifts ensures twice[k] == shifts[k] {
    }
  }

  /** An executed offer stays stored with both flags set, so any later approval runs the swap
      again; two further approvals put both shifts back with their original holders. */
  lemma ReapprovalSwapsAgain(st: Store, tradeOfferId: ObjectId, isManager: bool, isManager': bool)
    requires Integrity(st)
    requires tradeOfferId in st.tradeOffers && st.tradeOffers[tradeOfferId].FullyApproved()
    requires st.coverageRequests[st.tradeOffers[tradeOfferId].coverageRequestId].shiftId != st.tradeOffers[tradeOfferId].shiftOfferedId
    ensures
      var offer := st.tradeOffers[tradeOfferId];
      var a := st.coverageRequests[offer.coverageRequestId].shiftId;
      var again := ApproveTrade(st, tradeOfferId, isManager);
      && again.result.Ok?
      && again.after.shifts == Swapped(st.shifts, a, offer.shiftOfferedId)
      && ApproveTrade(again.after, tradeOfferId, isManager').after.shifts == st.shifts
  {
    var offer := st.tradeOffers[tradeOfferId];
    var a := st.coverageRequests[offer.coverageRequestId].shiftId;
    var b := offer.shiftOfferedId;
    ApprovingExecutedOfferReexecutes(st, tradeOfferId, isManager);
    var again := ApproveTrade(st, tradeOfferId, isManager);
    assert again.after.tradeOffers == st.tradeOffers && again.after.coverageRequests == st.coverageRequests;
    ApprovingExecutedOfferReexecutes(again.after, tradeOfferId, isManager');
    SwapTwiceRestores(st.shifts, a, b);
  }

  /** A denied trade offer is gone: approving it afterwards fails and changes nothing. */
  lemma DeniedTradeCannotBeApproved(st: Store, tradeOfferId: ObjectId, isManager: bool, isManager': bool)
    requires DenyTrade(st, tradeOfferId, isManager).result.Ok?
    ensures
      var denied := DenyTrade(st, tradeOfferId, isManager).after;
      ApproveTrade(denied, tradeOfferId, isManager') == Step(Err(ObjectDoesNotExist(TradeOffers)), denied)
  {
  }

  // ---------------------------------------------------------------- pickup offers

  /** Acting on a pickup offer a second time fails, whatever the first decision was, and
      changes nothing. */
  lemma PickupDecidedOnce(st: Store, pickupOfferId: ObjectId, first: bool, second: bool)
    requires ActOnPickup(st, pickupOfferId, first).result.Ok?
    ensures
      var decided := ActOnPickup(st, pickupOfferId, first).after;
      && ActOnPickup(decided, pickupOfferId, second) == Step(Err(AlreadyActedOn), decided)
      && ApprovePickup(decided, pickupOfferId) == Step(Err(AlreadyActedOn), decided)
      && DenyPickup(decided, pickupOfferId) == Step(Err(AlreadyActedOn), decided)
  {
  }

  /** A decided pickup offer still blocks a new one for the same shift and employee: the
      duplicate check counts offers of every state. */
  lemma DecidedPickupBlocksResubmission(st: Store, pickupOfferId: ObjectId, isApproved: bool,
                                        schedulable: (ObjectId, ObjectId) -> bool, newId: ObjectId)
    requires ActOnPickup(st, pickupOfferId, isApproved).result.Ok?
    requires
      var offer := st.pickupOffers[pickupOfferId];
      offer.openShiftId in st.shifts && schedulable(offer.employeeId, offer.openShiftId)
    ensures
      var offer := st.pickupOffers[pickupOfferId];
      var decided := ActOnPickup(st, pickupOfferId, isApproved).after;
      PickupShift(decided, offer.openShiftId, offer.employeeId, schedulable, newId) == Step(Err(DuplicatePickup), decided)
  {
    var offer := st.pickupOffers[pickupOfferId];
    var decided := ActOnPickup(st, pickupOfferId, isApproved).after;
    assert pickupOfferId in OffersFor(decided.pickupOffers, offer.openShiftId, offer.employeeId);
  }

  /** Approval does not re-check that the shift is still open: approving a second employee's
      pickup of the same shift reassigns it to that employee. */
  lemma LaterPickupApprovalOverwrites(st: Store, firstOffer: ObjectId, secondOffer: ObjectId)
    requires Integrity(st)
    requires firstOffer in st.pickupOffers && secondOffer in st.pickupOffers && firstOffer != secondOffer
    requires st.pickupOffers[firstOffer].isManagerApproved == None && st.pickupOffers[secondOffer].isManagerApproved == None
    requires st.pickupOffers[firstOffer].openShiftId == st.pickupOffers[secondOffer].openShiftId
    ensures
      var shiftId := st.pickupOffers[firstOffer].openShiftId;
      var first := ApprovePickup(st, firstOffer);
      var second := ApprovePickup(first.after, secondOffer);
      && first.result.Ok? && second.result.Ok?
      && first.after.shifts[shiftId].employeeId == Some(st.pickupOffers[firstOffer].employeeId)
      && second.after.shifts[shiftId].employeeId == Some(st.pickupOffers[secondOffer].employeeId)
  {
    var first := ApprovePickup(st, firstOffer);
    assert first.after.pickupOffers[secondOffer] == st.pickupOffers[secondOffer];
    assert first.after.shifts.Keys == st.shifts.Keys;
  }

  // ---------------------------------------------------------------- integrity

  /** Every operation keeps the references between records resolvable and the pickup offers
      unique per shift and employee. */
  lemma RequestCoveragePreservesIntegrity(st: Store, shiftId: ObjectId, employeeId: ObjectId,
                                          coverageType: CoverageOptions, now: int, newId: ObjectId)
    requires Integrity(st)
    ensures Integrity(RequestCoverage(st, shiftId, employeeId, coverageType, now, newId).after)
  {
  }

  lemma OfferTradePreservesIntegrity(st: Store, shiftOfferedId: ObjectId, coverageRequestId: ObjectId, now: int, newId: ObjectId)
    requires Integrity(st)
    ensures Integrity(OfferTrade(st, shiftOfferedId, coverageRequestId, now, newId).after)
  {
  }

  lemma PickupShiftPreservesIntegrity(st: Store, openShiftId: ObjectId, employeeId: ObjectId,
                                      schedulable: (ObjectId, ObjectId) -> bool, newId: ObjectId)
    requires Integrity(st)
    ensures Integrity(PickupShift(st, openShiftId, employeeId, schedulable, newId).after)
  {
    var r := PickupShift(st, openShiftId, employeeId, schedulable, newId);
    if r.result.Ok? {
      var offers := r.after.pickupOffers;
      forall k, k' | k in offers && k' in offers && offers[k].openShiftId == offers[k'].openShiftId
                     && offers[k].employeeId == offers[k'].employeeId
        ensures k == k'
      {
        assert k in st.pickupOffers ==> (k in OffersFor(st.pickupOffers, openShiftId, employeeId)
          <==> st.pickupOffers[k].openShiftId == openShiftId && st.pickupOffers[k].employeeId == employeeId);
        assert k' in st.pickupOffers ==> (k' in OffersFor(st.pickupOffers, openShiftId, employeeId)
          <==> st.pickupOffers[k'].openShiftId == openShiftId && st.pickupOffers[k'].employeeId == employeeId);
      }
    }
  }

  lemma ApproveTradePreservesIntegrity(st: Store, tradeOfferId: ObjectId, isManager: bool)
    requires Integrity(st)
    ensures ApproveTrade(st, tradeOfferId, isManager).result.Ok? <==> tradeOfferId in st.tradeOffers
    ensures Integrity(ApproveTrade(st, tradeOfferId, isManager).after)
  {
    if tradeOfferId in st.tradeOffers {
      var offer := Approved(st.tradeOffers[tradeOfferId], isManager);
      var st1 := st.(tradeOffers := st.tradeOffers[tradeOfferId := offer]);
      assert Integrity(st1);
      if offer.FullyApproved() {
        ExecuteTradePreservesIntegrity(st1, offer);
      }
    }
  }

  /** Executing a trade only moves holders between stored shifts. */
  lemma ExecuteTradePreservesIntegrity(st: Store, offer: TradeOffer)
    requires Integrity(st)
    ensures Integrity(ExecuteTrade(st, offer).after)
  {
    var after := ExecuteTrade(st, offer).after;
    forall k | k in after.shifts ensures after.shifts[k].id == Some(k) {
      assert after.shifts[k].id == st.shifts[k].id;
    }
  }

  lemma DenyTradePreservesIntegrity(st: Store, tradeOfferId: ObjectId, isManager: bool)
    requires Integrity(st)
    ensures Integrity(DenyTrade(st, tradeOfferId, isManager).after)
  {
  }

  lemma ApprovePickupPreservesIntegrity(st: Store, pickupOfferId: ObjectId)
    requires Integrity(st)
    ensures ApprovePickup(st, pickupOfferId).result.Ok? <==> ActOnPickup(st, pickupOfferId, true).result.Ok?
    ensures Integrity(ApprovePickup(st, pickupOfferId).after)
  {
  }

  lemma DenyPickupPreservesIntegrity(st: Store, pickupOfferId: ObjectId)
    requires Integrity(st)
    ensures Integrity(DenyPickup(st, pickupOfferId).after)
  {
  }

  // ---------------------------------------------------------------- scenarios

  /** A holder X requests coverage of S1 for trade or pickup, Y offers S2 in exchange, the
      manager approves and then X approves: S1 ends with Y and S2 with X. */
  lemma TradeScenario(st: Store, s1: ObjectId, s2: ObjectId, x: ObjectId, y: ObjectId, now: int,
                      requestId: ObjectId, offerId: ObjectId)
    requires Integrity(st)
    requires s1 in st.shifts && s2 in st.shifts && s1 != s2
    requires st.shifts[s1].employeeId == Some(x) && st.shifts[s2].employeeId == Some(y)
    requires now <= st.shifts[s1].shiftPeriod.start && now <= st.shifts[s2].shiftPeriod.start
    requires requestId !in st.coverageRequests && offerId !in st.tradeOffers
    ensures
      var requested := RequestCoverage(st, s1, x, Both, now, requestId);
      var offered := OfferTrade(requested.after, s2, requestId, now, offerId);
      var managerApproved := ApproveTrade(offered.after, offerId, true);
      var employeeApproved := ApproveTrade(managerApproved.after, offerId, false);
      && requested.result.Ok? && offered.result.Ok? && managerApproved.result.Ok? && employeeApproved.result.Ok?
      && managerApproved.after.shifts == st.shifts
      && employeeApproved.after.shifts[s1].employeeId == Some(y)
      && employeeApproved.after.shifts[s2].employeeId == Some(x)
  {
    var requested := RequestCoverage(st, s1, x, Both, now, requestId);
    RequestCoveragePreservesIntegrity(st, s1, x, Both, now, requestId);
    var offered := OfferTrade(requested.after, s2, requestId, now, offerId);
    OfferTradePreservesIntegrity(requested.after, s2, requestId, now, offerId);
    assert offered.after.tradeOffers[offerId] == TradeOffer(requestId, s2, None, None);
    FullApprovalSwapsOnce(offered.after, offerId, true);
  }

  /** Z offers to pick up the unassigned S3; a second offer for the same pair is refused; the
      manager denies the first; S3 stays unassigned and approving the offer afterwards fails. */
  lemma PickupScenario(st: Store, s3: ObjectId, z: ObjectId, schedulable: (ObjectId, ObjectId) -> bool,
                       offerId: ObjectId, retryId: ObjectId)
    requires s3 in st.shifts && st.shifts[s3].employeeId == None
    requires schedulable(z, s3)
    requires OffersFor(st.pickupOffers, s3, z) == {} && offerId !in st.pickupOffers
    ensures
      var offered := PickupShift(st, s3, z, schedulable, offerId);
      var retried := PickupShift(offered.after, s3, z, schedulable, retryId);
      var denied := DenyPickup(offered.after, offerId);
      var approved := ApprovePickup(denied.after, offerId);
      && offered.result.Ok?
      && retried == Step(Err(DuplicatePickup), offered.after)
      && denied.result.Ok? && denied.after.shifts[s3].employeeId == None
      && approved == Step(Err(AlreadyActedOn), denied.after)
  {
    var offered := PickupShift(st, s3, z, schedulable, offerId);
    assert |OffersFor(offered.after.pickupOffers, s3, z)| == 1;
  }
}
