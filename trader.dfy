/** The negotiation engine as the object the service layer calls: it holds the four
    collections and changes them step by step. Each method is proved to produce exactly
    the result and the stores that the corresponding function of `Trading` describes. */
module Services {
  import opened Common
  import opened Models
  import opened Scheduling
  import Trading

  class ShiftTrader {
    var shifts: map<ObjectId, Shift>
    var coverageRequests: map<ObjectId, CoverageRequest>
    var tradeOffers: map<ObjectId, TradeOffer>
    var pickupOffers: map<ObjectId, PickupOffer>

    /** The availability service's verdict on an (employee, shift) pair. */
    const isEmployeeSchedulableForShift: (ObjectId, ObjectId) -> bool

    /** The collections as one value. */
    function State(): Trading.Store
      reads this
    {
      Trading.Store(shifts, coverageRequests, tradeOffers, pickupOffers)
    }

    constructor (initial: Trading.Store, availability: (ObjectId, ObjectId) -> bool)
      ensures State() == initial
      ensures isEmployeeSchedulableForShift == availability
    {
      shifts := initial.shifts;
      coverageRequests := initial.coverageRequests;
      tradeOffers := initial.tradeOffers;
      pickupOffers := initial.pickupOffers;
      isEmployeeSchedulableForShift := availability;
    }

    // ------------------------------------------------------------ scheduler

    method AssignShift(shiftId: ObjectId, employee: Option<ObjectId>) returns (r: Result<()>)
      modifies this
      ensures Trading.Step(r, State()) == Trading.AssignShift(old(State()), shiftId, employee)
    {
      if shiftId !in shifts {
        return Err(ObjectDoesNotExist(Collection.Shifts));
      }
      shifts := shifts[shiftId := shifts[shiftId].(employeeId := employee)];
      return Ok(());
    }

    method UnassignShift(shiftId: ObjectId) returns (r: Result<()>)
      modifies this
      ensures Trading.Step(r, State()) == Trading.UnassignShift(old(State()), shiftId)
    {
      r := AssignShift(shiftId, None);
    }

    // ------------------------------------------------------------ trades

    method ExecuteTrade(tradeOffer: TradeOffer) returns (r: Result<()>)
      modifies this
      ensures Trading.Step(r, State()) == Trading.ExecuteTrade(old(State()), tradeOffer)
    {
      if tradeOffer.coverageRequestId !in coverageRequests {
        return Err(ObjectDoesNotExist(CoverageRequests));
      }
      var coverageRequest := coverageRequests[tradeOffer.coverageRequestId];
      if coverageRequest.shiftId !in shifts {
        return Err(ObjectDoesNotExist(Collection.Shifts));
      }
      var coverageRequestShift := shifts[coverageRequest.shiftId];
      r := UnassignShift(coverageRequest.shiftId);

      if tradeOffer.shiftOfferedId !in shifts {
        return Err(ObjectDoesNotExist(Collection.Shifts));
      }
      var offeredShift := shifts[tradeOffer.shiftOfferedId];
      r := UnassignShift(tradeOffer.shiftOfferedId);

      r := AssignShift(tradeOffer.shiftOfferedId, coverageRequestShift.employeeId);
      r := AssignShift(coverageRequest.shiftId, offeredShift.employeeId);
    }

    method RequestCoverage(shiftId: ObjectId, employeeId: ObjectId, coverageType: CoverageOptions, now: int, newId: ObjectId)
      returns (r: Result<ObjectId>)
      modifies this
      ensures Trading.Step(r, State()) == Trading.RequestCoverage(old(State()), shiftId, employeeId, coverageType, now, newId)
    {
      if shiftId !in shifts {
        return Err(ObjectDoesNotExist(Collection.Shifts));
      }
      var shift := shifts[shiftId];
      if shift.shiftPeriod.start < now {
        return Err(ShiftAlreadyStarted);
      }
      var coverageRequest := CoverageRequest(shiftId, employeeId, coverageType);
      if newId in coverageRequests {
        return Err(DuplicateKey(CoverageRequests));
      }
      coverageRequests := coverageRequests[newId := coverageRequest];
      return Ok(newId);
    }

    method OfferTrade(shiftOfferedId: ObjectId, coverageRequestId: ObjectId, now: int, newId: ObjectId)
      returns (r: Result<ObjectId>)
      modifies this
      ensures Trading.Step(r, State()) == Trading.OfferTrade(old(State()), shiftOfferedId, coverageRequestId, now, newId)
    {
      if shiftOfferedId !in shifts {
        return Err(ObjectDoesNotExist(Collection.Shifts));
      }
      var offeredShift := shifts[shiftOfferedId];
      if coverageRequestId !in coverageRequests {
        return Err(ObjectDoesNotExist(CoverageRequests));
      }
      var coverageReq := coverageRequests[coverageRequestId];
      if offeredShift.shiftPeriod.start < now {
        return Err(ShiftAlreadyStarted);
      }
      var tradeOffer := TradeOffer(coverageRequestId, shiftOfferedId, None, None);
      if coverageReq.CanTrade() {
        if newId in tradeOffers {
          return Err(DuplicateKey(TradeOffers));
        }
        tradeOffers := tradeOffers[newId := tradeOffer];
        return Ok(newId);
      }
      return Err(NotTradeable);
    }

    method ApproveTrade(tradeOfferId: ObjectId, isManager: bool) returns (r: Result<()>)
      modifies this
      ensures Trading.Step(r, State()) == Trading.ApproveTrade(old(State()), tradeOfferId, isManager)
    {
      if tradeOfferId !in tradeOffers {
        return Err(ObjectDoesNotExist(TradeOffers));
      }
      var result := Trading.Approved(tradeOffers[tradeOfferId], isManager);
      tradeOffers := tradeOffers[tradeOfferId := result];
      if result.isManagerApproved == Some(true) && result.isEmployeeApproved == Some(true) {
        r := ExecuteTrade(result);
      } else {
        r := Ok(());
      }
    }

    method DenyTrade(tradeOfferId: ObjectId, isManager: bool) returns (r: Result<()>)
      modifies this
      ensures Trading.Step(r, State()) == Trading.DenyTrade(old(State()), tradeOfferId, isManager)
    {
      if tradeOfferId !in tradeOffers {
        return Err(ObjectDoesNotExist(TradeOffers));
      }
      tradeOffers := tradeOffers - {tradeOfferId};
      return Ok(());
    }

    // ------------------------------------------------------------ pickups

    method PickupShift(openShiftId: ObjectId, employeeId: ObjectId, newId: ObjectId) returns (r: Result<ObjectId>)
      modifies this
      ensures Trading.Step(r, State())
           == Trading.PickupShift(old(State()), openShiftId, employeeId, isEmployeeSchedulableForShift, newId)
    {
      if openShiftId !in shifts {
        return Err(ObjectDoesNotExist(Collection.Shifts));
      }
      if !isEmployeeSchedulableForShift(employeeId, openShiftId) {
        return Err(NotSchedulable);
      }
      if |Trading.OffersFor(pickupOffers, openShiftId, employeeId)| > 0 {
        return Err(DuplicatePickup);
      }
      var pickupOffer := PickupOffer(openShiftId, employeeId, None);
      if newId in pickupOffers {
        return Err(DuplicateKey(PickupOffers));
      }
      pickupOffers := pickupOffers[newId := pickupOffer];
      return Ok(newId);
    }

    method ActOnPickup(pickupOfferId: ObjectId, isApproved: bool) returns (r: Result<PickupOffer>)
      modifies this
      ensures Trading.Step(r, State()) == Trading.ActOnPickup(old(State()), pickupOfferId, isApproved)
    {
      if pickupOfferId !in pickupOffers {
        return Err(ObjectDoesNotExist(PickupOffers));
      }
      var pickup := pickupOffers[pickupOfferId];
      if pickup.isManagerApproved != None {
        return Err(AlreadyActedOn);
      }
      pickupOffers := pickupOffers[pickupOfferId := pickup.(isManagerApproved := Some(isApproved))];
      return Ok(pickup);
    }

    method ApprovePickup(pickupOfferId: ObjectId) returns (r: Result<()>)
      modifies this
      ensures Trading.Step(r, State()) == Trading.ApprovePickup(old(State()), pickupOfferId)
    {
      var pickupOffer := ActOnPickup(pickupOfferId, true);
      if pickupOffer.Err? {
        return Err(pickupOffer.error);
      }
      r := AssignShift(pickupOffer.value.openShiftId, Some(pickupOffer.value.employeeId));
    }

    method DenyPickup(pickupOfferId: ObjectId) returns (r: Result<()>)
      modifies this
      ensures Trading.Step(r, State()) == Trading.DenyPickup(old(State()), pickupOfferId)
    {
      var pickupOffer := ActOnPickup(pickupOfferId, false);
      if pickupOffer.Err? {
        return Err(pickupOffer.error);
      }
      return Ok(());
    }
  }
}
