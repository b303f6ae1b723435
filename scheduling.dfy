/** The negotiation records: coverage requests, trade offers and pickup offers. */
module Scheduling {
  import opened Common

  /** What the holder of a shift will accept in exchange for giving it up. */
  datatype CoverageOptions = PickupOnly | TradeOnly | Both

  /** A holder's declaration that their shift may be picked up and/or traded away. */
  datatype CoverageRequest = CoverageRequest(
    shiftId: ObjectId,
    employeeId: ObjectId,
    coverageType: CoverageOptions)
  {
    /** Whether trade offers may be made against this request: the request is
        tradeable when its type is TradeOnly or Both. */
    predicate CanTrade() {
      coverageType != PickupOnly
    }

    /** Whether the request makes its shift open to pickup: any type but TradeOnly. */
    predicate OpenToPickup() {
      coverageType != TradeOnly
    }
  }

  /** An approval flag: `None` is unset, `Some(true)` approved, `Some(false)` denied. */
  type Approval = Option<bool>

  /** A proposal to exchange `shiftOfferedId` for the shift under a coverage request. */
  datatype TradeOffer = TradeOffer(
    coverageRequestId: ObjectId,
    shiftOfferedId: ObjectId,
    isEmployeeApproved: Approval,
    isManagerApproved: Approval)
  {
    predicate FullyApproved() {
      isManagerApproved == Some(true) && isEmployeeApproved == Some(true)
    }
  }

  /** A proposal by an employee to take over a shift; a manager decides it once. */
  datatype PickupOffer = PickupOffer(
    openShiftId: ObjectId,
    employeeId: ObjectId,
    isManagerApproved: Approval)
}
