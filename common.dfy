/** Identifiers, optional values and the failures the shift-trading core raises. */
module Common {

  /** A database object identifier. Its textual form is parsed outside this model,
      so the model works on already-parsed identifiers. */
  type ObjectId = nat

  /** A nullable reference: `None` stands for C#'s `null`. */
  datatype Option<T> = None | Some(value: T)

  /** The collections of the database the core reads and writes. */
  datatype Collection = Shifts | CoverageRequests | TradeOffers | PickupOffers

  /** Every exception the core throws, one variant per distinct message. */
  datatype Error =
    | ObjectDoesNotExist(collection: Collection)
    | DuplicateKey(collection: Collection)
    | MalformedId
    | MissingId
    | StartsAfterEnd
    | ShiftTooLong
    | ShiftAlreadyStarted
    | NotTradeable
    | NotSchedulable
    | DuplicatePickup
    | AlreadyActedOn

  /** The outcome of an operation that either returns a value or throws. */
  datatype Result<T> = Ok(value: T) | Err(error: Error)
}
