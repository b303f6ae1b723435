/** The shift record, its validated period and its construction from client input. */
module Models {
  import opened Common

  /** Instants and durations are counted in .NET ticks of 100 nanoseconds. */
  const TicksPerHour: int := 36_000_000_000

  /** Longest shift the setter accepts, in hours. */
  const MaxShiftLengthHours: int := 16

  const MaxShiftLengthTicks: int := MaxShiftLengthHours * TicksPerHour

  /** Declared bound on the length of a shift's location. */
  const MaxLocationLength: int := 70

  /** The employee role a shift calls for; the enumeration's members are not part of this model. */
  type Role = nat

  datatype TimeRange = TimeRange(start: int, end: int) {
    function Duration(): int { end - start }
  }

  /** A stored shift document. `employeeId == None` means the shift is unassigned. */
  datatype Shift = Shift(
    id: Option<ObjectId>,
    shiftPeriod: TimeRange,
    location: string,
    role: Role,
    employeeId: Option<ObjectId>)

  /** The shift as a client submits it, with the employee still in textual form. */
  datatype ShiftExternal = ShiftExternal(
    shiftPeriod: TimeRange,
    location: string,
    role: Role,
    employeeId: Option<string>)

  /** A period the setter accepts: it does not end before it starts and lasts at most 16 hours. */
  predicate ValidPeriod(p: TimeRange) {
    0 <= p.Duration() <= MaxShiftLengthTicks
  }

  /** The declared bound on a location's length (a validation attribute, not a setter check). */
  predicate LocationWithinBound(location: string) {
    |location| <= MaxLocationLength
  }

  /** The two checks of the period setter, in the order it makes them. */
  function CheckPeriod(value: TimeRange): (r: Result<TimeRange>)
    ensures r.Ok? <==> ValidPeriod(value)
    ensures r.Ok? ==> r.value == value
    ensures value.Duration() < 0 ==> r == Err(StartsAfterEnd)
    ensures value.Duration() > MaxShiftLengthTicks ==> r == Err(ShiftTooLong)
  {
    if value.Duration() < 0 then Err(StartsAfterEnd)
    else if value.Duration() > MaxShiftLengthTicks then Err(ShiftTooLong)
    else Ok(value)
  }

  /** The constructor's mapping of the textual employee: null or empty means unassigned,
      anything else goes through the identifier parser, which may reject it. */
  function ParseEmployeeId(text: Option<string>, parse: string -> Option<ObjectId>): (r: Result<Option<ObjectId>>)
    ensures (text == None || text == Some("")) ==> r == Ok(None)
    ensures text.Some? && text.value != "" ==>
      (r.Ok? <==> parse(text.value).Some?) && (r.Ok? ==> r.value == parse(text.value))
  {
    match text
    case None => Ok(None)
    case Some(s) =>
      if s == "" then Ok(None)
      else match parse(s)
        case None => Err(MalformedId)
        case Some(id) => Ok(Some(id))
  }

  /** The document a successful construction from client input yields. */
  function ShiftFromExternal(external: ShiftExternal, parse: string -> Option<ObjectId>): (r: Result<Shift>)
    ensures r.Ok? <==> ValidPeriod(external.shiftPeriod) && ParseEmployeeId(external.employeeId, parse).Ok?
    ensures !ValidPeriod(external.shiftPeriod) ==> r == Err(CheckPeriod(external.shiftPeriod).error)
    ensures r.Ok? ==>
      && r.value.id == None
      && r.value.shiftPeriod == external.shiftPeriod
      && r.value.location == external.location
      && r.value.role == external.role
      && r.value.employeeId == ParseEmployeeId(external.employeeId, parse).value
  {
    match CheckPeriod(external.shiftPeriod)
    case Err(e) => Err(e)
    case Ok(period) =>
      match ParseEmployeeId(external.employeeId, parse)
      case Err(e) => Err(e)
      case Ok(employee) => Ok(Shift(None, period, external.location, external.role, employee))
  }

  /** A shift that ends when it starts is accepted. */
  lemma ZeroLengthPeriodAccepted(t: int)
    ensures CheckPeriod(TimeRange(t, t)) == Ok(TimeRange(t, t))
  {
  }

  /** Construction accepts a location of any length: the bound is not checked on this path. */
  lemma ConstructionIgnoresLocationBound(external: ShiftExternal, parse: string -> Option<ObjectId>, location: string)
    ensures ShiftFromExternal(external.(location := location), parse).Ok?
        <==> ShiftFromExternal(external, parse).Ok?
    ensures (ShiftFromExternal(external, parse).Ok? && !LocationWithinBound(location)) ==>
      && ShiftFromExternal(external.(location := location), parse).Ok?
      && ShiftFromExternal(external.(location := location), parse).value.location == location
  {
  }

  /** A shift object in memory. Its period is held in a private field written only by the
      guarded setter `SetShiftPeriod`. */
  class ShiftEntity {
    var id: Option<ObjectId>
    var shiftPeriod: TimeRange
    var location: string
    var role: Role
    var employeeId: Option<ObjectId>

    /** The object invariant the setter maintains. */
    ghost predicate Valid()
      reads this
    {
      ValidPeriod(shiftPeriod)
    }

    /** The document this object is stored as. */
    function Record(): Shift
      reads this
    {
      Shift(id, shiftPeriod, location, role, employeeId)
    }

    /** The parameterless constructor; unset references are modelled as empty values. */
    constructor ()
      ensures Valid()
      ensures Record() == Shift(None, TimeRange(0, 0), "", 0, None)
    {
      id := None;
      shiftPeriod := TimeRange(0, 0);
      location := "";
      role := 0;
      employeeId := None;
    }

    /** The getter returns exactly what the last accepted set stored. */
    function ShiftPeriod(): (p: TimeRange)
      reads this
      ensures Valid() ==> 0 <= p.Duration() <= MaxShiftLengthHours * TicksPerHour
    {
      shiftPeriod
    }

    /** The guarded setter: a period that ends before it starts or lasts more than
        16 hours is rejected and the stored period stays as it was. */
    method SetShiftPeriod(value: TimeRange) returns (r: Result<TimeRange>)
      modifies this
      ensures r == CheckPeriod(value)
      ensures r.Ok? ==> ShiftPeriod() == value && Valid()
      ensures r.Err? ==> ShiftPeriod() == old(ShiftPeriod())
      ensures old(Valid()) ==> Valid()
      ensures id == old(id) && location == old(location) && role == old(role) && employeeId == old(employeeId)
    {
      if value.Duration() < 0 {
        return Err(StartsAfterEnd);
      }
      if value.Duration() > MaxShiftLengthTicks {
        return Err(ShiftTooLong);
      }
      shiftPeriod := value;
      return Ok(value);
    }

    /** Construction from client input: the period goes through the setter, then location
        and role are copied, then the employee is parsed. */
    static method FromExternal(external: ShiftExternal, parse: string -> Option<ObjectId>) returns (r: Result<ShiftEntity>)
      ensures r.Ok? <==> ShiftFromExternal(external, parse).Ok?
      ensures r.Err? ==> r.error == ShiftFromExternal(external, parse).error
      ensures r.Ok? ==> fresh(r.value) && r.value.Valid() && r.value.Record() == ShiftFromExternal(external, parse).value
    {
      var shift := new ShiftEntity();
      var period := shift.SetShiftPeriod(external.shiftPeriod);
      if period.Err? {
        return Err(period.error);
      }
      shift.location := external.location;
      shift.role := external.role;
      var employee := ParseEmployeeId(external.employeeId, parse);
      if employee.Err? {
        return Err(employee.error);
      }
      shift.employeeId := employee.value;
      assert shift.Record() == Shift(None, external.shiftPeriod, external.location, external.role, employee.value);
      return Ok(shift);
    }
  }
}
