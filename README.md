# Shift trading and coverage negotiation, modelled in Dafny

This project models the core of a shift-scheduling service. A shift holder requests
coverage of a shift. Other employees offer to trade one of their own shifts for it, or offer
to pick it up. Offers are approved before the schedule changes. A trade needs the
requesting employee's and a manager's approval. A pickup needs one manager decision.

The model has seven modules:

- `Common`: object identifiers, `Option` (C#'s `null`), the `Error` kinds the code throws,
  and `Result`.
- `Models`: the `Shift` document, the guarded `ShiftPeriod` setter (at most 16 hours, never
  negative), and construction from client input. The in-memory object is the class
  `ShiftEntity`. Its period field is written only by `SetShiftPeriod`.
- `Scheduling`: coverage requests (`PickupOnly`, `TradeOnly`, `Both`), trade offers with two
  tri-state approval flags, and pickup offers with one.
- `ShiftQueries`: the query executor. Filters form a tree (`Filter`) evaluated by `Matches`.
  The executor's collections are sequences in database order. Queries are filters and
  projections over them.
- `Trading`: every operation of the negotiation engine as a function. Each function maps
  the four keyed collections (`Store`) to the call's result and the collections after the
  call. A call that throws part-way keeps the writes it made before throwing.
- `TradingProperties`: lemmas that relate several calls, plus integrity preservation and
  two end-to-end scenarios.
- `Services`: the class `ShiftTrader`. It has one map field per collection and runs each
  operation step by step, in the source's order. Every method is proved to yield exactly
  what the matching `Trading` function describes.

The clock (`DateTime.Now`) is a parameter `now`. Instants are .NET ticks (100 ns). The
availability service is a function parameter `(employee, shift) -> bool`. The id that
`InsertOne` gives a new document is a parameter `newId`. An id already in use is the
duplicate-key error the database would raise.

The model follows the code, including where the code differs from the intended design:

- An executed trade offer stays stored with both flags set. Any later approval runs the
  swap again, and two further approvals restore the original holders
  (`ReapprovalSwapsAgain`).
- Trade execution is not all-or-nothing. It unassigns the coverage shift before it looks up
  the offered shift (`MissingOfferedShiftLeavesCoverageShiftUnassigned`). For the same
  reason, offering a shift in trade for itself leaves that shift with no holder
  (`SelfTradeUnassigns`).
- The duplicate-pickup check counts offers of every state. A denied offer still blocks a new
  one for the same pair (`DecidedPickupBlocksResubmission`).
- Approving a pickup does not re-check that the shift is still open. A later approval for
  the same shift reassigns it (`LaterPickupApprovalOverwrites`).
- A shift starting exactly at `now` is accepted, because the code compares with a strict `<`.
  Zero-length shifts are accepted too.
- Without options, `GetOpenShifts` applies no time condition at all.
- The executor filters on a `RequiredRole` field and the shown `Shift` class has a `Role`
  field. The model has a single role field.

## Model

| member | source | states |
|---|---|---|
| `Models.CheckPeriod` | API/Models/Shift.cs:38-50 | a period is accepted iff 0 ≤ duration ≤ 16 h; a negative duration is "starts after it ends", a longer one "too long" |
| `Models.ZeroLengthPeriodAccepted` | API/Models/Shift.cs:40-49 | a period that ends when it starts is accepted unchanged |
| `Models.ParseEmployeeId` | API/Models/Shift.cs:28 | a null or empty employee string gives no employee; otherwise the result is what the id parser gives, and a parser rejection is an error |
| `Models.ShiftFromExternal` | API/Models/Shift.cs:23-29 | construction succeeds iff the period is valid and the employee parses; a bad period is reported first; on success period, location and role are copied, the id is unset and the employee is the parsed one |
| `Models.ConstructionIgnoresLocationBound` | API/Models/Shift.cs:56-57 | whether construction succeeds does not depend on the location; a location longer than 70 characters is accepted and stored as given, so the bound is not enforced on this path |
| `Models.ShiftEntity.constructor` | API/Models/Shift.cs:22 | a new object has a valid (empty) period and no id or employee |
| `Models.ShiftEntity.ShiftPeriod` | API/Models/Shift.cs:37 | the getter of an object that keeps its invariant returns a period lasting between 0 and 16 hours |
| `Models.ShiftEntity.SetShiftPeriod` | API/Models/Shift.cs:35-51 | an accepted period is stored and read back exactly; a rejected one leaves the stored period unchanged; the setter keeps the object invariant (valid period) and touches no other field |
| `Models.ShiftEntity.FromExternal` | API/Models/Shift.cs:23-29 | succeeds or fails exactly as `ShiftFromExternal`; on success returns a fresh object satisfying the invariant whose document is the one `ShiftFromExternal` describes |
| `ShiftQueries.BuildOpenShiftFilter` | API/Services/QueryExecuters/IShiftQueryExecuter.cs:21-36 | with a time window a shift matches iff its start lies in the window, both ends included; without one iff it does not start before now |
| `ShiftQueries.BuildFilter` | API/Services/QueryExecuters/IShiftQueryExecuter.cs:37-51 | a shift matches iff it has the filtered employee (when that filter is set), the filtered role (when set) and satisfies the time condition |
| `ShiftQueries.Where` | API/Services/QueryExecuters/IShiftQueryExecuter.cs:73 | running a filter over a collection returns exactly the documents that satisfy it, and never more documents than the collection holds |
| `ShiftQueries.WhereCounts` | API/Services/QueryExecuters/IShiftQueryExecuter.cs:73 | each matching document is returned as often as it is stored; a non-matching one never |
| `ShiftQueries.WhereConcat` | API/Services/QueryExecuters/IShiftQueryExecuter.cs:73 | results keep store order: filtering a concatenation gives the concatenation of the two results |
| `ShiftQueries.GetShifts` | API/Services/QueryExecuters/IShiftQueryExecuter.cs:70-74 | sound and complete: a shift is returned iff it is stored and satisfies every condition of the options, and as often as it is stored |
| `ShiftQueries.SettingAFilterNarrows` | API/Services/QueryExecuters/IShiftQueryExecuter.cs:40-48 | setting an unset employee or role filter never adds a shift to the result |
| `ShiftQueries.GetShift` | API/Services/QueryExecuters/IShiftQueryExecuter.cs:76-80 | fails with "does not exist" iff no stored shift has the id; otherwise returns the first stored shift with that id |
| `ShiftQueries.OpenToPickupShiftIds` | API/Services/QueryExecuters/IShiftQueryExecuter.cs:59-62 | an id is listed iff some coverage request whose type is not TradeOnly is for that shift |
| `ShiftQueries.GetOpenShifts` | API/Services/QueryExecuters/IShiftQueryExecuter.cs:57-68 | a shift is returned iff it is stored, is unassigned or under a coverage request that is not TradeOnly, and (when options are given) satisfies the options; a returned shift appears as often as it is stored |
| `ShiftQueries.OpenShiftsDefaultToFuture` | API/Services/QueryExecuters/IShiftQueryExecuter.cs:29-32 | with options but no time window, no returned open shift starts before now |
| `ShiftQueries.NoOptionsNoTimeDefault` | API/Services/QueryExecuters/IShiftQueryExecuter.cs:64 | with null options every stored unassigned shift is returned, past ones included |
| `ShiftQueries.IdsOf` | API/Services/QueryExecuters/IShiftQueryExecuter.cs:55 | succeeds iff every document has an id, and then lists the ids in order, one per document |
| `ShiftQueries.GetOpenShiftIds` | API/Services/QueryExecuters/IShiftQueryExecuter.cs:52-56 | the ids have the length and order of `GetOpenShifts`; it fails iff some open shift has no id |
| `Trading.AssignShift` | API/Services/IShiftTrader.cs:64-66 | sets the holder of one existing shift and changes nothing else; an unknown shift is an error with no change |
| `Trading.UnassignShift` | API/Services/IShiftTrader.cs:57-61 | clears only the holder of one existing shift, leaves every other shift and the other three collections as they were; an unknown shift is an error with no change |
| `Trading.ExecuteTrade` | API/Services/IShiftTrader.cs:50-68 | succeeds iff the coverage request, its shift and the offered shift exist; a missing request or request shift fails with no change; a missing offered shift fails having cleared only the coverage shift's holder; on success, for two distinct shifts, the coverage shift gets the offered shift's previous holder and vice versa, with no other shift and no other collection changed |
| `Trading.RequestCoverage` | API/Services/IShiftTrader.cs:69-80 | fails with no change if the shift is unknown or started before now (a start at now is accepted); on success adds exactly one coverage request and changes no shift |
| `Trading.OfferTrade` | API/Services/IShiftTrader.cs:86-103 | stores a trade offer with both flags unset iff the offered shift and the request exist, the offered shift has not started and the request allows trades; otherwise nothing is stored |
| `Trading.Approved` | API/Services/IShiftTrader.cs:126-128 | sets exactly the manager's flag when `isManager`, otherwise exactly the employee's, leaving the other flag and the references unchanged |
| `Trading.ApproveTrade` | API/Services/IShiftTrader.cs:124-151 | an unknown id fails with no change; otherwise exactly one flag of that offer changes, other offers are untouched, and the trade is executed iff both flags are then true |
| `Trading.DenyTrade` | API/Services/IShiftTrader.cs:152-168 | removes exactly the offer with the id, fails with no change if it is absent, and touches no shift |
| `Trading.OffersFor` | API/Services/IShiftTrader.cs:116 | the stored pickup offers for a shift and employee, of any state; the set is empty iff no stored offer has that pair |
| `Trading.PickupShift` | API/Services/IShiftTrader.cs:105-122 | fails with no change if the shift is unknown, the employee is not schedulable, or any pickup offer exists for the pair; on success the pair has exactly one offer, undecided |
| `Trading.ActOnPickup` | API/Services/IShiftTrader.cs:169-184 | succeeds iff the offer is stored and undecided; an unknown or already decided offer fails with no change; on success the flag becomes the decision, nothing else changes, and the offer as it was before is returned |
| `Trading.ApprovePickup` | API/Services/IShiftTrader.cs:185-189 | after a successful decision the offer's shift is assigned to the offer's employee, with coverage requests and trade offers unchanged; a failed decision changes nothing |
| `Trading.DenyPickup` | API/Services/IShiftTrader.cs:190-193 | records the denial exactly as `ActOnPickup` does and changes no shift |
| `TradingProperties.SelfTradeUnassigns` | API/Services/IShiftTrader.cs:54-66 | when the offered shift is the coverage shift itself, execution succeeds and leaves that shift with no holder |
| `TradingProperties.MissingOfferedShiftLeavesCoverageShiftUnassigned` | API/Services/IShiftTrader.cs:55-60 | a missing offered shift makes execution fail after the coverage shift has been unassigned |
| `TradingProperties.ApprovalOrderIrrelevant` | API/Services/IShiftTrader.cs:124-141 | on an offer with neither flag true, the first approval changes no shift, and manager-then-employee ends exactly as employee-then-manager |
| `TradingProperties.FullApprovalSwapsOnce` | API/Services/IShiftTrader.cs:124-141 | from a fresh offer, in either order, the two approvals succeed and swap the two holders exactly once |
| `TradingProperties.ApprovingExecutedOfferReexecutes` | API/Services/IShiftTrader.cs:137-141 | approving an offer whose flags are both set runs the trade again |
| `TradingProperties.SwapTwiceRestores` | API/Services/IShiftTrader.cs:64-66 | swapping the holders of the same two shifts twice restores them |
| `TradingProperties.ReapprovalSwapsAgain` | API/Services/IShiftTrader.cs:137-141 | a further approval of an executed offer swaps again, and a second one restores the original holders |
| `TradingProperties.DeniedTradeCannotBeApproved` | API/Services/IShiftTrader.cs:130-135 | after a denial, approving the same offer fails with "does not exist" and changes nothing |
| `TradingProperties.PickupDecidedOnce` | API/Services/IShiftTrader.cs:169-175 | once a pickup offer is decided, every further approve, deny or act fails with "already acted on" and changes nothing |
| `TradingProperties.DecidedPickupBlocksResubmission` | API/Services/IShiftTrader.cs:115-119 | a decided offer still makes a new pickup offer for the same pair fail as a duplicate |
| `TradingProperties.LaterPickupApprovalOverwrites` | API/Services/IShiftTrader.cs:185-189 | approving two undecided pickups of the same shift succeeds twice and leaves the shift with the second employee |
| `TradingProperties.RequestCoveragePreservesIntegrity` | API/Services/IShiftTrader.cs:69-80 | a coverage request refers to a stored shift, so referential integrity is kept |
| `TradingProperties.OfferTradePreservesIntegrity` | API/Services/IShiftTrader.cs:86-103 | a stored trade offer refers to a stored request and a stored shift |
| `TradingProperties.PickupShiftPreservesIntegrity` | API/Services/IShiftTrader.cs:105-122 | pickup offers stay unique per shift and employee and refer to stored shifts |
| `TradingProperties.ApproveTradePreservesIntegrity` | API/Services/IShiftTrader.cs:124-151 | under integrity, approving a stored offer never fails, and integrity is kept |
| `TradingProperties.ExecuteTradePreservesIntegrity` | API/Services/IShiftTrader.cs:50-68 | executing a trade, even one that fails part-way, keeps every shift under its own id and every reference resolvable |
| `TradingProperties.DenyTradePreservesIntegrity` | API/Services/IShiftTrader.cs:152-168 | deleting a trade offer keeps integrity |
| `TradingProperties.ApprovePickupPreservesIntegrity` | API/Services/IShiftTrader.cs:185-189 | under integrity, approving a pickup fails only when the decision fails, and integrity is kept |
| `TradingProperties.DenyPickupPreservesIntegrity` | API/Services/IShiftTrader.cs:190-193 | denying a pickup keeps integrity |
| `TradingProperties.TradeScenario` | API/Services/IShiftTrader.cs:69-141 | request (Both) on S1 held by X, Y offers S2, manager then X approve: every call succeeds, S1 ends with Y and S2 with X |
| `TradingProperties.PickupScenario` | API/Services/IShiftTrader.cs:105-193 | a second pickup offer for the same pair is a duplicate; after a denial the shift stays unassigned and approving fails |
| `Services.ShiftTrader.constructor` | API/Services/IShiftTrader.cs:41-48 | the engine starts on the given collections and availability service |
| `Services.ShiftTrader.AssignShift` | API/Services/IShiftTrader.cs:64-66 | the assignment step yields exactly `Trading.AssignShift` |
| `Services.ShiftTrader.UnassignShift` | API/Services/IShiftTrader.cs:57-61 | the unassignment step yields exactly `Trading.UnassignShift` |
| `Services.ShiftTrader.ExecuteTrade` | API/Services/IShiftTrader.cs:50-68 | the four ordered scheduler calls yield exactly `Trading.ExecuteTrade`, partial effects included |
| `Services.ShiftTrader.RequestCoverage` | API/Services/IShiftTrader.cs:69-80 | yields exactly `Trading.RequestCoverage` |
| `Services.ShiftTrader.OfferTrade` | API/Services/IShiftTrader.cs:86-103 | yields exactly `Trading.OfferTrade` |
| `Services.ShiftTrader.ApproveTrade` | API/Services/IShiftTrader.cs:124-151 | yields exactly `Trading.ApproveTrade` |
| `Services.ShiftTrader.DenyTrade` | API/Services/IShiftTrader.cs:152-168 | yields exactly `Trading.DenyTrade` |
| `Services.ShiftTrader.PickupShift` | API/Services/IShiftTrader.cs:105-122 | yields exactly `Trading.PickupShift` with the engine's availability service |
| `Services.ShiftTrader.ActOnPickup` | API/Services/IShiftTrader.cs:169-184 | yields exactly `Trading.ActOnPickup` |
| `Services.ShiftTrader.ApprovePickup` | API/Services/IShiftTrader.cs:185-189 | yields exactly `Trading.ApprovePickup` |
| `Services.ShiftTrader.DenyPickup` | API/Services/IShiftTrader.cs:190-193 | yields exactly `Trading.DenyPickup` |

## Left out

- The query executor and the trading engine see the same shift collection in two forms: a sequence in database order for queries, and a map keyed by id for trading. No lemma connects the two forms. `Trading.Integrity` (every shift is stored under its own id, and every reference resolves) is proved to be preserved by each operation. It is not an invariant of the `ShiftTrader` class.

- Identifier parsing: the engine's operations take already-parsed ids. Where the code parses (`RequestCoverage`, `OfferTrade`, `PickupShift`), a malformed id throws before anything is written. `OfferTrade` parses the request id after it has read the shift, but the read changes nothing. `ApproveTrade`, `DenyTrade` and `ActOnPickup` never parse; they compare each stored id's text with the given string, so a malformed id is reported as "does not exist". Either way such a call fails with no change. In `ShiftFromExternal` the parser is a function parameter.
- Database mechanics: `InsertOne`, `FindOneAndUpdate`, `FindOneAndDelete`, `CountDocuments` and filter builders are map operations or set comprehensions. The id of an inserted document is a parameter.
- Concurrency: the atomicity of single-document updates, the race between the duplicate-pickup count and the insert, and the re-fetch in `ActOnPickup` that can only fail under concurrent deletion. The model is sequential.
- Floating point: `Duration().TotalHours` is a double. The model compares whole ticks against 16 hours of ticks, so rounding near the bound is not modelled.
- Collaborators whose code is not part of this model: the availability service is an uninterpreted parameter, and the scheduler is a map update that fails on an unknown shift. Any check the scheduler makes beyond that is not modelled.
- `CoverageRequest.CanTrade` is not part of this model. It is defined as "the type is not PickupOnly", the documented meaning of a tradeable request.
- `TimeRange` is not part of this model. `Duration()` is taken to be end minus start.
- The `Role` enumeration is not part of this model. A role is a natural number.
- Logging and the "notify" branches: they are comments or log calls with no effect on state.
- `Models.ShiftEntity.constructor`: null defaults of the parameterless constructor are modelled as empty values. Plain auto-property setters (`Location`, `Role`, `EmployeeID`) are field assignments.
- `ShiftQueries.GetShifts`: the options are never null. Null options would raise a null-reference exception, which is not modelled.
- API/Routes/UserRoutes.cs (routing, password hashing, tokens, multi-factor mail) and API/Models/MongoObject.cs beyond the optional `Id` are outside the core.
