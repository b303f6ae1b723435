/** The read-only shift queries: filter composition over shift documents and the
    queries that run those filters over the collections. A collection is the
    sequence of its documents in the order the database returns them. */
module ShiftQueries {
  import opened Common
  import opened Models
  import opened Scheduling

  /** A query filter on shift documents, built by conjoining and disjoining field tests. */
  datatype Filter =
    | Empty
    | And(left: Filter, right: Filter)
    | Or(left: Filter, right: Filter)
    | StartAtLeast(bound: int)
    | StartAtMost(bound: int)
    | EmployeeIs(employee: Option<ObjectId>)
    | RoleIs(role: Role)
    | IdIn(ids: seq<ObjectId>)

  /** Whether a document satisfies a filter. */
  predicate Matches(f: Filter, s: Shift) {
    match f
    case Empty => true
    case And(l, r) => Matches(l, s) && Matches(r, s)
    case Or(l, r) => Matches(l, s) || Matches(r, s)
    case StartAtLeast(b) => s.shiftPeriod.start >= b
    case StartAtMost(b) => s.shiftPeriod.start <= b
    case EmployeeIs(e) => s.employeeId == e
    case RoleIs(role) => s.role == role
    case IdIn(ids) => s.id.Some? && s.id.value in ids
  }

  /** The options of an open-shift query: an optional window on start times. */
  datatype OpenShiftQueryOptions = OpenShiftQueryOptions(timeFilter: Option<TimeRange>)

  /** The options of a shift query; the time window is shared with open-shift queries. */
  datatype ShiftQueryOptions = ShiftQueryOptions(
    employeeIdFilter: Option<ObjectId>,
    requiredRoleFilter: Option<Role>,
    timeFilter: Option<TimeRange>)
  {
    function AsOpenShiftQueryOptions(): OpenShiftQueryOptions {
      OpenShiftQueryOptions(timeFilter)
    }
  }

  /** The start-time condition of a query: inside the window (both ends included) when one is
      given, otherwise not before `now`. */
  ghost predicate StartAllowed(timeFilter: Option<TimeRange>, now: int, s: Shift) {
    match timeFilter
    case Some(window) => window.start <= s.shiftPeriod.start <= window.end
    case None => now <= s.shiftPeriod.start
  }

  /** Every condition a set of shift query options imposes on a document. */
  ghost predicate SatisfiesOptions(options: ShiftQueryOptions, now: int, s: Shift) {
    && (options.employeeIdFilter.Some? ==> s.employeeId == options.employeeIdFilter)
    && (options.requiredRoleFilter.Some? ==> s.role == options.requiredRoleFilter.value)
    && StartAllowed(options.timeFilter, now, s)
  }

  /** The filter built from open-shift query options. */
  function BuildOpenShiftFilter(options: OpenShiftQueryOptions, now: int): (f: Filter)
    ensures forall s :: Matches(f, s) <==> StartAllowed(options.timeFilter, now, s)
  {
    var filter := Empty;
    if options.timeFilter.Some? then
      var window := options.timeFilter.value;
      var f := And(And(filter, StartAtLeast(window.start)), StartAtMost(window.end));
      assert forall s :: Matches(f, s) <==> StartAllowed(options.timeFilter, now, s) by {
        forall s ensures Matches(f, s) <==> StartAllowed(options.timeFilter, now, s) {
          assert Matches(And(filter, StartAtLeast(window.start)), s) <==> window.start <= s.shiftPeriod.start;
        }
      }
      f
    else
      And(filter, StartAtLeast(now))
  }

  /** The filter built from shift query options: an equality test for each filter that is set,
      conjoined with the time condition. */
  function BuildFilter(options: ShiftQueryOptions, now: int): (f: Filter)
    ensures forall s :: Matches(f, s) <==> SatisfiesOptions(options, now, s)
  {
    var filter0 := Empty;
    var filter1 := if options.employeeIdFilter.Some? then And(filter0, EmployeeIs(options.employeeIdFilter)) else filter0;
    var filter2 := if options.requiredRoleFilter.Some? then And(filter1, RoleIs(options.requiredRoleFilter.value)) else filter1;
    var f := And(filter2, BuildOpenShiftFilter(options.AsOpenShiftQueryOptions(), now));
    assert forall s :: Matches(f, s) <==> SatisfiesOptions(options, now, s) by {
      forall s ensures Matches(f, s) <==> SatisfiesOptions(options, now, s) {
        assert Matches(filter1, s) <==> (options.employeeIdFilter.Some? ==> s.employeeId == options.employeeIdFilter);
        assert Matches(filter2, s) <==> Matches(filter1, s) && (options.requiredRoleFilter.Some? ==> s.role == options.requiredRoleFilter.value);
      }
    }
    f
  }

  /** The documents of `store` that satisfy `f`, in store order (see `WhereConcat`), each
      as often as it is stored. */
  function Where(store: seq<Shift>, f: Filter): (r: seq<Shift>)
    ensures |r| <= |store|
    ensures forall s :: s in r <==> s in store && Matches(f, s)
  {
    if store == [] then []
    else (if Matches(f, store[0]) then [store[0]] else []) + Where(store[1..], f)
  }

  /** Filtering keeps every matching document as often as it is stored and drops the rest. */
  lemma {:induction false} WhereCounts(store: seq<Shift>, f: Filter)
    ensures forall s :: multiset(Where(store, f))[s] == (if Matches(f, s) then multiset(store)[s] else 0)
  {
    if store != [] {
      assert store == [store[0]] + store[1..];
      WhereCounts(store[1..], f);
    }
  }

  /** Filtering keeps store order: the result for a concatenation is the concatenation of the results. */
  lemma {:induction false} WhereConcat(a: seq<Shift>, b: seq<Shift>, f: Filter)
    ensures Where(a + b, f) == Where(a, f) + Where(b, f)
  {
    if a == [] {
      assert a + b == b;
    } else {
      var head := if Matches(f, a[0]) then [a[0]] else [];
      assert a + b == [a[0]] + (a[1..] + b);
      WhereCons(a[0], a[1..] + b, f);
      assert a == [a[0]] + a[1..];
      WhereCons(a[0], a[1..], f);
      WhereConcat(a[1..], b, f);
      ConcatAssociates(head, Where(a[1..], f), Where(b, f));
    }
  }

  lemma ConcatAssociates<T>(x: seq<T>, y: seq<T>, z: seq<T>)
    ensures x + (y + z) == (x + y) + z
  {
  }

  /** Filtering a document followed by a collection. */
  lemma WhereCons(x: Shift, rest: seq<Shift>, f: Filter)
    ensures Where([x] + rest, f) == (if Matches(f, x) then [x] else []) + Where(rest, f)
  {
    assert ([x] + rest)[0] == x && ([x] + rest)[1..] == rest;
  }

  /** All shifts satisfying the options: sound and complete with respect to the options. */
  function GetShifts(store: seq<Shift>, options: ShiftQueryOptions, now: int): (r: seq<Shift>)
    ensures forall s :: s in r <==> s in store && SatisfiesOptions(options, now, s)
    ensures forall s :: multiset(r)[s] == (if SatisfiesOptions(options, now, s) then multiset(store)[s] else 0)
  {
    WhereCounts(store, BuildFilter(options, now));
    Where(store, BuildFilter(options, now))
  }

  /** The first stored shift with the given id; absence is an error. */
  function GetShift(store: seq<Shift>, id: ObjectId): (r: Result<Shift>)
    ensures r.Err? <==> forall s :: s in store ==> s.id != Some(id)
    ensures r.Err? ==> r.error == ObjectDoesNotExist(Shifts)
    ensures r.Ok? ==> exists i :: 0 <= i < |store| && store[i] == r.value && r.value.id == Some(id)
                                  && forall j :: 0 <= j < i ==> store[j].id != Some(id)
  {
    if store == [] then Err(ObjectDoesNotExist(Shifts))
    else if store[0].id == Some(id) then Ok(store[0])
    else
      var r := GetShift(store[1..], id);
      assert r.Ok? ==> exists i :: 1 <= i < |store| && store[i] == r.value && r.value.id == Some(id)
                                     && forall j :: 0 <= j < i ==> store[j].id != Some(id) by {
        if r.Ok? {
          var i :| 0 <= i < |store[1..]| && store[1..][i] == r.value && r.value.id == Some(id)
                   && forall j :: 0 <= j < i ==> store[1..][j].id != Some(id);
          assert store[i + 1] == r.value;
          forall j | 0 <= j < i + 1 ensures store[j].id != Some(id) {
            if j > 0 { assert store[j] == store[1..][j - 1]; }
          }
        }
      }
      r
  }

  /** The ids of the shifts under a coverage request that is open to pickup, in request order. */
  function OpenToPickupShiftIds(requests: seq<CoverageRequest>): (ids: seq<ObjectId>)
    ensures forall id :: id in ids <==> exists req :: req in requests && req.OpenToPickup() && req.shiftId == id
  {
    if requests == [] then []
    else
      assert forall req :: req in requests <==> req == requests[0] || req in requests[1..];
      (if requests[0].OpenToPickup() then [requests[0].shiftId] else []) + OpenToPickupShiftIds(requests[1..])
  }

  /** A shift is open when nobody holds it or it is under a coverage request that is open to pickup. */
  ghost predicate IsOpen(s: Shift, requests: seq<CoverageRequest>) {
    || s.employeeId.None?
    || (s.id.Some? && exists req :: req in requests && req.OpenToPickup() && req.shiftId == s.id.value)
  }

  /** The open shifts. Without options no condition is put on start times, so shifts that
      have already started are included. */
  function GetOpenShifts(store: seq<Shift>, requests: seq<CoverageRequest>, options: Option<ShiftQueryOptions>, now: int): (r: seq<Shift>)
    ensures forall s :: s in r <==>
      && s in store
      && IsOpen(s, requests)
      && (options.Some? ==> SatisfiesOptions(options.value, now, s))
    ensures forall s :: (multiset(r)[s] ==
      if IsOpen(s, requests) && (options.Some? ==> SatisfiesOptions(options.value, now, s)) then multiset(store)[s] else 0)
  {
    var openToPickup := OpenToPickupShiftIds(requests);
    var filter := if options.None? then Empty else BuildFilter(options.value, now);
    var f := And(filter, Or(EmployeeIs(None), IdIn(openToPickup)));
    assert forall s :: Matches(f, s) <==> IsOpen(s, requests) && (options.Some? ==> SatisfiesOptions(options.value, now, s)) by {
      forall s ensures Matches(f, s) <==> IsOpen(s, requests) && (options.Some? ==> SatisfiesOptions(options.value, now, s)) {
        assert Matches(Or(EmployeeIs(None), IdIn(openToPickup)), s) <==> s.employeeId.None? || (s.id.Some? && s.id.value in openToPickup);
      }
    }
    WhereCounts(store, f);
    Where(store, f)
  }

  /** The ids of a list of documents, in order; a document without an id is an error. */
  function IdsOf(shifts: seq<Shift>): (r: Result<seq<ObjectId>>)
    ensures r.Ok? <==> forall i :: 0 <= i < |shifts| ==> shifts[i].id.Some?
    ensures r.Err? ==> r.error == MissingId
    ensures r.Ok? ==> |r.value| == |shifts| && forall i :: 0 <= i < |shifts| ==> shifts[i].id == Some(r.value[i])
  {
    if shifts == [] then Ok([])
    else if shifts[0].id.None? then Err(MissingId)
    else match IdsOf(shifts[1..])
      case Err(e) =>
        assert !(forall i :: 0 <= i < |shifts| ==> shifts[i].id.Some?) by {
          var k :| 0 <= k < |shifts[1..]| && shifts[1..][k].id.None?;
          assert shifts[k + 1].id.None?;
        }
        Err(e)
      case Ok(rest) => Ok([shifts[0].id.value] + rest)
  }

  /** The ids of the open shifts, in the order `GetOpenShifts` lists them. */
  function GetOpenShiftIds(store: seq<Shift>, requests: seq<CoverageRequest>, options: Option<ShiftQueryOptions>, now: int): (r: Result<seq<ObjectId>>)
    ensures r.Ok? ==>
      var open := GetOpenShifts(store, requests, options, now);
      |r.value| == |open| && forall i :: 0 <= i < |open| ==> open[i].id == Some(r.value[i])
    ensures r.Err? <==> exists s :: s in GetOpenShifts(store, requests, options, now) && s.id.None?
  {
    IdsOf(GetOpenShifts(store, requests, options, now))
  }

  /** Setting a filter that was unset never adds a shift to the result. */
  lemma SettingAFilterNarrows(store: seq<Shift>, options: ShiftQueryOptions, now: int, employee: ObjectId, role: Role)
    ensures options.employeeIdFilter.None? ==>
      forall s :: s in GetShifts(store, options.(employeeIdFilter := Some(employee)), now) ==> s in GetShifts(store, options, now)
    ensures options.requiredRoleFilter.None? ==>
      forall s :: s in GetShifts(store, options.(requiredRoleFilter := Some(role)), now) ==> s in GetShifts(store, options, now)
  {
  }

  /** With options but no time window, no open shift that started before `now` is returned. */
  lemma OpenShiftsDefaultToFuture(store: seq<Shift>, requests: seq<CoverageRequest>, options: ShiftQueryOptions, now: int)
    requires options.timeFilter.None?
    ensures forall s :: s in GetOpenShifts(store, requests, Some(options), now) ==> now <= s.shiftPeriod.start
  {
  }

  /** Without options, an unassigned shift is returned however long ago it started. */
  lemma NoOptionsNoTimeDefault(store: seq<Shift>, requests: seq<CoverageRequest>, now: int, s: Shift)
    requires s in store && s.employeeId.None?
    ensures s in GetOpenShifts(store, requests, None, now)
  {
  }
}
