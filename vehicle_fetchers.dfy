/** `listVehiclesByOrg`: the query built from the parsed filters, its
    pagination, and the mapping of stored vehicles to the public shape. The
    filter schema's own parsing is not part of this model; the parsed filters
    are the input. The vehicle table is a sequence already in the query's
    `unitNumber` order; `Matches` gives the meaning of the query's `where`,
    and the clock reading `now` is a parameter. */
module VehicleFetchers {
  import opened Common

  datatype VehicleFilters = VehicleFilters(
    search: Option<string>, vehicleType: Option<string>, status: Option<string>,
    make: Option<string>, model: Option<string>, year: Option<int>,
    assignedDriverId: Option<string>, maintenanceDue: Option<bool>,
    page: Option<nat>, limit: Option<nat>)

  /** The text columns a search looks at. */
  datatype TextColumn = UnitNumber | Vin | Make | Model | LicensePlate
  datatype DateColumn = NextMaintenanceDate | NextInspectionDue

  /** One alternative of the `OR` list. */
  datatype Condition =
    | ContainsInsensitive(column: TextColumn, term: string)
    | DueBy(dateColumn: DateColumn, instant: int)

  /** The `where` object; a `None` field is a key that was never assigned. */
  datatype Where = Where(
    organizationId: string, anyOf: Option<seq<Condition>>,
    vehicleType: Option<string>, status: Option<string>,
    makeContains: Option<string>, modelContains: Option<string>,
    year: Option<int>, currentDriverId: Option<string>)

  datatype VehicleRow = VehicleRow(
    id: string, organizationId: string, vehicleType: string, status: string,
    make: Option<string>, model: Option<string>, year: Option<int>, vin: Option<string>,
    licensePlate: Option<string>, unitNumber: string, currentDriverId: Option<string>,
    nextMaintenanceDate: Option<int>, nextInspectionDue: Option<int>)

  function SearchConditions(term: string): seq<Condition>
  {
    [ContainsInsensitive(UnitNumber, term), ContainsInsensitive(Vin, term),
     ContainsInsensitive(Make, term), ContainsInsensitive(Model, term),
     ContainsInsensitive(LicensePlate, term)]
  }

  function DueConditions(now: int): seq<Condition>
  {
    [DueBy(NextMaintenanceDate, now), DueBy(NextInspectionDue, now)]
  }

  predicate TruthyInt(o: Option<int>) { o.Some? && o.value != 0 }

  /** The `where` object, stated key by key: scoped to the organisation;
      the `OR` list is the maintenance test when `maintenanceDue` is set,
      else the search when there is a term; each other key only when its
      filter is set. */
  function WhereFor(orgId: string, p: VehicleFilters, now: int): Where
  {
    Where(orgId,
      if p.maintenanceDue == Some(true) then Some(DueConditions(now))
      else if Truthy(p.search) then Some(SearchConditions(p.search.value))
      else None,
      if Truthy(p.vehicleType) then p.vehicleType else None,
      if Truthy(p.status) then p.status else None,
      if Truthy(p.make) then p.make else None,
      if Truthy(p.model) then p.model else None,
      if TruthyInt(p.year) then p.year else None,
      if Truthy(p.assignedDriverId) then p.assignedDriverId else None)
  }

  /** The source's construction: one conditional assignment after another,
      where the maintenance test overwrites a search's `OR` list. */
  method BuildWhere(orgId: string, p: VehicleFilters, now: int) returns (w: Where)
    ensures w == WhereFor(orgId, p, now)
  {
    w := Where(orgId, None, None, None, None, None, None, None);
    if Truthy(p.search) {
      w := w.(anyOf := Some(SearchConditions(p.search.value)));
    }
    if Truthy(p.vehicleType) {
      w := w.(vehicleType := p.vehicleType);
    }
    if Truthy(p.status) {
      w := w.(status := p.status);
    }
    if Truthy(p.make) {
      w := w.(makeContains := p.make);
    }
    if Truthy(p.model) {
      w := w.(modelContains := p.model);
    }
    if TruthyInt(p.year) {
      w := w.(year := p.year);
    }
    if Truthy(p.assignedDriverId) {
      w := w.(currentDriverId := p.assignedDriverId);
    }
    if p.maintenanceDue == Some(true) {
      w := w.(anyOf := Some(DueConditions(now)));
    }
  }

  function Text(v: VehicleRow, c: TextColumn): Option<string>
  {
    match c
    case UnitNumber => Some(v.unitNumber)
    case Vin => v.vin
    case Make => v.make
    case Model => v.model
    case LicensePlate => v.licensePlate
  }

  function Date(v: VehicleRow, c: DateColumn): Option<int>
  {
    match c
    case NextMaintenanceDate => v.nextMaintenanceDate
    case NextInspectionDue => v.nextInspectionDue
  }

  /** A null column satisfies no comparison. */
  predicate Holds(c: Condition, v: VehicleRow)
  {
    match c
    case ContainsInsensitive(col, term) =>
      Text(v, col).Some? && Common.ContainsInsensitive(Text(v, col).value, term)
    case DueBy(col, instant) => Date(v, col).Some? && Date(v, col).value <= instant
  }

  predicate Matches(w: Where, v: VehicleRow)
  {
    && v.organizationId == w.organizationId
    && (w.anyOf.Some? ==> exists i | 0 <= i < |w.anyOf.value| :: Holds(w.anyOf.value[i], v))
    && (w.vehicleType.Some? ==> v.vehicleType == w.vehicleType.value)
    && (w.status.Some? ==> v.status == w.status.value)
    && (w.makeContains.Some? ==> v.make.Some? && Common.ContainsInsensitive(v.make.value, w.makeContains.value))
    && (w.modelContains.Some? ==> v.model.Some? && Common.ContainsInsensitive(v.model.value, w.modelContains.value))
    && (w.year.Some? ==> v.year == w.year)
    && (w.currentDriverId.Some? ==> v.currentDriverId == w.currentDriverId)
  }

  /** A search hit: the term in any of the five columns, ignoring case. */
  predicate SearchHit(v: VehicleRow, term: string)
  {
    || Common.ContainsInsensitive(v.unitNumber, term)
    || (v.vin.Some? && Common.ContainsInsensitive(v.vin.value, term))
    || (v.make.Some? && Common.ContainsInsensitive(v.make.value, term))
    || (v.model.Some? && Common.ContainsInsensitive(v.model.value, term))
    || (v.licensePlate.Some? && Common.ContainsInsensitive(v.licensePlate.value, term))
  }

  /** Due for maintenance or inspection at `now`. */
  predicate Due(v: VehicleRow, now: int)
  {
    (v.nextMaintenanceDate.Some? && v.nextMaintenanceDate.value <= now)
    || (v.nextInspectionDue.Some? && v.nextInspectionDue.value <= now)
  }

  const MAX_LIMIT: nat := 100
  const DEFAULT_LIMIT: nat := 10

  /** `page || 1`. */
  function PageOf(p: VehicleFilters): (page: nat)
    ensures page >= 1
    ensures p.page.Some? && p.page.value != 0 ==> page == p.page.value
  {
    if p.page.Some? && p.page.value != 0 then p.page.value else 1
  }

  /** `min(limit || 10, 100)`. */
  function LimitOf(p: VehicleFilters): (limit: nat)
    ensures 1 <= limit <= MAX_LIMIT
    ensures p.limit.None? || p.limit.value == 0 ==> limit == DEFAULT_LIMIT
    ensures p.limit.Some? && 0 < p.limit.value <= MAX_LIMIT ==> limit == p.limit.value
  {
    var l := if p.limit.Some? && p.limit.value != 0 then p.limit.value else DEFAULT_LIMIT;
    if l < MAX_LIMIT then l else MAX_LIMIT
  }

  /** The request sent to the database. */
  datatype VehicleQuery = VehicleQuery(where: Where, skip: nat, take: nat)

  function QueryFor(orgId: string, p: VehicleFilters, now: int): (q: VehicleQuery)
    ensures q.take == LimitOf(p) && q.skip == (PageOf(p) - 1) * LimitOf(p)
  {
    VehicleQuery(WhereFor(orgId, p, now), (PageOf(p) - 1) * LimitOf(p), LimitOf(p))
  }

  /** The public vehicle shape (the fields that carry a rule). */
  datatype Vehicle = Vehicle(
    id: string, organizationId: string, vehicleType: string, status: string,
    make: string, model: string, year: int, vin: string,
    licensePlate: Option<string>, unitNumber: string, currentDriverId: Option<string>,
    nextMaintenanceDate: Option<int>)

  function OrDefault<T>(o: Option<T>, d: T): T
  {
    if o.Some? then o.value else d
  }

  /** `??` defaults: empty make, model and VIN, year 0, and the inspection date
      when there is no maintenance date. */
  function ToVehicle(v: VehicleRow): Vehicle
  {
    Vehicle(v.id, v.organizationId, v.vehicleType, v.status,
      OrDefault(v.make, ""), OrDefault(v.model, ""), OrDefault(v.year, 0), OrDefault(v.vin, ""),
      v.licensePlate, v.unitNumber, v.currentDriverId,
      if v.nextMaintenanceDate.Some? then v.nextMaintenanceDate else v.nextInspectionDue)
  }

  datatype ListResponse = ListResponse(vehicles: seq<Vehicle>, total: nat, page: nat, limit: nat, totalPages: nat)

  /** The rows the `where` object selects, in table order. */
  function Select(table: seq<VehicleRow>, w: Where): seq<VehicleRow>
  {
    Filter(table, MatchesWhere(w))
  }

  function MatchesWhere(w: Where): VehicleRow -> bool
  {
    (v: VehicleRow) => Matches(w, v)
  }

  function MapToVehicle(rows: seq<VehicleRow>): (r: seq<Vehicle>)
    ensures |r| == |rows|
    ensures forall i :: 0 <= i < |rows| ==> r[i] == ToVehicle(rows[i])
  {
    seq(|rows|, i requires 0 <= i < |rows| => ToVehicle(rows[i]))
  }

  const EMPTY_RESPONSE := ListResponse([], 0, 1, DEFAULT_LIMIT, 0)

  /** `listVehiclesByOrg`: empty for a caller without a session and when the
      database fails (`failed`); else the requested page of matches, mapped,
      with the total count and the echo of page and limit. */
  function ListVehiclesByOrg(userId: Option<string>, orgId: string, p: VehicleFilters, now: int,
                             table: seq<VehicleRow>, failed: bool): (r: ListResponse)
    ensures !Truthy(userId) || failed ==> r == EMPTY_RESPONSE
    ensures Truthy(userId) && !failed ==>
      var q := QueryFor(orgId, p, now);
      && r.vehicles == MapToVehicle(Window(Select(table, q.where), q.skip, q.take))
      && r.total == |Select(table, q.where)| && r.page == PageOf(p) && r.limit == LimitOf(p)
      && r.totalPages == CeilDiv(r.total, LimitOf(p))
  {
    if !Truthy(userId) || failed then EMPTY_RESPONSE
    else
      var q := QueryFor(orgId, p, now);
      var matches := Select(table, q.where);
      ListResponse(MapToVehicle(Window(matches, q.skip, q.take)),
        |matches|, PageOf(p), LimitOf(p), CeilDiv(|matches|, LimitOf(p)))
  }

  // ---------------------------------------------------------------------
  // Properties

  /** The query never leaves the caller's organisation. */
  lemma WhereIsScoped(orgId: string, p: VehicleFilters, now: int, v: VehicleRow)
    requires Matches(WhereFor(orgId, p, now), v)
    ensures v.organizationId == orgId
  {
  }

  /** With no maintenance filter, a search term keeps exactly the vehicles
      that contain it, ignoring case, in one of the five columns. */
  lemma SearchExact(orgId: string, p: VehicleFilters, now: int, v: VehicleRow)
    requires Truthy(p.search) && p.maintenanceDue != Some(true)
    ensures var w := WhereFor(orgId, p, now);
      (exists i | 0 <= i < |w.anyOf.value| :: Holds(w.anyOf.value[i], v)) <==> SearchHit(v, p.search.value)
  {
    var cs := SearchConditions(p.search.value);
    assert WhereFor(orgId, p, now).anyOf == Some(cs);
    if SearchHit(v, p.search.value) {
      if Common.ContainsInsensitive(v.unitNumber, p.search.value) { assert Holds(cs[0], v); }
      else if v.vin.Some? && Common.ContainsInsensitive(v.vin.value, p.search.value) { assert Holds(cs[1], v); }
      else if v.make.Some? && Common.ContainsInsensitive(v.make.value, p.search.value) { assert Holds(cs[2], v); }
      else if v.model.Some? && Common.ContainsInsensitive(v.model.value, p.search.value) { assert Holds(cs[3], v); }
      else { assert Holds(cs[4], v); }
    }
  }

  /** `maintenanceDue` replaces the search entirely: the query is the same
      whatever the search term, and keeps exactly the due vehicles. */
  lemma MaintenanceReplacesSearch(orgId: string, p: VehicleFilters, now: int, term: Option<string>, v: VehicleRow)
    requires p.maintenanceDue == Some(true)
    ensures WhereFor(orgId, p, now) == WhereFor(orgId, p.(search := term), now)
    ensures var w := WhereFor(orgId, p, now);
      (exists i | 0 <= i < |w.anyOf.value| :: Holds(w.anyOf.value[i], v)) <==> Due(v, now)
  {
    var cs := DueConditions(now);
    assert WhereFor(orgId, p, now).anyOf == Some(cs);
    if Due(v, now) {
      if v.nextMaintenanceDate.Some? && v.nextMaintenanceDate.value <= now { assert Holds(cs[0], v); }
      else { assert Holds(cs[1], v); }
    }
  }

  /** Without a search or maintenance filter there is no `OR` list, and each
      other filter constrains its column exactly when it is set. */
  lemma PlainFiltersExact(orgId: string, p: VehicleFilters, now: int, v: VehicleRow)
    requires !Truthy(p.search) && p.maintenanceDue != Some(true)
    ensures Matches(WhereFor(orgId, p, now), v) <==>
      && v.organizationId == orgId
      && (Truthy(p.vehicleType) ==> v.vehicleType == p.vehicleType.value)
      && (Truthy(p.status) ==> v.status == p.status.value)
      && (Truthy(p.make) ==> v.make.Some? && Common.ContainsInsensitive(v.make.value, p.make.value))
      && (Truthy(p.model) ==> v.model.Some? && Common.ContainsInsensitive(v.model.value, p.model.value))
      && (TruthyInt(p.year) ==> v.year == p.year)
      && (Truthy(p.assignedDriverId) ==> v.currentDriverId == p.assignedDriverId)
  {
  }

  /** Pagination: the page starts at `(page - 1) * limit`; the limit is at
      most 100; the page count is the least number of pages that holds
      every match. */
  lemma PaginationExact(p: VehicleFilters, total: nat)
    ensures LimitOf(p) <= MAX_LIMIT && PageOf(p) >= 1
    ensures QueryFor("", p, 0).skip + QueryFor("", p, 0).take == PageOf(p) * LimitOf(p)
    ensures CeilDiv(total, LimitOf(p)) * LimitOf(p) >= total
    ensures CeilDiv(total, LimitOf(p)) > 0 ==> (CeilDiv(total, LimitOf(p)) - 1) * LimitOf(p) < total
    ensures total == 0 <==> CeilDiv(total, LimitOf(p)) == 0
  {
  }

  /** The mapping defaults. */
  lemma MappingDefaults(v: VehicleRow)
    ensures v.make.None? ==> ToVehicle(v).make == ""
    ensures v.model.None? ==> ToVehicle(v).model == ""
    ensures v.vin.None? ==> ToVehicle(v).vin == ""
    ensures v.year.None? ==> ToVehicle(v).year == 0
    ensures v.make.Some? ==> ToVehicle(v).make == v.make.value
    ensures v.year.Some? ==> ToVehicle(v).year == v.year.value
    ensures ToVehicle(v).nextMaintenanceDate.None? <==> v.nextMaintenanceDate.None? && v.nextInspectionDue.None?
    ensures v.nextMaintenanceDate.None? ==> ToVehicle(v).nextMaintenanceDate == v.nextInspectionDue
  {
  }

  /** A row is selected exactly when it is in the table and matches. */
  lemma SelectMembership(table: seq<VehicleRow>, w: Where, v: VehicleRow)
    ensures v in Select(table, w) <==> v in table && Matches(w, v)
  {
    FilterMembership(table, MatchesWhere(w), v);
  }

  /** A listed page holds at most `limit` vehicles, each the public form of a
      row of the caller's organisation that matches the filters. */
  lemma ListedVehiclesMatch(userId: Option<string>, orgId: string, p: VehicleFilters, now: int,
                            table: seq<VehicleRow>, i: nat)
    requires Truthy(userId)
    requires i < |ListVehiclesByOrg(userId, orgId, p, now, table, false).vehicles|
    ensures |ListVehiclesByOrg(userId, orgId, p, now, table, false).vehicles| <= LimitOf(p)
    ensures exists v :: (v in table && Matches(WhereFor(orgId, p, now), v) && v.organizationId == orgId
      && ListVehiclesByOrg(userId, orgId, p, now, table, false).vehicles[i] == ToVehicle(v))
  {
    var q := QueryFor(orgId, p, now);
    var matches := Select(table, q.where);
    var page := Window(matches, q.skip, q.take);
    var v := page[i];
    assert v == matches[q.skip + i];
    SelectMembership(table, q.where, v);
  }
}
