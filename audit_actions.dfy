/** The audit-log server actions: the filtered, newest-first, paginated
    listing; the retention cleanup; the export file name; and the event
    logger with its per-domain wrappers. The audit table is a sequence in
    table order; the clock and the session are parameters. */
module AuditActions {
  import opened Common
  import opened Sorting

  /** The session's user and active organisation. */
  datatype AuthContext = AuthContext(userId: Option<string>, orgId: Option<string>)

  predicate Authenticated(a: AuthContext)
  {
    Truthy(a.userId) && Truthy(a.orgId)
  }

  const NOT_AUTHENTICATED := "User must be authenticated"

  /** A stored audit entry; `timestamp` in milliseconds. */
  datatype AuditEntry = AuditEntry(
    id: string, userId: string, organizationId: string, action: string,
    resource: string, resourceId: Option<string>, timestamp: int)

  datatype AuditFilters = AuditFilters(
    userId: Option<string>, resource: Option<string>, action: Option<string>,
    startDate: Option<int>, endDate: Option<int>)

  /** The `where` object; a `None` key is one the spreads left out. */
  datatype AuditWhere = AuditWhere(
    organizationId: string, userId: Option<string>, resource: Option<string>,
    action: Option<string>, timestampRange: Option<(int, int)>)

  /** The conditional spreads: each text filter only when non-empty; the
      range only when both ends are given (a date object is always truthy). */
  function WhereFor(orgId: string, f: AuditFilters): AuditWhere
  {
    AuditWhere(orgId,
      if Truthy(f.userId) then f.userId else None,
      if Truthy(f.resource) then f.resource else None,
      if Truthy(f.action) then f.action else None,
      if f.startDate.Some? && f.endDate.Some? then Some((f.startDate.value, f.endDate.value)) else None)
  }

  /** The meaning of the `where` object for one entry: equality on each
      given key, and `gte`/`lte` on the timestamp. */
  predicate Matches(w: AuditWhere, e: AuditEntry)
  {
    && e.organizationId == w.organizationId
    && (w.userId.Some? ==> e.userId == w.userId.value)
    && (w.resource.Some? ==> e.resource == w.resource.value)
    && (w.action.Some? ==> e.action == w.action.value)
    && (w.timestampRange.Some? ==> w.timestampRange.value.0 <= e.timestamp <= w.timestampRange.value.1)
  }

  /** The matching entries, in table order. */
  function Select(table: seq<AuditEntry>, w: AuditWhere): seq<AuditEntry>
  {
    Filter(table, MatchesWhere(w))
  }

  function MatchesWhere(w: AuditWhere): AuditEntry -> bool
  {
    (e: AuditEntry) => Matches(w, e)
  }

  /** The key of `orderBy: { timestamp: 'desc' }`: ascending on it is newest first. */
  function Newest(e: AuditEntry): int { -e.timestamp }

  /** The matching entries newest first; entries with the same timestamp
      stay in table order. */
  function Ordered(table: seq<AuditEntry>, w: AuditWhere): (r: seq<AuditEntry>)
    ensures |r| == |Select(table, w)|
  {
    SortByKey(Select(table, w), Newest)
  }

  /** Newest first: timestamps never increase along the sequence. */
  predicate NewestFirst(s: seq<AuditEntry>)
  {
    forall i, j :: 0 <= i < j < |s| ==> s[i].timestamp >= s[j].timestamp
  }

  /** Page size and number as passed; the defaults apply only to a key
      that is absent. */
  datatype Pagination = Pagination(page: Option<nat>, limit: Option<nat>)

  const DEFAULT_PAGE: nat := 1
  const DEFAULT_AUDIT_LIMIT: nat := 50

  function PageOf(p: Pagination): nat { if p.page.Some? then p.page.value else DEFAULT_PAGE }
  function LimitOf(p: Pagination): nat { if p.limit.Some? then p.limit.value else DEFAULT_AUDIT_LIMIT }

  /** `(page - 1) * limit`; negative for page 0 with a positive limit. */
  function Offset(p: Pagination): (o: int)
    ensures PageOf(p) >= 1 ==> o >= 0
    ensures p.page.None? ==> o == 0
  {
    (PageOf(p) - 1) * LimitOf(p)
  }

  datatype AuditLogsResult =
    /** `totalPages` is `None` where `Math.ceil(total / 0)` is not a finite number. */
    | LogsPage(logs: seq<AuditEntry>, page: nat, limit: nat, total: nat, totalPages: Option<nat>)
    /** The ORM refuses a negative `skip`; its error text is not part of this model. */
    | SkipRejected
    | Failure(message: string)

  /** `getAuditLogs`. */
  function GetAuditLogs(a: AuthContext, table: seq<AuditEntry>, f: AuditFilters, p: Pagination): (r: AuditLogsResult)
    ensures !Authenticated(a) <==> r == Failure(NOT_AUTHENTICATED)
    ensures Authenticated(a) && Offset(p) < 0 <==> r.SkipRejected?
    ensures r.LogsPage? ==>
      && r.page == PageOf(p) && r.limit == LimitOf(p)
      && r.total == |Select(table, WhereFor(a.orgId.value, f))|
      && (r.totalPages.None? <==> r.limit == 0)
      && (r.limit > 0 ==> r.totalPages == Some(CeilDiv(r.total, r.limit)))
  {
    if !Authenticated(a) then Failure(NOT_AUTHENTICATED)
    else if Offset(p) < 0 then SkipRejected
    else
      var w := WhereFor(a.orgId.value, f);
      var total := |Select(table, w)|;
      LogsPage(Window(Ordered(table, w), Offset(p), LimitOf(p)), PageOf(p), LimitOf(p), total,
        if LimitOf(p) == 0 then None else Some(CeilDiv(total, LimitOf(p))))
  }

  const DAY_MS: int := 86400000
  const DEFAULT_DAYS_TO_KEEP: int := 365

  /** `daysToKeep` calendar days before `now`, a day taken as 24 hours. */
  function Cutoff(now: int, daysToKeep: Option<int>): (c: int)
    ensures daysToKeep.None? ==> c == now - DEFAULT_DAYS_TO_KEEP * DAY_MS
    ensures daysToKeep.Some? && daysToKeep.value >= 0 ==> c <= now
  {
    now - (if daysToKeep.Some? then daysToKeep.value else DEFAULT_DAYS_TO_KEEP) * DAY_MS
  }

  /** The `deleteMany` condition. */
  predicate Expired(e: AuditEntry, orgId: string, cutoff: int)
  {
    e.organizationId == orgId && e.timestamp < cutoff
  }

  /** The table after the delete, in table order. */
  function Retain(table: seq<AuditEntry>, orgId: string, cutoff: int): (r: seq<AuditEntry>)
    ensures |r| <= |table|
  {
    if table == [] then []
    else (if Expired(table[0], orgId, cutoff) then [] else [table[0]]) + Retain(table[1..], orgId, cutoff)
  }

  function CountExpired(table: seq<AuditEntry>, orgId: string, cutoff: int): (n: nat)
    ensures n <= |table|
  {
    if table == [] then 0
    else (if Expired(table[0], orgId, cutoff) then 1 else 0) + CountExpired(table[1..], orgId, cutoff)
  }

  datatype CleanupResult =
    | Cleaned(remaining: seq<AuditEntry>, deletedCount: nat)
    | CleanupFailure(message: string)

  /** `cleanupAuditLogs`: the new table and the count the database reports. */
  function CleanupAuditLogs(a: AuthContext, table: seq<AuditEntry>, now: int, daysToKeep: Option<int>): (r: CleanupResult)
    ensures !Authenticated(a) <==> r == CleanupFailure(NOT_AUTHENTICATED)
    ensures !Authenticated(a) || r.Cleaned?
  {
    if !Authenticated(a) then CleanupFailure(NOT_AUTHENTICATED)
    else
      var cutoff := Cutoff(now, daysToKeep);
      Cleaned(Retain(table, a.orgId.value, cutoff), CountExpired(table, a.orgId.value, cutoff))
  }

  datatype ExportResult = Exported(filename: string) | ExportFailure(message: string)

  /** `exportAuditLogs`: only the file name is returned, built from the date
      part of the current instant's ISO string. */
  function ExportAuditLogs(a: AuthContext, nowIso: string): (r: ExportResult)
    ensures !Authenticated(a) <==> r == ExportFailure(NOT_AUTHENTICATED)
  {
    if !Authenticated(a) then ExportFailure(NOT_AUTHENTICATED)
    else Exported("audit-logs-" + Split(nowIso, 'T')[0] + ".csv")
  }

  /** The arguments of `logAuditEvent` that identify what happened. */
  datatype AuditEvent = AuditEvent(action: string, resource: string, resourceId: Option<string>)

  /** `logAuditEvent` writes nothing: it resolves to `undefined` for a
      signed-in caller with an organisation, and to a failure otherwise. */
  datatype LogResult = Logged | LogFailure(message: string)

  function LogAuditEvent(a: AuthContext, e: AuditEvent): (r: LogResult)
    ensures r == Logged <==> Authenticated(a)
    ensures r != Logged ==> r == LogFailure(NOT_AUTHENTICATED)
  {
    if Authenticated(a) then Logged else LogFailure(NOT_AUTHENTICATED)
  }

  /** The five domain wrappers, each with its fixed resource name. */
  datatype Domain = DriverDomain | VehicleDomain | DispatchDomain | ComplianceDomain | IftaDomain

  function ResourceName(d: Domain): string
  {
    match d
    case DriverDomain => "driver"
    case VehicleDomain => "vehicle"
    case DispatchDomain => "dispatch"
    case ComplianceDomain => "compliance"
    case IftaDomain => "ifta"
  }

  /** The event a wrapper passes on, and the wrapper's result. */
  function DomainEvent(d: Domain, action: string, id: string): (e: AuditEvent)
    ensures e.action == action && e.resourceId == Some(id)
  {
    AuditEvent(action, ResourceName(d), Some(id))
  }

  function LogDomainAction(a: AuthContext, d: Domain, action: string, id: string): LogResult
  {
    LogAuditEvent(a, DomainEvent(d, action, id))
  }

  // ---------------------------------------------------------------------
  // Properties

  /** The query is scoped to the caller's organisation; each text filter
      constrains only when non-empty; the range only when both ends are
      given, inclusive at both. */
  lemma WhereExact(orgId: string, f: AuditFilters, e: AuditEntry)
    ensures Matches(WhereFor(orgId, f), e) <==>
      && e.organizationId == orgId
      && (Truthy(f.userId) ==> e.userId == f.userId.value)
      && (Truthy(f.resource) ==> e.resource == f.resource.value)
      && (Truthy(f.action) ==> e.action == f.action.value)
      && (f.startDate.Some? && f.endDate.Some? ==> f.startDate.value <= e.timestamp <= f.endDate.value)
  {
  }

  /** An entry is selected exactly when it is in the table and matches. */
  lemma SelectMembership(table: seq<AuditEntry>, w: AuditWhere, e: AuditEntry)
    ensures e in Select(table, w) <==> e in table && Matches(w, e)
  {
    FilterMembership(table, MatchesWhere(w), e);
  }

  /** The ordered result holds exactly the matching entries, newest first. */
  lemma OrderedExact(table: seq<AuditEntry>, w: AuditWhere)
    ensures multiset(Ordered(table, w)) == multiset(Select(table, w))
    ensures NewestFirst(Ordered(table, w))
  {
    SortPermutes(Select(table, w), Newest);
    SortSorted(Select(table, w), Newest);
    var o := Ordered(table, w);
    forall i, j | 0 <= i < j < |o| ensures o[i].timestamp >= o[j].timestamp {
      assert Newest(o[i]) <= Newest(o[j]);
    }
  }

  /** The logs of a page are the ordered matches from `offset` on, at most `limit` of them. */
  lemma PageIsWindow(a: AuthContext, table: seq<AuditEntry>, f: AuditFilters, p: Pagination)
    requires Authenticated(a) && Offset(p) >= 0
    ensures GetAuditLogs(a, table, f, p).LogsPage?
    ensures GetAuditLogs(a, table, f, p).logs == Window(Ordered(table, WhereFor(a.orgId.value, f)), Offset(p), LimitOf(p))
  {
  }

  /** A page of `getAuditLogs`: at most `limit` entries, newest first, each
      one in the table and matching, and exactly the ordered matches from
      `offset` on. */
  lemma PageExact(a: AuthContext, table: seq<AuditEntry>, f: AuditFilters, p: Pagination)
    requires Authenticated(a) && Offset(p) >= 0
    ensures var logs := GetAuditLogs(a, table, f, p).logs;
      var w := WhereFor(a.orgId.value, f);
      && |logs| <= LimitOf(p)
      && NewestFirst(logs)
      && (forall i :: 0 <= i < |logs| ==> logs[i] in table && Matches(w, logs[i]))
      && (forall i :: 0 <= i < |logs| ==> logs[i] == Ordered(table, w)[Offset(p) + i])
  {
    var w := WhereFor(a.orgId.value, f);
    PageIsWindow(a, table, f, p);
    OrderedExact(table, w);
    OrderedMembers(table, w);
    WindowKeeps(Ordered(table, w), Offset(p), LimitOf(p), table, w);
  }

  /** A window of a newest-first sequence of matching table entries is one too. */
  lemma WindowKeeps(o: seq<AuditEntry>, off: nat, take: nat, table: seq<AuditEntry>, w: AuditWhere)
    requires NewestFirst(o)
    requires forall i :: 0 <= i < |o| ==> o[i] in table && Matches(w, o[i])
    ensures NewestFirst(Window(o, off, take))
    ensures forall i :: 0 <= i < |Window(o, off, take)| ==> Window(o, off, take)[i] in table && Matches(w, Window(o, off, take)[i])
  {
    var logs := Window(o, off, take);
    forall i | 0 <= i < |logs| ensures logs[i] in table && Matches(w, logs[i]) {
      assert logs[i] == o[off + i];
    }
    forall i, j | 0 <= i < j < |logs| ensures logs[i].timestamp >= logs[j].timestamp {
      assert logs[i] == o[off + i] && logs[j] == o[off + j];
    }
  }

  /** Every ordered entry is in the table and matches. */
  lemma OrderedMembers(table: seq<AuditEntry>, w: AuditWhere)
    ensures forall i :: 0 <= i < |Ordered(table, w)| ==> Ordered(table, w)[i] in table && Matches(w, Ordered(table, w)[i])
  {
    var o := Ordered(table, w);
    SortPermutes(Select(table, w), Newest);
    forall i | 0 <= i < |o| ensures o[i] in table && Matches(w, o[i]) {
      assert o[i] in multiset(o);
      SelectMembership(table, w, o[i]);
    }
  }

  /** With a positive limit, entry `i` of page `n + 1` is the ordered match
      at index `n * limit + i`: consecutive pages tile the ordered result. */
  lemma PagesTile(a: AuthContext, table: seq<AuditEntry>, f: AuditFilters, limit: nat, n: nat, i: nat)
    requires Authenticated(a) && i < limit
    requires n * limit + i < |Select(table, WhereFor(a.orgId.value, f))|
    ensures var r := GetAuditLogs(a, table, f, Pagination(Some(n + 1), Some(limit)));
      r.LogsPage? && i < |r.logs| && r.logs[i] == Ordered(table, WhereFor(a.orgId.value, f))[n * limit + i]
  {
    var p := Pagination(Some(n + 1), Some(limit));
    assert Offset(p) == n * limit;
  }

  /** An entry survives cleanup exactly when it is not one of the caller's
      organisation's entries strictly older than the cutoff; the deleted
      count is the number of those; the survivors keep their order. */
  lemma {:induction false} RetainExact(table: seq<AuditEntry>, orgId: string, cutoff: int, e: AuditEntry)
    ensures e in Retain(table, orgId, cutoff) <==> e in table && !Expired(e, orgId, cutoff)
    ensures |Retain(table, orgId, cutoff)| + CountExpired(table, orgId, cutoff) == |table|
    ensures SubsequenceOf(Retain(table, orgId, cutoff), table)
  {
    if table != [] {
      RetainExact(table[1..], orgId, cutoff, e);
      assert table == [table[0]] + table[1..];
      var rest := Retain(table[1..], orgId, cutoff);
      if Expired(table[0], orgId, cutoff) {
        assert Retain(table, orgId, cutoff) == rest;
      } else {
        assert Retain(table, orgId, cutoff) == [table[0]] + rest;
        assert ([table[0]] + rest)[1..] == rest;
      }
    }
  }

  /** Cleanup never touches another organisation's entries, nor entries at
      or after the cutoff (`daysToKeep` days before now, 365 by default). */
  lemma CleanupExact(a: AuthContext, table: seq<AuditEntry>, now: int, daysToKeep: Option<int>, e: AuditEntry)
    requires Authenticated(a) && e in table
    ensures var r := CleanupAuditLogs(a, table, now, daysToKeep);
      && r.Cleaned?
      && (e !in r.remaining <==> e.organizationId == a.orgId.value && e.timestamp < Cutoff(now, daysToKeep))
      && r.deletedCount + |r.remaining| == |table|
  {
    RetainExact(table, a.orgId.value, Cutoff(now, daysToKeep), e);
  }

  /** The export file name for an ISO instant `date + "T" + time`. */
  lemma ExportFilename(a: AuthContext, date: string, time: string)
    requires Authenticated(a) && 'T' !in date
    ensures ExportAuditLogs(a, date + "T" + time) == Exported("audit-logs-" + date + ".csv")
  {
    SplitAtFirst(date, 'T', time);
  }

  /** Each wrapper passes its own resource name, and no two share one; the
      outcome depends only on the session. */
  lemma WrappersExact(a: AuthContext, d: Domain, d2: Domain, action: string, id: string)
    ensures DomainEvent(d, action, id).resource in ["driver", "vehicle", "dispatch", "compliance", "ifta"]
    ensures d != d2 ==> ResourceName(d) != ResourceName(d2)
    ensures LogDomainAction(a, d, action, id) == Logged <==> Authenticated(a)
  {
    if d != d2 {
      var x, y := ResourceName(d), ResourceName(d2);
      assert x[0] != y[0] || x[1] != y[1];
    }
  }
}
