/** The load board's filter and its status tabs. The "30 days ago" instant is
    a parameter (`cutoff`, in milliseconds); a pickup date that does not parse
    (`None`) compares false against it, as an invalid date does, and so is
    never dropped by the date filter. */
module DispatchBoard {
  import opened Common

  datatype Load = Load(
    id: string, status: string, driverId: Option<string>,
    origin: string, destination: string, pickupDate: Option<int>)

  datatype Filters = Filters(status: string, driverId: string, origin: string, destination: string, dateRange: string)

  /** The state `resetFilters` sets (and the initial one): every filter empty. */
  function ResetFilters(): (f: Filters)
    ensures f.status == "" && f.driverId == "" && f.origin == "" && f.destination == "" && f.dateRange == ""
  {
    Filters("", "", "", "", "")
  }

  /** The predicate of `filterLoads`, in source order. */
  predicate Keep(f: Filters, l: Load, cutoff: int)
  {
    if f.status != "" && l.status != f.status then false
    else if f.driverId != "" && l.driverId != Some(f.driverId) then false
    else if f.origin != "" && l.origin != f.origin then false
    else if f.destination != "" && l.destination != f.destination then false
    else if f.dateRange == "recent" && l.pickupDate.Some? && l.pickupDate.value < cutoff then false
    else true
  }

  /** `filterLoads`. */
  function FilterLoads(loads: seq<Load>, f: Filters, cutoff: int): seq<Load>
  {
    Filter(loads, Keeps(f, cutoff))
  }

  function Keeps(f: Filters, cutoff: int): Load -> bool
  {
    (l: Load) => Keep(f, l, cutoff)
  }

  /** The loads of one status tab. */
  function Bucket(loads: seq<Load>, status: string): seq<Load>
  {
    Filter(loads, HasStatus(status))
  }

  function HasStatus(status: string): Load -> bool
  {
    (l: Load) => l.status == status
  }

  const BUCKET_STATUSES: seq<string> := ["pending", "assigned", "in_transit", "completed"]

  // ---------------------------------------------------------------------
  // Properties

  /** A load is kept exactly when every non-empty filter matches it; a driver
      filter needs a driver, and `recent` drops only pickups before the cutoff. */
  lemma KeepExact(f: Filters, l: Load, cutoff: int)
    ensures Keep(f, l, cutoff) <==>
      && (f.status == "" || l.status == f.status)
      && (f.driverId == "" || (l.driverId.Some? && l.driverId.value == f.driverId))
      && (f.origin == "" || l.origin == f.origin)
      && (f.destination == "" || l.destination == f.destination)
      && (f.dateRange == "recent" ==> l.pickupDate.None? || l.pickupDate.value >= cutoff)
  {
  }

  /** The result is a subsequence of the input, keeping the input order. */
  lemma FilterIsSubsequence(loads: seq<Load>, f: Filters, cutoff: int)
    ensures SubsequenceOf(FilterLoads(loads, f, cutoff), loads)
  {
    FilterSubsequence(loads, Keeps(f, cutoff));
  }

  /** A load is in the result exactly when it is in the input and kept. */
  lemma FilterMembership(loads: seq<Load>, f: Filters, cutoff: int, l: Load)
    ensures l in FilterLoads(loads, f, cutoff) <==> l in loads && Keep(f, l, cutoff)
  {
    Common.FilterMembership(loads, Keeps(f, cutoff), l);
  }

  /** With every filter empty (after `resetFilters`) the filter is the identity. */
  lemma ResetShowsEverything(loads: seq<Load>, cutoff: int)
    ensures FilterLoads(loads, ResetFilters(), cutoff) == loads
  {
    FilterAll(loads, Keeps(ResetFilters(), cutoff));
  }

  /** Only the date range `recent` constrains dates. */
  lemma OtherDateRangesIgnoreDates(f: Filters, l: Load, cutoff: int, otherCutoff: int)
    requires f.dateRange != "recent"
    ensures Keep(f, l, cutoff) == Keep(f, l, otherCutoff)
  {
  }

  /** A driver filter drops every load without a driver. */
  lemma {:induction false} DriverFilterDropsUnassigned(loads: seq<Load>, f: Filters, cutoff: int)
    requires f.driverId != ""
    ensures forall i :: 0 <= i < |FilterLoads(loads, f, cutoff)| ==>
      FilterLoads(loads, f, cutoff)[i].driverId == Some(f.driverId)
  {
    var r := FilterLoads(loads, f, cutoff);
    forall i | 0 <= i < |r| ensures r[i].driverId == Some(f.driverId) {
      FilterMembership(loads, f, cutoff, r[i]);
    }
  }

  /** A tab holds exactly the input's loads of its status, in order; so the
      four tabs are pairwise disjoint and a load of any other status is in
      none of them. */
  lemma BucketExact(loads: seq<Load>, status: string, l: Load)
    ensures l in Bucket(loads, status) <==> l in loads && l.status == status
    ensures SubsequenceOf(Bucket(loads, status), loads)
  {
    Common.FilterMembership(loads, HasStatus(status), l);
    FilterSubsequence(loads, HasStatus(status));
  }

  lemma BucketsDisjoint(loads: seq<Load>, a: string, b: string, l: Load)
    requires a != b
    ensures !(l in Bucket(loads, a) && l in Bucket(loads, b))
    ensures l.status !in BUCKET_STATUSES ==> forall i :: 0 <= i < |BUCKET_STATUSES| ==> l !in Bucket(loads, BUCKET_STATUSES[i])
  {
    BucketExact(loads, a, l);
    BucketExact(loads, b, l);
    forall i | 0 <= i < |BUCKET_STATUSES| ensures l.status !in BUCKET_STATUSES ==> l !in Bucket(loads, BUCKET_STATUSES[i]) {
      BucketExact(loads, BUCKET_STATUSES[i], l);
    }
  }

  /** Filtering a tab gives the tab of the filtered list. */
  lemma FilterBucketCommute(loads: seq<Load>, f: Filters, cutoff: int, status: string)
    ensures FilterLoads(Bucket(loads, status), f, cutoff) == Bucket(FilterLoads(loads, f, cutoff), status)
  {
    FilterCommute(loads, HasStatus(status), Keeps(f, cutoff));
  }
}
