/** The Hours-of-Service calculator: from a driver's duty-status logs it
    derives a point-in-time compliance snapshot (time used and left against
    the 11-hour driving, 14-hour on-duty and 70-hour cycle limits, whether a
    34-hour restart is available, and the violations reached).

    Times are integer milliseconds since the epoch. The clock reading `now`
    and the local midnight `startOfToday` are parameters. Every duration in
    the snapshot is in milliseconds: the source reports fractional minutes,
    which are exactly these values divided by 60000, and its comparisons
    `minutes >= limit` are exactly `ms >= limit * 60000`. */
module Hos {
  import opened Common
  import Sorting

  const MS_PER_MINUTE: int := 60000
  /** The limits, in minutes, as the source states them. */
  const DRIVE_LIMIT: int := 11 * 60
  const ON_DUTY_LIMIT: int := 14 * 60
  const CYCLE_LIMIT: int := 70 * 60
  /** Length of the cycle window (`now - 7 days`). */
  const CYCLE_WINDOW_MS: int := 7 * 24 * 60 * 60 * 1000
  /** Rest that makes a 34-hour restart available. */
  const RESTART_MS: int := 34 * 60 * 60 * 1000

  /** The status literals the calculator compares against. Any other status
      string (for instance `on_duty_not_driving`) is neither counted as on-duty
      time nor treated as rest. */
  const DRIVING: string := "driving"
  const ON_DUTY: string := "on_duty"
  const OFF_DUTY: string := "off_duty"
  const SLEEPER_BERTH: string := "sleeper_berth"

  datatype HosEntry = HosEntry(startTime: int, endTime: int, status: string)

  /** A log; `logs == None` stands for a `logs` field that is not an array. */
  datatype HosLog = HosLog(logs: Option<seq<HosEntry>>)

  datatype HosViolation = HosViolation(
    id: string, vtype: string, description: string, severity: string,
    timestamp: int, resolved: bool, status: string)

  datatype ComplianceStatus = Compliant | InViolation | Pending

  datatype DriverHosStatus = DriverHosStatus(
    driverId: string,
    currentStatus: string,
    availableDriveTime: int,
    availableOnDutyTime: int,
    usedDriveTime: int,
    usedOnDutyTime: int,
    cycleHours: int,
    usedCycleHours: int,
    restartAvailable: bool,
    violations: seq<HosViolation>,
    lastLoggedAt: Option<int>,
    complianceStatus: ComplianceStatus)

  /** Which statuses a running total adds up. */
  datatype Tally = DriveTally | OnDutyTally

  predicate Counts(k: Tally, status: string)
  {
    match k
    case DriveTally => status == DRIVING
    case OnDutyTally => status == DRIVING || status == ON_DUTY
  }

  /** Off duty and sleeper berth are rest; every other status blocks a restart. */
  predicate IsRest(status: string)
  {
    status == OFF_DUTY || status == SLEEPER_BERTH
  }

  /** `minutesBetween`, in milliseconds: a negative span counts as zero. */
  function DurationMs(e: HosEntry): (d: nat)
    ensures d == if e.endTime >= e.startTime then e.endTime - e.startTime else 0
  {
    if e.endTime - e.startTime > 0 then e.endTime - e.startTime else 0
  }

  function StartKey(e: HosEntry): int { e.startTime }

  /** What one entry adds to a window total that opens at `from`. */
  function Contribution(e: HosEntry, from: int, k: Tally): nat
  {
    if e.startTime >= from && Counts(k, e.status) then DurationMs(e) else 0
  }

  /** The entries of all logs, in log order, skipping logs whose entries are not a list. */
  function Flatten(logs: seq<HosLog>): seq<HosEntry>
  {
    if logs == [] then []
    else
      var last := logs[|logs| - 1];
      Flatten(logs[..|logs| - 1]) + (if last.logs.Some? then last.logs.value else [])
  }

  /** The entries in the order the calculator visits them. */
  function SortedEntries(logs: seq<HosLog>): seq<HosEntry>
  {
    Sorting.SortByKey(Flatten(logs), StartKey)
  }

  /** Total (ms) of the entries of kind `k` that start at or after `from`. */
  function WindowMs(s: seq<HosEntry>, from: int, k: Tally): nat
  {
    if s == [] then 0 else WindowMs(s[..|s| - 1], from, k) + Contribution(s[|s| - 1], from, k)
  }

  /** The latest end time among entries that are not rest, if any. */
  function LastOnDutyEnd(s: seq<HosEntry>): Option<int>
  {
    if s == [] then None
    else
      var p := LastOnDutyEnd(s[..|s| - 1]);
      var e := s[|s| - 1];
      if IsRest(e.status) then p
      else if p.None? || e.endTime > p.value then Some(e.endTime)
      else p
  }

  function Violation11(now: int): HosViolation
  {
    HosViolation("11", "11_hour", "Exceeded 11-hour driving limit", "major", now, false, "open")
  }

  function Violation14(now: int): HosViolation
  {
    HosViolation("14", "14_hour", "Exceeded 14-hour on-duty limit", "major", now, false, "open")
  }

  function Violation70(now: int): HosViolation
  {
    HosViolation("70", "70_hour", "Exceeded 70-hour 8-day limit", "major", now, false, "open")
  }

  /** The violation list for the three totals (ms). */
  function Violations(drive: int, onDuty: int, cycle: int, now: int): seq<HosViolation>
  {
    (if drive >= DRIVE_LIMIT * MS_PER_MINUTE then [Violation11(now)] else [])
    + (if onDuty >= ON_DUTY_LIMIT * MS_PER_MINUTE then [Violation14(now)] else [])
    + (if cycle >= CYCLE_LIMIT * MS_PER_MINUTE then [Violation70(now)] else [])
  }

  function Max0(x: int): int { if x > 0 then x else 0 }

  /** The snapshot for a driver with no logs at all. */
  function EmptyStatus(driverId: string): DriverHosStatus
  {
    DriverHosStatus(driverId, OFF_DUTY, DRIVE_LIMIT * MS_PER_MINUTE, ON_DUTY_LIMIT * MS_PER_MINUTE,
                    0, 0, CYCLE_LIMIT * MS_PER_MINUTE, 0, false, [], None, Pending)
  }

  /** The reference definition of the snapshot the calculator returns. */
  function HosStatus(driverId: string, logs: seq<HosLog>, now: int, startOfToday: int): DriverHosStatus
  {
    if logs == [] then EmptyStatus(driverId)
    else
      var entries := SortedEntries(logs);
      var cycleStart := now - CYCLE_WINDOW_MS;
      var drive := WindowMs(entries, startOfToday, DriveTally);
      var onDuty := WindowMs(entries, startOfToday, OnDutyTally);
      var cycle := WindowMs(entries, cycleStart, OnDutyTally);
      var lastEnd := LastOnDutyEnd(entries);
      var restart := lastEnd.None? || now - lastEnd.value >= RESTART_MS;
      var violations := Violations(drive, onDuty, cycle, now);
      DriverHosStatus(
        driverId,
        if entries == [] then OFF_DUTY else entries[|entries| - 1].status,
        Max0(DRIVE_LIMIT * MS_PER_MINUTE - drive),
        Max0(ON_DUTY_LIMIT * MS_PER_MINUTE - onDuty),
        drive, onDuty, CYCLE_LIMIT * MS_PER_MINUTE, cycle,
        restart, violations,
        if entries == [] then None else Some(entries[|entries| - 1].endTime),
        if |violations| > 0 then InViolation else Compliant)
  }

  /** The first loop of `calculateHosStatus`: push the entries of every log
      whose `logs` field is a list. */
  method CollectEntries(hosLogs: seq<HosLog>) returns (entries: seq<HosEntry>)
    ensures entries == Flatten(hosLogs)
  {
    entries := [];
    for i := 0 to |hosLogs|
      invariant entries == Flatten(hosLogs[..i])
    {
      assert hosLogs[..i + 1][..i] == hosLogs[..i];
      if hosLogs[i].logs.Some? {
        entries := entries + hosLogs[i].logs.value;
      }
    }
    assert hosLogs[..|hosLogs|] == hosLogs;
  }

  /** The accumulation loop: driving and on-duty time since midnight, on-duty
      time since the cycle start. */
  method AccumulateTotals(entries: seq<HosEntry>, startOfToday: int, cycleStart: int)
    returns (usedDrive: nat, usedOnDuty: nat, cycleUsed: nat)
    ensures usedDrive == WindowMs(entries, startOfToday, DriveTally)
    ensures usedOnDuty == WindowMs(entries, startOfToday, OnDutyTally)
    ensures cycleUsed == WindowMs(entries, cycleStart, OnDutyTally)
  {
    usedDrive, usedOnDuty, cycleUsed := 0, 0, 0;
    for i := 0 to |entries|
      invariant usedDrive == WindowMs(entries[..i], startOfToday, DriveTally)
      invariant usedOnDuty == WindowMs(entries[..i], startOfToday, OnDutyTally)
      invariant cycleUsed == WindowMs(entries[..i], cycleStart, OnDutyTally)
    {
      assert entries[..i + 1][..i] == entries[..i];
      var entry := entries[i];
      var mins := DurationMs(entry);
      if entry.startTime >= startOfToday {
        if entry.status == DRIVING {
          usedDrive := usedDrive + mins;
        }
        if entry.status == DRIVING || entry.status == ON_DUTY {
          usedOnDuty := usedOnDuty + mins;
        }
      }
      if entry.startTime >= cycleStart {
        if entry.status == DRIVING || entry.status == ON_DUTY {
          cycleUsed := cycleUsed + mins;
        }
      }
    }
    assert entries[..|entries|] == entries;
  }

  /** The loop that tracks the latest end time of a non-rest entry. */
  method FindLastOnDutyEnd(entries: seq<HosEntry>) returns (lastOnDutyEnd: Option<int>)
    ensures lastOnDutyEnd == LastOnDutyEnd(entries)
  {
    lastOnDutyEnd := None;
    for i := 0 to |entries|
      invariant lastOnDutyEnd == LastOnDutyEnd(entries[..i])
    {
      assert entries[..i + 1][..i] == entries[..i];
      var entry := entries[i];
      if !IsRest(entry.status) {
        if lastOnDutyEnd.None? || entry.endTime > lastOnDutyEnd.value {
          lastOnDutyEnd := Some(entry.endTime);
        }
      }
    }
    assert entries[..|entries|] == entries;
  }

  /** `calculateHosStatus`: flatten, sort by start time, accumulate the three
      window totals in one pass, find the last on-duty end, then push the
      violations reached. */
  method CalculateHosStatus(driverId: string, hosLogs: seq<HosLog>, now: int, startOfToday: int)
    returns (r: DriverHosStatus)
    ensures r == HosStatus(driverId, hosLogs, now, startOfToday)
  {
    if |hosLogs| == 0 {
      return EmptyStatus(driverId);
    }
    var cycleStart := now - CYCLE_WINDOW_MS;
    var entries := CollectEntries(hosLogs);
    entries := Sorting.SortByKey(entries, StartKey);
    var usedDrive, usedOnDuty, cycleUsed := AccumulateTotals(entries, startOfToday, cycleStart);
    var lastOnDutyEnd := FindLastOnDutyEnd(entries);
    var restartAvailable := lastOnDutyEnd.None? || now - lastOnDutyEnd.value >= RESTART_MS;

    var violations: seq<HosViolation> := [];
    if usedDrive >= DRIVE_LIMIT * MS_PER_MINUTE {
      violations := violations + [Violation11(now)];
    }
    if usedOnDuty >= ON_DUTY_LIMIT * MS_PER_MINUTE {
      violations := violations + [Violation14(now)];
    }
    if cycleUsed >= CYCLE_LIMIT * MS_PER_MINUTE {
      violations := violations + [Violation70(now)];
    }
    assert violations == Violations(usedDrive, usedOnDuty, cycleUsed, now);
    assert entries == SortedEntries(hosLogs);

    r := DriverHosStatus(
      driverId,
      if |entries| > 0 then entries[|entries| - 1].status else OFF_DUTY,
      Max0(DRIVE_LIMIT * MS_PER_MINUTE - usedDrive),
      Max0(ON_DUTY_LIMIT * MS_PER_MINUTE - usedOnDuty),
      usedDrive, usedOnDuty, CYCLE_LIMIT * MS_PER_MINUTE, cycleUsed,
      restartAvailable, violations,
      if |entries| > 0 then Some(entries[|entries| - 1].endTime) else None,
      if |violations| > 0 then InViolation else Compliant);
  }

  // ---------------------------------------------------------------------
  // Properties of the snapshot.

  /** No logs at all: pending, nothing used, full limits, no restart. */
  lemma EmptyLogsArePending(driverId: string, now: int, startOfToday: int)
    ensures var r := HosStatus(driverId, [], now, startOfToday);
      && r.complianceStatus == Pending && r.violations == [] && !r.restartAvailable
      && r.availableDriveTime == DRIVE_LIMIT * MS_PER_MINUTE
      && r.availableOnDutyTime == ON_DUTY_LIMIT * MS_PER_MINUTE
      && r.usedDriveTime == 0 && r.usedOnDutyTime == 0 && r.usedCycleHours == 0
      && r.currentStatus == OFF_DUTY && r.lastLoggedAt == None
  {
  }

  /** Logs that hold no entries are not "no logs": the driver is compliant and
      a restart is available. */
  lemma {:induction false} EntrylessLogsAreCompliant(driverId: string, logs: seq<HosLog>, now: int, startOfToday: int)
    requires logs != []
    requires forall i :: 0 <= i < |logs| ==> logs[i].logs.None? || logs[i].logs.value == []
    ensures var r := HosStatus(driverId, logs, now, startOfToday);
      && r.complianceStatus == Compliant && r.violations == [] && r.restartAvailable
      && r.currentStatus == OFF_DUTY && r.lastLoggedAt == None
      && r.usedDriveTime == 0 && r.usedOnDutyTime == 0 && r.usedCycleHours == 0
  {
    FlattenEmpty(logs);
  }

  lemma {:induction false} FlattenEmpty(logs: seq<HosLog>)
    requires forall i :: 0 <= i < |logs| ==> logs[i].logs.None? || logs[i].logs.value == []
    ensures Flatten(logs) == []
  {
    if logs != [] {
      FlattenEmpty(logs[..|logs| - 1]);
    }
  }

  /** Time left is the limit minus the time used, never below zero. */
  lemma AvailableTimes(driverId: string, logs: seq<HosLog>, now: int, startOfToday: int)
    ensures var r := HosStatus(driverId, logs, now, startOfToday);
      && r.availableDriveTime == Max0(DRIVE_LIMIT * MS_PER_MINUTE - r.usedDriveTime)
      && r.availableOnDutyTime == Max0(ON_DUTY_LIMIT * MS_PER_MINUTE - r.usedOnDutyTime)
      && r.availableDriveTime >= 0 && r.availableOnDutyTime >= 0
      && r.usedDriveTime >= 0 && r.usedOnDutyTime >= 0 && r.usedCycleHours >= 0
  {
  }

  /** Window totals distribute over concatenation. */
  lemma {:induction false} WindowAppend(s: seq<HosEntry>, t: seq<HosEntry>, from: int, k: Tally)
    ensures WindowMs(s + t, from, k) == WindowMs(s, from, k) + WindowMs(t, from, k)
  {
    if t != [] {
      assert (s + t)[..|s + t| - 1] == s + t[..|t| - 1];
      WindowAppend(s, t[..|t| - 1], from, k);
    } else {
      assert s + t == s;
    }
  }

  /** Window membership depends on the start time alone: an entry that starts
      before the window opens adds nothing, however late it ends, and one that
      starts inside adds its whole (clamped) duration. */
  lemma {:induction false} WindowMembership(s: seq<HosEntry>, e: HosEntry, from: int, k: Tally)
    ensures e.startTime < from ==> WindowMs(s + [e], from, k) == WindowMs(s, from, k)
    ensures e.startTime >= from && Counts(k, e.status) ==>
      WindowMs(s + [e], from, k) == WindowMs(s, from, k) + DurationMs(e)
    ensures !Counts(k, e.status) ==> WindowMs(s + [e], from, k) == WindowMs(s, from, k)
    ensures e.endTime <= e.startTime ==> WindowMs(s + [e], from, k) == WindowMs(s, from, k)
  {
    WindowAppend(s, [e], from, k);
    assert [e][..0] == [];
  }

  lemma {:induction false} WindowInsert(t: seq<HosEntry>, x: HosEntry, from: int, k: Tally)
    ensures WindowMs(Sorting.InsertByKey(t, x, StartKey), from, k) == WindowMs(t, from, k) + Contribution(x, from, k)
  {
    if t == [] || StartKey(t[|t| - 1]) <= StartKey(x) {
      WindowAppend(t, [x], from, k);
      assert [x][..0] == [];
    } else {
      var n := |t| - 1;
      var u := Sorting.InsertByKey(t[..n], x, StartKey);
      WindowInsert(t[..n], x, from, k);
      WindowAppend(u, [t[n]], from, k);
      WindowAppend(t[..n], [t[n]], from, k);
      assert [t[n]][..0] == [];
      assert t[..n] + [t[n]] == t;
    }
  }

  /** Sorting does not change any window total: the totals do not depend on
      the order in which logs and entries arrive. */
  lemma {:induction false} WindowSortInvariant(s: seq<HosEntry>, from: int, k: Tally)
    ensures WindowMs(Sorting.SortByKey(s, StartKey), from, k) == WindowMs(s, from, k)
  {
    if s != [] {
      var n := |s| - 1;
      WindowSortInvariant(s[..n], from, k);
      WindowInsert(Sorting.SortByKey(s[..n], StartKey), s[n], from, k);
    }
  }

  /** Driving time today is part of on-duty time today, which is part of the
      cycle total whenever the cycle window opens no later than midnight. */
  lemma {:induction false} WindowsNested(s: seq<HosEntry>, startOfToday: int, cycleStart: int)
    requires cycleStart <= startOfToday
    ensures WindowMs(s, startOfToday, DriveTally) <= WindowMs(s, startOfToday, OnDutyTally)
    ensures WindowMs(s, startOfToday, OnDutyTally) <= WindowMs(s, cycleStart, OnDutyTally)
  {
    if s != [] {
      WindowsNested(s[..|s| - 1], startOfToday, cycleStart);
    }
  }

  /** `usedDriveTime <= usedOnDutyTime <= usedCycleHours`, given that local
      midnight lies after `now - 7 days`. */
  lemma UsedTimesOrdered(driverId: string, logs: seq<HosLog>, now: int, startOfToday: int)
    requires now - CYCLE_WINDOW_MS < startOfToday <= now
    ensures var r := HosStatus(driverId, logs, now, startOfToday);
      r.usedDriveTime <= r.usedOnDutyTime <= r.usedCycleHours
  {
    if logs != [] {
      WindowsNested(SortedEntries(logs), startOfToday, now - CYCLE_WINDOW_MS);
    }
  }

  /** The three totals the snapshot reports, stated on the unsorted entries. */
  lemma {:induction false} TotalsIgnoreOrder(driverId: string, logs: seq<HosLog>, now: int, startOfToday: int)
    requires logs != []
    ensures var r := HosStatus(driverId, logs, now, startOfToday);
      && r.usedDriveTime == WindowMs(Flatten(logs), startOfToday, DriveTally)
      && r.usedOnDutyTime == WindowMs(Flatten(logs), startOfToday, OnDutyTally)
      && r.usedCycleHours == WindowMs(Flatten(logs), now - CYCLE_WINDOW_MS, OnDutyTally)
  {
    WindowSortInvariant(Flatten(logs), startOfToday, DriveTally);
    WindowSortInvariant(Flatten(logs), startOfToday, OnDutyTally);
    WindowSortInvariant(Flatten(logs), now - CYCLE_WINDOW_MS, OnDutyTally);
  }

  lemma {:induction false} FlattenAppend(logs: seq<HosLog>, extra: HosLog)
    ensures Flatten(logs + [extra]) == Flatten(logs) + (if extra.logs.Some? then extra.logs.value else [])
  {
    assert (logs + [extra])[..|logs|] == logs;
  }

  /** Adding a driving entry that starts today never lowers the driving time
      used and never raises the driving time left. */
  lemma {:induction false} DrivingEntryMonotone(driverId: string, logs: seq<HosLog>, e: HosEntry, now: int, startOfToday: int)
    requires e.status == DRIVING && e.startTime >= startOfToday
    ensures var before := HosStatus(driverId, logs, now, startOfToday);
      var after := HosStatus(driverId, logs + [HosLog(Some([e]))], now, startOfToday);
      && after.usedDriveTime == before.usedDriveTime + DurationMs(e)
      && after.availableDriveTime <= before.availableDriveTime
  {
    var logs' := logs + [HosLog(Some([e]))];
    FlattenAppend(logs, HosLog(Some([e])));
    TotalsIgnoreOrder(driverId, logs', now, startOfToday);
    WindowMembership(Flatten(logs), e, startOfToday, DriveTally);
    if logs != [] {
      TotalsIgnoreOrder(driverId, logs, now, startOfToday);
    } else {
      assert Flatten(logs) == [];
    }
  }

  /** Each violation is emitted exactly when its total reaches its limit
      (inclusive), in the order 11-hour, 14-hour, 70-hour; every one is major,
      open, unresolved and stamped with `now`. */
  lemma ViolationsExact(drive: int, onDuty: int, cycle: int, now: int)
    ensures var v := Violations(drive, onDuty, cycle, now);
      && ((exists i :: 0 <= i < |v| && v[i].vtype == "11_hour") <==> drive >= DRIVE_LIMIT * MS_PER_MINUTE)
      && ((exists i :: 0 <= i < |v| && v[i].vtype == "14_hour") <==> onDuty >= ON_DUTY_LIMIT * MS_PER_MINUTE)
      && ((exists i :: 0 <= i < |v| && v[i].vtype == "70_hour") <==> cycle >= CYCLE_LIMIT * MS_PER_MINUTE)
      && (forall i, j :: 0 <= i < j < |v| ==> Rank(v[i].vtype) < Rank(v[j].vtype))
      && (forall i :: 0 <= i < |v| ==>
            v[i].severity == "major" && v[i].status == "open" && !v[i].resolved && v[i].timestamp == now)
  {
    var v := Violations(drive, onDuty, cycle, now);
    if drive >= DRIVE_LIMIT * MS_PER_MINUTE { assert v[0].vtype == "11_hour"; }
    if onDuty >= ON_DUTY_LIMIT * MS_PER_MINUTE {
      var i := if drive >= DRIVE_LIMIT * MS_PER_MINUTE then 1 else 0;
      assert v[i].vtype == "14_hour";
    }
    if cycle >= CYCLE_LIMIT * MS_PER_MINUTE { assert v[|v| - 1].vtype == "70_hour"; }
  }

  /** Position of a violation type in the emission order. */
  function Rank(vtype: string): int
  {
    if vtype == "11_hour" then 0 else if vtype == "14_hour" then 1 else 2
  }

  /** The snapshot is `violation` exactly when some limit is reached and
      `pending` exactly when there are no logs. */
  lemma ComplianceStatusExact(driverId: string, logs: seq<HosLog>, now: int, startOfToday: int)
    ensures var r := HosStatus(driverId, logs, now, startOfToday);
      && (r.complianceStatus == Pending <==> logs == [])
      && (r.complianceStatus == InViolation <==> r.violations != [])
      && (logs != [] ==> r.violations == Violations(r.usedDriveTime, r.usedOnDutyTime, r.usedCycleHours, now))
  {
  }

  /** `LastOnDutyEnd` is the largest end time among non-rest entries. */
  lemma {:induction false} LastOnDutyEndIsMax(s: seq<HosEntry>)
    ensures LastOnDutyEnd(s).None? <==> (forall i :: 0 <= i < |s| ==> IsRest(s[i].status))
    ensures LastOnDutyEnd(s).Some? ==>
      (exists i :: 0 <= i < |s| && !IsRest(s[i].status) && s[i].endTime == LastOnDutyEnd(s).value)
    ensures LastOnDutyEnd(s).Some? ==>
      (forall i :: 0 <= i < |s| && !IsRest(s[i].status) ==> s[i].endTime <= LastOnDutyEnd(s).value)
  {
    if s != [] {
      var n := |s| - 1;
      LastOnDutyEndIsMax(s[..n]);
      assert forall i :: 0 <= i < n ==> s[..n][i] == s[i];
      var p := LastOnDutyEnd(s[..n]);
      if !IsRest(s[n].status) && (p.None? || s[n].endTime > p.value) {
        assert exists i :: 0 <= i < |s| && !IsRest(s[i].status) && s[i].endTime == s[n].endTime;
      } else if p.Some? {
        var i :| 0 <= i < n && !IsRest(s[..n][i].status) && s[..n][i].endTime == p.value;
        assert !IsRest(s[i].status) && s[i].endTime == p.value;
      }
    }
  }

  /** A restart is available exactly when every non-rest entry ended at least
      34 hours before `now` (trivially so when there is none). */
  lemma {:induction false} RestartExact(driverId: string, logs: seq<HosLog>, now: int, startOfToday: int)
    requires logs != []
    ensures HosStatus(driverId, logs, now, startOfToday).restartAvailable <==>
      (forall e :: e in Flatten(logs) && !IsRest(e.status) ==> now - e.endTime >= RESTART_MS)
  {
    var flat := Flatten(logs);
    var s := SortedEntries(logs);
    Sorting.SortPermutes(flat, StartKey);
    assert forall e :: e in flat <==> e in s by {
      forall e ensures e in flat <==> e in s {
        assert e in flat <==> e in multiset(flat);
        assert e in s <==> e in multiset(s);
      }
    }
    LastOnDutyEndIsMax(s);
    var r := HosStatus(driverId, logs, now, startOfToday);
    if r.restartAvailable {
      forall e | e in flat && !IsRest(e.status) ensures now - e.endTime >= RESTART_MS {
        var i :| 0 <= i < |s| && s[i] == e;
      }
    } else {
      var i :| 0 <= i < |s| && !IsRest(s[i].status) && s[i].endTime == LastOnDutyEnd(s).value;
      assert s[i] in flat;
    }
  }

  /** The current status and the last logged time come from the entry that
      starts last, taking the last-listed one where start times tie; with no
      entries they are `off_duty` and none. */
  lemma {:induction false} CurrentStatusIsLatestEntry(driverId: string, logs: seq<HosLog>, now: int, startOfToday: int)
    requires logs != []
    ensures var r := HosStatus(driverId, logs, now, startOfToday);
      var flat := Flatten(logs);
      && (flat == [] ==> r.currentStatus == OFF_DUTY && r.lastLoggedAt == None)
      && (flat != [] ==>
            var k := Sorting.LastMaxIndex(flat, StartKey);
            r.currentStatus == flat[k].status && r.lastLoggedAt == Some(flat[k].endTime))
  {
    var flat := Flatten(logs);
    if flat != [] {
      Sorting.SortLast(flat, StartKey);
    }
  }
}
