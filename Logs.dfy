/**
 * Log filtering and classification on the monitoring page
 * (frontend/src/pages/MonitoringLogs.js).
 */
module Logs {
  import opened Text
  import opened Seqs

  /** One entry of `GET /api/logs`. */
  datatype LogEntry = LogEntry(event: string, details: string, timestamp: string)

  /** The filter value that disables a filter. */
  const All := "all"

  /** A field passes a filter when the filter is off or, ignoring case, the field includes it. */
  predicate Matches(field: string, filter: string) {
    filter == All || Contains(Lower(field), Lower(filter))
  }

  /** The attack-type filter tests `event`; the status filter tests `details`. */
  predicate Retained(log: LogEntry, typeFilter: string, statusFilter: string) {
    Matches(log.event, typeFilter) && Matches(log.details, statusFilter)
  }

  /** The retained logs in one pass, as a reference for the two-pass `filterLogs`. */
  function RetainedLogs(logs: seq<LogEntry>, typeFilter: string, statusFilter: string): seq<LogEntry> {
    if logs == [] then []
    else
      var head := if Retained(logs[0], typeFilter, statusFilter) then [logs[0]] else [];
      head + RetainedLogs(logs[1..], typeFilter, statusFilter)
  }

  lemma {:induction false} RetainedLogsIsFilter(logs: seq<LogEntry>, typeFilter: string, statusFilter: string)
    ensures RetainedLogs(logs, typeFilter, statusFilter)
      == Filter(logs, (l: LogEntry) => Retained(l, typeFilter, statusFilter))
  {
    if logs != [] {
      RetainedLogsIsFilter(logs[1..], typeFilter, statusFilter);
    }
  }

  /** The retained logs keep their order and are drawn from the input. */
  lemma RetainedLogsIsSubsequence(logs: seq<LogEntry>, typeFilter: string, statusFilter: string)
    ensures IsSubsequence(RetainedLogs(logs, typeFilter, statusFilter), logs)
  {
    RetainedLogsIsFilter(logs, typeFilter, statusFilter);
    FilterIsSubsequence(logs, (l: LogEntry) => Retained(l, typeFilter, statusFilter));
  }

  /** A log is shown exactly when it passes both filters. */
  lemma RetainedLogsMembership(logs: seq<LogEntry>, typeFilter: string, statusFilter: string)
    ensures forall l :: l in RetainedLogs(logs, typeFilter, statusFilter) <==>
      l in logs && Retained(l, typeFilter, statusFilter)
  {
    RetainedLogsIsFilter(logs, typeFilter, statusFilter);
  }

  /** With both filters off every log is shown. */
  lemma {:induction false} RetainedLogsAll(logs: seq<LogEntry>)
    ensures RetainedLogs(logs, All, All) == logs
  {
    if logs != [] {
      RetainedLogsAll(logs[1..]);
      assert [logs[0]] + logs[1..] == logs;
    }
  }

  /** `filterLogs`: the type filter, then the status filter, each only when it is not 'all'. */
  method FilterLogs(logs: seq<LogEntry>, typeFilter: string, statusFilter: string) returns (filtered: seq<LogEntry>)
    ensures filtered == RetainedLogs(logs, typeFilter, statusFilter)
    ensures IsSubsequence(filtered, logs)
    ensures forall l :: l in filtered <==> l in logs && Retained(l, typeFilter, statusFilter)
    ensures typeFilter == All && statusFilter == All ==> filtered == logs
  {
    var byType := (l: LogEntry) => Matches(l.event, typeFilter);
    var byStatus := (l: LogEntry) => Matches(l.details, statusFilter);
    var both := (l: LogEntry) => Retained(l, typeFilter, statusFilter);
    filtered := logs;
    if typeFilter != All {
      filtered := Filter(filtered, byType);
    } else {
      FilterKeepsAll(logs, byType);
    }
    assert filtered == Filter(logs, byType);
    if statusFilter != All {
      filtered := Filter(filtered, byStatus);
    } else {
      FilterKeepsAll(filtered, byStatus);
    }
    assert filtered == Filter(Filter(logs, byType), byStatus);
    FilterTwice(logs, byType, byStatus, both);
    RetainedLogsIsFilter(logs, typeFilter, statusFilter);
    RetainedLogsIsSubsequence(logs, typeFilter, statusFilter);
    RetainedLogsMembership(logs, typeFilter, statusFilter);
    if typeFilter == All && statusFilter == All {
      RetainedLogsAll(logs);
    }
  }

  const AttackIcon := "\U{1F534}"
  const DefenseIcon := "\U{1F6E1}\U{FE0F}"
  const OtherIcon := "\U{1F4DD}"

  /** `getLogIcon`: 'Attack' is tested first, case-sensitively. */
  function LogIcon(event: string): (icon: string)
    ensures icon == AttackIcon <==> Contains(event, "Attack")
    ensures icon == DefenseIcon <==> !Contains(event, "Attack") && Contains(event, "Defense")
    ensures icon == OtherIcon <==> !Contains(event, "Attack") && !Contains(event, "Defense")
  {
    if Contains(event, "Attack") then AttackIcon
    else if Contains(event, "Defense") then DefenseIcon
    else OtherIcon
  }

  /** `getLogColor`, with the same precedence. */
  function LogColor(event: string): (colour: string)
    ensures colour == "text-cyber-red" <==> Contains(event, "Attack")
    ensures colour == "text-cyber-blue" <==> !Contains(event, "Attack") && Contains(event, "Defense")
    ensures colour == "text-gray-400" <==> !Contains(event, "Attack") && !Contains(event, "Defense")
  {
    if Contains(event, "Attack") then "text-cyber-red"
    else if Contains(event, "Defense") then "text-cyber-blue"
    else "text-gray-400"
  }

  /** Icon and colour classify every event the same way. */
  lemma IconAgreesWithColour(event: string)
    ensures LogIcon(event) == AttackIcon <==> LogColor(event) == "text-cyber-red"
    ensures LogIcon(event) == DefenseIcon <==> LogColor(event) == "text-cyber-blue"
    ensures LogIcon(event) == OtherIcon <==> LogColor(event) == "text-gray-400"
  {
  }

  /** The status label of a log row: success, then failed, then blocked, else Info. */
  function StatusLabel(details: string): (shown: string)
    ensures shown == "Success" <==> Contains(Lower(details), "success")
    ensures shown == "Failed" <==> !Contains(Lower(details), "success") && Contains(Lower(details), "failed")
    ensures shown == "Blocked" <==>
      !Contains(Lower(details), "success") && !Contains(Lower(details), "failed") && Contains(Lower(details), "blocked")
    ensures shown == "Info" <==>
      !Contains(Lower(details), "success") && !Contains(Lower(details), "failed") && !Contains(Lower(details), "blocked")
  {
    var d := Lower(details);
    if Contains(d, "success") then "Success"
    else if Contains(d, "failed") then "Failed"
    else if Contains(d, "blocked") then "Blocked"
    else "Info"
  }

  /**
   * The badge classes of the status cell, chosen by their own test; the badge
   * colour and the label text never disagree.
   */
  function StatusBadge(details: string): (badge: string)
    ensures badge == "bg-green-900 text-green-300" <==> StatusLabel(details) == "Success"
    ensures badge == "bg-red-900 text-red-300" <==>
      StatusLabel(details) == "Failed" || StatusLabel(details) == "Blocked"
    ensures badge == "bg-gray-900 text-gray-300" <==> StatusLabel(details) == "Info"
  {
    var d := Lower(details);
    if Contains(d, "success") then "bg-green-900 text-green-300"
    else if Contains(d, "failed") || Contains(d, "blocked") then "bg-red-900 text-red-300"
    else "bg-gray-900 text-gray-300"
  }

  /** A point of the timeline chart; `time` is the raw timestamp (locale formatting is not modelled). */
  datatype TimelinePoint = TimelinePoint(time: string, events: int, kind: string)

  const TimelineLength := 20

  /** `timeSeriesData`: the first twenty logs, each typed 'Attack' or 'Defense'. */
  function TimeSeries(logs: seq<LogEntry>): (points: seq<TimelinePoint>)
    ensures |points| == if |logs| < TimelineLength then |logs| else TimelineLength
    ensures forall i :: 0 <= i < |points| ==>
      points[i].events == 1 && points[i].time == logs[i].timestamp &&
      (points[i].kind == "Attack" <==> Contains(logs[i].event, "Attack")) &&
      (points[i].kind == "Defense" <==> !Contains(logs[i].event, "Attack"))
  {
    var shown := Take(logs, TimelineLength);
    seq(|shown|, i requires 0 <= i < |shown| =>
      TimelinePoint(shown[i].timestamp, 1, if Contains(shown[i].event, "Attack") then "Attack" else "Defense"))
  }

  /** Logs beyond the twentieth never reach the timeline. */
  lemma TimelineIgnoresTail(logs: seq<LogEntry>, more: seq<LogEntry>)
    requires |logs| >= TimelineLength
    ensures TimeSeries(logs + more) == TimeSeries(logs)
  {
    assert (logs + more)[..TimelineLength] == logs[..TimelineLength];
  }

  /** A timeline point is an attack exactly when the log row is coloured as one. */
  lemma TimelineAgreesWithColour(logs: seq<LogEntry>, i: int)
    requires 0 <= i < |TimeSeries(logs)|
    ensures TimeSeries(logs)[i].kind == "Attack" <==> LogColor(logs[i].event) == "text-cyber-red"
  {
  }
}
