/**
 * Threshold alerts, alert dismissal, colour maps, success percentages, the
 * frequency chart and the report file name of the alerts page
 * (frontend/src/pages/AlertsReports.js).
 */
module Alerts {
  import opened Api
  import opened Text
  import opened Seqs
  import Rounding

  /** The text of an alert, kept as the count it reports; `Text` renders it. */
  datatype AlertMessage = AttacksSucceeded(n: nat) | AttackVolume(n: nat) | DefensesSucceeded(n: nat) {
    /** The template literal of the rule that raised the alert. */
    function Text(): string {
      match this
      case AttacksSucceeded(n) => NatToString(n) + " successful attack(s) detected in the system"
      case AttackVolume(n) => "Total of " + NatToString(n) + " attacks detected. Consider reviewing security measures."
      case DefensesSucceeded(n) => NatToString(n) + " defense(s) successfully blocked attacks"
    }
  }

  datatype Alert = Alert(id: int, kind: string, title: string, message: AlertMessage, timestamp: string, icon: string)

  /** The ids of a list of alerts, in order. */
  function AlertIds(alerts: seq<Alert>): (ids: seq<int>)
    ensures |ids| == |alerts|
    ensures forall i :: 0 <= i < |alerts| ==> ids[i] == alerts[i].id
  {
    seq(|alerts|, i requires 0 <= i < |alerts| => alerts[i].id)
  }

  predicate StrictlyIncreasing(ids: seq<int>) {
    forall i, j :: 0 <= i < j < |ids| ==> ids[i] < ids[j]
  }

  /** The title and icon of each rule's alert. */
  const CriticalTitle := "Active Attack Detected"
  const CriticalIcon := "\U{1F6A8}"
  const VolumeTitle := "High Attack Volume"
  const VolumeIcon := "\U{26A0}\U{FE0F}"
  const DefenseTitle := "Defense Successful"
  const DefenseIcon := "\U{2705}"

  /** The critical alert; the guard makes the count it prints positive. */
  function CriticalAlert(stats: Stats, now: string): Alert
    requires stats.successfulAttacks > 0
  {
    Alert(1, "critical", CriticalTitle, AttacksSucceeded(stats.successfulAttacks), now, CriticalIcon)
  }

  function VolumeAlert(stats: Stats, now: string): Alert
    requires stats.totalAttacks > 5
  {
    Alert(2, "warning", VolumeTitle, AttackVolume(stats.totalAttacks), now, VolumeIcon)
  }

  function DefenseAlert(stats: Stats, now: string): Alert
    requires stats.successfulDefenses > 0
  {
    Alert(3, "success", DefenseTitle, DefensesSucceeded(stats.successfulDefenses), now, DefenseIcon)
  }

  /** The ids of the rules that fire, in rule order. */
  function FiringRules(stats: Stats): (ids: seq<int>)
    ensures 1 in ids <==> stats.successfulAttacks > 0
    ensures 2 in ids <==> stats.totalAttacks > 5
    ensures 3 in ids <==> stats.successfulDefenses > 0
    ensures forall i :: i in ids ==> 1 <= i <= 3
    ensures |ids| <= 3 && StrictlyIncreasing(ids)
  {
    (if stats.successfulAttacks > 0 then [1] else []) +
    (if stats.totalAttacks > 5 then [2] else []) +
    (if stats.successfulDefenses > 0 then [3] else [])
  }

  /** The alert a firing rule raises. */
  function RuleAlert(id: int, stats: Stats, now: string): (a: Alert)
    requires id in FiringRules(stats)
    ensures a.id == id && a.timestamp == now
    ensures a.kind == (if id == 1 then "critical" else if id == 2 then "warning" else "success")
    ensures id == 1 ==>
      a.title == CriticalTitle && a.message == AttacksSucceeded(stats.successfulAttacks) && a.icon == CriticalIcon
    ensures id == 2 ==>
      a.title == VolumeTitle && a.message == AttackVolume(stats.totalAttacks) && a.icon == VolumeIcon
    ensures id == 3 ==>
      a.title == DefenseTitle && a.message == DefensesSucceeded(stats.successfulDefenses) && a.icon == DefenseIcon
  {
    if id == 1 then CriticalAlert(stats, now)
    else if id == 2 then VolumeAlert(stats, now)
    else DefenseAlert(stats, now)
  }

  /** The alert rules as one list, each rule contributing its alert or nothing. */
  function AlertsFor(stats: Stats, now: string): seq<Alert> {
    (if stats.successfulAttacks > 0 then [RuleAlert(1, stats, now)] else []) +
    (if stats.totalAttacks > 5 then [RuleAlert(2, stats, now)] else []) +
    (if stats.successfulDefenses > 0 then [RuleAlert(3, stats, now)] else [])
  }

  /** Every firing rule raises its alert, in rule order, and nothing else is raised. */
  lemma AlertsForRules(stats: Stats, now: string)
    ensures AlertIds(AlertsFor(stats, now)) == FiringRules(stats)
    ensures forall a :: a in AlertsFor(stats, now) ==> a == RuleAlert(a.id, stats, now)
  {
    var c := if stats.successfulAttacks > 0 then [RuleAlert(1, stats, now)] else [];
    var v := if stats.totalAttacks > 5 then [RuleAlert(2, stats, now)] else [];
    var d := if stats.successfulDefenses > 0 then [RuleAlert(3, stats, now)] else [];
    assert AlertIds(c + v + d) == AlertIds(c) + AlertIds(v) + AlertIds(d);
  }

  /** `generateAlerts`: the rules pushed one by one onto a fresh list; `now` is the clock's ISO time. */
  method GenerateAlerts(stats: Stats, now: string) returns (alerts: seq<Alert>)
    ensures alerts == AlertsFor(stats, now)
    ensures AlertIds(alerts) == FiringRules(stats)
  {
    alerts := [];
    if stats.successfulAttacks > 0 {
      alerts := alerts + [RuleAlert(1, stats, now)];
    }
    if stats.totalAttacks > 5 {
      alerts := alerts + [RuleAlert(2, stats, now)];
    }
    if stats.successfulDefenses > 0 {
      alerts := alerts + [RuleAlert(3, stats, now)];
    }
    AlertsForRules(stats, now);
  }

  /** The alerts the page shows after mounting, as written: computed from the initial stats. */
  function MountedAlertsAsWritten(fetched: Stats, now: string): (alerts: seq<Alert>)
    ensures alerts == []
  {
    AlertsFor(InitialStats, now)
  }

  /** The alerts the page evidently means to show: computed from the fetched stats. */
  function MountedAlerts(fetched: Stats, now: string): (alerts: seq<Alert>)
    ensures AlertIds(alerts) == FiringRules(fetched)
  {
    AlertsForRules(fetched, now);
    AlertsFor(fetched, now)
  }

  /** Six attacks, two of them successful, one successful defense: three alerts are due, none is shown. */
  lemma MountMissesFetchedAlerts(now: string)
    ensures var fetched := Stats(6, 2, 1, 1, map[]);
      MountedAlertsAsWritten(fetched, now) == [] && |MountedAlerts(fetched, now)| == 3
  {
    var fetched := Stats(6, 2, 1, 1, map[]);
    AlertsForRules(fetched, now);
  }

  /** `dismissAlert`: removes every alert with the id and keeps the rest in order. */
  function DismissAlert(alerts: seq<Alert>, id: int): (r: seq<Alert>)
    ensures forall a :: a in r <==> a in alerts && a.id != id
    ensures id !in AlertIds(r)
    ensures IsSubsequence(r, alerts)
    ensures id !in AlertIds(alerts) ==> r == alerts
    ensures forall a :: multiset(r)[a] == if a.id == id then 0 else multiset(alerts)[a]
  {
    var keep := (a: Alert) => a.id != id;
    FilterIsSubsequence(alerts, keep);
    FilterMultiset(alerts, keep);
    if id !in AlertIds(alerts) then
      FilterKeepsAll(alerts, keep);
      Filter(alerts, keep)
    else
      Filter(alerts, keep)
  }

  /** `getAlertColor`: the border classes of the type's colour family. */
  function AlertColor(kind: string): (classes: string)
    ensures classes == BorderClass(ToneOf(kind))
  {
    match kind
    case "critical" => "border-red-500 bg-red-900/20"
    case "warning" => "border-yellow-500 bg-yellow-900/20"
    case "success" => "border-green-500 bg-green-900/20"
    case _ => "border-gray-500 bg-gray-900/20"
  }

  /** `getAlertTextColor`: the text class of the type's colour family. */
  function AlertTextColor(kind: string): (classes: string)
    ensures classes == TextClass(ToneOf(kind))
  {
    match kind
    case "critical" => "text-red-400"
    case "warning" => "text-yellow-400"
    case "success" => "text-green-400"
    case _ => "text-gray-400"
  }

  /** The colour family of an alert type; every unknown type is gray. */
  datatype Tone = Red | Yellow | Green | Gray

  function ToneOf(kind: string): (t: Tone)
    ensures kind == "critical" ==> t == Red
    ensures kind == "warning" ==> t == Yellow
    ensures kind == "success" ==> t == Green
    ensures t == Gray <==> kind != "critical" && kind != "warning" && kind != "success"
  {
    if kind == "critical" then Red
    else if kind == "warning" then Yellow
    else if kind == "success" then Green
    else Gray
  }

  function BorderClass(t: Tone): string {
    match t
    case Red => "border-red-500 bg-red-900/20"
    case Yellow => "border-yellow-500 bg-yellow-900/20"
    case Green => "border-green-500 bg-green-900/20"
    case Gray => "border-gray-500 bg-gray-900/20"
  }

  function TextClass(t: Tone): string {
    match t
    case Red => "text-red-400"
    case Yellow => "text-yellow-400"
    case Green => "text-green-400"
    case Gray => "text-gray-400"
  }

  /** Every generated alert is drawn in a colour of its own, never the gray default. */
  lemma GeneratedAlertsAreColoured(stats: Stats, now: string)
    ensures forall a :: a in AlertsFor(stats, now) ==> ToneOf(a.kind) != Gray
  {
    AlertsForRules(stats, now);
  }

  /** The attack success rate shown, with 0 when nothing was attempted. */
  function AttackSuccessPercent(stats: Stats): (p: int)
    ensures stats.totalAttacks <= 0 ==> p == 0
    ensures 0 <= stats.successfulAttacks <= stats.totalAttacks ==> 0 <= p <= 100
    ensures stats.totalAttacks > 0 ==> p == Rounding.Percent(stats.successfulAttacks, stats.totalAttacks)
  {
    if stats.totalAttacks > 0 then Rounding.Percent(stats.successfulAttacks, stats.totalAttacks) else 0
  }

  /** The defense success rate shown, with 0 when nothing was attempted. */
  function DefenseSuccessPercent(stats: Stats): (p: int)
    ensures stats.totalDefenses <= 0 ==> p == 0
    ensures 0 <= stats.successfulDefenses <= stats.totalDefenses ==> 0 <= p <= 100
    ensures stats.totalDefenses > 0 ==> p == Rounding.Percent(stats.successfulDefenses, stats.totalDefenses)
  {
    if stats.totalDefenses > 0 then Rounding.Percent(stats.successfulDefenses, stats.totalDefenses) else 0
  }

  datatype FrequencyBar = FrequencyBar(name: string, attacks: int)

  /** `frequencyData`: 30 % and 70 % of the total, rounded down, then the total. */
  function FrequencyData(totalAttacks: int): (bars: seq<FrequencyBar>)
    ensures |bars| == 3 && bars[2].attacks == totalAttacks
    ensures totalAttacks >= 0 ==> 0 <= bars[0].attacks <= bars[1].attacks <= bars[2].attacks
    ensures 10 * bars[0].attacks <= 3 * totalAttacks < 10 * bars[0].attacks + 10
    ensures 10 * bars[1].attacks <= 7 * totalAttacks < 10 * bars[1].attacks + 10
  {
    [FrequencyBar("Last 24h", 3 * totalAttacks / 10),
     FrequencyBar("Last 7d", 7 * totalAttacks / 10),
     FrequencyBar("All Time", totalAttacks)]
  }

  /** The report's time stamp: the first 19 characters of the ISO time, ':' turned into '-'. */
  function ReportStamp(iso: string): (stamp: string)
    ensures |stamp| == if |iso| < 19 then |iso| else 19
    ensures ':' !in stamp
    ensures forall i :: 0 <= i < |stamp| ==> stamp[i] == (if iso[i] == ':' then '-' else iso[i])
  {
    ReplaceAll(Take(iso, 19), ':', '-')
  }

  const ReportPrefix := "cyber_sim_report_"

  /** The download name `cyber_sim_report_<stamp>.<format>`. */
  function ReportFileName(iso: string, format: string): (name: string)
    ensures name == ReportPrefix + ReportStamp(iso) + "." + format
    ensures ReportPrefix <= name
    ensures ':' !in name[|ReportPrefix|..|name| - |format| - 1]
  {
    var name := ReportPrefix + ReportStamp(iso) + "." + format;
    assert name[|ReportPrefix|..|name| - |format| - 1] == ReportStamp(iso);
    name
  }

  /** A full ISO time keeps its date and its seconds, with the clock's ':' as '-'. */
  lemma ReportNameOfIsoTime()
    ensures ReportFileName("2024-05-17T09:41:07.123Z", "pdf") == "cyber_sim_report_2024-05-17T09-41-07.pdf"
  {
    var stamp := ReportStamp("2024-05-17T09:41:07.123Z");
    assert stamp == "2024-05-17T09-41-07";
  }
}
