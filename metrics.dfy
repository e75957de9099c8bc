/**
 * The static metric catalog: for each counter of a reply record, the descriptor
 * (name, help text, label names) it is published under.
 */
module Metrics {
  import opened Prom

  const Namespace: string := "natasha"

  const DpdkLabelNames: seq<string> := ["portid"]
  const AppLabelNames: seq<string> := ["coreid"]

  /** The scrape-status descriptor. */
  function LastScrapeStatus(): (d: Desc)
    ensures d.fqName == "natasha_" + "last_scrape_status"
    ensures d.variableLabels == [] && d.constLabels == map[]
  {
    NewDesc(BuildFQName(Namespace, "", "last_scrape_status"), "Was the last scrape successful.", [], map[])
  }

  function NewDpdkStatsMetric(metricName: string, docString: string, constLabels: map<string, string>): (d: Desc)
    requires metricName != []
    ensures d.fqName == "natasha_dpdk_stats_" + metricName
    ensures d.help == docString && d.variableLabels == ["portid"] && d.constLabels == constLabels
  {
    NewDesc(BuildFQName(Namespace, "dpdk_stats", metricName), docString, DpdkLabelNames, constLabels)
  }

  function NewAppStatsMetric(metricName: string, docString: string, constLabels: map<string, string>): (d: Desc)
    requires metricName != []
    ensures d.fqName == "natasha_app_stats_" + metricName
    ensures d.help == docString && d.variableLabels == ["coreid"] && d.constLabels == constLabels
  {
    NewDesc(BuildFQName(Namespace, "app_stats", metricName), docString, AppLabelNames, constLabels)
  }

  /** The counters of a DPDK port record; the catalog's string keys are their names. */
  datatype DpdkCounter = Ipackets | Opackets | Ibytes | Obytes | Imissed | Ierrors | Oerrors | RxNombuf

  /** The counters of an application per-core record. */
  datatype AppCounter =
    | DropNoRule | DropNatCondition | DropBadL3Cksum | RxBadL4Cksum
    | DropUnknownIcmp | DropUnhandledEthertype | DropTxNotsent

  /** An exported-style Go identifier: ASCII letters and digits, starting with an upper-case letter. */
  predicate IsCapitalised(k: string)
  {
    k != [] && 'A' <= k[0] <= 'Z' &&
    forall i :: 0 <= i < |k| ==> 'A' <= k[i] <= 'Z' || 'a' <= k[i] <= 'z' || '0' <= k[i] <= '9'
  }

  /** A metric name part Prometheus accepts: lower-case letters, digits and underscores, starting with a letter. */
  predicate IsMetricNamePart(n: string)
  {
    n != [] && 'a' <= n[0] <= 'z' && forall i :: 0 <= i < |n| ==> 'a' <= n[i] <= 'z' || '0' <= n[i] <= '9' || n[i] == '_'
  }

  /** The string key the catalog map stores a DPDK counter under. */
  function DpdkKey(c: DpdkCounter): string
  {
    match c
    case Ipackets => "Ipackets"
    case Opackets => "Opackets"
    case Ibytes => "Ibytes"
    case Obytes => "Obytes"
    case Imissed => "Imissed"
    case Ierrors => "Ierrors"
    case Oerrors => "Oerrors"
    case RxNombuf => "RxNombuf"
  }

  /** The string key the catalog map stores an application counter under. */
  function AppKey(c: AppCounter): string
  {
    match c
    case DropNoRule => "DropNoRule"
    case DropNatCondition => "DropNatCondition"
    case DropBadL3Cksum => "DropBadL3Cksum"
    case RxBadL4Cksum => "RxBadL4Cksum"
    case DropUnknownIcmp => "DropUnknownIcmp"
    case DropUnhandledEthertype => "DropUnhandledEthertype"
    case DropTxNotsent => "DropTxNotsent"
  }

  /** The metric name of a DPDK counter, before namespacing. */
  function DpdkMetricName(c: DpdkCounter): string
  {
    match c
    case Ipackets => "ipackets"
    case Opackets => "opackets"
    case Ibytes => "ibytes"
    case Obytes => "obytes"
    case Imissed => "imissed"
    case Ierrors => "ierrors"
    case Oerrors => "oerrors"
    case RxNombuf => "rxnombuf"
  }

  // Help texts of the catalog entries.
  const IpacketsHelp: string := "Total number of successfully received packets."
  const OpacketsHelp: string := "Total number of successfully transmitted packets."
  const IbytesHelp: string := "Total number of successfully received bytes."
  const ObytesHelp: string := "Total number of successfully transmitted bytes."
  const ImissedHelp: string := "Total of RX packets dropped by the HW because there are no available buffer (i.e. RX queues are full)."
  const IerrorsHelp: string := "Total number of erroneous received packets."
  const OerrorsHelp: string := "Total number of failed transmitted packets."
  const RxNombufHelp: string := "Total number of RX mbuf allocation failures."
  const DropNoRuleHelp: string := "The number of Rx packets dropped due to not NAT rule."
  const DropNatConditionHelp: string := "The number of drops due to ip range missmatch."
  const DropBadL3CksumHelp: string := "The number of Rx packets dropped due bad l3 checksum."
  const RxBadL4CksumHelp: string := "The number of Rx packets having a bad TCP or UDP checksum."
  const DropUnknownIcmpHelp: string := "The number of Rx packets dropped due unhandled or unknow ICMP type."
  const DropUnhandledEthertypeHelp: string := "The number of Rx packets dropped due to unhandled ether type."
  const DropTxNotsentHelp: string := "The number of failed Tx packets."

  function DpdkHelp(c: DpdkCounter): string
  {
    match c
    case Ipackets => IpacketsHelp
    case Opackets => OpacketsHelp
    case Ibytes => IbytesHelp
    case Obytes => ObytesHelp
    case Imissed => ImissedHelp
    case Ierrors => IerrorsHelp
    case Oerrors => OerrorsHelp
    case RxNombuf => RxNombufHelp
  }

  /** The metric name of an application counter, before namespacing. */
  function AppMetricName(c: AppCounter): string
  {
    match c
    case DropNoRule => "drop_no_rule"
    case DropNatCondition => "drop_nat_condition"
    case DropBadL3Cksum => "drop_bad_l3_cksum"
    case RxBadL4Cksum => "rx_bad_l4_cksum"
    case DropUnknownIcmp => "drop_unknown_icmp"
    case DropUnhandledEthertype => "drop_unhandled_ether_type"
    case DropTxNotsent => "drop_tx_not_sent"
  }

  function AppHelp(c: AppCounter): string
  {
    match c
    case DropNoRule => DropNoRuleHelp
    case DropNatCondition => DropNatConditionHelp
    case DropBadL3Cksum => DropBadL3CksumHelp
    case RxBadL4Cksum => RxBadL4CksumHelp
    case DropUnknownIcmp => DropUnknownIcmpHelp
    case DropUnhandledEthertype => DropUnhandledEthertypeHelp
    case DropTxNotsent => DropTxNotsentHelp
  }

  /** The keys of a DPDK record's counters are exported-style Go identifiers. */
  lemma DpdkKeysCapitalised(c: DpdkCounter)
    ensures IsCapitalised(DpdkKey(c))
  {
  }

  /** The keys of an application record's counters are exported-style Go identifiers. */
  lemma AppKeysCapitalised(c: AppCounter)
    ensures IsCapitalised(AppKey(c))
  {
  }

  /** The metric names of a DPDK record's counters are name parts Prometheus accepts. */
  lemma DpdkNamesWellFormed(c: DpdkCounter)
    ensures IsMetricNamePart(DpdkMetricName(c))
  {
  }

  /** The metric names of an application record's counters are name parts Prometheus accepts. */
  lemma AppNamesWellFormed(c: AppCounter)
    ensures IsMetricNamePart(AppMetricName(c))
  {
    if c == DropNoRule || c == DropNatCondition || c == DropBadL3Cksum || c == RxBadL4Cksum {
      FirstAppNamesWellFormed(c);
    } else {
      LastAppNamesWellFormed(c);
    }
  }

  /** The first four application metric names, in record order. */
  lemma FirstAppNamesWellFormed(c: AppCounter)
    requires c == DropNoRule || c == DropNatCondition || c == DropBadL3Cksum || c == RxBadL4Cksum
    ensures IsMetricNamePart(AppMetricName(c))
  {
  }

  /** The last three application metric names, in record order. */
  lemma LastAppNamesWellFormed(c: AppCounter)
    requires c == DropUnknownIcmp || c == DropUnhandledEthertype || c == DropTxNotsent
    ensures IsMetricNamePart(AppMetricName(c))
  {
  }

  const AllDpdkCounters: set<DpdkCounter> := {Ipackets, Opackets, Ibytes, Obytes, Imissed, Ierrors, Oerrors, RxNombuf}

  const AllAppCounters: set<AppCounter> :=
    {DropNoRule, DropNatCondition, DropBadL3Cksum, RxBadL4Cksum, DropUnknownIcmp, DropUnhandledEthertype, DropTxNotsent}

  /** A DPDK record has eight counters, an application record seven. */
  lemma CounterCounts()
    ensures |AllDpdkCounters| == 8 && |AllAppCounters| == 7
  {
  }

  /** Every counter is in the set of all counters of its record. */
  lemma IsCounter(c: DpdkCounter, a: AppCounter)
    ensures c in AllDpdkCounters && a in AllAppCounters
  {
  }

  /** Every counter of a record is in its catalog: a lookup by counter never misses. */
  lemma CatalogsComplete(c: DpdkCounter, a: AppCounter)
    ensures c in GetDpdkStatsMetrics() && a in GetAppStatsMetrics()
  {
  }

  /** The catalog entry of one DPDK counter. */
  function DpdkDesc(c: DpdkCounter): (d: Desc)
    ensures d.fqName == "natasha_dpdk_stats_" + DpdkMetricName(c)
    ensures d.help == DpdkHelp(c) && d.variableLabels == ["portid"] && d.constLabels == map[]
  {
    NewDpdkStatsMetric(DpdkMetricName(c), DpdkHelp(c), map[])
  }

  /** The catalog entry of one application counter. */
  function AppDesc(c: AppCounter): (d: Desc)
    ensures d.fqName == "natasha_app_stats_" + AppMetricName(c)
    ensures d.help == AppHelp(c) && d.variableLabels == ["coreid"] && d.constLabels == map[]
  {
    NewAppStatsMetric(AppMetricName(c), AppHelp(c), map[])
  }

  /** The DPDK catalog: every counter has a descriptor, named under natasha_dpdk_stats_ and labelled by port id. */
  function GetDpdkStatsMetrics(): (m: map<DpdkCounter, Desc>)
    ensures m.Keys == AllDpdkCounters
    ensures forall c :: c in m && m[c] == DpdkDesc(c)
  {
    var m := map c | c in AllDpdkCounters :: DpdkDesc(c);
    assert forall c :: c in m by {
      forall c: DpdkCounter ensures c in m { IsCounter(c, DropNoRule); }
    }
    m
  }

  /** The application catalog: every counter has a descriptor, named under natasha_app_stats_ and labelled by core id. */
  function GetAppStatsMetrics(): (m: map<AppCounter, Desc>)
    ensures m.Keys == AllAppCounters
    ensures forall c :: c in m && m[c] == AppDesc(c)
  {
    var m := map c | c in AllAppCounters :: AppDesc(c);
    assert forall c :: c in m by {
      forall c: AppCounter ensures c in m { IsCounter(Ipackets, c); }
    }
    m
  }

  /** The CPU usage gauge, labelled by core id. */
  function GetCPUUsageMetrics(): (d: Desc)
    ensures d.fqName == "natasha_app_stats_" + "real_cpu_usage"
    ensures d.variableLabels == ["coreid"] && d.constLabels == map[]
  {
    NewAppStatsMetric("real_cpu_usage", "The real CPU usage.", map[])
  }

  function LowerChar(c: char): char
  {
    if 'A' <= c <= 'Z' then (c as int + 32) as char else c
  }

  /** ASCII lower-casing: upper-case letters become lower case and every other character is kept. */
  function Lower(s: string): (r: string)
    ensures |r| == |s|
    ensures forall i :: 0 <= i < |s| ==> if 'A' <= s[i] <= 'Z' then 'a' <= r[i] <= 'z' && r[i] as int - s[i] as int == 32 else r[i] == s[i]
  {
    seq(|s|, i requires 0 <= i < |s| => LowerChar(s[i]))
  }

  /** Every DPDK metric is named natasha_dpdk_stats_ followed by its key in lower case. */
  lemma DpdkNamesAreLowerKeys(c: DpdkCounter)
    ensures GetDpdkStatsMetrics()[c].fqName == "natasha_dpdk_stats_" + Lower(DpdkKey(c))
  {
    match c
    case Ipackets => assert Lower("Ipackets") == "ipackets";
    case Opackets => assert Lower("Opackets") == "opackets";
    case Ibytes => assert Lower("Ibytes") == "ibytes";
    case Obytes => assert Lower("Obytes") == "obytes";
    case Imissed => assert Lower("Imissed") == "imissed";
    case Ierrors => assert Lower("Ierrors") == "ierrors";
    case Oerrors => assert Lower("Oerrors") == "oerrors";
    case RxNombuf => assert Lower("RxNombuf") == "rxnombuf";
  }

  /** Distinct counters are stored under distinct keys: the enumeration stands for the string keys. */
  lemma CatalogKeysDistinct(c1: DpdkCounter, c2: DpdkCounter, a1: AppCounter, a2: AppCounter)
    ensures DpdkKey(c1) == DpdkKey(c2) ==> c1 == c2
    ensures AppKey(a1) == AppKey(a2) ==> a1 == a2
  {
  }

  /** No two counters of a catalog share a metric name, and the CPU gauge is not an application counter. */
  lemma CatalogNamesDistinct(c1: DpdkCounter, c2: DpdkCounter, a1: AppCounter, a2: AppCounter)
    ensures GetDpdkStatsMetrics()[c1].fqName == GetDpdkStatsMetrics()[c2].fqName ==> c1 == c2
    ensures GetAppStatsMetrics()[a1].fqName == GetAppStatsMetrics()[a2].fqName ==> a1 == a2
    ensures GetAppStatsMetrics()[a1] != GetCPUUsageMetrics()
  {
    BuildFQNameInjective(Namespace, "dpdk_stats", DpdkMetricName(c1), DpdkMetricName(c2));
    BuildFQNameInjective(Namespace, "app_stats", AppMetricName(a1), AppMetricName(a2));
    BuildFQNameInjective(Namespace, "app_stats", AppMetricName(a1), "real_cpu_usage");
  }

  /** Joining two accepted name parts with '_' gives an accepted name part, as BuildFQName does. */
  lemma JoinNameParts(a: string, b: string)
    requires IsMetricNamePart(a) && IsMetricNamePart(b)
    ensures IsMetricNamePart(a + "_" + b)
  {
    var j := a + "_" + b;
    forall i | 0 <= i < |j|
      ensures 'a' <= j[i] <= 'z' || '0' <= j[i] <= '9' || j[i] == '_'
    {
      if i < |a| {
        assert j[i] == a[i];
      } else if i > |a| {
        assert j[i] == b[i - |a| - 1];
      }
    }
  }

  /** Lower-casing an exported-style key gives an accepted name part. */
  lemma LowerCapitalised(k: string)
    requires IsCapitalised(k)
    ensures IsMetricNamePart(Lower(k))
  {
  }

  /** Lower-casing any catalog key gives an accepted name part, so the DPDK names built from their keys are valid. */
  lemma LowerKeysWellFormed(c: DpdkCounter, a: AppCounter)
    ensures IsMetricNamePart(Lower(DpdkKey(c))) && IsMetricNamePart(Lower(AppKey(a)))
  {
    DpdkKeysCapitalised(c);
    LowerCapitalised(DpdkKey(c));
    AppKeysCapitalised(a);
    LowerCapitalised(AppKey(a));
  }

  /** The two subsystem prefixes natasha_dpdk_stats and natasha_app_stats are accepted name parts. */
  lemma PrefixesWellFormed()
    ensures IsMetricNamePart(Namespace + "_" + "dpdk_stats") && IsMetricNamePart(Namespace + "_" + "app_stats")
  {
    assert IsMetricNamePart(Namespace) && IsMetricNamePart("dpdk_stats") && IsMetricNamePart("app_stats");
    JoinNameParts(Namespace, "dpdk_stats");
    JoinNameParts(Namespace, "app_stats");
  }

  /** Every DPDK full name is an accepted metric name: natasha, dpdk_stats and the counter's name joined by '_'. */
  lemma DpdkFullNamesWellFormed(c: DpdkCounter)
    ensures IsMetricNamePart(GetDpdkStatsMetrics()[c].fqName)
  {
    var prefix := Namespace + "_" + "dpdk_stats";
    PrefixesWellFormed();
    DpdkNamesWellFormed(c);
    JoinNameParts(prefix, DpdkMetricName(c));
    assert prefix + "_" + DpdkMetricName(c) == "natasha_dpdk_stats_" + DpdkMetricName(c);
  }

  /** Every application full name is an accepted metric name. */
  lemma AppFullNamesWellFormed(a: AppCounter)
    ensures IsMetricNamePart(GetAppStatsMetrics()[a].fqName)
  {
    var prefix := Namespace + "_" + "app_stats";
    PrefixesWellFormed();
    AppNamesWellFormed(a);
    JoinNameParts(prefix, AppMetricName(a));
    assert prefix + "_" + AppMetricName(a) == "natasha_app_stats_" + AppMetricName(a);
  }

  /** The CPU gauge's full name is an accepted metric name. */
  lemma CpuFullNameWellFormed()
    ensures IsMetricNamePart(GetCPUUsageMetrics().fqName)
  {
    var prefix := Namespace + "_" + "app_stats";
    PrefixesWellFormed();
    assert IsMetricNamePart("real_cpu_usage");
    JoinNameParts(prefix, "real_cpu_usage");
    assert prefix + "_" + "real_cpu_usage" == "natasha_app_stats_" + "real_cpu_usage";
  }
}
