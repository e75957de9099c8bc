/**
 * One scrape (the four steps in order over one connection) and one collection
 * (the scrape followed by the exporter's own three metrics), as functions of
 * what the dial returns and the bytes the peer sends.
 */
module ScrapeSpec {
  import opened Wire
  import opened Decimal
  import opened Prom
  import opened Metrics
  import opened Session
  import opened ExporterSpec

  /** The descriptors the record steps publish under. */
  datatype Catalogs = Catalogs(dpdk: map<DpdkCounter, Desc>, app: map<AppCounter, Desc>, cpu: Desc)

  ghost predicate CatalogsOk(cat: Catalogs)
  {
    PortLabelled(cat.dpdk) && CoreLabelled(cat.app) && |cat.cpu.variableLabels| == 1
  }

  /** What the steps look up: the package's DPDK catalog, application catalog and CPU usage descriptor. */
  function PackageCatalogs(): (cat: Catalogs)
    ensures CatalogsOk(cat)
  {
    Catalogs(GetDpdkStatsMetrics(), GetAppStatsMetrics(), GetCPUUsageMetrics())
  }

  /** The scrape step that sends `cmd`. */
  function Step(cat: Catalogs, cmd: Command, peer: Peer, s: seq<byte>): (r: StepResult)
    requires CatalogsOk(cat)
    ensures r.consumed <= |s|
  {
    match cmd
    case CmdVersion => VersionStep(peer, s)
    case CmdDpdkStats => DpdkStep(cat.dpdk, peer, s)
    case CmdAppStats => AppStep(cat.app, peer, s)
    case CmdCpuUsage => CpuStep(cat.cpu, peer, s)
  }

  /** The order scrape runs its steps in. */
  const ScrapeOrder: seq<Command> := [CmdVersion, CmdDpdkStats, CmdAppStats, CmdCpuUsage]

  /** What a run of steps pushed, consumed and sent, and whether every step ran to its end. */
  datatype Run = Run(obs: seq<Metric>, consumed: nat, sent: seq<Command>, status: StepStatus)

  /** The steps of `cmds` one after another on the stream; a step that fails is the last one. */
  function RunSteps(cat: Catalogs, cmds: seq<Command>, peer: Peer, s: seq<byte>): (r: Run)
    requires CatalogsOk(cat)
    ensures r.consumed <= |s|
    decreases |cmds|
  {
    if cmds == [] then Run([], 0, [], Done)
    else
      var h := Step(cat, cmds[0], peer, s);
      if h.status == Fatal then Run(h.obs, h.consumed, [cmds[0]], Fatal)
      else
        var t := RunSteps(cat, cmds[1..], peer, s[h.consumed..]);
        Run(h.obs + t.obs, h.consumed + t.consumed, [cmds[0]] + t.sent, t.status)
  }

  /** A run whose first step ends in log.Fatal is that step alone. */
  lemma RunStepsFatal(cat: Catalogs, cmds: seq<Command>, peer: Peer, s: seq<byte>)
    requires CatalogsOk(cat) && cmds != [] && Step(cat, cmds[0], peer, s).status == Fatal
    ensures var h := Step(cat, cmds[0], peer, s);
      RunSteps(cat, cmds, peer, s) == Run(h.obs, h.consumed, [cmds[0]], Fatal)
  {
  }

  /** A run whose first step runs to its end continues with the rest of the commands on the rest of the stream. */
  lemma RunStepsDone(cat: Catalogs, cmds: seq<Command>, peer: Peer, s: seq<byte>)
    requires CatalogsOk(cat) && cmds != [] && Step(cat, cmds[0], peer, s).status == Done
    ensures var h := Step(cat, cmds[0], peer, s);
      var t := RunSteps(cat, cmds[1..], peer, s[h.consumed..]);
      RunSteps(cat, cmds, peer, s) == Run(h.obs + t.obs, h.consumed + t.consumed, [cmds[0]] + t.sent, t.status)
  {
  }

  /** What server.NatashaServerDial returns: an error, or a connection to a peer sending `input`. */
  datatype Dial = DialFailed | Dialed(peer: Peer, input: seq<byte>)

  /**
   * How a scrape ends: it returns 1 (Up) or 0 (Down), or a step called log.Fatal, which
   * ends the process before scrape returns (Exit).
   */
  datatype Outcome = Up | Down | Exit

  /** The float64 scrape returns. */
  function StatusValue(o: Outcome): (v: nat)
    ensures v == 1 <==> o == Up
    ensures v <= 1
  {
    if o == Up then 1 else 0
  }

  /** What one scrape pushed, sent and how it ended. */
  datatype ScrapeResult = ScrapeResult(obs: seq<Metric>, sent: seq<Command>, outcome: Outcome)

  /**
   * scrape: dial, then the four steps; 1 when all of them run to their end. It returns 0
   * exactly when the dial fails, and then has pushed and sent nothing; once connected it
   * always sends the version command first.
   */
  function ScrapeRun(cat: Catalogs, d: Dial): (r: ScrapeResult)
    requires CatalogsOk(cat)
    ensures r.outcome == Down <==> d.DialFailed?
    ensures d.DialFailed? ==> r.obs == [] && r.sent == []
    ensures d.Dialed? ==> r.sent != [] && r.sent[0] == CmdVersion
  {
    match d
    case DialFailed => ScrapeResult([], [], Down)
    case Dialed(peer, input) =>
      var run := RunSteps(cat, ScrapeOrder, peer, input);
      ScrapeResult(run.obs, run.sent, if run.status == Done then Up else Exit)
  }

  // ---------------------------------------------------------------
  // The exporter's own metrics

  /** The build strings of package info and the build-info descriptor (NatashaCollector). */
  datatype Collector = Collector(version: string, revision: string, buildDate: string, goVersion: string, buildInfo: Desc)

  /** The label names of natasha_build_info. */
  const BuildInfoLabels: seq<string> := ["version", "revision", "builddate", "goversion"]

  function BuildInfoDesc(): (d: Desc)
    ensures d.fqName == "natasha_build_info" && d.variableLabels == BuildInfoLabels && d.constLabels == map[]
  {
    NewDesc("natasha_build_info", "Exporter built information.", BuildInfoLabels, map[])
  }

  /** NewNatashaCollectorMetrics, with the strings of package info as parameters. */
  function NewNatashaCollectorMetrics(version: string, revision: string, buildDate: string, goVersion: string): (c: Collector)
    ensures c.buildInfo == BuildInfoDesc()
    ensures c.version == version && c.revision == revision && c.buildDate == buildDate && c.goVersion == goVersion
  {
    Collector(version, revision, buildDate, goVersion, BuildInfoDesc())
  }

  /** The descriptor of the totalScrapes counter (BuildFQName of its CounterOpts). */
  function TotalScrapesDesc(): (d: Desc)
    ensures d.fqName == "natasha_exporter_total_scrapes" && d.variableLabels == [] && d.constLabels == map[]
  {
    NewDesc(BuildFQName(Namespace, "", "exporter_total_scrapes"), "Current total Natasha scrapes.", [], map[])
  }

  /** The natasha_up descriptor of NewExporter. */
  function NatashaStatusDesc(): (d: Desc)
    ensures d.fqName == "natasha_up" && d.variableLabels == [] && d.constLabels == map[]
  {
    NewDesc(BuildFQName(Namespace, "", "up"), "The natasha server status.", [], map[])
  }

  /** The totalScrapes counter as it is collected. */
  function TotalScrapesMetric(total: nat): (m: Metric)
    ensures m.desc == TotalScrapesDesc() && m.valueType == CounterValue && m.value == Count(total) && m.labelValues == []
  {
    Metric(TotalScrapesDesc(), CounterValue, Count(total), [])
  }

  /** The three metrics Collect pushes after the scrape: the scrape count, the scrape status and the build information. */
  function SelfMetrics(total: nat, status: nat, c: Collector): (ms: seq<Metric>)
    requires c.buildInfo == BuildInfoDesc()
    ensures |ms| == 3 && ms[0].desc == TotalScrapesDesc() && ms[1].desc == LastScrapeStatus() && ms[2].desc == BuildInfoDesc()
    ensures ms[0].value == Count(total) && ms[1].value == Count(status) && ms[2].value == Count(1)
    ensures ms[2].labelValues == [c.version, c.revision, c.buildDate, c.goVersion]
    ensures forall i :: 0 <= i < |ms| ==> |ms[i].labelValues| == |ms[i].desc.variableLabels|
  {
    [TotalScrapesMetric(total),
     MustNewConstMetric(LastScrapeStatus(), CounterValue, Count(status), []),
     MustNewConstMetric(c.buildInfo, GaugeValue, Count(1), [c.version, c.revision, c.buildDate, c.goVersion])]
  }

  /** What one Collect pushes, and the counter afterwards. */
  datatype CollectResult = CollectResult(obs: seq<Metric>, totalScrapes: nat, outcome: Outcome)

  /** Exporter.Collect: count the scrape, scrape, then push the three own metrics, unless the process exited. */
  function CollectRun(total: nat, c: Collector, cat: Catalogs, d: Dial): (r: CollectResult)
    requires c.buildInfo == BuildInfoDesc() && CatalogsOk(cat)
    ensures r.totalScrapes == total + 1 && r.outcome == ScrapeRun(cat, d).outcome
    ensures var n := |ScrapeRun(cat, d).obs|;
      |r.obs| == n + (if r.outcome == Exit then 0 else 3) && r.obs[..n] == ScrapeRun(cat, d).obs
  {
    var total' := total + 1;
    var sc := ScrapeRun(cat, d);
    if sc.outcome == Exit then CollectResult(sc.obs, total', Exit)
    else CollectResult(sc.obs + SelfMetrics(total', StatusValue(sc.outcome), c), total', sc.outcome)
  }

  // ---------------------------------------------------------------
  // Describe

  /** `order` lists every key of `keys` exactly once: one pass of a Go range over a map, in whatever order it took. */
  ghost predicate Enumerates<K(!new)>(order: seq<K>, keys: set<K>)
  {
    (forall i, j :: 0 <= i < j < |order| ==> order[i] != order[j]) &&
    (forall k :: k in keys <==> k in order)
  }

  /** The values of `m` under the keys of `order`, in that order. */
  function Pick<K, V>(m: map<K, V>, order: seq<K>): (vs: seq<V>)
    requires forall k :: k in order ==> k in m
    ensures |vs| == |order|
    ensures forall i :: 0 <= i < |order| ==> vs[i] == m[order[i]]
  {
    if order == [] then []
    else Pick(m, order[..|order| - 1]) + [m[order[|order| - 1]]]
  }

  /** Picking one more key appends its value. */
  lemma PickSnoc<K, V>(m: map<K, V>, order: seq<K>, k: K)
    requires forall x :: x in order ==> x in m
    requires k in m
    ensures Pick(m, order + [k]) == Pick(m, order) + [m[k]]
  {
    assert (order + [k])[..|order|] == order;
  }

  /** The four descriptors Describe sends first. */
  function FixedDescs(natashaStatus: Desc, c: Collector): (ds: seq<Desc>)
    ensures |ds| == 4
  {
    [TotalScrapesDesc(), natashaStatus, LastScrapeStatus(), c.buildInfo]
  }

  /** Exporter.Describe: the fixed descriptors, then the application catalog, then the DPDK catalog, each in range order. */
  function Described(natashaStatus: Desc, c: Collector, app: map<AppCounter, Desc>, dpdk: map<DpdkCounter, Desc>,
                     appOrder: seq<AppCounter>, dpdkOrder: seq<DpdkCounter>): (ds: seq<Desc>)
    requires Enumerates(appOrder, app.Keys) && Enumerates(dpdkOrder, dpdk.Keys)
    ensures |ds| == 4 + |appOrder| + |dpdkOrder| && ds[1] == natashaStatus
    ensures forall i :: 0 <= i < |appOrder| ==> ds[4 + i] == app[appOrder[i]]
    ensures forall i :: 0 <= i < |dpdkOrder| ==> ds[4 + |appOrder| + i] == dpdk[dpdkOrder[i]]
  {
    FixedDescs(natashaStatus, c) + Pick(app, appOrder) + Pick(dpdk, dpdkOrder)
  }
}
