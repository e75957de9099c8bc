/**
 * The exporter: the four scrape steps writing onto a channel, the scrape that
 * runs them over one connection, and the Exporter collector.
 */
module Exporter {
  import opened Wrappers
  import opened Wire
  import opened Decimal
  import opened Seqs
  import opened Prom
  import opened Metrics
  import opened Session
  import opened ExporterSpec
  import opened ScrapeSpec

  /** scrapeVersion: the reply payload is read into a DataSize buffer and dropped. */
  method ScrapeVersion(ch: Channel<Metric>, conn: Conn) returns (status: StepStatus)
    requires conn.Valid()
    modifies conn`pos, conn`sent
    ensures conn.Valid() && conn.sent == old(conn.sent) + [CmdVersion]
    ensures var r := VersionStep(conn.peer, old(conn.Unread()));
      status == r.status && r.obs == [] && conn.pos == old(conn.pos) + r.consumed
  {
    var reply := conn.SendCmd(CmdVersion);
    if reply.None? {
      // The version command failed: the process logs and exits.
      return Fatal;
    }
    var recvBuf := conn.Read(reply.value);
    if recvBuf.None? {
      // The payload could not be read: the process logs and exits.
      return Fatal;
    }
    return Done;
  }

  /** scrapeDpdkStats: ports = DataSize / 64, then one 64-byte read and eight observations per port. */
  method ScrapeDpdkStats(ch: Channel<Metric>, conn: Conn, dpdkMetrics: map<DpdkCounter, Desc>) returns (status: StepStatus)
    requires conn.Valid() && PortLabelled(dpdkMetrics)
    modifies ch, conn`pos, conn`sent
    ensures conn.Valid() && conn.sent == old(conn.sent) + [CmdDpdkStats]
    ensures var r := DpdkStep(dpdkMetrics, conn.peer, old(conn.Unread()));
      status == r.status && ch.items == old(ch.items) + r.obs && conn.pos == old(conn.pos) + r.consumed
  {
    ghost var s := conn.Unread();
    var reply := conn.SendCmd(CmdDpdkStats);
    if reply.None? {
      // The DPDK command failed: the process logs and exits.
      return Fatal;
    }
    ghost var w := conn.pos - old(conn.pos);
    SuffixOfSuffix(conn.input, old(conn.pos), w);
    var ports := reply.value / EthStatsWidth;
    status := ReadPorts(ch, conn, dpdkMetrics, ports, s[w..]);
  }

  /**
   * The port loop of scrapeDpdkStats: up to `ports` 64-byte reads, each decoded and pushed.
   * It ends as DpdkRecords says: Done after `ports` records, Fatal at the first read that fails.
   */
  method ReadPorts(ch: Channel<Metric>, conn: Conn, dpdkMetrics: map<DpdkCounter, Desc>, ports: nat,
                   ghost payload: seq<byte>) returns (status: StepStatus)
    requires conn.Valid() && PortLabelled(dpdkMetrics) && payload == conn.Unread()
    modifies ch, conn`pos
    ensures conn.Valid()
    ensures var r := DpdkRecords(dpdkMetrics, payload, ports);
      status == r.status && ch.items == old(ch.items) + r.obs && conn.pos == old(conn.pos) + r.consumed
  {
    ghost var base := conn.pos;
    var port := 0;
    while port < ports
      invariant port <= ports && port * EthStatsWidth <= |payload|
      invariant conn.Valid() && conn.pos == base + port * EthStatsWidth
      invariant ch.items == old(ch.items) + DpdkObservations(dpdkMetrics, payload, port)
    {
      var ok := ReadPort(ch, conn, dpdkMetrics, port, payload, base);
      if !ok {
        // The read failed: the process logs and exits.
        DpdkRecordsAfter(dpdkMetrics, payload, ports, port);
        return Fatal;
      }
      DpdkGrow(old(ch.items), dpdkMetrics, payload, port);
      port := port + 1;
    }
    DpdkRecordsAfter(dpdkMetrics, payload, ports, port);
    status := Done;
  }

  /** One pass of the port loop: a 64-byte read, its decoding, and the port's eight sends. */
  method ReadPort(ch: Channel<Metric>, conn: Conn, dpdkMetrics: map<DpdkCounter, Desc>, port: nat,
                  ghost payload: seq<byte>, ghost base: nat) returns (ok: bool)
    requires conn.Valid() && PortLabelled(dpdkMetrics)
    requires conn.pos == base + port * EthStatsWidth && payload == conn.input[base..]
    modifies ch, conn`pos
    ensures conn.Valid()
    ensures ok <==> port * EthStatsWidth + EthStatsWidth <= |payload|
    ensures ok ==> conn.pos == old(conn.pos) + EthStatsWidth
    ensures ok ==> ch.items == old(ch.items) + PortObservations(dpdkMetrics, port, DecodeEthStats(EthRecord(payload, port)))
    ensures !ok ==> conn.pos == old(conn.pos) && ch.items == old(ch.items)
  {
    var recvBuf := conn.Read(EthStatsWidth);
    if recvBuf.None? {
      // The read failed: the process logs and exits.
      return false;
    }
    SliceOfSlice(conn.input, base, port * EthStatsWidth, port * EthStatsWidth + EthStatsWidth);
    assert recvBuf.value == EthRecord(payload, port);
    var dpdkStats := DecodeEthStats(recvBuf.value);
    PushPort(ch, dpdkMetrics, port, dpdkStats);
    return true;
  }

  /** The eight sends of one port, in struct order, each labelled with the decimal port number. */
  method PushPort(ch: Channel<Metric>, dpdkMetrics: map<DpdkCounter, Desc>, port: nat, dpdkStats: EthStats)
    requires PortLabelled(dpdkMetrics)
    modifies ch
    ensures ch.items == old(ch.items) + PortObservations(dpdkMetrics, port, dpdkStats)
  {
    ch.Send(MustNewConstMetric(dpdkMetrics[Ipackets], CounterValue, Count(dpdkStats.ipackets), [Itoa(port)]));
    ch.Send(MustNewConstMetric(dpdkMetrics[Opackets], CounterValue, Count(dpdkStats.opackets), [Itoa(port)]));
    ch.Send(MustNewConstMetric(dpdkMetrics[Ibytes], CounterValue, Count(dpdkStats.ibytes), [Itoa(port)]));
    ch.Send(MustNewConstMetric(dpdkMetrics[Obytes], CounterValue, Count(dpdkStats.obytes), [Itoa(port)]));
    ch.Send(MustNewConstMetric(dpdkMetrics[Imissed], CounterValue, Count(dpdkStats.imissed), [Itoa(port)]));
    ch.Send(MustNewConstMetric(dpdkMetrics[Ierrors], CounterValue, Count(dpdkStats.ierrors), [Itoa(port)]));
    ch.Send(MustNewConstMetric(dpdkMetrics[Oerrors], CounterValue, Count(dpdkStats.oerrors), [Itoa(port)]));
    ch.Send(MustNewConstMetric(dpdkMetrics[RxNombuf], CounterValue, Count(dpdkStats.rxNombuf), [Itoa(port)]));
  }

  /** scrapeAppStats: cores = DataSize / 57, then per core a one-byte core id, 56 counter bytes and seven observations. */
  method ScrapeAppStats(ch: Channel<Metric>, conn: Conn, appMetrics: map<AppCounter, Desc>) returns (status: StepStatus)
    requires conn.Valid() && CoreLabelled(appMetrics)
    modifies ch, conn`pos, conn`sent
    ensures conn.Valid() && conn.sent == old(conn.sent) + [CmdAppStats]
    ensures var r := AppStep(appMetrics, conn.peer, old(conn.Unread()));
      status == r.status && ch.items == old(ch.items) + r.obs && conn.pos == old(conn.pos) + r.consumed
  {
    ghost var s := conn.Unread();
    var reply := conn.SendCmd(CmdAppStats);
    if reply.None? {
      // The application command failed: the process logs and exits.
      return Fatal;
    }
    ghost var w := conn.pos - old(conn.pos);
    SuffixOfSuffix(conn.input, old(conn.pos), w);
    var cores := reply.value / AppRecordWidth;
    status := ReadCores(ch, conn, appMetrics, cores, s[w..]);
  }

  /**
   * The core loop of scrapeAppStats. It ends as AppRecords says: Done after `cores` records,
   * Fatal at the first read that fails, after the earlier reads of that record took their bytes.
   */
  method ReadCores(ch: Channel<Metric>, conn: Conn, appMetrics: map<AppCounter, Desc>, cores: nat,
                  ghost payload: seq<byte>) returns (status: StepStatus)
    requires conn.Valid() && CoreLabelled(appMetrics) && payload == conn.Unread()
    modifies ch, conn`pos
    ensures conn.Valid()
    ensures var r := AppRecords(appMetrics, payload, cores);
      status == r.status && ch.items == old(ch.items) + r.obs && conn.pos == old(conn.pos) + r.consumed
  {
    ghost var base := conn.pos;
    var core := 0;
    while core < cores
      invariant core <= cores && core * AppRecordWidth <= |payload|
      invariant conn.Valid() && conn.pos == base + core * AppRecordWidth
      invariant ch.items == old(ch.items) + AppObservations(appMetrics, payload, core)
    {
      var ok := ReadCore(ch, conn, appMetrics, core, payload, base);
      if !ok {
        // The read failed: the process logs and exits.
        AppRecordsAfter(appMetrics, payload, cores, core);
        return Fatal;
      }
      AppGrow(old(ch.items), appMetrics, payload, core);
      core := core + 1;
    }
    AppRecordsAfter(appMetrics, payload, cores, core);
    status := Done;
  }

  /** One pass of the core loop: the core id byte, the counters, their decoding, and the core's seven sends. */
  method ReadCore(ch: Channel<Metric>, conn: Conn, appMetrics: map<AppCounter, Desc>, core: nat,
                  ghost payload: seq<byte>, ghost base: nat) returns (ok: bool)
    requires conn.Valid() && CoreLabelled(appMetrics)
    requires conn.pos == base + core * AppRecordWidth && payload == conn.input[base..]
    modifies ch, conn`pos
    ensures conn.Valid()
    ensures ok <==> core * AppRecordWidth + AppRecordWidth <= |payload|
    ensures ok ==> conn.pos == old(conn.pos) + AppRecordWidth
    ensures ok ==>
      ch.items == old(ch.items) + CoreObservations(appMetrics, payload[core * AppRecordWidth], DecodeAppStats(AppRecordStats(payload, core)))
    ensures !ok ==> conn.pos == old(conn.pos) + ReadsConsumed(|payload| - core * AppRecordWidth, AppReads)
    ensures !ok ==> ch.items == old(ch.items)
  {
    ghost var off := core * AppRecordWidth;
    var recvBuf := conn.Read(CoreIdWidth);
    if recvBuf.None? {
      // The read failed: the process logs and exits.
      return false;
    }
    var coreId := recvBuf.value[0];
    assert coreId == payload[off];
    recvBuf := conn.Read(AppStatsWidth);
    if recvBuf.None? {
      // The read failed: the process logs and exits.
      AppReadsConsumed(|payload| - off);
      return false;
    }
    SliceOfSlice(conn.input, base, off + CoreIdWidth, off + AppRecordWidth);
    assert recvBuf.value == AppRecordStats(payload, core);
    var appStats := DecodeAppStats(recvBuf.value);
    PushCore(ch, appMetrics, coreId, appStats);
    return true;
  }

  /** The seven sends of one core, in struct order, each labelled with the decimal core id. */
  method PushCore(ch: Channel<Metric>, appMetrics: map<AppCounter, Desc>, coreId: byte, appStats: AppStats)
    requires CoreLabelled(appMetrics)
    modifies ch
    ensures ch.items == old(ch.items) + CoreObservations(appMetrics, coreId, appStats)
  {
    ch.Send(MustNewConstMetric(appMetrics[DropNoRule], CounterValue, Count(appStats.dropNoRule), [Itoa(coreId)]));
    ch.Send(MustNewConstMetric(appMetrics[DropNatCondition], CounterValue, Count(appStats.dropNatCondition), [Itoa(coreId)]));
    ch.Send(MustNewConstMetric(appMetrics[DropBadL3Cksum], CounterValue, Count(appStats.dropBadL3Cksum), [Itoa(coreId)]));
    ch.Send(MustNewConstMetric(appMetrics[RxBadL4Cksum], CounterValue, Count(appStats.rxBadL4Cksum), [Itoa(coreId)]));
    ch.Send(MustNewConstMetric(appMetrics[DropUnknownIcmp], CounterValue, Count(appStats.dropUnknownIcmp), [Itoa(coreId)]));
    ch.Send(MustNewConstMetric(appMetrics[DropUnhandledEthertype], CounterValue, Count(appStats.dropUnhandledEthertype), [Itoa(coreId)]));
    ch.Send(MustNewConstMetric(appMetrics[DropTxNotsent], CounterValue, Count(appStats.dropTxNotsent), [Itoa(coreId)]));
  }

  /**
   * scrapeCPUStat: cores = DataSize / 17, then per core a one-byte core id, the busy cycles and
   * the frequency (eight bytes each, big-endian) and one usage gauge.
   */
  method ScrapeCPUStat(ch: Channel<Metric>, conn: Conn, cpuMetrics: Desc) returns (status: StepStatus)
    requires conn.Valid() && |cpuMetrics.variableLabels| == 1
    modifies ch, conn`pos, conn`sent
    ensures conn.Valid() && conn.sent == old(conn.sent) + [CmdCpuUsage]
    ensures var r := CpuStep(cpuMetrics, conn.peer, old(conn.Unread()));
      status == r.status && ch.items == old(ch.items) + r.obs && conn.pos == old(conn.pos) + r.consumed
  {
    ghost var s := conn.Unread();
    var reply := conn.SendCmd(CmdCpuUsage);
    if reply.None? {
      // The CPU command failed: the process logs and exits.
      return Fatal;
    }
    ghost var w := conn.pos - old(conn.pos);
    SuffixOfSuffix(conn.input, old(conn.pos), w);
    var cores := reply.value / CpuRecordWidth;
    status := ReadCpus(ch, conn, cpuMetrics, cores, s[w..]);
  }

  /**
   * The core loop of scrapeCPUStat. It ends as CpuRecords says: Done after `cores` records,
   * Fatal at the first read that fails, after the earlier reads of that record took their bytes.
   */
  method ReadCpus(ch: Channel<Metric>, conn: Conn, cpuMetrics: Desc, cores: nat,
                  ghost payload: seq<byte>) returns (status: StepStatus)
    requires conn.Valid() && |cpuMetrics.variableLabels| == 1 && payload == conn.Unread()
    modifies ch, conn`pos
    ensures conn.Valid()
    ensures var r := CpuRecords(cpuMetrics, payload, cores);
      status == r.status && ch.items == old(ch.items) + r.obs && conn.pos == old(conn.pos) + r.consumed
  {
    ghost var base := conn.pos;
    var c := 0;
    while c < cores
      invariant c <= cores && c * CpuRecordWidth <= |payload|
      invariant conn.Valid() && conn.pos == base + c * CpuRecordWidth
      invariant ch.items == old(ch.items) + CpuObservations(cpuMetrics, payload, c)
    {
      var ok := ReadCpu(ch, conn, cpuMetrics, c, payload, base);
      if !ok {
        // The read failed: the process logs and exits.
        CpuRecordsAfter(cpuMetrics, payload, cores, c);
        return Fatal;
      }
      CpuGrow(old(ch.items), cpuMetrics, payload, c);
      c := c + 1;
    }
    CpuRecordsAfter(cpuMetrics, payload, cores, c);
    status := Done;
  }

  /** One pass of the CPU loop: the core id byte, the cycles, the frequency, and the core's gauge. */
  method ReadCpu(ch: Channel<Metric>, conn: Conn, cpuMetrics: Desc, c: nat,
                 ghost payload: seq<byte>, ghost base: nat) returns (ok: bool)
    requires conn.Valid() && |cpuMetrics.variableLabels| == 1
    requires conn.pos == base + c * CpuRecordWidth && payload == conn.input[base..]
    modifies ch, conn`pos
    ensures conn.Valid()
    ensures ok <==> c * CpuRecordWidth + CpuRecordWidth <= |payload|
    ensures ok ==> conn.pos == old(conn.pos) + CpuRecordWidth
    ensures ok ==> ch.items == old(ch.items) + [CpuRecordObservation(cpuMetrics, payload, c)]
    ensures !ok ==> conn.pos == old(conn.pos) + ReadsConsumed(|payload| - c * CpuRecordWidth, CpuReads)
    ensures !ok ==> ch.items == old(ch.items)
  {
    ghost var off := c * CpuRecordWidth;
    var recvBuf := conn.Read(CoreIdWidth);
    if recvBuf.None? {
      // The read failed: the process logs and exits.
      CpuReadsConsumed(|payload| - off);
      return false;
    }
    var coreId := recvBuf.value[0];
    assert coreId == payload[off];
    recvBuf := conn.Read(U64Width);
    if recvBuf.None? {
      // The read failed: the process logs and exits.
      CpuReadsConsumed(|payload| - off);
      return false;
    }
    SliceOfSlice(conn.input, base, off + 1, off + 9);
    var cycles := BeU64(recvBuf.value);
    recvBuf := conn.Read(U64Width);
    if recvBuf.None? {
      // The read failed: the process logs and exits.
      CpuReadsConsumed(|payload| - off);
      return false;
    }
    SliceOfSlice(conn.input, base, off + 9, off + 17);
    var freq := BeU64(recvBuf.value);
    ch.Send(MustNewConstMetric(cpuMetrics, GaugeValue, Ratio(cycles, freq), [Itoa(coreId)]));
    return true;
  }

  /**
   * scrape: a nil connection stands for a failed server.NatashaServerDial. The four steps
   * run in order; a step that fails has called log.Fatal, so scrape never returns.
   */
  method Scrape(ch: Channel<Metric>, conn: Conn?, cat: Catalogs, ghost d: Dial) returns (outcome: Outcome)
    requires CatalogsOk(cat)
    requires conn != null ==> conn.Valid() && d == Dialed(conn.peer, conn.Unread())
    requires conn == null ==> d == DialFailed
    modifies ch, conn
    ensures conn != null ==> conn.Valid()
    ensures var r := ScrapeRun(cat, d);
      outcome == r.outcome && ch.items == old(ch.items) + r.obs &&
      (conn != null ==> conn.sent == old(conn.sent) + r.sent && conn.closed == (old(conn.closed) || outcome == Up))
    ensures conn != null ==> conn.pos == old(conn.pos) + RunSteps(cat, ScrapeOrder, conn.peer, old(conn.Unread())).consumed
  {
    if conn == null {
      return Down;
    }
    var status := RunCommands(ch, conn, cat, ScrapeOrder);
    if status == Done {
      conn.Close();
      outcome := Up;
    } else {
      outcome := Exit;
    }
  }

  /** The steps of `cmds` in turn on an open connection, each one only when the one before it ran to its end. */
  method RunCommands(ch: Channel<Metric>, conn: Conn, cat: Catalogs, cmds: seq<Command>) returns (status: StepStatus)
    requires CatalogsOk(cat) && conn.Valid()
    modifies ch, conn`pos, conn`sent
    ensures conn.Valid()
    ensures var r := RunSteps(cat, cmds, conn.peer, old(conn.Unread()));
      status == r.status && ch.items == old(ch.items) + r.obs && conn.sent == old(conn.sent) + r.sent &&
      conn.pos == old(conn.pos) + r.consumed
    decreases |cmds|
  {
    if cmds == [] {
      return Done;
    }
    ghost var s0 := conn.Unread();
    ghost var items0 := ch.items;
    ghost var sent0 := conn.sent;
    status := RunCommand(ch, conn, cat, cmds[0]);
    ghost var h := Step(cat, cmds[0], conn.peer, s0);
    if status == Fatal {
      RunStepsFatal(cat, cmds, conn.peer, s0);
      return;
    }
    assert conn.Unread() == s0[h.consumed..];
    status := RunCommands(ch, conn, cat, cmds[1..]);
    ghost var t := RunSteps(cat, cmds[1..], conn.peer, s0[h.consumed..]);
    RunStepsDone(cat, cmds, conn.peer, s0);
    AppendAssoc(items0, h.obs, t.obs);
    AppendAssoc(sent0, [cmds[0]], t.sent);
  }

  /** The step that sends `cmd`. */
  method RunCommand(ch: Channel<Metric>, conn: Conn, cat: Catalogs, cmd: Command) returns (status: StepStatus)
    requires CatalogsOk(cat) && conn.Valid()
    modifies ch, conn`pos, conn`sent
    ensures conn.Valid() && conn.sent == old(conn.sent) + [cmd]
    ensures var r := Step(cat, cmd, conn.peer, old(conn.Unread()));
      status == r.status && ch.items == old(ch.items) + r.obs && conn.pos == old(conn.pos) + r.consumed
  {
    match cmd
    case CmdVersion => status := ScrapeVersion(ch, conn);
    case CmdDpdkStats => status := ScrapeDpdkStats(ch, conn, cat.dpdk);
    case CmdAppStats => status := ScrapeAppStats(ch, conn, cat.app);
    case CmdCpuUsage => status := ScrapeCPUStat(ch, conn, cat.cpu);
  }

  /** A range over a map that sends each value: every value once, in an order Go leaves unspecified (the ghost result). */
  method SendValues<K(!new), V>(ch: Channel<V>, values: map<K, V>) returns (ghost order: seq<K>)
    modifies ch
    ensures Enumerates(order, values.Keys)
    ensures ch.items == old(ch.items) + Pick(values, order)
  {
    order := [];
    var left := values.Keys;
    while left != {}
      invariant forall k :: k in values.Keys <==> k in left || k in order
      invariant forall k :: k in left ==> k !in order
      invariant forall i, j :: 0 <= i < j < |order| ==> order[i] != order[j]
      invariant ch.items == old(ch.items) + Pick(values, order)
      decreases |left|
    {
      var k :| k in left;
      ch.Send(values[k]);
      PickSnoc(values, order, k);
      AppendAssoc(old(ch.items), Pick(values, order), [values[k]]);
      order := order + [k];
      left := left - {k};
    }
  }

  /** The Exporter struct; the mutex and the unused URI are not modelled. */
  class Exporter {
    var totalScrapes: nat
    const natashaStatus: Desc
    const natashaCollectorMetrics: Collector
    const appStatsMetrics: map<AppCounter, Desc>
    const dpdkStatsMetrics: map<DpdkCounter, Desc>

    /**
     * What Collect relies on: the build-info descriptor of NewNatashaCollectorMetrics, and catalogs
     * the steps can look every counter up in. That the catalogs are the package's own is stated
     * by the constructor: both fields are constants.
     */
    ghost predicate Valid()
    {
      natashaCollectorMetrics.buildInfo == BuildInfoDesc() && CatalogsOk(StepCatalogs())
    }

    /**
     * The catalogs the steps publish under. The steps call the package's two catalog getters
     * themselves; NewExporter stored the same two maps.
     */
    function StepCatalogs(): Catalogs
    {
      Catalogs(dpdkStatsMetrics, appStatsMetrics, GetCPUUsageMetrics())
    }

    /** NewExporter, with the build strings of package info as parameters; its timeout is never used. */
    constructor (version: string, revision: string, buildDate: string, goVersion: string)
      ensures Valid() && totalScrapes == 0 && natashaStatus == NatashaStatusDesc()
      ensures appStatsMetrics == GetAppStatsMetrics() && dpdkStatsMetrics == GetDpdkStatsMetrics()
      ensures natashaCollectorMetrics == NewNatashaCollectorMetrics(version, revision, buildDate, goVersion)
      ensures StepCatalogs() == PackageCatalogs()
    {
      totalScrapes := 0;
      natashaStatus := NatashaStatusDesc();
      natashaCollectorMetrics := NewNatashaCollectorMetrics(version, revision, buildDate, goVersion);
      appStatsMetrics := GetAppStatsMetrics();
      dpdkStatsMetrics := GetDpdkStatsMetrics();
    }

    /**
     * Exporter.Describe. Go ranges over the two maps in an unspecified order; the ghost
     * results are the orders this call took.
     */
    method Describe(ch: Channel<Desc>) returns (ghost appOrder: seq<AppCounter>, ghost dpdkOrder: seq<DpdkCounter>)
      modifies ch
      ensures Enumerates(appOrder, appStatsMetrics.Keys) && Enumerates(dpdkOrder, dpdkStatsMetrics.Keys)
      ensures ch.items == old(ch.items) +
        Described(natashaStatus, natashaCollectorMetrics, appStatsMetrics, dpdkStatsMetrics, appOrder, dpdkOrder)
    {
      ch.Send(TotalScrapesDesc());
      ch.Send(natashaStatus);
      ch.Send(LastScrapeStatus());
      ch.Send(natashaCollectorMetrics.buildInfo);
      ghost var fixed := FixedDescs(natashaStatus, natashaCollectorMetrics);
      assert ch.items == old(ch.items) + fixed;
      appOrder := SendValues(ch, appStatsMetrics);
      AppendAssoc(old(ch.items), fixed, Pick(appStatsMetrics, appOrder));
      dpdkOrder := SendValues(ch, dpdkStatsMetrics);
      AppendAssoc(old(ch.items), fixed + Pick(appStatsMetrics, appOrder), Pick(dpdkStatsMetrics, dpdkOrder));
    }

    /**
     * Exporter.Collect: count the scrape, scrape, then send the three own metrics. When a
     * step has called log.Fatal the process is gone and nothing follows the scrape.
     */
    method Collect(ch: Channel<Metric>, conn: Conn?, ghost d: Dial) returns (outcome: Outcome)
      requires Valid()
      requires conn != null ==> conn.Valid() && d == Dialed(conn.peer, conn.Unread())
      requires conn == null ==> d == DialFailed
      modifies this`totalScrapes, ch, conn
      ensures conn != null ==> conn.Valid() && conn.sent == old(conn.sent) + ScrapeRun(StepCatalogs(), d).sent
      ensures conn != null ==> conn.closed == (old(conn.closed) || outcome == Up)
      ensures conn != null ==> conn.pos == old(conn.pos) + RunSteps(StepCatalogs(), ScrapeOrder, conn.peer, old(conn.Unread())).consumed
      ensures var r := CollectRun(old(totalScrapes), natashaCollectorMetrics, StepCatalogs(), d);
        outcome == r.outcome && totalScrapes == r.totalScrapes && ch.items == old(ch.items) + r.obs
    {
      totalScrapes := totalScrapes + 1;
      outcome := Scrape(ch, conn, StepCatalogs(), d);
      if outcome == Exit {
        return;
      }
      SendSelfMetrics(ch, StatusValue(outcome));
      AppendAssoc(old(ch.items), ScrapeRun(StepCatalogs(), d).obs, SelfMetrics(totalScrapes, StatusValue(outcome), natashaCollectorMetrics));
    }

    /** The tail of Collect: the scrape counter, the scrape status and the build information, in that order. */
    method SendSelfMetrics(ch: Channel<Metric>, status: nat)
      requires Valid()
      modifies ch
      ensures ch.items == old(ch.items) + SelfMetrics(totalScrapes, status, natashaCollectorMetrics)
    {
      ch.Send(TotalScrapesMetric(totalScrapes));
      ch.Send(MustNewConstMetric(LastScrapeStatus(), CounterValue, Count(status), []));
      var c := natashaCollectorMetrics;
      ch.Send(MustNewConstMetric(c.buildInfo, GaugeValue, Count(1), [c.version, c.revision, c.buildDate, c.goVersion]));
    }
  }
}
