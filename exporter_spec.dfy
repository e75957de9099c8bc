/**
 * What one scrape reads from the NAT process and which observations it pushes,
 * as functions of the bytes the peer sends. The methods of module Exporter are
 * proved to behave as these functions say.
 */
module ExporterSpec {
  import opened Wrappers
  import opened Wire
  import opened Decimal
  import opened Seqs
  import opened Prom
  import opened Metrics
  import opened Session

  // Record widths. The structs headers.NatashaEthStats and headers.NatashaAppStats are
  // not part of this model: they are taken to be 8 and 7 uint64 fields, in the order the
  // exporter publishes them, with no padding.

  /** The size of the DPDK port statistics struct: eight uint64 counters. */
  const EthStatsWidth: nat := 64
  /** The size of the application statistics struct: seven uint64 counters. */
  const AppStatsWidth: nat := 56
  /** unsafe.Sizeof of a uint8 core id. */
  const CoreIdWidth: nat := 1
  /** One application record: the core id byte, then the counters (CoreIdWidth + AppStatsWidth). */
  const AppRecordWidth: nat := 57
  /** One CPU record: the core id byte, the busy cycles and the frequency (CoreIdWidth + 2 * U64Width). */
  const CpuRecordWidth: nat := 17

  /** The number of whole 64-byte records in `len` bytes. */
  lemma EthRecordCount(len: nat, k: nat)
    ensures k * EthStatsWidth <= len <==> k <= len / EthStatsWidth
    ensures k * EthStatsWidth <= len < k * EthStatsWidth + EthStatsWidth ==> len / EthStatsWidth == k
  {
  }

  /** The number of whole 57-byte records in `len` bytes. */
  lemma AppRecordCount(len: nat, k: nat)
    ensures k * AppRecordWidth <= len <==> k <= len / AppRecordWidth
    ensures k * AppRecordWidth <= len < k * AppRecordWidth + AppRecordWidth ==> len / AppRecordWidth == k
  {
  }

  /** The number of whole 17-byte records in `len` bytes. */
  lemma CpuRecordCount(len: nat, k: nat)
    ensures k * CpuRecordWidth <= len <==> k <= len / CpuRecordWidth
    ensures k * CpuRecordWidth <= len < k * CpuRecordWidth + CpuRecordWidth ==> len / CpuRecordWidth == k
  {
  }

  /** The DPDK counters in struct order, which is also the order they are pushed in. */
  const DpdkFields: seq<DpdkCounter> := [Ipackets, Opackets, Ibytes, Obytes, Imissed, Ierrors, Oerrors, RxNombuf]

  /** The application counters in struct order, which is also the order they are pushed in. */
  const AppFields: seq<AppCounter> :=
    [DropNoRule, DropNatCondition, DropBadL3Cksum, RxBadL4Cksum, DropUnknownIcmp, DropUnhandledEthertype, DropTxNotsent]

  /** headers.NatashaEthStats. */
  datatype EthStats = EthStats(ipackets: nat, opackets: nat, ibytes: nat, obytes: nat,
                               imissed: nat, ierrors: nat, oerrors: nat, rxNombuf: nat)

  /** headers.NatashaAppStats. */
  datatype AppStats = AppStats(dropNoRule: nat, dropNatCondition: nat, dropBadL3Cksum: nat, rxBadL4Cksum: nat,
                               dropUnknownIcmp: nat, dropUnhandledEthertype: nat, dropTxNotsent: nat)

  /** The uint64 field number j of a record, big-endian. */
  function U64Field(b: seq<byte>, j: nat): (v: nat)
    requires U64Width * j + U64Width <= |b|
    ensures v < U64Limit
  {
    BeU64(b[U64Width * j..U64Width * j + U64Width])
  }

  /** The big-endian decoding of a port record into the DPDK statistics struct, field by field. */
  function DecodeEthStats(b: seq<byte>): (s: EthStats)
    requires |b| == EthStatsWidth
    ensures forall j {:trigger EthStatsField(s, DpdkFields[j])} :: 0 <= j < |DpdkFields| ==> EthStatsField(s, DpdkFields[j]) == U64Field(b, j)
  {
    EthStats(U64Field(b, 0), U64Field(b, 1), U64Field(b, 2), U64Field(b, 3),
             U64Field(b, 4), U64Field(b, 5), U64Field(b, 6), U64Field(b, 7))
  }

  /** The big-endian decoding of a counter buffer into the application statistics struct, field by field. */
  function DecodeAppStats(b: seq<byte>): (s: AppStats)
    requires |b| == AppStatsWidth
    ensures forall j {:trigger AppStatsField(s, AppFields[j])} :: 0 <= j < |AppFields| ==> AppStatsField(s, AppFields[j]) == U64Field(b, j)
  {
    AppStats(U64Field(b, 0), U64Field(b, 1), U64Field(b, 2), U64Field(b, 3),
             U64Field(b, 4), U64Field(b, 5), U64Field(b, 6))
  }

  function EthStatsField(s: EthStats, c: DpdkCounter): nat
  {
    match c
    case Ipackets => s.ipackets
    case Opackets => s.opackets
    case Ibytes => s.ibytes
    case Obytes => s.obytes
    case Imissed => s.imissed
    case Ierrors => s.ierrors
    case Oerrors => s.oerrors
    case RxNombuf => s.rxNombuf
  }

  function AppStatsField(s: AppStats, c: AppCounter): nat
  {
    match c
    case DropNoRule => s.dropNoRule
    case DropNatCondition => s.dropNatCondition
    case DropBadL3Cksum => s.dropBadL3Cksum
    case RxBadL4Cksum => s.rxBadL4Cksum
    case DropUnknownIcmp => s.dropUnknownIcmp
    case DropUnhandledEthertype => s.dropUnhandledEthertype
    case DropTxNotsent => s.dropTxNotsent
  }


  // ---------------------------------------------------------------
  // Observations of one record

  /** A DPDK catalog the step can look every counter up in: each entry takes one label value. */
  ghost predicate PortLabelled(catalog: map<DpdkCounter, Desc>)
  {
    forall c :: c in catalog && |catalog[c].variableLabels| == 1
  }

  /** An application catalog the step can look every counter up in: each entry takes one label value. */
  ghost predicate CoreLabelled(catalog: map<AppCounter, Desc>)
  {
    forall c :: c in catalog && |catalog[c].variableLabels| == 1
  }

  /** One DPDK counter of one port, labelled with the decimal port number. */
  function DpdkObservation(catalog: map<DpdkCounter, Desc>, port: nat, c: DpdkCounter, value: nat): (m: Metric)
    requires PortLabelled(catalog)
    ensures m.desc == catalog[c] && m.valueType == CounterValue && m.value == Count(value)
    ensures |m.labelValues| == |m.desc.variableLabels| == 1
  {
    MustNewConstMetric(catalog[c], CounterValue, Count(value), [Itoa(port)])
  }

  /** One application counter of one core, labelled with the core id read from the stream. */
  function AppObservation(catalog: map<AppCounter, Desc>, coreId: byte, c: AppCounter, value: nat): (m: Metric)
    requires CoreLabelled(catalog)
    ensures m.desc == catalog[c] && m.valueType == CounterValue && m.value == Count(value)
    ensures |m.labelValues| == |m.desc.variableLabels| == 1
  {
    MustNewConstMetric(catalog[c], CounterValue, Count(value), [Itoa(coreId)])
  }

  /** The eight observations of one port, in the order they are pushed. */
  function PortObservations(catalog: map<DpdkCounter, Desc>, port: nat, s: EthStats): (ms: seq<Metric>)
    requires PortLabelled(catalog)
    ensures |ms| == |DpdkFields|
  {
    [DpdkObservation(catalog, port, Ipackets, s.ipackets),
     DpdkObservation(catalog, port, Opackets, s.opackets),
     DpdkObservation(catalog, port, Ibytes, s.ibytes),
     DpdkObservation(catalog, port, Obytes, s.obytes),
     DpdkObservation(catalog, port, Imissed, s.imissed),
     DpdkObservation(catalog, port, Ierrors, s.ierrors),
     DpdkObservation(catalog, port, Oerrors, s.oerrors),
     DpdkObservation(catalog, port, RxNombuf, s.rxNombuf)]
  }

  /** The seven observations of one core, in the order they are pushed. */
  function CoreObservations(catalog: map<AppCounter, Desc>, coreId: byte, s: AppStats): (ms: seq<Metric>)
    requires CoreLabelled(catalog)
    ensures |ms| == |AppFields|
  {
    [AppObservation(catalog, coreId, DropNoRule, s.dropNoRule),
     AppObservation(catalog, coreId, DropNatCondition, s.dropNatCondition),
     AppObservation(catalog, coreId, DropBadL3Cksum, s.dropBadL3Cksum),
     AppObservation(catalog, coreId, RxBadL4Cksum, s.rxBadL4Cksum),
     AppObservation(catalog, coreId, DropUnknownIcmp, s.dropUnknownIcmp),
     AppObservation(catalog, coreId, DropUnhandledEthertype, s.dropUnhandledEthertype),
     AppObservation(catalog, coreId, DropTxNotsent, s.dropTxNotsent)]
  }

  /** The usage gauge of one core: the raw cycles and frequency, labelled with the core id. */
  function CpuObservation(cpuDesc: Desc, coreId: byte, cycles: nat, freq: nat): (m: Metric)
    requires |cpuDesc.variableLabels| == 1
    ensures m.desc == cpuDesc && m.valueType == GaugeValue && m.value == Ratio(cycles, freq)
    ensures |m.labelValues| == |m.desc.variableLabels| == 1
  {
    MustNewConstMetric(cpuDesc, GaugeValue, Ratio(cycles, freq), [Itoa(coreId)])
  }

  /** The label of an observation is the decimal text of its port or core id: it reads back as that number. */
  lemma ObservationLabels(dpdk: map<DpdkCounter, Desc>, app: map<AppCounter, Desc>, cpuDesc: Desc,
                          port: nat, coreId: byte, c: DpdkCounter, a: AppCounter, value: nat, cycles: nat, freq: nat)
    requires PortLabelled(dpdk) && CoreLabelled(app) && |cpuDesc.variableLabels| == 1
    ensures var l := DpdkObservation(dpdk, port, c, value).labelValues[0];
      (forall i :: 0 <= i < |l| ==> IsDigit(l[i])) && Atoi(l) == port
    ensures var l := AppObservation(app, coreId, a, value).labelValues[0];
      (forall i :: 0 <= i < |l| ==> IsDigit(l[i])) && Atoi(l) == coreId
    ensures var l := CpuObservation(cpuDesc, coreId, cycles, freq).labelValues[0];
      (forall i :: 0 <= i < |l| ==> IsDigit(l[i])) && Atoi(l) == coreId
  {
    AtoiItoa(port);
    AtoiItoa(coreId);
  }

  /** Observation j of a port is counter j of the struct. */
  lemma PortObservationsAt(catalog: map<DpdkCounter, Desc>, port: nat, s: EthStats, j: nat)
    requires PortLabelled(catalog) && j < |DpdkFields|
    ensures PortObservations(catalog, port, s)[j] == DpdkObservation(catalog, port, DpdkFields[j], EthStatsField(s, DpdkFields[j]))
  {
  }

  /** Observation j of a core is counter j of the struct. */
  lemma CoreObservationsAt(catalog: map<AppCounter, Desc>, coreId: byte, s: AppStats, j: nat)
    requires CoreLabelled(catalog) && j < |AppFields|
    ensures CoreObservations(catalog, coreId, s)[j] == AppObservation(catalog, coreId, AppFields[j], AppStatsField(s, AppFields[j]))
  {
  }

  // ---------------------------------------------------------------
  // Observations of a run of records

  /** DPDK record p of `payload`. */
  function EthRecord(payload: seq<byte>, p: nat): (b: seq<byte>)
    requires p * EthStatsWidth + EthStatsWidth <= |payload|
    ensures |b| == EthStatsWidth
  {
    payload[p * EthStatsWidth..p * EthStatsWidth + EthStatsWidth]
  }

  /** The counters of application record c of `payload`, after its core id byte. */
  function AppRecordStats(payload: seq<byte>, c: nat): (b: seq<byte>)
    requires c * AppRecordWidth + AppRecordWidth <= |payload|
    ensures |b| == AppStatsWidth
  {
    payload[c * AppRecordWidth + CoreIdWidth..c * AppRecordWidth + AppRecordWidth]
  }

  /** The observations of DPDK record p: port p is the p-th record. */
  function PortBlock(catalog: map<DpdkCounter, Desc>, payload: seq<byte>, p: nat): (ms: seq<Metric>)
    requires PortLabelled(catalog) && p * EthStatsWidth + EthStatsWidth <= |payload|
  {
    PortObservations(catalog, p, DecodeEthStats(EthRecord(payload, p)))
  }

  /** The blocks of the first `ports` DPDK records of `payload`, in record order. */
  function PortBlocks(catalog: map<DpdkCounter, Desc>, payload: seq<byte>, ports: nat): (bs: seq<seq<Metric>>)
    requires PortLabelled(catalog) && ports * EthStatsWidth <= |payload|
    ensures |bs| == ports
  {
    seq(ports, p requires 0 <= p < ports => PortBlock(catalog, payload, p))
  }

  /** The observations of the first `ports` DPDK records of `payload`, one block per record. */
  function DpdkObservations(catalog: map<DpdkCounter, Desc>, payload: seq<byte>, ports: nat): (ms: seq<Metric>)
    requires PortLabelled(catalog) && ports * EthStatsWidth <= |payload|
    ensures |ms| == 8 * ports
  {
    ConcatLength(PortBlocks(catalog, payload, ports), 8);
    Concat(PortBlocks(catalog, payload, ports))
  }

  /** The observations of application record c, labelled by its own first byte. */
  function CoreBlock(catalog: map<AppCounter, Desc>, payload: seq<byte>, c: nat): (ms: seq<Metric>)
    requires CoreLabelled(catalog) && c * AppRecordWidth + AppRecordWidth <= |payload|
  {
    CoreObservations(catalog, payload[c * AppRecordWidth], DecodeAppStats(AppRecordStats(payload, c)))
  }

  /** The blocks of the first `cores` application records of `payload`, in record order. */
  function CoreBlocks(catalog: map<AppCounter, Desc>, payload: seq<byte>, cores: nat): (bs: seq<seq<Metric>>)
    requires CoreLabelled(catalog) && cores * AppRecordWidth <= |payload|
    ensures |bs| == cores
  {
    seq(cores, c requires 0 <= c < cores => CoreBlock(catalog, payload, c))
  }

  /** The observations of the first `cores` application records of `payload`, one block per record. */
  function AppObservations(catalog: map<AppCounter, Desc>, payload: seq<byte>, cores: nat): (ms: seq<Metric>)
    requires CoreLabelled(catalog) && cores * AppRecordWidth <= |payload|
    ensures |ms| == 7 * cores
  {
    ConcatLength(CoreBlocks(catalog, payload, cores), 7);
    Concat(CoreBlocks(catalog, payload, cores))
  }

  /** The gauge of CPU record c: core id, then cycles, then frequency. */
  function CpuRecordObservation(cpuDesc: Desc, payload: seq<byte>, c: nat): (m: Metric)
    requires |cpuDesc.variableLabels| == 1 && c * CpuRecordWidth + CpuRecordWidth <= |payload|
    ensures m.desc == cpuDesc && m.valueType == GaugeValue && |m.labelValues| == 1
    ensures m.value.Ratio? && m.value.num < U64Limit && m.value.den < U64Limit
  {
    var off := c * CpuRecordWidth;
    CpuObservation(cpuDesc, payload[off], BeU64(payload[off + 1..off + 9]), BeU64(payload[off + 9..off + 17]))
  }

  /** The observations of the first `cores` CPU records of `payload`, one per record. */
  function CpuObservations(cpuDesc: Desc, payload: seq<byte>, cores: nat): (ms: seq<Metric>)
    requires |cpuDesc.variableLabels| == 1 && cores * CpuRecordWidth <= |payload|
    ensures |ms| == cores
  {
    if cores == 0 then []
    else CpuObservations(cpuDesc, payload, cores - 1) + [CpuRecordObservation(cpuDesc, payload, cores - 1)]
  }

  // ---------------------------------------------------------------
  // The four scrape steps

  /** Whether a step ran to its end, or hit an error and called log.Fatal, which ends the process. */
  datatype StepStatus = Done | Fatal

  /** What one step pushed, how many bytes it consumed from the stream, and how it ended. */
  datatype StepResult = StepResult(obs: seq<Metric>, consumed: nat, status: StepStatus)

  /** The buffer sizes one DPDK record is read with. */
  const DpdkReads: seq<nat> := [EthStatsWidth]
  /** The buffer sizes one application record is read with: the core id, then the counters. */
  const AppReads: seq<nat> := [CoreIdWidth, AppStatsWidth]
  /** The buffer sizes one CPU record is read with: the core id, the cycles, the frequency. */
  const CpuReads: seq<nat> := [CoreIdWidth, U64Width, U64Width]

  /**
   * The bytes a sequence of full-buffer reads consumes from `avail` bytes: each read
   * that fits takes its buffer, and the first that does not fit fails and stops.
   */
  function ReadsConsumed(avail: nat, widths: seq<nat>): (n: nat)
    ensures n <= avail
    decreases |widths|
  {
    if widths == [] || widths[0] > avail then 0 else widths[0] + ReadsConsumed(avail - widths[0], widths[1..])
  }

  /**
   * The record loop of scrapeDpdkStats over a reply's payload: `ports` records of 64 bytes,
   * stopping at the first one the payload cannot fill. Consumption counts from the payload's start.
   */
  function DpdkRecords(catalog: map<DpdkCounter, Desc>, payload: seq<byte>, ports: nat): (r: StepResult)
    requires PortLabelled(catalog)
    ensures r.consumed <= |payload|
  {
    var full := |payload| / EthStatsWidth;
    if ports <= full then
      StepResult(DpdkObservations(catalog, payload, ports), ports * EthStatsWidth, Done)
    else
      StepResult(DpdkObservations(catalog, payload, full),
                 full * EthStatsWidth + ReadsConsumed(|payload| % EthStatsWidth, DpdkReads), Fatal)
  }

  /** The record loop of scrapeAppStats over a reply's payload: `cores` records of 57 bytes. */
  function AppRecords(catalog: map<AppCounter, Desc>, payload: seq<byte>, cores: nat): (r: StepResult)
    requires CoreLabelled(catalog)
    ensures r.consumed <= |payload|
  {
    var full := |payload| / AppRecordWidth;
    if cores <= full then
      StepResult(AppObservations(catalog, payload, cores), cores * AppRecordWidth, Done)
    else
      StepResult(AppObservations(catalog, payload, full),
                 full * AppRecordWidth + ReadsConsumed(|payload| % AppRecordWidth, AppReads), Fatal)
  }

  /** The record loop of scrapeCPUStat over a reply's payload: `cores` records of 17 bytes. */
  function CpuRecords(cpuDesc: Desc, payload: seq<byte>, cores: nat): (r: StepResult)
    requires |cpuDesc.variableLabels| == 1
    ensures r.consumed <= |payload|
  {
    var full := |payload| / CpuRecordWidth;
    if cores <= full then
      StepResult(CpuObservations(cpuDesc, payload, cores), cores * CpuRecordWidth, Done)
    else
      StepResult(CpuObservations(cpuDesc, payload, full),
                 full * CpuRecordWidth + ReadsConsumed(|payload| % CpuRecordWidth, CpuReads), Fatal)
  }

  /** scrapeVersion: the payload is read and dropped. */
  function VersionStep(peer: Peer, s: seq<byte>): (r: StepResult)
    ensures r.consumed <= |s|
  {
    match SendCmdResult(peer, CmdVersion, s)
    case None => StepResult([], 0, Fatal)
    case Some((dataSize, w)) =>
      if dataSize <= |s| - w then StepResult([], w + dataSize, Done) else StepResult([], w, Fatal)
  }

  /** scrapeDpdkStats: DataSize / 64 records, one per port; a short stream stops at the first record it cannot fill. */
  function DpdkStep(catalog: map<DpdkCounter, Desc>, peer: Peer, s: seq<byte>): (r: StepResult)
    requires PortLabelled(catalog)
    ensures r.consumed <= |s|
  {
    match SendCmdResult(peer, CmdDpdkStats, s)
    case None => StepResult([], 0, Fatal)
    case Some((dataSize, w)) =>
      var r := DpdkRecords(catalog, s[w..], dataSize / EthStatsWidth);
      StepResult(r.obs, w + r.consumed, r.status)
  }

  /** scrapeAppStats: DataSize / 57 records of a core id byte and 56 counter bytes. */
  function AppStep(catalog: map<AppCounter, Desc>, peer: Peer, s: seq<byte>): (r: StepResult)
    requires CoreLabelled(catalog)
    ensures r.consumed <= |s|
  {
    match SendCmdResult(peer, CmdAppStats, s)
    case None => StepResult([], 0, Fatal)
    case Some((dataSize, w)) =>
      var r := AppRecords(catalog, s[w..], dataSize / AppRecordWidth);
      StepResult(r.obs, w + r.consumed, r.status)
  }

  /** scrapeCPUStat: DataSize / 17 records of a core id byte, the busy cycles and the frequency. */
  function CpuStep(cpuDesc: Desc, peer: Peer, s: seq<byte>): (r: StepResult)
    requires |cpuDesc.variableLabels| == 1
    ensures r.consumed <= |s|
  {
    match SendCmdResult(peer, CmdCpuUsage, s)
    case None => StepResult([], 0, Fatal)
    case Some((dataSize, w)) =>
      var r := CpuRecords(cpuDesc, s[w..], dataSize / CpuRecordWidth);
      StepResult(r.obs, w + r.consumed, r.status)
  }

  // ---------------------------------------------------------------
  // The two ways a record loop ends, as the loop methods reach them

  /** The DPDK loop once `port` records have been read and either all were or the next read failed. */
  lemma DpdkRecordsAfter(catalog: map<DpdkCounter, Desc>, payload: seq<byte>, ports: nat, port: nat)
    requires PortLabelled(catalog)
    requires port <= ports && port * EthStatsWidth <= |payload|
    requires port < ports ==> |payload| < port * EthStatsWidth + EthStatsWidth
    ensures DpdkRecords(catalog, payload, ports) ==
      StepResult(DpdkObservations(catalog, payload, port), port * EthStatsWidth, if port == ports then Done else Fatal)
  {
    EthRecordCount(|payload|, port);
    if port < ports {
      assert |payload| / EthStatsWidth == port;
      assert ReadsConsumed(|payload| % EthStatsWidth, DpdkReads) == 0;
    }
  }

  /**
   * The application loop once `core` records have been read in full and either all were or a
   * read of the next one failed, after taking what it could.
   */
  lemma AppRecordsAfter(catalog: map<AppCounter, Desc>, payload: seq<byte>, cores: nat, core: nat)
    requires CoreLabelled(catalog)
    requires core <= cores && core * AppRecordWidth <= |payload|
    requires core < cores ==> |payload| < core * AppRecordWidth + AppRecordWidth
    ensures AppRecords(catalog, payload, cores) ==
      StepResult(AppObservations(catalog, payload, core),
                 core * AppRecordWidth + (if core < cores then ReadsConsumed(|payload| - core * AppRecordWidth, AppReads) else 0),
                 if core < cores then Fatal else Done)
  {
    AppRecordCount(|payload|, core);
    if core < cores {
      assert |payload| / AppRecordWidth == core;
      assert |payload| % AppRecordWidth == |payload| - core * AppRecordWidth;
    }
  }

  /** The CPU loop once `core` records have been read in full and either all were or a read of the next one failed. */
  lemma CpuRecordsAfter(cpuDesc: Desc, payload: seq<byte>, cores: nat, core: nat)
    requires |cpuDesc.variableLabels| == 1
    requires core <= cores && core * CpuRecordWidth <= |payload|
    requires core < cores ==> |payload| < core * CpuRecordWidth + CpuRecordWidth
    ensures CpuRecords(cpuDesc, payload, cores) ==
      StepResult(CpuObservations(cpuDesc, payload, core),
                 core * CpuRecordWidth + (if core < cores then ReadsConsumed(|payload| - core * CpuRecordWidth, CpuReads) else 0),
                 if core < cores then Fatal else Done)
  {
    CpuRecordCount(|payload|, core);
    if core < cores {
      assert |payload| / CpuRecordWidth == core;
      assert |payload| % CpuRecordWidth == |payload| - core * CpuRecordWidth;
    }
  }

  /** A failed application record read stops after the core id byte, if that much was there. */
  lemma AppReadsConsumed(rem: nat)
    requires rem < AppRecordWidth
    ensures ReadsConsumed(rem, AppReads) == if rem == 0 then 0 else CoreIdWidth
  {
  }

  /** A failed CPU record read stops after the core id byte, or after the cycles, if that much was there. */
  lemma CpuReadsConsumed(rem: nat)
    requires rem < CpuRecordWidth
    ensures ReadsConsumed(rem, CpuReads) ==
      if rem < CoreIdWidth then 0 else if rem < CoreIdWidth + U64Width then CoreIdWidth else CoreIdWidth + U64Width
  {
    assert CpuReads[1..] == [U64Width, U64Width] && CpuReads[1..][1..] == [U64Width];
    if rem >= CoreIdWidth + U64Width {
      assert ReadsConsumed(rem - CoreIdWidth - U64Width, [U64Width]) == 0;
    }
  }

  /** Pushing the next core's block extends the pushed sequence to one more core. */
  lemma AppGrow(prefix: seq<Metric>, catalog: map<AppCounter, Desc>, payload: seq<byte>, n: nat)
    requires CoreLabelled(catalog) && (n + 1) * AppRecordWidth <= |payload|
    ensures prefix + AppObservations(catalog, payload, n + 1) ==
      (prefix + AppObservations(catalog, payload, n)) +
      CoreObservations(catalog, payload[n * AppRecordWidth], DecodeAppStats(AppRecordStats(payload, n)))
  {
    var bs := CoreBlocks(catalog, payload, n);
    assert CoreBlocks(catalog, payload, n + 1) == bs + [CoreBlock(catalog, payload, n)];
    ConcatSnoc(bs, CoreBlock(catalog, payload, n));
  }

  /** Pushing the next core's gauge extends the pushed sequence to one more core. */
  lemma CpuGrow(prefix: seq<Metric>, cpuDesc: Desc, payload: seq<byte>, n: nat)
    requires |cpuDesc.variableLabels| == 1 && (n + 1) * CpuRecordWidth <= |payload|
    ensures prefix + CpuObservations(cpuDesc, payload, n + 1) ==
      (prefix + CpuObservations(cpuDesc, payload, n)) + [CpuRecordObservation(cpuDesc, payload, n)]
  {
  }

  /** Pushing the next port's block extends the pushed sequence to one more port. */
  lemma DpdkGrow(prefix: seq<Metric>, catalog: map<DpdkCounter, Desc>, payload: seq<byte>, n: nat)
    requires PortLabelled(catalog) && (n + 1) * EthStatsWidth <= |payload|
    ensures prefix + DpdkObservations(catalog, payload, n + 1) ==
      (prefix + DpdkObservations(catalog, payload, n)) + PortObservations(catalog, n, DecodeEthStats(EthRecord(payload, n)))
  {
    var bs := PortBlocks(catalog, payload, n);
    assert PortBlocks(catalog, payload, n + 1) == bs + [PortBlock(catalog, payload, n)];
    ConcatSnoc(bs, PortBlock(catalog, payload, n));
  }
}
