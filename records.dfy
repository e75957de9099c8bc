/**
 * What the record steps publish, record by record and byte by byte: how many
 * observations a run of records gives, which counter, value and label each one
 * carries, and when a step runs to its end.
 */
module Records {
  import opened Wire
  import opened Seqs
  import opened Decimal
  import opened Prom
  import opened Metrics
  import opened Session
  import opened ExporterSpec

  // ---------------------------------------------------------------
  // Contents

  /** The bytes of field j of the record at `off` are the bytes at off + 8j of the payload. */
  lemma FieldBytes(payload: seq<byte>, off: nat, width: nat, j: nat)
    requires off + width <= |payload| && U64Width * j + U64Width <= width
    ensures U64Field(payload[off..off + width], j) == BeU64(payload[off + U64Width * j..off + U64Width * j + U64Width])
  {
    var a := off + U64Width * j;
    var rec := payload[off..off + width];
    var x := rec[U64Width * j..U64Width * j + U64Width];
    var y := payload[a..a + U64Width];
    assert forall k :: 0 <= k < |x| ==> x[k] == y[k];
    assert x == y;
  }

  /** Observation j of DPDK record p is counter j, read big-endian at byte 64p + 8j, labelled with the decimal p. */
  lemma PortRecordAt(catalog: map<DpdkCounter, Desc>, payload: seq<byte>, p: nat, j: nat)
    requires PortLabelled(catalog) && p * EthStatsWidth + EthStatsWidth <= |payload| && j < |DpdkFields|
    ensures var off := p * EthStatsWidth + U64Width * j;
      PortObservations(catalog, p, DecodeEthStats(EthRecord(payload, p)))[j] ==
      MustNewConstMetric(catalog[DpdkFields[j]], CounterValue, Count(BeU64(payload[off..off + U64Width])), [Itoa(p)])
  {
    var rec := EthRecord(payload, p);
    var st := DecodeEthStats(rec);
    PortObservationsAt(catalog, p, st, j);
    assert EthStatsField(st, DpdkFields[j]) == U64Field(rec, j);
    FieldBytes(payload, p * EthStatsWidth, EthStatsWidth, j);
  }

  /** Observations 8p to 8p + 8 of the first `ports` DPDK records are those of record p. */
  lemma DpdkObservationsSlice(catalog: map<DpdkCounter, Desc>, payload: seq<byte>, ports: nat, p: nat)
    requires PortLabelled(catalog) && ports * EthStatsWidth <= |payload| && p < ports
    ensures 8 * p + 8 <= |DpdkObservations(catalog, payload, ports)|
    ensures DpdkObservations(catalog, payload, ports)[8 * p..8 * p + 8] ==
            PortObservations(catalog, p, DecodeEthStats(EthRecord(payload, p)))
  {
    ConcatBlock(PortBlocks(catalog, payload, ports), 8, p);
  }

  /**
   * Observation 8p + j of the DPDK step is counter j of port p: the descriptor of that
   * counter, the big-endian uint64 at byte 64p + 8j, and the decimal label p.
   */
  lemma DpdkObservationsAt(catalog: map<DpdkCounter, Desc>, payload: seq<byte>, ports: nat, p: nat, j: nat)
    requires PortLabelled(catalog) && ports * EthStatsWidth <= |payload|
    requires p < ports && j < |DpdkFields|
    ensures 8 * p + j < |DpdkObservations(catalog, payload, ports)|
    ensures var off := p * EthStatsWidth + U64Width * j;
      DpdkObservations(catalog, payload, ports)[8 * p + j] ==
      MustNewConstMetric(catalog[DpdkFields[j]], CounterValue, Count(BeU64(payload[off..off + U64Width])), [Itoa(p)])
  {
    DpdkObservationsSlice(catalog, payload, ports, p);
    PortRecordAt(catalog, payload, p, j);
    assert DpdkObservations(catalog, payload, ports)[8 * p..8 * p + 8][j] == DpdkObservations(catalog, payload, ports)[8 * p + j];
  }

  /** Observation j of application record c is counter j, read big-endian after the core id byte, labelled with that byte. */
  lemma CoreRecordAt(catalog: map<AppCounter, Desc>, payload: seq<byte>, c: nat, j: nat)
    requires CoreLabelled(catalog) && c * AppRecordWidth + AppRecordWidth <= |payload| && j < |AppFields|
    ensures var off := c * AppRecordWidth + CoreIdWidth + U64Width * j;
      CoreObservations(catalog, payload[c * AppRecordWidth], DecodeAppStats(AppRecordStats(payload, c)))[j] ==
      MustNewConstMetric(catalog[AppFields[j]], CounterValue, Count(BeU64(payload[off..off + U64Width])),
                         [Itoa(payload[c * AppRecordWidth])])
  {
    var rec := AppRecordStats(payload, c);
    CoreObservationsAt(catalog, payload[c * AppRecordWidth], DecodeAppStats(rec), j);
    FieldBytes(payload, c * AppRecordWidth + CoreIdWidth, AppStatsWidth, j);
  }

  /** Observations 7c to 7c + 7 of the first `cores` application records are those of record c. */
  lemma AppObservationsSlice(catalog: map<AppCounter, Desc>, payload: seq<byte>, cores: nat, c: nat)
    requires CoreLabelled(catalog) && cores * AppRecordWidth <= |payload| && c < cores
    ensures 7 * c + 7 <= |AppObservations(catalog, payload, cores)|
    ensures AppObservations(catalog, payload, cores)[7 * c..7 * c + 7] ==
            CoreObservations(catalog, payload[c * AppRecordWidth], DecodeAppStats(AppRecordStats(payload, c)))
  {
    ConcatBlock(CoreBlocks(catalog, payload, cores), 7, c);
  }

  /**
   * Observation 7c + j of the application step is counter j of record c: the descriptor of
   * that counter, the big-endian uint64 after the core id byte at 57c, and that byte as label.
   */
  lemma AppObservationsAt(catalog: map<AppCounter, Desc>, payload: seq<byte>, cores: nat, c: nat, j: nat)
    requires CoreLabelled(catalog) && cores * AppRecordWidth <= |payload|
    requires c < cores && j < |AppFields|
    ensures 7 * c + j < |AppObservations(catalog, payload, cores)|
    ensures var off := c * AppRecordWidth + CoreIdWidth + U64Width * j;
      AppObservations(catalog, payload, cores)[7 * c + j] ==
      MustNewConstMetric(catalog[AppFields[j]], CounterValue, Count(BeU64(payload[off..off + U64Width])),
                         [Itoa(payload[c * AppRecordWidth])])
  {
    AppObservationsSlice(catalog, payload, cores, c);
    CoreRecordAt(catalog, payload, c, j);
    assert AppObservations(catalog, payload, cores)[7 * c..7 * c + 7][j] == AppObservations(catalog, payload, cores)[7 * c + j];
  }

  /**
   * Observation c of the CPU step is record c: the core id byte at 17c as label, the cycles
   * and the frequency as the big-endian uint64s after it.
   */
  lemma {:induction false} CpuObservationsAt(cpuDesc: Desc, payload: seq<byte>, cores: nat, c: nat)
    requires |cpuDesc.variableLabels| == 1 && cores * CpuRecordWidth <= |payload|
    requires c < cores
    ensures c < |CpuObservations(cpuDesc, payload, cores)|
    ensures var off := c * CpuRecordWidth;
      CpuObservations(cpuDesc, payload, cores)[c] ==
      MustNewConstMetric(cpuDesc, GaugeValue,
                         Ratio(BeU64(payload[off + 1..off + 9]), BeU64(payload[off + 9..off + 17])),
                         [Itoa(payload[off])])
  {
    if c < cores - 1 {
      CpuObservationsAt(cpuDesc, payload, cores - 1, c);
    }
  }

  // ---------------------------------------------------------------
  // How a step ends

  /** scrapeVersion pushes nothing; it runs to its end when the announced payload is there to read. */
  lemma VersionStepEnds(peer: Peer, s: seq<byte>)
    ensures VersionStep(peer, s).obs == []
    ensures VersionStep(peer, s).status == Done <==>
      SendCmdResult(peer, CmdVersion, s).Some? &&
      SendCmdResult(peer, CmdVersion, s).value.1 + SendCmdResult(peer, CmdVersion, s).value.0 <= |s|
    ensures VersionStep(peer, s).status == Done ==>
      VersionStep(peer, s).consumed == SendCmdResult(peer, CmdVersion, s).value.1 + SendCmdResult(peer, CmdVersion, s).value.0
  {
  }

  /**
   * The DPDK step runs to its end exactly when the DataSize / 64 whole records are there; it
   * then reads DataSize less its remainder modulo 64, which stays unread, and pushes 8 a port.
   */
  lemma DpdkStepEnds(catalog: map<DpdkCounter, Desc>, peer: Peer, s: seq<byte>)
    requires PortLabelled(catalog)
    ensures var r := DpdkStep(catalog, peer, s);
      var h := SendCmdResult(peer, CmdDpdkStats, s);
      (r.status == Done <==> h.Some? && h.value.1 + h.value.0 / EthStatsWidth * EthStatsWidth <= |s|) &&
      (r.status == Done ==>
         r.consumed == h.value.1 + h.value.0 - h.value.0 % EthStatsWidth &&
         |r.obs| == 8 * (h.value.0 / EthStatsWidth))
  {
    var h := SendCmdResult(peer, CmdDpdkStats, s);
    if h.Some? {
      var payload := s[h.value.1..];
      EthRecordCount(|payload|, h.value.0 / EthStatsWidth);
    }
  }

  /**
   * The application step runs to its end exactly when the DataSize / 57 whole records are there;
   * it then reads DataSize less its remainder modulo 57 and pushes 7 a core.
   */
  lemma AppStepEnds(catalog: map<AppCounter, Desc>, peer: Peer, s: seq<byte>)
    requires CoreLabelled(catalog)
    ensures var r := AppStep(catalog, peer, s);
      var h := SendCmdResult(peer, CmdAppStats, s);
      (r.status == Done <==> h.Some? && h.value.1 + h.value.0 / AppRecordWidth * AppRecordWidth <= |s|) &&
      (r.status == Done ==>
         r.consumed == h.value.1 + h.value.0 - h.value.0 % AppRecordWidth &&
         |r.obs| == 7 * (h.value.0 / AppRecordWidth))
  {
    var h := SendCmdResult(peer, CmdAppStats, s);
    if h.Some? {
      var payload := s[h.value.1..];
      AppRecordCount(|payload|, h.value.0 / AppRecordWidth);
    }
  }

  /**
   * The CPU step runs to its end exactly when the DataSize / 17 whole records are there; it then
   * reads DataSize less its remainder modulo 17 and pushes one gauge a core.
   */
  lemma CpuStepEnds(cpuDesc: Desc, peer: Peer, s: seq<byte>)
    requires |cpuDesc.variableLabels| == 1
    ensures var r := CpuStep(cpuDesc, peer, s);
      var h := SendCmdResult(peer, CmdCpuUsage, s);
      (r.status == Done <==> h.Some? && h.value.1 + h.value.0 / CpuRecordWidth * CpuRecordWidth <= |s|) &&
      (r.status == Done ==>
         r.consumed == h.value.1 + h.value.0 - h.value.0 % CpuRecordWidth &&
         |r.obs| == h.value.0 / CpuRecordWidth)
  {
    var h := SendCmdResult(peer, CmdCpuUsage, s);
    if h.Some? {
      var payload := s[h.value.1..];
      CpuRecordCount(|payload|, h.value.0 / CpuRecordWidth);
    }
  }
}
