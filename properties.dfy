/**
 * What a scrape, a collection and a description promise as a whole: the order the
 * steps run in and where they stop, the status a scrape returns, the three metrics
 * a collection adds, and which descriptors are ever published.
 */
module Properties {
  import opened Wire
  import opened Seqs
  import opened Prom
  import opened Metrics
  import opened Session
  import opened ExporterSpec
  import opened Records
  import opened ScrapeSpec

  // ---------------------------------------------------------------
  // Running steps

  /**
   * The commands a run sends are a prefix of the commands it was given: it sends them all
   * when every step runs to its end, and stops right after the first step that fails.
   */
  lemma {:induction false} RunStepsStops(cat: Catalogs, cmds: seq<Command>, peer: Peer, s: seq<byte>)
    requires CatalogsOk(cat)
    ensures var r := RunSteps(cat, cmds, peer, s);
      r.sent <= cmds &&
      (r.status == Done ==> r.sent == cmds) &&
      (|r.sent| < |cmds| ==> r.status == Fatal) &&
      (r.status == Fatal ==> r.sent != [])
  {
    if cmds != [] {
      var h := Step(cat, cmds[0], peer, s);
      if h.status == Done {
        RunStepsStops(cat, cmds[1..], peer, s[h.consumed..]);
      }
    }
  }

  /** A run of two steps: the first, then the second unless the first failed. */
  lemma RunTwo(cat: Catalogs, cmds: seq<Command>, peer: Peer, s: seq<byte>)
    requires CatalogsOk(cat) && |cmds| == 2
    ensures var r := RunSteps(cat, cmds, peer, s);
      var h0 := Step(cat, cmds[0], peer, s);
      var h1 := Step(cat, cmds[1], peer, s[h0.consumed..]);
      (h0.status == Fatal ==> r.obs == h0.obs && r.sent == cmds[..1] && r.status == Fatal) &&
      (h0.status == Done ==> r.obs == h0.obs + h1.obs && r.sent == cmds && r.status == h1.status)
  {
    var h0 := Step(cat, cmds[0], peer, s);
    var s1 := s[h0.consumed..];
    if h0.status == Done {
      RunStepsDone(cat, cmds, peer, s);
      if Step(cat, cmds[1], peer, s1).status == Done {
        RunStepsDone(cat, cmds[1..], peer, s1);
      } else {
        RunStepsFatal(cat, cmds[1..], peer, s1);
      }
    } else {
      RunStepsFatal(cat, cmds, peer, s);
    }
  }

  /** A run of three steps, each unless the one before it failed. */
  lemma RunThree(cat: Catalogs, cmds: seq<Command>, peer: Peer, s: seq<byte>)
    requires CatalogsOk(cat) && |cmds| == 3
    ensures var r := RunSteps(cat, cmds, peer, s);
      var h0 := Step(cat, cmds[0], peer, s);
      var s1 := s[h0.consumed..];
      var h1 := Step(cat, cmds[1], peer, s1);
      var h2 := Step(cat, cmds[2], peer, s1[h1.consumed..]);
      (h0.status == Fatal ==> r.obs == h0.obs && r.sent == cmds[..1] && r.status == Fatal) &&
      (h0.status == Done && h1.status == Fatal ==> r.obs == h0.obs + h1.obs && r.sent == cmds[..2] && r.status == Fatal) &&
      (h0.status == Done && h1.status == Done ==> r.obs == h0.obs + h1.obs + h2.obs && r.sent == cmds && r.status == h2.status)
  {
    var h0 := Step(cat, cmds[0], peer, s);
    var s1 := s[h0.consumed..];
    if h0.status == Done {
      RunStepsDone(cat, cmds, peer, s);
      RunTwo(cat, cmds[1..], peer, s1);
      var h1 := Step(cat, cmds[1], peer, s1);
      var h2 := Step(cat, cmds[2], peer, s1[h1.consumed..]);
      AppendAssoc(h0.obs, h1.obs, h2.obs);
      assert cmds[..2] == [cmds[0]] + cmds[1..][..1];
    } else {
      RunStepsFatal(cat, cmds, peer, s);
    }
  }

  /** A run of four steps, each unless the one before it failed. */
  lemma RunFour(cat: Catalogs, cmds: seq<Command>, peer: Peer, s: seq<byte>)
    requires CatalogsOk(cat) && |cmds| == 4
    ensures var r := RunSteps(cat, cmds, peer, s);
      var h0 := Step(cat, cmds[0], peer, s);
      var s1 := s[h0.consumed..];
      var h1 := Step(cat, cmds[1], peer, s1);
      var s2 := s1[h1.consumed..];
      var h2 := Step(cat, cmds[2], peer, s2);
      var h3 := Step(cat, cmds[3], peer, s2[h2.consumed..]);
      (h0.status == Fatal ==> r.obs == h0.obs && r.sent == cmds[..1] && r.status == Fatal) &&
      (h0.status == Done && h1.status == Fatal ==> r.obs == h0.obs + h1.obs && r.sent == cmds[..2] && r.status == Fatal) &&
      (h0.status == Done && h1.status == Done && h2.status == Fatal ==>
         r.obs == h0.obs + h1.obs + h2.obs && r.sent == cmds[..3] && r.status == Fatal) &&
      (h0.status == Done && h1.status == Done && h2.status == Done ==>
         r.obs == h0.obs + h1.obs + h2.obs + h3.obs && r.sent == cmds && r.status == h3.status)
  {
    var h0 := Step(cat, cmds[0], peer, s);
    var s1 := s[h0.consumed..];
    if h0.status == Done {
      RunStepsDone(cat, cmds, peer, s);
      RunThree(cat, cmds[1..], peer, s1);
      var h1 := Step(cat, cmds[1], peer, s1);
      var s2 := s1[h1.consumed..];
      var h2 := Step(cat, cmds[2], peer, s2);
      var h3 := Step(cat, cmds[3], peer, s2[h2.consumed..]);
      AppendAssoc(h0.obs, h1.obs, h2.obs);
      AppendAssoc(h0.obs, h1.obs + h2.obs, h3.obs);
      AppendAssoc(h0.obs + h1.obs, h2.obs, h3.obs);
      assert cmds[..2] == [cmds[0]] + cmds[1..][..1];
      assert cmds[..3] == [cmds[0]] + cmds[1..][..2];
    } else {
      RunStepsFatal(cat, cmds, peer, s);
    }
  }

  /**
   * scrape over an open connection is its four steps in order, each on the bytes the one
   * before it left: a step that fails is the last to run, what the earlier steps pushed
   * stays pushed, and the scrape is Up exactly when all four run to their end.
   */
  lemma ScrapeSteps(cat: Catalogs, peer: Peer, input: seq<byte>)
    requires CatalogsOk(cat)
    ensures var r := ScrapeRun(cat, Dialed(peer, input));
      var v := Step(cat, CmdVersion, peer, input);
      var s1 := input[v.consumed..];
      var dp := Step(cat, CmdDpdkStats, peer, s1);
      var s2 := s1[dp.consumed..];
      var ap := Step(cat, CmdAppStats, peer, s2);
      var s3 := s2[ap.consumed..];
      var cp := Step(cat, CmdCpuUsage, peer, s3);
      (r.outcome == Up <==> v.status == Done && dp.status == Done && ap.status == Done && cp.status == Done) &&
      (v.status == Fatal ==>
         r == ScrapeResult(v.obs, [CmdVersion], Exit)) &&
      (v.status == Done && dp.status == Fatal ==>
         r == ScrapeResult(v.obs + dp.obs, [CmdVersion, CmdDpdkStats], Exit)) &&
      (v.status == Done && dp.status == Done && ap.status == Fatal ==>
         r == ScrapeResult(v.obs + dp.obs + ap.obs, [CmdVersion, CmdDpdkStats, CmdAppStats], Exit)) &&
      (v.status == Done && dp.status == Done && ap.status == Done ==>
         r == ScrapeResult(v.obs + dp.obs + ap.obs + cp.obs, ScrapeOrder, if cp.status == Done then Up else Exit))
  {
    ScrapeStepsEarly(cat, peer, input);
    ScrapeStepsLate(cat, peer, input);
  }

  /** A scrape whose version or DPDK step fails. */
  lemma ScrapeStepsEarly(cat: Catalogs, peer: Peer, input: seq<byte>)
    requires CatalogsOk(cat)
    ensures var r := ScrapeRun(cat, Dialed(peer, input));
      var v := Step(cat, CmdVersion, peer, input);
      var s1 := input[v.consumed..];
      var dp := Step(cat, CmdDpdkStats, peer, s1);
      (v.status == Fatal ==>
         r == ScrapeResult(v.obs, [CmdVersion], Exit)) &&
      (v.status == Done && dp.status == Fatal ==>
         r == ScrapeResult(v.obs + dp.obs, [CmdVersion, CmdDpdkStats], Exit))
  {
    assert ScrapeOrder[0] == CmdVersion && ScrapeOrder[1] == CmdDpdkStats;
    var v := Step(cat, CmdVersion, peer, input);
    if v.status == Fatal {
      RunStepsFatal(cat, ScrapeOrder, peer, input);
    } else {
      var s1 := input[v.consumed..];
      RunStepsDone(cat, ScrapeOrder, peer, input);
      if Step(cat, CmdDpdkStats, peer, s1).status == Fatal {
        RunStepsFatal(cat, ScrapeOrder[1..], peer, s1);
      }
    }
  }

  /** A scrape whose first two steps run to their end. */
  lemma ScrapeStepsLate(cat: Catalogs, peer: Peer, input: seq<byte>)
    requires CatalogsOk(cat)
    ensures var r := ScrapeRun(cat, Dialed(peer, input));
      var v := Step(cat, CmdVersion, peer, input);
      var s1 := input[v.consumed..];
      var dp := Step(cat, CmdDpdkStats, peer, s1);
      var s2 := s1[dp.consumed..];
      var ap := Step(cat, CmdAppStats, peer, s2);
      var s3 := s2[ap.consumed..];
      var cp := Step(cat, CmdCpuUsage, peer, s3);
      (r.outcome == Up <==> v.status == Done && dp.status == Done && ap.status == Done && cp.status == Done) &&
      (v.status == Done && dp.status == Done && ap.status == Fatal ==>
         r == ScrapeResult(v.obs + dp.obs + ap.obs, [CmdVersion, CmdDpdkStats, CmdAppStats], Exit)) &&
      (v.status == Done && dp.status == Done && ap.status == Done ==>
         r == ScrapeResult(v.obs + dp.obs + ap.obs + cp.obs, ScrapeOrder, if cp.status == Done then Up else Exit))
  {
    assert ScrapeOrder[0] == CmdVersion && ScrapeOrder[1] == CmdDpdkStats;
    assert ScrapeOrder[2] == CmdAppStats && ScrapeOrder[3] == CmdCpuUsage;
    RunFour(cat, ScrapeOrder, peer, input);
    assert ScrapeOrder[..3] == [CmdVersion, CmdDpdkStats, CmdAppStats];
  }

  /**
   * scrape returns 0 without touching anything when the dial fails, and that is the only
   * way it returns 0: once connected it returns 1 or a step has called log.Fatal.
   */
  lemma ScrapeStatus(cat: Catalogs, d: Dial)
    requires CatalogsOk(cat)
    ensures var r := ScrapeRun(cat, d);
      (r.outcome == Down <==> d == DialFailed) &&
      (d == DialFailed ==> r.obs == [] && r.sent == [] && StatusValue(r.outcome) == 0) &&
      (StatusValue(r.outcome) == 1 <==>
         d.Dialed? && RunSteps(cat, ScrapeOrder, d.peer, d.input).status == Done) &&
      (r.outcome == Up ==> r.sent == ScrapeOrder)
  {
    if d.Dialed? {
      RunStepsStops(cat, ScrapeOrder, d.peer, d.input);
    }
  }

  // ---------------------------------------------------------------
  // Collecting

  /**
   * Each Collect counts one more scrape. Unless a step called log.Fatal, the scrape's
   * observations are followed by exactly three more: the scrape count, the status of
   * this scrape and the build information with value 1 and its four labels.
   */
  lemma CollectAppends(total: nat, c: Collector, cat: Catalogs, d: Dial)
    requires c.buildInfo == BuildInfoDesc() && CatalogsOk(cat)
    ensures var r := CollectRun(total, c, cat, d);
      var sc := ScrapeRun(cat, d);
      var n := |sc.obs|;
      r.totalScrapes == total + 1 && r.outcome == sc.outcome &&
      (sc.outcome == Exit ==> r.obs == sc.obs) &&
      (sc.outcome != Exit ==>
         |r.obs| == n + 3 && r.obs[..n] == sc.obs &&
         r.obs[n] == Metric(TotalScrapesDesc(), CounterValue, Count(total + 1), []) &&
         r.obs[n + 1] == Metric(LastScrapeStatus(), CounterValue, Count(StatusValue(sc.outcome)), []) &&
         r.obs[n + 2] == Metric(BuildInfoDesc(), GaugeValue, Count(1), [c.version, c.revision, c.buildDate, c.goVersion]))
  {
    var sc := ScrapeRun(cat, d);
    if sc.outcome != Exit {
      var r := CollectRun(total, c, cat, d);
      assert r.obs == sc.obs + SelfMetrics(total + 1, StatusValue(sc.outcome), c);
      assert r.obs[..|sc.obs|] == sc.obs;
    }
  }

  /** A Collect whose dial fails pushes the three own metrics alone, with status 0. */
  lemma CollectDialFailed(total: nat, c: Collector, cat: Catalogs)
    requires c.buildInfo == BuildInfoDesc() && CatalogsOk(cat)
    ensures var r := CollectRun(total, c, cat, DialFailed);
      r.outcome == Down && r.totalScrapes == total + 1 &&
      r.obs == [Metric(TotalScrapesDesc(), CounterValue, Count(total + 1), []),
                Metric(LastScrapeStatus(), CounterValue, Count(0), []),
                Metric(BuildInfoDesc(), GaugeValue, Count(1), [c.version, c.revision, c.buildDate, c.goVersion])]
  {
    CollectAppends(total, c, cat, DialFailed);
  }

  // ---------------------------------------------------------------
  // The descriptors observations are published under

  /** Every observation carries a descriptor of `descs` and one label value per label name of it. */
  ghost predicate PublishedUnder(obs: seq<Metric>, descs: set<Desc>)
  {
    forall i :: 0 <= i < |obs| ==> obs[i].desc in descs && |obs[i].labelValues| == |obs[i].desc.variableLabels|
  }

  lemma PublishedUnderAppend(a: seq<Metric>, b: seq<Metric>, descs: set<Desc>)
    requires PublishedUnder(a, descs) && PublishedUnder(b, descs)
    ensures PublishedUnder(a + b, descs)
  {
    forall i | 0 <= i < |a + b|
      ensures (a + b)[i].desc in descs && |(a + b)[i].labelValues| == |(a + b)[i].desc.variableLabels|
    {
      if i >= |a| {
        assert (a + b)[i] == b[i - |a|];
      }
    }
  }

  /** Blocks that each publish under some descriptors publish under them one after another. */
  lemma {:induction false} ConcatPublished(blocks: seq<seq<Metric>>, descs: set<Desc>)
    requires forall i :: 0 <= i < |blocks| ==> PublishedUnder(blocks[i], descs)
    ensures PublishedUnder(Concat(blocks), descs)
  {
    if blocks != [] {
      var init := blocks[..|blocks| - 1];
      ConcatPublished(init, descs);
      PublishedUnderAppend(Concat(init), blocks[|blocks| - 1], descs);
    }
  }

  /** The DPDK records are published under the DPDK catalog. */
  lemma DpdkObservationsPublished(catalog: map<DpdkCounter, Desc>, payload: seq<byte>, ports: nat)
    requires PortLabelled(catalog) && ports * EthStatsWidth <= |payload|
    ensures PublishedUnder(DpdkObservations(catalog, payload, ports), catalog.Values)
  {
    var bs := PortBlocks(catalog, payload, ports);
    forall p | 0 <= p < |bs|
      ensures PublishedUnder(bs[p], catalog.Values)
    {
      var b := PortBlock(catalog, payload, p);
      assert bs[p] == b;
      assert PublishedUnder(b, catalog.Values);
    }
    ConcatPublished(bs, catalog.Values);
  }

  /** The application records are published under the application catalog. */
  lemma AppObservationsPublished(catalog: map<AppCounter, Desc>, payload: seq<byte>, cores: nat)
    requires CoreLabelled(catalog) && cores * AppRecordWidth <= |payload|
    ensures PublishedUnder(AppObservations(catalog, payload, cores), catalog.Values)
  {
    var bs := CoreBlocks(catalog, payload, cores);
    forall c | 0 <= c < |bs|
      ensures PublishedUnder(bs[c], catalog.Values)
    {
      var b := CoreBlock(catalog, payload, c);
      assert bs[c] == b;
      assert PublishedUnder(b, catalog.Values);
    }
    ConcatPublished(bs, catalog.Values);
  }

  /** The CPU records are published under the CPU usage descriptor. */
  lemma CpuObservationsPublished(cpuDesc: Desc, payload: seq<byte>, cores: nat)
    requires |cpuDesc.variableLabels| == 1 && cores * CpuRecordWidth <= |payload|
    ensures PublishedUnder(CpuObservations(cpuDesc, payload, cores), {cpuDesc})
  {
    var obs := CpuObservations(cpuDesc, payload, cores);
    forall i | 0 <= i < |obs|
      ensures obs[i].desc in {cpuDesc} && |obs[i].labelValues| == |obs[i].desc.variableLabels|
    {
      CpuObservationsAt(cpuDesc, payload, cores, i);
    }
  }

  /** The descriptors of the catalogs the steps look up. */
  function CatalogDescs(cat: Catalogs): (ds: set<Desc>)
    ensures cat.cpu in ds && cat.dpdk.Values <= ds && cat.app.Values <= ds
  {
    cat.dpdk.Values + cat.app.Values + {cat.cpu}
  }

  /** Every step publishes under the catalogs. */
  lemma StepPublished(cat: Catalogs, cmd: Command, peer: Peer, s: seq<byte>)
    requires CatalogsOk(cat)
    ensures PublishedUnder(Step(cat, cmd, peer, s).obs, CatalogDescs(cat))
  {
    var all := CatalogDescs(cat);
    var h := SendCmdResult(peer, cmd, s);
    if h.Some? {
      var payload := s[h.value.1..];
      var n := h.value.0;
      match cmd
      case CmdVersion =>
      case CmdDpdkStats =>
        var k := if n / EthStatsWidth <= |payload| / EthStatsWidth then n / EthStatsWidth else |payload| / EthStatsWidth;
        EthRecordCount(|payload|, k);
        DpdkObservationsPublished(cat.dpdk, payload, k);
      case CmdAppStats =>
        var k := if n / AppRecordWidth <= |payload| / AppRecordWidth then n / AppRecordWidth else |payload| / AppRecordWidth;
        AppRecordCount(|payload|, k);
        AppObservationsPublished(cat.app, payload, k);
      case CmdCpuUsage =>
        var k := if n / CpuRecordWidth <= |payload| / CpuRecordWidth then n / CpuRecordWidth else |payload| / CpuRecordWidth;
        CpuRecordCount(|payload|, k);
        CpuObservationsPublished(cat.cpu, payload, k);
    }
  }

  /** Every run of steps publishes under the catalogs. */
  lemma {:induction false} RunStepsPublished(cat: Catalogs, cmds: seq<Command>, peer: Peer, s: seq<byte>)
    requires CatalogsOk(cat)
    ensures PublishedUnder(RunSteps(cat, cmds, peer, s).obs, CatalogDescs(cat))
  {
    if cmds != [] {
      var h := Step(cat, cmds[0], peer, s);
      StepPublished(cat, cmds[0], peer, s);
      if h.status == Done {
        var t := RunSteps(cat, cmds[1..], peer, s[h.consumed..]);
        RunStepsPublished(cat, cmds[1..], peer, s[h.consumed..]);
        PublishedUnderAppend(h.obs, t.obs, CatalogDescs(cat));
      }
    }
  }

  /** The descriptors of the exporter's own three metrics. */
  function SelfDescs(): (ds: set<Desc>)
    ensures TotalScrapesDesc() in ds && LastScrapeStatus() in ds && BuildInfoDesc() in ds
  {
    {TotalScrapesDesc(), LastScrapeStatus(), BuildInfoDesc()}
  }

  /**
   * Every metric a Collect pushes comes from a catalog or is one of the three own metrics,
   * and takes one label value per label name of its descriptor.
   */
  lemma CollectPublished(total: nat, c: Collector, cat: Catalogs, d: Dial)
    requires c.buildInfo == BuildInfoDesc() && CatalogsOk(cat)
    ensures PublishedUnder(CollectRun(total, c, cat, d).obs, CatalogDescs(cat) + SelfDescs())
  {
    var all := CatalogDescs(cat) + SelfDescs();
    var r := CollectRun(total, c, cat, d);
    var sc := ScrapeRun(cat, d);
    ScrapePublished(cat, d);
    PublishedUnderWider(sc.obs, CatalogDescs(cat), all);
    if sc.outcome == Exit {
      assert r.obs == sc.obs;
    } else {
      var self := SelfMetrics(total + 1, StatusValue(sc.outcome), c);
      assert r.obs == sc.obs + self;
      SelfPublished(total + 1, StatusValue(sc.outcome), c);
      PublishedUnderWider(self, SelfDescs(), all);
      PublishedUnderAppend(sc.obs, self, all);
    }
  }

  /** The exporter's own three metrics publish under its own descriptors. */
  lemma SelfPublished(total: nat, status: nat, c: Collector)
    requires c.buildInfo == BuildInfoDesc()
    ensures PublishedUnder(SelfMetrics(total, status, c), SelfDescs())
  {
  }

  /** A scrape publishes under the catalogs. */
  lemma ScrapePublished(cat: Catalogs, d: Dial)
    requires CatalogsOk(cat)
    ensures PublishedUnder(ScrapeRun(cat, d).obs, CatalogDescs(cat))
  {
    if d.Dialed? {
      RunStepsPublished(cat, ScrapeOrder, d.peer, d.input);
    }
  }

  /** Publishing under some descriptors is publishing under any larger set of them. */
  lemma PublishedUnderWider(obs: seq<Metric>, descs: set<Desc>, wider: set<Desc>)
    requires PublishedUnder(obs, descs) && descs <= wider
    ensures PublishedUnder(obs, wider)
  {
  }

  /** The full names of the descriptors the exporter can ever publish under: none of them is natasha_up. */
  lemma PublishedNotStatus(d: Desc)
    requires d in CatalogDescs(PackageCatalogs()) + SelfDescs()
    ensures d != NatashaStatusDesc()
  {
    var cat := PackageCatalogs();
    if d in cat.dpdk.Values {
      var c :| c in cat.dpdk && cat.dpdk[c] == d;
      assert |d.fqName| > |NatashaStatusDesc().fqName|;
    } else if d in cat.app.Values {
      var c :| c in cat.app && cat.app[c] == d;
      assert |d.fqName| > |NatashaStatusDesc().fqName|;
    } else {
      assert |d.fqName| > |NatashaStatusDesc().fqName|;
    }
  }

  /** natasha_up is described but never collected. */
  lemma StatusNeverCollected(total: nat, c: Collector, d: Dial)
    requires c.buildInfo == BuildInfoDesc()
    ensures var r := CollectRun(total, c, PackageCatalogs(), d);
      forall i :: 0 <= i < |r.obs| ==> r.obs[i].desc != NatashaStatusDesc()
  {
    var r := CollectRun(total, c, PackageCatalogs(), d);
    CollectPublished(total, c, PackageCatalogs(), d);
    forall i | 0 <= i < |r.obs|
      ensures r.obs[i].desc != NatashaStatusDesc()
    {
      PublishedNotStatus(r.obs[i].desc);
    }
  }

  // ---------------------------------------------------------------
  // Describing

  /** One pass over a map meets as many keys as the map has. */
  lemma {:induction false} EnumeratesSize<K(!new)>(order: seq<K>, keys: set<K>)
    requires Enumerates(order, keys)
    ensures |order| == |keys|
  {
    if order != [] {
      var n := |order| - 1;
      var last := order[n];
      var rest := keys - {last};
      forall k ensures k in rest <==> k in order[..n] {
        if k in order[..n] {
          var i :| 0 <= i < n && order[i] == k;
          assert order[i] != order[n];
        }
        if k in keys && k != last {
          var i :| 0 <= i < |order| && order[i] == k;
          assert i < n;
        }
      }
      EnumeratesSize(order[..n], rest);
    }
  }

  /** No DPDK descriptor is the CPU usage gauge: one is labelled by port id, the other by core id. */
  lemma DpdkDescNotCpu(k: DpdkCounter)
    ensures GetDpdkStatsMetrics()[k] != GetCPUUsageMetrics()
  {
    assert GetDpdkStatsMetrics()[k].variableLabels[0][0] == 'p';
    assert GetCPUUsageMetrics().variableLabels[0][0] == 'c';
  }

  /** One pass over a map picks the value of every key. */
  lemma PickCovers<K(!new), V>(m: map<K, V>, order: seq<K>)
    requires Enumerates(order, m.Keys)
    ensures forall k :: k in m ==> m[k] in Pick(m, order)
  {
    var p := Pick(m, order);
    forall k | k in m ensures m[k] in p {
      var i :| 0 <= i < |order| && order[i] == k;
      assert p[i] == m[k];
    }
  }

  /** The CPU usage gauge is in neither catalog. */
  lemma CpuNotCataloged()
    ensures GetCPUUsageMetrics() !in GetAppStatsMetrics().Values
    ensures GetCPUUsageMetrics() !in GetDpdkStatsMetrics().Values
  {
    var cpu := GetCPUUsageMetrics();
    forall a ensures GetAppStatsMetrics()[a] != cpu {
      CatalogNamesDistinct(Ipackets, Ipackets, a, a);
    }
    forall k ensures GetDpdkStatsMetrics()[k] != cpu {
      DpdkDescNotCpu(k);
    }
  }

  /** None of the four fixed descriptors is the CPU usage gauge: their names differ in length. */
  lemma FixedNotCpu(c: Collector)
    requires c.buildInfo == BuildInfoDesc()
    ensures GetCPUUsageMetrics() !in FixedDescs(NatashaStatusDesc(), c)
  {
    var fixed := FixedDescs(NatashaStatusDesc(), c);
    var cpu := GetCPUUsageMetrics();
    forall i | 0 <= i < 4 ensures fixed[i] != cpu {
      assert |fixed[i].fqName| != |cpu.fqName|;
    }
  }

  /**
   * What Describe sends, for any catalogs: the four fixed descriptors first, then one
   * descriptor per catalog entry, and nothing besides.
   */
  lemma DescribedShape(natashaStatus: Desc, c: Collector, app: map<AppCounter, Desc>, dpdk: map<DpdkCounter, Desc>,
                       appOrder: seq<AppCounter>, dpdkOrder: seq<DpdkCounter>)
    requires Enumerates(appOrder, app.Keys) && Enumerates(dpdkOrder, dpdk.Keys)
    ensures var ds := Described(natashaStatus, c, app, dpdk, appOrder, dpdkOrder);
      |ds| == 4 + |app.Keys| + |dpdk.Keys| &&
      ds[0] == TotalScrapesDesc() && ds[1] == natashaStatus && ds[2] == LastScrapeStatus() && ds[3] == c.buildInfo &&
      (forall a :: a in app ==> app[a] in ds) &&
      (forall k :: k in dpdk ==> dpdk[k] in ds) &&
      (forall d :: d in ds <==> d in FixedDescs(natashaStatus, c) || d in app.Values || d in dpdk.Values)
  {
    var fixed := FixedDescs(natashaStatus, c);
    var pa := Pick(app, appOrder);
    var pd := Pick(dpdk, dpdkOrder);
    var ds := Described(natashaStatus, c, app, dpdk, appOrder, dpdkOrder);
    assert ds == fixed + pa + pd;
    EnumeratesSize(appOrder, app.Keys);
    EnumeratesSize(dpdkOrder, dpdk.Keys);
    PickExactly(app, appOrder);
    PickExactly(dpdk, dpdkOrder);
    forall d ensures d in ds <==> d in fixed || d in pa || d in pd {
    }
  }

  /** One pass over a map picks exactly the values of the map. */
  lemma PickExactly<K(!new), V>(m: map<K, V>, order: seq<K>)
    requires Enumerates(order, m.Keys)
    ensures forall v :: v in Pick(m, order) <==> v in m.Values
  {
    var p := Pick(m, order);
    PickCovers(m, order);
    forall v | v in p ensures v in m.Values {
      var i :| 0 <= i < |p| && p[i] == v;
      assert order[i] in m;
    }
    forall v | v in m.Values ensures v in p {
      var k :| k in m && m[k] == v;
    }
  }

  /**
   * Describe, on the exporter NewExporter builds, sends 19 descriptors: the four fixed ones
   * with natasha_up second, then every application and every DPDK descriptor, and never
   * the CPU usage descriptor the CPU step publishes under.
   */
  lemma DescribedDescs(c: Collector, appOrder: seq<AppCounter>, dpdkOrder: seq<DpdkCounter>)
    requires c.buildInfo == BuildInfoDesc()
    requires Enumerates(appOrder, GetAppStatsMetrics().Keys) && Enumerates(dpdkOrder, GetDpdkStatsMetrics().Keys)
    ensures var ds := Described(NatashaStatusDesc(), c, GetAppStatsMetrics(), GetDpdkStatsMetrics(), appOrder, dpdkOrder);
      |ds| == 19 && ds[1] == NatashaStatusDesc() &&
      (forall a :: GetAppStatsMetrics()[a] in ds) &&
      (forall k :: GetDpdkStatsMetrics()[k] in ds) &&
      GetCPUUsageMetrics() !in ds
  {
    DescribedShape(NatashaStatusDesc(), c, GetAppStatsMetrics(), GetDpdkStatsMetrics(), appOrder, dpdkOrder);
    CounterCounts();
    CpuNotCataloged();
    FixedNotCpu(c);
  }
}
