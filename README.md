# natasha_exporter scrape pipeline in Dafny

natasha_exporter is a Prometheus exporter for the Natasha NAT gateway. On every Prometheus
collection it dials the Natasha server over TCP and sends four commands in a fixed order:
version, DPDK port statistics, application statistics and CPU usage. It reads the binary
replies and turns each record into labelled metrics. It then adds three metrics of its own:
the number of scrapes so far, whether this scrape succeeded, and the build information.

This project models that pipeline:

- `metrics.dfy` (module `Metrics`) is the static descriptor catalog of
  `pkg/metrics/metrics.go`: the DPDK and application counter maps, the CPU usage gauge, the
  `last_scrape_status` descriptor and how their fully qualified names and label names are
  built. `prom.dfy` (module `Prom`) holds the parts of the Prometheus client it relies on:
  descriptors, `BuildFQName` and `MustNewConstMetric` with its label-arity demand.
- `session.dfy` (module `Session`) is the connection as the scrape steps use it. `Conn` is a
  byte stream with a read position, a reply-header exchange and a close flag. `Channel` is the
  metric channel, a sequence that sends append to.
- `exporter_spec.dfy` and `scrape_spec.dfy` (modules `ExporterSpec`, `ScrapeSpec`) give, as
  functions, what each step, a whole scrape and a whole `Collect` push, consume and send, and
  how each ends. `wire.dfy` and `decimal.dfy` give the big-endian decoding of `encoding/binary`
  and the decimal rendering of `strconv.Itoa`.
- `exporter.dfy` (module `Exporter`) is the imperative code of `pkg/exporter/exporter.go`.
  There is one method per scrape step, each with the loop over its records, then `Scrape`, and
  the `Exporter` class with `NewExporter` as its constructor, `Describe` and `Collect`. Each
  method is proved against the functions above.
- `records.dfy` and `properties.dfy` (modules `Records`, `Properties`) prove what the code
  promises about those functions:
  - record counts come from integer division of the announced size;
  - each record yields its observations in order, with its label and its big-endian values;
  - the scrape stops at the first failing step and returns 1 only when all four finish;
  - `Collect` appends its three metrics after the scrape's;
  - `Describe` sends 19 descriptors, never the CPU usage gauge;
  - `natasha_up` is described but never collected.

A step that hits an error calls `log.Fatal`, which ends the process. The model's outcome for
that is `Exit`: nothing after the failing step runs, and `Collect` pushes nothing more. What
the steps pushed before the failure stays in the channel.

Three behaviours of the code are worth stating:

- the bytes of the announced size left over after the whole records are neither read nor
  rejected;
- a read or decode error ends the process rather than yielding a scrape status of 0;
- the CPU step has no special case for a frequency of zero.

## Model

| member | source | states |
|---|---|---|
| Wire.BeU64 | pkg/exporter/exporter.go:322 | a big-endian uint64 decoded from 8 bytes is below 2^64 |
| Wire.BeValue | pkg/exporter/exporter.go:135 | a big-endian value of n bytes, most significant byte first, is below 256^n |
| Wire.BeValueFirst | pkg/exporter/exporter.go:135 | the first byte of a big-endian field is its most significant one |
| Wire.BeDecodeEncode | pkg/exporter/exporter.go:135 | decoding the n-byte big-endian encoding of a value returns the value |
| Wire.BeEncodeDecode | pkg/exporter/exporter.go:336 | every byte string is the big-endian encoding of the value it decodes to, so decoding loses nothing |
| Decimal.Itoa | pkg/exporter/exporter.go:145 | the label of a port or core is a non-empty string of decimal digits |
| Decimal.ItoaNoLeadingZero | pkg/exporter/exporter.go:239 | a label starts with '0' exactly when the number is 0 |
| Decimal.AtoiItoa | pkg/exporter/exporter.go:347 | reading a label back as a decimal number gives the port or core number |
| Decimal.ItoaInjective | pkg/exporter/exporter.go:145 | two ports or cores get the same label exactly when their numbers are equal |
| Prom.BuildFQName | pkg/metrics/metrics.go:27 | the full name is empty when the name is; otherwise namespace, subsystem and name joined by "_", leaving out an empty subsystem |
| Prom.BuildFQNameInjective | pkg/metrics/metrics.go:26-32 | under one namespace and subsystem, two names give the same full name exactly when they are equal |
| Prom.MustNewConstMetric | pkg/exporter/exporter.go:141-146 | demands one label value per label name of the descriptor; the metric keeps the descriptor, the value and the label values |
| Metrics.LastScrapeStatus | pkg/metrics/metrics.go:16-21 | the descriptor is named natasha_last_scrape_status and has no labels |
| Metrics.NewDpdkStatsMetric | pkg/metrics/metrics.go:26-28 | the descriptor is named natasha_dpdk_stats_ plus the name, keeps the help text and the constant labels, and has the one label portid |
| Metrics.NewAppStatsMetric | pkg/metrics/metrics.go:30-32 | the descriptor is named natasha_app_stats_ plus the name, keeps the help text and the constant labels, and has the one label coreid |
| Metrics.CounterCounts | pkg/metrics/metrics.go:36-59 | the DPDK catalog has eight counters and the application catalog seven |
| Metrics.IsCounter | pkg/metrics/metrics.go:36-59 | every DPDK and every application counter is in its list of the catalog's keys |
| Metrics.DpdkKeysCapitalised | pkg/metrics/metrics.go:37-44 | every DPDK map key is an exported-style Go identifier: letters and digits, starting upper-case, as the struct field it names |
| Metrics.AppKeysCapitalised | pkg/metrics/metrics.go:52-58 | every application map key is an exported-style Go identifier, as the struct field it names |
| Metrics.DpdkNamesWellFormed | pkg/metrics/metrics.go:37-44 | every DPDK metric name is a name part Prometheus accepts: lower-case letters, digits and underscores, starting with a letter |
| Metrics.AppNamesWellFormed | pkg/metrics/metrics.go:52-58 | every application metric name is a name part Prometheus accepts |
| Metrics.CatalogsComplete | pkg/exporter/exporter.go:142-276 | every counter the DPDK and application steps look up by its key is a key of its catalog, so no lookup can miss |
| Metrics.DpdkDesc | pkg/metrics/metrics.go:37-44 | each DPDK counter's descriptor has its catalog name under natasha_dpdk_stats_, its help text, the label portid and no constant labels |
| Metrics.AppDesc | pkg/metrics/metrics.go:52-58 | each application counter's descriptor has its catalog name under natasha_app_stats_, its help text, the label coreid and no constant labels |
| Metrics.GetDpdkStatsMetrics | pkg/metrics/metrics.go:35-47 | the map has exactly the eight DPDK counters as keys, each mapped to its descriptor |
| Metrics.GetAppStatsMetrics | pkg/metrics/metrics.go:50-61 | the map has exactly the seven application counters as keys, each mapped to its descriptor |
| Metrics.GetCPUUsageMetrics | pkg/metrics/metrics.go:63-66 | the descriptor is named natasha_app_stats_real_cpu_usage with the one label coreid |
| Metrics.Lower | pkg/metrics/metrics.go:37-44 | lower-casing keeps the length, maps each upper-case ASCII letter to the lower-case one 32 code points above it and keeps every other character |
| Metrics.DpdkNamesAreLowerKeys | pkg/metrics/metrics.go:37-44 | every DPDK metric name is its map key in lower case |
| Metrics.JoinNameParts | pkg/metrics/metrics.go:26-32 | joining two accepted name parts with '_', as BuildFQName does, gives an accepted name part |
| Metrics.LowerCapitalised | pkg/metrics/metrics.go:37-58 | lower-casing an exported-style Go identifier gives an accepted name part |
| Metrics.LowerKeysWellFormed | pkg/metrics/metrics.go:37-58 | every map key of either catalog, lower-cased, is an accepted name part |
| Metrics.PrefixesWellFormed | pkg/metrics/metrics.go:9-32 | the two subsystem prefixes, natasha_dpdk_stats and natasha_app_stats, are accepted name parts |
| Metrics.DpdkFullNamesWellFormed | pkg/metrics/metrics.go:26-44 | every DPDK descriptor's full name is an accepted metric name |
| Metrics.AppFullNamesWellFormed | pkg/metrics/metrics.go:30-58 | every application descriptor's full name is an accepted metric name |
| Metrics.CpuFullNameWellFormed | pkg/metrics/metrics.go:30-66 | the CPU gauge's full name is an accepted metric name |
| Metrics.CatalogKeysDistinct | pkg/metrics/metrics.go:37-58 | distinct counters have distinct string keys |
| Metrics.CatalogNamesDistinct | pkg/metrics/metrics.go:35-66 | distinct counters of a catalog have distinct full names, and no application descriptor is the CPU usage gauge |
| Session.SendCmdResult | pkg/exporter/exporter.go:113 | a reply header never takes more bytes than the stream holds |
| Session.Conn.constructor | pkg/server/server.go:34-46 | a new connection starts at position 0 with nothing sent and is open |
| Session.Conn.Read | pkg/exporter/exporter.go:126-130 | a read of n bytes returns the next n bytes and advances, or fails with the position unchanged when fewer remain |
| Session.Conn.SendCmd | pkg/exporter/exporter.go:113-117 | records the command and returns the announced payload size after consuming the header, or fails |
| Session.Conn.Close | pkg/exporter/exporter.go:360 | the connection is closed |
| Session.Channel.constructor | pkg/exporter/exporter.go:404 | a new channel holds nothing |
| Session.Channel.Send | pkg/exporter/exporter.go:141-146 | a send appends exactly its value |
| ExporterSpec.EthRecordCount | pkg/exporter/exporter.go:120 | k whole 64-byte port records fit in a size exactly when k is at most size / 64, and size / 64 is the largest such k |
| ExporterSpec.AppRecordCount | pkg/exporter/exporter.go:205-206 | the same for 57-byte application records (a core id byte and 56 counter bytes) |
| ExporterSpec.CpuRecordCount | pkg/exporter/exporter.go:299-300 | the same for 17-byte CPU records (a core id byte, 8 cycle bytes, 8 frequency bytes) |
| ExporterSpec.U64Field | pkg/exporter/exporter.go:135 | field j of a record is a uint64, below 2^64 |
| ExporterSpec.DecodeEthStats | pkg/exporter/exporter.go:133-139 | field j of the decoded port struct, in declaration order, is the j-th big-endian uint64 of the 64-byte buffer |
| ExporterSpec.DecodeAppStats | pkg/exporter/exporter.go:228-233 | field j of the decoded application struct, in declaration order, is the j-th big-endian uint64 of the 56-byte buffer |
| ExporterSpec.DpdkObservation | pkg/exporter/exporter.go:141-146 | a DPDK push is a counter of the counter's catalog descriptor with the field's value and one label value, for the descriptor's one label |
| ExporterSpec.AppObservation | pkg/exporter/exporter.go:235-240 | an application push is a counter of the counter's catalog descriptor with the field's value and one label value |
| ExporterSpec.CpuObservation | pkg/exporter/exporter.go:343-348 | a CPU push is a gauge of the CPU usage descriptor holding the cycles and the frequency, with one label value |
| ExporterSpec.ObservationLabels | pkg/exporter/exporter.go:145 | the label of each push is all decimal digits and reads back as the port number or the core id |
| ExporterSpec.PortObservations | pkg/exporter/exporter.go:141-188 | one port record gives eight observations |
| ExporterSpec.CoreObservations | pkg/exporter/exporter.go:235-276 | one application record gives seven observations |
| ExporterSpec.PortObservationsAt | pkg/exporter/exporter.go:141-188 | observation j of a port is counter j, looked up in the catalog, labelled with the port number, with field j's value |
| ExporterSpec.CoreObservationsAt | pkg/exporter/exporter.go:235-276 | observation j of a core is counter j, labelled with the core id, with field j's value |
| ExporterSpec.EthRecord | pkg/exporter/exporter.go:121-126 | the buffer of one port record is 64 bytes |
| ExporterSpec.AppRecordStats | pkg/exporter/exporter.go:221-222 | the counter buffer of one application record is 56 bytes |
| ExporterSpec.PortBlocks | pkg/exporter/exporter.go:125-189 | one block of observations per port read, `ports` blocks in all |
| ExporterSpec.CoreBlocks | pkg/exporter/exporter.go:209-277 | one block of observations per application record read, `cores` blocks in all |
| ExporterSpec.DpdkObservations | pkg/exporter/exporter.go:125-189 | `ports` port records give eight observations each |
| ExporterSpec.AppObservations | pkg/exporter/exporter.go:209-277 | `cores` application records give seven observations each |
| ExporterSpec.CpuRecordObservation | pkg/exporter/exporter.go:303-348 | CPU record c gives a gauge of the CPU usage descriptor with one label value, holding two uint64s, the cycles and the frequency |
| ExporterSpec.CpuObservations | pkg/exporter/exporter.go:302-349 | `cores` CPU records give one observation each |
| ExporterSpec.ReadsConsumed | pkg/exporter/exporter.go:212-226 | reads that stop at the first one that does not fit never consume more than is there |
| ExporterSpec.DpdkRecords | pkg/exporter/exporter.go:125-189 | the port loop over a payload never consumes more than the payload holds |
| ExporterSpec.AppRecords | pkg/exporter/exporter.go:209-277 | the application record loop over a payload never consumes more than the payload holds |
| ExporterSpec.CpuRecords | pkg/exporter/exporter.go:302-349 | the CPU record loop over a payload never consumes more than the payload holds |
| ExporterSpec.VersionStep | pkg/exporter/exporter.go:89-108 | the version step never consumes more than the stream holds |
| ExporterSpec.DpdkStep | pkg/exporter/exporter.go:110-192 | the DPDK step never consumes more than the stream holds |
| ExporterSpec.AppStep | pkg/exporter/exporter.go:194-280 | the application step never consumes more than the stream holds |
| ExporterSpec.CpuStep | pkg/exporter/exporter.go:282-352 | the CPU step never consumes more than the stream holds |
| ExporterSpec.DpdkRecordsAfter | pkg/exporter/exporter.go:125-131 | once `port` records have been read and the next read fails, or all have been read, the port loop has pushed exactly those records' observations, consumed their 64 bytes each, and ends in Fatal or Done |
| ExporterSpec.AppRecordsAfter | pkg/exporter/exporter.go:209-226 | the same for the application loop, where a failing read of the next record still consumed what the reads before it in that record took |
| ExporterSpec.CpuRecordsAfter | pkg/exporter/exporter.go:302-333 | the same for the CPU loop and its three reads a record |
| ExporterSpec.AppReadsConsumed | pkg/exporter/exporter.go:211-224 | a short application record consumes its core id byte when there is one, and nothing else |
| ExporterSpec.CpuReadsConsumed | pkg/exporter/exporter.go:304-331 | a short CPU record consumes the core id, then the cycles, as far as they fit |
| ExporterSpec.DpdkGrow | pkg/exporter/exporter.go:125-189 | the observations of n + 1 ports are those of n ports followed by port n's |
| ExporterSpec.AppGrow | pkg/exporter/exporter.go:209-277 | the observations of n + 1 application records are those of n followed by record n's |
| ExporterSpec.CpuGrow | pkg/exporter/exporter.go:302-349 | the observations of n + 1 CPU records are those of n followed by record n's |
| Records.FieldBytes | pkg/exporter/exporter.go:126-135 | field j of the record read at offset off is the uint64 at bytes off + 8j to off + 8j + 8 of the stream |
| Records.PortRecordAt | pkg/exporter/exporter.go:126-188 | observation j of port p is counter j's descriptor, a counter, the big-endian value at bytes 64p + 8j to 64p + 8j + 8, and the label Itoa(p) |
| Records.DpdkObservationsSlice | pkg/exporter/exporter.go:125-189 | observations 8p to 8p + 8 are port p's, in order |
| Records.DpdkObservationsAt | pkg/exporter/exporter.go:125-189 | observation 8p + j of the step is counter j of port p, with its big-endian value and the label Itoa(p) |
| Records.CoreRecordAt | pkg/exporter/exporter.go:210-276 | observation j of application record c is counter j's descriptor, the value at bytes 57c + 1 + 8j to 57c + 9 + 8j, and the label of the core id byte at 57c |
| Records.AppObservationsSlice | pkg/exporter/exporter.go:209-277 | observations 7c to 7c + 7 are application record c's, in order |
| Records.AppObservationsAt | pkg/exporter/exporter.go:209-277 | observation 7c + j is counter j of record c, labelled with that record's core id byte |
| Records.CpuObservationsAt | pkg/exporter/exporter.go:302-348 | observation c is a gauge of the CPU usage descriptor, labelled with record c's core id byte, holding its cycles and frequency |
| Records.VersionStepEnds | pkg/exporter/exporter.go:89-108 | the version step pushes nothing and runs to its end exactly when the header arrives and the announced payload is there, having then read the header and the whole payload |
| Records.DpdkStepEnds | pkg/exporter/exporter.go:110-192 | the DPDK step ends well exactly when DataSize / 64 whole records are there; it then consumes DataSize less its remainder modulo 64 and pushes 8 per port |
| Records.AppStepEnds | pkg/exporter/exporter.go:194-280 | the application step ends well exactly when DataSize / 57 whole records are there; it then consumes DataSize less its remainder modulo 57 and pushes 7 per record |
| Records.CpuStepEnds | pkg/exporter/exporter.go:282-352 | the CPU step ends well exactly when DataSize / 17 whole records are there; it then consumes DataSize less its remainder modulo 17 and pushes one per record |
| ScrapeSpec.PackageCatalogs | pkg/exporter/exporter.go:123 | the catalogs the steps look up have the label arity every push needs |
| ScrapeSpec.Step | pkg/exporter/exporter.go:362-380 | a step never consumes more than the stream holds |
| ScrapeSpec.RunSteps | pkg/exporter/exporter.go:362-382 | a run of steps never consumes more than the stream holds |
| ScrapeSpec.RunStepsFatal | pkg/exporter/exporter.go:362-366 | a run whose first step fails is that step alone, ending in Fatal |
| ScrapeSpec.RunStepsDone | pkg/exporter/exporter.go:362-382 | a run whose first step ends well continues with the other commands on the rest of the stream |
| ScrapeSpec.ScrapeRun | pkg/exporter/exporter.go:354-383 | a scrape is down exactly when the dial fails, and then pushes and sends nothing; a dialed scrape sends the version command first |
| ScrapeSpec.StatusValue | pkg/exporter/exporter.go:354-383 | the status is 1 exactly when the scrape is up, and 0 otherwise |
| ScrapeSpec.BuildInfoDesc | pkg/exporter/exporter.go:48-53 | natasha_build_info has the four labels version, revision, builddate and goversion |
| ScrapeSpec.NewNatashaCollectorMetrics | pkg/exporter/exporter.go:40-55 | the collector keeps the four build strings and the build-info descriptor |
| ScrapeSpec.TotalScrapesDesc | pkg/exporter/exporter.go:73-77 | the scrape counter is named natasha_exporter_total_scrapes and has no labels |
| ScrapeSpec.NatashaStatusDesc | pkg/exporter/exporter.go:78-82 | the status descriptor is named natasha_up and has no labels |
| ScrapeSpec.TotalScrapesMetric | pkg/exporter/exporter.go:411 | the pushed counter is the total-scrapes descriptor with the current count and no labels |
| ScrapeSpec.SelfMetrics | pkg/exporter/exporter.go:411-424 | Collect's own three metrics are the scrape counter with the total, the status counter with the status, and the build-info metric with value 1 and the four build strings as label values, each with one label value per label name |
| ScrapeSpec.CollectRun | pkg/exporter/exporter.go:404-425 | Collect counts one more scrape, ends as its scrape does, and keeps the scrape's observations first, followed by three more unless the process exited |
| ScrapeSpec.Pick | pkg/exporter/exporter.go:393-399 | a pass over a map sends one value per key met, in the order met |
| ScrapeSpec.PickSnoc | pkg/exporter/exporter.go:393-399 | meeting one more key sends its value last |
| ScrapeSpec.FixedDescs | pkg/exporter/exporter.go:388-391 | Describe first sends four descriptors |
| ScrapeSpec.Described | pkg/exporter/exporter.go:387-400 | Describe sends 4 descriptors plus one per entry of each catalog, natasha_up second, then the application descriptors in the order their keys were met, then the DPDK ones |
| Exporter.ScrapeVersion | pkg/exporter/exporter.go:89-108 | sends the version command, reads and drops the payload, and leaves the stream, the channel and the outcome as VersionStep says |
| Exporter.ScrapeDpdkStats | pkg/exporter/exporter.go:110-192 | sends the DPDK command and leaves the stream, the channel and the outcome as DpdkStep says |
| Exporter.ReadPorts | pkg/exporter/exporter.go:125-189 | reads port records until DataSize / 64 are read or a read fails; the outcome, the observations appended and the bytes consumed are DpdkRecords' |
| Exporter.ReadPort | pkg/exporter/exporter.go:126-188 | reads one record when it is there and pushes its eight observations; otherwise nothing changes |
| Exporter.PushPort | pkg/exporter/exporter.go:141-188 | pushes the eight observations of one decoded port record, in order |
| Exporter.ScrapeAppStats | pkg/exporter/exporter.go:194-280 | sends the application command and leaves the stream, the channel and the outcome as AppStep says |
| Exporter.ReadCores | pkg/exporter/exporter.go:209-277 | reads application records until DataSize / 57 are read or a read fails; the outcome, the observations appended and the bytes consumed are AppRecords' |
| Exporter.ReadCore | pkg/exporter/exporter.go:210-276 | reads the core id byte and the 56 counter bytes, and pushes the seven observations, or stops where a read fails |
| Exporter.PushCore | pkg/exporter/exporter.go:235-276 | pushes the seven observations of one decoded application record, in order |
| Exporter.ScrapeCPUStat | pkg/exporter/exporter.go:282-352 | sends the CPU command and leaves the stream, the channel and the outcome as CpuStep says |
| Exporter.ReadCpus | pkg/exporter/exporter.go:302-349 | reads CPU records until DataSize / 17 are read or a read fails; the outcome, the gauges appended and the bytes consumed are CpuRecords' |
| Exporter.ReadCpu | pkg/exporter/exporter.go:303-348 | reads the core id, the cycles and the frequency, and pushes the gauge, or stops where a read fails |
| Exporter.Scrape | pkg/exporter/exporter.go:354-383 | pushes, sends and returns what ScrapeRun gives for the dial; the connection ends closed exactly when it was closed already or the scrape is up, and has read exactly what RunSteps consumes |
| Exporter.RunCommands | pkg/exporter/exporter.go:362-382 | runs the commands in order until one fails, as RunSteps says |
| Exporter.RunCommand | pkg/exporter/exporter.go:362-380 | runs the step of one command, as Step says |
| Exporter.SendValues | pkg/exporter/exporter.go:393-399 | sends every value of a map once, in some order of its keys |
| Exporter.Exporter.constructor | pkg/exporter/exporter.go:71-87 | the counter starts at 0 and the descriptors and catalogs are those of the package |
| Exporter.Exporter.Describe | pkg/exporter/exporter.go:387-400 | sends the four fixed descriptors, then every application descriptor, then every DPDK descriptor, each in some map order |
| Exporter.Exporter.Collect | pkg/exporter/exporter.go:404-425 | increments the counter by one, scrapes, then pushes the counter, the scrape status and the build information, as CollectRun says; sends the commands ScrapeRun sends, and leaves the connection closed exactly when it was closed already or the scrape is up, having read exactly what RunSteps consumes |
| Exporter.Exporter.SendSelfMetrics | pkg/exporter/exporter.go:411-424 | pushes the scrape counter, the scrape status and the build information, exactly the three metrics SelfMetrics lists |
| Properties.RunStepsStops | pkg/exporter/exporter.go:362-382 | the commands sent are a prefix of those asked; all are sent when the run ends well; a run that stops early ends in Fatal |
| Properties.RunTwo | pkg/exporter/exporter.go:362-370 | two steps run one after the other, the second only if the first ends well |
| Properties.RunThree | pkg/exporter/exporter.go:362-375 | three steps run in order, each only if the one before ended well |
| Properties.RunFour | pkg/exporter/exporter.go:362-382 | four steps run in order, each only if the one before ended well |
| Properties.ScrapeSteps | pkg/exporter/exporter.go:362-382 | a dialed scrape is up exactly when all four steps end well; when step k fails, the scrape keeps what steps 1 to k pushed, has sent the first k commands, and ends in Exit |
| Properties.ScrapeStepsEarly | pkg/exporter/exporter.go:362-370 | when the version or the DPDK step fails, the scrape keeps what those steps pushed, has sent those commands, and ends in Exit |
| Properties.ScrapeStepsLate | pkg/exporter/exporter.go:362-382 | a dialed scrape is up exactly when all four steps end well; after two steps that end well, a failing application step ends it in Exit, and otherwise it runs the CPU step last |
| Properties.ScrapeStatus | pkg/exporter/exporter.go:354-383 | a scrape is down exactly when the dial fails, and then it pushes and sends nothing; it returns 1 exactly when the dial succeeds and every step ends well |
| Properties.CollectAppends | pkg/exporter/exporter.go:404-425 | Collect increments the counter by 1; unless the process exited, it appends the counter, the status and the build information (value 1, four labels) after the scrape's observations |
| Properties.CollectDialFailed | pkg/exporter/exporter.go:356-359 | when the dial fails, Collect pushes only its three own metrics, with status 0 |
| Properties.PublishedUnderAppend | pkg/exporter/exporter.go:141-188 | two sequences published under a set of descriptors are still so when joined |
| Properties.ConcatPublished | pkg/exporter/exporter.go:125-277 | blocks of observations that each publish under a set of descriptors still do one after another |
| Properties.DpdkObservationsPublished | pkg/exporter/exporter.go:141-188 | every DPDK observation carries a catalog descriptor and one label value per label name |
| Properties.AppObservationsPublished | pkg/exporter/exporter.go:235-276 | every application observation carries a catalog descriptor and one label value per label name |
| Properties.CpuObservationsPublished | pkg/exporter/exporter.go:343-348 | every CPU observation carries the CPU usage descriptor and its one label value |
| Properties.CatalogDescs | pkg/exporter/exporter.go:123 | gathers the descriptors the steps publish under |
| Properties.StepPublished | pkg/exporter/exporter.go:89-352 | every step publishes only under the catalogs, with matching label arity |
| Properties.RunStepsPublished | pkg/exporter/exporter.go:362-382 | every run of steps publishes only under the catalogs |
| Properties.SelfDescs | pkg/exporter/exporter.go:411-424 | gathers the descriptors of Collect's own three metrics |
| Properties.CollectPublished | pkg/exporter/exporter.go:404-425 | everything Collect pushes carries a catalog or own descriptor, with one label value per label name |
| Properties.ScrapePublished | pkg/exporter/exporter.go:354-383 | everything a scrape pushes carries a catalog descriptor, with one label value per label name |
| Properties.SelfPublished | pkg/exporter/exporter.go:411-424 | Collect's own three metrics carry its own descriptors, with one label value per label name |
| Properties.PublishedNotStatus | pkg/exporter/exporter.go:78-82 | no descriptor the exporter can publish under is natasha_up |
| Properties.StatusNeverCollected | pkg/exporter/exporter.go:404-425 | no observation of any Collect carries the natasha_up descriptor |
| Properties.EnumeratesSize | pkg/exporter/exporter.go:393-399 | one pass over a map meets as many keys as the map has |
| Properties.DpdkDescNotCpu | pkg/metrics/metrics.go:35-66 | no DPDK descriptor is the CPU usage gauge |
| Properties.PickCovers | pkg/exporter/exporter.go:393-399 | one pass over a map sends the value of every key |
| Properties.PickExactly | pkg/exporter/exporter.go:393-399 | one pass over a map sends exactly the values of the map |
| Properties.CpuNotCataloged | pkg/metrics/metrics.go:35-66 | the CPU usage gauge is in neither catalog |
| Properties.FixedNotCpu | pkg/exporter/exporter.go:388-391 | none of the four fixed descriptors is the CPU usage gauge |
| Properties.DescribedShape | pkg/exporter/exporter.go:387-400 | Describe sends 4 descriptors plus one per entry of each catalog, the four fixed ones first; a descriptor is sent exactly when it is fixed or a value of either catalog |
| Properties.DescribedDescs | pkg/exporter/exporter.go:387-400 | Describe sends 19 descriptors including natasha_up and every catalog descriptor, but never the CPU usage gauge |

## Left out

- Exporter.ReadCpu: the gauge holds the exact pair `Ratio(cycles, freq)` instead of the float64
  usage `100 * cycles / freq` rounded to two decimals (pkg/exporter/exporter.go:342-346),
  because floating point is not modelled; so a zero frequency is not a special case.
- Exporter.PushPort: counter values keep their exact uint64 value; the float64 conversion
  before publishing (pkg/exporter/exporter.go:144), which rounds values above 2^53, is not
  modelled. The same holds for Exporter.PushCore.
- The reply header and the command exchange of the `headers` and `handlers` packages are not
  part of this model. `Session.SendCmdResult` takes its place, as a function of an abstract
  peer: it gives the announced DataSize and the header's byte count, or an error. The 64-,
  56- and 1-byte sizes of the record structs are constants of the model.
- `Session.Conn.Read` fills its whole buffer or fails. A short read that returns fewer bytes
  without an error is not modelled.
- The error branch of `binary.Read` after a read that filled the buffer cannot be taken: a
  buffer of exactly the struct's size always decodes. It is left out.
- The mutex of `Collect`, the dial address, the messages printed on a dial failure, the
  timeout and URI fields, and the start time of the collector are left out. The dial is a
  parameter of `Scrape` and `Collect` (`Dial`).
- The order of a Go map range is unspecified, so `Describe` returns it as a ghost result
  that lists every key once.
- `Exporter.Scrape`: the `return err` after `log.Fatal` and the deferred `conn.Close` never
  run, because the process ends first. The model's outcome is `Exit`, and the connection is
  closed only when every step ends well.
- `Exporter.RunCommands`: the straight-line calls of `scrape` are written as a run over the
  list of four commands, each stopping the run on failure.
- The steps take their catalogs as a parameter (`Catalogs`); `ScrapeSpec.PackageCatalogs` is
  what the source's getters return.
- The string-keyed catalog maps are keyed by two enumerations. `Metrics.DpdkKey` and
  `Metrics.AppKey` give the string keys, and `Metrics.CatalogKeysDistinct` shows that nothing
  is lost.
- The `headers` structs are modelled as fields in their declaration order. `NatashaEthStats`
  is eight uint64s, Ipackets to RxNombuf, and `NatashaAppStats` is seven uint64s, DropNoRule
  to DropTxNotsent, with no padding. The 64- and 56-byte widths and the field order of the
  decoders rest on that layout.
- `DataSize` is an unbounded natural number, so `int(reply.DataSize)` at
  pkg/exporter/exporter.go:120, 205 and 299 is exact. If the header's field is an unsigned
  64-bit integer, a Go DataSize of 2^63 or more converts to a negative count. Then no record
  is read and the step ends Done, where the model reads until a read fails and ends Fatal.
- `New` with `prometheus.MustRegister`, the HTTP server, the command line and the
  configuration are not part of this model.
