# electricity-meter-rs in Dafny

A model of the core of electricity-meter-rs, a program that reads SML
transmissions (Smart Message Language) from an electricity meter's optical
serial interface. It resolves the OBIS identifiers of the reported values
against a catalog and prints the readings. The source also defines seven
Prometheus gauges with an `update_metric` dispatch, and it declares
`read_meter` to take a map of counters, although both callers pass a
`&Metrics`; the model takes the signature as written. No code path in the
source writes a gauge or a counter:
`update_metric` is never called and the counter increment in `read_meter` is
commented out. `Metrics.Metrics.UpdateMetric` is therefore modelled on its own.

The model has one module per source file:

| module | file | contents |
|---|---|---|
| `ReadSerial` (read_serial.dfy) | src/lib/read_serial.rs | The full catalog `ObiNames`: 33 entries, each with an identifier, pretty name, metric name and export flag. Also its lookup map, the hexadecimal rendering of `OctSlice`, and the read loop of `main`. |
| `SerialObi` (obi.dfy) | src/serial/obi.rs | The nine `OBI_*` constants, `ObiType` and `pretty_name`, the nine-entry lookup map, and `MessageUnit`/`MessageValue`/`Message`. |
| `Metrics` (metrics.dfy) | src/metrics.rs | The seven gauges as a class, `default`, `new` with its registrations, and `update_metric`. |
| `SerialMeter` (meter.dfy) | src/serial/meter.rs | The `read_meter` loop. |
| `SerialModel` (model.dfy) | src/serial/model.rs | `OctSlice` and `Unit::try_from`. |
| `Obis`, `Sml`, `Fmt`, `Wrappers` | – | Shared vocabulary. `Obis` holds bytes, six-byte identifiers and `try_into`. `Sml` is the decoder's data as the loops see it, plus the point where a loop stops reading. `Fmt` is the formatter sink. `Wrappers` holds `Option`/`Result`. |

How each part is modelled:

- **Catalog and maps.** The catalog tables are functions. `ObiNames::obi()` is split into one function per column: `Id`, `PrettyName`, `MetricName` and `Exportable`.
- **`get_lookup_map`.** It is a method, proved equal to a map defined as a fold of inserts.
- **`lookup_obi_name`.** It is a function whose contract is its whole meaning: it finds the variant with that identifier, and only such a variant.
- **Read loops.** Both read loops are methods with the source's nested loops. Each one's output is proved equal to a specification function (`MainOutput`, `MeterOutput`). The properties of those functions are proved as lemmas: where the loop stops, what it prints, and that skipped entries and earlier results do not disturb later ones.
- **Reader input.** A run of the reader is the sequence of results its successive `read::<File>()` calls return.
- **Gauges.** A Prometheus gauge is a `Gauge` object with a mutable value. `Gauge::clone` shares the value, so a clone is the same reference.

Where the source is inconsistent, the model follows the code as written:

- **`read_meter` uses the full catalog.** `read_meter` calls `obi.id()` and `obi.obi().metric_name`, which only the full catalog `ObiNames` has. So `SerialMeter` resolves identifiers through `ReadSerial.LookupObiName`. It still uses the `Unit` of src/serial/model.rs.
- **Two self-contained catalogs.** src/serial/obi.rs and src/metrics.rs form a second catalog and its sink.
- **`update_metric` ignores the payload.** Its match patterns name the `ObiType` variants without their `Obi` payload. The model dispatches on the variant alone.
- **Identification variants write meter-reading gauges.** As written, `update_metric` sends `DeviceIdentification` to the total meter-reading gauge and `ManufacturerIdentification` to the tariff-1 meter-reading gauge (`Metrics.TargetPreimages`).
- **Active power current has two identifiers.** The two catalogs disagree on the current active power: src/serial/obi.rs uses 01 00 0F 07 00 FF and src/lib/read_serial.rs uses 01 00 10 07 00 FF. Each module keeps its own value (`SerialObi.ActivePowerCurrentLookup`).
- **Tariff names refer to phases.** In src/serial/obi.rs the two active-power tariff entries are named after phases, "Wirkleistung L1" and "Wirkleistung L2".
- **`Unit::try_from` uses hexadecimal 0x30.** It accepts 0x30 (48) as watt-hours. The COSEM unit table (IEC 62056-6-2) gives watt-hours the code 30 in decimal. So the unit byte a meter sends for Wh is rejected. The result is discarded in any case (`SerialModel.UnitCodeIsHexadecimal`, `SerialMeter.MeterReadingScenario`).

## Model

| member | source | states |
|---|---|---|
| Obis.TryIntoId | src/lib/read_serial.rs:395 | Converting the object name to `[u8; 6]` succeeds exactly when it is six bytes long. |
| Obis.TryIntoBytes | src/lib/read_serial.rs:395 | An identifier's bytes convert back to that identifier. |
| Obis.BytesOfTryInto | src/serial/meter.rs:27 | A successful conversion keeps the six bytes unchanged. |
| Sml.Consumed | src/lib/read_serial.rs:388-417 | A read loop takes results up to and including the first `IoErr`, or all of them when none comes. None of the results before that point is an `IoErr`. |
| Sml.ConsumedAppend | src/lib/read_serial.rs:388-417 | After a stretch without `IoErr`, the remaining results are consumed as if that stretch were absent. |
| Sml.StopsAtFirstIoErr | src/lib/read_serial.rs:408-415 | Suppose handling one result prints the exit marker exactly for an `IoErr`. Then the loop's output ends with the marker exactly when an `IoErr` arrives, and contains it nowhere else. |
| ReadSerial.Id | src/lib/read_serial.rs:262-264 | Every identifier has value group A 0x01 (electricity), except the two manufacturer-specific entries, which have 0x81; `IdInjective` adds that no two variants share one. |
| ReadSerial.ObiOf | src/lib/read_serial.rs:59-260 | A variant's record carries an identifier that belongs to that variant alone; `MeterReadingTotalRecord` pins one record down field by field. |
| ReadSerial.AllNamesComplete | src/lib/read_serial.rs:14-48 | The list of catalog variants contains every variant. |
| ReadSerial.AllNamesDistinct | src/lib/read_serial.rs:14-48 | The list has 33 entries and no repeats. |
| ReadSerial.IdInjective | src/lib/read_serial.rs:59-259 | No two catalog entries share an identifier. |
| ReadSerial.MetricNameInjective | src/lib/read_serial.rs:64-256 | No two catalog entries share a metric name. |
| ReadSerial.ExportableEntries | src/lib/read_serial.rs:65-257 | An entry is exportable exactly when it is one of the three meter readings or the total active energy. |
| ReadSerial.MeterReadingTotalRecord | src/lib/read_serial.rs:67-72 | The total meter reading has id 01 00 01 08 00 FF, pretty name "Zählerstand Total", metric name "meterreadingtotal", and is exportable. |
| ReadSerial.InsertedEntries | src/lib/read_serial.rs:272-343 | After a series of inserts, every key maps to an inserted variant with that identifier, and every inserted variant is present. |
| ReadSerial.InsertedSize | src/lib/read_serial.rs:272-343 | Inserting pairwise distinct variants never overwrites, so the map holds one key per insert. |
| ReadSerial.GetLookupMap | src/lib/read_serial.rs:269-346 | The built map equals the fold of the 33 inserts in declaration order. |
| ReadSerial.LookupMapContents | src/lib/read_serial.rs:269-346 | The lookup map has 33 keys. Every variant is stored under its own identifier, and every key holds the variant it identifies. |
| ReadSerial.LookupObiName | src/lib/read_serial.rs:348-350 | The lookup finds a variant exactly when some variant has the identifier, and then it is that variant. |
| ReadSerial.UnknownIdNotFound | src/lib/read_serial.rs:348-350 | FF FF FF FF FF FF is not in the catalog. |
| ReadSerial.HexDigit | src/lib/read_serial.rs:359 | A nibble renders as an upper-case hexadecimal digit whose value is that nibble. |
| ReadSerial.HexDumpRoundTrip | src/lib/read_serial.rs:355-363 | The rendering is three characters per byte and parses back to the original bytes. |
| ReadSerial.HexDumpAlphabet | src/lib/read_serial.rs:355-363 | The rendering contains only upper-case hexadecimal digits and spaces. |
| ReadSerial.DisplayFmt | src/lib/read_serial.rs:355-363 | `Display` appends exactly the hex dump of the bytes to the formatter. |
| ReadSerial.UpperHexFmt | src/lib/read_serial.rs:365-372 | `UpperHex` appends the same text as `Display`. |
| ReadSerial.EntryOutputCatalog | src/lib/read_serial.rs:393-403 | An entry named by a variant's identifier prints that variant's pretty name and value exactly when the variant is exportable and the value is an `I64`. An entry with any other name prints nothing. |
| ReadSerial.PrintList | src/lib/read_serial.rs:393-403 | The entry loop prints, in list order, what each entry contributes. |
| ReadSerial.PrintFile | src/lib/read_serial.rs:391-405 | The message loop prints what the entries of each `GetListResponse` contribute; other message kinds print nothing. |
| ReadSerial.ReadLoop | src/lib/read_serial.rs:388-417 | `main` reads exactly up to the first `IoErr` and prints `MainOutput(results)`. |
| ReadSerial.MainPrintsOnlyExportable | src/lib/read_serial.rs:396-399 | Every printed reading carries the pretty name of an exportable catalog entry. |
| ReadSerial.EntryReadingExportable | src/lib/read_serial.rs:396-399 | A reading printed for one entry carries the pretty name of an exportable catalog entry. |
| ReadSerial.ExitOnlyOnIoErr | src/lib/read_serial.rs:408-415 | One result prints the exit report exactly when it is an `IoErr`. |
| ReadSerial.MainExitsOnIoErr | src/lib/read_serial.rs:388-417 | The output ends with the exit report exactly when an `IoErr` arrives, and the report appears nowhere else. |
| ReadSerial.MainOutputAppend | src/lib/read_serial.rs:388-417 | Results before a point without `IoErr` do not change how the later results are handled. |
| ReadSerial.SkippedEntryHarmless | src/lib/read_serial.rs:393-403 | An entry that prints nothing leaves the output of the entries around it unchanged. |
| ReadSerial.MeterReadingScenario | src/lib/read_serial.rs:396-399 | A total meter reading of 123456 prints as "Zählerstand Total: 123456". |
| ReadSerial.SilentScenarios | src/lib/read_serial.rs:395-398 | Three entries print nothing: one with an unknown identifier, one for a non-exportable entry, and one with a non-integer value. |
| ReadSerial.StopScenario | src/lib/read_serial.rs:408-415 | A parse error is reported and reading continues. After an `IoErr`, the next frame is never read. |
| SerialModel.TryFromUnit | src/serial/model.rs:10-19 | The conversion succeeds, as `Wh`, exactly for the byte 0x30 and rejects every other byte. |
| SerialModel.ExactlyOneUnitByte | src/serial/model.rs:13-18 | Of the 256 byte values, exactly one converts. |
| SerialModel.UnitCodeIsHexadecimal | src/serial/model.rs:15 | Byte 48 converts to `Wh`; byte 30, the decimal COSEM code for Wh, is rejected. |
| SerialObi.DisplayMessageUnit | src/serial/obi.rs:11-24 | A unit displays as at most two characters, and the display reads back as that unit. |
| SerialObi.MessageUnitDisplayInjective | src/serial/obi.rs:11-24 | No two units display alike. |
| SerialObi.PrettyName | src/serial/obi.rs:58-72 | `pretty_name` returns the wrapped `Obi`'s name for every variant. |
| SerialObi.ConstantsDistinct | src/serial/obi.rs:74-82 | The nine identifier constants are pairwise distinct. |
| SerialObi.GetLookupMap | src/serial/obi.rs:85-153 | The nine inserts build the lookup map. |
| SerialObi.LookupMapKeys | src/serial/obi.rs:85-153 | The map's keys are exactly the nine constants. |
| SerialObi.LookupMapSize | src/serial/obi.rs:85-153 | No insert overwrites another, so the map has nine entries. |
| SerialObi.LookupMapIds | src/serial/obi.rs:85-153 | Every entry wraps the identifier it is stored under. |
| SerialObi.LookupObiName | src/serial/obi.rs:155-157 | The lookup succeeds exactly for the nine constants, and the found variant wraps the identifier looked up. |
| SerialObi.IdentificationLookups | src/serial/obi.rs:85-153 | The device and manufacturer identification constants find their variants and German names. |
| SerialObi.MeterReadingLookups | src/serial/obi.rs:95-115 | The three meter-reading constants find their variants and names. |
| SerialObi.ActivePowerLookups | src/serial/obi.rs:116-143 | The four active-power constants find their variants and names. |
| SerialObi.ActivePowerCurrentLookup | src/serial/obi.rs:123-129 | 01 00 0F 07 00 FF is "aktuelle Wirkleistung". 01 00 10 07 00 FF is unknown to this catalog. |
| Metrics.AllFieldsComplete | src/metrics.rs:4-12 | The set of gauge fields lists all seven fields. |
| Metrics.GaugeNamesDistinct | src/metrics.rs:31-62 | The seven metric names are pairwise distinct. |
| Metrics.GaugeNamesPrefixed | src/metrics.rs:31-62 | Every metric name starts with `electricity_meter_`. |
| Metrics.RegistrationOrderComplete | src/metrics.rs:63-83 | The registration order lists each of the seven names exactly once. |
| Metrics.RegistrationStep | src/metrics.rs:63-83 | Each registration's name is new: it was neither registered beforehand nor earlier in `new`. |
| Metrics.Registry.RegisterNew | src/metrics.rs:63-65 | `register(...).unwrap()` appends the gauge's name when the name is new. |
| Metrics.RegisterInOrder | src/metrics.rs:63-83 | The seven registrations all succeed and append the names in field order. |
| Metrics.Metrics.Default | src/metrics.rs:14-27 | All seven fields hold one fresh gauge named "test". |
| Metrics.Metrics.New | src/metrics.rs:30-94 | `new` creates seven fresh, distinct gauges with their names and help texts, all reading 0, and registers them in field order. |
| Metrics.Target | src/metrics.rs:97-125 | Each measurement variant selects the gauge of the same name. The two identification variants select the total or tariff-1 meter-reading gauge; `TargetPreimages` says which. |
| Metrics.NamesakeMissingForIdentification | src/metrics.rs:104-124 | Only the two identification variants have no gauge of the same name. |
| Metrics.TargetPreimages | src/metrics.rs:97-125 | Gives exactly which variants reach each gauge. The total gauge is reached from `DeviceIdentification` and `MeterReadingTotal`. The tariff-1 gauge is reached from `ManufacturerIdentification` and `MeterReadingTariff1`. Every other gauge is reached from its namesake alone. |
| Metrics.Metrics.UpdateMetric | src/metrics.rs:96-126 | The target gauge reads `value`, whatever it held, and every other gauge object keeps its value; fields that share the target object therefore read `value` too. |
| Metrics.UpdateFreshMetrics | src/metrics.rs:96-126 | On metrics from `new`, one update changes exactly one gauge; the other six still read 0. |
| Metrics.UpdateDefaultMetrics | src/metrics.rs:16-25 | On default metrics, an update through any variant shows in all seven fields. |
| Metrics.UpdateTwice | src/metrics.rs:96-126 | Updates overwrite rather than accumulate: after two updates the gauge reads the second value. |
| SerialMeter.EntryOutputCatalog | src/serial/meter.rs:26-45 | An entry named by a variant's identifier prints the metric name, value and unit exactly when that identifier has a counter and the value is an `I64`. The export flag plays no part. An entry with any other name prints nothing. |
| SerialMeter.PrintList | src/serial/meter.rs:25-51 | The entry loop prints, in list order, what each entry contributes. The unit conversion has no effect. |
| SerialMeter.PrintFile | src/serial/meter.rs:23-53 | Only `GetListResponse` messages contribute output. |
| SerialMeter.ReadMeter | src/serial/meter.rs:15-65 | `read_meter` reads exactly up to the first `IoErr` and prints `MeterOutput(counters.Keys, results)`. It has no `modifies` clause, so it changes no counter. |
| SerialMeter.FileReadingCounted | src/serial/meter.rs:23-45 | Every reading printed for one file carries the metric name of a catalog entry whose identifier has a counter. |
| SerialMeter.EntryReadingCounted | src/serial/meter.rs:28-45 | A reading printed for one entry carries the metric name of a catalog entry whose identifier has a counter. |
| SerialMeter.MeterPrintsOnlyCounted | src/serial/meter.rs:28-45 | Every printed reading carries the metric name of a catalog entry whose identifier has a counter. |
| SerialMeter.ExitOnlyOnIoErr | src/serial/meter.rs:55-63 | One result prints the exit report exactly when it is an `IoErr`. |
| SerialMeter.MeterExitsOnIoErr | src/serial/meter.rs:20-64 | The output ends with the exit report exactly when an `IoErr` arrives, and the report appears nowhere else. |
| SerialMeter.MeterOutputAppend | src/serial/meter.rs:20-64 | Earlier results without `IoErr` do not change how later results are handled. |
| Sml.FlatMapSkip | src/serial/meter.rs:25-51 | An element whose handling contributes nothing leaves the output of the elements around it unchanged. |
| SerialMeter.SkippedEntryHarmless | src/serial/meter.rs:25-51 | A skipped entry leaves the output of the entries around it unchanged. |
| SerialMeter.MeterReadingScenario | src/serial/meter.rs:29-45 | With a counter for the total meter reading, its entry prints "meterreadingtotal", the value and the unit byte; without the counter it prints nothing. |
| SerialMeter.NonExportableScenario | src/serial/meter.rs:28-30 | A non-exportable entry that has a counter is printed. |

## Left out

- Serial port setup, the `sml_rs` decoder and the standard output are not modelled. A run of the reader is given as the list of results its `read` calls return, and the printed lines are values of a `Printed` datatype, not formatted text.
- The read loops are endless in the source. A finite list of results models them: a list without an `IoErr` stands for the part of a run observed so far. The ports are opened with a read timeout (10 s in src/lib/read_serial.rs and src/bin/read_serial.rs, 30 s in src/main.rs), so a silent link shows up as an `IoErr` after that timeout and ends the loop; the mapping of a timeout to `IoErr` belongs to the decoder, which is not part of this model.
- The error payloads (`IoErr`'s `std::io::Error`, the other decoder errors) are reduced to two classes, because only the class decides what the loop does.
- Prometheus internals are reduced to the parts `metrics.rs` uses. A gauge's value is a real number, not an `f64`, so rounding and NaN are not modelled. The registry is a list of names; its other rejection reasons, such as invalid names or clashing descriptors, are left out.
- Metrics.Metrics.New: requires the seven names to be unregistered rather than modelling the panic that `unwrap` raises otherwise.
- `fmt::Error` propagation (the `?` after `write!`) is left out, because the formatter sink never fails.
- `OnceLock` initialisation is left out: each lookup map is the value the first call builds, and concurrency is out of scope.
- ReadSerial.GetLookupMap: the 33 straight-line `insert` calls are written as one loop over the variants in declaration order, with the same inserts in the same order.
- `read_meter`'s output functions see only the set of identifiers that have a counter, because the counters are only looked up; the commented-out increment is not modelled, and `Counter.value` is never read or written.
- `SerialObi.MessageValue` and `SerialObi.Message` mirror types src/serial/obi.rs declares but never builds; no operation uses them.
- src/main.rs, src/serial/config.rs and src/bin/read_serial.rs are not part of this model: they hold the HTTP server (src/main.rs, which calls `Metrics::new` and `read_meter`), the serial-port configuration, and a second binary (src/bin/read_serial.rs), the only caller of `Metrics::default` and the second caller of `read_meter`. Both calls pass a `&Metrics` where `read_meter` is declared to take a map of counters: a mismatch with the declaration at src/serial/meter.rs:15.
