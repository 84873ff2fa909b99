/**
 * src/serial/meter.rs: `read_meter`, the read loop that prints the readings
 * of the identifiers that have a counter. It never changes a counter: the
 * increment is commented out in the source. Entries are resolved through the
 * full 33-entry catalog (`ObiNames`), the only catalog that offers the `id()`
 * and `metric_name` the loop asks for.
 */
module SerialMeter {
  import opened Wrappers
  import opened Obis
  import opened Sml
  import RS = ReadSerial
  import SerialModel

  /**
   * A Prometheus counter. `read_meter` is declared to take one per identifier
   * to count, although both of its callers pass a `&Metrics` instead. The
   * loop only looks counters up; no code path reads or writes their value.
   */
  class Counter {
    var value: real

    constructor ()
      ensures value == 0.0
    {
      value := 0.0;
    }
  }

  /** The lines `read_meter` prints. */
  datatype Printed =
    | Reading(metricName: string, value: i64, unit: Option<byte>)  // `{metric_name}: {value} {unit:?}`
    | ErrorReported(error: ReadError)                              // `Error: {e:?}`
    | IoErrorExit                                                 // `IO error: {e:?}`, then `Exiting...`

  /**
   * What `read_meter` prints for one list entry, given the identifiers that
   * have a counter: the name must be six bytes, a catalog identifier, have a
   * counter, and carry an `I64` value.
   */
  function EntryOutput(counted: set<ObisId>, e: ListEntry): seq<Printed>
  {
    match TryIntoId(e.objName)
    case None => []
    case Some(id) =>
      match RS.LookupObiName(id)
      case None => []
      case Some(obi) =>
        if RS.Id(obi) in counted && e.value.I64? then [Reading(RS.MetricName(obi), e.value.i64, e.unit)] else []
  }

  function EntryHandler(counted: set<ObisId>): ListEntry -> seq<Printed>
  {
    e => EntryOutput(counted, e)
  }

  /**
   * The entry filter in terms of the catalog: an entry named by a variant's
   * identifier prints that variant's metric name, value and unit exactly when
   * the identifier has a counter and the value is an `I64`, whatever the
   * variant's export flag; an entry named by no catalog identifier prints nothing.
   */
  lemma EntryOutputCatalog(counted: set<ObisId>, e: ListEntry)
    ensures forall n :: e.objName == IdBytes(RS.Id(n)) ==>
      EntryOutput(counted, e) ==
        if RS.Id(n) in counted && e.value.I64? then [Reading(RS.MetricName(n), e.value.i64, e.unit)] else []
    ensures (forall n :: e.objName != IdBytes(RS.Id(n))) ==> EntryOutput(counted, e) == []
  {
  }

  /** What `read_meter` prints for one message: only a `GetListResponse` body is looked into. */
  function MessageOutput(counted: set<ObisId>, m: Message): seq<Printed>
  {
    match m.messageBody
    case GetListResponse(valList) => FlatMap(EntryHandler(counted), valList)
    case _ => []
  }

  function MessageHandler(counted: set<ObisId>): Message -> seq<Printed>
  {
    m => MessageOutput(counted, m)
  }

  /** What `read_meter` prints for the result of one `read` call. */
  function ResultOutput(counted: set<ObisId>, r: ReadResult): seq<Printed>
  {
    match r
    case Ok(file) => FlatMap(MessageHandler(counted), file.messages)
    case Err(IoErr) => [IoErrorExit]
    case Err(ParseErr) => [ErrorReported(ParseErr)]
  }

  function ResultHandler(counted: set<ObisId>): ReadResult -> seq<Printed>
  {
    r => ResultOutput(counted, r)
  }

  /** Everything `read_meter` prints while the reader delivers `results`. */
  function MeterOutput(counted: set<ObisId>, results: seq<ReadResult>): seq<Printed>
  {
    FlatMap(ResultHandler(counted), results[..Consumed(results)])
  }

  /**
   * The loop `for val in list_entry.val_list`. The unit byte, when present, is
   * converted with `Unit::try_from` and the outcome discarded.
   */
  method PrintList(counters: map<ObisId, Counter>, valList: seq<ListEntry>) returns (out: seq<Printed>)
    ensures out == FlatMap(EntryHandler(counters.Keys), valList)
  {
    out := [];
    for j := 0 to |valList|
      invariant out == FlatMap(EntryHandler(counters.Keys), valList[..j])
    {
      FlatMapStep(EntryHandler(counters.Keys), valList, j);
      var val := valList[j];
      var id := SerialModel.OctSlice(val.objName);
      var idArray := TryIntoId(id.octets);
      if idArray.Some? {
        var obi := RS.LookupObiName(idArray.value);
        if obi.Some? {
          if RS.Id(obi.value) in counters {
            if val.value.I64? {
              if val.unit.Some? {
                var u := SerialModel.TryFromUnit(val.unit.value);
              }
              out := out + [Reading(RS.MetricName(obi.value), val.value.i64, val.unit)];
            }
          }
        }
      }
    }
    assert valList[..|valList|] == valList;
  }

  /** The loop `for m in file.messages` for one file. */
  method PrintFile(counters: map<ObisId, Counter>, file: File) returns (out: seq<Printed>)
    ensures out == FlatMap(MessageHandler(counters.Keys), file.messages)
  {
    out := [];
    for i := 0 to |file.messages|
      invariant out == FlatMap(MessageHandler(counters.Keys), file.messages[..i])
    {
      FlatMapStep(MessageHandler(counters.Keys), file.messages, i);
      if file.messages[i].messageBody.GetListResponse? {
        var lines := PrintList(counters, file.messages[i].messageBody.valList);
        out := out + lines;
      }
    }
    assert file.messages[..|file.messages|] == file.messages;
  }

  /**
   * `read_meter`, reading from a reader that delivers `results` one after
   * another; `read` is how many of them it took. It leaves the loop at the
   * first `IoErr` and nowhere else. It has no `modifies` clause: the counters
   * are looked up but never changed.
   */
  method ReadMeter(counters: map<ObisId, Counter>, results: seq<ReadResult>) returns (printed: seq<Printed>, read: nat)
    ensures read == Consumed(results)
    ensures printed == MeterOutput(counters.Keys, results)
  {
    printed, read := [], 0;
    while read < |results|
      invariant read <= |results|
      invariant forall k :: 0 <= k < read ==> !IsIoErr(results[k])
      invariant printed == FlatMap(ResultHandler(counters.Keys), results[..read])
    {
      var r := results[read];
      FlatMapStep(ResultHandler(counters.Keys), results, read);
      read := read + 1;
      match r
      case Ok(file) =>
        var lines := PrintFile(counters, file);
        printed := printed + lines;
      case Err(IoErr) =>
        printed := printed + [IoErrorExit];
        break;
      case Err(ParseErr) =>
        printed := printed + [ErrorReported(ParseErr)];
    }
    assert results[..|results|] == results;
  }

  /** Every reading printed for the messages of one file is the metric name of a counted catalog entry. */
  lemma FileReadingCounted(counted: set<ObisId>, messages: seq<Message>, p: Printed)
    requires p in FlatMap(MessageHandler(counted), messages) && p.Reading?
    ensures exists n :: RS.Id(n) in counted && RS.MetricName(n) == p.metricName
  {
    FlatMapSource(MessageHandler(counted), messages, p);
    var i :| 0 <= i < |messages| && p in MessageOutput(counted, messages[i]);
    var valList := messages[i].messageBody.valList;
    FlatMapSource(EntryHandler(counted), valList, p);
    var j :| 0 <= j < |valList| && p in EntryOutput(counted, valList[j]);
    EntryReadingCounted(counted, valList[j], p);
  }

  /** A reading printed for one entry names a catalog entry whose identifier has a counter. */
  lemma EntryReadingCounted(counted: set<ObisId>, e: ListEntry, p: Printed)
    requires p in EntryOutput(counted, e) && p.Reading?
    ensures exists n :: RS.Id(n) in counted && RS.MetricName(n) == p.metricName
  {
    var n := RS.LookupObiName(TryIntoId(e.objName).value).value;
    assert RS.Id(n) in counted && RS.MetricName(n) == p.metricName;
  }

  /**
   * Every reading `read_meter` prints is the metric name of a catalog entry
   * whose identifier has a counter.
   */
  lemma MeterPrintsOnlyCounted(counted: set<ObisId>, results: seq<ReadResult>, p: Printed)
    requires p in MeterOutput(counted, results) && p.Reading?
    ensures exists n :: RS.Id(n) in counted && RS.MetricName(n) == p.metricName
  {
    var rs := results[..Consumed(results)];
    FlatMapSource(ResultHandler(counted), rs, p);
    var k :| 0 <= k < |rs| && p in ResultOutput(counted, rs[k]);
    FileReadingCounted(counted, rs[k].value.messages, p);
  }

  /** Handling a result that is not an `IoErr` never prints the exit report. */
  lemma ExitOnlyOnIoErr(counted: set<ObisId>, r: ReadResult)
    ensures IoErrorExit in ResultOutput(counted, r) <==> IsIoErr(r)
  {
    if r.Ok? && IoErrorExit in ResultOutput(counted, r) {
      FlatMapSource(MessageHandler(counted), r.value.messages, IoErrorExit);
      var i :| 0 <= i < |r.value.messages| && IoErrorExit in MessageOutput(counted, r.value.messages[i]);
      FlatMapSource(EntryHandler(counted), r.value.messages[i].messageBody.valList, IoErrorExit);
    }
  }

  /**
   * `read_meter` ends its output with the exit report exactly when the reader
   * delivers an `IoErr`, and never prints that report anywhere else; every
   * other error is reported and reading goes on.
   */
  lemma MeterExitsOnIoErr(counted: set<ObisId>, results: seq<ReadResult>)
    ensures (exists k :: 0 <= k < |results| && IsIoErr(results[k])) <==>
      (MeterOutput(counted, results) != [] && MeterOutput(counted, results)[|MeterOutput(counted, results)| - 1] == IoErrorExit)
    ensures forall i :: 0 <= i < |MeterOutput(counted, results)| - 1 ==> MeterOutput(counted, results)[i] != IoErrorExit
  {
    forall r: ReadResult
      ensures !IsIoErr(r) ==> IoErrorExit !in ResultHandler(counted)(r)
    {
      ExitOnlyOnIoErr(counted, r);
    }
    StopsAtFirstIoErr(ResultHandler(counted), results, IoErrorExit);
  }

  /**
   * Results before a point without `IoErr` never change what is printed
   * after it: the later results are handled as if they came first.
   */
  lemma MeterOutputAppend(counted: set<ObisId>, a: seq<ReadResult>, b: seq<ReadResult>)
    requires NoIoErr(a)
    ensures MeterOutput(counted, a + b) == FlatMap(ResultHandler(counted), a) + MeterOutput(counted, b)
  {
    ConsumedAppend(a, b);
    assert (a + b)[..|a| + Consumed(b)] == a + b[..Consumed(b)];
    FlatMapAppend(ResultHandler(counted), a, b[..Consumed(b)]);
  }

  /** An entry that prints nothing does not affect the entries around it. */
  lemma SkippedEntryHarmless(counted: set<ObisId>, before: seq<ListEntry>, e: ListEntry, after: seq<ListEntry>)
    requires EntryOutput(counted, e) == []
    ensures FlatMap(EntryHandler(counted), before + [e] + after) == FlatMap(EntryHandler(counted), before + after)
  {
    FlatMapSkip(EntryHandler(counted), before, e, after);
  }

  /** A list response frame with one entry, in watt-hours (unit byte 30). */
  function OneEntryFrame(objName: seq<byte>, value: Value): ReadResult
  {
    Ok(File([Message(GetListResponse([ListEntry(objName, Some(30), value)]))]))
  }

  /**
   * With a counter for the total meter reading, its entry prints the metric
   * name and the unit byte; without one it prints nothing. The unit byte 30 is
   * printed although `Unit::try_from` rejects it.
   */
  lemma MeterReadingScenario()
    ensures MeterOutput({RS.Id(RS.MeterReadingTotal)}, [OneEntryFrame([0x01, 0x00, 0x01, 0x08, 0x00, 0xff], I64(123456))])
      == [Reading("meterreadingtotal", 123456, Some(30))]
    ensures MeterOutput({}, [OneEntryFrame([0x01, 0x00, 0x01, 0x08, 0x00, 0xff], I64(123456))]) == []
    ensures SerialModel.TryFromUnit(30).Err?
  {
  }

  /** A non-exportable catalog entry with a counter is printed: the export flag plays no part here. */
  lemma NonExportableScenario()
    ensures !RS.Exportable(RS.ActivePowerCurrent)
    ensures MeterOutput({RS.Id(RS.ActivePowerCurrent)}, [OneEntryFrame([0x01, 0x00, 0x10, 0x07, 0x00, 0xff], I64(-5))])
      == [Reading(RS.MetricName(RS.ActivePowerCurrent), -5, Some(30))]
  {
  }
}
