/**
 * src/lib/read_serial.rs: the full OBIS catalog (`ObiNames`, 33 entries),
 * its lookup map, the hexadecimal rendering of octet strings (`OctSlice`)
 * and the read loop of `main`, which prints the integer readings of the
 * exportable catalog entries.
 */
module ReadSerial {
  import opened Wrappers
  import opened Obis
  import opened Sml
  import opened Fmt

  // ------------------------------------------------------------------
  // The catalog
  // ------------------------------------------------------------------

  /** The quantities the catalog knows (`enum ObiNames`), in declaration order. */
  datatype ObiNames =
    | DeviceIdentification
    | MeterReadingTotal
    | MeterReadingTariff1
    | MeterReadingTariff2
    | TotalMeterReading
    | ActivePowerTotal
    | ActivePowerCurrent
    | ReactivePowerL1
    | CurrentL1
    | VoltageL1
    | ActivePowerL1
    | ReactivePowerL2
    | CurrentL2
    | VoltageL2
    | ActivePowerL2
    | ReactivePowerL3
    | CurrentL3
    | VoltageL3
    | ActivePowerL3
    | PhaseDeviationL1L2
    | PhaseDeviationL1L3
    | PhaseDeviationL1
    | PhaseDeviationL2
    | PhaseDeviationL3
    | ChipTemperatureCurrent
    | ChipTemperatureMin
    | ChipTemperatureMax
    | ChipTemperatureAvg
    | VoltageMin
    | VoltageMax
    | NetworkFrequency
    | ManufacturerIdentification
    | PublicKey

  /** One catalog record (`struct Obi`). */
  datatype Obi = Obi(id: ObisId, prettyName: string, metricName: string, exportable: bool)

  // `ObiNames::obi` is one `match` returning a record per variant. The model
  // keeps that table column by column, one `match` per field, and ObiOf puts
  // the columns of a variant back together into its record.

  /**
   * `ObiNames::id`: the `id` field of the variant's record. Every identifier
   * has value group A 0x01 (electricity) except the two manufacturer-specific
   * ones, which have 0x81.
   */
  function Id(n: ObiNames): (r: ObisId)
    ensures r.a == 0x01 || r.a == 0x81
    ensures r.a == 0x81 <==> n == ManufacturerIdentification || n == PublicKey
  {
    match n
    case DeviceIdentification => ObisId(0x01, 0x00, 0x00, 0x00, 0x09, 0xff)
    case MeterReadingTotal => ObisId(0x01, 0x00, 0x01, 0x08, 0x00, 0xff)
    case MeterReadingTariff1 => ObisId(0x01, 0x00, 0x01, 0x08, 0x01, 0xff)
    case MeterReadingTariff2 => ObisId(0x01, 0x00, 0x01, 0x08, 0x02, 0xff)
    case TotalMeterReading => ObisId(0x01, 0x00, 0x01, 0x11, 0x00, 0xff)
    case ActivePowerTotal => ObisId(0x01, 0x00, 0x02, 0x08, 0x00, 0xff)
    case ActivePowerCurrent => ObisId(0x01, 0x00, 0x10, 0x07, 0x00, 0xff)
    case ReactivePowerL1 => ObisId(0x01, 0x00, 0x17, 0x07, 0x00, 0xff)
    case CurrentL1 => ObisId(0x01, 0x00, 0x1f, 0x07, 0x00, 0xff)
    case VoltageL1 => ObisId(0x01, 0x00, 0x20, 0x07, 0x00, 0xff)
    case ActivePowerL1 => ObisId(0x01, 0x00, 0x24, 0x07, 0x00, 0xff)
    case ReactivePowerL2 => ObisId(0x01, 0x00, 0x2b, 0x07, 0x00, 0xff)
    case CurrentL2 => ObisId(0x01, 0x00, 0x33, 0x07, 0x00, 0xff)
    case VoltageL2 => ObisId(0x01, 0x00, 0x34, 0x07, 0x00, 0xff)
    case ActivePowerL2 => ObisId(0x01, 0x00, 0x38, 0x07, 0x00, 0xff)
    case ReactivePowerL3 => ObisId(0x01, 0x00, 0x3f, 0x07, 0x00, 0xff)
    case CurrentL3 => ObisId(0x01, 0x00, 0x47, 0x07, 0x00, 0xff)
    case VoltageL3 => ObisId(0x01, 0x00, 0x48, 0x07, 0x00, 0xff)
    case ActivePowerL3 => ObisId(0x01, 0x00, 0x4c, 0x07, 0x00, 0xff)
    case PhaseDeviationL1L2 => ObisId(0x01, 0x00, 0x51, 0x07, 0x01, 0xff)
    case PhaseDeviationL1L3 => ObisId(0x01, 0x00, 0x51, 0x07, 0x02, 0xff)
    case PhaseDeviationL1 => ObisId(0x01, 0x00, 0x51, 0x07, 0x04, 0xff)
    case PhaseDeviationL2 => ObisId(0x01, 0x00, 0x51, 0x07, 0x0f, 0xff)
    case PhaseDeviationL3 => ObisId(0x01, 0x00, 0x51, 0x07, 0x1a, 0xff)
    case ChipTemperatureCurrent => ObisId(0x01, 0x00, 0x60, 0x32, 0x00, 0x02)
    case ChipTemperatureMin => ObisId(0x01, 0x00, 0x60, 0x32, 0x00, 0x03)
    case ChipTemperatureMax => ObisId(0x01, 0x00, 0x60, 0x32, 0x00, 0x04)
    case ChipTemperatureAvg => ObisId(0x01, 0x00, 0x60, 0x32, 0x00, 0x05)
    case VoltageMin => ObisId(0x01, 0x00, 0x60, 0x32, 0x03, 0x03)
    case VoltageMax => ObisId(0x01, 0x00, 0x60, 0x32, 0x03, 0x04)
    case NetworkFrequency => ObisId(0x01, 0x00, 0x0e, 0x07, 0x00, 0xff)
    case ManufacturerIdentification => ObisId(0x81, 0x81, 0xc7, 0x82, 0x03, 0xff)
    case PublicKey => ObisId(0x81, 0x81, 0xc7, 0x82, 0x05, 0xff)
  }

  /** The `pretty_name` field of the variant's record. */
  function PrettyName(n: ObiNames): string
  {
    match n
    case DeviceIdentification => "Geräteeinzelidentifikation"
    case MeterReadingTotal => "Zählerstand Total"
    case MeterReadingTariff1 => "Zählerstand Tarif 1"
    case MeterReadingTariff2 => "Zählerstand Tarif 2"
    case TotalMeterReading => "Total-Zählerstand"
    case ActivePowerTotal => "Wirkenergie Total"
    case ActivePowerCurrent => "aktuelle Wirkleistung"
    case ReactivePowerL1 => "Momentanblindleistung L1"
    case CurrentL1 => "Strom L1"
    case VoltageL1 => "Spannung L1"
    case ActivePowerL1 => "Wirkleistung L1"
    case ReactivePowerL2 => "Momentanblindleistung L2"
    case CurrentL2 => "Strom L2"
    case VoltageL2 => "Spannung L2"
    case ActivePowerL2 => "Wirkleistung L2"
    case ReactivePowerL3 => "Momentanblindleistung L3"
    case CurrentL3 => "Strom L3"
    case VoltageL3 => "Spannung L3"
    case ActivePowerL3 => "Wirkleistung L3"
    case PhaseDeviationL1L2 => "Phasenausgleich L1-L2"
    case PhaseDeviationL1L3 => "Phasenausgleich L1-L3"
    case PhaseDeviationL1 => "Phasenausgleich L1"
    case PhaseDeviationL2 => "Phasenausgleich L2"
    case PhaseDeviationL3 => "Phasenausgleich L3"
    case ChipTemperatureCurrent => "Chip-Temperatur aktuell"
    case ChipTemperatureMin => "Chip-Temperatur minimal"
    case ChipTemperatureMax => "Chip-Temperatur maximal"
    case ChipTemperatureAvg => "Chip-Temperatur durchschnittlich"
    case VoltageMin => "Spannung minimal"
    case VoltageMax => "Spannung maximal"
    case NetworkFrequency => "Netzfrequenz"
    case ManufacturerIdentification => "Herstelleridentifikation"
    case PublicKey => "Öffentlicher Schlüssel"
  }

  /** The `metric_name` field of the variant's record. */
  function MetricName(n: ObiNames): string
  {
    match n
    case DeviceIdentification => "Geräteeinzelidentifikation"
    case MeterReadingTotal => "meterreadingtotal"
    case MeterReadingTariff1 => "meterreadingtariff1"
    case MeterReadingTariff2 => "meterreadingtariff2"
    case TotalMeterReading => "totalmeterreading"
    case ActivePowerTotal => "activepowertotal"
    case ActivePowerCurrent => "activepowercurrent"
    case ReactivePowerL1 => "reactivepowerl1"
    case CurrentL1 => "currentl1"
    case VoltageL1 => "voltagel1"
    case ActivePowerL1 => "activepowerl1"
    case ReactivePowerL2 => "reactivepowerl2"
    case CurrentL2 => "currentl2"
    case VoltageL2 => "voltagel2"
    case ActivePowerL2 => "activepowerl2"
    case ReactivePowerL3 => "reactivepowerl3"
    case CurrentL3 => "currentl3"
    case VoltageL3 => "voltagel3"
    case ActivePowerL3 => "activepowerl3"
    case PhaseDeviationL1L2 => "phasedeviationl1l2"
    case PhaseDeviationL1L3 => "phasedeviationl1l3"
    case PhaseDeviationL1 => "phasedeviationl1"
    case PhaseDeviationL2 => "phasedeviationl2"
    case PhaseDeviationL3 => "phasedeviationl3"
    case ChipTemperatureCurrent => "chiptemperaturecurrent"
    case ChipTemperatureMin => "chiptemperaturemin"
    case ChipTemperatureMax => "chiptemperaturemax"
    case ChipTemperatureAvg => "chiptemperatureavg"
    case VoltageMin => "voltagemin"
    case VoltageMax => "voltagemax"
    case NetworkFrequency => "networkfrequency"
    case ManufacturerIdentification => "manufactureridentification"
    case PublicKey => "publickey"
  }

  /** The `exportable` field of the variant's record. */
  function Exportable(n: ObiNames): bool
  {
    match n
    case DeviceIdentification => false
    case MeterReadingTotal => true
    case MeterReadingTariff1 => true
    case MeterReadingTariff2 => true
    case TotalMeterReading => false
    case ActivePowerTotal => true
    case ActivePowerCurrent => false
    case ReactivePowerL1 => false
    case CurrentL1 => false
    case VoltageL1 => false
    case ActivePowerL1 => false
    case ReactivePowerL2 => false
    case CurrentL2 => false
    case VoltageL2 => false
    case ActivePowerL2 => false
    case ReactivePowerL3 => false
    case CurrentL3 => false
    case VoltageL3 => false
    case ActivePowerL3 => false
    case PhaseDeviationL1L2 => false
    case PhaseDeviationL1L3 => false
    case PhaseDeviationL1 => false
    case PhaseDeviationL2 => false
    case PhaseDeviationL3 => false
    case ChipTemperatureCurrent => false
    case ChipTemperatureMin => false
    case ChipTemperatureMax => false
    case ChipTemperatureAvg => false
    case VoltageMin => false
    case VoltageMax => false
    case NetworkFrequency => false
    case ManufacturerIdentification => false
    case PublicKey => false
  }

  /** `ObiNames::obi`: the record of a variant; its identifier belongs to that variant alone. */
  function ObiOf(n: ObiNames): (r: Obi)
    ensures forall m :: Id(m) == r.id ==> m == n
  {
    IdInjective();
    Obi(Id(n), PrettyName(n), MetricName(n), Exportable(n))
  }

  /** The variants in declaration order, which is also the order `get_lookup_map` inserts them in. */
  const AllNames: seq<ObiNames> := [
      DeviceIdentification,
      MeterReadingTotal,
      MeterReadingTariff1,
      MeterReadingTariff2,
      TotalMeterReading,
      ActivePowerTotal,
      ActivePowerCurrent,
      ReactivePowerL1,
      CurrentL1,
      VoltageL1,
      ActivePowerL1,
      ReactivePowerL2,
      CurrentL2,
      VoltageL2,
      ActivePowerL2,
      ReactivePowerL3,
      CurrentL3,
      VoltageL3,
      ActivePowerL3,
      PhaseDeviationL1L2,
      PhaseDeviationL1L3,
      PhaseDeviationL1,
      PhaseDeviationL2,
      PhaseDeviationL3,
      ChipTemperatureCurrent,
      ChipTemperatureMin,
      ChipTemperatureMax,
      ChipTemperatureAvg,
      VoltageMin,
      VoltageMax,
      NetworkFrequency,
      ManufacturerIdentification,
      PublicKey
  ]

  /** AllNames lists every variant... */
  lemma AllNamesComplete(n: ObiNames)
    ensures n in AllNames
  {
  }

  /** ...exactly once. */
  lemma AllNamesDistinct()
    ensures |AllNames| == 33
    ensures forall i, j :: 0 <= i < j < |AllNames| ==> AllNames[i] != AllNames[j]
  {
  }

  /** No two variants share an identifier. */
  lemma IdInjective()
    ensures forall x, y :: Id(x) == Id(y) ==> x == y
  {
  }

  /** No two variants share a metric name, exportable or not. */
  lemma MetricNameInjective()
    ensures forall x, y :: MetricName(x) == MetricName(y) ==> x == y
  {
  }

  /** Exactly four entries are exportable: the three meter readings and the total active energy. */
  lemma ExportableEntries(n: ObiNames)
    ensures Exportable(n) <==> n in {MeterReadingTotal, MeterReadingTariff1, MeterReadingTariff2, ActivePowerTotal}
  {
  }

  /** The record of the total meter reading. */
  lemma MeterReadingTotalRecord()
    ensures ObiOf(MeterReadingTotal) == Obi(ObisId(0x01, 0x00, 0x01, 0x08, 0x00, 0xff), "Zählerstand Total", "meterreadingtotal", true)
  {
  }

  // ------------------------------------------------------------------
  // The lookup map
  // ------------------------------------------------------------------

  /**
   * The map after inserting the variants of `names` one after another, each
   * under its own identifier (`HashMap::insert` replaces an existing key).
   */
  function Inserted(names: seq<ObiNames>): map<ObisId, ObiNames>
  {
    if names == [] then map[]
    else Inserted(names[..|names| - 1])[Id(names[|names| - 1]) := names[|names| - 1]]
  }

  /** Every inserted variant is present, and every key holds an inserted variant whose identifier it is. */
  lemma {:induction false} InsertedEntries(names: seq<ObiNames>)
    ensures forall k :: k in Inserted(names) ==> Id(Inserted(names)[k]) == k && Inserted(names)[k] in names
    ensures forall n :: n in names ==> Id(n) in Inserted(names)
  {
    if names != [] {
      var init := names[..|names| - 1];
      InsertedEntries(init);
      assert names == init + [names[|names| - 1]];
    }
  }

  /** Inserting distinct variants never overwrites: the map has one key per variant. */
  lemma {:induction false} InsertedSize(names: seq<ObiNames>)
    requires forall i, j :: 0 <= i < j < |names| ==> names[i] != names[j]
    ensures |Inserted(names)| == |names|
  {
    if names != [] {
      var init, last := names[..|names| - 1], names[|names| - 1];
      InsertedSize(init);
      InsertedEntries(init);
      IdInjective();
    }
  }

  /** The map `get_lookup_map` builds once (the `OnceLock` static). */
  function LookupMap(): map<ObisId, ObiNames>
  {
    Inserted(AllNames)
  }

  /**
   * `get_lookup_map`: inserts every variant under its identifier, in
   * declaration order. The 33 insert statements of the source are written
   * as one loop over AllNames.
   */
  method GetLookupMap() returns (m: map<ObisId, ObiNames>)
    ensures m == LookupMap()
  {
    m := map[];
    for i := 0 to |AllNames|
      invariant m == Inserted(AllNames[..i])
    {
      var n := AllNames[i];
      assert AllNames[..i + 1][..i] == AllNames[..i];
      m := m[Id(n) := n];
    }
    assert AllNames[..|AllNames|] == AllNames;
  }

  /** The lookup map has exactly 33 keys, every variant is stored under its own identifier and nowhere else. */
  lemma LookupMapContents()
    ensures |LookupMap()| == 33
    ensures forall n :: Id(n) in LookupMap() && LookupMap()[Id(n)] == n
    ensures forall k :: k in LookupMap() ==> Id(LookupMap()[k]) == k
  {
    forall n {
      AllNamesComplete(n);
    }
    AllNamesDistinct();
    InsertedEntries(AllNames);
    InsertedSize(AllNames);
    IdInjective();
  }

  /**
   * `lookup_obi_name`: the variant whose identifier is `id`, if there is one.
   * Finding nothing is an expected outcome, not an error.
   */
  function LookupObiName(id: ObisId): (r: Option<ObiNames>)
    ensures r.Some? ==> Id(r.value) == id
    ensures forall n :: Id(n) == id ==> r == Some(n)
  {
    LookupMapContents();
    if id in LookupMap() then Some(LookupMap()[id]) else None
  }

  /** An identifier outside the table, such as FF FF FF FF FF FF, is not found. */
  lemma UnknownIdNotFound()
    ensures LookupObiName(ObisId(0xff, 0xff, 0xff, 0xff, 0xff, 0xff)) == None
  {
  }

  // ------------------------------------------------------------------
  // Hexadecimal rendering of octet strings
  // ------------------------------------------------------------------

  /** `struct OctSlice(OctetStr)`: a byte string as the decoder hands it out. */
  datatype OctSlice = OctSlice(octets: seq<byte>)

  /** The upper-case hexadecimal digit of a value below 16. */
  function HexDigit(d: nat): (c: char)
    requires d < 16
    ensures '0' <= c <= '9' || 'A' <= c <= 'F'
    ensures HexValue(c) == Some(d)
  {
    if d < 10 then ('0' as int + d) as char else ('A' as int + d - 10) as char
  }

  /** `format!("{:02X}", b)`: two upper-case hexadecimal digits, high nibble first. */
  function Hex02(b: byte): string
  {
    [HexDigit(b / 16), HexDigit(b % 16)]
  }

  /** What both formatters of OctSlice write: each byte as `{:02X} `, in order. */
  function HexDump(octets: seq<byte>): string
  {
    if octets == [] then []
    else HexDump(octets[..|octets| - 1]) + Hex02(octets[|octets| - 1]) + " "
  }

  /** The value of an upper-case hexadecimal digit. */
  function HexValue(c: char): Option<nat>
  {
    if '0' <= c <= '9' then Some(c as int - '0' as int)
    else if 'A' <= c <= 'F' then Some(c as int - 'A' as int + 10)
    else None
  }

  /** Reads a hex dump back into its bytes; None when the text is not one. */
  function ParseHexDump(s: string): Option<seq<byte>>
  {
    if s == [] then Some([])
    else if |s| < 3 || s[|s| - 1] != ' ' then None
    else
      match (HexValue(s[|s| - 3]), HexValue(s[|s| - 2]), ParseHexDump(s[..|s| - 3]))
      case (Some(hi), Some(lo), Some(front)) =>
        if hi < 16 && lo < 16 then Some(front + [hi * 16 + lo]) else None
      case _ => None
  }

  /** A hex dump is three characters per byte and reads back as the bytes it was made from. */
  lemma {:induction false} HexDumpRoundTrip(octets: seq<byte>)
    ensures |HexDump(octets)| == 3 * |octets|
    ensures ParseHexDump(HexDump(octets)) == Some(octets)
  {
    if octets != [] {
      var init, last := octets[..|octets| - 1], octets[|octets| - 1];
      HexDumpRoundTrip(init);
      var s := HexDump(octets);
      assert s[..|s| - 3] == HexDump(init);
      assert HexValue(s[|s| - 3]) == Some(last / 16);
      assert HexValue(s[|s| - 2]) == Some(last % 16);
      assert init + [last] == octets;
    }
  }

  /** Every character of a hex dump is an upper-case hexadecimal digit or a space. */
  lemma {:induction false} HexDumpAlphabet(octets: seq<byte>)
    ensures forall c :: c in HexDump(octets) ==> c == ' ' || '0' <= c <= '9' || 'A' <= c <= 'F'
  {
    if octets != [] {
      HexDumpAlphabet(octets[..|octets| - 1]);
    }
  }

  /** `impl Display for OctSlice`: writes every byte as `{:02X} ` into `f`. */
  method DisplayFmt(self: OctSlice, f: Formatter)
    modifies f
    ensures f.written == old(f.written) + HexDump(self.octets)
  {
    for i := 0 to |self.octets|
      invariant f.written == old(f.written) + HexDump(self.octets[..i])
    {
      assert self.octets[..i + 1][..i] == self.octets[..i];
      f.WriteStr(Hex02(self.octets[i]) + " ");
    }
    assert self.octets[..|self.octets|] == self.octets;
  }

  /** `impl UpperHex for OctSlice`: the same loop, so the same text as DisplayFmt. */
  method UpperHexFmt(self: OctSlice, f: Formatter)
    modifies f
    ensures f.written == old(f.written) + HexDump(self.octets)
  {
    for i := 0 to |self.octets|
      invariant f.written == old(f.written) + HexDump(self.octets[..i])
    {
      assert self.octets[..i + 1][..i] == self.octets[..i];
      f.WriteStr(Hex02(self.octets[i]) + " ");
    }
    assert self.octets[..|self.octets|] == self.octets;
  }

  // ------------------------------------------------------------------
  // The read loop of `main`
  // ------------------------------------------------------------------

  /** A report `main` prints. */
  datatype Printed =
    | Reading(prettyName: string, value: i64)  // `{pretty_name}: {value}`
    | ErrorReported(error: ReadError)          // `Error: {e:?}`
    | IoErrorExit                             // `IO error: {e:?}`, then `Exiting...`

  /** What `main` prints for one list entry. */
  function EntryOutput(e: ListEntry): seq<Printed>
  {
    match TryIntoId(e.objName)
    case None => []
    case Some(id) =>
      match LookupObiName(id)
      case None => []
      case Some(obi) =>
        if Exportable(obi) && e.value.I64? then [Reading(PrettyName(obi), e.value.i64)] else []
  }

  /**
   * The entry filter in terms of the catalog: an entry whose object name is
   * the identifier of a variant prints that variant's reading exactly when the
   * variant is exportable and the value an `I64`; an entry whose object name
   * is no catalog identifier (of whatever length) prints nothing.
   */
  lemma EntryOutputCatalog(e: ListEntry)
    ensures forall n :: e.objName == IdBytes(Id(n)) ==>
      EntryOutput(e) == if Exportable(n) && e.value.I64? then [Reading(PrettyName(n), e.value.i64)] else []
    ensures (forall n :: e.objName != IdBytes(Id(n))) ==> EntryOutput(e) == []
  {
    if |e.objName| == 6 {
      BytesOfTryInto(e.objName);
    }
  }

  /** What `main` prints for one message: only a `GetListResponse` body is looked into. */
  function MessageOutput(m: Message): seq<Printed>
  {
    match m.messageBody
    case GetListResponse(valList) => FlatMap(EntryOutput, valList)
    case _ => []
  }

  /** What `main` prints for the result of one `read` call. */
  function ResultOutput(r: ReadResult): seq<Printed>
  {
    match r
    case Ok(file) => FlatMap(MessageOutput, file.messages)
    case Err(IoErr) => [IoErrorExit]
    case Err(ParseErr) => [ErrorReported(ParseErr)]
  }

  /** Everything `main` prints while the reader delivers `results`. */
  function MainOutput(results: seq<ReadResult>): seq<Printed>
  {
    FlatMap(ResultOutput, results[..Consumed(results)])
  }

  /** The innermost loop of `main`, `for val in list_entry.val_list`: what it prints. */
  method PrintList(valList: seq<ListEntry>) returns (out: seq<Printed>)
    ensures out == FlatMap(EntryOutput, valList)
  {
    out := [];
    for j := 0 to |valList|
      invariant out == FlatMap(EntryOutput, valList[..j])
    {
      FlatMapStep(EntryOutput, valList, j);
      var val := valList[j];
      var id := OctSlice(val.objName);
      var idArray := TryIntoId(id.octets);
      if idArray.Some? {
        var obi := LookupObiName(idArray.value);
        if obi.Some? {
          if Exportable(obi.value) {
            if val.value.I64? {
              out := out + [Reading(PrettyName(obi.value), val.value.i64)];
            }
          }
        }
      }
    }
    assert valList[..|valList|] == valList;
  }

  /** The loop `for m in file.messages` of `main`: what it prints for one file. */
  method PrintFile(file: File) returns (out: seq<Printed>)
    ensures out == FlatMap(MessageOutput, file.messages)
  {
    out := [];
    for i := 0 to |file.messages|
      invariant out == FlatMap(MessageOutput, file.messages[..i])
    {
      FlatMapStep(MessageOutput, file.messages, i);
      if file.messages[i].messageBody.GetListResponse? {
        var lines := PrintList(file.messages[i].messageBody.valList);
        out := out + lines;
      }
    }
    assert file.messages[..|file.messages|] == file.messages;
  }

  /**
   * The `loop` of `main`, reading from a reader that delivers `results` one
   * after another; `read` is how many of them it took. It leaves the loop
   * at the first `IoErr` and nowhere else.
   */
  method ReadLoop(results: seq<ReadResult>) returns (printed: seq<Printed>, read: nat)
    ensures read == Consumed(results)
    ensures printed == MainOutput(results)
  {
    printed, read := [], 0;
    while read < |results|
      invariant read <= |results|
      invariant forall k :: 0 <= k < read ==> !IsIoErr(results[k])
      invariant printed == FlatMap(ResultOutput, results[..read])
    {
      var r := results[read];
      FlatMapStep(ResultOutput, results, read);
      read := read + 1;
      match r
      case Ok(file) =>
        var lines := PrintFile(file);
        printed := printed + lines;
      case Err(IoErr) =>
        printed := printed + [IoErrorExit];
        break;
      case Err(ParseErr) =>
        printed := printed + [ErrorReported(ParseErr)];
    }
    assert results[..|results|] == results;
  }

  /** Every reading `main` prints is the pretty name of an exportable catalog entry. */
  lemma MainPrintsOnlyExportable(results: seq<ReadResult>, p: Printed)
    requires p in MainOutput(results) && p.Reading?
    ensures exists n :: Exportable(n) && PrettyName(n) == p.prettyName
  {
    var rs := results[..Consumed(results)];
    FlatMapSource(ResultOutput, rs, p);
    var k :| 0 <= k < |rs| && p in ResultOutput(rs[k]);
    var messages := rs[k].value.messages;
    FlatMapSource(MessageOutput, messages, p);
    var i :| 0 <= i < |messages| && p in MessageOutput(messages[i]);
    var valList := messages[i].messageBody.valList;
    FlatMapSource(EntryOutput, valList, p);
    var j :| 0 <= j < |valList| && p in EntryOutput(valList[j]);
    EntryReadingExportable(valList[j], p);
  }

  /** A reading printed for one entry carries the pretty name of an exportable catalog entry. */
  lemma EntryReadingExportable(e: ListEntry, p: Printed)
    requires p in EntryOutput(e) && p.Reading?
    ensures exists n :: Exportable(n) && PrettyName(n) == p.prettyName
  {
    var n := LookupObiName(TryIntoId(e.objName).value).value;
    assert Exportable(n) && PrettyName(n) == p.prettyName;
  }

  /** Handling a result that is not an `IoErr` never prints the exit report. */
  lemma ExitOnlyOnIoErr(r: ReadResult)
    ensures IoErrorExit in ResultOutput(r) <==> IsIoErr(r)
  {
    if r.Ok? && IoErrorExit in ResultOutput(r) {
      FlatMapSource(MessageOutput, r.value.messages, IoErrorExit);
      var i :| 0 <= i < |r.value.messages| && IoErrorExit in MessageOutput(r.value.messages[i]);
      FlatMapSource(EntryOutput, r.value.messages[i].messageBody.valList, IoErrorExit);
    }
  }

  /**
   * `main` ends its output with the exit report exactly when the reader
   * delivers an `IoErr`, and never prints that report anywhere else.
   */
  lemma MainExitsOnIoErr(results: seq<ReadResult>)
    ensures (exists k :: 0 <= k < |results| && IsIoErr(results[k])) <==>
      (MainOutput(results) != [] && MainOutput(results)[|MainOutput(results)| - 1] == IoErrorExit)
    ensures forall i :: 0 <= i < |MainOutput(results)| - 1 ==> MainOutput(results)[i] != IoErrorExit
  {
    forall r: ReadResult
      ensures !IsIoErr(r) ==> IoErrorExit !in ResultOutput(r)
    {
      ExitOnlyOnIoErr(r);
    }
    StopsAtFirstIoErr(ResultOutput, results, IoErrorExit);
  }

  /**
   * Frames, errors and skipped entries before a point never change what is
   * printed after it: the results after a stretch without `IoErr` are handled
   * exactly as if they came first.
   */
  lemma MainOutputAppend(a: seq<ReadResult>, b: seq<ReadResult>)
    requires NoIoErr(a)
    ensures MainOutput(a + b) == FlatMap(ResultOutput, a) + MainOutput(b)
  {
    ConsumedAppend(a, b);
    assert (a + b)[..|a| + Consumed(b)] == a + b[..Consumed(b)];
    FlatMapAppend(ResultOutput, a, b[..Consumed(b)]);
  }

  /** An entry that prints nothing does not affect the entries around it. */
  lemma SkippedEntryHarmless(before: seq<ListEntry>, e: ListEntry, after: seq<ListEntry>)
    requires EntryOutput(e) == []
    ensures FlatMap(EntryOutput, before + [e] + after) == FlatMap(EntryOutput, before + after)
  {
    FlatMapSkip(EntryOutput, before, e, after);
  }

  /** A list response frame with one entry. */
  function OneEntryFrame(objName: seq<byte>, value: Value): ReadResult
  {
    Ok(File([Message(GetListResponse([ListEntry(objName, Some(30), value)]))]))
  }

  /** The total meter reading 123456 is printed under its pretty name. */
  lemma MeterReadingScenario()
    ensures MainOutput([OneEntryFrame([0x01, 0x00, 0x01, 0x08, 0x00, 0xff], I64(123456))])
      == [Reading("Zählerstand Total", 123456)]
  {
    assert TryIntoId([0x01, 0x00, 0x01, 0x08, 0x00, 0xff]) == Some(Id(MeterReadingTotal));
  }

  /** An unknown identifier, a non-exportable entry and a non-integer value print nothing. */
  lemma SilentScenarios()
    ensures MainOutput([OneEntryFrame([0xff, 0xff, 0xff, 0xff, 0xff, 0xff], I64(42))]) == []
    ensures MainOutput([OneEntryFrame([0x01, 0x00, 0x10, 0x07, 0x00, 0xff], I64(42))]) == []
    ensures MainOutput([OneEntryFrame([0x01, 0x00, 0x01, 0x08, 0x00, 0xff], Bytes([0x34, 0x32]))]) == []
  {
    UnknownIdNotFound();
    assert TryIntoId([0x01, 0x00, 0x10, 0x07, 0x00, 0xff]) == Some(Id(ActivePowerCurrent));
  }

  /** After an `IoErr` nothing more is read: a later frame prints nothing. */
  lemma StopScenario()
    ensures MainOutput([Err(ParseErr), Err(IoErr), OneEntryFrame([0x01, 0x00, 0x01, 0x08, 0x00, 0xff], I64(1))])
      == [ErrorReported(ParseErr), IoErrorExit]
  {
    var results := [Err(ParseErr), Err(IoErr), OneEntryFrame([0x01, 0x00, 0x01, 0x08, 0x00, 0xff], I64(1))];
    assert Consumed(results) == 2;
    var read := results[..2];
    assert read[..1] == [Err(ParseErr)];
    assert FlatMap(ResultOutput, read) == FlatMap(ResultOutput, [Err(ParseErr)]) + [IoErrorExit];
  }
}
