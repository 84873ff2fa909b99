/**
 * src/serial/obi.rs: the smaller catalog revision used by the metric sink:
 * nine identifier constants, the ObiType variants that wrap them, their
 * lookup map, and the units and values of a meter message.
 */
module SerialObi {
  import opened Wrappers
  import opened Obis

  /** The unit of a reported quantity (`enum MessageUnit`). */
  datatype MessageUnit = Wh | W | NoUnit

  /** `impl Display for MessageUnit`: `Wh`, `W`, and nothing at all for no unit. */
  function DisplayMessageUnit(u: MessageUnit): (s: string)
    ensures |s| <= 2
    ensures ParseMessageUnit(s) == Some(u)
  {
    match u
    case Wh => "Wh"
    case W => "W"
    case NoUnit => ""
  }

  /** Reads a displayed unit back. */
  function ParseMessageUnit(s: string): Option<MessageUnit>
  {
    if s == "Wh" then Some(Wh) else if s == "W" then Some(W) else if s == "" then Some(NoUnit) else None
  }

  /** No two units display alike. */
  lemma MessageUnitDisplayInjective()
    ensures forall u, v :: DisplayMessageUnit(u) == DisplayMessageUnit(v) ==> u == v
  {
  }

  /** A value of a meter message (`enum MessageValue`); the source declares it but no code builds one. */
  datatype MessageValue = U32(u32: u32) | I64(i64: i64) | Str(text: string)

  /** Identifier and display name of a catalog entry (`struct Obi` of this revision). */
  datatype Obi = Obi(id: ObisId, prettyName: string)

  /** The nine quantities of this revision (`enum ObiType`), each wrapping its Obi. */
  datatype ObiType =
    | DeviceIdentification(obi: Obi)
    | ManufacturerIdentification(obi: Obi)
    | MeterReadingTotal(obi: Obi)
    | MeterReadingTariff1(obi: Obi)
    | MeterReadingTariff2(obi: Obi)
    | ActivePowerTotal(obi: Obi)
    | ActivePowerTariff1(obi: Obi)
    | ActivePowerTariff2(obi: Obi)
    | ActivePowerCurrent(obi: Obi)

  /** A decoded meter message (`struct Message`); the source declares it but no code builds one. */
  datatype Message = Message(obiId: ObisId, unit: MessageUnit, value: MessageValue, obiName: ObiType)

  /** `ObiType::pretty_name`: the display name of the wrapped Obi, for every variant. */
  function PrettyName(t: ObiType): (r: string)
    ensures r == t.obi.prettyName
  {
    match t
    case DeviceIdentification(obi) => obi.prettyName
    case ManufacturerIdentification(obi) => obi.prettyName
    case MeterReadingTotal(obi) => obi.prettyName
    case MeterReadingTariff1(obi) => obi.prettyName
    case MeterReadingTariff2(obi) => obi.prettyName
    case ActivePowerTotal(obi) => obi.prettyName
    case ActivePowerTariff1(obi) => obi.prettyName
    case ActivePowerTariff2(obi) => obi.prettyName
    case ActivePowerCurrent(obi) => obi.prettyName
  }

  // The `OBI_*` identifier constants.
  const ObiDeviceIdentification: ObisId := ObisId(0x01, 0x00, 0x00, 0x00, 0x09, 0xff)
  const ObiManufacturerIdentification: ObisId := ObisId(0x81, 0x81, 0xc7, 0x82, 0x03, 0xff)
  const ObiMeterReadingTotal: ObisId := ObisId(0x01, 0x00, 0x01, 0x08, 0x00, 0xff)
  const ObiMeterReadingTariff1: ObisId := ObisId(0x01, 0x00, 0x01, 0x08, 0x01, 0xff)
  const ObiMeterReadingTariff2: ObisId := ObisId(0x01, 0x00, 0x01, 0x08, 0x02, 0xff)
  const ObiActivePowerTotal: ObisId := ObisId(0x01, 0x00, 0x02, 0x08, 0x00, 0xff)
  const ObiActivePowerTariff1: ObisId := ObisId(0x01, 0x00, 0x02, 0x08, 0x01, 0xff)
  const ObiActivePowerTariff2: ObisId := ObisId(0x01, 0x00, 0x02, 0x08, 0x02, 0xff)
  const ObiActivePowerCurrent: ObisId := ObisId(0x01, 0x00, 0x0F, 0x07, 0x00, 0xff)

  /** The constants in declaration order. */
  const ObiConstants: seq<ObisId> := [
    ObiDeviceIdentification,
    ObiManufacturerIdentification,
    ObiMeterReadingTotal,
    ObiMeterReadingTariff1,
    ObiMeterReadingTariff2,
    ObiActivePowerTotal,
    ObiActivePowerTariff1,
    ObiActivePowerTariff2,
    ObiActivePowerCurrent
  ]

  /** The nine constants are pairwise distinct. */
  lemma ConstantsDistinct()
    ensures forall i, j :: 0 <= i < j < |ObiConstants| ==> ObiConstants[i] != ObiConstants[j]
  {
  }

  /** The map `get_lookup_map` builds once (the `OnceLock` static): nine inserts, in the source's order. */
  function LookupMap(): map<ObisId, ObiType>
  {
    map[
      ObiDeviceIdentification := DeviceIdentification(Obi(ObiDeviceIdentification, "Geräteeinzelidentifikation")),
      ObiMeterReadingTotal := MeterReadingTotal(Obi(ObiMeterReadingTotal, "Zählerstand Total")),
      ObiMeterReadingTariff1 := MeterReadingTariff1(Obi(ObiMeterReadingTariff1, "Zählerstand Tarif 1")),
      ObiMeterReadingTariff2 := MeterReadingTariff2(Obi(ObiMeterReadingTariff2, "Zählerstand Tarif 2")),
      ObiActivePowerTotal := ActivePowerTotal(Obi(ObiActivePowerTotal, "Wirkenergie Total")),
      ObiActivePowerCurrent := ActivePowerCurrent(Obi(ObiActivePowerCurrent, "aktuelle Wirkleistung")),
      ObiActivePowerTariff1 := ActivePowerTariff1(Obi(ObiActivePowerTariff1, "Wirkleistung L1")),
      ObiActivePowerTariff2 := ActivePowerTariff2(Obi(ObiActivePowerTariff2, "Wirkleistung L2")),
      ObiManufacturerIdentification := ManufacturerIdentification(Obi(ObiManufacturerIdentification, "Herstelleridentifikation"))
    ]
  }

  /** `get_lookup_map`: fills a fresh map with the nine entries. */
  method GetLookupMap() returns (m: map<ObisId, ObiType>)
    ensures m == LookupMap()
  {
    m := map[];
    m := m[ObiDeviceIdentification := DeviceIdentification(Obi(ObiDeviceIdentification, "Geräteeinzelidentifikation"))];
    m := m[ObiMeterReadingTotal := MeterReadingTotal(Obi(ObiMeterReadingTotal, "Zählerstand Total"))];
    m := m[ObiMeterReadingTariff1 := MeterReadingTariff1(Obi(ObiMeterReadingTariff1, "Zählerstand Tarif 1"))];
    m := m[ObiMeterReadingTariff2 := MeterReadingTariff2(Obi(ObiMeterReadingTariff2, "Zählerstand Tarif 2"))];
    m := m[ObiActivePowerTotal := ActivePowerTotal(Obi(ObiActivePowerTotal, "Wirkenergie Total"))];
    m := m[ObiActivePowerCurrent := ActivePowerCurrent(Obi(ObiActivePowerCurrent, "aktuelle Wirkleistung"))];
    m := m[ObiActivePowerTariff1 := ActivePowerTariff1(Obi(ObiActivePowerTariff1, "Wirkleistung L1"))];
    m := m[ObiActivePowerTariff2 := ActivePowerTariff2(Obi(ObiActivePowerTariff2, "Wirkleistung L2"))];
    m := m[ObiManufacturerIdentification := ManufacturerIdentification(Obi(ObiManufacturerIdentification, "Herstelleridentifikation"))];
  }

  /** The keys of the map are exactly the nine constants. */
  lemma LookupMapKeys()
    ensures LookupMap().Keys == set c | c in ObiConstants
  {
  }

  /** No insert overwrites another: the map holds nine entries. */
  lemma LookupMapSize()
    ensures |LookupMap()| == 9
  {
  }

  /** Every entry wraps the identifier it is stored under. */
  lemma LookupMapIds()
    ensures forall k :: k in LookupMap() ==> LookupMap()[k].obi.id == k
  {
  }

  /** `lookup_obi_name`: the variant stored under `id`; None for any id that is not one of the constants. */
  function LookupObiName(id: ObisId): (r: Option<ObiType>)
    ensures r.Some? <==> id in ObiConstants
    ensures r.Some? ==> r.value.obi.id == id
  {
    LookupMapKeys();
    LookupMapIds();
    if id in LookupMap() then Some(LookupMap()[id]) else None
  }

  /** The two identification constants find their variants and names. */
  lemma IdentificationLookups()
    ensures LookupObiName(ObiDeviceIdentification) == Some(DeviceIdentification(Obi(ObiDeviceIdentification, "Geräteeinzelidentifikation")))
    ensures LookupObiName(ObiManufacturerIdentification) == Some(ManufacturerIdentification(Obi(ObiManufacturerIdentification, "Herstelleridentifikation")))
  {
  }

  /** The three meter-reading constants find their variants and names. */
  lemma MeterReadingLookups()
    ensures LookupObiName(ObiMeterReadingTotal) == Some(MeterReadingTotal(Obi(ObiMeterReadingTotal, "Zählerstand Total")))
    ensures LookupObiName(ObiMeterReadingTariff1) == Some(MeterReadingTariff1(Obi(ObiMeterReadingTariff1, "Zählerstand Tarif 1")))
    ensures LookupObiName(ObiMeterReadingTariff2) == Some(MeterReadingTariff2(Obi(ObiMeterReadingTariff2, "Zählerstand Tarif 2")))
  {
  }

  /** The four active-power constants find their variants and names; the tariff entries are named after phases L1 and L2. */
  lemma ActivePowerLookups()
    ensures LookupObiName(ObiActivePowerTotal) == Some(ActivePowerTotal(Obi(ObiActivePowerTotal, "Wirkenergie Total")))
    ensures LookupObiName(ObiActivePowerTariff1) == Some(ActivePowerTariff1(Obi(ObiActivePowerTariff1, "Wirkleistung L1")))
    ensures LookupObiName(ObiActivePowerTariff2) == Some(ActivePowerTariff2(Obi(ObiActivePowerTariff2, "Wirkleistung L2")))
    ensures LookupObiName(ObiActivePowerCurrent) == Some(ActivePowerCurrent(Obi(ObiActivePowerCurrent, "aktuelle Wirkleistung")))
  {
  }

  /**
   * 01 00 0F 07 00 FF is the current active power, named "aktuelle Wirkleistung";
   * 01 00 10 07 00 FF, the identifier the full catalog gives that quantity, is unknown here.
   */
  lemma ActivePowerCurrentLookup()
    ensures LookupObiName(ObisId(0x01, 0x00, 0x0F, 0x07, 0x00, 0xff))
      == Some(ActivePowerCurrent(Obi(ObiActivePowerCurrent, "aktuelle Wirkleistung")))
    ensures PrettyName(LookupObiName(ObiActivePowerCurrent).value) == "aktuelle Wirkleistung"
    ensures LookupObiName(ObisId(0x01, 0x00, 0x10, 0x07, 0x00, 0xff)) == None
  {
  }
}
