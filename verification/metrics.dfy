/**
 * src/metrics.rs: the Prometheus sink, seven gauges and the dispatch that
 * writes a reading into the gauge its catalog variant selects.
 */
module Metrics {
  import opened Wrappers
  import opened SerialObi

  /**
   * A Prometheus gauge. Cloning a gauge shares its value cell, so a clone is
   * modelled as a second reference to the same object.
   */
  class Gauge {
    const name: string
    const help: string
    var value: real

    constructor (name: string, help: string)
      ensures this.name == name && this.help == help
      ensures value == 0.0
    {
      this.name := name;
      this.help := help;
      value := 0.0;
    }

    /** `Gauge::set`: overwrites the value. */
    method Set(v: real)
      modifies this
      ensures value == v
    {
      value := v;
    }
  }

  /** A Prometheus registry, reduced to the names of the collectors it holds. */
  class Registry {
    var names: seq<string>

    constructor ()
      ensures names == []
    {
      names := [];
    }

    /** `Registry::register`: refuses a second collector under a name already present. */
    method Register(g: Gauge) returns (ok: bool)
      modifies this
      ensures ok <==> g.name !in old(names)
      ensures names == if ok then old(names) + [g.name] else old(names)
    {
      ok := g.name !in names;
      if ok {
        names := names + [g.name];
      }
    }

    /** `register(...).unwrap()`: a registration the caller knows to succeed. */
    method RegisterNew(g: Gauge)
      requires g.name !in names
      modifies this
      ensures names == old(names) + [g.name]
    {
      var ok := Register(g);
    }
  }

  /** The seven fields of `struct Metrics`. */
  datatype GaugeField =
    | ReadingTotal | ReadingTariff1 | ReadingTariff2
    | PowerTotal | PowerTariff1 | PowerTariff2 | PowerCurrent

  /** All seven fields. */
  const AllFields: set<GaugeField> := {ReadingTotal, ReadingTariff1, ReadingTariff2, PowerTotal, PowerTariff1, PowerTariff2, PowerCurrent}

  /** Every field is listed in AllFields. */
  lemma AllFieldsComplete(f: GaugeField)
    ensures f in AllFields
  {
  }

  /** The metric name `Metrics::new` gives each field's gauge. */
  function GaugeName(f: GaugeField): string
  {
    match f
    case ReadingTotal => "electricity_meter_reading_total"
    case ReadingTariff1 => "electricity_meter_reading_tariff1"
    case ReadingTariff2 => "electricity_meter_reading_tariff2"
    case PowerTotal => "electricity_meter_active_power_total"
    case PowerTariff1 => "electricity_meter_active_power_tariff1"
    case PowerTariff2 => "electricity_meter_active_power_tariff2"
    case PowerCurrent => "electricity_meter_active_power_current"
  }

  /** The help text `Metrics::new` gives each field's gauge. */
  function GaugeHelp(f: GaugeField): string
  {
    match f
    case ReadingTotal => "Total meter reading. Unit {}"
    case ReadingTariff1 => "Tariff 1 meter reading"
    case ReadingTariff2 => "Tariff 2 meter reading"
    case PowerTotal => "Total active power"
    case PowerTariff1 => "Tariff 1 active power"
    case PowerTariff2 => "Tariff 2 active power"
    case PowerCurrent => "Current active power"
  }

  /** The names in the order `Metrics::new` registers them. */
  function RegistrationOrder(): seq<string>
  {
    [GaugeName(ReadingTotal), GaugeName(ReadingTariff1), GaugeName(ReadingTariff2),
     GaugeName(PowerTotal), GaugeName(PowerTariff1), GaugeName(PowerTariff2), GaugeName(PowerCurrent)]
  }

  /** The seven metric names are pairwise distinct. */
  lemma GaugeNamesDistinct()
    ensures forall f, g :: f != g ==> GaugeName(f) != GaugeName(g)
  {
  }

  /** Every metric name carries the `electricity_meter_` prefix. */
  lemma GaugeNamesPrefixed()
    ensures forall f :: "electricity_meter_" <= GaugeName(f)
  {
  }

  /** The registration order lists every field's name exactly once. */
  lemma RegistrationOrderComplete()
    ensures |RegistrationOrder()| == 7
    ensures forall f :: GaugeName(f) in RegistrationOrder()
    ensures forall i, j :: 0 <= i < j < 7 ==> RegistrationOrder()[i] != RegistrationOrder()[j]
  {
  }

  /**
   * The gauge `update_metric` writes for each variant. As written, the two
   * identification variants write the total and tariff-1 meter-reading gauges.
   */
  function Target(t: ObiType): (r: GaugeField)
    ensures Namesake(t).Some? ==> r == Namesake(t).value
    ensures Namesake(t).None? ==> r == ReadingTotal || r == ReadingTariff1
  {
    match t
    case DeviceIdentification(_) => ReadingTotal
    case ManufacturerIdentification(_) => ReadingTariff1
    case MeterReadingTotal(_) => ReadingTotal
    case MeterReadingTariff1(_) => ReadingTariff1
    case MeterReadingTariff2(_) => ReadingTariff2
    case ActivePowerTotal(_) => PowerTotal
    case ActivePowerTariff1(_) => PowerTariff1
    case ActivePowerTariff2(_) => PowerTariff2
    case ActivePowerCurrent(_) => PowerCurrent
  }

  /** The gauge of the same name as a measurement variant; identification variants have none. */
  function Namesake(t: ObiType): Option<GaugeField>
  {
    if t.MeterReadingTotal? then Some(ReadingTotal)
    else if t.MeterReadingTariff1? then Some(ReadingTariff1)
    else if t.MeterReadingTariff2? then Some(ReadingTariff2)
    else if t.ActivePowerTotal? then Some(PowerTotal)
    else if t.ActivePowerTariff1? then Some(PowerTariff1)
    else if t.ActivePowerTariff2? then Some(PowerTariff2)
    else if t.ActivePowerCurrent? then Some(PowerCurrent)
    else None
  }

  /** Only the two identification variants have no namesake gauge. */
  lemma NamesakeMissingForIdentification(t: ObiType)
    ensures Namesake(t).None? <==> t.DeviceIdentification? || t.ManufacturerIdentification?
  {
  }

  /**
   * The exact set of variants that reach each gauge: two each for the total and
   * tariff-1 meter readings, one for each of the other five, so the dispatch
   * reaches every gauge.
   */
  lemma TargetPreimages(t: ObiType)
    ensures Target(t) == ReadingTotal <==> t.DeviceIdentification? || t.MeterReadingTotal?
    ensures Target(t) == ReadingTariff1 <==> t.ManufacturerIdentification? || t.MeterReadingTariff1?
    ensures Target(t) == ReadingTariff2 <==> t.MeterReadingTariff2?
    ensures Target(t) == PowerTotal <==> t.ActivePowerTotal?
    ensures Target(t) == PowerTariff1 <==> t.ActivePowerTariff1?
    ensures Target(t) == PowerTariff2 <==> t.ActivePowerTariff2?
    ensures Target(t) == PowerCurrent <==> t.ActivePowerCurrent?
  {
  }

  /**
   * The seven `register(...).unwrap()` calls of `Metrics::new`, in field order:
   * each succeeds because the names are new and pairwise distinct.
   */
  method RegisterInOrder(registry: Registry, readingTotal: Gauge, readingTariff1: Gauge, readingTariff2: Gauge,
                         powerTotal: Gauge, powerTariff1: Gauge, powerTariff2: Gauge, powerCurrent: Gauge)
    requires readingTotal.name == RegistrationOrder()[0] && readingTariff1.name == RegistrationOrder()[1]
    requires readingTariff2.name == RegistrationOrder()[2] && powerTotal.name == RegistrationOrder()[3]
    requires powerTariff1.name == RegistrationOrder()[4] && powerTariff2.name == RegistrationOrder()[5]
    requires powerCurrent.name == RegistrationOrder()[6]
    requires forall f :: GaugeName(f) !in registry.names
    modifies registry
    ensures registry.names == old(registry.names) + RegistrationOrder()
  {
    ghost var before := registry.names;
    RegistrationStep(before, 0);
    registry.RegisterNew(readingTotal);
    assert registry.names == before + RegistrationOrder()[..1];
    RegistrationStep(before, 1);
    registry.RegisterNew(readingTariff1);
    assert registry.names == before + RegistrationOrder()[..2];
    RegistrationStep(before, 2);
    registry.RegisterNew(readingTariff2);
    assert registry.names == before + RegistrationOrder()[..3];
    RegistrationStep(before, 3);
    registry.RegisterNew(powerTotal);
    assert registry.names == before + RegistrationOrder()[..4];
    RegistrationStep(before, 4);
    registry.RegisterNew(powerTariff1);
    assert registry.names == before + RegistrationOrder()[..5];
    RegistrationStep(before, 5);
    registry.RegisterNew(powerTariff2);
    assert registry.names == before + RegistrationOrder()[..6];
    RegistrationStep(before, 6);
    registry.RegisterNew(powerCurrent);
    assert registry.names == before + RegistrationOrder()[..7];
  }

  /** The `i`-th name of the registration order is neither registered beforehand nor among the names registered before it. */
  lemma RegistrationStep(before: seq<string>, i: nat)
    requires i < 7
    requires forall f :: GaugeName(f) !in before
    ensures RegistrationOrder()[i] !in before + RegistrationOrder()[..i]
  {
  }

  /** `struct Metrics`: the seven gauges. */
  class Metrics {
    const meterReadingTotal: Gauge
    const meterReadingTariff1: Gauge
    const meterReadingTariff2: Gauge
    const activePowerTotal: Gauge
    const activePowerTariff1: Gauge
    const activePowerTariff2: Gauge
    const activePowerCurrent: Gauge

    /** The gauge held in field `f`. */
    function GaugeOf(f: GaugeField): Gauge
    {
      match f
      case ReadingTotal => meterReadingTotal
      case ReadingTariff1 => meterReadingTariff1
      case ReadingTariff2 => meterReadingTariff2
      case PowerTotal => activePowerTotal
      case PowerTariff1 => activePowerTariff1
      case PowerTariff2 => activePowerTariff2
      case PowerCurrent => activePowerCurrent
    }

    /** The seven fields hold seven different gauges. */
    predicate Distinct()
    {
      forall f, g :: f != g ==> GaugeOf(f) != GaugeOf(g)
    }

    /** `Metrics::default`: every field is a clone of one gauge named `test`. */
    constructor Default()
      ensures forall f :: GaugeOf(f) == meterReadingTotal
      ensures fresh(meterReadingTotal)
      ensures meterReadingTotal.name == "test" && meterReadingTotal.help == "test"
      ensures meterReadingTotal.value == 0.0
    {
      var defaultMetric := new Gauge("test", "test");
      meterReadingTotal := defaultMetric;
      meterReadingTariff1 := defaultMetric;
      meterReadingTariff2 := defaultMetric;
      activePowerTotal := defaultMetric;
      activePowerTariff1 := defaultMetric;
      activePowerTariff2 := defaultMetric;
      activePowerCurrent := defaultMetric;
    }

    /**
     * `Metrics::new`: seven fresh, distinct gauges with their names and help
     * texts, registered in field order. Registration must succeed (the source
     * unwraps it), so none of the names may be registered already.
     */
    constructor New(registry: Registry)
      requires forall f :: GaugeName(f) !in registry.names
      modifies registry
      ensures Distinct()
      ensures forall f :: fresh(GaugeOf(f))
      ensures forall f :: GaugeOf(f).name == GaugeName(f) && GaugeOf(f).help == GaugeHelp(f)
      ensures forall f :: GaugeOf(f).value == 0.0
      ensures registry.names == old(registry.names) + RegistrationOrder()
    {
      var readingTotal := new Gauge(GaugeName(ReadingTotal), GaugeHelp(ReadingTotal));
      var readingTariff1 := new Gauge(GaugeName(ReadingTariff1), GaugeHelp(ReadingTariff1));
      var readingTariff2 := new Gauge(GaugeName(ReadingTariff2), GaugeHelp(ReadingTariff2));
      var powerTotal := new Gauge(GaugeName(PowerTotal), GaugeHelp(PowerTotal));
      var powerTariff1 := new Gauge(GaugeName(PowerTariff1), GaugeHelp(PowerTariff1));
      var powerTariff2 := new Gauge(GaugeName(PowerTariff2), GaugeHelp(PowerTariff2));
      var powerCurrent := new Gauge(GaugeName(PowerCurrent), GaugeHelp(PowerCurrent));
      RegisterInOrder(registry, readingTotal, readingTariff1, readingTariff2, powerTotal, powerTariff1, powerTariff2, powerCurrent);
      meterReadingTotal := readingTotal;
      meterReadingTariff1 := readingTariff1;
      meterReadingTariff2 := readingTariff2;
      activePowerTotal := powerTotal;
      activePowerTariff1 := powerTariff1;
      activePowerTariff2 := powerTariff2;
      activePowerCurrent := powerCurrent;
    }

    /**
     * `update_metric`: sets the gauge `Target(message)` to `value`, whatever it
     * held before; every gauge that is a different object keeps its value. When
     * fields share one gauge, as after `Default`, all of them are that object
     * and so all of them read `value`. The source never calls this method.
     */
    method UpdateMetric(message: ObiType, value: real)
      modifies GaugeOf(Target(message))
      ensures GaugeOf(Target(message)).value == value
      ensures forall f :: GaugeOf(f) != GaugeOf(Target(message)) ==> GaugeOf(f).value == old(GaugeOf(f).value)
    {
      match message
      case DeviceIdentification(_) => meterReadingTotal.Set(value);
      case ManufacturerIdentification(_) => meterReadingTariff1.Set(value);
      case MeterReadingTotal(_) => meterReadingTotal.Set(value);
      case MeterReadingTariff1(_) => meterReadingTariff1.Set(value);
      case MeterReadingTariff2(_) => meterReadingTariff2.Set(value);
      case ActivePowerTotal(_) => activePowerTotal.Set(value);
      case ActivePowerTariff1(_) => activePowerTariff1.Set(value);
      case ActivePowerTariff2(_) => activePowerTariff2.Set(value);
      case ActivePowerCurrent(_) => activePowerCurrent.Set(value);
    }
  }

  /**
   * On freshly registered metrics, an update writes exactly one gauge: the
   * target reads `value` and the six others still read zero.
   */
  method UpdateFreshMetrics(message: ObiType, value: real) returns (readings: map<GaugeField, real>)
    ensures forall f :: f in readings
    ensures readings[Target(message)] == value
    ensures forall f :: f != Target(message) ==> readings[f] == 0.0
  {
    var registry := new Registry();
    var metrics := new Metrics.New(registry);
    metrics.UpdateMetric(message, value);
    readings := map f | f in AllFields :: metrics.GaugeOf(f).value;
    forall f { AllFieldsComplete(f); }
  }

  /**
   * On default metrics all seven fields share one gauge, so an update through
   * any variant shows up in every field.
   */
  method UpdateDefaultMetrics(message: ObiType, value: real) returns (readings: map<GaugeField, real>)
    ensures forall f :: f in readings && readings[f] == value
  {
    var metrics := new Metrics.Default();
    metrics.UpdateMetric(message, value);
    readings := map f | f in AllFields :: metrics.GaugeOf(f).value;
    forall f { AllFieldsComplete(f); }
  }

  /** A second update through the same variant replaces the first: the gauge reads the last value, not a sum. */
  method UpdateTwice(message: ObiType, first: real, second: real) returns (reading: real)
    ensures reading == second
  {
    var registry := new Registry();
    var metrics := new Metrics.New(registry);
    metrics.UpdateMetric(message, first);
    metrics.UpdateMetric(message, second);
    reading := metrics.GaugeOf(Target(message)).value;
  }
}
