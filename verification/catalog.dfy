/** The static metric catalogue of the collector: one descriptor per metric,
    named `<prefix>_<suffix>`, with a fixed help text and an ordered list of
    variable label names. The catalogue depends on the prefix alone. */
module Catalog {

  /** A metric descriptor: fully-qualified name, help text, variable label names. */
  datatype Desc = Desc(name: string, help: string, labelNames: seq<string>)

  /** Which descriptor of the collector an observation belongs to. The
      constructors are listed in the order `Describe` publishes them. */
  datatype Metric =
    | FetchTime
    | ActualTemperature | TargetTemperatureMax | TargetTemperatureMin
    | Temperature | Humidity | Voc | Co2 | AirQuality | AirQualityAccuracy | AirPressure
    | Occupancy | InUse
    | CurrentHvacMode | OutsideTemp | OutsideTempF
    | EquipmentRunning
    | AuxHeat1 | AuxHeat2 | AuxHeat3 | CompCool1 | CompCool2 | HeatPump1 | HeatPump2 | Fan
  {
    /** The dedicated metric of one equipment stage. */
    predicate IsChannel() {
      AuxHeat1? || AuxHeat2? || AuxHeat3? || CompCool1? || CompCool2? || HeatPump1? || HeatPump2? || Fan?
    }

    /** A metric labelled by remote sensor. */
    predicate IsSensor() {
      Temperature? || Humidity? || Voc? || Co2? || AirQuality? || AirQualityAccuracy? || AirPressure?
      || Occupancy? || InUse?
    }

    /** A metric of a connected thermostat's runtime, equipment and weather block. */
    predicate IsRuntime() {
      ActualTemperature? || TargetTemperatureMax? || TargetTemperatureMin? || CurrentHvacMode?
      || EquipmentRunning? || OutsideTempF? || OutsideTemp? || IsChannel()
    }

    /** How many label names the metric's descriptor has. */
    function LabelCount(): nat {
      if FetchTime? then 0
      else if EquipmentRunning? || CurrentHvacMode? then 3
      else if IsSensor() then 5
      else 2
    }
  }

  /** The stage metrics belong to the runtime block and carry the thermostat's
      two labels only. */
  lemma ChannelShape()
    ensures forall m: Metric :: m.IsChannel() ==> m.IsRuntime() && m.LabelCount() == 2
  {
  }

  /** Labels shared by every per-thermostat metric. */
  const RuntimeLabels: seq<string> := ["thermostat_id", "thermostat_name"]
  /** Per-sensor metrics add the sensor's identity to the thermostat's. */
  const SensorLabels: seq<string> := RuntimeLabels + ["sensor_id", "sensor_name", "sensor_type"]
  /** `equipment_running` adds the free-text stage name. */
  const EquipmentLabels: seq<string> := RuntimeLabels + ["name"]
  /** `currenthvacmode` carries the mode as its third label. */
  const HvacModeLabels: seq<string> := ["thermostat_id", "thermostat_name", "current_hvac_mode"]

  /** The label names of a metric, decided by its group alone: none for
      `fetch_time`, the stage name or the HVAC mode after the thermostat's two
      labels, the sensor's identity after them for sensor metrics, and the
      thermostat's two labels for every other metric. */
  function GroupLabels(m: Metric): (names: seq<string>)
    ensures |names| == m.LabelCount()
    ensures m.FetchTime? <==> names == []
    ensures !m.FetchTime? ==> names[..2] == RuntimeLabels
  {
    if m.FetchTime? then []
    else if m.EquipmentRunning? then EquipmentLabels
    else if m.CurrentHvacMode? then HvacModeLabels
    else if m.IsSensor() then SensorLabels
    else RuntimeLabels
  }

  /** The collector's descriptors, one field per metric. */
  datatype Catalog = Catalog(
    fetchTime: Desc,
    actualTemperature: Desc, targetTemperatureMin: Desc, targetTemperatureMax: Desc,
    temperature: Desc, humidity: Desc, occupancy: Desc, inUse: Desc, currentHvacMode: Desc,
    voc: Desc, co2: Desc, airQuality: Desc, airQualityAccuracy: Desc, airPressure: Desc,
    equipmentRunning: Desc, auxHeat1: Desc, auxHeat2: Desc, auxHeat3: Desc,
    compCool1: Desc, compCool2: Desc, heatPump1: Desc, heatPump2: Desc, fan: Desc,
    outsideTempF: Desc, outsideTemp: Desc)

  /** The descriptor of a metric. */
  function Field(c: Catalog, m: Metric): Desc {
    match m
    case FetchTime => c.fetchTime
    case ActualTemperature => c.actualTemperature
    case TargetTemperatureMax => c.targetTemperatureMax
    case TargetTemperatureMin => c.targetTemperatureMin
    case Temperature => c.temperature
    case Humidity => c.humidity
    case Voc => c.voc
    case Co2 => c.co2
    case AirQuality => c.airQuality
    case AirQualityAccuracy => c.airQualityAccuracy
    case AirPressure => c.airPressure
    case Occupancy => c.occupancy
    case InUse => c.inUse
    case CurrentHvacMode => c.currentHvacMode
    case OutsideTemp => c.outsideTemp
    case OutsideTempF => c.outsideTempF
    case EquipmentRunning => c.equipmentRunning
    case AuxHeat1 => c.auxHeat1
    case AuxHeat2 => c.auxHeat2
    case AuxHeat3 => c.auxHeat3
    case CompCool1 => c.compCool1
    case CompCool2 => c.compCool2
    case HeatPump1 => c.heatPump1
    case HeatPump2 => c.heatPump2
    case Fan => c.fan
  }

  /** Every descriptor has as many label names as its metric's group requires:
      the condition under which every emission of the collector carries one
      label value per label name. */
  predicate Shaped(c: Catalog) {
    forall m: Metric :: |Field(c, m).labelNames| == m.LabelCount()
  }

  /** The columns of the descriptor table: row `k` is the `descs.new` call of
      `NewEcobeeCollector` for the descriptor `Describe` publishes `k`-th. */
  const Suffixes: seq<string> := [
    "fetch_time",
    "actual_temperature",
    "target_temperature_max",
    "target_temperature_min",
    "temperature",
    "humidity",
    "volitile_organic_compounds_ppm",
    "carbon_dioxide_ppm",
    "air_quality",
    "air_quality_accuracy",
    "air_pressure",
    "occupancy",
    "in_use",
    "currenthvacmode",
    "outside_temperature",
    "outside_temperature_fahrenheit",
    "equipment_running",
    "aux_heat1",
    "aux_heat2",
    "aux_heat3",
    "comp_cool1",
    "comp_cool2",
    "heat_pump1",
    "heat_pump2",
    "fan"]

  const Helps: seq<string> := [
    "elapsed time fetching data via Ecobee API",
    "thermostat-averaged current temperature",
    "maximum temperature for thermostat to maintain",
    "minimum temperature for thermostat to maintain",
    "temperature reported by a sensor in degrees",
    "humidity reported by a sensor in percent",
    "VOCs",
    "CO2",
    "air quality",
    "air quality accuracy",
    "air pressure in ??",
    "occupancy reported by a sensor (0 or 1)",
    "is sensor being used in thermostat calculations (0 or 1)",
    "current hvac mode of thermostat",
    "current outside temperature (Celsius)",
    "current outside temperature (Fahrenheit)",
    "equipment currently running (1 for on, 0 for off)",
    "Heat stage 1",
    "Heat stage 2",
    "Heat stage 3",
    "Cool stage 1",
    "Cool stage 2",
    "Heat pump stage 1",
    "Heat pump stage 2",
    "current hvac mode of thermostat"]

  const Labels: seq<seq<string>> := [
    [], RuntimeLabels, RuntimeLabels, RuntimeLabels, SensorLabels, SensorLabels, SensorLabels, SensorLabels, SensorLabels, SensorLabels, SensorLabels, SensorLabels, SensorLabels, HvacModeLabels, RuntimeLabels, RuntimeLabels, EquipmentLabels, RuntimeLabels, RuntimeLabels, RuntimeLabels, RuntimeLabels, RuntimeLabels, RuntimeLabels, RuntimeLabels, RuntimeLabels]

  /** `descs.new` for row `k`: the descriptor named `<prefix>_<suffix>`. */
  function NewDesc(prefix: string, k: nat): (d: Desc)
    requires k < 25
    ensures |d.name| == |prefix| + 1 + |Suffixes[k]|
    ensures d.name[..|prefix| + 1] == prefix + "_" && d.name[|prefix| + 1..] == Suffixes[k]
    ensures d.help == Helps[k] && d.labelNames == Labels[k]
  {
    Desc(prefix + "_" + Suffixes[k], Helps[k], Labels[k])
  }

  /** Places the descriptors, listed in publication order, in their fields. */
  function Assemble(ds: seq<Desc>): Catalog
    requires |ds| == 25
  {
    Catalog(
      fetchTime := ds[0],
      actualTemperature := ds[1],
      targetTemperatureMax := ds[2],
      targetTemperatureMin := ds[3],
      temperature := ds[4],
      humidity := ds[5],
      voc := ds[6],
      co2 := ds[7],
      airQuality := ds[8],
      airQualityAccuracy := ds[9],
      airPressure := ds[10],
      occupancy := ds[11],
      inUse := ds[12],
      currentHvacMode := ds[13],
      outsideTemp := ds[14],
      outsideTempF := ds[15],
      equipmentRunning := ds[16],
      auxHeat1 := ds[17],
      auxHeat2 := ds[18],
      auxHeat3 := ds[19],
      compCool1 := ds[20],
      compCool2 := ds[21],
      heatPump1 := ds[22],
      heatPump2 := ds[23],
      fan := ds[24])
  }

  /** `NewEcobeeCollector`: the collector's descriptors for `prefix`, one per table row. */
  function Build(prefix: string): (c: Catalog)
    ensures Shaped(c)
  {
    var ds := seq(25, k requires 0 <= k < 25 => NewDesc(prefix, k));
    Assemble(ds)
  }

  /** `Describe`: every descriptor of the catalogue, in registration order. */
  function Describe(c: Catalog): (ds: seq<Desc>)
    ensures |ds| == 25
    ensures ds[0] == c.fetchTime
  {
    [c.fetchTime, c.actualTemperature, c.targetTemperatureMax, c.targetTemperatureMin,
     c.temperature, c.humidity, c.voc, c.co2, c.airQuality, c.airQualityAccuracy, c.airPressure,
     c.occupancy, c.inUse, c.currentHvacMode, c.outsideTemp, c.outsideTempF,
     c.equipmentRunning, c.auxHeat1, c.auxHeat2, c.auxHeat3, c.compCool1, c.compCool2,
     c.heatPump1, c.heatPump2, c.fan]
  }

  /** Where `Describe` publishes a metric's descriptor. */
  function Position(m: Metric): (k: nat)
    ensures k < 25
    ensures k == 0 <==> m.FetchTime?
  {
    match m
    case FetchTime => 0
    case ActualTemperature => 1
    case TargetTemperatureMax => 2
    case TargetTemperatureMin => 3
    case Temperature => 4
    case Humidity => 5
    case Voc => 6
    case Co2 => 7
    case AirQuality => 8
    case AirQualityAccuracy => 9
    case AirPressure => 10
    case Occupancy => 11
    case InUse => 12
    case CurrentHvacMode => 13
    case OutsideTemp => 14
    case OutsideTempF => 15
    case EquipmentRunning => 16
    case AuxHeat1 => 17
    case AuxHeat2 => 18
    case AuxHeat3 => 19
    case CompCool1 => 20
    case CompCool2 => 21
    case HeatPump1 => 22
    case HeatPump2 => 23
    case Fan => 24
  }

  /** `Describe` publishes every metric's descriptor, each at its own position,
      so nothing an observation can use is left unregistered. */
  lemma FieldDescribed(c: Catalog, m: Metric)
    ensures Describe(c)[Position(m)] == Field(c, m)
    ensures forall m': Metric :: Position(m') == Position(m) ==> m' == m
  {
  }

  /** Distinct metrics of a built catalogue have distinct descriptor names. */
  lemma FieldNamesDistinct(prefix: string, m: Metric, m': Metric)
    requires m != m'
    ensures Field(Build(prefix), m).name != Field(Build(prefix), m').name
  {
    FieldDescribed(Build(prefix), m);
    FieldDescribed(Build(prefix), m');
    DescribedNamesDistinct(prefix);
    if Position(m) < Position(m') {
      assert Describe(Build(prefix))[Position(m)].name != Describe(Build(prefix))[Position(m')].name;
    } else {
      assert Describe(Build(prefix))[Position(m')].name != Describe(Build(prefix))[Position(m)].name;
    }
  }

  /** Publishing the assembled catalogue gives back the descriptors in the
      order they were listed. */
  lemma DescribeAssemble(ds: seq<Desc>)
    requires |ds| == 25
    ensures Describe(Assemble(ds)) == ds
  {
  }

  /** The described descriptors are named `<prefix>_<suffix>` after the table's
      suffix column, in table order. */
  lemma DescribedNames(prefix: string)
    ensures forall i :: 0 <= i < 25 ==> Describe(Build(prefix))[i].name == prefix + "_" + Suffixes[i]
  {
    var ds := seq(25, k requires 0 <= k < 25 => NewDesc(prefix, k));
    DescribeAssemble(ds);
  }

  /** No two rows of the table share a suffix. */
  lemma SuffixesDistinct()
    ensures forall i, j :: 0 <= i < j < |Suffixes| ==> Suffixes[i] != Suffixes[j]
  {
  }

  /** Qualifying pairwise distinct suffixes with one prefix keeps them distinct. */
  lemma QualifiedNamesDistinct(prefix: string, ds: seq<Desc>)
    requires |ds| == 25
    requires forall i :: 0 <= i < 25 ==> ds[i].name == prefix + "_" + Suffixes[i]
    ensures forall i, j :: 0 <= i < j < 25 ==> ds[i].name != ds[j].name
  {
    var p := prefix + "_";
    SuffixesDistinct();
    forall i, j | 0 <= i < j < 25
      ensures ds[i].name != ds[j].name
    {
      assert ds[i].name[|p|..] == Suffixes[i];
      assert ds[j].name[|p|..] == Suffixes[j];
    }
  }

  /** The 25 described names are pairwise distinct for every prefix, so `Describe`
      yields every descriptor exactly once. */
  lemma DescribedNamesDistinct(prefix: string)
    ensures forall i, j :: 0 <= i < j < 25 ==>
      Describe(Build(prefix))[i].name != Describe(Build(prefix))[j].name
  {
    DescribedNames(prefix);
    QualifiedNamesDistinct(prefix, Describe(Build(prefix)));
  }

  /** The described descriptors carry the table's label column, in table order. */
  lemma DescribedLabels(prefix: string)
    ensures forall i :: 0 <= i < 25 ==> Describe(Build(prefix))[i].labelNames == Labels[i]
  {
    var ds := seq(25, k requires 0 <= k < 25 => NewDesc(prefix, k));
    DescribeAssemble(ds);
  }

  /** Row `Position(m)` of the label column is the label list of `m`'s group. */
  lemma LabelsByGroup(m: Metric)
    ensures Labels[Position(m)] == GroupLabels(m)
  {
  }

  /** Every built descriptor has exactly its group's label names, in order, for
      every prefix: the label values an emission passes line up with them. */
  lemma BuiltLabelNames(prefix: string)
    ensures forall m: Metric :: Field(Build(prefix), m).labelNames == GroupLabels(m)
  {
    DescribedLabels(prefix);
    forall m: Metric
      ensures Field(Build(prefix), m).labelNames == GroupLabels(m)
    {
      FieldDescribed(Build(prefix), m);
      LabelsByGroup(m);
    }
  }
}
