/** The scrape translator: one call of `Collect` turns the result of one
    thermostat fetch into the sequence of gauge observations pushed to the
    metrics sink, together with the log events written on the way. The fetch
    itself, the clock and float parsing are inputs. */
module Collector {
  import opened Wrappers
  import opened Catalog
  import opened Conversions
  import opened Strconv
  import opened Ecobee

  /** One gauge sample: the metric whose descriptor it uses, its value and its
      label values. */
  datatype Observation = Observation(metric: Metric, value: real, labels: seq<string>)

  /** An observation the sink accepts: one label value per label name of its descriptor. */
  predicate WellFormed(cat: Catalog, o: Observation) {
    |o.labels| == |Field(cat, o.metric).labelNames|
  }

  datatype Level = Info | Error

  /** What the collector logs; message formatting is not modelled. */
  datatype LogEvent =
    | FetchFailed(err: FetchError)
    | ForecastReading(dateTime: string, celsius: real)
    | ParseFailed(tag: string, value: string)
    | ValueWas(tag: string, value: string)
    | UnknownOccupancy(value: string)
    | IgnoredCapability(tag: string)
  {
    function Severity(): Level {
      match this
      case ForecastReading(_, _) => Info
      case IgnoredCapability(_) => Info
      case _ => Error
    }

    /** An event logged while translating a thermostat rather than the fetch. */
    predicate FromThermostat() {
      ForecastReading? || FromCapability()
    }

    /** An event the capability dispatch may log. */
    predicate FromCapability() {
      ParseFailed? || ValueWas? || UnknownOccupancy? || IgnoredCapability?
    }
  }

  /** The output of a stretch of the translation, in emission order. */
  datatype Scrape = Scrape(obs: seq<Observation>, logs: seq<LogEvent>) {
    function Then(next: Scrape): Scrape {
      Scrape(obs + next.obs, logs + next.logs)
    }
  }

  const Nothing := Scrape([], [])

  /** Concatenating outputs is associative. */
  lemma ThenAssoc(x: Scrape, y: Scrape, z: Scrape)
    ensures x.Then(y).Then(z) == x.Then(y.Then(z))
  {
    assert (x.obs + y.obs) + z.obs == x.obs + (y.obs + z.obs);
    assert (x.logs + y.logs) + z.logs == x.logs + (y.logs + z.logs);
  }

  /** `prometheus.MustNewConstMetric`, which panics unless it gets exactly one
      label value per label name of the descriptor. */
  function ConstMetric(cat: Catalog, m: Metric, value: real, labels: seq<string>): (o: Observation)
    requires |labels| == |Field(cat, m).labelNames|
    ensures WellFormed(cat, o)
  {
    Observation(m, value, labels)
  }

  function Emit(cat: Catalog, m: Metric, value: real, labels: seq<string>): Scrape
    requires |labels| == |Field(cat, m).labelNames|
  {
    Scrape([ConstMetric(cat, m, value, labels)], [])
  }

  function Log(e: LogEvent): Scrape {
    Scrape([], [e])
  }

  /** The label values of an observation start with `tFields`: for every
      per-thermostat observation, the thermostat's identifier and name. */
  predicate LabelledBy(o: Observation, tFields: seq<string>) {
    tFields <= o.labels
  }

  /** An observation of a connected thermostat's runtime block. */
  predicate RuntimeObs(o: Observation, tFields: seq<string>)
    requires |tFields| == 2
  {
    o.metric.IsRuntime() && |o.labels| == o.metric.LabelCount() && LabelledBy(o, tFields)
  }

  /** An observation of one of a thermostat's remote sensors. */
  predicate SensorObs(o: Observation, tFields: seq<string>)
    requires |tFields| == 2
  {
    o.metric.IsSensor() && |o.labels| == o.metric.LabelCount() && LabelledBy(o, tFields)
  }

  /** An observation of one thermostat. */
  predicate ThermostatObs(o: Observation, tFields: seq<string>)
    requires |tFields| == 2
  {
    RuntimeObs(o, tFields) || SensorObs(o, tFields)
  }

  // ---------------------------------------------------------------------------
  // Capability dispatch

  /** The capability types the collector recognises, plus the fallthrough. */
  datatype CapabilityKind =
    | TemperatureCap | HumidityCap | OccupancyCap
    | VocCap | Co2Cap | AirQualityAccuracyCap | AirQualityCap | AirPressureCap
    | Unrecognized
  {
    /** The kinds for which the API may report the `"unknown"` sentinel. */
    predicate HasSentinel() {
      VocCap? || Co2Cap? || AirQualityAccuracyCap? || AirQualityCap? || AirPressureCap?
    }

    /** The metric a recognised kind is reported on. */
    function Target(): Metric
      requires !Unrecognized?
    {
      match this
      case TemperatureCap => Temperature
      case HumidityCap => Humidity
      case OccupancyCap => Occupancy
      case VocCap => Voc
      case Co2Cap => Co2
      case AirQualityAccuracyCap => AirQualityAccuracy
      case AirQualityCap => AirQuality
      case AirPressureCap => AirPressure
    }
  }

  /** The API's type string of a recognised capability kind. */
  function TagOf(k: CapabilityKind): string
    requires !k.Unrecognized?
  {
    match k
    case TemperatureCap => "temperature"
    case HumidityCap => "humidity"
    case OccupancyCap => "occupancy"
    case VocCap => "vocPPM"
    case Co2Cap => "co2PPM"
    case AirQualityAccuracyCap => "airQualityAccuracy"
    case AirQualityCap => "airQuality"
    case AirPressureCap => "airPressure"
  }

  /** The `switch sc.Type` of `Collect`: the kind a capability type string selects. */
  function Classify(tag: string): (k: CapabilityKind)
    ensures !k.Unrecognized? ==> TagOf(k) == tag
    ensures k.Unrecognized? ==> forall k': CapabilityKind :: !k'.Unrecognized? ==> TagOf(k') != tag
  {
    if tag == "temperature" then TemperatureCap
    else if tag == "humidity" then HumidityCap
    else if tag == "occupancy" then OccupancyCap
    else if tag == "vocPPM" then VocCap
    else if tag == "co2PPM" then Co2Cap
    else if tag == "airQualityAccuracy" then AirQualityAccuracyCap
    else if tag == "airQuality" then AirQualityCap
    else if tag == "airPressure" then AirPressureCap
    else Unrecognized
  }

  /** Every recognised kind is selected by its own type string, and distinct
      kinds are reported on distinct sensor metrics other than `in_use`. */
  lemma ClassifyTagOf(k: CapabilityKind)
    requires !k.Unrecognized?
    ensures Classify(TagOf(k)) == k
    ensures k.Target().IsSensor() && !k.Target().InUse?
    ensures forall k': CapabilityKind :: !k'.Unrecognized? && k'.Target() == k.Target() ==> k' == k
  {
  }

  /** The value of a capability, when it is one the collector reports. */
  function Reading(k: CapabilityKind, value: string, parseFloat: string -> Option<real>): Option<real>
    requires !k.Unrecognized?
  {
    match k
    case TemperatureCap =>
      (match ParseInt64(value)
       case Some(v) => Some(TempInF(v))
       case None => None)
    case OccupancyCap =>
      if value == "true" then Some(1.0) else if value == "false" then Some(0.0) else None
    case _ =>
      if k.HasSentinel() && value == "unknown" then None else parseFloat(value)
  }

  /** One capability of one sensor, as the `switch` handles it. */
  function CapabilityScrape(cat: Catalog, sFields: seq<string>, c: Capability,
                            parseFloat: string -> Option<real>): (r: Scrape)
    requires Shaped(cat) && |sFields| == |SensorLabels|
    ensures |r.obs| <= 1
    ensures forall o <- r.obs :: o.labels == sFields && o.metric.IsSensor() && !o.metric.InUse?
    ensures forall e <- r.logs :: e.FromCapability()
  {
    var k := Classify(c.tag);
    match k
    case TemperatureCap =>
      (match ParseInt64(c.value)
       case Some(v) => Emit(cat, Temperature, TempInF(v), sFields)
       case None => Log(ParseFailed(c.tag, c.value)))
    case HumidityCap =>
      (match parseFloat(c.value)
       case Some(v) => Emit(cat, Humidity, v, sFields)
       case None => Log(ParseFailed(c.tag, c.value)))
    case OccupancyCap =>
      if c.value == "true" then Emit(cat, Occupancy, 1.0, sFields)
      else if c.value == "false" then Emit(cat, Occupancy, 0.0, sFields)
      else Log(UnknownOccupancy(c.value))
    case Unrecognized =>
      Log(IgnoredCapability(c.tag))
    case _ =>
      if c.value == "unknown" then Nothing
      else
        match parseFloat(c.value)
        case Some(v) => Emit(cat, k.Target(), v, sFields)
        case None => Scrape([], [ValueWas(c.tag, c.value), ParseFailed(c.tag, c.value)])
  }

  /** The dispatch emits exactly the capability's reading, on its kind's metric
      and with the sensor's labels, and then logs nothing; when there is no
      reading it emits nothing and logs at error level, except that an
      unrecognised type is logged at info level and the `"unknown"` sentinel
      is skipped without any log event. */
  lemma CapabilityOutcome(cat: Catalog, sFields: seq<string>, c: Capability,
                          parseFloat: string -> Option<real>)
    requires Shaped(cat) && |sFields| == |SensorLabels|
    ensures var r := CapabilityScrape(cat, sFields, c, parseFloat);
      var k := Classify(c.tag);
      && (k.Unrecognized? ==> r == Scrape([], [IgnoredCapability(c.tag)]))
      && (!k.Unrecognized? && Reading(k, c.value, parseFloat).Some? ==>
            r == Scrape([Observation(k.Target(), Reading(k, c.value, parseFloat).value, sFields)], []))
      && (!k.Unrecognized? && Reading(k, c.value, parseFloat).None? ==>
            r.obs == [] && forall e <- r.logs :: e.Severity() == Error)
      && (r == Nothing <==> k.HasSentinel() && c.value == "unknown")
  {
  }

  /** A temperature capability whose value is an in-range decimal integer is
      reported as that many tenths of a degree Fahrenheit. */
  lemma TemperatureCapability(cat: Catalog, sFields: seq<string>, n: int,
                              parseFloat: string -> Option<real>)
    requires Shaped(cat) && |sFields| == |SensorLabels| && InInt64(n)
    ensures CapabilityScrape(cat, sFields, Capability("temperature", FormatInt(n)), parseFloat)
      == Scrape([Observation(Temperature, n as real / 10.0, sFields)], [])
  {
    ParseFormatInt(n);
  }

  /** The capabilities of one sensor, in order. */
  function Capabilities(cat: Catalog, sFields: seq<string>, caps: seq<Capability>,
                        parseFloat: string -> Option<real>): (r: Scrape)
    requires Shaped(cat) && |sFields| == |SensorLabels|
    ensures |r.obs| <= |caps|
    ensures forall o <- r.obs :: o.labels == sFields && o.metric.IsSensor() && !o.metric.InUse?
    ensures forall e <- r.logs :: e.FromCapability()
    decreases |caps|
  {
    if caps == [] then Nothing
    else CapabilityScrape(cat, sFields, caps[0], parseFloat).Then(Capabilities(cat, sFields, caps[1..], parseFloat))
  }

  /** Capabilities are handled independently: the output for a list is the
      output for any prefix followed by the output for the rest, so a capability
      that is skipped or fails to parse does not affect its siblings. */
  lemma {:induction false} CapabilitiesAppend(cat: Catalog, sFields: seq<string>, a: seq<Capability>,
                                              b: seq<Capability>, parseFloat: string -> Option<real>)
    requires Shaped(cat) && |sFields| == |SensorLabels|
    ensures Capabilities(cat, sFields, a + b, parseFloat)
      == Capabilities(cat, sFields, a, parseFloat).Then(Capabilities(cat, sFields, b, parseFloat))
    decreases |a|
  {
    if a == [] {
      assert a + b == b;
    } else {
      var ab := a + b;
      assert ab[0] == a[0];
      assert ab[1..] == a[1..] + b;
      CapabilitiesCons(cat, sFields, ab, parseFloat);
      CapabilitiesCons(cat, sFields, a, parseFloat);
      CapabilitiesAppend(cat, sFields, a[1..], b, parseFloat);
      ThenAssoc(CapabilityScrape(cat, sFields, a[0], parseFloat), Capabilities(cat, sFields, a[1..], parseFloat),
                Capabilities(cat, sFields, b, parseFloat));
    }
  }

  /** Dropping a capability that reports the `"unknown"` sentinel from a
      sensor's list changes nothing in the output. */
  lemma SkippedCapabilityInvisible(cat: Catalog, sFields: seq<string>, a: seq<Capability>, c: Capability,
                                   b: seq<Capability>, parseFloat: string -> Option<real>)
    requires Shaped(cat) && |sFields| == |SensorLabels|
    requires Classify(c.tag).HasSentinel() && c.value == "unknown"
    ensures Capabilities(cat, sFields, a + [c] + b, parseFloat) == Capabilities(cat, sFields, a + b, parseFloat)
  {
    CapabilitiesAppend(cat, sFields, a + [c], b, parseFloat);
    CapabilitiesAppend(cat, sFields, a, [c], parseFloat);
    CapabilitiesAppend(cat, sFields, a, b, parseFloat);
    CapabilitiesCons(cat, sFields, [c], parseFloat);
    assert [c][1..] == [];
    CapabilityOutcome(cat, sFields, c, parseFloat);
    var ra := Capabilities(cat, sFields, a, parseFloat);
    assert ra.Then(Nothing.Then(Nothing)) == ra;
  }

  /** One step of `Capabilities`. */
  lemma CapabilitiesCons(cat: Catalog, sFields: seq<string>, caps: seq<Capability>,
                         parseFloat: string -> Option<real>)
    requires Shaped(cat) && |sFields| == |SensorLabels| && caps != []
    ensures Capabilities(cat, sFields, caps, parseFloat)
      == CapabilityScrape(cat, sFields, caps[0], parseFloat).Then(Capabilities(cat, sFields, caps[1..], parseFloat))
  {
  }

  // ---------------------------------------------------------------------------
  // Sensors

  /** The label values of a sensor: the thermostat's, then the sensor's id, name and type. */
  function SensorFields(tFields: seq<string>, s: RemoteSensor): seq<string> {
    tFields + [s.id, s.name, s.sensorType]
  }

  /** One remote sensor: first its `in_use` flag (1 when in use, else 0), then
      its capabilities; `in_use` appears exactly once, in front. */
  function SensorScrape(cat: Catalog, tFields: seq<string>, s: RemoteSensor,
                        parseFloat: string -> Option<real>): (r: Scrape)
    requires Shaped(cat) && |tFields| == |RuntimeLabels|
    ensures 1 <= |r.obs| <= 1 + |s.capabilities|
    ensures r.obs[0] == Observation(InUse, if s.inUse then 1.0 else 0.0, SensorFields(tFields, s))
    ensures forall i :: 1 <= i < |r.obs| ==> !r.obs[i].metric.InUse?
    ensures forall o <- r.obs :: o.labels == SensorFields(tFields, s) && o.metric.IsSensor()
    ensures forall e <- r.logs :: e.FromCapability()
  {
    var sFields := SensorFields(tFields, s);
    Emit(cat, InUse, if s.inUse then 1.0 else 0.0, sFields)
      .Then(Capabilities(cat, sFields, s.capabilities, parseFloat))
  }

  /** The remote sensors of one thermostat, in order. */
  function Sensors(cat: Catalog, tFields: seq<string>, ss: seq<RemoteSensor>,
                   parseFloat: string -> Option<real>): (r: Scrape)
    requires Shaped(cat) && |tFields| == |RuntimeLabels|
    ensures |r.obs| >= |ss|
    ensures forall o <- r.obs :: SensorObs(o, tFields)
    ensures forall e <- r.logs :: e.FromCapability()
    decreases |ss|
  {
    if ss == [] then Nothing
    else
      var first := SensorScrape(cat, tFields, ss[0], parseFloat);
      first.Then(Sensors(cat, tFields, ss[1..], parseFloat))
  }

  /** How many observations of a metric a sequence holds. */
  function Count(obs: seq<Observation>, m: Metric): nat
    decreases |obs|
  {
    if obs == [] then 0 else (if obs[0].metric == m then 1 else 0) + Count(obs[1..], m)
  }

  /** Counting distributes over concatenation. */
  lemma {:induction false} CountAppend(a: seq<Observation>, b: seq<Observation>, m: Metric)
    ensures Count(a + b, m) == Count(a, m) + Count(b, m)
    decreases |a|
  {
    if a == [] {
      assert a + b == b;
    } else {
      assert (a + b)[1..] == a[1..] + b;
      CountAppend(a[1..], b, m);
    }
  }

  /** A metric no observation uses is counted zero times. */
  lemma {:induction false} CountAbsent(obs: seq<Observation>, m: Metric)
    requires forall o <- obs :: o.metric != m
    ensures Count(obs, m) == 0
    decreases |obs|
  {
    if obs != [] {
      CountAbsent(obs[1..], m);
    }
  }

  /** Every remote sensor of a thermostat yields exactly one `in_use` observation. */
  lemma {:induction false} OneInUsePerSensor(cat: Catalog, tFields: seq<string>, ss: seq<RemoteSensor>,
                                             parseFloat: string -> Option<real>)
    requires Shaped(cat) && |tFields| == |RuntimeLabels|
    ensures Count(Sensors(cat, tFields, ss, parseFloat).obs, InUse) == |ss|
    decreases |ss|
  {
    if ss != [] {
      var first := SensorScrape(cat, tFields, ss[0], parseFloat);
      var rest := Sensors(cat, tFields, ss[1..], parseFloat);
      OneInUsePerSensor(cat, tFields, ss[1..], parseFloat);
      CountAppend(first.obs, rest.obs, InUse);
      assert first.obs == [first.obs[0]] + first.obs[1..];
      CountAppend([first.obs[0]], first.obs[1..], InUse);
      CountAbsent(first.obs[1..], InUse);
    }
  }

  // ---------------------------------------------------------------------------
  // Thermostats

  /** A thermostat the collector can process without panicking: indexing the
      first forecast of a connected thermostat needs one to exist. */
  predicate Ready(t: Thermostat) {
    t.runtime.connected ==> |t.weather.forecasts| > 0
  }

  /** The informational log line written for every forecast of a connected thermostat. */
  function ForecastLogs(fs: seq<Forecast>): (logs: seq<LogEvent>)
    ensures |logs| == |fs|
    ensures forall e <- logs :: e.ForecastReading?
    ensures forall i :: 0 <= i < |fs| ==> logs[i] == ForecastReading(fs[i].dateTime, TempInC(fs[i].temperature))
  {
    seq(|fs|, i requires 0 <= i < |fs| => ForecastReading(fs[i].dateTime, TempInC(fs[i].temperature)))
  }

  /** The stage metrics, in channel order. */
  const ChannelMetrics: seq<Metric> :=
    [AuxHeat1, AuxHeat2, AuxHeat3, CompCool1, CompCool2, HeatPump1, HeatPump2, Fan]

  /** Actual temperature, the two set points and the HVAC mode marker. The
      upper set point is the cooling one and the lower the heating one; the
      mode is carried by a label on a constant zero. */
  function Setpoints(cat: Catalog, tFields: seq<string>, t: Thermostat): (obs: seq<Observation>)
    requires Shaped(cat) && |tFields| == |RuntimeLabels|
    ensures |obs| == 4
    ensures forall o <- obs :: RuntimeObs(o, tFields)
  {
    [ ConstMetric(cat, ActualTemperature, TempInF(t.runtime.actualTemperature), tFields),
      ConstMetric(cat, TargetTemperatureMax, TempInF(t.runtime.desiredCool), tFields),
      ConstMetric(cat, TargetTemperatureMin, TempInF(t.runtime.desiredHeat), tFields),
      ConstMetric(cat, CurrentHvacMode, 0.0, tFields + [t.settings.hvacMode]) ]
  }

  /** `equipment_running` for each stage in channel order, told apart by the
      stage's name label. */
  function EquipmentFlags(cat: Catalog, tFields: seq<string>, x: ExtendedRuntime): (obs: seq<Observation>)
    requires Shaped(cat) && |tFields| == |RuntimeLabels|
    ensures |obs| == 8
    ensures forall o <- obs :: RuntimeObs(o, tFields)
  {
    [ ConstMetric(cat, EquipmentRunning, IsThingRunning(x.auxHeat1), tFields + ["heat 1"]),
      ConstMetric(cat, EquipmentRunning, IsThingRunning(x.auxHeat2), tFields + ["heat 2"]),
      ConstMetric(cat, EquipmentRunning, IsThingRunning(x.auxHeat3), tFields + ["heat 3"]),
      ConstMetric(cat, EquipmentRunning, IsThingRunning(x.cool1), tFields + ["cooling 1"]),
      ConstMetric(cat, EquipmentRunning, IsThingRunning(x.cool2), tFields + ["cooling 2"]),
      ConstMetric(cat, EquipmentRunning, IsThingRunning(x.heatPump1), tFields + ["heat pump 1"]),
      ConstMetric(cat, EquipmentRunning, IsThingRunning(x.heatPump2), tFields + ["heat pump 2"]),
      ConstMetric(cat, EquipmentRunning, IsThingRunning(x.fan), tFields + ["fan"]) ]
  }

  /** Outside temperature of the first forecast, in Fahrenheit then Celsius. */
  function OutsideTemperature(cat: Catalog, tFields: seq<string>, raw: int): (obs: seq<Observation>)
    requires Shaped(cat) && |tFields| == |RuntimeLabels|
    ensures |obs| == 2
    ensures forall o <- obs :: RuntimeObs(o, tFields)
  {
    [ ConstMetric(cat, OutsideTempF, TempInF(raw), tFields),
      ConstMetric(cat, OutsideTemp, TempInC(raw), tFields) ]
  }

  /** One stage's running flag on the stage's own metric. */
  function StageFlag(cat: Catalog, tFields: seq<string>, m: Metric, values: seq<int>): (o: Observation)
    requires Shaped(cat) && |tFields| == |RuntimeLabels| && m.IsChannel()
    ensures RuntimeObs(o, tFields) && o.metric == m && o.value == IsThingRunning(values)
  {
    ChannelShape();
    ConstMetric(cat, m, IsThingRunning(values), tFields)
  }

  /** Each stage's running flag again, on the stage's own metric. */
  function ChannelFlags(cat: Catalog, tFields: seq<string>, x: ExtendedRuntime): (obs: seq<Observation>)
    requires Shaped(cat) && |tFields| == |RuntimeLabels|
    ensures |obs| == 8
    ensures forall o <- obs :: RuntimeObs(o, tFields)
  {
    [ StageFlag(cat, tFields, AuxHeat1, x.auxHeat1),
      StageFlag(cat, tFields, AuxHeat2, x.auxHeat2),
      StageFlag(cat, tFields, AuxHeat3, x.auxHeat3),
      StageFlag(cat, tFields, CompCool1, x.cool1),
      StageFlag(cat, tFields, CompCool2, x.cool2),
      StageFlag(cat, tFields, HeatPump1, x.heatPump1),
      StageFlag(cat, tFields, HeatPump2, x.heatPump2),
      StageFlag(cat, tFields, Fan, x.fan) ]
  }

  /** `equipment_running` reports stage `i` of the channel order under the
      stage's name, with the stage's running flag as value. */
  lemma EquipmentLayout(cat: Catalog, tFields: seq<string>, x: ExtendedRuntime)
    requires Shaped(cat) && |tFields| == |RuntimeLabels|
    ensures forall i :: 0 <= i < 8 ==>
      EquipmentFlags(cat, tFields, x)[i]
        == Observation(EquipmentRunning, IsThingRunning(Channels(x)[i]), tFields + [EquipmentNames[i]])
  {
  }

  /** The stage metrics report stage `i` of the channel order on the stage's
      own metric, with the stage's running flag as value. */
  lemma ChannelLayout(cat: Catalog, tFields: seq<string>, x: ExtendedRuntime)
    requires Shaped(cat) && |tFields| == |RuntimeLabels|
    ensures forall i :: 0 <= i < 8 ==>
      ChannelFlags(cat, tFields, x)[i] == Observation(ChannelMetrics[i], IsThingRunning(Channels(x)[i]), tFields)
  {
  }

  /** The 22 observations of a connected thermostat, all labelled by it. */
  function RuntimeObservations(cat: Catalog, t: Thermostat): (obs: seq<Observation>)
    requires Shaped(cat) && |t.weather.forecasts| > 0
    ensures |obs| == 22
    ensures forall o <- obs :: RuntimeObs(o, [t.identifier, t.name])
  {
    var tFields := [t.identifier, t.name];
    var x := t.extendedRuntime;
    Setpoints(cat, tFields, t) + EquipmentFlags(cat, tFields, x)
      + OutsideTemperature(cat, tFields, t.weather.forecasts[0].temperature) + ChannelFlags(cat, tFields, x)
  }

  /** The runtime, equipment and weather block of a connected thermostat:
      22 observations labelled by the thermostat, and one informational log
      line per forecast. */
  function RuntimeScrape(cat: Catalog, t: Thermostat): (r: Scrape)
    requires Shaped(cat) && |t.weather.forecasts| > 0
    ensures |r.obs| == 22
    ensures forall o <- r.obs :: RuntimeObs(o, [t.identifier, t.name])
    ensures forall e <- r.logs :: e.ForecastReading?
  {
    Scrape(RuntimeObservations(cat, t), ForecastLogs(t.weather.forecasts))
  }

  /** The runtime block in emission order: actual temperature, the cooling
      set point as the maximum, the heating set point as the minimum, the HVAC
      mode as a label on 0; then `equipment_running` per stage; then the first
      forecast's temperature in Fahrenheit and in Celsius, which agree; then
      the stage metrics, each carrying the same flag as the stage's
      `equipment_running` observation. */
  lemma RuntimeLayout(cat: Catalog, t: Thermostat)
    requires Shaped(cat) && |t.weather.forecasts| > 0
    ensures var obs := RuntimeScrape(cat, t).obs;
      var tFields := [t.identifier, t.name];
      var x := t.extendedRuntime;
      var raw := t.weather.forecasts[0].temperature;
      && obs[0] == Observation(ActualTemperature, TempInF(t.runtime.actualTemperature), tFields)
      && obs[1] == Observation(TargetTemperatureMax, TempInF(t.runtime.desiredCool), tFields)
      && obs[2] == Observation(TargetTemperatureMin, TempInF(t.runtime.desiredHeat), tFields)
      && obs[3] == Observation(CurrentHvacMode, 0.0, tFields + [t.settings.hvacMode])
      && (forall i :: 0 <= i < 8 ==>
            obs[4 + i] == Observation(EquipmentRunning, IsThingRunning(Channels(x)[i]), tFields + [EquipmentNames[i]]))
      && obs[12] == Observation(OutsideTempF, TempInF(raw), tFields)
      && obs[13] == Observation(OutsideTemp, TempInC(raw), tFields)
      && obs[13].value * 9.0 / 5.0 + 32.0 == obs[12].value
      && (forall i :: 0 <= i < 8 ==>
            obs[14 + i] == Observation(ChannelMetrics[i], IsThingRunning(Channels(x)[i]), tFields)
            && obs[14 + i].value == obs[4 + i].value)
  {
    var tFields := [t.identifier, t.name];
    var x := t.extendedRuntime;
    var a := Setpoints(cat, tFields, t);
    var b := EquipmentFlags(cat, tFields, x);
    var c := OutsideTemperature(cat, tFields, t.weather.forecasts[0].temperature);
    var d := ChannelFlags(cat, tFields, x);
    EquipmentLayout(cat, tFields, x);
    ChannelLayout(cat, tFields, x);
    var obs := a + b + c + d;
    assert RuntimeScrape(cat, t).obs == obs;
    forall i | 0 <= i < 8
      ensures obs[4 + i] == b[i] && obs[14 + i] == d[i]
    {
    }
    assert obs[12] == c[0] && obs[13] == c[1];
  }

  /** One thermostat: its runtime block only when connected, then its sensors
      whether connected or not. */
  function ThermostatScrape(cat: Catalog, t: Thermostat, parseFloat: string -> Option<real>): (r: Scrape)
    requires Shaped(cat) && Ready(t)
    ensures forall o <- r.obs :: ThermostatObs(o, [t.identifier, t.name])
    ensures forall e <- r.logs :: e.FromThermostat()
    ensures !t.runtime.connected ==> forall o <- r.obs :: o.metric.IsSensor()
    ensures |r.obs| >= |t.remoteSensors| + (if t.runtime.connected then 22 else 0)
  {
    var sensors := Sensors(cat, [t.identifier, t.name], t.remoteSensors, parseFloat);
    if t.runtime.connected then RuntimeScrape(cat, t).Then(sensors) else sensors
  }

  /** Connectivity only adds the runtime block in front: the same thermostat
      reported as disconnected yields exactly the output that follows that
      block, so its sensors are reported the same either way. */
  lemma ConnectedAddsRuntime(cat: Catalog, t: Thermostat, parseFloat: string -> Option<real>)
    requires Shaped(cat) && Ready(t) && t.runtime.connected
    ensures var offline := t.(runtime := t.runtime.(connected := false));
      ThermostatScrape(cat, t, parseFloat) == RuntimeScrape(cat, t).Then(ThermostatScrape(cat, offline, parseFloat))
  {
  }

  /** Every fetched thermostat, in order. */
  function Thermostats(cat: Catalog, tt: seq<Thermostat>, parseFloat: string -> Option<real>): (r: Scrape)
    requires Shaped(cat) && forall t <- tt :: Ready(t)
    ensures forall o <- r.obs :: !o.metric.FetchTime? && |o.labels| == o.metric.LabelCount()
    ensures forall e <- r.logs :: e.FromThermostat()
    decreases |tt|
  {
    if tt == [] then Nothing
    else ThermostatScrape(cat, tt[0], parseFloat).Then(Thermostats(cat, tt[1..], parseFloat))
  }

  /** Thermostats are translated independently of each other. */
  lemma {:induction false} ThermostatsAppend(cat: Catalog, a: seq<Thermostat>, b: seq<Thermostat>,
                                             parseFloat: string -> Option<real>)
    requires Shaped(cat) && (forall t <- a :: Ready(t)) && (forall t <- b :: Ready(t))
    ensures Thermostats(cat, a + b, parseFloat)
      == Thermostats(cat, a, parseFloat).Then(Thermostats(cat, b, parseFloat))
    decreases |a|
  {
    if a == [] {
      assert a + b == b;
    } else {
      var ab := a + b;
      assert ab[0] == a[0];
      assert ab[1..] == a[1..] + b;
      assert forall t <- a[1..] :: Ready(t);
      ThermostatsCons(cat, ab, parseFloat);
      ThermostatsCons(cat, a, parseFloat);
      ThermostatsAppend(cat, a[1..], b, parseFloat);
      ThenAssoc(ThermostatScrape(cat, a[0], parseFloat), Thermostats(cat, a[1..], parseFloat),
                Thermostats(cat, b, parseFloat));
    }
  }

  /** One step of `Thermostats`. */
  lemma ThermostatsCons(cat: Catalog, tt: seq<Thermostat>, parseFloat: string -> Option<real>)
    requires Shaped(cat) && (forall t <- tt :: Ready(t)) && tt != []
    ensures Thermostats(cat, tt, parseFloat)
      == ThermostatScrape(cat, tt[0], parseFloat).Then(Thermostats(cat, tt[1..], parseFloat))
  {
  }

  /** The number of remote sensors over all thermostats. */
  function SensorCount(tt: seq<Thermostat>): nat
    decreases |tt|
  {
    if tt == [] then 0 else |tt[0].remoteSensors| + SensorCount(tt[1..])
  }

  /** The runtime block holds no `in_use` observation. */
  lemma RuntimeHasNoInUse(cat: Catalog, t: Thermostat)
    requires Shaped(cat) && |t.weather.forecasts| > 0
    ensures Count(RuntimeScrape(cat, t).obs, InUse) == 0
  {
    RuntimeNotSensor(cat, t);
    CountAbsent(RuntimeScrape(cat, t).obs, InUse);
  }

  /** No runtime-block observation uses `in_use`. */
  lemma RuntimeNotSensor(cat: Catalog, t: Thermostat)
    requires Shaped(cat) && |t.weather.forecasts| > 0
    ensures forall o <- RuntimeScrape(cat, t).obs :: o.metric != InUse
  {
  }

  /** A thermostat yields one `in_use` observation per remote sensor. */
  lemma InUsePerThermostat(cat: Catalog, t: Thermostat, parseFloat: string -> Option<real>)
    requires Shaped(cat) && Ready(t)
    ensures Count(ThermostatScrape(cat, t, parseFloat).obs, InUse) == |t.remoteSensors|
  {
    var sensors := Sensors(cat, [t.identifier, t.name], t.remoteSensors, parseFloat).obs;
    OneInUsePerSensor(cat, [t.identifier, t.name], t.remoteSensors, parseFloat);
    if t.runtime.connected {
      var block := RuntimeScrape(cat, t).obs;
      RuntimeHasNoInUse(cat, t);
      CountAppend(block, sensors, InUse);
    }
  }

  /** A scrape holds exactly one `in_use` observation per remote sensor,
      whether or not its thermostat is connected. */
  lemma {:induction false} OneInUsePerSensorOverall(cat: Catalog, tt: seq<Thermostat>,
                                                    parseFloat: string -> Option<real>)
    requires Shaped(cat) && forall t <- tt :: Ready(t)
    ensures Count(Thermostats(cat, tt, parseFloat).obs, InUse) == SensorCount(tt)
    decreases |tt|
  {
    if tt != [] {
      assert tt[0] in tt;
      var first := ThermostatScrape(cat, tt[0], parseFloat).obs;
      var rest := Thermostats(cat, tt[1..], parseFloat).obs;
      InUsePerThermostat(cat, tt[0], parseFloat);
      OneInUsePerSensorOverall(cat, tt[1..], parseFloat);
      CountAppend(first, rest, InUse);
    }
  }

  /** `Collect`: the observation of the fetch's duration comes first and is the
      only one of `fetch_time`. A failed fetch yields nothing else and one error
      log event. Every observation carries one label value per label name of
      its descriptor, so no `MustNewConstMetric` call panics. */
  function Collect(cat: Catalog, fetch: Result<seq<Thermostat>, FetchError>, elapsed: real,
                   parseFloat: string -> Option<real>): (r: Scrape)
    requires Shaped(cat)
    requires fetch.Success? ==> forall t <- fetch.value :: Ready(t)
    ensures |r.obs| >= 1 && r.obs[0] == Observation(FetchTime, elapsed, [])
    ensures forall o <- r.obs[1..] :: !o.metric.FetchTime?
    ensures forall o <- r.obs :: WellFormed(cat, o)
    ensures fetch.Failure? ==> r == Scrape([Observation(FetchTime, elapsed, [])], [FetchFailed(fetch.error)])
    ensures fetch.Success? ==> forall e <- r.logs :: e.FromThermostat()
  {
    var head := Emit(cat, FetchTime, elapsed, []);
    match fetch
    case Failure(err) => head.Then(Log(FetchFailed(err)))
    case Success(tt) =>
      var rest := Thermostats(cat, tt, parseFloat);
      assert head.Then(rest).obs[1..] == rest.obs;
      head.Then(rest)
  }

  /** A successful fetch reports `fetch_time` once, ahead of exactly the
      thermostats' output and log events, and so exactly one `in_use` per remote
      sensor of the fetch. */
  lemma CollectCounts(cat: Catalog, tt: seq<Thermostat>, elapsed: real,
                      parseFloat: string -> Option<real>)
    requires Shaped(cat) && forall t <- tt :: Ready(t)
    ensures Collect(cat, Success(tt), elapsed, parseFloat).obs[1..] == Thermostats(cat, tt, parseFloat).obs
    ensures Collect(cat, Success(tt), elapsed, parseFloat).logs == Thermostats(cat, tt, parseFloat).logs
    ensures Count(Collect(cat, Success(tt), elapsed, parseFloat).obs, FetchTime) == 1
    ensures Count(Collect(cat, Success(tt), elapsed, parseFloat).obs, InUse) == SensorCount(tt)
  {
    var r := Collect(cat, Success(tt), elapsed, parseFloat);
    var rest := Thermostats(cat, tt, parseFloat);
    assert r.obs == [Observation(FetchTime, elapsed, [])] + rest.obs;
    CountAppend([Observation(FetchTime, elapsed, [])], rest.obs, FetchTime);
    CountAppend([Observation(FetchTime, elapsed, [])], rest.obs, InUse);
    CountAbsent(rest.obs, FetchTime);
    OneInUsePerSensorOverall(cat, tt, parseFloat);
  }
}
