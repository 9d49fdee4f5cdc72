# ecobee exporter: scrape translator

A Dafny model of the core of a Prometheus exporter for ecobee thermostats. The
core is the collector in `collector/collector.go`:

- the static descriptor catalogue built from a metric prefix (`descs.new`,
  `NewEcobeeCollector`) and published by `Describe`;
- the numeric helpers `is_thing_running`, `ecobee_temp_in_f` and
  `ecobee_temp_in_c`;
- `Collect`, which turns one thermostat fetch into gauge observations.

`Collect` is modelled as a pure function. Its inputs are:

- the catalogue;
- the fetch result, either a `FetchError` or a sequence of thermostat snapshots;
- the elapsed fetch time;
- a float parser.

Its output is a `Scrape`: the observations in emission order, each a metric, a
value and label values, together with the log events written on the way.

Files:

- `wrappers.dfy`: `Option` and `Result`.
- `conversions.dfy`: the "any positive sample means running" fold and the two
  tenths-of-a-degree-Fahrenheit conversions, over exact reals.
- `strconv.dfy`: Go's `strconv.ParseInt(s, 10, 64)`. That is an optional
  sign, one or more ASCII digits, and the value within the signed 64-bit
  range. It comes with a decimal formatter to state round trips.
- `ecobee.dfy`: the part of the thermostat snapshot the collector reads.
- `catalog.dfy`: descriptors, the `Metric` enumeration (one constructor per
  descriptor, in `Describe` order), the 25-row descriptor table, `Build` and
  `Describe`.
- `collector.dfy`: capability dispatch, sensors, the runtime block of a
  connected thermostat, and `Collect`.

Two panics of the source become preconditions:

- `MustNewConstMetric` panics when the number of label values differs from
  the descriptor's label names. `ConstMetric` requires they match. Every
  emission discharges this through `Shaped`, which `Build` establishes.
- `Forecasts[0]` panics for a connected thermostat without forecasts.
  `Collect` requires `Ready` of every fetched thermostat.

Facts about the code that the model keeps as written:

- The code registers 25 descriptors and reports 8 equipment stages (three
  auxiliary heat stages, two cooling stages, two heat-pump stages and the fan).
- `ecobee_temp_in_c` computes `(v/10 - 32) * 5/9` from a raw tenths value.
  `TempInC` proves `C * 9/5 + 32 = F`.
- The `fan` descriptor's help text repeats that of `currenthvacmode`. The
  `volitile_organic_compounds_ppm` suffix is spelt as in the code.

## Model

| member | source | states |
|---|---|---|
| Conversions.RunningFrom | collector/collector.go:216-225 | The loop from accumulator `r`: the result is 1.0 when some sample is positive, otherwise `r` unchanged. |
| Conversions.IsThingRunning | collector/collector.go:216-225 | The flag is 1.0 when some sample is positive and 0.0 otherwise, so an empty sample list gives 0.0. |
| Conversions.RunningMeaning | collector/collector.go:216-225 | Both directions: the flag is 1.0 iff some sample is positive, and 0.0 iff every sample is at most 0. |
| Conversions.PositiveCarriesOver | collector/collector.go:216-225 | A positive sample in `a` stays visible in any `b` containing all of `a`'s values. |
| Conversions.RunningIgnoresOrder | collector/collector.go:216-225 | Sample lists with the same set of values give the same flag, so order and multiplicity do not matter. |
| Conversions.TempInF | collector/collector.go:227-229 | The Fahrenheit value is one tenth of the raw integer. |
| Conversions.TempInC | collector/collector.go:231-233 | Converting the Celsius value back with `* 9/5 + 32` gives the Fahrenheit value of the same raw integer. |
| Conversions.ConversionSamples | collector/collector.go:227-233 | Raw 320 is 0 °C, raw 2120 is 100 °C, raw 705 is 70.5 °F, and raw -400 is -40 on both scales. |
| Conversions.ConversionsMonotone | collector/collector.go:227-233 | Both conversions are strictly increasing in the raw value. |
| Strconv.ParseInt64 | collector/collector.go:343 | An accepted string is an optional sign followed by one or more digits, and its value is within the 64-bit range. The value has the sign of the string. |
| Strconv.FormatNat | collector/collector.go:343 | The formatter yields an unsigned, non-empty digit string whose decimal value is the number, with no leading zero unless the number is 0. |
| Strconv.ParseFormatInt | collector/collector.go:343 | Parsing a formatted integer gives it back exactly when it fits in 64 bits, and fails otherwise. |
| Strconv.ParseSignAndLeadingZeros | collector/collector.go:343 | No sign, `+` or `-`, then any number of leading zeros, then the digits of `n`: the input parses to `n`, or `-n` for `-`, exactly when that value fits in 64 bits, and fails otherwise. |
| Strconv.LeadingZerosValue | collector/collector.go:343 | Leading zeros do not change a digit string's decimal value. |
| Strconv.ParseRejects | collector/collector.go:343 | The empty string, a lone sign, `unknown`, a decimal fraction and a leading space are all rejected. |
| Catalog.Build | collector/collector.go:44-185 | Every built descriptor has as many label names as its metric's group needs. That is 0 for `fetch_time`, 2 for the runtime group, 3 for `equipment_running` and `currenthvacmode`, and 5 for the sensor group. |
| Catalog.GroupLabels | collector/collector.go:47-49 | A metric's label names follow from its group alone: none for `fetch_time`, else the thermostat id and name first, with as many names as the group's label count. |
| Catalog.BuiltLabelNames | collector/collector.go:44-185 | For every prefix, every one of the 25 built descriptors has exactly its group's label names, in order: none; thermostat id and name; plus `name`; plus `current_hvac_mode`; plus sensor id, name and type. |
| Catalog.ChannelShape | collector/collector.go:144-183 | Every stage metric belongs to the runtime block and carries the two thermostat labels only. |
| Catalog.Describe | collector/collector.go:188-214 | Exactly 25 descriptors are published, the first being `fetch_time`. |
| Catalog.DescribeAssemble | collector/collector.go:188-214 | Publishing a catalogue assembled from a list of descriptors gives back that list, in order. |
| Catalog.Position | collector/collector.go:188-214 | Each metric has a publication slot below 25, and only `fetch_time` is published first. |
| Catalog.FieldDescribed | collector/collector.go:188-214 | Every metric's descriptor is published at the metric's own slot, and no two metrics share a slot. |
| Catalog.NewDesc | collector/collector.go:17-19 | A descriptor's name splits into `<prefix>_` followed by exactly the row's suffix, and it carries the row's help text and label names. |
| Catalog.DescribedNames | collector/collector.go:17-19 | Published descriptor `i` is named `<prefix>_<suffix i>`. |
| Catalog.SuffixesDistinct | collector/collector.go:44-185 | No two rows of the descriptor table share a suffix. |
| Catalog.QualifiedNamesDistinct | collector/collector.go:17-19 | Prefixing distinct suffixes with the same `<prefix>_` keeps them distinct. |
| Catalog.DescribedNamesDistinct | collector/collector.go:44-185 | The 25 published names are pairwise distinct for every prefix. |
| Catalog.FieldNamesDistinct | collector/collector.go:44-185 | Distinct metrics of a built catalogue have distinct descriptor names. |
| Collector.ConstMetric | collector/collector.go:247 | An observation created with one label value per label name is one the sink accepts. |
| Collector.Classify | collector/collector.go:341-433 | A recognised kind is chosen exactly by its own type string. Unrecognised means no kind's string matches. |
| Collector.ClassifyTagOf | collector/collector.go:341-433 | Each kind's string selects that kind. Each kind reports on its own sensor metric, never `in_use`. |
| Collector.CapabilityScrape | collector/collector.go:341-433 | One capability yields at most one observation. It carries the sensor's labels on a sensor metric other than `in_use`, and every log event comes from the dispatch. |
| Collector.CapabilityOutcome | collector/collector.go:341-433 | When the kind's reading exists, the dispatch emits exactly that reading on the kind's metric and logs nothing. Without a reading it emits nothing and logs at error level. An unrecognised type is logged at info level only. The output is empty iff the value is the `unknown` sentinel of a kind that has one. |
| Collector.TemperatureCapability | collector/collector.go:342-349 | A temperature capability whose value is an in-range decimal integer `n` is reported as `n/10`. |
| Collector.Capabilities | collector/collector.go:340-434 | A sensor's capabilities yield at most one observation each, all with the sensor's labels. |
| Collector.CapabilitiesAppend | collector/collector.go:340-434 | The output for a list of capabilities is the output for any prefix followed by the output for the rest. |
| Collector.SkippedCapabilityInvisible | collector/collector.go:371-431 | Removing a capability that reports `unknown` leaves a sensor's output unchanged. |
| Collector.SensorScrape | collector/collector.go:331-339 | A sensor first emits `in_use`, 1 iff in use, labelled with thermostat id and name and sensor id, name and type. Then at most one observation per capability, none of them `in_use`. |
| Collector.Sensors | collector/collector.go:331-436 | A thermostat's sensors yield at least one observation each, all sensor metrics prefixed by the thermostat's labels. |
| Collector.OneInUsePerSensor | collector/collector.go:331-339 | A thermostat's sensors yield exactly one `in_use` observation per sensor. |
| Collector.ForecastLogs | collector/collector.go:257-259 | One informational reading per forecast, in order, with the forecast's Celsius temperature. |
| Collector.Setpoints | collector/collector.go:261-272 | Four runtime observations, each labelled by the thermostat with as many labels as its metric needs. |
| Collector.EquipmentFlags | collector/collector.go:273-296 | Eight `equipment_running` observations, each labelled by the thermostat with three labels. |
| Collector.EquipmentLayout | collector/collector.go:273-296 | Observation `i` reports stage `i`'s running flag under stage `i`'s name, from "heat 1" to "fan". |
| Collector.OutsideTemperature | collector/collector.go:298-303 | Two runtime observations labelled by the thermostat. |
| Collector.StageFlag | collector/collector.go:306-308 | A stage flag is a runtime observation of that stage's metric whose value is the stage's running flag. |
| Collector.ChannelFlags | collector/collector.go:306-329 | Eight runtime observations labelled by the thermostat. |
| Collector.ChannelLayout | collector/collector.go:306-329 | Observation `i` reports stage `i`'s running flag on stage `i`'s own metric. |
| Collector.RuntimeObservations | collector/collector.go:261-329 | A connected thermostat yields 22 runtime observations, each labelled by it with the right label count. |
| Collector.RuntimeScrape | collector/collector.go:256-330 | The 22 runtime observations, and only forecast readings as log events. |
| Collector.RuntimeLayout | collector/collector.go:256-330 | The fixed emission order: actual temperature; the maximum target from the cooling set point and the minimum from the heating one; the mode as a label on 0; `equipment_running` per stage; outside °F then °C of the first forecast, which agree; then each stage metric, equal to its `equipment_running` value. |
| Collector.RuntimeHasNoInUse | collector/collector.go:256-330 | The runtime block holds no `in_use` observation. |
| Collector.ThermostatScrape | collector/collector.go:255-436 | A thermostat yields runtime or sensor observations labelled by it, and only thermostat log events. A disconnected one yields sensor observations only. A connected one yields at least 22 more. |
| Collector.ConnectedAddsRuntime | collector/collector.go:256-436 | A connected thermostat's output is its runtime block followed by exactly the output of the same thermostat marked disconnected. Sensors are therefore reported the same either way. |
| Collector.InUsePerThermostat | collector/collector.go:256-339 | A thermostat yields one `in_use` observation per remote sensor, connected or not. |
| Collector.Thermostats | collector/collector.go:254-437 | Every observation over all thermostats is something other than `fetch_time` with its metric's label count. Every log event is a thermostat event. |
| Collector.ThermostatsAppend | collector/collector.go:254-437 | Thermostats are translated independently: the output for `a + b` is the output for `a` followed by that for `b`. |
| Collector.OneInUsePerSensorOverall | collector/collector.go:254-437 | Over all thermostats there are exactly as many `in_use` observations as remote sensors. |
| Collector.Collect | collector/collector.go:236-438 | `fetch_time` with the elapsed time and no labels comes first, and only there. Every observation has one label value per label name of its descriptor, so no emission panics. A failed fetch yields only `fetch_time` and one fetch-failure log event. A successful one logs only thermostat events. |
| Collector.CollectCounts | collector/collector.go:236-438 | After a successful fetch, `fetch_time` appears exactly once and is followed by exactly the thermostats' output and log events. There is one `in_use` observation per remote sensor of the fetch. |

## Left out

- The ecobee API client, its `Selection` and OAuth/HTTP. The fetch is an input
  `Result<seq<Thermostat>, FetchError>`.
- The clock. The `fetch_time` value is an arbitrary real input.
- `strconv.ParseFloat`. It is an uninterpreted parameter
  `string -> Option<real>`. NaN, infinities and IEEE-754 rounding are not
  represented, and all arithmetic is on exact reals.
- The conversion `int(v)` after `ParseInt`. It is the identity on 64-bit
  platforms and is modelled as such.
- Logging text. Log events are abstract tags with a level, in a sequence of
  their own. The interleaving of log lines with observations is not kept.
- Prometheus internals: `prometheus.NewDesc` itself, the sink channel, the registry and the
  label-value validity checks. An observation names its descriptor by metric;
  a descriptor is a plain datatype.
- The two panics. The label-count panic of `MustNewConstMetric` and the
  empty-forecast panic are excluded by preconditions rather than modelled as
  crashes.
- Strconv.ParseInt64: its contract states the shape, sign and range of accepted
  strings. It does not state the value. The value is stated by
  `ParseFormatInt` for canonical decimal output, and by
  `ParseSignAndLeadingZeros` for every input made of a sign (possibly
  none), leading zeros and then `FormatNat(n)`. No lemma shows that every
  accepted string has this form.
