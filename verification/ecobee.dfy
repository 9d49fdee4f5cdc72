/** The slice of the ecobee API's thermostat snapshot that the collector reads.
    Temperatures are integers in tenths of a degree Fahrenheit; capability
    values arrive as strings whatever their meaning. */
module Ecobee {

  datatype Runtime = Runtime(
    connected: bool,
    actualTemperature: int,
    desiredHeat: int,
    desiredCool: int)

  /** Recent run-duration samples of each equipment stage. */
  datatype ExtendedRuntime = ExtendedRuntime(
    auxHeat1: seq<int>, auxHeat2: seq<int>, auxHeat3: seq<int>,
    cool1: seq<int>, cool2: seq<int>,
    heatPump1: seq<int>, heatPump2: seq<int>,
    fan: seq<int>)

  datatype Settings = Settings(hvacMode: string)

  datatype Forecast = Forecast(dateTime: string, temperature: int)

  datatype Weather = Weather(forecasts: seq<Forecast>)

  /** A typed reading of a remote sensor; `tag` is the API's capability `type`. */
  datatype Capability = Capability(tag: string, value: string)

  datatype RemoteSensor = RemoteSensor(
    id: string,
    name: string,
    sensorType: string,
    inUse: bool,
    capabilities: seq<Capability>)

  datatype Thermostat = Thermostat(
    identifier: string,
    name: string,
    runtime: Runtime,
    extendedRuntime: ExtendedRuntime,
    settings: Settings,
    weather: Weather,
    remoteSensors: seq<RemoteSensor>)

  /** The error returned by the thermostat fetch, kept opaque. */
  datatype FetchError = FetchError(message: string)

  /** The equipment stages in the order the collector reports them. */
  function Channels(x: ExtendedRuntime): (cs: seq<seq<int>>)
    ensures |cs| == 8
  {
    [x.auxHeat1, x.auxHeat2, x.auxHeat3, x.cool1, x.cool2, x.heatPump1, x.heatPump2, x.fan]
  }

  /** The `name` label of each stage on `equipment_running`, in channel order. */
  const EquipmentNames: seq<string> :=
    ["heat 1", "heat 2", "heat 3", "cooling 1", "cooling 2", "heat pump 1", "heat pump 2", "fan"]
}
