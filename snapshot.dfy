/**
 * The pond snapshot shared by the acquisition layer and the advisory engine:
 * three groups of readings (water, light, air) and a timestamp.
 */
module Snapshot {
  import opened Wrappers

  /** One sensor reading; `None` means unknown. */
  type Reading = Option<real>

  /** A group of readings keyed by field name, as a JavaScript object iterated with `Object.entries`. */
  type Group = map<string, Reading>

  datatype PondSnapshot = PondSnapshot(water: Group, light: Group, air: Group, timestamp: string)

  // Field names of the three groups.
  const Temperature: string := "temperature"
  const Temperature1: string := "temperature1"
  const Temperature2: string := "temperature2"
  const Ph: string := "ph"
  const Conductivity: string := "conductivity"
  const Level: string := "level"
  const Humidity: string := "humidity"
  const Pressure: string := "pressure"

  /** Reads a field; an absent key reads as unknown. */
  function Get(g: Group, key: string): Reading
  {
    if key in g then g[key] else None
  }

  function WaterTemperature(s: PondSnapshot): Reading { Get(s.water, Temperature) }
  function WaterPh(s: PondSnapshot): Reading { Get(s.water, Ph) }
  function WaterConductivity(s: PondSnapshot): Reading { Get(s.water, Conductivity) }
  function LightLevel(s: PondSnapshot): Reading { Get(s.light, Level) }
  function AirTemperature(s: PondSnapshot): Reading { Get(s.air, Temperature) }
  function AirHumidity(s: PondSnapshot): Reading { Get(s.air, Humidity) }
}
