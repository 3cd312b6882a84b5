/** The shape of the run record and the device categories shared by the
    simulation, the route projector and the views. */
module Types {

  /** Display unit of the distance. */
  datatype DistanceUnit = Km | Mi

  /** Distance in hundredths of the current unit: the value shown is
      `hundredths / 100`, always a number with two decimals. */
  datatype Distance = Distance(hundredths: nat, unit: DistanceUnit)

  /** Elapsed time of the run and the flag that gates the tick. */
  datatype Time = Time(hours: nat, minutes: nat, seconds: nat, isRunning: bool)

  /** A geographic coordinate in degrees. */
  datatype Position = Position(lat: real, lng: real)

  /** The trail (oldest first) and the most recent position. */
  datatype Route = Route(coordinates: seq<Position>, currentPosition: Position)

  /** The one run record the simulation owns. */
  datatype RunData = RunData(distance: Distance, time: Time, route: Route)

  /** Layout category derived from the viewport width. */
  datatype DeviceType = Wearable | Smartphone | Desktop
}
