/**
  The message and enumeration types the converter produces. They stand for
  the classes of the searadar API package, which are not part of this model:
  only the fields the converter sets are kept, and the two receipt
  timestamps are left out.
 */
module SearadarApi {

  /** A Java `int`: what Integer.parseInt returns. */
  newtype int32 = x: int | -0x8000_0000 <= x < 0x8000_0000

  /**
    A Java `double` as Double.parseDouble may return it: a finite value, or
    one of the three non-finite values the parser also accepts as text.
   */
  datatype Double = Finite(value: real) | NaN | PositiveInfinity | NegativeInfinity

  /** Friend-or-foe identity of a tracked target. */
  datatype Iff = Friend | Foe | Unknown

  /** Tracking state of a target. */
  datatype TargetStatus = Lost | UnreliableData | Tracked

  /** Target classification; the MR-231-3 sentences never carry one. */
  datatype TargetType = Unknown

  /** Tracked-target report, decoded from a TTM sentence. */
  datatype TrackedTargetMessage = TrackedTargetMessage(
    targetNumber: int32,
    distance: Double,
    bearing: Double,
    speed: Double,
    course: Double,
    status: TargetStatus,
    iff: Iff,
    targetType: TargetType)

  /** Radar-system-data report, decoded from an RSD sentence. */
  datatype RadarSystemDataMessage = RadarSystemDataMessage(
    initialDistance: Double,
    initialBearing: Double,
    movingCircleOfDistance: Double,
    bearing: Double,
    distanceFromShip: Double,
    bearing2: Double,
    distanceScale: Double,
    distanceUnit: string,
    displayOrientation: string,
    workingMode: string)

  /** Diagnostic that replaces a radar-system-data report failing validation. */
  datatype InvalidMessage = InvalidMessage(infoMsg: string)

  /** What one conversion may emit. */
  datatype SearadarStationMessage =
    | TrackedTarget(ttm: TrackedTargetMessage)
    | RadarSystemData(rsd: RadarSystemDataMessage)
    | Invalid(invalid: InvalidMessage)
}
