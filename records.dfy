/**
 * The values a recording session works with: the activity labels offered by the
 * picker, one location fix, one three-axis motion reading and the composite
 * record written once per clock tick.
 */
module Records {

  datatype Option<T> = None | Some(value: T)

  /** The six activity types of the picker, each selected under its code. */
  datatype Activity = Walk | Run | Bike | Car | Bus | Metro

  /** The code under which the picker offers an activity: "1" (Walk) to "6" (Metro). */
  function Code(a: Activity): (s: string)
    ensures |s| == 1 && '1' <= s[0] <= '6'
  {
    match a
    case Walk => "1"
    case Run => "2"
    case Bike => "3"
    case Car => "4"
    case Bus => "5"
    case Metro => "6"
  }

  /** Distinct activities are offered under distinct codes, so a code names one activity. */
  lemma CodeInjective(a: Activity, b: Activity)
    ensures Code(a) == Code(b) ==> a == b
  {
  }

  /**
   * The coordinates of one location fix, carried through unmodified. Latitude and
   * longitude are always present; the platform may leave the others unset.
   */
  datatype Coords = Coords(
    latitude: real,
    longitude: real,
    altitude: Option<real>,
    accuracy: Option<real>,
    altitudeAccuracy: Option<real>,
    heading: Option<real>,
    speed: Option<real>)

  /** One reading of a motion sensor; its values are opaque (no arithmetic is done on them). */
  datatype Reading = Reading(x: real, y: real, z: real)

  /**
   * One composite record. `location` is None when no fix has arrived yet: the stored
   * object then has no location fields at all; otherwise the fix's fields are
   * flattened into it. `sensorData` maps each channel name to its latest reading.
   */
  datatype Record = Record(
    location: Option<Coords>,
    sensorData: map<string, Reading>,
    activity: Activity,
    deviceId: string,
    timestamp: string)
}
