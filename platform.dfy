/** The Android types and constants the library reads, and the platform routines it calls.

    A `float` is modelled as a `real`. The platform's own numeric routines (building a
    rotation matrix, remapping its axes, extracting angles, converting to degrees) are
    not reproduced: callers pass them in as a `SensorMath` record of total functions. */
module Platform {

  // Accuracy constants of android.hardware.SensorManager
  const SENSOR_STATUS_UNRELIABLE: int := 0
  const SENSOR_STATUS_ACCURACY_LOW: int := 1
  const SENSOR_STATUS_ACCURACY_MEDIUM: int := 2
  const SENSOR_STATUS_ACCURACY_HIGH: int := 3

  // Sensor.TYPE_ROTATION_VECTOR
  const TYPE_ROTATION_VECTOR: int := 11

  // SensorManager.AXIS_X and SensorManager.AXIS_Y
  const AXIS_X: int := 1
  const AXIS_Y: int := 2

  /** A hardware sensor; only its type is ever inspected. */
  datatype Sensor = Sensor(handle: int, sensorType: int)

  /** The platform's event record: the four fields the library copies out of it. */
  datatype SensorEvent = SensorEvent(values: seq<real>, sensor: Sensor, accuracy: int, timestamp: int)

  /** A 4x4 rotation matrix, stored row by row (the listener's 16-entry buffer). */
  type Matrix = m: seq<real> | |m| == 16 witness seq(16, _ => 0.0)

  /** Azimuth, pitch and roll. */
  type Angles = a: seq<real> | |a| == 3 witness [0.0, 0.0, 0.0]

  /** The platform routines the orientation listener calls, taken as given. */
  datatype SensorMath = SensorMath(
    rotationMatrixFromVector: seq<real> -> Matrix,
    remapCoordinateSystem: (Matrix, int, int) -> Matrix,
    orientation: Matrix -> Angles,
    toDegrees: real -> real)

  function Zeros(n: nat): (z: seq<real>)
    ensures |z| == n && forall i :: 0 <= i < n ==> z[i] == 0.0
  {
    seq(n, _ => 0.0)
  }
}
