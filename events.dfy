/** RxSensorEvent: the library's own mutable event record. Every way of building or
    refilling one clones the incoming values into a fresh array, so an event never shares
    its values with the platform event, the caller's buffer or another RxSensorEvent. */
module Events {
  import opened Platform

  class RxSensorEvent {
    var values: array<real>
    var sensor: Sensor
    var accuracy: int
    var timestamp: int

    /** Builds an event from caller-owned values (the orientation listener passes its buffer). */
    constructor (values: array<real>, sensor: Sensor, accuracy: int, timestamp: int)
      ensures fresh(this.values)
      ensures this.values[..] == values[..]
      ensures this.sensor == sensor && this.accuracy == accuracy && this.timestamp == timestamp
    {
      this.values := new real[values.Length](i requires 0 <= i < values.Length reads values => values[i]);
      this.sensor := sensor;
      this.accuracy := accuracy;
      this.timestamp := timestamp;
    }

    /** Builds an event from a platform event. */
    constructor FromSensorEvent(sensorEvent: SensorEvent)
      ensures fresh(values)
      ensures values[..] == sensorEvent.values
      ensures sensor == sensorEvent.sensor && accuracy == sensorEvent.accuracy
      ensures timestamp == sensorEvent.timestamp
    {
      values := new real[|sensorEvent.values|](i requires 0 <= i < |sensorEvent.values| => sensorEvent.values[i]);
      sensor := sensorEvent.sensor;
      accuracy := sensorEvent.accuracy;
      timestamp := sensorEvent.timestamp;
    }

    /** Copy constructor. */
    constructor Copy(sensorEvent: RxSensorEvent)
      ensures fresh(values) && values != sensorEvent.values
      ensures values[..] == sensorEvent.values[..]
      ensures sensor == sensorEvent.sensor && accuracy == sensorEvent.accuracy
      ensures timestamp == sensorEvent.timestamp
    {
      var source := sensorEvent.values;
      values := new real[source.Length](i requires 0 <= i < source.Length reads source => source[i]);
      sensor := sensorEvent.sensor;
      accuracy := sensorEvent.accuracy;
      timestamp := sensorEvent.timestamp;
    }

    /** Overwrites all four fields from a platform event. */
    method SetData(sensorEvent: SensorEvent)
      modifies this
      ensures fresh(values)
      ensures values[..] == sensorEvent.values
      ensures sensor == sensorEvent.sensor && accuracy == sensorEvent.accuracy
      ensures timestamp == sensorEvent.timestamp
    {
      values := new real[|sensorEvent.values|](i requires 0 <= i < |sensorEvent.values| => sensorEvent.values[i]);
      sensor := sensorEvent.sensor;
      accuracy := sensorEvent.accuracy;
      timestamp := sensorEvent.timestamp;
    }
  }

  /** Writing into a copy leaves the original untouched: the copy owns its array. */
  method CopyIsIndependent(original: RxSensorEvent, x: real) returns (copy: RxSensorEvent)
    requires original.values.Length > 0
    ensures copy.values.Length == original.values.Length && copy.values[0] == x
    ensures copy.values[1..] == original.values[1..]
    ensures original.values[..] == old(original.values[..])
    ensures copy.sensor == original.sensor && copy.accuracy == original.accuracy
    ensures copy.timestamp == original.timestamp
  {
    copy := new RxSensorEvent.Copy(original);
    copy.values[0] := x;
  }
}
