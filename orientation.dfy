/** OrientationEventFlowable: device orientation from the rotation-vector sensor.

    A `Builder` collects the configuration; `Build` snapshots it; each subscription makes a
    `Listener` that owns three mutable buffers and, for every rotation-vector event,
    optionally smooths the rotation vector, asks the platform for a rotation matrix,
    optionally remaps its axes, extracts azimuth/pitch/roll, converts them to degrees
    and emits a new `RxSensorEvent` carrying a copy of the angles.
    The platform routines come in as a `SensorMath` record; sensor lookup and
    (un)registration are not modelled. */
module Orientation {
  import opened Platform
  import opened Events
  import Transformers

  const DEFAULT_LPF_PARAMETER: real := 0.25

  datatype Option<T> = None | Some(value: T)

  /** The stream's emitter: it records, in order, every event passed to `onNext`. */
  class Emitter {
    var items: seq<RxSensorEvent>

    constructor ()
      ensures items == []
    {
      items := [];
    }

    method OnNext(item: RxSensorEvent)
      modifies this
      ensures items == old(items) + [item]
    {
      items := items + [item];
    }
  }

  /** The configuration that `build` copies out of the builder; it never changes afterwards. */
  datatype OrientationEventFlowable = OrientationEventFlowable(
    samplingPeriodUs: int,
    maxReportLatencyUs: int,
    isRemapping: bool,
    remappingCoordinateX: int,
    remappingCoordinateY: int,
    enableLowPassFilter: bool,
    lpfAlpha: real)

  class Builder {
    const samplingPeriodUs: int
    var maxReportLatencyUs: int
    var remappingCoordinateX: int
    var remappingCoordinateY: int
    var isRemapping: bool
    var enableLowPassFilter: bool
    var lpfAlpha: real

    /** A builder starts with no remapping (axes X and Y), the filter off with alpha 0.25,
        and no report latency. */
    constructor (samplingPeriodUs: int)
      ensures Build() == OrientationEventFlowable(samplingPeriodUs, 0, false, AXIS_X, AXIS_Y, false, 0.25)
    {
      this.samplingPeriodUs := samplingPeriodUs;
      maxReportLatencyUs := 0;
      remappingCoordinateX := AXIS_X;
      remappingCoordinateY := AXIS_Y;
      isRemapping := false;
      enableLowPassFilter := false;
      lpfAlpha := DEFAULT_LPF_PARAMETER;
    }

    /** The configuration `build` hands to the flowable: a snapshot of every setting, so later
        setter calls on the builder do not reach a flowable already built. */
    function Build(): (o: OrientationEventFlowable)
      reads this
      ensures o.samplingPeriodUs == samplingPeriodUs && o.maxReportLatencyUs == maxReportLatencyUs
      ensures o.isRemapping == isRemapping
      ensures o.remappingCoordinateX == remappingCoordinateX && o.remappingCoordinateY == remappingCoordinateY
      ensures o.enableLowPassFilter == enableLowPassFilter && o.lpfAlpha == lpfAlpha
    {
      OrientationEventFlowable(samplingPeriodUs, maxReportLatencyUs, isRemapping,
        remappingCoordinateX, remappingCoordinateY, enableLowPassFilter, lpfAlpha)
    }

    method RemapCoordinateSystem(x: int, y: int) returns (builder: Builder)
      modifies this
      ensures builder == this
      ensures Build() == old(Build()).(isRemapping := true, remappingCoordinateX := x, remappingCoordinateY := y)
    {
      remappingCoordinateX := x;
      remappingCoordinateY := y;
      isRemapping := true;
      builder := this;
    }

    method SetMaxReportLatencyUs(maxReportLatencyUs: int) returns (builder: Builder)
      modifies this
      ensures builder == this
      ensures Build() == old(Build()).(maxReportLatencyUs := maxReportLatencyUs)
    {
      this.maxReportLatencyUs := maxReportLatencyUs;
      builder := this;
    }

    /** `enableLowPassFilter()`: keeps whatever alpha is configured. */
    method EnableLowPassFilter() returns (builder: Builder)
      modifies this
      ensures builder == this
      ensures Build() == old(Build()).(enableLowPassFilter := true)
    {
      enableLowPassFilter := true;
      builder := this;
    }

    /** `enableLowPassFilter(alpha)`. */
    method EnableLowPassFilterWithAlpha(alpha: real) returns (builder: Builder)
      modifies this
      ensures builder == this
      ensures Build() == old(Build()).(enableLowPassFilter := true, lpfAlpha := alpha)
    {
      enableLowPassFilter := true;
      lpfAlpha := alpha;
      builder := this;
    }
  }

  /** `lowPass`'s effect on the output buffer: the first |input| entries move to
      `output*alpha + (1-alpha)*input`, the rest stay. This is `applyLpf` from the stream
      transformer with the buffer as the old value and parameter `1 - alpha`. */
  function Blend(output: seq<real>, input: seq<real>, alpha: real): (r: seq<real>)
    requires |input| <= |output|
    ensures |r| == |output|
    ensures forall i :: 0 <= i < |input| ==> r[i] == Transformers.ApplyLpf(output[i], input[i], 1.0 - alpha)
    ensures forall i :: |input| <= i < |output| ==> r[i] == output[i]
  {
    seq(|output|, i requires 0 <= i < |output| =>
      if i < |input| then output[i] * alpha + (1.0 - alpha) * input[i] else output[i])
  }

  /** `lowPass(input, output, alpha)`: with no output buffer the input is returned untouched;
      otherwise the buffer is blended in place and returned. */
  method LowPass(input: array<real>, output: array?<real>, alpha: real) returns (result: array<real>)
    requires output != null ==> input.Length <= output.Length
    modifies output
    ensures output == null ==> result == input && input[..] == old(input[..])
    ensures output != null ==> result == output && output[..] == Blend(old(output[..]), old(input[..]), alpha)
  {
    if output == null {
      return input;
    }
    var i := 0;
    while i < input.Length
      invariant 0 <= i <= input.Length
      invariant forall j :: 0 <= j < i ==> output[j] == old(output[j]) * alpha + (1.0 - alpha) * old(input[j])
      invariant forall j :: i <= j < output.Length ==> output[j] == old(output[j])
      invariant forall j :: i <= j < input.Length ==> input[j] == old(input[j])
    {
      output[i] := output[i] * alpha + (1.0 - alpha) * input[i];
      i := i + 1;
    }
    return output;
  }

  /** What the listener keeps in `rotationVector` after an event: only the filter ever writes it. */
  function SmoothedVector(isLpfEnabled: bool, alpha: real, buffer: seq<real>, values: seq<real>): (vector: seq<real>)
    requires isLpfEnabled ==> |values| <= |buffer|
  {
    if isLpfEnabled then Blend(buffer, values, alpha) else buffer
  }

  /** The platform's rotation matrix for a rotation vector, remapped when asked. */
  function RotationMatrix(math: SensorMath, isRemapping: bool, x: int, y: int, rotationVector: seq<real>): (matrix: Matrix)
  {
    var m := math.rotationMatrixFromVector(rotationVector);
    if isRemapping then math.remapCoordinateSystem(m, x, y) else m
  }

  /** Azimuth, pitch and roll of a matrix, in degrees. */
  function OrientationDegrees(math: SensorMath, matrix: Matrix): (angles: Angles)
  {
    var a := math.orientation(matrix);
    [math.toDegrees(a[0]), math.toDegrees(a[1]), math.toDegrees(a[2])]
  }

  /** A platform routine filling a caller-supplied buffer. */
  method Store(buffer: array<real>, contents: seq<real>)
    requires buffer.Length == |contents|
    modifies buffer
    ensures buffer[..] == contents
  {
    forall i | 0 <= i < buffer.Length {
      buffer[i] := contents[i];
    }
  }

  class Listener {
    const emitter: Emitter
    const remappingCoordinateX: int
    const remappingCoordinateY: int
    const isRemapping: bool
    const isLpfEnabled: bool
    const lpfAlpha: real
    var rotationMatrix: array<real>
    var rotationVector: array<real>
    var orientationValues: array<real>

    /** None of the listener's buffers is the values array of an event it has emitted. */
    predicate Detached(values: array<real>)
      reads this
    {
      values != rotationMatrix && values != rotationVector && values != orientationValues
    }

    ghost predicate Valid()
      reads this, emitter, emitter.items
    {
      rotationMatrix.Length == 16 && rotationVector.Length == 16 && orientationValues.Length == 3 &&
      rotationMatrix != rotationVector &&
      forall k :: 0 <= k < |emitter.items| ==> Detached(emitter.items[k].values)
    }

    /** The listener used when remapping was requested. Java zero-fills new arrays. */
    constructor Remapping(emitter: Emitter, lpfEnabled: bool, lpfAlpha: real,
                          remappingCoordinateX: int, remappingCoordinateY: int)
      ensures Valid()
      ensures this.emitter == emitter && isRemapping
      ensures this.remappingCoordinateX == remappingCoordinateX && this.remappingCoordinateY == remappingCoordinateY
      ensures isLpfEnabled == lpfEnabled && this.lpfAlpha == lpfAlpha
      ensures fresh(rotationMatrix) && fresh(rotationVector) && fresh(orientationValues)
      ensures rotationMatrix[..] == Zeros(16) && rotationVector[..] == Zeros(16) && orientationValues[..] == Zeros(3)
    {
      this.emitter := emitter;
      this.remappingCoordinateX := remappingCoordinateX;
      this.remappingCoordinateY := remappingCoordinateY;
      isRemapping := true;
      isLpfEnabled := lpfEnabled;
      this.lpfAlpha := lpfAlpha;
      rotationMatrix := new real[16](_ => 0.0);
      rotationVector := new real[16](_ => 0.0);
      orientationValues := new real[3](_ => 0.0);
    }

    /** The listener used without remapping: both axes are 0. */
    constructor (emitter: Emitter, lpfEnabled: bool, lpfAlpha: real)
      ensures Valid()
      ensures this.emitter == emitter && !isRemapping
      ensures remappingCoordinateX == 0 && remappingCoordinateY == 0
      ensures isLpfEnabled == lpfEnabled && this.lpfAlpha == lpfAlpha
      ensures fresh(rotationMatrix) && fresh(rotationVector) && fresh(orientationValues)
      ensures rotationMatrix[..] == Zeros(16) && rotationVector[..] == Zeros(16) && orientationValues[..] == Zeros(3)
    {
      this.emitter := emitter;
      remappingCoordinateX := 0;
      remappingCoordinateY := 0;
      isRemapping := false;
      isLpfEnabled := lpfEnabled;
      this.lpfAlpha := lpfAlpha;
      rotationMatrix := new real[16](_ => 0.0);
      rotationVector := new real[16](_ => 0.0);
      orientationValues := new real[3](_ => 0.0);
    }

    /** One sensor callback. Rotation-vector events emit exactly one new event; any other
        sensor type does nothing. The listener keeps its three buffers (same arrays) and
        never disturbs an event it emitted earlier. A rotation vector longer than the
        16-entry buffer overruns it when the filter is on, hence the requirement. */
    method OnSensorChanged(math: SensorMath, event: SensorEvent)
      requires Valid()
      requires event.sensor.sensorType == TYPE_ROTATION_VECTOR && isLpfEnabled ==> |event.values| <= 16
      modifies this, rotationMatrix, rotationVector, orientationValues, emitter
      ensures Valid()
      ensures rotationMatrix == old(rotationMatrix) && rotationVector == old(rotationVector)
      ensures orientationValues == old(orientationValues)
      ensures event.sensor.sensorType != TYPE_ROTATION_VECTOR ==>
        rotationMatrix[..] == old(rotationMatrix[..]) && rotationVector[..] == old(rotationVector[..]) &&
        orientationValues[..] == old(orientationValues[..]) && emitter.items == old(emitter.items)
      ensures event.sensor.sensorType == TYPE_ROTATION_VECTOR ==>
        rotationVector[..] == SmoothedVector(isLpfEnabled, lpfAlpha, old(rotationVector[..]), event.values) &&
        rotationMatrix[..] == RotationMatrix(math, isRemapping, remappingCoordinateX, remappingCoordinateY, rotationVector[..]) &&
        orientationValues[..] == OrientationDegrees(math, rotationMatrix[..]) &&
        |emitter.items| == |old(emitter.items)| + 1 &&
        emitter.items[..|old(emitter.items)|] == old(emitter.items) &&
        fresh(emitter.items[|old(emitter.items)|]) &&
        fresh(emitter.items[|old(emitter.items)|].values) &&
        emitter.items[|old(emitter.items)|].values[..] == orientationValues[..] &&
        emitter.items[|old(emitter.items)|].sensor == event.sensor &&
        emitter.items[|old(emitter.items)|].accuracy == event.accuracy &&
        emitter.items[|old(emitter.items)|].timestamp == event.timestamp
      ensures forall k :: 0 <= k < |old(emitter.items)| ==>
        emitter.items[k].values[..] == old(emitter.items[k].values[..])
    {
      if event.sensor.sensorType == TYPE_ROTATION_VECTOR {
        if isLpfEnabled {
          SmoothRotationVector(event.values);
        }
        UpdateOrientation(math);
        var rxSensorEvent := new RxSensorEvent(orientationValues, event.sensor, event.accuracy, event.timestamp);
        emitter.OnNext(rxSensorEvent);
      }
    }

    /** The filter branch: `lowPass` of a clone of the event's values into `rotationVector`,
        which returns (and so keeps) the same buffer. */
    method SmoothRotationVector(values: seq<real>)
      requires rotationVector.Length == 16 && |values| <= 16
      modifies this, rotationVector
      ensures rotationVector == old(rotationVector) && rotationMatrix == old(rotationMatrix)
      ensures orientationValues == old(orientationValues)
      ensures rotationVector[..] == Blend(old(rotationVector[..]), values, lpfAlpha)
    {
      var input := new real[|values|](i requires 0 <= i < |values| => values[i]);
      assert input[..] == values;
      rotationVector := LowPass(input, rotationVector, lpfAlpha);
    }

    /** Matrix from the rotation vector, optional remap in place, angles, then degrees. */
    method UpdateOrientation(math: SensorMath)
      requires rotationMatrix.Length == 16 && rotationVector.Length == 16 && orientationValues.Length == 3
      requires rotationMatrix != rotationVector
      modifies rotationMatrix, orientationValues
      ensures rotationVector[..] == old(rotationVector[..])
      ensures rotationMatrix[..] == RotationMatrix(math, isRemapping, remappingCoordinateX, remappingCoordinateY, rotationVector[..])
      ensures orientationValues[..] == OrientationDegrees(math, rotationMatrix[..])
    {
      Store(rotationMatrix, math.rotationMatrixFromVector(rotationVector[..]));
      if isRemapping {
        Store(rotationMatrix, math.remapCoordinateSystem(rotationMatrix[..], remappingCoordinateX, remappingCoordinateY));
      }
      Store(orientationValues, math.orientation(rotationMatrix[..]));
      orientationValues[0] := math.toDegrees(orientationValues[0]);
      orientationValues[1] := math.toDegrees(orientationValues[1]);
      orientationValues[2] := math.toDegrees(orientationValues[2]);
    }

    /** Accuracy changes are ignored. */
    method OnAccuracyChanged(sensor: Sensor, accuracy: int)
      ensures unchanged(this, rotationMatrix, rotationVector, orientationValues, emitter)
    {
    }
  }

  /** The subscription body of `build`: a remapping listener when remapping was requested,
      a plain one otherwise; filter flag and alpha pass through either way. */
  method NewListener(o: OrientationEventFlowable, emitter: Emitter) returns (listener: Listener)
    ensures fresh(listener) && listener.Valid() && listener.emitter == emitter
    ensures fresh(listener.rotationMatrix) && fresh(listener.rotationVector) && fresh(listener.orientationValues)
    ensures listener.isRemapping == o.isRemapping
    ensures o.isRemapping ==>
      listener.remappingCoordinateX == o.remappingCoordinateX && listener.remappingCoordinateY == o.remappingCoordinateY
    ensures !o.isRemapping ==> listener.remappingCoordinateX == 0 && listener.remappingCoordinateY == 0
    ensures listener.isLpfEnabled == o.enableLowPassFilter && listener.lpfAlpha == o.lpfAlpha
    ensures listener.rotationVector[..] == Zeros(16)
  {
    if o.isRemapping {
      listener := new Listener.Remapping(emitter, o.enableLowPassFilter, o.lpfAlpha,
        o.remappingCoordinateX, o.remappingCoordinateY);
    } else {
      listener := new Listener(emitter, o.enableLowPassFilter, o.lpfAlpha);
    }
  }

  /** As written, a listener whose filter is off (the builder's default) never copies the
      event's values into `rotationVector`: the platform always sees the zero buffer, so
      every event yields the same angles, whatever the sensor reported. */
  method DefaultOrientationIgnoresInput(math: SensorMath, sensor: Sensor, samplingPeriodUs: int,
                                        values1: seq<real>, values2: seq<real>)
    returns (angles1: seq<real>, angles2: seq<real>)
    requires sensor.sensorType == TYPE_ROTATION_VECTOR
    ensures angles1 == angles2 == OrientationDegrees(math, RotationMatrix(math, false, 0, 0, Zeros(16)))
  {
    var builder := new Builder(samplingPeriodUs);
    var emitter := new Emitter();
    var listener := NewListener(builder.Build(), emitter);
    listener.OnSensorChanged(math, SensorEvent(values1, sensor, SENSOR_STATUS_ACCURACY_HIGH, 0));
    angles1 := emitter.items[0].values[..];
    listener.OnSensorChanged(math, SensorEvent(values2, sensor, SENSOR_STATUS_ACCURACY_HIGH, 1));
    angles2 := emitter.items[1].values[..];
  }

  /** With the filter on, the buffer starts as zeros rather than null, so `lowPass` never takes
      its pass-through branch: the first sample is blended against zeros and arrives scaled
      by `1 - alpha`. */
  method FirstFilteredSample(math: SensorMath, sensor: Sensor, alpha: real, values: seq<real>)
    returns (vector: seq<real>, angles: seq<real>)
    requires sensor.sensorType == TYPE_ROTATION_VECTOR && |values| <= 16
    ensures |vector| == 16
    ensures forall i :: 0 <= i < |values| ==> vector[i] == (1.0 - alpha) * values[i]
    ensures forall i :: |values| <= i < 16 ==> vector[i] == 0.0
    ensures angles == OrientationDegrees(math, RotationMatrix(math, false, 0, 0, vector))
  {
    var builder := new Builder(0);
    builder := builder.EnableLowPassFilterWithAlpha(alpha);
    var emitter := new Emitter();
    var listener := NewListener(builder.Build(), emitter);
    listener.OnSensorChanged(math, SensorEvent(values, sensor, SENSOR_STATUS_ACCURACY_HIGH, 0));
    vector := listener.rotationVector[..];
    angles := emitter.items[0].values[..];
  }

  /** The evidently intended smoothing step. Without the filter the event's own values reach
      the platform; with it, the first sample (no history yet) passes through and later ones
      are blended into the history. Its first `ensures` is the counterpart of
      `DefaultOrientationIgnoresInput`: without the filter, the angles are those of the
      event's own values. */
  function CorrectedRotationVector(isLpfEnabled: bool, alpha: real, history: Option<seq<real>>,
                                   values: seq<real>): (vector: seq<real>)
    requires isLpfEnabled && history.Some? ==> |values| <= |history.value|
    ensures !isLpfEnabled || history.None? ==> vector == values
    ensures isLpfEnabled && history.Some? ==> vector == Blend(history.value, values, alpha)
  {
    if !isLpfEnabled then values
    else match history
      case None => values
      case Some(h) => Blend(h, values, alpha)
  }

  /** Corrected behaviour: a steady rotation vector reaches the platform unchanged, from the
      very first sample on, whether or not the filter is on. */
  lemma CorrectedSteadyInputPassesThrough(isLpfEnabled: bool, alpha: real, values: seq<real>)
    ensures CorrectedRotationVector(isLpfEnabled, alpha, None, values) == values
    ensures CorrectedRotationVector(isLpfEnabled, alpha, Some(values), values) == values
  {
    if isLpfEnabled {
      var blended := Blend(values, values, alpha);
      forall i | 0 <= i < |values| ensures blended[i] == values[i] {
        assert Transformers.ApplyLpf(values[i], values[i], 1.0 - alpha) == values[i];
      }
    }
  }
}
