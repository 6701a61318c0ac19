# RxSensors core in Dafny

A model of the computational core of RxSensors, an Android library that turns sensor
callbacks into RxJava streams. It covers:

- **Filters** (`filters.dfy`, `RxSensorFilter.java`): the minimum-accuracy gate over the
  platform's accuracy levels (UNRELIABLE 0, LOW 1, MEDIUM 2, HIGH 3) and the comparers given
  to `distinctUntilChanged`: whole-vector and per-axis bit-pattern equality, and `uniqueEvent`.
- **Low-pass transformers** (`transformers.dfy`, `RxSensorTransformer.java`): `applyLpf`; the
  scan accumulators as methods that overwrite the incoming event's values array in place and
  return that same object; and the unseeded scan over a stream as a fold on value sequences.
- **Events** (`events.dfy`, `RxSensorEvent.java`): the mutable event class whose constructors
  and `setData` clone the values array.
- **Orientation** (`orientation.dfy`, `OrientationEventFlowable.java`): the configuration
  `Builder`, the listener selection made on subscription, the `Listener` class that owns the
  rotation-vector, rotation-matrix and angle buffers, and `lowPass`.
- **Platform** (`platform.dfy`): the Android constants (`TYPE_ROTATION_VECTOR` 11, `AXIS_X` 1,
  `AXIS_Y` 2, the accuracy levels), the platform `SensorEvent` as a record of its four fields,
  and `SensorMath`, a record of the platform routines the listener calls.

Floats are modelled as `real`. Bit-pattern comparison goes through `bits`, a parameter that
stands for `Float.floatToIntBits`. The platform routines `getRotationMatrixFromVector`,
`remapCoordinateSystem`, `getOrientation` and `Math.toDegrees` are not reproduced. They are
passed in as the fields of a `SensorMath` value, and the model states exactly how the
listener calls them and which buffers receive their results. The RxJava emitter is a small
`Emitter` class that records what `onNext` received, in order.

Where the source's comments, or code that cannot run, point to one behaviour and the code
does another, the model follows the code:

- The null check at the top of `lowPass` (OrientationEventFlowable.java:195) suggests the
  first sample was meant to pass through. The listener's buffer starts as a zero array, not null, so
  `lowPass` always blends. The first sample comes out scaled by `1 - alpha` (`FirstFilteredSample`).
- The Javadoc of `minAccuracy` (RxSensorFilter.java:24-31) promises events whose accuracy is
  "greater or equal" to the threshold. Its parameter is annotated `@Accuracy`, an `@IntDef` of
  HIGH, MEDIUM and LOW (RxSensorFilter.java:19-22), so UNRELIABLE lies outside the declared
  argument range. The code rejects every event for any threshold other than those three.
- The Javadoc of `uniqueEvent` (RxSensorFilter.java:121-126) says it compares all the values
  and the accuracy. As written it reports "same" whenever the accuracies differ (see Findings).

## Model

| member | source | states |
|---|---|---|
| Events.RxSensorEvent.constructor | rxsensors/src/main/java/com/gvillani/rxsensors/RxSensorEvent.java:34-39 | the event gets a fresh array with the same contents as the caller's array (no alias), and sensor, accuracy and timestamp exactly as passed |
| Events.RxSensorEvent.FromSensorEvent | rxsensors/src/main/java/com/gvillani/rxsensors/RxSensorEvent.java:27-32 | all four fields are copied from the platform event; values go into a fresh array |
| Events.RxSensorEvent.Copy | rxsensors/src/main/java/com/gvillani/rxsensors/RxSensorEvent.java:41-46 | the copy has equal sensor, accuracy and timestamp and an equal-content values array that is a different array from the original's |
| Events.RxSensorEvent.SetData | rxsensors/src/main/java/com/gvillani/rxsensors/RxSensorEvent.java:48-53 | all four fields are overwritten from the platform event, values with a fresh copy |
| Events.CopyIsIndependent | rxsensors/src/main/java/com/gvillani/rxsensors/RxSensorEvent.java:41-46 | writing into a copy's values leaves the original's values unchanged |
| Filters.MinAccuracy | rxsensors/src/main/java/com/gvillani/rxsensors/RxSensorFilter.java:31-62 | accepts exactly when the threshold is LOW, MEDIUM or HIGH and threshold <= accuracy <= HIGH; any other threshold (UNRELIABLE included) rejects every event |
| Filters.MinAccuracyMonotone | rxsensors/src/main/java/com/gvillani/rxsensors/RxSensorFilter.java:24-58 | over LOW <= MEDIUM <= HIGH, passing a higher threshold implies passing every lower one |
| Filters.MinAccuracyRejectsUnreliable | rxsensors/src/main/java/com/gvillani/rxsensors/RxSensorFilter.java:35-58 | an UNRELIABLE or out-of-range accuracy passes no threshold |
| Filters.SameBits | rxsensors/src/main/java/com/gvillani/rxsensors/RxSensorFilter.java:117-119 | two floats compare equal by raw bit pattern; identical values always match |
| Filters.CompareEventValues | rxsensors/src/main/java/com/gvillani/rxsensors/RxSensorFilter.java:141-152 | the early-exit loop returns true exactly when values2 is at least as long as values1 and every entry of values1 has the bit pattern of the entry of values2 at the same index; it is callable whenever Java does not throw: values2 long enough, or a mismatch inside values2 that stops the scan first |
| Filters.CompareLongerMismatch | rxsensors/src/main/java/com/gvillani/rxsensors/RxSensorFilter.java:144-149 | a longer values1 that mismatches inside values2, such as [1.0, 2.0] against [3.0], compares as different without indexing past values2 |
| Filters.ValuesBitEqualReflexive | rxsensors/src/main/java/com/gvillani/rxsensors/RxSensorFilter.java:141-152 | every vector compares equal to itself |
| Filters.ValuesBitEqualSymmetric | rxsensors/src/main/java/com/gvillani/rxsensors/RxSensorFilter.java:141-152 | on equal-length vectors the comparison is symmetric |
| Filters.ValuesBitEqualIgnoresTail | rxsensors/src/main/java/com/gvillani/rxsensors/RxSensorFilter.java:141-152 | entries of values2 beyond the length of values1 do not affect the result |
| Filters.UniqueEventValues | rxsensors/src/main/java/com/gvillani/rxsensors/RxSensorFilter.java:64-76 | the whole-vector comparer says "same" exactly when every index the two events share matches in bit pattern; it is defined for every pair on which Java does not throw |
| Filters.UniqueEventValuesAxis | rxsensors/src/main/java/com/gvillani/rxsensors/RxSensorFilter.java:78-119 | the X/Y/Z comparer is the whole-vector comparison restricted to the one-entry slice at index 0/1/2, so no other index affects it; both arrays must reach that index |
| Filters.WholeVectorIsAllAxes | rxsensors/src/main/java/com/gvillani/rxsensors/RxSensorFilter.java:64-119 | on three-axis readings the whole-vector comparer holds exactly when the X, Y and Z comparers all hold |
| Filters.UniqueEvent | rxsensors/src/main/java/com/gvillani/rxsensors/RxSensorFilter.java:121-139 | the comparer, including its `compareEventAccuracy` test (true when the accuracies DIFFER), is false exactly when some shared index differs in bit pattern and the two accuracies are equal; defined for every pair on which Java does not throw |
| Filters.UniqueEventDropsChangedReading | rxsensors/src/main/java/com/gvillani/rxsensors/RxSensorFilter.java:131-139 | a reading whose values and accuracy both changed is reported as "same", so distinctUntilChanged drops it |
| Filters.UniqueEventCorrected | rxsensors/src/main/java/com/gvillani/rxsensors/RxSensorFilter.java:121-139 | intended comparer: "same" implies equal accuracies and bit-equal values |
| Filters.UniqueEventCorrectedKeepsChanges | rxsensors/src/main/java/com/gvillani/rxsensors/RxSensorFilter.java:121-139 | the intended comparer holds exactly when values are bit-equal and accuracies are equal, and agrees with the written one whenever accuracies are equal |
| Transformers.ApplyLpf | rxsensors/src/main/java/com/gvillani/rxsensors/RxSensorTransformer.java:144-146 | equal old and current values are a fixed point; parameter 0 keeps the old value and 1 takes the current one; a parameter in [0, 1] yields a value between the two |
| Transformers.DefaultLowPassFilter | rxsensors/src/main/java/com/gvillani/rxsensors/RxSensorTransformer.java:116-142 | the no-argument factories build the same filter on the same channel with parameter 0.2 |
| Transformers.Step | rxsensors/src/main/java/com/gvillani/rxsensors/RxSensorTransformer.java:23-114 | the accumulator result keeps the current event's length; touched indices (all, or the one axis) become applyLpf(previous, current, p); other indices keep the current value |
| Transformers.LowPassStep | rxsensors/src/main/java/com/gvillani/rxsensors/RxSensorTransformer.java:27-36 | the whole-vector accumulator returns the incoming event object itself, whose values array is overwritten in place with Step over the previous output's values, even when the two events share one array; nothing else changes |
| Transformers.LowPassAxisStep | rxsensors/src/main/java/com/gvillani/rxsensors/RxSensorTransformer.java:50-114 | the X/Y/Z accumulator returns the incoming object with only the chosen index overwritten in place |
| Transformers.Scan | rxsensors/src/main/java/com/gvillani/rxsensors/RxSensorTransformer.java:23-39 | the filtered stream has as many events as the input and each output keeps its input's length |
| Transformers.ScanPrefix | rxsensors/src/main/java/com/gvillani/rxsensors/RxSensorTransformer.java:27 | filtering a prefix of the stream yields the corresponding prefix of the output |
| Transformers.ScanFirst | rxsensors/src/main/java/com/gvillani/rxsensors/RxSensorTransformer.java:27 | the first event passes through untouched |
| Transformers.ScanStep | rxsensors/src/main/java/com/gvillani/rxsensors/RxSensorTransformer.java:27-36 | every later output is the accumulator applied to the previous OUTPUT (already filtered) and the new input |
| Transformers.ScanLeavesOtherAxes | rxsensors/src/main/java/com/gvillani/rxsensors/RxSensorTransformer.java:50-114 | an axis filter never changes any other index of any event |
| Transformers.ScanConstant | rxsensors/src/main/java/com/gvillani/rxsensors/RxSensorTransformer.java:27-36 | a constant input stream comes out unchanged |
| Transformers.ScanParameterOne | rxsensors/src/main/java/com/gvillani/rxsensors/RxSensorTransformer.java:144-146 | with parameter 1 the filter is the identity on the stream |
| Transformers.ScanParameterZero | rxsensors/src/main/java/com/gvillani/rxsensors/RxSensorTransformer.java:144-146 | with parameter 0 every filtered index keeps the first event's value |
| Transformers.ScanBounded | rxsensors/src/main/java/com/gvillani/rxsensors/RxSensorTransformer.java:14-36 | with a parameter in [0, 1], outputs stay inside any range containing all inputs |
| Orientation.Builder.constructor | rxsensors/src/main/java/com/gvillani/rxsensors/OrientationEventFlowable.java:45-70 | a fresh builder has no remapping with axes AXIS_X/AXIS_Y, the filter off with alpha 0.25, and report latency 0 |
| Orientation.Builder.Build | rxsensors/src/main/java/com/gvillani/rxsensors/OrientationEventFlowable.java:32-42 | the flowable receives a copy of every builder setting (sampling period, latency, remapping flag and axes, filter flag, alpha) |
| Orientation.Builder.RemapCoordinateSystem | rxsensors/src/main/java/com/gvillani/rxsensors/OrientationEventFlowable.java:72-77 | sets both axes and the remapping flag, returns the builder itself, and changes no other setting |
| Orientation.Builder.SetMaxReportLatencyUs | rxsensors/src/main/java/com/gvillani/rxsensors/OrientationEventFlowable.java:79-82 | sets the report latency only and returns the builder itself |
| Orientation.Builder.EnableLowPassFilter | rxsensors/src/main/java/com/gvillani/rxsensors/OrientationEventFlowable.java:84-87 | turns the filter on, keeps the current alpha and every other setting |
| Orientation.Builder.EnableLowPassFilterWithAlpha | rxsensors/src/main/java/com/gvillani/rxsensors/OrientationEventFlowable.java:89-93 | turns the filter on and sets alpha, nothing else |
| Orientation.NewListener | rxsensors/src/main/java/com/gvillani/rxsensors/OrientationEventFlowable.java:96-100 | the subscription's listener takes the configured axes with remapping on when remapping was requested, and axes 0 with remapping off otherwise; filter flag and alpha pass through either way; its buffers are fresh and the rotation vector is all zeros |
| Orientation.Listener.Remapping | rxsensors/src/main/java/com/gvillani/rxsensors/OrientationEventFlowable.java:142-150 | the remapping listener stores the emitter, axes, flag and alpha, and owns fresh zero-filled 16/16/3 buffers |
| Orientation.Listener.constructor | rxsensors/src/main/java/com/gvillani/rxsensors/OrientationEventFlowable.java:152-159 | the plain listener has axes 0, remapping off, and fresh zero-filled buffers |
| Orientation.Blend | rxsensors/src/main/java/com/gvillani/rxsensors/OrientationEventFlowable.java:194-201 | blending into a buffer changes only the first |input| entries, each to applyLpf(buffer, input, 1 - alpha) of the stream transformer; the rest of the buffer is kept |
| Orientation.LowPass | rxsensors/src/main/java/com/gvillani/rxsensors/OrientationEventFlowable.java:194-201 | with a null output the input is returned untouched; otherwise the output array itself is returned, blended in place; output must be at least as long as input |
| Orientation.Listener.SmoothRotationVector | rxsensors/src/main/java/com/gvillani/rxsensors/OrientationEventFlowable.java:167-169 | the filter branch blends a clone of the event's values into the same rotationVector buffer |
| Orientation.Listener.UpdateOrientation | rxsensors/src/main/java/com/gvillani/rxsensors/OrientationEventFlowable.java:171-179 | the matrix buffer holds the platform matrix of the rotation vector, remapped in place when remapping; the angle buffer holds the platform angles of that matrix in degrees; the rotation vector is not touched |
| Orientation.Listener.OnSensorChanged | rxsensors/src/main/java/com/gvillani/rxsensors/OrientationEventFlowable.java:161-187 | a rotation-vector event updates rotationVector only when the filter is on, recomputes matrix and angles, and emits exactly one fresh event carrying a copy of the angles plus the input's sensor, accuracy and timestamp; any other sensor type changes nothing and emits nothing; buffers stay the same arrays and earlier emitted events keep their values |
| Orientation.Listener.OnAccuracyChanged | rxsensors/src/main/java/com/gvillani/rxsensors/OrientationEventFlowable.java:189-191 | changes nothing |
| Orientation.DefaultOrientationIgnoresInput | rxsensors/src/main/java/com/gvillani/rxsensors/OrientationEventFlowable.java:167-171 | with the builder's defaults, two rotation-vector events with any values emit the same angles, those of the all-zero rotation vector |
| Orientation.FirstFilteredSample | rxsensors/src/main/java/com/gvillani/rxsensors/OrientationEventFlowable.java:136-138 | with the filter on, the first sample is blended against the zero buffer: the rotation vector becomes (1 - alpha) times the input, zeros beyond it |
| Orientation.CorrectedRotationVector | rxsensors/src/main/java/com/gvillani/rxsensors/OrientationEventFlowable.java:167-171 | intended step: without the filter, or on the first sample, the event's values are used as they are; later samples are blended into the history |
| Orientation.CorrectedSteadyInputPassesThrough | rxsensors/src/main/java/com/gvillani/rxsensors/OrientationEventFlowable.java:194-201 | under the intended step a steady rotation vector reaches the platform unchanged from the first sample on |

## Left out

- RxSensor.java, SensorEventFlowable.java, AccuracyEventFlowable.java: sensor lookup, listener (un)registration, `Flowable.create`, cancellation and the `Build.VERSION` branch are I/O and lifecycle around the platform's sensor service.
- Inside OrientationEventFlowable.java, the `Flowable.create`/`setCancellable`/`registerListener` part of `build`, the `getDefaultSensor` lookups, the `sensorManager` and `sensorRotationVector` fields and the package-private two- and three-argument constructors (lines 111-121), for the same reason. `Builder.Build` keeps every builder setting except the sensor manager and sensor; `samplingPeriodUs` and `maxReportLatencyUs` are only read by the left-out `registerListener` call.
- The numeric platform routines (`getRotationMatrixFromVector`, `remapCoordinateSystem` including its boolean result, `getOrientation`, `Math.toDegrees` with its float cast) are parameters, not reimplementations.
- Float rounding: the low-pass properties are over reals, and the constants 0.2F and 0.25F are taken as the reals 0.2 and 0.25. `floatToIntBits` is any total map from reals to ints.
- Filters.SameBits: +0.0f and -0.0f become the one real 0.0, and NaN has no real at all. These are the inputs on which `floatToIntBits` comparison and float `==` disagree. So `SameBits`, `ValuesBitEqual`, `CompareEventValues`, `UniqueEventValues`, `UniqueEventValuesAxis` and `UniqueEvent` treat a +0.0 reading and a -0.0 reading as the same reading, where Java tells them apart and keeps both.
- Integer widths: `int` accuracies and the `long` timestamp are unbounded integers; they are only copied or compared, so no wrap-around can arise.
- RxJava operators: `filter`, `distinctUntilChanged` and backpressure are not modelled. The predicates and comparers are the contract. `scan` is modelled by `Transformers.Scan` over the values of the events.
- Transformers.Scan: it works on value sequences, so it does not capture one event object appearing twice in a stream. The object-level accumulators `LowPassStep` and `LowPassAxisStep` do handle shared arrays.
- `Sensor` is a record with a handle and a type; only its type is ever inspected, and reference identity is not modelled.
- Null references other than `lowPass`'s `output` (a null event, sensor or values array throws in Java) are not modelled; every reference is non-null.
- internal/Preconditions.java, exceptions/SensorNotFoundException.java and RxAccuracyEvent.java: null checks that throw, an exception type and a two-field holder, with no logic to model.
- Transformers.LowPassStep: Java throws ArrayIndexOutOfBoundsException when the current event is longer than the previous one, after overwriting the first entries; the model requires the previous event to be long enough and does not model the exception or the partial overwrite.
- Transformers.LowPassAxisStep: an axis beyond either event's values throws in Java; the model requires both events to reach the axis.
- Filters.UniqueEventValuesAxis: an event too short for the axis throws in Java; the model requires both events to reach the axis.
- Orientation.LowPass: an input longer than a non-null output throws in Java after partially blending; the model requires the output to be long enough.
- Orientation.Listener.OnSensorChanged: with the filter on, a rotation vector longer than the 16-entry buffer throws inside `lowPass`; the model requires at most 16 values in that case.
- Concurrency: callbacks are delivered one at a time by the platform, so each method runs to completion.

## Findings

| source | as written | input that shows it | evidently intended | confidence | as-written member | corrected member |
|---|---|---|---|---|---|---|
| rxsensors/src/main/java/com/gvillani/rxsensors/OrientationEventFlowable.java:167-171 | with the filter off (the builder's default) the event's values are never stored into `rotationVector`, which stays the zero array, so every event produces the same angles | default builder, rotation-vector events with values (0, 0, 0, 1) and then (0.7, 0, 0, 0.7): both emit the angles of the zero vector | without the filter the event's own values are handed to `getRotationMatrixFromVector` | high; not executed | Orientation.DefaultOrientationIgnoresInput | Orientation.CorrectedRotationVector |
| rxsensors/src/main/java/com/gvillani/rxsensors/OrientationEventFlowable.java:136-138 | the rotation-vector buffer starts as a zero array, so the null check in `lowPass` (line 195) never fires and the first filtered sample is blended against zeros | filter on with alpha 0.25, first sample (0, 0, 0, 1): the buffer becomes (0, 0, 0, 0.75) | the first sample passes through and seeds the filter | medium; not executed | Orientation.FirstFilteredSample | Orientation.CorrectedRotationVector |
| rxsensors/src/main/java/com/gvillani/rxsensors/RxSensorFilter.java:131-139 | the comparer reports "same" when the values are equal OR the accuracies differ, so `distinctUntilChanged` drops a reading whose accuracy changed even if its values changed too | previous ([1.0], HIGH), current ([2.0], MEDIUM): the comparer returns true and the current reading is dropped | "same" only when the values are equal AND the accuracies are equal | medium; not executed | Filters.UniqueEventDropsChangedReading | Filters.UniqueEventCorrected |
