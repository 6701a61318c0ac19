/** RxSensorFilter: the accuracy gate and the comparers handed to `distinctUntilChanged`.

    `distinctUntilChanged(comparer)` drops the current event whenever
    `comparer(previous, current)` is true, so every comparer here answers "treat as the same".
    Float comparison is by raw bit pattern; `bits` stands for `Float.floatToIntBits`,
    a total map supplied by the platform. A `real` has one zero and no NaN, so the inputs on
    which bit patterns and float `==` disagree are not representable here. */
module Filters {
  import opened Platform
  import opened Events

  /** The accuracy gate returned by `minAccuracy(minAccuracy)`, applied to one event. */
  function MinAccuracy(minAccuracy: int, event: RxSensorEvent): (accepted: bool)
    reads event
    ensures accepted <==>
      minAccuracy in {SENSOR_STATUS_ACCURACY_LOW, SENSOR_STATUS_ACCURACY_MEDIUM, SENSOR_STATUS_ACCURACY_HIGH} &&
      minAccuracy <= event.accuracy <= SENSOR_STATUS_ACCURACY_HIGH
  {
    if minAccuracy == SENSOR_STATUS_ACCURACY_HIGH then
      event.accuracy == SENSOR_STATUS_ACCURACY_HIGH
    else if minAccuracy == SENSOR_STATUS_ACCURACY_MEDIUM then
      event.accuracy == SENSOR_STATUS_ACCURACY_HIGH || event.accuracy == SENSOR_STATUS_ACCURACY_MEDIUM
    else if minAccuracy == SENSOR_STATUS_ACCURACY_LOW then
      event.accuracy == SENSOR_STATUS_ACCURACY_HIGH || event.accuracy == SENSOR_STATUS_ACCURACY_MEDIUM
        || event.accuracy == SENSOR_STATUS_ACCURACY_LOW
    else
      false
  }

  /** Raising the threshold never lets more events through. */
  lemma MinAccuracyMonotone(lower: int, higher: int, event: RxSensorEvent)
    requires SENSOR_STATUS_ACCURACY_LOW <= lower <= higher <= SENSOR_STATUS_ACCURACY_HIGH
    ensures MinAccuracy(higher, event) ==> MinAccuracy(lower, event)
  {
  }

  /** An unreliable reading, or one whose accuracy is outside the platform's range, never passes. */
  lemma MinAccuracyRejectsUnreliable(minAccuracy: int, event: RxSensorEvent)
    requires event.accuracy <= SENSOR_STATUS_UNRELIABLE || event.accuracy > SENSOR_STATUS_ACCURACY_HIGH
    ensures !MinAccuracy(minAccuracy, event)
  {
  }

  /** `compareValues`: same raw bit pattern, so identical values always match. */
  predicate SameBits(bits: real -> int, value1: real, value2: real): (same: bool)
    ensures value1 == value2 ==> same
  {
    bits(value1) == bits(value2)
  }

  /** When the scan of `compareEventValues` stays inside `values2`: either `values2` is long
      enough, or a mismatch inside `values2` stops the scan first. Otherwise Java throws
      ArrayIndexOutOfBoundsException. */
  predicate ComparisonInBounds(bits: real -> int, values1: seq<real>, values2: seq<real>)
  {
    |values1| <= |values2| || exists j :: 0 <= j < |values2| && bits(values1[j]) != bits(values2[j])
  }

  /** Every entry of `values1` has the bit pattern of the entry of `values2` at the same index;
      entries of `values2` past the end of `values1` are not looked at. */
  predicate ValuesBitEqual(bits: real -> int, values1: seq<real>, values2: seq<real>)
  {
    |values1| <= |values2| && forall i :: 0 <= i < |values1| ==> SameBits(bits, values1[i], values2[i])
  }

  /** `compareEventValues`: a scan over `values1` that stops at the first mismatch. */
  method CompareEventValues(bits: real -> int, values1: array<real>, values2: array<real>) returns (areEqual: bool)
    requires ComparisonInBounds(bits, values1[..], values2[..])
    ensures areEqual <==> ValuesBitEqual(bits, values1[..], values2[..])
  {
    areEqual := true;
    var i := 0;
    while i < values1.Length
      invariant 0 <= i <= values1.Length && i <= values2.Length
      invariant areEqual
      invariant forall j :: 0 <= j < i ==> SameBits(bits, values1[j], values2[j])
    {
      if bits(values1[i]) != bits(values2[i]) {
        areEqual := false;
        break;
      }
      i := i + 1;
    }
  }

  /** A longer first vector whose overlap mismatches: the scan breaks before it runs off
      `values2`, and the answer is "different". */
  method CompareLongerMismatch(bits: real -> int) returns (areEqual: bool)
    requires bits(1.0) != bits(3.0)
    ensures !areEqual
  {
    var values1 := new real[2](i => if i == 0 then 1.0 else 2.0);
    var values2 := new real[1](_ => 3.0);
    assert values1[0] == 1.0 && values2[0] == 3.0;
    areEqual := CompareEventValues(bits, values1, values2);
  }

  lemma ValuesBitEqualReflexive(bits: real -> int, values: seq<real>)
    ensures ValuesBitEqual(bits, values, values)
  {
  }

  lemma ValuesBitEqualSymmetric(bits: real -> int, values1: seq<real>, values2: seq<real>)
    requires |values1| == |values2|
    ensures ValuesBitEqual(bits, values1, values2) <==> ValuesBitEqual(bits, values2, values1)
  {
  }

  /** Only the prefix of `values2` as long as `values1` matters. */
  lemma ValuesBitEqualIgnoresTail(bits: real -> int, values1: seq<real>, values2: seq<real>, tail: seq<real>)
    requires |values1| <= |values2|
    ensures ValuesBitEqual(bits, values1, values2 + tail) <==> ValuesBitEqual(bits, values1, values2)
  {
  }

  /** The comparer returned by `uniqueEventValues()`. */
  function UniqueEventValues(bits: real -> int, event1: RxSensorEvent, event2: RxSensorEvent): (same: bool)
    reads event1, event2, event1.values, event2.values
    requires ComparisonInBounds(bits, event1.values[..], event2.values[..])
    ensures same <==> forall i :: 0 <= i < event1.values.Length && i < event2.values.Length ==>
      bits(event1.values[i]) == bits(event2.values[i])
  {
    ValuesBitEqual(bits, event1.values[..], event2.values[..])
  }

  /** The comparers returned by `uniqueEventValuesX/Y/Z()`, for axis 0, 1 and 2: one index only. */
  function UniqueEventValuesAxis(bits: real -> int, axis: nat, event1: RxSensorEvent, event2: RxSensorEvent): (same: bool)
    reads event1, event2, event1.values, event2.values
    requires axis < event1.values.Length && axis < event2.values.Length
    ensures same <==> ValuesBitEqual(bits, event1.values[axis..axis + 1], event2.values[axis..axis + 1])
  {
    assert event1.values[axis..axis + 1][0] == event1.values[axis];
    assert event2.values[axis..axis + 1][0] == event2.values[axis];
    SameBits(bits, event1.values[axis], event2.values[axis])
  }

  /** On three-axis readings the whole-vector comparer is exactly the three axis comparers together. */
  lemma WholeVectorIsAllAxes(bits: real -> int, event1: RxSensorEvent, event2: RxSensorEvent)
    requires event1.values.Length == 3 && event2.values.Length == 3
    ensures UniqueEventValues(bits, event1, event2) <==>
      UniqueEventValuesAxis(bits, 0, event1, event2) &&
      UniqueEventValuesAxis(bits, 1, event1, event2) &&
      UniqueEventValuesAxis(bits, 2, event1, event2)
  {
    if UniqueEventValuesAxis(bits, 0, event1, event2) &&
       UniqueEventValuesAxis(bits, 1, event1, event2) &&
       UniqueEventValuesAxis(bits, 2, event1, event2)
    {
      forall i | 0 <= i < 3
        ensures bits(event1.values[i]) == bits(event2.values[i])
      {
        assert i == 0 || i == 1 || i == 2;
      }
    }
  }

  /** The comparer returned by `uniqueEvent()`, as written: values equal OR accuracies differ. */
  function UniqueEvent(bits: real -> int, event1: SensorEvent, event2: SensorEvent): (same: bool)
    requires ComparisonInBounds(bits, event1.values, event2.values)
    ensures !same <==>
      (exists i :: 0 <= i < |event1.values| && i < |event2.values| && bits(event1.values[i]) != bits(event2.values[i])) &&
      event1.accuracy == event2.accuracy
  {
    ValuesBitEqual(bits, event1.values, event2.values) || event1.accuracy != event2.accuracy
  }

  /** As written, a reading whose values AND accuracy both changed is treated as a repeat,
      so `distinctUntilChanged(uniqueEvent())` drops it. */
  lemma UniqueEventDropsChangedReading(bits: real -> int, sensor: Sensor)
    requires bits(1.0) != bits(2.0)
    ensures UniqueEvent(bits,
      SensorEvent([1.0], sensor, SENSOR_STATUS_ACCURACY_HIGH, 0),
      SensorEvent([2.0], sensor, SENSOR_STATUS_ACCURACY_MEDIUM, 1))
  {
  }

  /** The evidently intended comparer: a repeat is a reading with the same values and the same accuracy. */
  function UniqueEventCorrected(bits: real -> int, event1: SensorEvent, event2: SensorEvent): (same: bool)
    requires ComparisonInBounds(bits, event1.values, event2.values)
    ensures same ==> event1.accuracy == event2.accuracy
    ensures same ==> |event1.values| <= |event2.values| && forall i :: 0 <= i < |event1.values| ==> bits(event1.values[i]) == bits(event2.values[i])
  {
    ValuesBitEqual(bits, event1.values, event2.values) && event1.accuracy == event2.accuracy
  }

  /** The corrected comparer keeps every reading whose values or accuracy changed, and drops
      only what the as-written comparer also drops among equal-accuracy readings. */
  lemma UniqueEventCorrectedKeepsChanges(bits: real -> int, event1: SensorEvent, event2: SensorEvent)
    requires ComparisonInBounds(bits, event1.values, event2.values)
    ensures UniqueEventCorrected(bits, event1, event2) <==>
      ValuesBitEqual(bits, event1.values, event2.values) && event1.accuracy == event2.accuracy
    ensures event1.accuracy == event2.accuracy ==>
      (UniqueEventCorrected(bits, event1, event2) <==> UniqueEvent(bits, event1, event2))
  {
  }
}
