/** RxSensorTransformer: low-pass filters run as an unseeded `scan` over the event stream.

    The scan emits the first event untouched; for every later event it calls the
    accumulator with the previously emitted (already filtered) event and the new one.
    The accumulator overwrites the new event's values in place (all of them, or one
    axis) and returns that same object, which becomes the next "previous".
    Values are reals: no claim is made about float rounding. */
module Transformers {
  import opened Events

  const DEFAULT_LPF_PARAMETER: real := 0.2

  /** `applyLpf`: move from the old value towards the current one by `parameter`. */
  function ApplyLpf(oldValue: real, currentValue: real, parameter: real): (r: real)
    ensures oldValue == currentValue ==> r == oldValue
    ensures parameter == 0.0 ==> r == oldValue
    ensures parameter == 1.0 ==> r == currentValue
    ensures 0.0 <= parameter <= 1.0 && oldValue <= currentValue ==> oldValue <= r <= currentValue
    ensures 0.0 <= parameter <= 1.0 && currentValue <= oldValue ==> currentValue <= r <= oldValue
  {
    var delta := parameter * (currentValue - oldValue);
    ScaledStepBounds(parameter, currentValue - oldValue);
    oldValue + delta
  }

  /** A fraction in [0, 1] of a difference lies between 0 and that difference. */
  lemma ScaledStepBounds(parameter: real, d: real)
    ensures 0.0 <= parameter <= 1.0 && 0.0 <= d ==> 0.0 <= parameter * d <= d
    ensures 0.0 <= parameter <= 1.0 && d <= 0.0 ==> d <= parameter * d <= 0.0
  {
    if 0.0 <= parameter <= 1.0 {
      var rest := 1.0 - parameter;
      assert parameter * d + rest * d == d;
      if 0.0 <= d {
        ProductNonNegative(parameter, d);
        ProductNonNegative(rest, d);
      } else {
        ProductNonNegative(parameter, -d);
        ProductNonNegative(rest, -d);
      }
    }
  }

  lemma ProductNonNegative(a: real, b: real)
    requires 0.0 <= a && 0.0 <= b
    ensures 0.0 <= a * b
  {
  }

  /** Which values a filter touches: every index, or a single axis (0 for X, 1 for Y, 2 for Z). */
  datatype Channel = AllAxes | SingleAxis(axis: nat)

  /** The transformer built by one of the `lowPassFilter*` factories. */
  datatype LowPassFilter = LowPassFilter(channel: Channel, parameter: real)

  /** The no-argument factories: the same filters with parameter 0.2. */
  function DefaultLowPassFilter(channel: Channel): (f: LowPassFilter)
    ensures f.channel == channel && f.parameter == 0.2
  {
    LowPassFilter(channel, DEFAULT_LPF_PARAMETER)
  }

  /** When the accumulator can run without an index out of range: the whole-vector filter
      reads `previous[i]` for every index of `current`; an axis filter reads that index of both. */
  predicate Applicable(channel: Channel, previous: seq<real>, current: seq<real>)
  {
    match channel
    case AllAxes => |current| <= |previous|
    case SingleAxis(axis) => axis < |previous| && axis < |current|
  }

  /** The values the accumulator leaves in the current event. */
  function Step(channel: Channel, parameter: real, previous: seq<real>, current: seq<real>): (r: seq<real>)
    requires Applicable(channel, previous, current)
    ensures |r| == |current|
    ensures forall i :: 0 <= i < |current| && (channel.AllAxes? || i == channel.axis) ==>
      r[i] == ApplyLpf(previous[i], current[i], parameter)
    ensures forall i :: 0 <= i < |current| && channel.SingleAxis? && i != channel.axis ==> r[i] == current[i]
  {
    match channel
    case AllAxes => seq(|current|, i requires 0 <= i < |current| => ApplyLpf(previous[i], current[i], parameter))
    case SingleAxis(axis) => current[axis := ApplyLpf(previous[axis], current[axis], parameter)]
  }

  /** The accumulator of `lowPassFilter(parameter)`: overwrites `current.values` in place
      and returns `current` itself. The two events may even share one array. */
  method LowPassStep(parameter: real, previous: RxSensorEvent, current: RxSensorEvent) returns (emitted: RxSensorEvent)
    requires current.values.Length <= previous.values.Length
    modifies current.values
    ensures emitted == current
    ensures current.values[..] == Step(AllAxes, parameter, old(previous.values[..]), old(current.values[..]))
  {
    var i := 0;
    while i < current.values.Length
      invariant 0 <= i <= current.values.Length
      invariant forall j :: 0 <= j < i ==>
        current.values[j] == ApplyLpf(old(previous.values[j]), old(current.values[j]), parameter)
      invariant forall j :: i <= j < current.values.Length ==> current.values[j] == old(current.values[j])
      invariant forall j :: i <= j < previous.values.Length ==> previous.values[j] == old(previous.values[j])
    {
      current.values[i] := ApplyLpf(previous.values[i], current.values[i], parameter);
      i := i + 1;
    }
    emitted := current;
  }

  /** The accumulator of `lowPassFilterX/Y/Z(parameter)`: overwrites one index in place. */
  method LowPassAxisStep(axis: nat, parameter: real, previous: RxSensorEvent, current: RxSensorEvent)
    returns (emitted: RxSensorEvent)
    requires axis < previous.values.Length && axis < current.values.Length
    modifies current.values
    ensures emitted == current
    ensures current.values[..] == Step(SingleAxis(axis), parameter, old(previous.values[..]), old(current.values[..]))
  {
    current.values[axis] := ApplyLpf(previous.values[axis], current.values[axis], parameter);
    emitted := current;
  }

  /** Every consecutive pair of inputs can go through the accumulator. Outputs keep their
      input's length, so this is exactly what the scan needs. */
  predicate StreamApplicable(channel: Channel, stream: seq<seq<real>>)
  {
    forall k :: 0 < k < |stream| ==> Applicable(channel, stream[k - 1], stream[k])
  }

  /** The values of the events the scan emits, for the values of the events it receives. */
  function Scan(f: LowPassFilter, stream: seq<seq<real>>): (out: seq<seq<real>>)
    requires StreamApplicable(f.channel, stream)
    ensures |out| == |stream|
    ensures forall k :: 0 <= k < |stream| ==> |out[k]| == |stream[k]|
    decreases |stream|
  {
    if |stream| <= 1 then stream
    else
      var init := stream[..|stream| - 1];
      assert StreamApplicable(f.channel, init) by {
        forall k | 0 < k < |init| ensures Applicable(f.channel, init[k - 1], init[k]) {
          assert init[k - 1] == stream[k - 1] && init[k] == stream[k];
        }
      }
      var out := Scan(f, init);
      assert Applicable(f.channel, stream[|stream| - 2], stream[|stream| - 1]);
      out + [Step(f.channel, f.parameter, out[|out| - 1], stream[|stream| - 1])]
  }

  lemma StreamApplicablePrefix(channel: Channel, stream: seq<seq<real>>, n: nat)
    requires StreamApplicable(channel, stream) && n <= |stream|
    ensures StreamApplicable(channel, stream[..n])
  {
    forall k | 0 < k < n ensures Applicable(channel, stream[..n][k - 1], stream[..n][k]) {
      assert stream[..n][k - 1] == stream[k - 1] && stream[..n][k] == stream[k];
    }
  }

  /** Filtering a prefix of the stream gives a prefix of the output: the scan never looks ahead. */
  lemma {:induction false} ScanPrefix(f: LowPassFilter, stream: seq<seq<real>>, n: nat)
    requires StreamApplicable(f.channel, stream) && n <= |stream|
    ensures StreamApplicable(f.channel, stream[..n])
    ensures Scan(f, stream)[..n] == Scan(f, stream[..n])
    decreases |stream|
  {
    StreamApplicablePrefix(f.channel, stream, n);
    if n < |stream| {
      var init := stream[..|stream| - 1];
      StreamApplicablePrefix(f.channel, stream, |stream| - 1);
      ScanPrefix(f, init, n);
      assert init[..n] == stream[..n];
      if |stream| > 1 {
        assert Scan(f, stream)[..n] == Scan(f, init)[..n];
      }
    } else {
      assert stream[..n] == stream;
    }
  }

  /** The first event is emitted untouched. */
  lemma {:induction false} ScanFirst(f: LowPassFilter, stream: seq<seq<real>>)
    requires StreamApplicable(f.channel, stream) && |stream| > 0
    ensures Scan(f, stream)[0] == stream[0]
  {
    ScanPrefix(f, stream, 1);
    assert stream[..1] == [stream[0]];
  }

  /** Every later event is the accumulator applied to the previous OUTPUT and the new input. */
  lemma {:induction false} ScanStep(f: LowPassFilter, stream: seq<seq<real>>, k: nat)
    requires StreamApplicable(f.channel, stream) && 0 < k < |stream|
    ensures Applicable(f.channel, Scan(f, stream)[k - 1], stream[k])
    ensures Scan(f, stream)[k] == Step(f.channel, f.parameter, Scan(f, stream)[k - 1], stream[k])
  {
    ScanPrefix(f, stream, k + 1);
    var prefix := stream[..k + 1];
    assert prefix[..|prefix| - 1] == stream[..k];
    ScanPrefix(f, stream, k);
    assert Scan(f, stream)[k] == Scan(f, stream)[..k + 1][k];
    assert Scan(f, stream)[k - 1] == Scan(f, stream)[..k][k - 1];
    assert Applicable(f.channel, stream[k - 1], stream[k]);
  }

  /** An axis filter never changes any other index of any event. */
  lemma {:induction false} ScanLeavesOtherAxes(f: LowPassFilter, stream: seq<seq<real>>, k: nat, i: nat)
    requires f.channel.SingleAxis? && StreamApplicable(f.channel, stream)
    requires k < |stream| && i < |stream[k]| && i != f.channel.axis
    ensures Scan(f, stream)[k][i] == stream[k][i]
  {
    if k == 0 {
      ScanFirst(f, stream);
    } else {
      ScanStep(f, stream, k);
    }
  }

  /** A constant stream comes out unchanged. */
  lemma {:induction false} ScanConstant(f: LowPassFilter, stream: seq<seq<real>>, c: seq<real>)
    requires forall k :: 0 <= k < |stream| ==> stream[k] == c
    requires StreamApplicable(f.channel, stream)
    ensures Scan(f, stream) == stream
    decreases |stream|
  {
    if |stream| > 1 {
      var init := stream[..|stream| - 1];
      StreamApplicablePrefix(f.channel, stream, |stream| - 1);
      ScanConstant(f, init, c);
      var previous := Scan(f, init)[|init| - 1];
      assert previous == c;
      var last := Step(f.channel, f.parameter, previous, stream[|stream| - 1]);
      forall i | 0 <= i < |c| ensures last[i] == c[i] {
        assert ApplyLpf(c[i], c[i], f.parameter) == c[i];
      }
      assert last == c;
      assert stream == init + [c];
    }
  }

  /** With parameter 1 every event keeps its own values: the filter is the identity. */
  lemma {:induction false} ScanParameterOne(f: LowPassFilter, stream: seq<seq<real>>)
    requires f.parameter == 1.0 && StreamApplicable(f.channel, stream)
    ensures Scan(f, stream) == stream
    decreases |stream|
  {
    if |stream| > 1 {
      var init := stream[..|stream| - 1];
      StreamApplicablePrefix(f.channel, stream, |stream| - 1);
      ScanParameterOne(f, init);
      var last := Step(f.channel, f.parameter, Scan(f, init)[|init| - 1], stream[|stream| - 1]);
      assert last == stream[|stream| - 1];
      assert stream == init + [stream[|stream| - 1]];
    }
  }

  /** With parameter 0 the filtered values stay at those of the first event. */
  lemma {:induction false} ScanParameterZero(f: LowPassFilter, stream: seq<seq<real>>, k: nat, i: nat)
    requires f.parameter == 0.0 && StreamApplicable(f.channel, stream)
    requires k < |stream| && i < |stream[k]| && (f.channel.AllAxes? || i == f.channel.axis)
    ensures i < |stream[0]| && Scan(f, stream)[k][i] == stream[0][i]
  {
    if k == 0 {
      ScanFirst(f, stream);
    } else {
      ScanStep(f, stream, k);
      ScanParameterZero(f, stream, k - 1, i);
    }
  }

  /** For a parameter in [0, 1] the filter never leaves the range the inputs live in. */
  lemma {:induction false} ScanBounded(f: LowPassFilter, stream: seq<seq<real>>, lo: real, hi: real, k: nat, i: nat)
    requires 0.0 <= f.parameter <= 1.0 && StreamApplicable(f.channel, stream)
    requires forall m, j :: 0 <= m < |stream| && 0 <= j < |stream[m]| ==> lo <= stream[m][j] <= hi
    requires k < |stream| && i < |stream[k]|
    ensures lo <= Scan(f, stream)[k][i] <= hi
  {
    if k == 0 {
      ScanFirst(f, stream);
    } else {
      ScanStep(f, stream, k);
      var previous := Scan(f, stream)[k - 1];
      if f.channel.AllAxes? || i == f.channel.axis {
        ScanBounded(f, stream, lo, hi, k - 1, i);
        assert lo <= previous[i] <= hi;
      }
    }
  }
}
