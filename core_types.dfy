/** The integer utilities of src/core/utilities/types.h. */
module CoreTypes {

  /**
   * arange(start, stop, step) for an integer T: start, start + step, ... while below stop.
   * With a non-positive step and start < stop the source never leaves its loop, so callers
   * must not ask for that.
   */
  method Arange(start: int, stop: int, step: int := 1) returns (values: seq<int>)
    requires step > 0 || start >= stop
    ensures forall i :: 0 <= i < |values| ==> values[i] == start + i * step
    ensures forall i :: 0 <= i < |values| ==> values[i] < stop
    ensures start + |values| * step >= stop
    ensures values == [] <==> start >= stop
  {
    values := [];
    var value := start;
    while value < stop
      invariant step > 0 || value >= stop
      invariant value == start + |values| * step
      invariant forall i :: 0 <= i < |values| ==> values[i] == start + i * step
      invariant forall i :: 0 <= i < |values| ==> values[i] < stop
      invariant values == [] <==> value == start
      invariant values != [] ==> start < stop
      decreases stop - value
    {
      values := values + [value];
      value := value + step;
    }
  }

  /** Consecutive elements of an arange differ by exactly step, so the sequence increases strictly. */
  lemma ArangeStrictlyIncreasing(values: seq<int>, start: int, step: int)
    requires step > 0
    requires forall i :: 0 <= i < |values| ==> values[i] == start + i * step
    ensures forall i :: 0 < i < |values| ==> values[i] - values[i - 1] == step
    ensures forall i, j :: 0 <= i < j < |values| ==> values[i] < values[j]
  {
    forall i, j | 0 <= i < j < |values|
      ensures values[i] < values[j]
    {
      assert values[j] - values[i] == (j - i) * step;
    }
  }

  /** StrongType<T> for an integer T: a value wrapped so that it gets its own type. */
  datatype StrongType = StrongType(value_: int) {

    /** value() and the conversion operator both give back the wrapped value. */
    function Value(): (r: int)
      ensures this == StrongType(r)
    {
      value_
    }

    function AsInt(): (r: int)
      ensures r == Value()
    {
      value_
    }
  }

  /** The default constructor wraps 0. */
  function DefaultStrongType(): (s: StrongType)
    ensures s.Value() == 0
  {
    StrongType(0)
  }

  /** Wrapping then unwrapping gives back the value, through either accessor. */
  lemma StrongTypeRoundTrip(v: int)
    ensures StrongType(v).Value() == v && StrongType(v).AsInt() == v
  {
  }
}
