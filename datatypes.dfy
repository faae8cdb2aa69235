/**
 * The Laban qualities and the range-clamped value of ScuddleDataTypes.h.
 */
module DataTypes {

  datatype Option<T> = None | Some(value: T)

  /** Flow Effort quality. */
  datatype Flow = FlowFree | FlowBound

  /** Height, five ordered levels from low to high. */
  datatype Height = HeightLow | HeightMidLow | HeightMiddle | HeightMidHigh | HeightHigh

  /** Space Effort quality. */
  datatype Space = SpaceIndirect | SpaceDirect

  /** Time Effort quality. */
  datatype Time = TimeSustained | TimeSudden

  /** Weight Effort quality. */
  datatype Weight = WeightLight | WeightStrong

  /** The height levels in their declared order. */
  const HeightLevels: seq<Height> := [HeightLow, HeightMidLow, HeightMiddle, HeightMidHigh, HeightHigh]

  /** Position of a height level in the declared order. */
  function HeightRank(h: Height): (r: nat)
    ensures r < |HeightLevels| && HeightLevels[r] == h
  {
    match h
    case HeightLow => 0
    case HeightMidLow => 1
    case HeightMiddle => 2
    case HeightMidHigh => 3
    case HeightHigh => 4
  }

  /** There are exactly five height levels, each listed once. */
  lemma HeightLevelsExact()
    ensures |HeightLevels| == 5
    ensures forall i, j :: 0 <= i < j < |HeightLevels| ==> HeightLevels[i] != HeightLevels[j]
    ensures forall h: Height :: h in HeightLevels
  {
    forall h: Height ensures h in HeightLevels {
      assert HeightLevels[HeightRank(h)] == h;
    }
  }

  /**
   * The value `setValue` stores: the lower bound when the request is below it,
   * else the upper bound when the request is above it, else the request.
   */
  function Clamp(minValue: real, maxValue: real, newValue: real): (r: real)
    ensures minValue <= maxValue ==> minValue <= r <= maxValue
    ensures r == newValue <==> minValue <= newValue <= maxValue
    ensures newValue < minValue ==> r == minValue
    ensures minValue <= maxValue < newValue ==> r == maxValue
  {
    if minValue > newValue then minValue
    else if maxValue < newValue then maxValue
    else newValue
  }

  /** Storing an already stored value changes nothing. */
  lemma ClampIdempotent(minValue: real, maxValue: real, newValue: real)
    requires minValue <= maxValue
    ensures Clamp(minValue, maxValue, Clamp(minValue, maxValue, newValue)) == Clamp(minValue, maxValue, newValue)
  {
  }

  /** Clamping is monotone: a larger request never stores a smaller value. */
  lemma ClampMonotone(minValue: real, maxValue: real, x: real, y: real)
    requires minValue <= maxValue && x <= y
    ensures Clamp(minValue, maxValue, x) <= Clamp(minValue, maxValue, y)
  {
  }

  /**
   * A real value kept inside a closed range fixed at construction, with a
   * default that is also its reset value.
   */
  class ConstrainedValue {
    const minValue: real
    const maxValue: real
    const defaultValue: real
    var currentValue: real

    ghost predicate Valid()
      reads this
    {
      minValue < maxValue && minValue <= currentValue <= maxValue
    }

    /** Construction once the range has been found non-empty. */
    constructor (minValue: real, maxValue: real, defaultValue: real)
      requires minValue < maxValue
      ensures Valid()
      ensures this.minValue == minValue && this.maxValue == maxValue && this.defaultValue == defaultValue
      ensures currentValue == Clamp(minValue, maxValue, defaultValue)
    {
      this.minValue := minValue;
      this.maxValue := maxValue;
      this.defaultValue := defaultValue;
      currentValue := Clamp(minValue, maxValue, defaultValue);
    }

    /**
     * The source constructor: it refuses (throws) an empty or inverted range,
     * and otherwise starts at the clamped default.
     */
    static method Create(minValue: real, maxValue: real, defaultValue: real) returns (r: Option<ConstrainedValue>)
      ensures r.None? <==> minValue >= maxValue
      ensures r.Some? ==> fresh(r.value) && r.value.Valid()
      ensures r.Some? ==> r.value.minValue == minValue && r.value.maxValue == maxValue
      ensures r.Some? ==> r.value.defaultValue == defaultValue
      ensures r.Some? ==> r.value.currentValue == Clamp(minValue, maxValue, defaultValue)
    {
      if minValue >= maxValue {
        return None;
      }
      var v := new ConstrainedValue(minValue, maxValue, defaultValue);
      return Some(v);
    }

    method GetRange() returns (lo: real, hi: real)
      requires Valid()
      ensures lo == minValue && hi == maxValue && lo < hi
    {
      lo, hi := minValue, maxValue;
    }

    method GetValue() returns (v: real)
      requires Valid()
      ensures v == currentValue && minValue <= v <= maxValue
    {
      v := currentValue;
    }

    method SetValue(newValue: real)
      requires Valid()
      modifies this
      ensures Valid()
      ensures currentValue == Clamp(minValue, maxValue, newValue)
    {
      currentValue := if minValue > newValue then minValue
                      else if maxValue < newValue then maxValue
                      else newValue;
    }

    method ResetValue()
      requires Valid()
      modifies this
      ensures Valid()
      ensures currentValue == Clamp(minValue, maxValue, defaultValue)
    {
      SetValue(defaultValue);
    }
  }
}
