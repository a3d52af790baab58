/**
 * Integer helpers of the ground-control application: minimum, maximum and
 * clamping of a value to a range (avrgui/lib/utils.py).
 */
module Utils {

  /** `get_min`: the first value when it is strictly smaller, else the second. */
  function GetMin(value1: int, value2: int): (r: int)
    ensures r <= value1 && r <= value2
    ensures r == value1 || r == value2
  {
    if value1 < value2 then value1 else value2
  }

  /** `get_max`: the first value when it is strictly larger, else the second. */
  function GetMax(value1: int, value2: int): (r: int)
    ensures r >= value1 && r >= value2
    ensures r == value1 || r == value2
  {
    if value1 > value2 then value1 else value2
  }

  /** `constrain`: the value clamped to [minVal, maxVal], written as min(max, max(min, val)). */
  function Constrain(val: int, minVal: int, maxVal: int): (r: int)
    ensures minVal <= maxVal ==> minVal <= r <= maxVal
    ensures minVal <= val <= maxVal ==> r == val
    ensures val < minVal && minVal <= maxVal ==> r == minVal
    ensures val > maxVal ==> r == maxVal
    // an empty range always yields its upper end
    ensures maxVal < minVal ==> r == maxVal
  {
    GetMin(maxVal, GetMax(minVal, val))
  }

  /** Clamping twice is clamping once. */
  lemma ConstrainIdempotent(val: int, minVal: int, maxVal: int)
    ensures Constrain(Constrain(val, minVal, maxVal), minVal, maxVal) == Constrain(val, minVal, maxVal)
  {
  }
}
