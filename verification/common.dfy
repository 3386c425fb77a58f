/**
 Small vocabulary shared by the fog, cloud-layer, sun-time and notification
 models: an optional value, the three-way trend used for temperature and
 cloud layers, and the JavaScript number helpers (`Math.round`, `Math.min`,
 `Math.max`) that the scoring code relies on.
 */
module Common {

  /** A value that may be absent (an omitted argument, a null timestamp, NaN). */
  datatype Option<+T> = None | Some(value: T)

  /** Direction of change between two readings. */
  datatype Trend = Decreasing | Stable | Increasing

  /** The trend seen when the two readings are swapped. */
  function Opposite(t: Trend): (r: Trend)
    ensures r == Stable <==> t == Stable
    ensures r == Increasing <==> t == Decreasing
    ensures r == Decreasing <==> t == Increasing
  {
    match t
    case Decreasing => Increasing
    case Stable => Stable
    case Increasing => Decreasing
  }

  /** Round of an integer is the integer itself. */
  lemma RoundOfInt(n: int)
    ensures Round(n as real) == n
  {
  }

  /** JavaScript `Math.round`: the nearest integer, halves rounded towards +infinity. */
  function Round(x: real): (r: int)
    ensures r as real - 0.5 <= x < r as real + 0.5
  {
    (x + 0.5).Floor
  }

  /** `Math.round` is determined by the half-open interval its argument falls in. */
  lemma RoundUnique(x: real, k: int)
    requires k as real - 0.5 <= x < k as real + 0.5
    ensures Round(x) == k
  {
  }

  /** A larger argument never rounds lower. */
  lemma RoundMonotone(x: real, y: real)
    requires x <= y
    ensures Round(x) <= Round(y)
  {
  }

  function MinInt(a: int, b: int): (r: int)
    ensures r <= a && r <= b
    ensures r == a || r == b
  {
    if a <= b then a else b
  }

  function MinReal(a: real, b: real): (r: real)
    ensures r <= a && r <= b
    ensures r == a || r == b
  {
    if a <= b then a else b
  }

  function MaxReal(a: real, b: real): (r: real)
    ensures a <= r && b <= r
    ensures r == a || r == b
  {
    if a <= b then b else a
  }

  /** `Math.max(lo, Math.min(hi, x))`: x pulled into [lo, hi]. */
  function Clamp(x: real, lo: real, hi: real): (r: real)
    requires lo <= hi
    ensures lo <= r <= hi
    ensures lo <= x <= hi ==> r == x
    ensures x < lo ==> r == lo
    ensures hi < x ==> r == hi
  {
    MaxReal(lo, MinReal(hi, x))
  }
}
