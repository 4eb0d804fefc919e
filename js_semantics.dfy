/**
 * The few pieces of JavaScript and Python built-in semantics the core relies
 * on, written out over unbounded integers and exact reals.
 */
module JsSemantics {

  /** The exceptions the modelled JavaScript can throw. */
  datatype JsError =
    | TypeError      // a property read or write on undefined or null
    | NetworkError   // a rejected fetch

  /** Math.floor on an exact real. */
  function Floor(x: real): int { x.Floor }

  /** Math.ceil on an exact real. */
  function Ceil(x: real): (r: int)
    ensures x <= r as real < x + 1.0
  {
    -((-x).Floor)
  }

  /** Math.round: the nearest integer, halves rounded towards +infinity. */
  function Round(x: real): (r: int)
    ensures x - 0.5 < r as real <= x + 0.5
  {
    (x + 0.5).Floor
  }

  /** JavaScript's `%` on integers: the remainder takes the sign of the dividend. */
  function Rem(a: int, n: int): (r: int)
    requires n > 0
    ensures a >= 0 ==> r == a % n
    ensures a < 0 ==> -n < r <= 0
  {
    if a >= 0 then a % n else -((-a) % n)
  }

  /** How Array.prototype.slice resolves one of its (integer) bounds. */
  function SliceBound(k: int, len: nat): (r: nat)
    ensures r <= len
  {
    if k < 0 then (if len + k < 0 then 0 else len + k)
    else if k > len then len else k
  }

  /** Array.prototype.slice(start, end) on integer bounds. */
  function Slice<T>(s: seq<T>, start: int, end: int): (r: seq<T>)
    ensures 0 <= start <= end <= |s| ==> r == s[start..end]
    ensures |r| <= |s|
  {
    var from, to := SliceBound(start, |s|), SliceBound(end, |s|);
    if from < to then s[from..to] else []
  }

  /**
   * The number `Math.round(a / b)` gives for finite a and b: an integer, or,
   * when b is 0, the Infinity, -Infinity or NaN the division produces.
   */
  datatype Rounded = Int(i: int) | PosInfinity | NegInfinity | NaN

  /** `Math.round(a / b)`. */
  function RoundQuotient(a: real, b: real): (r: Rounded)
    ensures b != 0.0 ==> r.Int? && a / b - 0.5 < r.i as real <= a / b + 0.5
    ensures b == 0.0 ==> (r == PosInfinity <==> a > 0.0) && (r == NegInfinity <==> a < 0.0) && (r == NaN <==> a == 0.0)
  {
    if b != 0.0 then Int(Round(a / b))
    else if a > 0.0 then PosInfinity
    else if a < 0.0 then NegInfinity
    else NaN
  }

  /** `x + 1`: the non-finite values absorb the 1. */
  function PlusOne(x: Rounded): (r: Rounded)
    ensures r.Int? <==> x.Int?
    ensures x.Int? ==> r.i == x.i + 1
    ensures !x.Int? ==> r == x
  {
    if x.Int? then Int(x.i + 1) else x
  }

  /** How Array.prototype.slice resolves a bound that may be non-finite: NaN counts as 0. */
  function RoundedSliceBound(k: Rounded, len: nat): (r: nat)
    ensures r <= len
    ensures k.Int? ==> r == SliceBound(k.i, len)
    ensures k == PosInfinity ==> r == len
    ensures k == NegInfinity || k == NaN ==> r == 0
  {
    match k
    case Int(i) => SliceBound(i, len)
    case PosInfinity => len
    case NegInfinity => 0
    case NaN => 0
  }

  /** Array.prototype.slice(start, end) on bounds that may be non-finite. */
  function RoundedSlice<T>(s: seq<T>, start: Rounded, end: Rounded): (r: seq<T>)
    ensures start.Int? && end.Int? ==> r == Slice(s, start.i, end.i)
    ensures (start == NaN || start == NegInfinity) && end == PosInfinity ==> r == s
    ensures start == PosInfinity || end == NaN || end == NegInfinity ==> r == []
  {
    var from, to := RoundedSliceBound(start, |s|), RoundedSliceBound(end, |s|);
    if from < to then s[from..to] else []
  }

  /** Python's `s[:k]`: a negative bound counts from the end. */
  function PyPrefix<T>(s: seq<T>, k: int): (r: seq<T>)
    ensures k >= 0 ==> |r| <= k
    ensures r <= s
    ensures k >= |s| ==> r == s
  {
    if k >= 0 then (if k < |s| then s[..k] else s)
    else (if |s| + k > 0 then s[..|s| + k] else [])
  }
}
