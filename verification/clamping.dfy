/** The `min(max(lo, x), hi)` input clamp that every continuous-input game applies. */
module Clamping {

  function ClampInt(x: int, lo: int, hi: int): (r: int)
    ensures lo <= hi ==> lo <= r <= hi
    ensures lo <= x <= hi ==> r == x
    ensures x <= lo <= hi ==> r == lo
    ensures lo <= hi <= x ==> r == hi
    ensures hi < lo ==> r == hi
  {
    var up := if x < lo then lo else x;
    if up < hi then up else hi
  }

  function ClampReal(x: real, lo: real, hi: real): (r: real)
    ensures lo <= hi ==> lo <= r <= hi
    ensures lo <= x <= hi ==> r == x
    ensures x <= lo <= hi ==> r == lo
    ensures lo <= hi <= x ==> r == hi
    ensures hi < lo ==> r == hi
  {
    var up := if x < lo then lo else x;
    if up < hi then up else hi
  }
}
