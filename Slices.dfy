/** Python's `s[lo:hi]` for non-negative bounds: both bounds clamp to the length, and a reversed range is empty. */
module Slices {

  function Slice<T>(s: seq<T>, lo: nat, hi: nat): (r: seq<T>)
    ensures |r| <= |s|
    ensures lo <= hi <= |s| ==> r == s[lo..hi]
    ensures |s| <= lo ==> r == []
    ensures lo <= |s| <= hi ==> r == s[lo..]
  {
    var a := if lo < |s| then lo else |s|;
    var b := if hi < |s| then hi else |s|;
    if a <= b then s[a..b] else []
  }
}
