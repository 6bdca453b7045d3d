/** Python's slice operator on byte strings, as `tcp.py` uses it: indices
    are clamped to the sequence, and a negative index counts from the end. */
module PySlice {

  /** The position a Python slice bound `i` denotes in a sequence of length `n`. */
  function Clamp(i: int, n: nat): (k: nat)
    ensures k <= n
  {
    if i < 0 then (if n + i < 0 then 0 else n + i)
    else if i > n then n
    else i
  }

  /** `s[lo:hi]` */
  function Slice<T>(s: seq<T>, lo: int, hi: int): (r: seq<T>)
    ensures |r| <= |s|
    ensures 0 <= lo <= hi <= |s| ==> r == s[lo..hi]
    ensures 0 <= lo <= |s| <= hi ==> r == s[lo..]
    ensures hi <= lo && (0 <= hi || lo < 0) ==> r == []
    ensures |s| <= lo ==> r == []
  {
    var a, b := Clamp(lo, |s|), Clamp(hi, |s|);
    if a <= b then s[a..b] else []
  }

  /** `s[lo:]`: keeps everything from `lo`; a negative `lo` keeps the last `-lo` elements. */
  function From<T>(s: seq<T>, lo: int): (r: seq<T>)
    ensures 0 <= lo <= |s| ==> r == s[lo..]
    ensures lo > |s| ==> r == []
    ensures -|s| <= lo < 0 ==> r == s[|s| + lo..]
    ensures lo < -|s| ==> r == s
  {
    Slice(s, lo, |s|)
  }

  /** `s[:hi]` */
  function Prefix<T>(s: seq<T>, hi: int): (r: seq<T>)
    ensures 0 <= hi <= |s| ==> r == s[..hi]
    ensures hi > |s| ==> r == s
  {
    Slice(s, 0, hi)
  }
}
