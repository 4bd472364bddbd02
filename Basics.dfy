/** Small shared vocabulary: an optional value and the `max`/`min` clamps
    that every initialiser of the engine is built from. */
module Basics {

  datatype Option<+T> = None | Some(value: T)

  function Max(a: int, b: int): int { if a >= b then a else b }

  function Min(a: int, b: int): int { if a <= b then a else b }

  function MaxR(a: real, b: real): real { if a >= b then a else b }

  function MinR(a: real, b: real): real { if a <= b then a else b }

  /** `min(max(lo, v), hi)`, the clamp the source writes out at each use. */
  function Clamp(v: int, lo: int, hi: int): (r: int)
    requires lo <= hi
    ensures lo <= r <= hi
    ensures lo <= v <= hi ==> r == v
    ensures v < lo ==> r == lo
    ensures hi < v ==> r == hi
  {
    Min(Max(lo, v), hi)
  }

  /** A uniform draw `Int.random(in: lo...hi)`, with the random source's raw
      output `u` made an explicit argument. */
  function Between(lo: int, hi: int, u: nat): (v: int)
    requires lo <= hi
    ensures lo <= v <= hi
  {
    lo + u % (hi - lo + 1)
  }

  /** Every value of the range is produced by some draw. */
  lemma BetweenCovers(lo: int, hi: int, v: int)
    requires lo <= v <= hi
    ensures Between(lo, hi, v - lo) == v
  {
  }

  /** The characters `trimmingCharacters(in: .whitespacesAndNewlines)`
      removes, restricted to ASCII. */
  predicate IsSpace(c: char)
  {
    c == ' ' || c == '\t' || c == '\n' || c == '\r'
  }

  /** Neither end of `s` is whitespace. */
  predicate NoEdgeSpace(s: string)
  {
    s != [] ==> !IsSpace(s[0]) && !IsSpace(s[|s| - 1])
  }

  /** The number of whitespace characters `s` starts with. */
  function LeadingSpaces(s: string): (n: nat)
    ensures n <= |s|
    ensures forall k :: 0 <= k < n ==> IsSpace(s[k])
    ensures n < |s| ==> !IsSpace(s[n])
    decreases |s|
  {
    if s != [] && IsSpace(s[0]) then 1 + LeadingSpaces(s[1..]) else 0
  }

  /** The length of `s` without the whitespace it ends with. */
  function TrailingStart(s: string): (n: nat)
    ensures n <= |s|
    ensures forall k :: n <= k < |s| ==> IsSpace(s[k])
    ensures n > 0 ==> !IsSpace(s[n - 1])
    decreases |s|
  {
    if s != [] && IsSpace(s[|s| - 1]) then TrailingStart(s[..|s| - 1]) else |s|
  }

  /** `trimmingCharacters(in: .whitespacesAndNewlines)`: the result has no
      whitespace at either end, and a string without any is kept. */
  function Trim(s: string): (r: string)
    ensures NoEdgeSpace(r)
    ensures NoEdgeSpace(s) ==> r == s
    ensures |r| <= |s|
  {
    var i := LeadingSpaces(s);
    s[i..][..TrailingStart(s[i..])]
  }

  /** Trimming removes whitespace from the two ends and nothing else:
      what it keeps is one contiguous slice of `s`. */
  lemma TrimKeepsMiddle(s: string)
    ensures var i := LeadingSpaces(s);
      && i + |Trim(s)| <= |s|
      && Trim(s) == s[i..i + |Trim(s)|]
      && (forall k :: 0 <= k < i ==> IsSpace(s[k]))
      && (forall k :: i + |Trim(s)| <= k < |s| ==> IsSpace(s[k]))
  {
    var i := LeadingSpaces(s);
    var t := s[i..];
    forall k | i + |Trim(s)| <= k < |s|
      ensures IsSpace(s[k])
    {
      assert s[k] == t[k - i];
    }
  }
}
