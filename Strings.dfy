/** Joining strings with a one-character separator (`sep.join(parts)`) and
    splitting on it (`s.split(sep)`). */
module Strings {

  /** `sep.join(parts)`. */
  function Join(parts: seq<string>, sep: char): string {
    if |parts| == 0 then ""
    else if |parts| == 1 then parts[0]
    else parts[0] + [sep] + Join(parts[1..], sep)
  }

  /** Length of the prefix of `s` before the first `sep`. */
  function PieceLength(s: string, sep: char): (n: nat)
    ensures n <= |s|
    ensures forall i :: 0 <= i < n ==> s[i] != sep
    ensures n < |s| ==> s[n] == sep
  {
    if |s| == 0 || s[0] == sep then 0 else 1 + PieceLength(s[1..], sep)
  }

  /** `s.split(sep)`: always at least one piece, empty pieces kept. */
  function SplitOn(s: string, sep: char): (pieces: seq<string>)
    ensures |pieces| > 0
    decreases |s|
  {
    var n := PieceLength(s, sep);
    if n == |s| then [s] else [s[..n]] + SplitOn(s[n + 1..], sep)
  }

  lemma PieceLengthOf(t: string, rest: string, sep: char)
    requires forall i :: 0 <= i < |t| ==> t[i] != sep
    requires |rest| == 0 || rest[0] == sep
    ensures PieceLength(t + rest, sep) == |t|
    decreases |t|
  {
    if |t| > 0 {
      assert (t + rest)[1..] == t[1..] + rest;
      PieceLengthOf(t[1..], rest, sep);
    }
  }

  /** Splitting a join on its separator gives the parts back, provided no part
      contains the separator. */
  lemma {:induction false} SplitOnJoin(parts: seq<string>, sep: char)
    requires |parts| > 0
    requires forall k, i :: 0 <= k < |parts| && 0 <= i < |parts[k]| ==> parts[k][i] != sep
    ensures SplitOn(Join(parts, sep), sep) == parts
  {
    var t := parts[0];
    if |parts| == 1 {
      PieceLengthOf(t, "", sep);
      assert t + "" == t;
    } else {
      var rest := [sep] + Join(parts[1..], sep);
      var s := Join(parts, sep);
      assert s == t + rest;
      PieceLengthOf(t, rest, sep);
      assert s[..|t|] == t;
      assert s[|t| + 1..] == Join(parts[1..], sep);
      SplitOnJoin(parts[1..], sep);
    }
  }
}
