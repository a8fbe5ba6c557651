/** String primitives that the address helpers of the page rely on: JavaScript's
    `String.prototype.trim` and the case-insensitive scheme test `/^https?:\/\//i`. */
module Text {

  /** The code points `trim` removes: ECMAScript WhiteSpace (tab, vertical tab,
      form feed, space, no-break space, byte-order mark and the Unicode space
      separators) and LineTerminator (line feed, carriage return, the line and
      paragraph separators). */
  predicate IsJsSpace(c: char) {
    c == ' ' || c == '\t' || c == '\n' || c == '\r' || c == '\U{000B}' || c == '\U{000C}'
    || c == '\U{00A0}' || c == '\U{1680}' || ('\U{2000}' <= c <= '\U{200A}')
    || c == '\U{2028}' || c == '\U{2029}' || c == '\U{202F}' || c == '\U{205F}'
    || c == '\U{3000}' || c == '\U{FEFF}'
  }

  predicate AllSpace(s: string) {
    forall i :: 0 <= i < |s| ==> IsJsSpace(s[i])
  }

  /** A string `trim` leaves alone: empty, or with a non-space at both ends. */
  predicate IsTrimmed(s: string) {
    s == [] || (!IsJsSpace(s[0]) && !IsJsSpace(s[|s| - 1]))
  }

  /** `s` without its leading white space: a suffix of `s`, everything cut off is
      white space and what is left does not start with it. */
  function TrimStart(s: string): (r: string)
    ensures |r| <= |s| && r == s[|s| - |r|..]
    ensures forall i :: 0 <= i < |s| - |r| ==> IsJsSpace(s[i])
    ensures r == [] || !IsJsSpace(r[0])
    decreases |s|
  {
    if s != [] && IsJsSpace(s[0]) then TrimStart(s[1..]) else s
  }

  /** `s` without its trailing white space: a prefix of `s`, everything cut off is
      white space and what is left does not end with it. */
  function TrimEnd(s: string): (r: string)
    ensures |r| <= |s| && r == s[..|r|]
    ensures forall i :: |r| <= i < |s| ==> IsJsSpace(s[i])
    ensures r == [] || !IsJsSpace(r[|r| - 1])
    decreases |s|
  {
    if s != [] && IsJsSpace(s[|s| - 1]) then TrimEnd(s[..|s| - 1]) else s
  }

  /** JavaScript's `s.trim()`: `s` without its leading and trailing white space. */
  function Trim(s: string): (r: string)
    ensures |r| <= |s| && IsTrimmed(r)
  {
    TrimEnd(TrimStart(s))
  }

  /** What `trim` keeps is one slice of its input, and everything it drops on
      either side is white space. */
  lemma TrimIsSlice(s: string) returns (lo: nat)
    ensures lo + |Trim(s)| <= |s|
    ensures forall i :: 0 <= i < |Trim(s)| ==> Trim(s)[i] == s[lo + i]
    ensures forall i :: 0 <= i < lo ==> IsJsSpace(s[i])
    ensures forall i :: lo + |Trim(s)| <= i < |s| ==> IsJsSpace(s[i])
  {
    var front := TrimStart(s);
    lo := |s| - |front|;
    SliceOfSlice(s, front, TrimEnd(front));
  }

  /** A prefix `r` of a suffix `front` of `s`, with white space cut off both
      ends, is a slice of `s` with only white space around it. */
  lemma SliceOfSlice(s: string, front: string, r: string)
    requires |front| <= |s| && front == s[|s| - |front|..]
    requires forall i :: 0 <= i < |s| - |front| ==> IsJsSpace(s[i])
    requires |r| <= |front| && r == front[..|r|]
    requires forall i :: |r| <= i < |front| ==> IsJsSpace(front[i])
    ensures var lo := |s| - |front|;
            (forall i :: 0 <= i < |r| ==> r[i] == s[lo + i])
            && (forall i :: lo + |r| <= i < |s| ==> IsJsSpace(s[i]))
  {
    var lo := |s| - |front|;
    forall i | 0 <= i < |r|
      ensures r[i] == s[lo + i]
    {
      assert r[i] == front[i];
    }
    forall i | lo + |r| <= i < |s|
      ensures IsJsSpace(s[i])
    {
      assert s[i] == front[i - lo];
    }
  }

  /** `trim` leaves an already trimmed string unchanged. */
  lemma TrimTrimmed(s: string)
    requires IsTrimmed(s)
    ensures Trim(s) == s
  {
  }

  /** `trim` yields the empty string exactly when the input is all white space
      (the empty string included). */
  lemma TrimEmptyIff(s: string)
    ensures Trim(s) == [] <==> AllSpace(s)
  {
    var lo := TrimIsSlice(s);
  }

  /** `trim` is idempotent. */
  lemma TrimIdempotent(s: string)
    ensures Trim(Trim(s)) == Trim(s)
  {
    TrimTrimmed(Trim(s));
  }

  /** ASCII lower-casing of one character; every other character is kept. */
  function LowerAscii(c: char): char
  {
    if 'A' <= c <= 'Z' then (c as int + 32) as char else c
  }

  /** `s` starts with the lower-case ASCII string `p`, ignoring ASCII case in `s`
      (the `i` flag of a JavaScript regular expression without the `u` flag
      folds only ASCII letters onto the pattern's ASCII letters). */
  predicate StartsWithIgnoringCase(s: string, p: string) {
    |p| <= |s| && forall i :: 0 <= i < |p| ==> LowerAscii(s[i]) == p[i]
  }

  /** The test `/^https?:\/\//i`. */
  predicate HasHttpScheme(s: string) {
    StartsWithIgnoringCase(s, "http://") || StartsWithIgnoringCase(s, "https://")
  }
}
