/** Character-level helpers of kolmogorov.py: the ASCII case mapping of
    Python 2's str.lower/str.upper on byte strings, str.strip, and
    sanitize_string. */
module Text {

  /** The characters str.strip() removes: space, \t, \n, \v, \f and \r. */
  predicate IsSpace(c: char) {
    c == ' ' || 9 <= c as int <= 13
  }

  function LowerChar(c: char): char {
    if 'A' <= c <= 'Z' then (c as int + 32) as char else c
  }

  function UpperChar(c: char): char {
    if 'a' <= c <= 'z' then (c as int - 32) as char else c
  }

  function Lower(s: string): (r: string)
    ensures |r| == |s|
    ensures forall i :: 0 <= i < |s| ==> r[i] == LowerChar(s[i])
  {
    seq(|s|, i requires 0 <= i < |s| => LowerChar(s[i]))
  }

  function Upper(s: string): (r: string)
    ensures |r| == |s|
    ensures forall i :: 0 <= i < |s| ==> r[i] == UpperChar(s[i])
  {
    seq(|s|, i requires 0 <= i < |s| => UpperChar(s[i]))
  }

  /** Number of leading white-space characters. */
  function LeadingSpaces(s: string): (k: nat)
    ensures k <= |s|
    ensures forall i :: 0 <= i < k ==> IsSpace(s[i])
    ensures k < |s| ==> !IsSpace(s[k])
  {
    if s == [] || !IsSpace(s[0]) then 0 else 1 + LeadingSpaces(s[1..])
  }

  /** Number of trailing white-space characters. */
  function TrailingSpaces(s: string): (k: nat)
    ensures k <= |s|
    ensures forall i :: |s| - k <= i < |s| ==> IsSpace(s[i])
    ensures k < |s| ==> !IsSpace(s[|s| - 1 - k])
  {
    if s == [] || !IsSpace(s[|s| - 1]) then 0 else 1 + TrailingSpaces(s[..|s| - 1])
  }

  /** Python's str.strip(): the string without its leading and trailing
      white space, that is, a slice of s whose cut-off ends are all white
      space and which neither starts nor ends with white space. It is empty
      exactly when the input is all white space, and it leaves a string
      that neither starts nor ends with white space untouched. */
  function Strip(s: string): (r: string)
    ensures exists i, j ::
              && 0 <= i <= j <= |s| && r == s[i..j]
              && (forall k :: 0 <= k < i ==> IsSpace(s[k]))
              && (forall k :: j <= k < |s| ==> IsSpace(s[k]))
    ensures r == [] || (!IsSpace(r[0]) && !IsSpace(r[|r| - 1]))
    ensures r == [] <==> forall i :: 0 <= i < |s| ==> IsSpace(s[i])
    ensures |s| > 0 && !IsSpace(s[0]) && !IsSpace(s[|s| - 1]) ==> r == s
    ensures |r| <= |s|
  {
    var a := LeadingSpaces(s);
    var t := s[a..];
    var b := TrailingSpaces(t);
    assert t[..|t| - b] == s[a..a + |t| - b];
    t[..|t| - b]
  }

  /** sanitize_string as a specification: the characters of s whose code is
      below 128, in their original order. */
  function AsciiOnly(s: string): (r: string)
    ensures |r| <= |s|
    ensures forall i :: 0 <= i < |r| ==> r[i] as int < 128
  {
    if s == [] then []
    else
      var last := s[|s| - 1];
      AsciiOnly(s[..|s| - 1]) + (if last as int < 128 then [last] else [])
  }

  /** sanitize_string (kolmogorov.py:232-238): keeps every character whose
      code is below 128. */
  method SanitizeString(s: string) returns (r: string)
    ensures r == AsciiOnly(s)
    ensures forall i :: 0 <= i < |r| ==> r[i] as int < 128
  {
    r := "";
    var i := 0;
    while i < |s|
      invariant 0 <= i <= |s|
      invariant r == AsciiOnly(s[..i])
    {
      assert s[..i + 1][..i] == s[..i];
      if s[i] as int < 128 {
        r := r + [s[i]];
      }
      i := i + 1;
    }
    assert s[..i] == s;
  }

  /** Removing the non-ASCII characters distributes over concatenation, so
      the order of the kept characters is the original order. */
  lemma {:induction false} AsciiOnlyConcat(a: string, b: string)
    ensures AsciiOnly(a + b) == AsciiOnly(a) + AsciiOnly(b)
    decreases |b|
  {
    if b != [] {
      var b' := b[..|b| - 1];
      assert (a + b)[..|a + b| - 1] == a + b';
      AsciiOnlyConcat(a, b');
    } else {
      assert a + b == a;
    }
  }

  /** A string made only of ASCII characters is left as it is. */
  lemma {:induction false} AsciiOnlyKeepsAscii(s: string)
    requires forall i :: 0 <= i < |s| ==> s[i] as int < 128
    ensures AsciiOnly(s) == s
  {
    if s != [] {
      AsciiOnlyKeepsAscii(s[..|s| - 1]);
    }
  }

  /** Sanitizing twice is the same as sanitizing once. */
  lemma AsciiOnlyIdempotent(s: string)
    ensures AsciiOnly(AsciiOnly(s)) == AsciiOnly(s)
  {
    AsciiOnlyKeepsAscii(AsciiOnly(s));
  }

  /** Every character with code 128 or more is dropped, 128 included. */
  lemma {:induction false} AsciiOnlyDropsHigh(s: string)
    requires forall i :: 0 <= i < |s| ==> s[i] as int >= 128
    ensures AsciiOnly(s) == []
  {
    if s != [] {
      AsciiOnlyDropsHigh(s[..|s| - 1]);
    }
  }
}
