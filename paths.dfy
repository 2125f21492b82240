/** The parts of Python 2's posixpath that kolmogorov.py relies on, as
    functions on strings with '/' as the only separator: isabs, join (two
    arguments), dirname, splitext and commonprefix. */
module Paths {
  import opened Text

  /** os.path.isabs: the path starts with '/'. */
  predicate IsAbs(p: string) {
    |p| > 0 && p[0] == '/'
  }

  predicate EndsWithSlash(p: string) {
    |p| > 0 && p[|p| - 1] == '/'
  }

  /** os.path.join(a, b): an absolute b replaces a; otherwise b is appended
      to a, with a '/' in between unless a is empty or already ends in '/'. */
  function Join(a: string, b: string): (r: string)
    ensures IsAbs(b) ==> r == b
    ensures !IsAbs(b) ==> a <= r && |b| <= |r| && r[|r| - |b|..] == b
    ensures !IsAbs(b) && (a == "" || EndsWithSlash(a)) ==> r == a + b
    ensures !IsAbs(b) && a != "" && !EndsWithSlash(a) ==> r == a + "/" + b
    ensures IsAbs(a) ==> IsAbs(r)
  {
    if IsAbs(b) then b
    else if a == "" || EndsWithSlash(a) then a + b
    else a + "/" + b
  }

  /** str.rfind(c): the index of the last occurrence of c, or -1. */
  function RFind(s: string, c: char): (r: int)
    ensures -1 <= r < |s|
    ensures r >= 0 ==> s[r] == c
    ensures forall k :: r < k < |s| ==> s[k] != c
  {
    if s == [] then -1
    else if s[|s| - 1] == c then |s| - 1
    else RFind(s[..|s| - 1], c)
  }

  predicate AllSlashes(s: string) {
    forall i :: 0 <= i < |s| ==> s[i] == '/'
  }

  /** str.rstrip('/') */
  function RStripSlashes(s: string): (r: string)
    ensures r <= s
    ensures r == [] || r[|r| - 1] != '/'
    ensures forall i :: |r| <= i < |s| ==> s[i] == '/'
  {
    if s == [] || s[|s| - 1] != '/' then s else RStripSlashes(s[..|s| - 1])
  }

  /** os.path.dirname: everything up to the last '/', with trailing slashes
      removed unless the head consists of slashes only. The result is a
      prefix of the path, and the directory of an absolute path is
      absolute. */
  function Dirname(p: string): (r: string)
    ensures var head := p[..RFind(p, '/') + 1];
      && (AllSlashes(head) ==> r == head)
      && (!AllSlashes(head) ==> r <= head && r != [] && r[|r| - 1] != '/' && AllSlashes(head[|r|..]))
    ensures r <= p
    ensures IsAbs(p) ==> IsAbs(r)
    ensures RFind(p, '/') == -1 ==> r == ""
  {
    var head := p[..RFind(p, '/') + 1];
    if head != [] && !AllSlashes(head) then
      var r := RStripSlashes(head);
      r
    else head
  }

  /** Longest common prefix of two strings. */
  function Lcp(a: string, b: string): (r: string)
    ensures r <= a && r <= b
    ensures |r| == |a| || |r| == |b| || a[|r|] != b[|r|]
  {
    if a == [] || b == [] || a[0] != b[0] then []
    else [a[0]] + Lcp(a[1..], b[1..])
  }

  /** os.path.commonprefix: the longest common prefix of all the strings,
      computed character by character, so it may end inside a directory
      name. The empty list gives "". */
  function CommonPrefix(m: seq<string>): (r: string)
    ensures forall i :: 0 <= i < |m| ==> r <= m[i]
  {
    if |m| == 0 then ""
    else if |m| == 1 then m[0]
    else Lcp(CommonPrefix(m[..|m| - 1]), m[|m| - 1])
  }

  lemma {:induction false} LcpLongest(a: string, b: string, q: string)
    requires q <= a && q <= b
    ensures q <= Lcp(a, b)
  {
    if q != [] {
      LcpLongest(a[1..], b[1..], q[1..]);
    }
  }

  /** Nothing longer than CommonPrefix is a prefix of every string of a
      non-empty list. */
  lemma {:induction false} CommonPrefixLongest(m: seq<string>, q: string)
    requires |m| > 0
    requires forall i :: 0 <= i < |m| ==> q <= m[i]
    ensures q <= CommonPrefix(m)
  {
    if |m| > 1 {
      CommonPrefixLongest(m[..|m| - 1], q);
      LcpLongest(CommonPrefix(m[..|m| - 1]), m[|m| - 1], q);
    }
  }

  /** os.path.splitext: splits at the last '.' of the last path component,
      unless that component consists of dots up to there (a leading-dot
      name such as ".bashrc" has no extension). The two parts make up the
      path again, and the extension is empty or a '.' followed by neither
      '.' nor '/'. */
  function SplitExt(p: string): (r: (string, string))
    ensures r.0 + r.1 == p
    ensures r.1 != [] <==>
              && RFind(p, '.') > RFind(p, '/')
              && exists k :: RFind(p, '/') + 1 <= k < RFind(p, '.') && p[k] != '.'
    ensures r.1 != [] ==> |r.0| == RFind(p, '.')
    ensures r.1 == [] || (r.1[0] == '.' && forall i :: 1 <= i < |r.1| ==> r.1[i] != '.' && r.1[i] != '/')
  {
    var sepIndex := RFind(p, '/');
    var dotIndex := RFind(p, '.');
    if dotIndex > sepIndex && exists k :: sepIndex + 1 <= k < dotIndex && p[k] != '.' then
      (p[..dotIndex], p[dotIndex..])
    else
      (p, [])
  }

  lemma {:induction false} RFindLower(p: string, c: char)
    requires !('A' <= c <= 'Z') && !('a' <= c <= 'z')
    ensures RFind(Lower(p), c) == RFind(p, c)
    decreases |p|
  {
    if p != [] {
      assert Lower(p)[..|p| - 1] == Lower(p[..|p| - 1]);
      RFindLower(p[..|p| - 1], c);
    }
  }

  /** Lower-casing a path keeps its dots where they are. */
  lemma LowerKeepsDots(p: string, lo: int, hi: int)
    requires 0 <= lo && hi <= |p|
    ensures (exists k :: lo <= k < hi && p[k] != '.') <==> (exists k :: lo <= k < hi && Lower(p)[k] != '.')
  {
    var q := Lower(p);
    if exists k :: lo <= k < hi && p[k] != '.' {
      var k :| lo <= k < hi && p[k] != '.';
      assert q[k] != '.';
    }
    if exists k :: lo <= k < hi && q[k] != '.' {
      var k :| lo <= k < hi && q[k] != '.';
      assert p[k] != '.';
    }
  }

  /** Lower-casing commutes with taking a suffix. */
  lemma LowerSuffix(p: string, i: nat)
    requires i <= |p|
    ensures Lower(p)[i..] == Lower(p[i..])
  {
  }

  /** Lower-casing a path before splitting it (as play_thread does) gives
      the lower-cased extension. */
  lemma SplitExtLower(p: string)
    ensures SplitExt(Lower(p)).1 == Lower(SplitExt(p).1)
  {
    RFindLower(p, '/');
    RFindLower(p, '.');
    var sepIndex := RFind(p, '/');
    var dotIndex := RFind(p, '.');
    if dotIndex > sepIndex {
      LowerKeepsDots(p, sepIndex + 1, dotIndex);
      LowerSuffix(p, dotIndex);
    }
  }
}
