/** m3u playlists: is_m3u_playlist, load_m3u and write_m3u of
    kolmogorov.py. A file is its sequence of lines, without the line
    terminators: the files are read in binary mode, so only '\n' ends a
    line, and no line of a file holds one. */
module Playlist {
  import opened Common
  import opened Text
  import opened Paths

  const Marker: string := "#EXTM3U"

  /** load_m3u indexes line[0] of every stripped line, so a blank line
      raises IndexError. */
  datatype LoadError = BlankLine

  /** is_m3u_playlist (kolmogorov.py:88-96): the first line, upper-cased
      and stripped, is the marker; an empty file is not a playlist, and the
      marker is accepted in either case and with white space around it. */
  predicate IsM3UPlaylist(lines: seq<string>): (b: bool)
    ensures lines == [] ==> !b
    ensures b ==> |lines[0]| >= |Marker|
    ensures |lines| > 1 ==> b == IsM3UPlaylist(lines[..1])
  {
    |lines| > 0 && Strip(Upper(lines[0])) == Marker
  }

  /** A non-comment line as load_m3u keeps it: absolute lines as they are,
      relative ones joined onto the playlist's directory. */
  function Resolve(base: string, line: string): (r: string)
    ensures IsAbs(base) || IsAbs(line) ==> IsAbs(r)
  {
    if IsAbs(line) then line else Join(base, line)
  }

  /** What one line contributes to the collected paths. */
  function LineStep(base: string, raw: string): Result<seq<string>, LoadError> {
    var line := Strip(raw);
    if line == [] then Err(BlankLine)
    else if line[0] == '#' then Ok([])
    else Ok([Resolve(base, line)])
  }

  function Combine(a: Result<seq<string>, LoadError>, b: Result<seq<string>, LoadError>): Result<seq<string>, LoadError> {
    if a.Err? then a else if b.Err? then b else Ok(a.value + b.value)
  }

  /** The loop of load_m3u (kolmogorov.py:124-130) on the lines read so
      far. */
  function CollectPaths(base: string, lines: seq<string>): Result<seq<string>, LoadError>
    decreases |lines|
  {
    if lines == [] then Ok([])
    else Combine(CollectPaths(base, lines[..|lines| - 1]), LineStep(base, lines[|lines| - 1]))
  }

  /** The prefix compression of load_m3u (kolmogorov.py:132-136): the
      common prefix cp of all the paths is cut off every path, unless it is
      "" or "/". */
  function StripCommonPrefix(paths: seq<string>): (r: (seq<string>, string))
    ensures r.1 == CommonPrefix(paths)
    ensures |r.0| == |paths|
    ensures forall i :: 0 <= i < |paths| ==> r.1 <= paths[i]
    ensures r.1 != "" && r.1 != "/" ==> forall i :: 0 <= i < |paths| ==> r.1 + r.0[i] == paths[i]
    ensures r.1 == "" || r.1 == "/" ==> r.0 == paths
  {
    var cp := CommonPrefix(paths);
    if cp != "" && cp != "/" then
      (seq(|paths|, i requires 0 <= i < |paths| => paths[i][|cp|..]), cp)
    else
      (paths, cp)
  }

  /** load_m3u on the playlist file called filename whose lines are given:
      the entries and the base path. It fails exactly when some line is
      blank; otherwise it is the reference reading, relative to the
      playlist's directory, with the common prefix cut off. */
  function Load(filename: string, lines: seq<string>): (r: Result<(seq<string>, string), LoadError>)
    ensures r.Err? <==> HasBlankLine(lines)
    ensures r.Ok? ==> r.value == StripCommonPrefix(Collected(Dirname(filename), lines))
  {
    CollectPathsIsReference(Dirname(filename), lines);
    match CollectPaths(Dirname(filename), lines)
    case Err(e) => Err(e)
    case Ok(paths) => Ok(StripCommonPrefix(paths))
  }

  lemma LoadCases(filename: string, lines: seq<string>)
    ensures CollectPaths(Dirname(filename), lines).Err? ==> Load(filename, lines) == Err(BlankLine)
    ensures CollectPaths(Dirname(filename), lines).Ok? ==>
      Load(filename, lines) == Ok(StripCommonPrefix(CollectPaths(Dirname(filename), lines).value))
  {
    var c := CollectPaths(Dirname(filename), lines);
    if c.Err? {
      match c.error
      case BlankLine =>
    }
  }

  /** load_m3u (kolmogorov.py:98-136). */
  method LoadM3U(filename: string, lines: seq<string>) returns (res: Result<(seq<string>, string), LoadError>)
    ensures res == Load(filename, lines)
  {
    var basePath := Dirname(filename);
    var fileList: seq<string> := [];
    var i := 0;
    assert lines[..0] == [];
    while i < |lines|
      invariant 0 <= i <= |lines|
      invariant CollectPaths(basePath, lines[..i]) == Ok(fileList)
    {
      CollectStep(basePath, lines, i);
      var line := Strip(lines[i]);
      if line == [] {
        ErrorPersists(basePath, lines, i + 1);
        LoadCases(filename, lines);
        return Err(BlankLine);
      }
      if line[0] != '#' {
        fileList := fileList + [Resolve(basePath, line)];
      } else {
        assert fileList + [] == fileList;
      }
      i := i + 1;
    }
    assert lines[..i] == lines;
    LoadCases(filename, lines);
    res := Ok(StripCommonPrefix(fileList));
  }

  /** write_m3u (kolmogorov.py:138-149): the marker, then every entry joined
      onto the base path, in order. */
  function WriteM3U(fileList: seq<string>, basePath: string): (lines: seq<string>)
    ensures |lines| == |fileList| + 1 && lines[0] == Marker
    ensures forall i :: 0 <= i < |fileList| ==> lines[i + 1] == Join(basePath, fileList[i])
  {
    var body := Joined(fileList, basePath);
    assert forall i :: 0 <= i < |body| ==> ([Marker] + body)[i + 1] == body[i];
    [Marker] + body
  }

  // ---------------------------------------------------------------------
  // Properties of loading

  lemma {:induction false} CollectConcat(base: string, a: seq<string>, b: seq<string>)
    ensures CollectPaths(base, a + b) == Combine(CollectPaths(base, a), CollectPaths(base, b))
    decreases |b|
  {
    if b == [] {
      assert a + b == a;
      var x := CollectPaths(base, a);
      assert x.Ok? ==> x.value + [] == x.value;
    } else {
      var b' := b[..|b| - 1];
      var step := LineStep(base, b[|b| - 1]);
      assert (a + b)[..|a + b| - 1] == a + b';
      assert (a + b)[|a + b| - 1] == b[|b| - 1];
      assert CollectPaths(base, a + b) == Combine(CollectPaths(base, a + b'), step);
      assert CollectPaths(base, b) == Combine(CollectPaths(base, b'), step);
      CollectConcat(base, a, b');
      CombineAssociative(CollectPaths(base, a), CollectPaths(base, b'), step);
    }
  }

  lemma CombineAssociative(x: Result<seq<string>, LoadError>, y: Result<seq<string>, LoadError>, z: Result<seq<string>, LoadError>)
    ensures Combine(Combine(x, y), z) == Combine(x, Combine(y, z))
  {
    if x.Ok? && y.Ok? && z.Ok? {
      assert x.value + y.value + z.value == x.value + (y.value + z.value);
    }
  }

  lemma CollectStep(base: string, lines: seq<string>, i: nat)
    requires i < |lines|
    ensures CollectPaths(base, lines[..i + 1]) == Combine(CollectPaths(base, lines[..i]), LineStep(base, lines[i]))
  {
    assert lines[..i + 1][..i] == lines[..i];
  }

  lemma ErrorPersists(base: string, lines: seq<string>, k: nat)
    requires k <= |lines|
    requires CollectPaths(base, lines[..k]).Err?
    ensures CollectPaths(base, lines).Err?
  {
    assert lines == lines[..k] + lines[k..];
    CollectConcat(base, lines[..k], lines[k..]);
  }

  predicate HasBlankLine(lines: seq<string>) {
    exists i :: 0 <= i < |lines| && Strip(lines[i]) == []
  }

  /** Reference reading of a playlist, line by line from the first: skip
      every line starting with '#', resolve the others. */
  function Collected(base: string, lines: seq<string>): seq<string> {
    if lines == [] then []
    else
      var line := Strip(lines[0]);
      (if line != [] && line[0] != '#' then [Resolve(base, line)] else []) + Collected(base, lines[1..])
  }

  lemma CollectSingle(base: string, line: string)
    ensures CollectPaths(base, [line]) == LineStep(base, line)
  {
    assert [line][..0] == [];
    var step := LineStep(base, line);
    assert step.Ok? ==> [] + step.value == step.value;
  }

  /** The loop of load_m3u fails exactly when some line is blank, and
      otherwise collects the reference reading: every '#' line (the marker
      included) is skipped and every relative line is joined onto the
      playlist's directory. */
  lemma {:induction false} CollectPathsIsReference(base: string, lines: seq<string>)
    ensures CollectPaths(base, lines) == if HasBlankLine(lines) then Err(BlankLine) else Ok(Collected(base, lines))
    decreases |lines|
  {
    if lines != [] {
      var rest := lines[1..];
      assert lines == [lines[0]] + rest;
      CollectConcat(base, [lines[0]], rest);
      CollectSingle(base, lines[0]);
      CollectPathsIsReference(base, rest);
      var line := Strip(lines[0]);
      if line == [] {
        assert HasBlankLine(lines);
      } else {
        assert HasBlankLine(lines) == HasBlankLine(rest) by {
          if HasBlankLine(lines) {
            var i :| 0 <= i < |lines| && Strip(lines[i]) == [];
            assert i > 0 && Strip(rest[i - 1]) == [];
          }
          if HasBlankLine(rest) {
            var i :| 0 <= i < |rest| && Strip(rest[i]) == [];
            assert Strip(lines[i + 1]) == [];
          }
        }
        var head := if line[0] != '#' then [Resolve(base, line)] else [];
        assert LineStep(base, lines[0]) == Ok(head);
        assert Collected(base, lines) == head + Collected(base, rest);
      }
    }
  }

  /** Comment lines, the marker among them, change nothing wherever they
      stand: load_m3u never checks the marker. */
  lemma LoadSkipsComment(filename: string, pre: seq<string>, comment: string, post: seq<string>)
    requires Strip(comment) != [] && Strip(comment)[0] == '#'
    ensures Load(filename, pre + [comment] + post) == Load(filename, pre + post)
  {
    var base := Dirname(filename);
    CollectConcat(base, pre + [comment], post);
    CollectConcat(base, pre, [comment]);
    CollectConcat(base, pre, post);
    CollectSingle(base, comment);
    assert LineStep(base, comment) == Ok([]);
    var x := CollectPaths(base, pre);
    assert x.Ok? ==> x.value + [] == x.value;
    assert CollectPaths(base, pre + [comment]) == x;
    assert CollectPaths(base, pre + [comment] + post) == CollectPaths(base, pre + post);
    LoadCases(filename, pre + [comment] + post);
    LoadCases(filename, pre + post);
  }

  /** A playlist stored at an absolute path yields absolute paths only. */
  lemma {:induction false} CollectedAbsolute(base: string, lines: seq<string>)
    requires IsAbs(base)
    ensures forall i :: 0 <= i < |Collected(base, lines)| ==> IsAbs(Collected(base, lines)[i])
    decreases |lines|
  {
    if lines != [] {
      CollectedAbsolute(base, lines[1..]);
    }
  }

  // ---------------------------------------------------------------------
  // The base path returned by load_m3u

  /** The docstring's promise that os.path.join(base_path, entry) gives back
      the full path holds when the common prefix is "" or ends in '/' (and
      the entry left over is relative), and when it is "/" (the entries are
      then the full absolute paths). */
  lemma JoinRestores(paths: seq<string>, i: nat)
    requires i < |paths|
    requires var cp := StripCommonPrefix(paths).1;
      cp == "" || cp == "/" || (EndsWithSlash(cp) && !IsAbs(StripCommonPrefix(paths).0[i]))
    ensures Join(StripCommonPrefix(paths).1, StripCommonPrefix(paths).0[i]) == paths[i]
  {
  }

  /** A one-entry playlist is stripped to an empty entry, and joining it
      back adds a '/' that was not there. */
  lemma SingleEntryLosesName(p: string)
    requires p != "" && p != "/" && !EndsWithSlash(p)
    ensures StripCommonPrefix([p]) == ([""], p)
    ensures Join(StripCommonPrefix([p]).1, StripCommonPrefix([p]).0[0]) == p + "/" != p
  {
    assert p[|p|..] == "";
    assert StripCommonPrefix([p]).0 == [""];
  }

  /** The common prefix of /music1/x and /music2/y stops inside the
      directory name. */
  lemma MidSegmentPrefix()
    ensures CommonPrefix(["/music1/x", "/music2/y"]) == "/music"
  {
    var a, b := "/music1/x", "/music2/y";
    assert [a, b][..1] == [a];
    var cp := Lcp(a, b);
    assert CommonPrefix([a, b]) == cp;
    LcpLongest(a, b, "/music");
    assert a[6] != b[6];
  }

  /** The common prefix is cut character by character: it can end inside a
      directory name, and joining the base path back then inserts a '/'. */
  lemma MidSegmentCut()
    ensures StripCommonPrefix(["/music1/x", "/music2/y"]) == (["1/x", "2/y"], "/music")
    ensures Join("/music", "1/x") == "/music/1/x"
  {
    var m := ["/music1/x", "/music2/y"];
    MidSegmentPrefix();
    var r := StripCommonPrefix(m);
    assert r.0[0] == m[0][6..] == "1/x";
    assert r.0[1] == m[1][6..] == "2/y";
    assert r.0 == ["1/x", "2/y"];
  }

  // ---------------------------------------------------------------------
  // Writing then loading

  lemma WrittenIsPlaylist(fileList: seq<string>, basePath: string)
    ensures IsM3UPlaylist(WriteM3U(fileList, basePath))
  {
    var u := Upper(Marker);
    assert u == Marker;
  }

  function Joined(fileList: seq<string>, basePath: string): (r: seq<string>)
    ensures |r| == |fileList|
    ensures forall i :: 0 <= i < |fileList| ==> r[i] == Join(basePath, fileList[i])
  {
    seq(|fileList|, i requires 0 <= i < |fileList| => Join(basePath, fileList[i]))
  }

  /** A written entry survives reading: it is absolute, so it is neither
      blank, nor a comment, nor resolved again, it has no trailing white
      space for strip to remove, and it holds no '\n' that would make it
      two lines. */
  predicate Storable(path: string) {
    IsAbs(path) && !IsSpace(path[|path| - 1]) && '\n' !in path
  }

  lemma {:induction false} CollectedStorable(base: string, lines: seq<string>)
    requires forall i :: 0 <= i < |lines| ==> Storable(lines[i])
    ensures !HasBlankLine(lines) && Collected(base, lines) == lines
    decreases |lines|
  {
    if lines != [] {
      CollectedStorable(base, lines[1..]);
      assert Strip(lines[0]) == lines[0];
      assert lines == [lines[0]] + lines[1..];
    }
  }

  /** The written paths are read back as they are. */
  lemma CollectJoined(base: string, fileList: seq<string>, basePath: string)
    requires forall i :: 0 <= i < |fileList| ==> Storable(Join(basePath, fileList[i]))
    ensures CollectPaths(base, Joined(fileList, basePath)) == Ok(Joined(fileList, basePath))
  {
    var body := Joined(fileList, basePath);
    CollectedStorable(base, body);
    CollectPathsIsReference(base, body);
  }

  /** A marker line in front changes nothing in what is read. */
  lemma CollectAfterMarker(base: string, body: seq<string>)
    ensures CollectPaths(base, [Marker] + body) == CollectPaths(base, body)
  {
    CollectConcat(base, [Marker], body);
    MarkerIsComment(base);
    CollectSingle(base, Marker);
    if CollectPaths(base, body).Ok? {
      assert [] + CollectPaths(base, body).value == CollectPaths(base, body).value;
    }
  }

  /** Reading what write_m3u wrote collects exactly the written paths: the
      marker is skipped and every written path is kept as it is. */
  lemma CollectWritten(base: string, fileList: seq<string>, basePath: string)
    requires forall i :: 0 <= i < |fileList| ==> Storable(Join(basePath, fileList[i]))
    ensures CollectPaths(base, WriteM3U(fileList, basePath)) == Ok(Joined(fileList, basePath))
  {
    var body := Joined(fileList, basePath);
    assert WriteM3U(fileList, basePath) == [Marker] + body;
    CollectAfterMarker(base, body);
    CollectJoined(base, fileList, basePath);
  }

  /** The marker line is read as a comment. */
  lemma MarkerIsComment(base: string)
    ensures LineStep(base, Marker) == Ok([])
  {
    assert !IsSpace(Marker[0]) && !IsSpace(Marker[|Marker| - 1]);
  }

  /** Round trip of write_m3u and load_m3u: loading what was written gives
      as many entries as were written, and each entry with the base path
      found in front of it (or alone, when that base path is "/") is the
      path that was written for it. */
  lemma WriteThenLoad(filename: string, fileList: seq<string>, basePath: string)
    requires forall i :: 0 <= i < |fileList| ==> Storable(Join(basePath, fileList[i]))
    ensures Load(filename, WriteM3U(fileList, basePath)).Ok?
    ensures var (entries, cp) := Load(filename, WriteM3U(fileList, basePath)).value;
      && |entries| == |fileList|
      && forall i :: 0 <= i < |fileList| ==>
           (cp == "/" ==> entries[i] == Join(basePath, fileList[i])) &&
           (cp != "/" ==> cp + entries[i] == Join(basePath, fileList[i]))
  {
    LoadWritten(filename, fileList, basePath);
    StripJoined(fileList, basePath);
  }

  /** Loading what was written gives the written paths with their common
      prefix cut off. */
  lemma LoadWritten(filename: string, fileList: seq<string>, basePath: string)
    requires forall i :: 0 <= i < |fileList| ==> Storable(Join(basePath, fileList[i]))
    ensures Load(filename, WriteM3U(fileList, basePath)) == Ok(StripCommonPrefix(Joined(fileList, basePath)))
  {
    CollectWritten(Dirname(filename), fileList, basePath);
    LoadCases(filename, WriteM3U(fileList, basePath));
  }

  /** Cutting the common prefix off the written paths keeps one entry per
      path, and the prefix in front of each entry (nothing, when the prefix
      is "/") gives the path back. */
  lemma StripJoined(fileList: seq<string>, basePath: string)
    ensures var (entries, cp) := StripCommonPrefix(Joined(fileList, basePath));
      && |entries| == |fileList|
      && forall i :: 0 <= i < |fileList| ==>
           (cp == "/" ==> entries[i] == Join(basePath, fileList[i])) &&
           (cp != "/" ==> cp + entries[i] == Join(basePath, fileList[i]))
  {
  }
}
