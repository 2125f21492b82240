/** select_and_update_tag_list (kolmogorov.py:301-332): the lazy cache of
    tag labels. The mutagen part of build_label_from_tag is the parameter
    `rawLabel`; the label it returns is passed through sanitize_string
    (kolmogorov.py:403). */
module Tags {
  import opened Common
  import opened Text
  import opened Paths

  /** The label build_label_from_tag returns for a path and a width. */
  function Label(rawLabel: (string, int) -> string, path: string, cols: int): (r: string)
    ensures forall i :: 0 <= i < |r| ==> r[i] as int < 128
  {
    AsciiOnly(rawLabel(path, cols))
  }

  /** The end of the window: min(text_index + n_of_lines, len(file_list)). */
  function WindowEnd(textIndex: nat, n: int, count: nat): int {
    Min(textIndex + n, count)
  }

  /** The cache after the window [lo, hi) has been filled: every empty slot
      in the window holds the label of its file, joined onto baseDir; every
      other slot is as it was. */
  function Filled(files: seq<string>, tags: seq<Option<string>>, lo: nat, hi: int, baseDir: string,
                  cols: int, rawLabel: (string, int) -> string): (r: seq<Option<string>>)
    requires hi <= |files| && hi <= |tags|
    ensures |r| == |tags|
    ensures forall i :: lo <= i < hi ==> r[i].Some?
    ensures forall i :: lo <= i < hi && tags[i].None? ==> r[i] == Some(Label(rawLabel, Join(baseDir, files[i]), cols))
    ensures forall i :: 0 <= i < |tags| && (tags[i].Some? || i < lo || hi <= i) ==> r[i] == tags[i]
  {
    seq(|tags|, i requires 0 <= i < |tags| =>
      if lo <= i < hi && tags[i].None? then Some(Label(rawLabel, Join(baseDir, files[i]), cols)) else tags[i])
  }

  /** select_and_update_tag_list (kolmogorov.py:329-331), filling the cache
      in place. */
  method SelectAndUpdateTagList(files: seq<string>, tags: array<Option<string>>, textIndex: nat, n: int,
                                baseDir: string, cols: int, rawLabel: (string, int) -> string)
    requires WindowEnd(textIndex, n, |files|) <= tags.Length
    modifies tags
    ensures tags[..] == Filled(files, old(tags[..]), textIndex, WindowEnd(textIndex, n, |files|), baseDir, cols, rawLabel)
  {
    var hi := WindowEnd(textIndex, n, |files|);
    ghost var before := tags[..];
    var i := textIndex;
    while i < hi
      invariant textIndex <= i && (i <= hi || i == textIndex)
      invariant tags[..] == Filled(files, before, textIndex, Min(i, hi), baseDir, cols, rawLabel)
    {
      FillStep(files, before, textIndex, i, baseDir, cols, rawLabel);
      if tags[i].None? {
        tags[i] := Some(Label(rawLabel, Join(baseDir, files[i]), cols));
      }
      i := i + 1;
    }
  }

  /** Filling one more slot of the window. */
  lemma FillStep(files: seq<string>, tags: seq<Option<string>>, lo: nat, i: nat, baseDir: string,
                 cols: int, rawLabel: (string, int) -> string)
    requires lo <= i < |files| && i < |tags|
    ensures var r := Filled(files, tags, lo, i, baseDir, cols, rawLabel);
      && r[i] == tags[i]
      && Filled(files, tags, lo, i + 1, baseDir, cols, rawLabel)
         == r[i := if tags[i].None? then Some(Label(rawLabel, Join(baseDir, files[i]), cols)) else tags[i]]
  {
  }

  /** Filling a window twice is filling it once: labels already in the
      cache are never rebuilt. */
  lemma FillIdempotent(files: seq<string>, tags: seq<Option<string>>, lo: nat, hi: int, baseDir: string,
                       cols: int, rawLabel: (string, int) -> string)
    requires hi <= |files| && hi <= |tags|
    ensures var once := Filled(files, tags, lo, hi, baseDir, cols, rawLabel);
      Filled(files, once, lo, hi, baseDir, cols, rawLabel) == once
  {
  }

  /** Filling the window [lo, hi) and then [lo', hi') leaves every slot of
      both windows holding a label, and what the first fill stored is kept. */
  lemma FillScrolled(files: seq<string>, tags: seq<Option<string>>, lo: nat, hi: int, lo': nat, hi': int,
                     baseDir: string, cols: int, rawLabel: (string, int) -> string)
    requires hi <= |files| && hi <= |tags| && hi' <= |files| && hi' <= |tags|
    ensures var once := Filled(files, tags, lo, hi, baseDir, cols, rawLabel);
      var twice := Filled(files, once, lo', hi', baseDir, cols, rawLabel);
      && (forall i :: (lo <= i < hi || lo' <= i < hi') ==> twice[i].Some?)
      && (forall i :: lo <= i < hi ==> twice[i] == once[i])
  {
  }
}
