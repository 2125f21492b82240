/** The display state of main (kolmogorov.py:544-546) and the key handlers
    that move the viewport, fill the tag cache, toggle tag mode and sort
    (kolmogorov.py:558-564, 583-641, 698-738). `rows` is curses.LINES - 2,
    the number of list lines on screen; `tot` is the length of the list. */
module Display {
  import opened Common
  import opened Text
  import opened Paths
  import opened Sorting
  import opened Tags

  /** current_text_line (the list index of the top screen line) and
      current_cursor_line (the screen line of the cursor). */
  datatype View = View(text: int, cursor: int)

  /** The list index under the cursor. */
  function Row(v: View): int {
    v.text + v.cursor
  }

  /** The cursor is on a screen line that shows an entry, and the list is
      scrolled no further than a full last page. */
  predicate ViewOk(v: View, rows: int, tot: int) {
    && 0 <= v.cursor < Min(rows, tot)
    && v.text >= 0
    && (v.text == 0 || v.text + rows <= tot)
  }

  lemma RowInList(v: View, rows: int, tot: int)
    requires ViewOk(v, rows, tot)
    ensures 0 <= Row(v) < tot
  {
  }

  /** KEY_DOWN / j (kolmogorov.py:583-591). */
  function KeyDown(v: View, rows: int, tot: int): (r: View)
    requires ViewOk(v, rows, tot)
    ensures ViewOk(r, rows, tot)
    ensures Row(r) == if Row(v) + 1 < tot then Row(v) + 1 else Row(v)
    ensures Row(v) + 1 >= tot ==> Row(v) == tot - 1
  {
    if v.cursor + 1 < Min(rows, tot) then View(v.text, v.cursor + 1)
    else if v.text + v.cursor + 1 < tot then View(v.text + 1, v.cursor)
    else v
  }

  /** KEY_UP / k (kolmogorov.py:593-601). */
  function KeyUp(v: View, rows: int, tot: int): (r: View)
    requires ViewOk(v, rows, tot)
    ensures ViewOk(r, rows, tot)
    ensures Row(r) == if Row(v) > 0 then Row(v) - 1 else 0
  {
    if v.cursor > 0 then View(v.text, v.cursor - 1)
    else if v.text > 0 then View(v.text - 1, v.cursor)
    else v
  }

  /** KEY_NPAGE (kolmogorov.py:603-618): the list scrolls by rows - 2 lines
      with the cursor on the top line, or the cursor goes to the last entry. */
  function KeyPageDown(v: View, rows: int, tot: int): (r: View)
    requires rows >= 2 && ViewOk(v, rows, tot)
    ensures ViewOk(r, rows, tot)
    ensures r.text >= v.text
    ensures (r.cursor == 0 && r.text == v.text + rows - 2) || Row(r) == tot - 1
  {
    var step := rows - 2;
    if v.text + step + rows < tot then View(v.text + step, 0)
    else if tot > rows then View(tot - rows, rows - 1)
    else View(v.text, tot - 1)
  }

  /** KEY_PPAGE (kolmogorov.py:620-629): the list scrolls back by rows - 2
      lines, not past the top, and the cursor goes to the top line. */
  function KeyPageUp(v: View, rows: int, tot: int): (r: View)
    requires rows >= 2 && ViewOk(v, rows, tot)
    ensures ViewOk(r, rows, tot)
    ensures r.cursor == 0 && r.text <= v.text
    ensures r.text == 0 || r.text == v.text - (rows - 2)
  {
    var step := rows - 2;
    if v.text - step > 0 then View(v.text - step, 0) else View(0, 0)
  }

  /** KEY_END (kolmogorov.py:631-635): the cursor goes to the last entry. */
  function KeyEnd(rows: int, tot: int): (r: View)
    requires rows >= 1 && tot >= 1
    ensures ViewOk(r, rows, tot)
    ensures Row(r) == tot - 1
  {
    View(Max(tot, rows) - rows, Min(tot, rows) - 1)
  }

  /** KEY_HOME (kolmogorov.py:637-641): the cursor goes to the first entry. */
  function KeyHome(rows: int, tot: int): (r: View)
    requires rows >= 1 && tot >= 1
    ensures ViewOk(r, rows, tot)
    ensures Row(r) == 0
  {
    View(0, 0)
  }

  /** The highlighted entry is on screen, or there is none. */
  predicate ShowsHilighted(v: View, rows: int, hl: Option<nat>) {
    hl.None? || v.text <= hl.value < v.text + rows
  }

  /** The S key (kolmogorov.py:698-712): when the highlighted entry is off
      screen, scroll so that it is shown, on the second screen line when a
      full page fits below it, and on the last page otherwise. In Python 2
      `None > n` is false, so the operator-precedence slip in the condition
      never fires without a highlighted entry, and `LINES + 2 - 5` is
      rows - 1. The cursor lands on the highlighted entry, except on entry
      0, where it lands on entry 1. */
  function KeyShow(v: View, rows: int, tot: int, hl: Option<nat>): (r: View)
    requires rows >= 2 && ViewOk(v, rows, tot)
    requires hl.Some? ==> hl.value < tot
    ensures ViewOk(r, rows, tot)
    ensures ShowsHilighted(v, rows, hl) ==> r == v
    ensures !ShowsHilighted(v, rows, hl) ==>
      ShowsHilighted(r, rows, hl) && Row(r) == Max(hl.value, 1)
  {
    if hl.Some? && (hl.value < v.text || hl.value > v.text + rows - 1) then
      var h := hl.value;
      if tot - h >= rows then View(h - (if h > 0 then 1 else 0), 1)
      else View(tot - rows, h - (tot - rows))
    else v
  }

  /** S with entry 0 highlighted and scrolled away puts the cursor on
      entry 1. */
  lemma ShowFirstEntry()
    ensures var v := View(5, 0);
      ViewOk(v, 10, 100) && Row(KeyShow(v, 10, 100, Some(0))) == 1
  {
  }

  /** Down then Up returns to the same entry, unless Down was at the end. */
  lemma DownThenUp(v: View, rows: int, tot: int)
    requires ViewOk(v, rows, tot) && Row(v) + 1 < tot
    ensures Row(KeyUp(KeyDown(v, rows, tot), rows, tot)) == Row(v)
  {
  }

  /** Page Down can leave the cursor on an earlier entry than before: with
      the cursor on the bottom line, the page moves by rows - 2 only. */
  lemma PageDownMovesBack()
    ensures var v := View(0, 9);
      ViewOk(v, 10, 100) && Row(KeyPageDown(v, 10, 100)) == 8 < Row(v)
  {
  }

  /** The display status dictionary of main (kolmogorov.py:544-546). */
  class DisplayStatus {
    const rows: int
    const cols: int
    const baseDir: string
    var textLine: int
    var cursorLine: int
    var hilighted: Option<nat>
    var tagMode: bool
    var fileList: seq<string>
    var tagList: array<Option<string>>

    function CurrentView(): View
      reads this
    {
      View(textLine, cursorLine)
    }

    function Tot(): nat
      reads this
    {
      |fileList|
    }

    /** The state every handler keeps. */
    predicate Valid()
      reads this
    {
      && rows >= 2
      && Tot() >= 1
      && tagList.Length == Tot()
      && ViewOk(CurrentView(), rows, Tot())
      && (hilighted.Some? ==> hilighted.value < Tot())
    }

    /** The initial state (kolmogorov.py:544-546): top of the list, nothing
        highlighted, tag mode off, an empty label cache. */
    constructor(rows: int, cols: int, baseDir: string, files: seq<string>)
      requires rows >= 2 && |files| >= 1
      ensures Valid()
      ensures this.rows == rows && this.cols == cols && this.baseDir == baseDir
      ensures CurrentView() == View(0, 0) && hilighted.None? && !tagMode && fileList == files
      ensures fresh(tagList) && forall i :: 0 <= i < tagList.Length ==> tagList[i].None?
    {
      this.rows := rows;
      this.cols := cols;
      this.baseDir := baseDir;
      textLine := 0;
      cursorLine := 0;
      hilighted := None;
      tagMode := false;
      fileList := files;
      tagList := new Option<string>[|files|](_ => None);
    }

    /** KEY_DOWN / j (kolmogorov.py:583-591). */
    method Down()
      requires Valid()
      modifies this
      ensures hilighted == old(hilighted) && tagMode == old(tagMode)
      ensures fileList == old(fileList) && tagList == old(tagList)
      ensures Valid()
      ensures CurrentView() == KeyDown(old(CurrentView()), rows, Tot())
    {
      if cursorLine + 1 < Min(rows, Tot()) {
        cursorLine := cursorLine + 1;
      } else if textLine + cursorLine + 1 < Tot() {
        textLine := textLine + 1;
      }
    }

    /** KEY_UP / k (kolmogorov.py:593-601). */
    method Up()
      requires Valid()
      modifies this
      ensures hilighted == old(hilighted) && tagMode == old(tagMode)
      ensures fileList == old(fileList) && tagList == old(tagList)
      ensures Valid()
      ensures CurrentView() == KeyUp(old(CurrentView()), rows, Tot())
    {
      if cursorLine > 0 {
        cursorLine := cursorLine - 1;
      } else if textLine > 0 {
        textLine := textLine - 1;
      }
    }

    /** KEY_NPAGE (kolmogorov.py:603-618). */
    method PageDown()
      requires Valid()
      modifies this
      ensures hilighted == old(hilighted) && tagMode == old(tagMode)
      ensures fileList == old(fileList) && tagList == old(tagList)
      ensures Valid()
      ensures CurrentView() == KeyPageDown(old(CurrentView()), rows, Tot())
    {
      var step := rows - 2;
      if textLine + step + rows < Tot() {
        textLine := textLine + step;
        cursorLine := 0;
      } else if Tot() > rows {
        textLine := Tot() - rows;
        cursorLine := rows - 1;
      } else {
        cursorLine := Tot() - 1;
      }
    }

    /** KEY_PPAGE (kolmogorov.py:620-629). */
    method PageUp()
      requires Valid()
      modifies this
      ensures hilighted == old(hilighted) && tagMode == old(tagMode)
      ensures fileList == old(fileList) && tagList == old(tagList)
      ensures Valid()
      ensures CurrentView() == KeyPageUp(old(CurrentView()), rows, Tot())
    {
      var step := rows - 2;
      if textLine - step > 0 {
        textLine := textLine - step;
      } else {
        textLine := 0;
      }
      cursorLine := 0;
    }

    /** KEY_END (kolmogorov.py:631-635). */
    method End()
      requires Valid()
      modifies this
      ensures hilighted == old(hilighted) && tagMode == old(tagMode)
      ensures fileList == old(fileList) && tagList == old(tagList)
      ensures Valid()
      ensures CurrentView() == KeyEnd(rows, Tot())
    {
      cursorLine := Min(Tot(), rows) - 1;
      textLine := Max(Tot(), rows) - rows;
    }

    /** KEY_HOME (kolmogorov.py:637-641). */
    method Home()
      requires Valid()
      modifies this
      ensures hilighted == old(hilighted) && tagMode == old(tagMode)
      ensures fileList == old(fileList) && tagList == old(tagList)
      ensures Valid()
      ensures CurrentView() == KeyHome(rows, Tot())
    {
      cursorLine := 0;
      textLine := 0;
    }

    /** The S key (kolmogorov.py:698-712). */
    method Show()
      requires Valid()
      modifies this
      ensures hilighted == old(hilighted) && tagMode == old(tagMode)
      ensures fileList == old(fileList) && tagList == old(tagList)
      ensures Valid()
      ensures CurrentView() == KeyShow(old(CurrentView()), rows, Tot(), hilighted)
    {
      if hilighted.Some? && (hilighted.value < textLine || hilighted.value > textLine + rows - 1) {
        var h := hilighted.value;
        if Tot() - h >= rows {
          textLine := h - (if h > 0 then 1 else 0);
          cursorLine := 1;
        } else {
          textLine := Tot() - rows;
          cursorLine := h - textLine;
        }
      }
    }

    /** The T key (kolmogorov.py:735-738); without tag support it does
        nothing. */
    method ToggleTagMode(tagSupport: bool)
      requires Valid()
      modifies this
      ensures Valid()
      ensures tagMode == (if tagSupport then !old(tagMode) else old(tagMode))
      ensures CurrentView() == old(CurrentView()) && hilighted == old(hilighted)
      ensures fileList == old(fileList) && tagList == old(tagList)
    {
      if tagSupport {
        tagMode := !tagMode;
      }
    }

    /** The start of each pass of the main loop (kolmogorov.py:561-564): in
        tag mode, the labels of the entries on screen are read. */
    method RefreshTags(rawLabel: (string, int) -> string)
      requires Valid()
      modifies tagList
      ensures Valid()
      ensures tagMode ==> tagList[..] == Filled(fileList, old(tagList[..]), textLine,
        WindowEnd(textLine, rows, Tot()), baseDir, cols, rawLabel)
      ensures !tagMode ==> tagList[..] == old(tagList[..])
    {
      if tagMode {
        SelectAndUpdateTagList(fileList, tagList, textLine, rows, baseDir, cols, rawLabel);
      }
    }
  
    /** The s key (kolmogorov.py:714-732). Outside tag mode the file list is
        sorted and the labels follow it; in tag mode every label is read
        first, the labels are sorted and the files follow them. The
        highlighted entry is tracked through the sort. */
    method Sort(rawLabel: (string, int) -> string)
      requires Valid()
      modifies this, tagList
      ensures Valid() && fresh(tagList)
      ensures CurrentView() == old(CurrentView()) && tagMode == old(tagMode)
      ensures !old(tagMode) ==>
        SortedByName(old(fileList), old(tagList[..]), old(hilighted), fileList, tagList[..], hilighted)
      ensures old(tagMode) ==>
        SortedByLabel(old(fileList), Filled(old(fileList), old(tagList[..]), 0, |old(fileList)|, baseDir, cols, rawLabel),
          old(hilighted), fileList, tagList[..], hilighted)
    {
      if !tagMode {
        SortByName();
      } else {
        SortByLabel(rawLabel);
      }
    }

    /** Sorting by file name (kolmogorov.py:716-720). */
    method SortByName()
      requires Valid() && !tagMode
      modifies this
      ensures Valid() && fresh(tagList)
      ensures CurrentView() == old(CurrentView()) && tagMode == old(tagMode)
      ensures SortedByName(old(fileList), old(tagList[..]), old(hilighted), fileList, tagList[..], hilighted)
    {
      var sortedFiles, sortedTags, hl := SortPairsByName(fileList, tagList[..], hilighted);
      var sorted := NewCache(sortedTags);
      fileList := sortedFiles;
      tagList := sorted;
      hilighted := hl;
    }

    /** Every label of the list is read (kolmogorov.py:725-726). */
    method ReadAllTags(rawLabel: (string, int) -> string)
      requires Valid()
      modifies tagList
      ensures Valid()
      ensures tagList[..] == Filled(fileList, old(tagList[..]), 0, Tot(), baseDir, cols, rawLabel)
      ensures forall i :: 0 <= i < tagList.Length ==> tagList[i].Some?
    {
      SelectAndUpdateTagList(fileList, tagList, 0, |fileList|, baseDir, cols, rawLabel);
    }

    /** Sorting by label (kolmogorov.py:723-731): every label is read
        first. */
    method SortByLabel(rawLabel: (string, int) -> string)
      requires Valid() && tagMode
      modifies this, tagList
      ensures Valid() && fresh(tagList)
      ensures CurrentView() == old(CurrentView()) && tagMode == old(tagMode)
      ensures SortedByLabel(old(fileList), Filled(old(fileList), old(tagList[..]), 0, |old(fileList)|, baseDir, cols, rawLabel),
        old(hilighted), fileList, tagList[..], hilighted)
    {
      ghost var hl0 := hilighted;
      ReadAllTags(rawLabel);
      ghost var filled := tagList[..];
      var sortedFiles, sortedTags, hl := SortPairsByLabel(fileList, tagList[..], hilighted);
      assert SortedByLabel(fileList, filled, hl0, sortedFiles, sortedTags, hl);
      var sorted := NewCache(sortedTags);
      tagList := sorted;
      fileList := sortedFiles;
      hilighted := hl;
    }
  }

  /** A fresh label cache holding the given labels. */
  method NewCache(tags: seq<Option<string>>) returns (a: array<Option<string>>)
    ensures fresh(a) && a[..] == tags
  {
    a := new Option<string>[|tags|](i requires 0 <= i < |tags| => tags[i]);
    assert a[..] == tags;
  }

  /** sort_playlist on the file names, the labels following. */
  method SortPairsByName(files: seq<string>, tags: seq<Option<string>>, hl: Option<nat>)
    returns (files': seq<string>, tags': seq<Option<string>>, hl': Option<nat>)
    requires |tags| == |files| && (hl.Some? ==> hl.value < |files|)
    ensures |files'| == |files| == |tags'| && (hl'.Some? ==> hl'.value < |files'|)
    ensures SortedByName(files, tags, hl, files', tags', hl')
  {
    files', tags', hl' := SortPlaylist(files, tags, hl);
  }

  /** sort_playlist on the labels of a filled cache, the files following. */
  method SortPairsByLabel(files: seq<string>, tags: seq<Option<string>>, hl: Option<nat>)
    returns (files': seq<string>, tags': seq<Option<string>>, hl': Option<nat>)
    requires |tags| == |files| && (hl.Some? ==> hl.value < |files|)
    requires forall i :: 0 <= i < |tags| ==> tags[i].Some?
    ensures |files'| == |files| == |tags'| && (hl'.Some? ==> hl'.value < |files'|)
    ensures SortedByLabel(files, tags, hl, files', tags', hl')
  {
    var labels := Labels(tags);
    var sortedLabels;
    sortedLabels, files', hl' := SortPlaylist(labels, files, hl);
    tags' := Somes(sortedLabels);
  }

  /** The new state after sorting by file name (kolmogorov.py:716-719):
      the files in case-insensitive order, each label moved with its file
      name, the highlighted entry tracked. */
  predicate SortedByName(files: seq<string>, tags: seq<Option<string>>, hl: Option<nat>,
                         files': seq<string>, tags': seq<Option<string>>, hl': Option<nat>)
    requires |tags| == |files| && (hl.Some? ==> hl.value < |files|)
  {
    && files' == SortCI(files)
    && |files'| == |files| == |tags'|
    && (forall i :: 0 <= i < |files| ==> files'[i] in files)
    && (hl.Some? ==> files[hl.value] in files')
    && (forall i :: 0 <= i < |files| ==> tags'[i] == tags[LastIndex(files, files'[i])])
    && hl' == Tracked(files, files', hl)
  }

  /** The new state after sorting by label (kolmogorov.py:721-731), given
      the fully filled cache: the labels in case-insensitive order, each
      file moved with its label, the highlighted entry tracked by label. */
  predicate SortedByLabel(files: seq<string>, tags: seq<Option<string>>, hl: Option<nat>,
                          files': seq<string>, tags': seq<Option<string>>, hl': Option<nat>)
    requires |tags| == |files| && (hl.Some? ==> hl.value < |files|)
    requires forall i :: 0 <= i < |tags| ==> tags[i].Some?
  {
    var labels := Labels(tags);
    && tags' == Somes(SortCI(labels))
    && |files'| == |files| == |SortCI(labels)|
    && (forall i :: 0 <= i < |files| ==> SortCI(labels)[i] in labels)
    && (hl.Some? ==> labels[hl.value] in SortCI(labels))
    && (forall i :: 0 <= i < |files| ==> files'[i] == files[LastIndex(labels, SortCI(labels)[i])])
    && hl' == Tracked(labels, SortCI(labels), hl)
  }

  /** Sorting by name with distinct file names keeps every label with its
      file. */
  lemma NameSortKeepsPairs(files: seq<string>, tags: seq<Option<string>>, hl: Option<nat>,
                           files': seq<string>, tags': seq<Option<string>>, hl': Option<nat>)
    requires |tags| == |files| && (hl.Some? ==> hl.value < |files|)
    requires SortedByName(files, tags, hl, files', tags', hl') && Distinct(files)
    ensures forall i, j :: 0 <= i < |files'| && 0 <= j < |files| && files'[i] == files[j] ==> tags'[i] == tags[j]
  {
    forall i, j | 0 <= i < |files'| && 0 <= j < |files| && files'[i] == files[j]
      ensures tags'[i] == tags[j]
    {
      LastIndexOfDistinct(files, j);
    }
  }

  /** Sorting by label goes through a dictionary keyed by label
      (kolmogorov.py:248-254): two files with the same label both become
      the later file, and the earlier one leaves the list. */
  lemma LabelSortDuplicates(files': seq<string>, tags': seq<Option<string>>, hl': Option<nat>)
    requires SortedByLabel(["x", "y"], [Some("a"), Some("a")], None, files', tags', hl')
    ensures files' == ["y", "y"]
  {
    var labels := Labels([Some("a"), Some("a")]);
    assert labels == ["a", "a"];
    assert LastIndex(labels, "a") == 1;
    forall i | 0 <= i < 2
      ensures files'[i] == "y"
    {
      assert SortCI(labels)[i] in labels;
    }
  }

  /** The labels of a cache whose every slot is filled. */
  function Labels(tags: seq<Option<string>>): (r: seq<string>)
    requires forall i :: 0 <= i < |tags| ==> tags[i].Some?
    ensures |r| == |tags| && forall i :: 0 <= i < |r| ==> tags[i] == Some(r[i])
  {
    seq(|tags|, i requires 0 <= i < |tags| => tags[i].value)
  }

  function Somes(s: seq<string>): (r: seq<Option<string>>)
    ensures |r| == |s| && forall i :: 0 <= i < |r| ==> r[i] == Some(s[i])
  {
    seq(|s|, i requires 0 <= i < |s| => Some(s[i]))
  }
}
