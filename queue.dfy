/** The two parallel play queues of main: queue_index holds list indices,
    queue_file the joined paths to play (kolmogorov.py:551, 672-691). */
module Queue {
  import opened Common
  import opened Paths

  /** The + key (kolmogorov.py:674-681): an index not yet queued is appended
      with its file; a queued one leaves both lists as they are. */
  function Enqueue(qi: seq<nat>, qf: seq<string>, row: nat, file: string): (r: (seq<nat>, seq<string>))
    ensures row in r.0
    ensures row in qi ==> r == (qi, qf)
    ensures row !in qi ==> |r.0| == |qi| + 1 && |r.1| == |qf| + 1 && r.0[..|qi|] == qi && r.1[..|qf|] == qf
    ensures row !in qi ==> r.0[|qi|] == row && r.1[|qf|] == file
  {
    if row in qi then (qi, qf) else (qi + [row], qf + [file])
  }

  /** The - key (kolmogorov.py:683-691): the first occurrence of the index
      is removed, and so is the queue_file entry at the same position. The
      source raises IndexError when queue_file is too short for that
      position; the caller keeps queue_file at least as long. */
  function Dequeue(qi: seq<nat>, qf: seq<string>, row: nat): (r: (seq<nat>, seq<string>))
    requires |qi| <= |qf|
    ensures row !in qi ==> r == (qi, qf)
    ensures row in qi ==> |r.0| == |qi| - 1 && |r.1| == |qf| - 1
    ensures row in qi ==> var k := IndexOf(qi, row);
      && (forall j :: 0 <= j < k ==> r.0[j] == qi[j] && r.1[j] == qf[j])
      && (forall j :: k <= j < |r.0| ==> r.0[j] == qi[j + 1])
      && (forall j :: k <= j < |r.1| ==> r.1[j] == qf[j + 1])
  {
    if row in qi then
      var k := IndexOf(qi, row);
      (qi[..k] + qi[k + 1..], qf[..k] + qf[k + 1..])
    else (qi, qf)
  }

  /** queue_file[i] is the joined path of the entry queue_index[i]. */
  predicate Matches(qi: seq<nat>, qf: seq<string>, files: seq<string>, base: string) {
    && |qf| == |qi|
    && forall k :: 0 <= k < |qi| ==> qi[k] < |files| && qf[k] == Join(base, files[qi[k]])
  }

  /** Pressing + twice is pressing it once. */
  lemma EnqueueIdempotent(qi: seq<nat>, qf: seq<string>, row: nat, file: string)
    ensures var once := Enqueue(qi, qf, row, file);
      Enqueue(once.0, once.1, row, file) == once
  {
  }

  /** + then - of an index not in the queue restores both lists, when no
      start is pending (the lists have the same length). */
  lemma EnqueueThenDequeue(qi: seq<nat>, qf: seq<string>, row: nat, file: string)
    requires row !in qi && |qf| == |qi|
    ensures var e := Enqueue(qi, qf, row, file);
      Dequeue(e.0, e.1, row) == (qi, qf)
  {
    var e := Enqueue(qi, qf, row, file);
    assert e == (qi + [row], qf + [file]);
    assert IndexOf(e.0, row) == |qi|;
    assert e.0[..|qi|] == qi && e.1[..|qi|] == qf;
    assert e.0[|qi| + 1..] == [] && e.1[|qi| + 1..] == [];
    assert Dequeue(e.0, e.1, row) == (e.0[..|qi|] + e.0[|qi| + 1..], e.1[..|qi|] + e.1[|qi| + 1..]);
    assert qi + [] == qi && qf + [] == qf;
  }

  /** With a start pending, queue_file has one more entry at its head, and
      - removes the wrong file: + then - does not restore the lists. */
  lemma EnqueueThenDequeuePending()
    ensures var e := Enqueue([], ["/a"], 0, "/b");
      Dequeue(e.0, e.1, 0) == ([], ["/b"])
  {
    var e := Enqueue([], ["/a"], 0, "/b");
    assert e == ([] + [0], ["/a"] + ["/b"]);
    assert e.0 == [0] && e.1 == ["/a", "/b"];
    assert IndexOf(e.0, 0) == 0;
    assert e.1[1..] == ["/b"] && e.0[1..] == [];
    assert Dequeue(e.0, e.1, 0) == (e.0[..0] + e.0[1..], e.1[..0] + e.1[1..]);
    assert e.0[..0] + e.0[1..] == [];
    assert e.1[..0] + e.1[1..] == ["/b"];
  }

  /** + keeps the queues matched and free of duplicates. */
  lemma EnqueueMatches(qi: seq<nat>, qf: seq<string>, row: nat, files: seq<string>, base: string)
    requires Matches(qi, qf, files, base) && Distinct(qi) && row < |files|
    ensures var e := Enqueue(qi, qf, row, Join(base, files[row]));
      Matches(e.0, e.1, files, base) && Distinct(e.0)
  {
  }

  /** - keeps the queues matched and free of duplicates. */
  lemma DequeueMatches(qi: seq<nat>, qf: seq<string>, row: nat, files: seq<string>, base: string)
    requires Matches(qi, qf, files, base) && Distinct(qi)
    ensures var d := Dequeue(qi, qf, row);
      Matches(d.0, d.1, files, base) && Distinct(d.0)
  {
    if row in qi {
      var k := IndexOf(qi, row);
      var d := Dequeue(qi, qf, row);
      forall i, j | 0 <= i < j < |d.0|
        ensures d.0[i] != d.0[j]
      {
        var i' := if i < k then i else i + 1;
        var j' := if j < k then j else j + 1;
        assert d.0[i] == qi[i'] && d.0[j] == qi[j'];
      }
    }
  }
}
