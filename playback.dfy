/** The play queue and continuation state machine: the Enter/space, +, -
    and c key handlers of main (kolmogorov.py:643-696) and one pass of
    play_thread's loop (kolmogorov.py:415-469). Each handler and each pass
    is one atomic step. Spawning and killing the player process are not
    modelled; whether the process has finished (poll() is not None) and the
    pid a new process gets are parameters. */
module Playback {
  import opened Common
  import opened Paths
  import opened Players
  import opened Queue
  import opened Display

  /** play_status_dict["todo"]. */
  datatype Todo = DoNothing | StartSong | StopSong

  /** The shared state: play_status_dict (queue_index, queue_file, todo,
      pp_pid, continue), display_status_dict["abs_hilighted_line"] and the
      pid of play_thread's play_process (None when it is None). */
  datatype Machine = Machine(queueIndex: seq<nat>, queueFile: seq<string>, todo: Todo, ppPid: Option<nat>,
                             cont: bool, hilighted: Option<nat>, process: Option<nat>)

  /** The state at start-up (kolmogorov.py:545, 551). */
  const Initial: Machine := Machine([], [], DoNothing, None, true, None, None)

  /** 1 while a start is pending: Enter and the completion step put the file
      to start at the head of queue_file, with no queue_index entry. */
  function Pending(m: Machine): nat {
    if m.todo == StartSong then 1 else 0
  }

  /** What every step keeps, whatever the order of key presses: the pops
      of kolmogorov.py:418, 453 and 687 never meet an empty or too short
      list, and queued and highlighted indices are in the list. A live
      process has a highlighted line unless a stop is pending; the first
      half of a pass carries out that stop, so the completion step that
      follows it in the same pass never adds 1 to a missing highlighted
      line. Sound alone does not rule that out. */
  predicate Sound(m: Machine, tot: nat) {
    && |m.queueFile| >= |m.queueIndex| + Pending(m)
    && (forall k :: 0 <= k < |m.queueIndex| ==> m.queueIndex[k] < tot)
    && Distinct(m.queueIndex)
    && (m.hilighted.Some? ==> m.hilighted.value < tot)
    && (m.todo == StartSong ==> m.hilighted.Some?)
    && (m.process.Some? ==> m.hilighted.Some? || m.todo == StopSong)
  }

  /** The queues agree: queue_file is the joined path of each queued index,
      after the pending file, which is that of the highlighted line. */
  predicate Aligned(m: Machine, files: seq<string>, base: string) {
    if m.todo == StartSong then
      && |m.queueFile| >= 1
      && m.hilighted.Some? && m.hilighted.value < |files|
      && m.queueFile[0] == Join(base, files[m.hilighted.value])
      && Matches(m.queueIndex, m.queueFile[1..], files, base)
    else
      Matches(m.queueIndex, m.queueFile, files, base)
  }

  lemma InitialSound(files: seq<string>, base: string)
    ensures Sound(Initial, |files|) && Aligned(Initial, files, base)
  {
  }

  // ---------------------------------------------------------------------
  // Key handlers of main

  /** Enter or space on list entry row (kolmogorov.py:643-670): on the
      highlighted entry it stops playback; elsewhere it highlights the entry
      and asks for a start, putting its file at the head of queue_file
      unless the entry heads the queue, whose index is then dropped. */
  function EnterKey(m: Machine, row: nat, file: string): (r: Machine)
    ensures m.hilighted == Some(row) ==> r.hilighted.None? && r.todo == StopSong
    ensures m.hilighted != Some(row) ==> r.hilighted == Some(row) && r.todo == StartSong
    ensures m.hilighted == Some(row) ==> r.queueIndex == m.queueIndex && r.queueFile == m.queueFile
    ensures m.hilighted != Some(row) && m.queueIndex != [] && m.queueIndex[0] == row ==>
      r.queueIndex == m.queueIndex[1..] && r.queueFile == m.queueFile
    ensures m.hilighted != Some(row) && (m.queueIndex == [] || m.queueIndex[0] != row) ==>
      r.queueIndex == m.queueIndex && r.queueFile == [file] + m.queueFile
    ensures r.cont == m.cont && r.process == m.process && r.ppPid == m.ppPid
  {
    if m.hilighted == Some(row) then
      m.(hilighted := None, todo := StopSong)
    else if m.queueIndex == [] || m.queueIndex[0] != row then
      m.(hilighted := Some(row), queueFile := [file] + m.queueFile, todo := StartSong)
    else
      m.(hilighted := Some(row), queueIndex := m.queueIndex[1..], todo := StartSong)
  }

  /** The + key (kolmogorov.py:672-681). */
  function PlusKey(m: Machine, row: nat, file: string): (r: Machine)
    ensures (r.queueIndex, r.queueFile) == Enqueue(m.queueIndex, m.queueFile, row, file)
    ensures r.(queueIndex := m.queueIndex, queueFile := m.queueFile) == m
  {
    var e := Enqueue(m.queueIndex, m.queueFile, row, file);
    m.(queueIndex := e.0, queueFile := e.1)
  }

  /** The - key (kolmogorov.py:683-691). */
  function MinusKey(m: Machine, row: nat): (r: Machine)
    requires |m.queueIndex| <= |m.queueFile|
    ensures (r.queueIndex, r.queueFile) == Dequeue(m.queueIndex, m.queueFile, row)
    ensures r.(queueIndex := m.queueIndex, queueFile := m.queueFile) == m
  {
    var d := Dequeue(m.queueIndex, m.queueFile, row);
    m.(queueIndex := d.0, queueFile := d.1)
  }

  /** The c key (kolmogorov.py:693-696). */
  function ContinueKey(m: Machine): (r: Machine)
    ensures r.cont == !m.cont && r.(cont := m.cont) == m
  {
    m.(cont := !m.cont)
  }

  // ---------------------------------------------------------------------
  // One pass of play_thread

  /** The first half of a pass (kolmogorov.py:417-440): a pending start
      takes the head of queue_file and starts the player the support table
      gives for its extension, if any; a pending stop forgets the process.
      Returns the command line started. */
  function StartOrStop(m: Machine, support: SupportTable, newPid: nat): (r: (Machine, Option<Command>))
    requires forall ext :: ext in support ==> support[ext] != []
    requires m.todo == StartSong ==> m.queueFile != []
    ensures r.0.todo == DoNothing && r.0.hilighted == m.hilighted
    ensures r.0.queueIndex == m.queueIndex && r.0.cont == m.cont
    ensures m.todo == DoNothing ==> r.0 == m
    ensures m.todo == StopSong ==> r.0.process.None? && r.0.ppPid.None? && r.0.queueFile == m.queueFile
    ensures m.todo == StartSong ==> r.0.queueFile == m.queueFile[1..]
    ensures r.1.Some? ==> r.0.process == Some(newPid) && r.0.ppPid == Some(newPid)
    ensures r.1.None? && m.todo != StopSong ==> r.0.process == m.process && r.0.ppPid == m.ppPid
    ensures r.1.Some? <==> m.todo == StartSong && PlaybackKey(m.queueFile[0]) in support
    ensures r.1.Some? ==> r.1.value == support[PlaybackKey(m.queueFile[0])][0] + [m.queueFile[0]]
  {
    match m.todo
    case StartSong =>
      var filename := m.queueFile[0];
      var key := PlaybackKey(filename);
      var m' := m.(queueFile := m.queueFile[1..], todo := DoNothing);
      if key in support then
        (m'.(process := Some(newPid), ppPid := Some(newPid)), Some(support[key][0] + [filename]))
      else
        (m', None)
    case StopSong =>
      (m.(process := None, ppPid := None, todo := DoNothing), None)
    case DoNothing =>
      (m, None)
  }

  /** The second half of a pass (kolmogorov.py:447-469), once the player
      process has finished: the head of the queue is next, whatever the
      continue flag; otherwise, with continue set, the entry after the
      highlighted one; otherwise playback ends. The continue flag and the
      process of a next song are left for the next pass. */
  function Completion(m: Machine, files: seq<string>, base: string, exited: bool): (r: Machine)
    requires m.process.Some? ==> m.hilighted.Some?
    ensures !(m.process.Some? && exited) ==> r == m
    ensures r.cont == m.cont
    ensures m.process.Some? && exited && m.queueIndex != [] && m.queueFile != [] ==>
      && r.todo == StartSong && r.hilighted == Some(m.queueIndex[0])
      && r.queueIndex == m.queueIndex[1..] && r.queueFile == m.queueFile
      && r.process == m.process && r.ppPid == m.ppPid
    ensures (m.process.Some? && exited && !(m.queueIndex != [] && m.queueFile != [])
             && m.cont && m.hilighted.value + 1 < |files|) ==>
      && r.todo == StartSong && r.hilighted == Some(m.hilighted.value + 1) && r.queueIndex == m.queueIndex
      && r.queueFile == m.queueFile + [Join(base, files[m.hilighted.value + 1])]
      && r.process == m.process && r.ppPid == m.ppPid
    ensures (m.process.Some? && exited && !(m.queueIndex != [] && m.queueFile != [])
             && !(m.cont && m.hilighted.value + 1 < |files|)) ==>
      && r.process.None? && r.ppPid.None? && r.hilighted.None? && r.todo == m.todo
      && r.queueIndex == m.queueIndex && r.queueFile == m.queueFile
  {
    if m.process.Some? && exited then
      if |m.queueIndex| > 0 && |m.queueFile| > 0 then
        m.(todo := StartSong, hilighted := Some(m.queueIndex[0]), queueIndex := m.queueIndex[1..])
      else if m.hilighted.value + 1 < |files| && m.cont then
        m.(todo := StartSong, queueFile := m.queueFile + [Join(base, files[m.hilighted.value + 1])],
           hilighted := Some(m.hilighted.value + 1))
      else
        m.(process := None, ppPid := None, hilighted := None)
    else m
  }

  /** One pass of play_thread's loop, with no key handled in between: it
      keeps Sound, and the command line it starts is that of its first
      half. */
  function Step(m: Machine, files: seq<string>, base: string, support: SupportTable, exited: bool, newPid: nat)
    : (r: (Machine, Option<Command>))
    requires forall ext :: ext in support ==> support[ext] != []
    requires Sound(m, |files|)
    ensures Sound(r.0, |files|)
    ensures r.1 == StartOrStop(m, support, newPid).1
  {
    var s := StartOrStop(m, support, newPid);
    TailSound(s.0.queueIndex, |files|);
    (Completion(s.0, files, base, exited), s.1)
  }

  // ---------------------------------------------------------------------
  // Properties

  /** Dropping the head of a duplicate-free list of in-range indices keeps
      it so. */
  lemma TailSound(qi: seq<nat>, tot: nat)
    requires Distinct(qi) && forall k :: 0 <= k < |qi| ==> qi[k] < tot
    ensures qi != [] ==> Distinct(qi[1..]) && forall k :: 0 <= k < |qi[1..]| ==> qi[1..][k] < tot
  {
    forall i, j | 0 <= i < j < |qi| - 1
      ensures qi[1..][i] != qi[1..][j]
    {
      assert qi[1..][i] == qi[i + 1] && qi[1..][j] == qi[j + 1];
    }
  }

  /** Enter keeps Sound. */
  lemma EnterKeepsSound(m: Machine, files: seq<string>, base: string, row: nat)
    requires Sound(m, |files|) && row < |files|
    ensures Sound(EnterKey(m, row, Join(base, files[row])), |files|)
  {
    if m.queueIndex != [] {
      TailSound(m.queueIndex, |files|);
    }
  }

  /** + keeps Sound. */
  lemma PlusKeepsSound(m: Machine, files: seq<string>, base: string, row: nat)
    requires Sound(m, |files|) && row < |files|
    ensures Sound(PlusKey(m, row, Join(base, files[row])), |files|)
  {
  }

  /** - keeps Sound. */
  lemma MinusKeepsSound(m: Machine, files: seq<string>, row: nat)
    requires Sound(m, |files|)
    ensures Sound(MinusKey(m, row), |files|)
  {
    var qi := m.queueIndex;
    var d := Dequeue(qi, m.queueFile, row);
    if row in qi {
      var k := IndexOf(qi, row);
      forall i, j | 0 <= i < j < |d.0|
        ensures d.0[i] != d.0[j]
      {
        var i' := if i < k then i else i + 1;
        var j' := if j < k then j else j + 1;
        assert d.0[i] == qi[i'] && d.0[j] == qi[j'];
      }
      forall i | 0 <= i < |d.0|
        ensures d.0[i] < |files|
      {
        assert d.0[i] == qi[if i < k then i else i + 1];
      }
    }
  }

  /** + and c keep the queues aligned, even with a start pending. */
  lemma PlusKeepsAligned(m: Machine, files: seq<string>, base: string, row: nat)
    requires Sound(m, |files|) && Aligned(m, files, base) && row < |files|
    ensures Aligned(PlusKey(m, row, Join(base, files[row])), files, base)
    ensures Aligned(ContinueKey(m), files, base)
  {
    var qi, qf := m.queueIndex, m.queueFile;
    if m.todo == StartSong {
      if row !in qi {
        assert (qf + [Join(base, files[row])])[1..] == qf[1..] + [Join(base, files[row])];
      }
    } else {
      EnqueueMatches(qi, qf, row, files, base);
    }
  }

  /** - keeps the queues aligned unless a start is pending. */
  lemma MinusKeepsAligned(m: Machine, files: seq<string>, base: string, row: nat)
    requires Sound(m, |files|) && Aligned(m, files, base) && m.todo != StartSong
    ensures Aligned(MinusKey(m, row), files, base)
  {
    DequeueMatches(m.queueIndex, m.queueFile, row, files, base);
  }

  /** Enter keeps the queues aligned unless a start is pending. */
  lemma EnterKeepsAligned(m: Machine, files: seq<string>, base: string, row: nat)
    requires Sound(m, |files|) && Aligned(m, files, base) && row < |files| && m.todo != StartSong
    ensures Aligned(EnterKey(m, row, Join(base, files[row])), files, base)
  {
    var qi, qf := m.queueIndex, m.queueFile;
    if m.hilighted != Some(row) && qi != [] && qi[0] == row {
      assert qf[0] == Join(base, files[qi[0]]);
      assert forall k :: 0 <= k < |qi| - 1 ==> qi[1..][k] == qi[k + 1] && qf[1..][k] == qf[k + 1];
    }
    if m.hilighted != Some(row) && (qi == [] || qi[0] != row) {
      assert ([Join(base, files[row])] + qf)[1..] == qf;
    }
  }

  /** The first half of a pass leaves the queues matched, and the file it
      starts is the highlighted entry's. */
  lemma StartOrStopAligned(m: Machine, files: seq<string>, base: string, support: SupportTable, newPid: nat)
    requires forall ext :: ext in support ==> support[ext] != []
    requires Sound(m, |files|) && Aligned(m, files, base)
    ensures var r := StartOrStop(m, support, newPid);
      && Matches(r.0.queueIndex, r.0.queueFile, files, base)
      && (r.0.process.Some? ==> r.0.hilighted.Some? && r.0.hilighted.value < |files|)
      && (r.1.Some? ==> m.todo == StartSong && r.1.value[|r.1.value| - 1] == Join(base, files[m.hilighted.value]))
  {
  }

  /** The second half of a pass keeps the queues aligned. */
  lemma CompletionKeepsAligned(s: Machine, files: seq<string>, base: string, exited: bool)
    requires s.todo == DoNothing && Matches(s.queueIndex, s.queueFile, files, base)
    requires s.process.Some? ==> s.hilighted.Some? && s.hilighted.value < |files|
    ensures Aligned(Completion(s, files, base, exited), files, base)
  {
    if s.process.Some? && exited && s.queueIndex != [] {
      assert s.queueFile[1..][..] == s.queueFile[1..];
    }
  }

  /** A pass of play_thread keeps the queues aligned, and the file it
      starts is the highlighted entry's. */
  lemma StepKeepsAligned(m: Machine, files: seq<string>, base: string, support: SupportTable, exited: bool, newPid: nat)
    requires forall ext :: ext in support ==> support[ext] != []
    requires Sound(m, |files|) && Aligned(m, files, base)
    ensures var r := Step(m, files, base, support, exited, newPid);
      && Aligned(r.0, files, base)
      && (r.1.Some? ==> m.todo == StartSong && r.1.value[|r.1.value| - 1] == Join(base, files[m.hilighted.value]))
  {
    StartOrStopAligned(m, files, base, support, newPid);
    CompletionKeepsAligned(StartOrStop(m, support, newPid).0, files, base, exited);
  }

  /** The completion policy over a whole pass, from any sound state, the
      queues being those the first half of the pass leaves (queue_file
      without the head it started). When a player process is alive after
      that half and has finished, the head of queue_index is next if both
      queues are non-empty, whatever the continue flag; otherwise, with
      continue set, the entry after the highlighted one, whose file is
      appended to queue_file; otherwise playback ends with the queues
      untouched. Without a live, finished process the pass ends after its
      first half. */
  lemma CompletionPolicy(m: Machine, files: seq<string>, base: string, support: SupportTable, exited: bool, newPid: nat)
    requires forall ext :: ext in support ==> support[ext] != []
    requires Sound(m, |files|)
    ensures var s := StartOrStop(m, support, newPid).0;
      var r := Step(m, files, base, support, exited, newPid).0;
      var qi := m.queueIndex;
      var qf := if m.todo == StartSong then m.queueFile[1..] else m.queueFile;
      var ended := s.process.Some? && exited;
      && (!ended ==> r == s)
      && (ended ==> m.hilighted.Some? && s.hilighted == m.hilighted && s.queueIndex == qi && s.queueFile == qf)
      && (ended && ((qi != [] && qf != []) || (m.cont && m.hilighted.value + 1 < |files|)) ==>
            r.process == s.process && r.ppPid == s.ppPid)
      && (ended && qi != [] && qf != [] ==>
            r.todo == StartSong && r.hilighted == Some(qi[0]) && r.queueIndex == qi[1..] && r.queueFile == qf)
      && (ended && !(qi != [] && qf != []) && m.cont && m.hilighted.value + 1 < |files| ==>
            && r.todo == StartSong && r.hilighted == Some(m.hilighted.value + 1) && r.queueIndex == qi
            && r.queueFile == qf + [Join(base, files[m.hilighted.value + 1])])
      && (ended && !(qi != [] && qf != []) && !(m.cont && m.hilighted.value + 1 < |files|) ==>
            && r.process.None? && r.ppPid.None? && r.hilighted.None? && r.todo == DoNothing
            && r.queueIndex == qi && r.queueFile == qf)
  {
    var s := StartOrStop(m, support, newPid).0;
    assert s.queueIndex == m.queueIndex && s.cont == m.cont && s.hilighted == m.hilighted;
    assert s.queueFile == if m.todo == StartSong then m.queueFile[1..] else m.queueFile;
    assert Step(m, files, base, support, exited, newPid).0 == Completion(s, files, base, exited);
  }

  /** With the queues aligned and nothing pending, the policy picks the
      file of the entry it highlights: the queue's head file, or the only
      file of queue_file when continuing. */
  lemma CompletionPolicyAligned(m: Machine, files: seq<string>, base: string, support: SupportTable, newPid: nat)
    requires forall ext :: ext in support ==> support[ext] != []
    requires Sound(m, |files|) && Aligned(m, files, base)
    requires m.todo == DoNothing && m.process.Some?
    ensures var r := Step(m, files, base, support, true, newPid).0;
      && (m.queueIndex != [] ==>
            r.todo == StartSong && r.hilighted == Some(m.queueIndex[0]) && r.queueIndex == m.queueIndex[1..]
            && r.queueFile[0] == Join(base, files[m.queueIndex[0]]))
      && (m.queueIndex == [] && m.cont && m.hilighted.value + 1 < |files| ==>
            r.todo == StartSong && r.hilighted == Some(m.hilighted.value + 1)
            && r.queueFile == [Join(base, files[m.hilighted.value + 1])])
      && (m.queueIndex == [] && !(m.cont && m.hilighted.value + 1 < |files|) ==>
            r.todo == DoNothing && r.hilighted.None? && r.process.None? && r.ppPid.None?)
  {
  }

  /** Enter on an entry that is not playing, with nothing pending, starts
      that entry's file on the next pass, if its extension has a player. */
  lemma EnterThenStep(m: Machine, files: seq<string>, base: string, support: SupportTable, row: nat, newPid: nat, exited: bool)
    requires forall ext :: ext in support ==> support[ext] != []
    requires Sound(m, |files|) && Aligned(m, files, base) && row < |files|
    requires m.todo != StartSong && m.hilighted != Some(row)
    ensures var file := Join(base, files[row]);
      var e := EnterKey(m, row, file);
      Sound(e, |files|) &&
      Step(e, files, base, support, exited, newPid).1 ==
        if PlaybackKey(file) in support then Some(support[PlaybackKey(file)][0] + [file]) else None
  {
    var file := Join(base, files[row]);
    EnterKeepsSound(m, files, base, row);
    EnterKeepsAligned(m, files, base, row);
    var e := EnterKey(m, row, file);
    assert e.queueFile[0] == file;
  }

  /** Enter on the highlighted entry stops playback: after the next pass
      there is no process, no pid and no highlighted entry. */
  lemma EnterStops(m: Machine, files: seq<string>, base: string, support: SupportTable, row: nat, newPid: nat, exited: bool)
    requires forall ext :: ext in support ==> support[ext] != []
    requires Sound(m, |files|) && row < |files| && m.hilighted == Some(row)
    ensures var e := EnterKey(m, row, Join(base, files[row]));
      Sound(e, |files|) &&
      var r := Step(e, files, base, support, exited, newPid);
      r.0.process.None? && r.0.ppPid.None? && r.0.hilighted.None? && r.0.todo == DoNothing && r.1.None?
  {
    EnterKeepsSound(m, files, base, row);
  }

  /** Enter pressed twice before play_thread's next pass leaves the first
      file in queue_file with no queue_index entry: the queues are out of
      step from then on. */
  lemma EnterTwiceLeavesStaleFile()
    ensures var files := ["a", "b"];
      var e1 := EnterKey(Initial, 0, "/m/a");
      var e2 := EnterKey(e1, 1, "/m/b");
      var r := Step(e2, files, "/m", map["" := [["p"]]], false, 7).0;
      Sound(e2, 2) && r.queueFile == ["/m/a"] && r.queueIndex == [] && !Aligned(r, files, "/m")
  {
    var e1 := EnterKey(Initial, 0, "/m/a");
    var e2 := EnterKey(e1, 1, "/m/b");
    assert e2.queueFile == ["/m/b", "/m/a"];
    assert e2.queueFile[1..] == ["/m/a"];
  }

  // ---------------------------------------------------------------------
  // The imperative state: play_status_dict, play_thread and the handlers

  /** play_status_dict (kolmogorov.py:551). */
  class PlayStatus {
    var queueIndex: seq<nat>
    var queueFile: seq<string>
    var todo: Todo
    var ppPid: Option<nat>
    var cont: bool

    constructor()
      ensures queueIndex == [] && queueFile == [] && todo == DoNothing && ppPid.None? && cont
    {
      queueIndex := [];
      queueFile := [];
      todo := DoNothing;
      ppPid := None;
      cont := true;
    }
  }

  /** play_thread's own state: its support table and play_process. */
  class PlayThread {
    const support: SupportTable
    var process: Option<nat>

    constructor(support: SupportTable)
      requires forall ext :: ext in support ==> support[ext] != []
      ensures this.support == support && process.None?
    {
      this.support := support;
      process := None;
    }

    /** One pass of play_thread's loop (kolmogorov.py:415-469). Returns the
        command line of the player it starts, if any. */
    method Tick(ps: PlayStatus, ds: DisplayStatus, exited: bool, newPid: nat) returns (started: Option<Command>)
      requires forall ext :: ext in support ==> support[ext] != []
      requires ds.Valid() && Sound(State(ps, ds, this), ds.Tot())
      modifies this, ps, ds
      ensures ds.CurrentView() == old(ds.CurrentView()) && ds.tagMode == old(ds.tagMode)
      ensures ds.fileList == old(ds.fileList) && ds.tagList == old(ds.tagList)
      ensures ds.Valid() && Sound(State(ps, ds, this), ds.Tot())
      ensures (State(ps, ds, this), started) ==
        Step(old(State(ps, ds, this)), ds.fileList, ds.baseDir, support, exited, newPid)
    {
      started := StartOrStopSong(ps, ds, newPid);
      CompleteSong(ps, ds, exited);
    }

    /** The pending start or stop (kolmogorov.py:417-440). */
    method StartOrStopSong(ps: PlayStatus, ds: DisplayStatus, newPid: nat) returns (started: Option<Command>)
      requires forall ext :: ext in support ==> support[ext] != []
      requires ps.todo == StartSong ==> ps.queueFile != []
      modifies this, ps
      ensures (State(ps, ds, this), started) == StartOrStop(old(State(ps, ds, this)), support, newPid)
    {
      started := None;
      if ps.todo == StartSong {
        var filename := ps.queueFile[0];
        ps.queueFile := ps.queueFile[1..];
        var ext := PlaybackKey(filename);
        if ext in support {
          process := Some(newPid);
          ps.ppPid := Some(newPid);
          started := Some(support[ext][0] + [filename]);
        }
        ps.todo := DoNothing;
      } else if ps.todo == StopSong {
        process := None;
        ps.ppPid := None;
        ps.todo := DoNothing;
      }
    }

    /** What follows a finished player process (kolmogorov.py:447-469). */
    method CompleteSong(ps: PlayStatus, ds: DisplayStatus, exited: bool)
      requires process.Some? ==> ds.hilighted.Some?
      modifies this, ps, ds
      ensures ds.CurrentView() == old(ds.CurrentView()) && ds.tagMode == old(ds.tagMode)
      ensures ds.fileList == old(ds.fileList) && ds.tagList == old(ds.tagList)
      ensures State(ps, ds, this) == Completion(old(State(ps, ds, this)), ds.fileList, ds.baseDir, exited)
    {
      if process.Some? && exited {
        if |ps.queueIndex| > 0 && |ps.queueFile| > 0 {
          ps.todo := StartSong;
          ds.hilighted := Some(ps.queueIndex[0]);
          ps.queueIndex := ps.queueIndex[1..];
        } else if ds.hilighted.value + 1 < |ds.fileList| && ps.cont {
          ps.todo := StartSong;
          ps.queueFile := ps.queueFile + [Join(ds.baseDir, ds.fileList[ds.hilighted.value + 1])];
          ds.hilighted := Some(ds.hilighted.value + 1);
        } else {
          process := None;
          ps.ppPid := None;
          ds.hilighted := None;
        }
      }
    }
  }

  function State(ps: PlayStatus, ds: DisplayStatus, pt: PlayThread): Machine
    reads ps, ds, pt
  {
    Machine(ps.queueIndex, ps.queueFile, ps.todo, ps.ppPid, ps.cont, ds.hilighted, pt.process)
  }

  /** The entry under the cursor, as a list index. */
  function CursorRow(ds: DisplayStatus): nat
    reads ds
    requires ds.Valid()
    ensures CursorRow(ds) < ds.Tot()
  {
    ds.textLine + ds.cursorLine
  }

  /** Enter or space (kolmogorov.py:643-670). */
  method Enter(ps: PlayStatus, ds: DisplayStatus, pt: PlayThread)
    requires ds.Valid() && Sound(State(ps, ds, pt), ds.Tot())
    modifies ps, ds
    ensures ds.CurrentView() == old(ds.CurrentView()) && ds.tagMode == old(ds.tagMode)
    ensures ds.fileList == old(ds.fileList) && ds.tagList == old(ds.tagList)
    ensures ds.Valid() && Sound(State(ps, ds, pt), ds.Tot())
    ensures State(ps, ds, pt) ==
      EnterKey(old(State(ps, ds, pt)), CursorRow(ds), Join(ds.baseDir, ds.fileList[CursorRow(ds)]))
  {
    var row := CursorRow(ds);
    EnterKeepsSound(State(ps, ds, pt), ds.fileList, ds.baseDir, row);
    if ds.hilighted == Some(row) {
      ds.hilighted := None;
      ps.todo := StopSong;
    } else {
      ds.hilighted := Some(row);
      if |ps.queueIndex| == 0 || ps.queueIndex[0] != row {
        ps.queueFile := [Join(ds.baseDir, ds.fileList[row])] + ps.queueFile;
      } else if ps.queueIndex[0] == row {
        ps.queueIndex := ps.queueIndex[1..];
      }
      ps.todo := StartSong;
    }
  }

  /** The + key (kolmogorov.py:672-681). */
  method Plus(ps: PlayStatus, ds: DisplayStatus, pt: PlayThread)
    requires ds.Valid() && Sound(State(ps, ds, pt), ds.Tot())
    modifies ps
    ensures Sound(State(ps, ds, pt), ds.Tot())
    ensures State(ps, ds, pt) ==
      PlusKey(old(State(ps, ds, pt)), CursorRow(ds), Join(ds.baseDir, ds.fileList[CursorRow(ds)]))
  {
    var row := CursorRow(ds);
    PlusKeepsSound(State(ps, ds, pt), ds.fileList, ds.baseDir, row);
    if row !in ps.queueIndex {
      ps.queueIndex := ps.queueIndex + [row];
      ps.queueFile := ps.queueFile + [Join(ds.baseDir, ds.fileList[row])];
    }
  }

  /** The - key (kolmogorov.py:683-691). */
  method Minus(ps: PlayStatus, ds: DisplayStatus, pt: PlayThread)
    requires ds.Valid() && Sound(State(ps, ds, pt), ds.Tot())
    modifies ps
    ensures Sound(State(ps, ds, pt), ds.Tot())
    ensures State(ps, ds, pt) == MinusKey(old(State(ps, ds, pt)), CursorRow(ds))
  {
    var row := CursorRow(ds);
    MinusKeepsSound(State(ps, ds, pt), ds.fileList, row);
    if row in ps.queueIndex {
      var k := IndexOf(ps.queueIndex, row);
      ps.queueFile := ps.queueFile[..k] + ps.queueFile[k + 1..];
      ps.queueIndex := ps.queueIndex[..k] + ps.queueIndex[k + 1..];
    }
  }

  /** The c key (kolmogorov.py:693-696). */
  method ToggleContinue(ps: PlayStatus, ds: DisplayStatus, pt: PlayThread)
    modifies ps
    ensures State(ps, ds, pt) == ContinueKey(old(State(ps, ds, pt)))
  {
    ps.cont := !ps.cont;
  }
}
