# kolmogorov in Dafny

A Dafny model of the sequential core of kolmogorov, a curses front end that plays a directory or an m3u playlist of audio files with an external command-line player. Its source is the single file `kolmogorov.py`. The model covers five parts:

- **Playlists** (`playlist.dfy`, on the path functions of `paths.dfy` and the string functions of `text.dfy`):
  - `is_m3u_playlist`, `load_m3u` and `write_m3u`, with a file modelled as its sequence of lines.
  - `os.path.isabs`, `join`, `dirname`, `splitext` and `commonprefix` are string functions over `/`.
  - `commonprefix` is the character-wise longest common prefix.
- **Player support table** (`players.dfy`):
  - The known players and extensions.
  - `check_players`, with the `which` probe as a predicate `available(command)`.
  - The start-up loop that keeps the first player per extension.
  - `is_file_supported`, and the extension key that `play_thread` looks up.
- **List utilities** (`sorting.dfy`, `tags.dfy`, `text.dfy`):
  - `sort_playlist`: Python's `list.sort` with a lower-casing comparison is a stable insertion sort `SortCI`, and the dictionary keyed by primary value is a `map`.
  - `sanitize_string`.
  - `select_and_update_tag_list`, which fills an `array` in place. The mutagen label builder is an abstract function `rawLabel`.
- **Viewport** (`display.dfy`):
  - The display status dictionary of `main` is a class `DisplayStatus`.
  - One method per key handler: Down, Up, Page Down, Page Up, End, Home, S, T and s.
  - Each handler is proved against a pure function on `View(text, cursor)`. With `rows = LINES - 2` and `tot = len(file_list)`, every function keeps the invariant `ViewOk`: the cursor is on a line showing an entry, and the list is scrolled no further than a full last page.
- **Play queue and continuation** (`queue.dfy`, `playback.dfy`):
  - `play_status_dict` is a class `PlayStatus`.
  - `play_thread`'s own variable is a class `PlayThread` with a `Tick` method.
  - The Enter/space, `+`, `-` and `c` handlers are methods.
  - Each handler and each pass of the thread's loop is one atomic step, proved against a pure transition function on `Machine`.
  - Two invariants are proved:
    - `Sound` is kept by every step, whatever the key presses. No `pop` meets an empty or too short list, and indices stay in the list.
    - `Aligned` says `queue_file[k]` is the file of `queue_index[k]`, after the pending start. It is kept by `+`, `c` and the thread. It is kept by Enter and `-` only when no start is pending.

### Behaviour the model reproduces

Each of these is stated as a lemma.

- A blank line in a playlist makes `load_m3u` fail: `line[0]` raises IndexError at kolmogorov.py:126. The model returns `Err(BlankLine)`.
- `load_m3u` never checks the `#EXTM3U` marker. The marker is skipped like any `#` line, wherever it is.
- A one-entry playlist is stripped to the empty entry, and joining it back adds a `/`.
- The common prefix can end inside a directory name. Then `join(base_path, entry)` inserts a `/` that was not there, so the docstring's reconstruction promise holds only when the prefix is `""` or `"/"` or ends in `/`.
- The docstring of `sanitize_string` says "> 128", but the code also drops code 128.
- Page Down with the cursor on the bottom line moves the cursor to an earlier entry.
- S with entry 0 highlighted and scrolled off screen puts the cursor on entry 1, not on the highlighted entry.
- Sorting in tag mode goes through a dictionary keyed by label. Two files with the same label both become the later file.
- `+` then `-` while a start is pending removes the wrong file from `queue_file`.
- Enter twice before the thread's next pass leaves a stale file in `queue_file`.

## Model

| member | source | states |
|---|---|---|
| Common.IndexOf | kolmogorov.py:688 | list.index gives a position holding the value, with no earlier occurrence of it |
| Text.Strip | kolmogorov.py:125 | the stripped line is the slice of the line left after cutting white space only off both ends, and it neither starts nor ends with white space; it is empty exactly when the line is all white space, and a clean line is unchanged |
| Text.SanitizeString | kolmogorov.py:232-238 | the loop returns the kept-characters reference `AsciiOnly`, and every character it returns has a code below 128 |
| Text.AsciiOnlyConcat | kolmogorov.py:235-237 | sanitizing distributes over concatenation, so the kept characters stay in their original order |
| Text.AsciiOnlyKeepsAscii | kolmogorov.py:235-237 | a string of ASCII characters is returned unchanged |
| Text.AsciiOnlyIdempotent | kolmogorov.py:232-238 | sanitizing twice is sanitizing once |
| Text.AsciiOnlyDropsHigh | kolmogorov.py:233-236 | every character of code 128 or more is dropped, 128 included, contrary to the "> 128" of the docstring |
| Paths.Join | kolmogorov.py:127-128 | joining onto an absolute entry gives the entry; otherwise the entry is appended to the base, directly when the base is empty or ends in '/', and after an inserted '/' otherwise; an absolute base gives an absolute result |
| Paths.Dirname | kolmogorov.py:121 | the directory is the path up to and including its last '/', kept whole when that head is all slashes and otherwise with its trailing slashes removed (never down to nothing); it is absolute when the path is, and empty when the path has no '/' |
| Paths.CommonPrefix | kolmogorov.py:132 | the common prefix is a prefix of every path |
| Paths.CommonPrefixLongest | kolmogorov.py:132 | every string that is a prefix of all paths is a prefix of the common prefix, so it is the longest one |
| Paths.LcpLongest | kolmogorov.py:132 | the common prefix of two strings is the longest one |
| Paths.SplitExt | kolmogorov.py:222 | root and extension concatenate to the path; the extension is non-empty exactly when the last '.' follows the last '/' and something other than '.' precedes it in that component, and it then starts at that last '.'; it is empty or a dot followed by no dot and no '/' |
| Paths.SplitExtLower | kolmogorov.py:423 | the extension of the lower-cased name is the lower-cased extension |
| Playlist.IsM3UPlaylist | kolmogorov.py:88-96 | an empty file is not a playlist, only the first line is looked at, and an accepted first line is at least as long as the marker |
| Playlist.Resolve | kolmogorov.py:127-128 | a line resolved against an absolute directory, or an absolute line, is absolute |
| Playlist.StripCommonPrefix | kolmogorov.py:132-136 | the returned base path is the common prefix of the collected paths; when it is neither "" nor "/", base path + entry is the collected path; otherwise the entries are the collected paths |
| Playlist.Load | kolmogorov.py:98-136 | loading fails exactly when some line is blank, and otherwise gives the reference reading against the playlist's directory with its common prefix cut off |
| Playlist.LoadM3U | kolmogorov.py:98-136 | the line loop followed by the prefix strip returns the reference reading `Load`: an error for a blank line, else the stripped entries and the base path |
| Playlist.CollectPathsIsReference | kolmogorov.py:124-130 | the loop fails exactly when some line is blank; otherwise it collects, in order, every line not starting with '#', joined onto the playlist's directory when relative |
| Playlist.CollectConcat | kolmogorov.py:124-130 | reading a playlist in two parts and combining the results is reading it whole |
| Playlist.ErrorPersists | kolmogorov.py:124-126 | once a prefix of the lines fails, the whole playlist fails |
| Playlist.LoadSkipsComment | kolmogorov.py:126-127 | a '#' line, the marker included, changes nothing wherever it stands |
| Playlist.CollectedAbsolute | kolmogorov.py:121-128 | a playlist at an absolute path yields absolute paths only |
| Playlist.JoinRestores | kolmogorov.py:118-136 | join(base path, entry) gives back the collected path when the base path is "" or "/", or when it ends in '/' and the entry left over is relative |
| Playlist.SingleEntryLosesName | kolmogorov.py:132-136 | a one-entry playlist returns the empty entry with the whole path as base, and joining them back adds a '/' |
| Playlist.MidSegmentCut | kolmogorov.py:132-136 | the common prefix of /music1/x and /music2/y is /music, cut inside a directory name |
| Playlist.MidSegmentPrefix | kolmogorov.py:132 | the common prefix of /music1/x and /music2/y is exactly /music |
| Playlist.WriteM3U | kolmogorov.py:145-149 | the written lines are the marker and then join(base path, entry) for each entry, in order |
| Playlist.WrittenIsPlaylist | kolmogorov.py:88-96 | what write_m3u writes passes the first-line test of is_m3u_playlist |
| Playlist.CollectAfterMarker | kolmogorov.py:124-127 | a marker line in front of a playlist changes nothing in what the loop collects |
| Playlist.CollectWritten | kolmogorov.py:124-130 | the loop collects from what write_m3u wrote exactly the written paths, in order |
| Playlist.LoadWritten | kolmogorov.py:98-149 | loading what write_m3u wrote, for storable paths, succeeds with the written paths and their common prefix cut off |
| Playlist.StripJoined | kolmogorov.py:132-136 | cutting the common prefix off the written paths keeps one entry per path, and prefix + entry (the entry alone under "/") is the written path |
| Playlist.WriteThenLoad | kolmogorov.py:98-149 | for written paths that are absolute, do not end in white space and hold no line break: loading what was written succeeds with as many entries as were written, and base path + entry (or the entry alone when the base path is "/") is the written path |
| Players.CheckPlayers | kolmogorov.py:185-212 | the loops build the table `Support`: for each known extension, the command lines of the installed players that support it, in player order |
| Players.Candidates | kolmogorov.py:200-212 | every command line listed for an extension is that of an installed player of the list that supports it |
| Players.Support | kolmogorov.py:185-212 | the reference table: its keys are known extensions, each mapped to a non-empty list of command lines of installed players supporting it |
| Players.SupportKeys | kolmogorov.py:200-212 | the table has a key exactly when the extension is known and some installed player supports it |
| Players.CandidatesHead | kolmogorov.py:200-212 | an extension's list of command lines is non-empty exactly when some installed player supports it, and its head is that of the first such player |
| Players.FirstPlayerExists | kolmogorov.py:200-205 | the first installed supporting player exists exactly when some player in the list is installed and supports the extension |
| Players.Trimmed | kolmogorov.py:802-804 | the reference trimming: the same keys, each known extension left with its first command line only (an empty list stays empty), every other entry untouched |
| Players.TrimToFirstPlayer | kolmogorov.py:802-804 | the loop leaves each known extension's list with its first command line only and every other entry as it was |
| Players.FileSupportedByFirstPlayer | kolmogorov.py:214-230 | after the table is built and trimmed, every list has one command line, and is_file_supported gives the first installed supporting player's command line for a file whose lower-cased extension (longer than the dot) is a key, and nothing otherwise |
| Players.IsFileSupported | kolmogorov.py:214-230 | a command line comes back exactly when the lower-cased extension without its dot is a key of the table, and it is the first one listed for that key |
| Players.PlaybackKey | kolmogorov.py:423-425 | the key play_thread looks up holds no '.', no '/' and no upper-case letter |
| Players.DotlessKeyOfExtension | kolmogorov.py:423-426 | on an extension as splitext returns it, dropping the dot of the lower-cased extension gives the key is_file_supported takes, or "" where it takes none |
| Players.PlaybackKeyMatches | kolmogorov.py:423-426 | the key play_thread computes is the key is_file_supported computes, and is "" exactly where is_file_supported finds no extension |
| Players.PlaybackKeyAgrees | kolmogorov.py:423-426 | the key play_thread computes finds an entry exactly when is_file_supported does, and the same command line |
| Players.KnownExtensionsDistinct | kolmogorov.py:22 | the known extensions are distinct |
| Players.MplayerFirst | kolmogorov.py:24-44 | with mplayer installed, every known extension is played by mplayer alone |
| Sorting.LeCITotal | kolmogorov.py:252 | the lower-casing comparison is total |
| Sorting.LeCITransitive | kolmogorov.py:252 | the lower-casing comparison is transitive |
| Sorting.SortCI | kolmogorov.py:252 | sorting gives a permutation of the list |
| Sorting.SortCISorted | kolmogorov.py:252 | the sorted list is ordered by lower-cased comparison |
| Sorting.SortContains | kolmogorov.py:257 | the remembered value is in the sorted list, so list.index finds it |
| Sorting.Tracked | kolmogorov.py:256-259 | the new index is None exactly when the old one is, and otherwise is the first position of the old index's value in the sorted list |
| Sorting.BuildIndex | kolmogorov.py:249-251 | the dictionary has a key for each primary value, mapped to the secondary entry of its last occurrence |
| Sorting.LookUpAll | kolmogorov.py:253-255 | each secondary entry is the dictionary's value for the primary entry at its position |
| Sorting.PairsKept | kolmogorov.py:249-255 | with distinct primary entries, each secondary entry stays paired with its primary entry |
| Sorting.SortPlaylist | kolmogorov.py:240-260 | the primary list comes back as a case-insensitively sorted permutation; each secondary entry is that of the last equal primary entry, so pairs are kept when the primary entries are distinct; the index follows its value (first occurrence), None gives None |
| Tags.Label | kolmogorov.py:403 | a label holds ASCII characters only |
| Tags.Filled | kolmogorov.py:329-331 | after filling the window, every slot in it holds a label; an empty one holds the label of its file joined onto the base directory; every other slot is unchanged |
| Tags.SelectAndUpdateTagList | kolmogorov.py:301-332 | the array is filled in place to exactly `Filled` for the window [text_index, min(text_index + n, len(file_list))) |
| Tags.FillIdempotent | kolmogorov.py:330 | filling a window twice is filling it once: a label is never rebuilt |
| Tags.FillScrolled | kolmogorov.py:329-331 | after two windows are filled, every slot of both holds a label and the first fill's labels are kept |
| Display.RowInList | kolmogorov.py:583-641 | under the viewport invariant the cursor's entry is in the list |
| Display.KeyDown | kolmogorov.py:583-591 | Down keeps the invariant and moves to the next entry, unless at the last one |
| Display.KeyUp | kolmogorov.py:593-601 | Up keeps the invariant and moves to the previous entry, unless at the first one |
| Display.KeyPageDown | kolmogorov.py:603-618 | Page Down keeps the invariant, never scrolls back, and either scrolls by rows - 2 with the cursor on the top line or puts the cursor on the last entry |
| Display.KeyPageUp | kolmogorov.py:620-629 | Page Up keeps the invariant, puts the cursor on the top line, and scrolls back by rows - 2 or to the top |
| Display.KeyEnd | kolmogorov.py:631-635 | End gives a valid view on the last entry |
| Display.KeyHome | kolmogorov.py:637-641 | Home gives a valid view on the first entry |
| Display.KeyShow | kolmogorov.py:698-712 | S keeps the viewport valid; with the highlighted entry on screen (or none highlighted) nothing moves; otherwise the highlighted entry comes on screen and the cursor lands on it, or on entry 1 when it is entry 0 |
| Display.ShowFirstEntry | kolmogorov.py:704-706 | with entry 0 highlighted and scrolled off, S puts the cursor on entry 1 |
| Display.DownThenUp | kolmogorov.py:583-601 | Down then Up returns to the same entry when Down moved |
| Display.PageDownMovesBack | kolmogorov.py:603-608 | with 10 rows, 100 entries and the cursor on the bottom line, Page Down moves the cursor from entry 9 back to entry 8 |
| Display.DisplayStatus.constructor | kolmogorov.py:544-546 | the display starts valid at the top, with nothing highlighted, tag mode off and an empty label cache |
| Display.DisplayStatus.Down | kolmogorov.py:583-591 | the handler moves the view as `KeyDown`, keeps the state valid and changes nothing else |
| Display.DisplayStatus.Up | kolmogorov.py:593-601 | the handler moves the view as `KeyUp`, keeps the state valid and changes nothing else |
| Display.DisplayStatus.PageDown | kolmogorov.py:603-618 | the handler moves the view as `KeyPageDown`, keeps the state valid and changes nothing else |
| Display.DisplayStatus.PageUp | kolmogorov.py:620-629 | the handler moves the view as `KeyPageUp`, keeps the state valid and changes nothing else |
| Display.DisplayStatus.End | kolmogorov.py:631-635 | the handler sets the view to `KeyEnd` and changes nothing else |
| Display.DisplayStatus.Home | kolmogorov.py:637-641 | the handler sets the view to `KeyHome` and changes nothing else |
| Display.DisplayStatus.Show | kolmogorov.py:698-712 | the handler changes the view as `KeyShow` for the highlighted entry, keeps the display status valid and changes nothing else |
| Display.DisplayStatus.ToggleTagMode | kolmogorov.py:735-738 | T flips tag mode when tags are supported and changes nothing else |
| Display.DisplayStatus.RefreshTags | kolmogorov.py:561-564 | in tag mode the labels of the entries on screen are filled as `Filled`; otherwise the cache is unchanged |
| Display.DisplayStatus.Sort | kolmogorov.py:714-732 | s sorts by file name outside tag mode and by fully filled label in tag mode, moving the other list along and tracking the highlighted entry; the view stays valid |
| Display.DisplayStatus.SortByName | kolmogorov.py:715-720 | the files come back sorted, each label moved with its file name, the highlighted entry tracked |
| Display.DisplayStatus.ReadAllTags | kolmogorov.py:725-726 | before a tag-mode sort every slot of the cache holds a label: the cache is filled as `Filled` over the whole list |
| Display.DisplayStatus.SortByLabel | kolmogorov.py:722-731 | every label is read first; the labels come back sorted, each file moved with its label, the highlighted entry tracked by label |
| Display.SortPairsByName | kolmogorov.py:716-720 | sort_playlist on the file names yields the sorted-by-name state |
| Display.SortPairsByLabel | kolmogorov.py:728-731 | sort_playlist on the labels of the filled cache yields the sorted-by-label state |
| Display.NameSortKeepsPairs | kolmogorov.py:716-720 | with distinct file names, sorting by name keeps every label with its file |
| Display.LabelSortDuplicates | kolmogorov.py:728-731 | two files with the same label both become the later file after sorting by label |
| Queue.Enqueue | kolmogorov.py:674-681 | + appends an index absent from the queue, with its file, and leaves a queued one as it was |
| Queue.Dequeue | kolmogorov.py:685-690 | - removes the first occurrence of the index and the queue_file entry at the same position, keeping the order of the rest |
| Queue.EnqueueIdempotent | kolmogorov.py:674-681 | pressing + twice is pressing it once |
| Queue.EnqueueThenDequeue | kolmogorov.py:674-690 | + then - of an absent index restores both lists when they have equal length |
| Queue.EnqueueThenDequeuePending | kolmogorov.py:683-690 | with a start pending, + then - removes the pending file and keeps the enqueued one |
| Queue.EnqueueMatches | kolmogorov.py:674-681 | + keeps queue_file the joined paths of queue_index and queue_index free of duplicates |
| Queue.DequeueMatches | kolmogorov.py:683-690 | - keeps queue_file the joined paths of queue_index and queue_index free of duplicates |
| Playback.InitialSound | kolmogorov.py:551 | the start-up state is sound and aligned |
| Playback.EnterKey | kolmogorov.py:643-670 | Enter on the highlighted entry clears it and asks for a stop, leaving both queues alone; elsewhere it highlights the entry and asks for a start, popping queue_index when the entry heads it and otherwise putting the entry's file at the head of queue_file; the flag, the process and the pid are unchanged |
| Playback.PlusKey | kolmogorov.py:672-681 | the + key changes the queues as `Enqueue` and nothing else |
| Playback.MinusKey | kolmogorov.py:683-691 | the - key changes the queues as `Dequeue` and nothing else |
| Playback.ContinueKey | kolmogorov.py:693-696 | c flips the continue flag and changes nothing else |
| Playback.StartOrStop | kolmogorov.py:417-440 | a pending start pops the head of queue_file and starts, exactly when its extension is in the table, the first command line plus the file, recording the new pid; a pending stop forgets the process and the pid; todo ends as do_nothing |
| Playback.Completion | kolmogorov.py:447-469 | nothing happens unless the process has finished; then both queues non-empty make the head of queue_index the highlighted entry to start, whatever the flag, keeping the process and its pid; else with continue set and a next entry, that entry is highlighted to start and its file appended to queue_file, again keeping process and pid; else the process, pid and highlight are cleared with the queues untouched; the flag never changes |
| Playback.Step | kolmogorov.py:415-469 | a pass with no key handled in between keeps the state sound, and starts exactly the command its start or stop half starts |
| Playback.TailSound | kolmogorov.py:453 | popping the queue head keeps the indices distinct and in the list |
| Playback.EnterKeepsSound | kolmogorov.py:643-670 | Enter keeps the state sound |
| Playback.PlusKeepsSound | kolmogorov.py:672-681 | + keeps the state sound |
| Playback.MinusKeepsSound | kolmogorov.py:683-691 | - keeps the state sound: its pop never meets a too short queue_file |
| Playback.PlusKeepsAligned | kolmogorov.py:672-696 | + and c keep the queues aligned, even with a start pending |
| Playback.MinusKeepsAligned | kolmogorov.py:683-691 | - keeps the queues aligned when no start is pending |
| Playback.EnterKeepsAligned | kolmogorov.py:643-670 | Enter keeps the queues aligned when no start is pending |
| Playback.StartOrStopAligned | kolmogorov.py:417-440 | the first half of a pass leaves the queues matched, and the file it starts is the highlighted entry's |
| Playback.CompletionKeepsAligned | kolmogorov.py:447-469 | the second half of a pass keeps the queues aligned |
| Playback.StepKeepsAligned | kolmogorov.py:415-469 | a pass keeps the queues aligned, and the file it starts is the highlighted entry's |
| Playback.CompletionPolicy | kolmogorov.py:415-469 | from every sound state, a pass whose process is alive after the start or stop half and has finished: with both queues (as that half leaves them) non-empty, the head of queue_index is highlighted and started with queue_file as it stands, whatever the flag; else with continue set and a next entry, that entry is highlighted and its file appended; in both of these the process and its pid are kept; else process, pid and highlight are cleared and the queues untouched; without a finished process the pass ends after its first half |
| Playback.CompletionPolicyAligned | kolmogorov.py:447-469 | with the queues aligned and nothing pending, the file the policy puts first in queue_file is the joined path of the entry it highlights |
| Playback.EnterThenStep | kolmogorov.py:643-670 | Enter on an entry not playing, with nothing pending, makes the next pass start that entry's file with the table's player, if its extension has one |
| Playback.EnterStops | kolmogorov.py:643-649 | Enter on the highlighted entry leaves, after the next pass, no process, no pid and no highlighted entry |
| Playback.EnterTwiceLeavesStaleFile | kolmogorov.py:660-670 | Enter on two entries before a pass leaves the first entry's file in queue_file with no index, so the queues are no longer aligned |
| Playback.CursorRow | kolmogorov.py:644-645 | the entry under the cursor is in the list |
| Playback.PlayStatus.constructor | kolmogorov.py:551 | the queues start empty, nothing to do, no pid, continue set |
| Playback.PlayThread.constructor | kolmogorov.py:413 | play_thread starts with no process |
| Playback.PlayThread.Tick | kolmogorov.py:415-469 | one pass changes the shared state as `Step`, keeps it sound and leaves the view and the lists alone |
| Playback.PlayThread.StartOrStopSong | kolmogorov.py:417-440 | the first half of a pass changes the state as `StartOrStop` |
| Playback.PlayThread.CompleteSong | kolmogorov.py:447-469 | the second half of a pass changes the state as `Completion` |
| Playback.Enter | kolmogorov.py:643-670 | the handler changes the shared state as `EnterKey` for the entry under the cursor and keeps it sound |
| Playback.Plus | kolmogorov.py:672-681 | the handler changes the shared state as `PlusKey` for the entry under the cursor and keeps it sound |
| Playback.Minus | kolmogorov.py:683-691 | the handler changes the shared state as `MinusKey` for the entry under the cursor and keeps it sound |
| Playback.ToggleContinue | kolmogorov.py:693-696 | the handler changes the shared state as `ContinueKey` |

## Left out

- Curses painting (`paint_screen`, kolmogorov.py:489-531), the `r` key (`clearok`) and the screen size: terminal I/O. The screen size enters as the parameters `rows` and `cols`.
- Threads, locks and the `time.sleep` polling of `play_thread`: each key handler and each pass of the thread's loop is one atomic step, so interleavings inside a step are not modelled.
- Spawning and killing the player (`subprocess.Popen`, `os.kill`) and the `which`/`ls` probes: foreign calls. Whether the process has finished and the pid a new process gets are parameters, and `which` is the predicate `available`.
- File reading and writing: a playlist is its sequence of lines. `open`, and the write of `~/.kolmogorov_playlist.m3u` by the `q` key, are not modelled.
- `read_file_list` (kolmogorov.py:262-299): it walks the file system.
- `build_label_from_tag` (kolmogorov.py:334-403): mutagen calls and floating-point arithmetic. It is the abstract function `rawLabel`, whose result is sanitized as at kolmogorov.py:403.
- The `q` key, the command line (`getopt`, `usage`, `print_players`), the exit on an empty support table (kolmogorov.py:796-799) and the other exit codes: process control and text output.
- The viewport functions and `DisplayStatus` require a non-empty list and at least two list lines on screen, which the program does not check: a terminal under four lines gives fewer, and `~/.kolmogorov_playlist.m3u` is loaded at kolmogorov.py:828 without an empty-list check. The label width `cols` stands for `curses.COLS - 8` (kolmogorov.py:563).
- Players.CheckPlayers: requires distinct extensions, as the known extensions are (`KnownExtensionsDistinct`). With a repeated extension the source would add a player twice.
- Players.PlaybackKeyAgrees: requires that the table has no empty key. `check_players` only creates keys from the known extensions, none of them empty.
- Players.IsFileSupported: returns `None` where the source returns `False`.
- Sorting.SortPlaylist: requires the secondary list to be at least as long as the primary one. The source raises IndexError otherwise, and both callers pass lists of equal length.
- Sorting.SortPlaylist: the stability of `list.sort` is modelled by the insertion sort but not stated as a property.
- Display.DisplayStatus.Sort: indices in the play queue are not renumbered by a sort, in the model as in the source, so a sort while songs are queued leaves the queue pointing at other entries. This is not stated as a lemma.
- Queue.Dequeue: requires queue_file to be at least as long as queue_index; the source raises IndexError otherwise. `Sound` keeps this true for every reachable state.
- Playback.MinusKeepsAligned, Playback.EnterKeepsAligned: hold only when no start is pending. With a start pending these keys misalign the queues (`EnqueueThenDequeuePending`, `EnterTwiceLeavesStaleFile`).
- Playback.Completion: requires a highlighted line whenever a process exists. `Sound` alone does not give this (a pending stop may leave a live process with no highlighted line); `Step`, which runs the start or stop half first in the same atomic pass, does. `PlayThread.CompleteSong` carries the same requirement.
- The race between `play_thread` and the Enter key: Enter on the playing entry clears the highlighted line (kolmogorov.py:647) before it sets `todo` (kolmogorov.py:650), and the thread's start or stop half (kolmogorov.py:417-445) and its completion half (kolmogorov.py:447-469) take the lock separately. A pass whose start or stop half ran before kolmogorov.py:650, and whose song ends, reaches kolmogorov.py:456 with no highlighted line and computes `None + 1`. The thread dies holding `play_status_lock`, so the Enter press itself blocks at kolmogorov.py:649 if the thread took the lock first, and otherwise the next Enter, `+`, `-`, `c` or `q` blocks for ever. The atomic passes of the model cannot express this interleaving.
- Playback.StartOrStop: a start whose extension has no player keeps the old (killed) process as `play_process`, as the source does. The kill itself is not modelled.
