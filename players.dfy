/** The player support table: the known players and extensions
    (kolmogorov.py:21-44), check_players, the trimming in the start-up code
    that keeps the first player per extension, is_file_supported, and the
    extension key play_thread looks up. Whether a command is installed (the
    `which` probe) is the parameter `available`. */
module Players {
  import opened Common
  import opened Text
  import opened Paths

  /** A player's command line: the command, then its options. */
  type Command = seq<string>

  /** A known player: its command, its options and the set of extensions
      whose flag is True. */
  datatype Player = Player(command: string, options: seq<string>, formats: set<string>)

  function CommandLine(p: Player): Command {
    [p.command] + p.options
  }

  const KnownExtensions: seq<string> := ["mp3", "mp2", "flac", "ogg", "wav", "aac", "mp4"]

  const Mplayer: Player := Player("mplayer", ["-quiet", "-vo", "null", "-cache", "1024"],
    {"mp3", "mp2", "flac", "ogg", "wav", "aac", "mp4"})
  const Mpg123: Player := Player("mpg123", ["-q"], {"mp3", "mp2"})
  const Mpg321: Player := Player("mpg321", ["-q"], {"mp3", "mp2"})
  const Ogg123: Player := Player("ogg123", ["-q"], {"ogg"})
  const Flac123: Player := Player("flac123", ["-q"], {"flac"})

  const KnownPlayers: seq<Player> := [Mplayer, Mpg123, Mpg321, Ogg123, Flac123]

  /** Extension to the command lines that can play it. */
  type SupportTable = map<string, seq<Command>>

  predicate Plays(p: Player, ext: string, available: string -> bool) {
    available(p.command) && ext in p.formats
  }

  /** The command lines of the installed players that support ext, in the
      order of the player list. */
  function Candidates(players: seq<Player>, ext: string, available: string -> bool): (r: seq<Command>)
    ensures forall c :: c in r ==> exists p :: p in players && Plays(p, ext, available) && c == CommandLine(p)
    decreases |players|
  {
    if players == [] then []
    else
      var p := players[|players| - 1];
      Candidates(players[..|players| - 1], ext, available) + (if Plays(p, ext, available) then [CommandLine(p)] else [])
  }

  /** The table check_players builds: a key for every extension some
      installed player supports, mapped to a non-empty list of command
      lines of installed players that support it. */
  function Support(players: seq<Player>, exts: seq<string>, available: string -> bool): (d: SupportTable)
    ensures forall ext :: ext in d ==> ext in exts && d[ext] != []
    ensures forall ext :: ext in d ==> forall c :: c in d[ext] ==>
              exists p :: p in players && Plays(p, ext, available) && c == CommandLine(p)
  {
    map ext | ext in exts && Candidates(players, ext, available) != [] :: Candidates(players, ext, available)
  }

  /** The table after the players in players[..i] and, for player i, the
      extensions in exts[..j] have been processed. */
  function Stage(players: seq<Player>, i: nat, exts: seq<string>, j: nat, available: string -> bool): SupportTable
    requires i < |players| && j <= |exts|
  {
    map ext | ext in exts && Candidates(if ext in exts[..j] then players[..i + 1] else players[..i], ext, available) != []
      :: Candidates(if ext in exts[..j] then players[..i + 1] else players[..i], ext, available)
  }

  lemma CandidatesStep(players: seq<Player>, i: nat, ext: string, available: string -> bool)
    requires i < |players|
    ensures Candidates(players[..i + 1], ext, available)
         == Candidates(players[..i], ext, available) + (if Plays(players[i], ext, available) then [CommandLine(players[i])] else [])
  {
    assert players[..i + 1][..i] == players[..i];
  }

  /** Processing extension exts[j] for installed player i turns stage j
      into stage j + 1. */
  lemma StageStep(players: seq<Player>, i: nat, exts: seq<string>, j: nat, available: string -> bool)
    requires i < |players| && j < |exts| && Distinct(exts) && available(players[i].command)
    ensures var ext, p, s := exts[j], players[i], Stage(players, i, exts, j, available);
      Stage(players, i, exts, j + 1, available) ==
        if ext in p.formats then s[ext := (if ext in s then s[ext] else []) + [CommandLine(p)]] else s
  {
    var ext, p := exts[j], players[i];
    var s := Stage(players, i, exts, j, available);
    var t := Stage(players, i, exts, j + 1, available);
    var u := if ext in p.formats then s[ext := (if ext in s then s[ext] else []) + [CommandLine(p)]] else s;
    assert ext !in exts[..j];
    assert exts[..j + 1] == exts[..j] + [ext];
    CandidatesStep(players, i, ext, available);
    forall e
      ensures (e in t <==> e in u) && (e in t ==> t[e] == u[e])
    {
      if e != ext {
        assert e in exts[..j + 1] <==> e in exts[..j];
      }
    }
    assert t == u;
  }

  /** Stage 0 of player i is the table of the players before it, and its
      last stage is the table including it. */
  lemma StageEnds(players: seq<Player>, i: nat, exts: seq<string>, available: string -> bool)
    requires i < |players|
    ensures Stage(players, i, exts, 0, available) == Support(players[..i], exts, available)
    ensures Stage(players, i, exts, |exts|, available) == Support(players[..i + 1], exts, available)
  {
    assert players[..i + 1][..i] == players[..i];
    assert exts[..|exts|] == exts;
  }

  /** A player that is not installed leaves the table as it was. */
  lemma SkipPlayer(players: seq<Player>, i: nat, exts: seq<string>, available: string -> bool)
    requires i < |players| && !available(players[i].command)
    ensures Support(players[..i + 1], exts, available) == Support(players[..i], exts, available)
  {
    forall ext
      ensures Candidates(players[..i + 1], ext, available) == Candidates(players[..i], ext, available)
    {
      CandidatesStep(players, i, ext, available);
    }
  }

  /** check_players (kolmogorov.py:185-212). The extensions are distinct,
      as the known extensions are. */
  method CheckPlayers(players: seq<Player>, exts: seq<string>, available: string -> bool) returns (d: SupportTable)
    requires Distinct(exts)
    ensures d == Support(players, exts, available)
  {
    d := map[];
    assert players[..0] == [];
    for i := 0 to |players|
      invariant d == Support(players[..i], exts, available)
    {
      var player := players[i];
      if available(player.command) {
        StageEnds(players, i, exts, available);
        for j := 0 to |exts|
          invariant d == Stage(players, i, exts, j, available)
        {
          StageStep(players, i, exts, j, available);
          var ext := exts[j];
          if ext in player.formats {
            if ext in d {
              d := d[ext := d[ext] + [CommandLine(player)]];
            } else {
              assert [] + [CommandLine(player)] == [CommandLine(player)];
              d := d[ext := [CommandLine(player)]];
            }
          }
        }
      } else {
        SkipPlayer(players, i, exts, available);
      }
    }
    assert players[..|players|] == players;
  }

  /** The table after the start-up code (kolmogorov.py:802-804) has kept
      only the first command line of each known extension. */
  function Trimmed(d: SupportTable, exts: seq<string>): (r: SupportTable)
    ensures r.Keys == d.Keys
    ensures forall ext :: ext in r && ext in exts ==> |r[ext]| <= 1 && (d[ext] != [] ==> r[ext] == [d[ext][0]])
    ensures forall ext :: ext in r && ext !in exts ==> r[ext] == d[ext]
    ensures forall ext :: ext in r && d[ext] == [] ==> r[ext] == []
  {
    map ext | ext in d :: if ext in exts && |d[ext]| > 1 then [d[ext][0]] else d[ext]
  }

  /** Trimming one more extension. */
  lemma TrimStep(d: SupportTable, exts: seq<string>, j: nat)
    requires j < |exts|
    ensures var ext, r := exts[j], Trimmed(d, exts[..j]);
      Trimmed(d, exts[..j + 1]) == if ext in r && |r[ext]| > 1 then r[ext := [r[ext][0]]] else r
  {
    var ext, r := exts[j], Trimmed(d, exts[..j]);
    var t := Trimmed(d, exts[..j + 1]);
    var u := if ext in r && |r[ext]| > 1 then r[ext := [r[ext][0]]] else r;
    assert exts[..j + 1] == exts[..j] + [ext];
    assert t.Keys == d.Keys == r.Keys == u.Keys;
    forall e | e in t
      ensures t[e] == u[e]
    {
      TrimEntryStep(d, exts, j, e);
    }
    MapsEqual(t, u);
  }

  lemma MapsEqual(t: SupportTable, u: SupportTable)
    requires t.Keys == u.Keys && forall e :: e in t ==> t[e] == u[e]
    ensures t == u
  {
  }

  /** One entry of the table, trimmed up to exts[..j + 1]. */
  lemma TrimEntryStep(d: SupportTable, exts: seq<string>, j: nat, e: string)
    requires j < |exts| && e in d && exts[..j + 1] == exts[..j] + [exts[j]]
    ensures var ext, r := exts[j], Trimmed(d, exts[..j]);
      Trimmed(d, exts[..j + 1])[e] == (if ext in r && |r[ext]| > 1 then r[ext := [r[ext][0]]] else r)[e]
  {
    assert e in exts[..j + 1] <==> e in exts[..j] || e == exts[j];
  }

  /** The trimming loop of the start-up code (kolmogorov.py:802-804). */
  method TrimToFirstPlayer(d: SupportTable, exts: seq<string>) returns (r: SupportTable)
    ensures r == Trimmed(d, exts)
  {
    r := d;
    assert exts[..0] == [];
    for j := 0 to |exts|
      invariant r == Trimmed(d, exts[..j])
    {
      TrimStep(d, exts, j);
      var ext := exts[j];
      if ext in r && |r[ext]| > 1 {
        r := r[ext := [r[ext][0]]];
      }
    }
    assert exts[..|exts|] == exts;
  }

  /** The key is_file_supported looks up: the extension without its dot,
      lower-cased, when it is longer than the dot alone. */
  function ExtensionKey(filename: string): Option<string> {
    var ext := SplitExt(filename).1;
    if |ext| > 1 then Some(Lower(ext[1..])) else None
  }

  /** is_file_supported (kolmogorov.py:214-230): the first command line for
      the file's extension, or None where the source returns False. */
  function IsFileSupported(filename: string, d: SupportTable): (r: Option<Command>)
    requires forall ext :: ext in d ==> d[ext] != []
    ensures r.Some? <==> ExtensionKey(filename).Some? && ExtensionKey(filename).value in d
    ensures r.Some? ==> r.value == d[ExtensionKey(filename).value][0]
  {
    match ExtensionKey(filename)
    case Some(key) => if key in d then Some(d[key][0]) else None
    case None => None
  }

  /** The extension of a lower-cased name is a suffix of it, so it holds no
      upper-case letter. */
  lemma LowerExtensionChars(filename: string)
    ensures var e := SplitExt(Lower(filename)).1;
      forall i :: 0 <= i < |e| ==> !('A' <= e[i] <= 'Z')
  {
    var l := Lower(filename);
    var sp := SplitExt(l);
    forall i | 0 <= i < |sp.1|
      ensures !('A' <= sp.1[i] <= 'Z')
    {
      assert sp.1[i] == (sp.0 + sp.1)[|sp.0| + i] == l[|sp.0| + i];
    }
  }

  /** The key play_thread looks up (kolmogorov.py:423-426): the extension of
      the lower-cased name, without its leading dot. */
  function PlaybackKey(filename: string): (key: string)
    ensures forall i :: 0 <= i < |key| ==> key[i] != '.' && key[i] != '/' && !('A' <= key[i] <= 'Z')
  {
    LowerExtensionChars(filename);
    DotlessKey(SplitExt(Lower(filename)).1)
  }

  // ---------------------------------------------------------------------
  // Properties

  /** Reference definition: the first player, in list order, that is
      installed and supports ext. */
  function FirstPlayer(players: seq<Player>, ext: string, available: string -> bool): Option<Player> {
    if players == [] then None
    else if Plays(players[0], ext, available) then Some(players[0])
    else FirstPlayer(players[1..], ext, available)
  }

  lemma {:induction false} CandidatesCons(players: seq<Player>, ext: string, available: string -> bool)
    requires players != []
    ensures Candidates(players, ext, available)
         == (if Plays(players[0], ext, available) then [CommandLine(players[0])] else []) + Candidates(players[1..], ext, available)
    decreases |players|
  {
    var n := |players|;
    if n > 1 {
      var init := players[..n - 1];
      assert init[1..] == players[1..][..n - 2];
      assert players[1..][n - 2] == players[n - 1];
      CandidatesCons(init, ext, available);
    } else {
      assert players[..0] == [] && players[1..] == [];
    }
  }

  /** The candidates for ext are non-empty exactly when some installed player
      supports it, and the first of them is that of the first such player. */
  lemma {:induction false} CandidatesHead(players: seq<Player>, ext: string, available: string -> bool)
    ensures Candidates(players, ext, available) != [] <==> FirstPlayer(players, ext, available).Some?
    ensures Candidates(players, ext, available) != [] ==>
      Candidates(players, ext, available)[0] == CommandLine(FirstPlayer(players, ext, available).value)
    decreases |players|
  {
    if players != [] {
      CandidatesCons(players, ext, available);
      CandidatesHead(players[1..], ext, available);
    }
  }

  lemma {:induction false} FirstPlayerExists(players: seq<Player>, ext: string, available: string -> bool)
    ensures FirstPlayer(players, ext, available).Some? <==>
      exists i :: 0 <= i < |players| && Plays(players[i], ext, available)
    decreases |players|
  {
    if players != [] {
      FirstPlayerExists(players[1..], ext, available);
      if exists i :: 0 <= i < |players| && Plays(players[i], ext, available) {
        var i :| 0 <= i < |players| && Plays(players[i], ext, available);
        if i > 0 {
          assert Plays(players[1..][i - 1], ext, available);
        }
      }
      if exists i :: 0 <= i < |players[1..]| && Plays(players[1..][i], ext, available) {
        var i :| 0 <= i < |players[1..]| && Plays(players[1..][i], ext, available);
        assert Plays(players[i + 1], ext, available);
      }
    }
  }

  /** check_players has a key for an extension exactly when the extension
      is known and some installed player supports it. */
  lemma SupportKeys(players: seq<Player>, exts: seq<string>, available: string -> bool, ext: string)
    ensures ext in Support(players, exts, available) <==>
      ext in exts && exists i :: 0 <= i < |players| && Plays(players[i], ext, available)
  {
    CandidatesHead(players, ext, available);
    FirstPlayerExists(players, ext, available);
  }

  /** After check_players and the trimming, is_file_supported returns, for a
      file whose extension is known, the command line of the first player in
      list order that is installed and supports it; for any other file it
      returns None. */
  lemma FileSupportedByFirstPlayer(filename: string, players: seq<Player>, exts: seq<string>, available: string -> bool)
    ensures var d := Trimmed(Support(players, exts, available), exts);
      && (forall ext :: ext in d ==> |d[ext]| == 1)
      && IsFileSupported(filename, d) ==
           match ExtensionKey(filename)
           case Some(key) =>
             if key in exts && FirstPlayer(players, key, available).Some?
             then Some(CommandLine(FirstPlayer(players, key, available).value))
             else None
           case None => None
  {
    var d := Trimmed(Support(players, exts, available), exts);
    forall ext | ext in d
      ensures |d[ext]| == 1
    {
      CandidatesHead(players, ext, available);
    }
    match ExtensionKey(filename)
    case Some(key) =>
      CandidatesHead(players, key, available);
    case None =>
  }

  /** The key play_thread takes from a lower-cased extension. */
  function DotlessKey(lext: string): string {
    if |lext| > 0 && lext[0] == '.' then lext[1..] else lext
  }

  /** On an extension as splitext returns it, the key play_thread takes
      from its lower-cased form is the key is_file_supported takes, and ""
      where is_file_supported takes none. */
  lemma DotlessKeyOfExtension(ext: string)
    requires ext == [] || ext[0] == '.'
    ensures (if |ext| > 1 then Some(Lower(ext[1..])) else None)
         == (if DotlessKey(Lower(ext)) == "" then None else Some(DotlessKey(Lower(ext))))
  {
    if ext != [] {
      LowerSuffix(ext, 1);
      assert Lower(ext)[0] == '.';
    }
  }

  /** play_thread computes the same key as is_file_supported, except that
      it gives "" where is_file_supported gives up (no extension, or a bare
      dot). */
  lemma PlaybackKeyMatches(filename: string)
    ensures ExtensionKey(filename) == if PlaybackKey(filename) == "" then None else Some(PlaybackKey(filename))
  {
    SplitExtLower(filename);
    DotlessKeyOfExtension(SplitExt(filename).1);
  }

  /** Once trimmed, the table is what play_thread uses as well; the key it
      computes finds the same entry as is_file_supported. */
  lemma PlaybackKeyAgrees(filename: string, d: SupportTable)
    requires forall ext :: ext in d ==> d[ext] != []
    requires "" !in d
    ensures PlaybackKey(filename) in d <==> IsFileSupported(filename, d).Some?
    ensures PlaybackKey(filename) in d ==> IsFileSupported(filename, d) == Some(d[PlaybackKey(filename)][0])
  {
    PlaybackKeyMatches(filename);
  }

  lemma KnownExtensionsDistinct()
    ensures Distinct(KnownExtensions)
  {
  }

  /** With mplayer installed, it is the player for every known extension. */
  lemma MplayerFirst(available: string -> bool)
    requires available("mplayer")
    ensures var d := Trimmed(Support(KnownPlayers, KnownExtensions, available), KnownExtensions);
      forall ext :: ext in KnownExtensions ==> ext in d && d[ext] == [CommandLine(Mplayer)]
  {
    forall ext | ext in KnownExtensions
      ensures Candidates(KnownPlayers, ext, available) != []
      ensures Candidates(KnownPlayers, ext, available)[0] == CommandLine(Mplayer)
    {
      CandidatesHead(KnownPlayers, ext, available);
    }
  }
}
