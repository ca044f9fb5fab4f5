// Answering a file request: from song_table by a pattern query, and from the folder
// by a scan. The two agree as long as the table mirrors the folder.

module Lookup {
  import opened Sums
  import opened Tables
  import opened SongIndex
  import Inotify

  // The entries of req_info, by position.
  const REQ_TARGET := 0
  const REQ_HOST := 1
  const REQ_PORT := 2
  const REQ_IP_ADDRESS := 3
  const REQ_USER_AGENT := 4
  const REQ_METHOD := 5
  const REQ_RESULT := 6
  const REQ_ERROR := 7
  const REQ_SIZE := 8

  // The three entries a lookup reads and writes.
  datatype Info = Info(target: string, result: string, error: string)

  // What the database gives back for one SELECT of names and URLs.
  datatype Answer = Failed(database: string, message: string) | Rows(rows: seq<Song>)

  function Back(s: string): char
    requires s != ""
  {
    s[|s| - 1]
  }

  predicate StartsWith(s: string, prefix: string) {
    |prefix| <= |s| && s[..|prefix|] == prefix
  }

  predicate HasDots(s: string) {
    exists i :: 0 <= i && i + 1 < |s| && s[i] == '.' && s[i + 1] == '.'
  }

  predicate Illegal(target: string)
    requires target != ""
  {
    Back(target) == '/' || HasDots(target)
  }

  predicate Starred(target: string) {
    |target| > 1 && Back(target) == '*'
  }

  function WithLast(s: string, c: char): string
    requires s != ""
  {
    s[..|s| - 1] + [c]
  }

  // The pattern sent to the database.
  function Pattern(target: string): string {
    if Starred(target) then WithLast(target, '%') else target
  }

  const ILLEGAL := "Illegal request-target"

  // ---- From the database ----

  datatype Handled = DbError | ResultIsOk | SeveralFiles | NotFound

  function Restored(target: string): string {
    if target != "" && Back(target) == '%' then WithLast(target, '*') else target
  }

  function SeveralError(target: string): string {
    "Several" + (" files match the requested target(" + target + ") at once")
  }

  function Several(info: Info): Info {
    info.(target := Restored(info.target), error := SeveralError(Restored(info.target)))
  }

  function HandleAnswer(info: Info, a: Answer): (Handled, Info) {
    match a
    case Failed(database, message) =>
      (DbError, info.(error := info.error + ("Database " + database + " error while searching for target "
                                              + info.target + ": " + message)))
    case Rows(rows) =>
      if |rows| == 1 then (ResultIsOk, info)
      else if |rows| > 1 then (SeveralFiles, Several(info))
      else (NotFound, info)
  }

  function Found(info: Info, song: Song): Info {
    info.(target := song.name, result := song.url + "/" + song.name)
  }

  function FileUri(info: Info, byName: Answer, byUid: Answer): Info
    requires info.target != ""
  {
    if Illegal(info.target) then info.(error := ILLEGAL)
    else
      var asked := info.(target := Pattern(info.target));
      var (name, afterName) := HandleAnswer(asked, byName);
      if name == DbError || name == SeveralFiles then afterName
      else
        var (uid, afterUid) := HandleAnswer(afterName, byUid);
        if uid == DbError || uid == SeveralFiles then afterUid
        else if name == NotFound && uid == NotFound then
          afterUid.(error := "File " + afterUid.target + " not found")
        else if name == ResultIsOk && uid != ResultIsOk then Found(afterUid, byName.rows[0])
        else if name != ResultIsOk && uid == ResultIsOk then Found(afterUid, byUid.rows[0])
        else Several(afterUid)
  }

  // ---- From the folder ----

  datatype Entry = Entry(name: string, regular: bool)

  // path / name, as the file system library joins them.
  function Join(path: string, name: string): string {
    if path == "" || Back(path) == '/' then path + name else path + "/" + name
  }

  predicate Wanted(target: string, name: string) {
    if Starred(target) then StartsWith(name, target[..|target| - 1]) else name == target
  }

  function Stripped(target: string): string {
    if Starred(target) then target[..|target| - 1] else target
  }

  function FirstWanted(entries: seq<Entry>, target: string): Option<string> {
    if entries == [] then None
    else if entries[0].regular && Wanted(target, entries[0].name) then Some(entries[0].name)
    else FirstWanted(entries[1..], target)
  }

  function Scan(info: Info, entries: seq<Entry>, path: string): Info
    requires info.target != ""
  {
    if Illegal(info.target) then info.(error := ILLEGAL)
    else
      match FirstWanted(entries, info.target)
      case Some(name) => info.(target := name, result := Join(path, name))
      case None =>
        info.(target := Stripped(info.target), error := "File " + Stripped(info.target) + " not found")
  }

  // ---- Pattern matching ----

  // SIMILAR TO on patterns whose only operators are % and _.
  predicate Matches(p: string, s: string)
    decreases |p| + |s|
  {
    if p == "" then s == ""
    else if p[0] == '%' then Matches(p[1..], s) || (s != "" && Matches(p, s[1..]))
    else s != "" && (p[0] == '_' || p[0] == s[0]) && Matches(p[1..], s[1..])
  }

  // No character that SIMILAR TO or an SQL literal reads specially.
  predicate Plain(s: string) {
    forall i :: 0 <= i < |s| ==> s[i] !in "%_|*+?{}()[]\\'"
  }

  lemma PlainTail(s: string)
    requires Plain(s) && s != ""
    ensures Plain(s[1..]) && s[0] != '%' && s[0] != '_' && s[0] != '*'
  {
    assert s[0] !in "%_|*+?{}()[]\\'";
  }

  lemma {:induction false} PlainMatch(p: string, s: string)
    requires Plain(p)
    ensures Matches(p, s) <==> p == s
  {
    if p != "" {
      PlainTail(p);
      if s != "" {
        PlainMatch(p[1..], s[1..]);
        assert p == [p[0]] + p[1..] && s == [s[0]] + s[1..];
      }
    }
  }

  lemma {:induction false} AnyMatch(s: string)
    ensures Matches("%", s)
  {
    if s != "" {
      AnyMatch(s[1..]);
    }
  }

  // p% matches exactly the strings that start with p.
  lemma {:induction false} PrefixMatch(p: string, s: string)
    requires Plain(p)
    ensures Matches(p + "%", s) <==> StartsWith(s, p)
  {
    if p == "" {
      assert p + "%" == "%";
      AnyMatch(s);
    } else {
      PlainTail(p);
      assert (p + "%")[1..] == p[1..] + "%";
      if s != "" {
        PrefixMatch(p[1..], s[1..]);
        if |p| <= |s| {
          assert s[..|p|] == [s[0]] + s[1..][..|p| - 1];
          assert p == [p[0]] + p[1..];
        }
      }
    }
  }

  // _ stands for any one character and % for any number of them, wherever they are.
  lemma {:induction false} OperatorsMean(p: string, s: string)
    ensures Matches("_" + p, s) <==> s != "" && Matches(p, s[1..])
    ensures Matches("%" + p, s) <==> exists k :: 0 <= k <= |s| && Matches(p, s[k..])
    decreases |s|
  {
    assert ("_" + p)[1..] == p && ("%" + p)[1..] == p && s[0..] == s;
    if s != "" {
      OperatorsMean(p, s[1..]);
      assert forall k :: 0 <= k <= |s[1..]| ==> s[1..][k..] == s[k + 1..];
      if k :| 0 <= k <= |s| && Matches(p, s[k..]) {
        assert k > 0 ==> s[1..][k - 1..] == s[k..];
      }
      if k :| 0 <= k <= |s[1..]| && Matches(p, s[1..][k..]) {
        assert Matches(p, s[k + 1..]);
      }
    }
  }

  // Letters, digits, dots, blanks, dashes: nothing that has to be left out of a name.
  lemma OrdinaryIsPlain(s: string)
    requires forall i :: 0 <= i < |s| ==>
      'a' <= s[i] <= 'z' || 'A' <= s[i] <= 'Z' || '0' <= s[i] <= '9' || s[i] in " .-,&!"
    ensures Plain(s)
  {
  }

  // Only a trailing star after at least one character has a meaning in the target.
  predicate Simple(target: string) {
    target != "" && (Plain(target) || (Starred(target) && Plain(target[..|target| - 1])))
  }

  lemma SimpleTargets(p: string)
    requires Plain(p) && p != ""
    ensures Simple(p) && Simple(p + "*")
  {
    assert (p + "*")[..|p|] == p;
  }

  lemma LastPlain(s: string)
    requires Plain(s) && s != ""
    ensures Back(s) != '*' && !Starred(s)
  {
    assert s[|s| - 1] !in "%_|*+?{}()[]\\'";
  }

  lemma PatternMeans(target: string, name: string)
    requires Simple(target)
    ensures Matches(Pattern(target), name) <==> Wanted(target, name)
  {
    if Plain(target) {
      LastPlain(target);
      PlainMatch(target, name);
    } else {
      PrefixMatch(target[..|target| - 1], name);
    }
  }

  // ---- Table and folder ----

  function Select(songs: seq<Song>, pattern: string): seq<Song> {
    if songs == [] then []
    else (if Matches(pattern, songs[0].name) then [songs[0]] else []) + Select(songs[1..], pattern)
  }

  function SelectUid(songs: seq<Song>, pattern: string): seq<Song> {
    if songs == [] then []
    else (if Matches(pattern, songs[0].uid) then [songs[0]] else []) + SelectUid(songs[1..], pattern)
  }

  // What the query handler leaves when song_table holds these songs.
  function FromTable(target: string, songs: seq<Song>, error: string): Info
    requires target != ""
  {
    var pattern := Pattern(target);
    FileUri(Info(target, "", error), Rows(Select(songs, pattern)), Rows(SelectUid(songs, pattern)))
  }

  function SongNames(songs: seq<Song>): seq<string> {
    if songs == [] then [] else [songs[0].name] + SongNames(songs[1..])
  }

  function Files(entries: seq<Entry>): seq<string> {
    if entries == [] then []
    else (if entries[0].regular then [entries[0].name] else []) + Files(entries[1..])
  }

  // The table lists the folder's regular files, in any order, under the folder's path.
  ghost predicate Mirrors(songs: seq<Song>, entries: seq<Entry>, path: string) {
    && multiset(SongNames(songs)) == multiset(Files(entries))
    && (forall i :: 0 <= i < |songs| ==> songs[i].url == path)
    && (forall i, j :: 0 <= i < j < |Files(entries)| ==> Files(entries)[i] != Files(entries)[j])
  }

  function Hit(target: string): string -> nat {
    (name: string) => if Wanted(target, name) then 1 else 0
  }

  // How many files of the folder the request matches.
  function Hits(entries: seq<Entry>, target: string): nat {
    Sum(Hit(target), Files(entries))
  }

  lemma {:induction false} SelectCount(songs: seq<Song>, target: string)
    requires Simple(target)
    ensures |Select(songs, Pattern(target))| == Sum(Hit(target), SongNames(songs))
    ensures forall i :: 0 <= i < |Select(songs, Pattern(target))| ==>
      var s := Select(songs, Pattern(target))[i];
      s in songs && s.name in SongNames(songs) && Wanted(target, s.name)
  {
    if songs != [] {
      PatternMeans(target, songs[0].name);
      SelectCount(songs[1..], target);
    }
  }

  lemma {:induction false} FirstWantedMeans(entries: seq<Entry>, target: string)
    ensures FirstWanted(entries, target) == None <==> Hits(entries, target) == 0
    ensures FirstWanted(entries, target).Some? ==>
      FirstWanted(entries, target).value in Files(entries) && Wanted(target, FirstWanted(entries, target).value)
  {
    if entries != [] {
      FirstWantedMeans(entries[1..], target);
      if entries[0].regular {
        assert Files(entries)[0] == entries[0].name && Files(entries)[1..] == Files(entries[1..]);
      } else {
        assert Files(entries) == Files(entries[1..]);
      }
    }
  }

  // Two matches in a folder are one when there is only one.
  lemma OnlyHit(files: seq<string>, target: string, a: string, b: string)
    requires Sum(Hit(target), files) == 1 && a in files && b in files && Wanted(target, a) && Wanted(target, b)
    ensures a == b
  {
    var i :| 0 <= i < |files| && files[i] == a;
    var j :| 0 <= j < |files| && files[j] == b;
    if i != j {
      SumTwo(Hit(target), files, if i < j then i else j, if i < j then j else i);
    }
  }

  ghost predicate NoUid(songs: seq<Song>, pattern: string) {
    SelectUid(songs, pattern) == []
  }

  // A target is illegal exactly if it ends in a slash or holds two dots in a row.
  lemma IllegalMeans(target: string)
    requires target != ""
    ensures Illegal(target) <==> target[|target| - 1] == '/' || exists a, b :: target == a + ".." + b
  {
    if i :| 0 <= i && i + 1 < |target| && target[i] == '.' && target[i + 1] == '.' {
      assert target == target[..i] + ".." + target[i + 2..];
    }
    if a, b :| target == a + ".." + b {
      assert target[|a|] == '.' && target[|a| + 1] == '.';
    }
  }

  // The only song a lookup can find: that of the name's row if there is just one, and
  // otherwise that of the uid's row. The target becomes its name.
  lemma FoundMeans(info: Info, byName: Answer, byUid: Answer)
    requires info.target != "" && info.result == ""
    ensures var db := FileUri(info, byName, byUid);
      db.result != "" ==>
        && byName.Rows? && byUid.Rows? && |byName.rows| + |byUid.rows| == 1
        && var song := if |byName.rows| == 1 then byName.rows[0] else byUid.rows[0];
           db.target == song.name && db.result == song.url + "/" + song.name
  {
  }

  // A starred target goes to the database with a percent sign in place of the star.
  function Asked(target: string): string
    requires target != ""
  {
    var n := |target| - 1;
    if n > 0 && target[n] == '*' then target[..n] + "%" else target
  }

  // The target as the client sent it, unless that ended in a percent sign, which the
  // source takes for its own and makes a star.
  function Quoted(target: string): string
    requires target != ""
  {
    var n := |target| - 1;
    if target[n] == '%' then target[..n] + "*" else target
  }

  lemma AskedAndQuoted(target: string)
    requires target != ""
    ensures Pattern(target) == Asked(target) && Restored(Pattern(target)) == Quoted(target)
  {
    var n := |target| - 1;
    if n > 0 && target[n] == '*' {
      var p := target[..n] + "%";
      assert p[..n] == target[..n];
      assert target == target[..n] + "*";
    }
  }

  // The error texts: of a query that fails, of several files, and of none.
  lemma ErrorOfFailure(target: string, error: string, database: string, message: string,
                       byName: Answer, byUid: Answer)
    requires target != "" && !Illegal(target)
    requires byName == Answer.Failed(database, message)
          || (byName.Rows? && |byName.rows| <= 1 && byUid == Answer.Failed(database, message))
    ensures var own := "Database " + database + " error while searching for target " + Asked(target) + ": " + message;
      FileUri(Info(target, "", error), byName, byUid) == Info(Asked(target), "", error + own)
  {
    AskedAndQuoted(target);
  }

  // Several rows for the name, or for the uid, or one for each.
  lemma ErrorOfSeveral(target: string, error: string, byName: Answer, byUid: Answer)
    requires target != "" && !Illegal(target) && byName.Rows?
    requires |byName.rows| > 1 || (byUid.Rows? && (|byUid.rows| > 1 || |byName.rows| == |byUid.rows| == 1))
    ensures var text := "Several files match the requested target(" + Quoted(target) + ") at once";
      FileUri(Info(target, "", error), byName, byUid) == Info(Quoted(target), "", text)
  {
    AskedAndQuoted(target);
    SeveralText(Quoted(target));
  }

  lemma SeveralText(quoted: string)
    ensures SeveralError(quoted) == "Several files match the requested target(" + quoted + ") at once"
  {
    var more := " files match the requested target(";
    assert "Several files match the requested target(" == "Several" + more;
    assert "Several" + (more + quoted + ") at once") == ("Several" + more) + quoted + ") at once";
  }

  lemma ErrorOfNothing(target: string, error: string)
    requires target != "" && !Illegal(target)
    ensures FileUri(Info(target, "", error), Rows([]), Rows([]))
            == Info(Asked(target), "", "File " + Asked(target) + " not found")
  {
    AskedAndQuoted(target);
  }

  // The database's answer when no uid matches, by the number of rows.
  lemma UriByRows(target: string, rows: seq<Song>, error: string)
    requires target != ""
    ensures var db := FileUri(Info(target, "", error), Rows(rows), Rows([]));
      if Illegal(target) then db.error == ILLEGAL && db.result == ""
      else if |rows| == 0 then db.result == "" && db.error == "File " + Pattern(target) + " not found"
      else if |rows| == 1 then db.result == rows[0].url + "/" + rows[0].name && db.target == rows[0].name
      else db.result == "" && StartsWith(db.error, "Several")
  {
    var asked := Info(Pattern(target), "", error);
    if |rows| > 1 {
      SeveralPrefix(asked);
    }
  }

  lemma StartsMore(s: string, prefix: string, more: string)
    requires StartsWith(s, prefix)
    ensures StartsWith(s + more, prefix)
  {
    assert (s + more)[..|prefix|] == s[..|prefix|];
  }

  lemma SeveralPrefix(info: Info)
    ensures StartsWith(Several(info).error, "Several")
  {
    assert SeveralError(Restored(info.target))[..7] == "Several";
  }

  lemma {:induction false} FirstIsFirst(entries: seq<Entry>, target: string) returns (k: nat)
    requires FirstWanted(entries, target).Some?
    ensures k < |entries| && entries[k] == Entry(FirstWanted(entries, target).value, true)
    ensures Wanted(target, entries[k].name)
    ensures forall j :: 0 <= j < k ==> !(entries[j].regular && Wanted(target, entries[j].name))
  {
    if entries[0].regular && Wanted(target, entries[0].name) {
      k := 0;
    } else {
      var i := FirstIsFirst(entries[1..], target);
      k := i + 1;
      assert forall j :: 0 < j < k ==> entries[j] == entries[1..][j - 1];
    }
  }

  // What the scan finds is the first file it lists that is wanted: with a star after at
  // least one character, one that begins with what stands before the star, and otherwise
  // the one with this very name. A lone star is a name.
  lemma ScanFinds(target: string, entries: seq<Entry>, path: string) returns (k: nat)
    requires target != "" && Scan(Info(target, "", ""), entries, path).result != ""
    ensures var n := |target| - 1;
      && k < |entries| && entries[k].regular && Scan(Info(target, "", ""), entries, path).target == entries[k].name
      && (if n > 0 && target[n] == '*' then StartsWith(entries[k].name, target[..n]) else entries[k].name == target)
      && forall j :: 0 <= j < k && entries[j].regular ==>
           (if n > 0 && target[n] == '*' then !StartsWith(entries[j].name, target[..n]) else entries[j].name != target)
  {
    k := FirstIsFirst(entries, target);
  }

  // The scan's answer, by the number of files that match.
  lemma ScanByHits(target: string, entries: seq<Entry>, path: string)
    requires target != "" && path != "" && Back(path) != '/'
    ensures var dir := Scan(Info(target, "", ""), entries, path);
      if Illegal(target) then dir.error == ILLEGAL && dir.result == ""
      else if Hits(entries, target) == 0 then
        dir.result == "" && dir.error == "File " + Stripped(target) + " not found"
      else
        dir.target in Files(entries) && Wanted(target, dir.target) && dir.result == path + "/" + dir.target
  {
    FirstWantedMeans(entries, target);
  }

  lemma RowsAreHits(target: string, songs: seq<Song>, entries: seq<Entry>, path: string)
    requires Simple(target) && Mirrors(songs, entries, path)
    ensures var rows := Select(songs, Pattern(target));
      && |rows| == Hits(entries, target)
      && forall i :: 0 <= i < |rows| ==>
           rows[i].url == path && rows[i].name in Files(entries) && Wanted(target, rows[i].name)
  {
    var rows := Select(songs, Pattern(target));
    SelectCount(songs, target);
    SumPermuted(Hit(target), SongNames(songs), Files(entries));
    forall i | 0 <= i < |rows|
      ensures rows[i].url == path && rows[i].name in Files(entries) && Wanted(target, rows[i].name)
    {
      assert rows[i].name in multiset(SongNames(songs));
    }
  }

  // What the two handlers answer, by the number of files that match.
  lemma IndexAgreesWithScan(target: string, songs: seq<Song>, entries: seq<Entry>, path: string, error: string)
    requires Simple(target) && Mirrors(songs, entries, path) && NoUid(songs, Pattern(target))
    requires path != "" && Back(path) != '/'
    ensures var db := FromTable(target, songs, error);
      var dir := Scan(Info(target, "", ""), entries, path);
      if Illegal(target) then
        db.error == dir.error == ILLEGAL && db.result == dir.result == ""
      else if Hits(entries, target) == 0 then
        && db.result == dir.result == ""
        && db.error == "File " + Pattern(target) + " not found"
        && dir.error == "File " + Stripped(target) + " not found"
      else if Hits(entries, target) == 1 then
        db.result == dir.result && db.target == dir.target && dir.target in Files(entries)
      else
        && db.result == "" && StartsWith(db.error, "Several")
        && dir.target in Files(entries) && Wanted(target, dir.target) && dir.result == path + "/" + dir.target
  {
    var rows := Select(songs, Pattern(target));
    RowsAreHits(target, songs, entries, path);
    UriByRows(target, rows, error);
    ScanByHits(target, entries, path);
    if !Illegal(target) && |rows| == 1 {
      var dir := Scan(Info(target, "", ""), entries, path);
      OnlyHit(Files(entries), target, rows[0].name, dir.target);
    }
  }

  // Agreement on the path needs the folder path as configured: joined to a path that
  // is empty or ends in a slash, the scan's result is another string.
  lemma PathsAgreeIff(path: string, song: Song, info: Info)
    requires song.url == path
    ensures Found(info, song).result == Join(path, song.name) <==> path != "" && Back(path) != '/'
    ensures path == "" || path[|path| - 1] == '/' ==> Join(path, song.name) == path + song.name
  {
    assert |path + "/" + song.name| == |path + song.name| + 1;
  }

  // ---- After a refresh ----

  // What a refresh lists: the folder's regular files.
  function Listed(entries: seq<Entry>, path: string, hash: string -> string): seq<Song> {
    if entries == [] then []
    else (if entries[0].regular then [Song(entries[0].name, hash(Inotify.Quoted(entries[0].name)), path)] else [])
         + Listed(entries[1..], path, hash)
  }

  lemma {:induction false} ListedMeans(entries: seq<Entry>, path: string, hash: string -> string)
    ensures SongNames(Listed(entries, path, hash)) == Files(entries)
    ensures |Listed(entries, path, hash)| == |Files(entries)|
    ensures forall i :: 0 <= i < |Files(entries)| ==>
      Listed(entries, path, hash)[i] == Song(Files(entries)[i], hash("'" + Files(entries)[i] + "'"), path)
  {
    if entries != [] {
      ListedMeans(entries[1..], path, hash);
      if !entries[0].regular {
        assert Listed(entries, path, hash) == Listed(entries[1..], path, hash);
        assert Files(entries) == Files(entries[1..]);
      }
    }
  }

  // A file gets the same row by a refresh as by the report that it was created.
  lemma ListedAsAdded(entries: seq<Entry>, path: string, hash: string -> string, i: nat, r: Inotify.Record)
    requires i < |Files(entries)| && Reports(r, Created(Files(entries)[i], Regular))
    ensures i < |Listed(entries, path, hash)|
    ensures HandledAll(Inotify.CallOf(path, r), hash) == [Add(Listed(entries, path, hash)[i])]
  {
    ListedMeans(entries, path, hash);
    AddedSong(path, hash, r, Created(Files(entries)[i], Regular), Files(entries)[i]);
  }

  // ---- Requests by uid ----

  function UidIs(uid: string): Song -> nat {
    (s: Song) => if s.uid == uid then 1 else 0
  }

  lemma {:induction false} SelectUidMeans(songs: seq<Song>, uid: string)
    requires Plain(uid)
    ensures |SelectUid(songs, uid)| == Sum(UidIs(uid), songs)
    ensures forall i :: 0 <= i < |SelectUid(songs, uid)| ==>
      SelectUid(songs, uid)[i] in songs && SelectUid(songs, uid)[i].uid == uid
  {
    if songs != [] {
      PlainMatch(uid, songs[0].uid);
      SelectUidMeans(songs[1..], uid);
    }
  }

  // A starred target finds the uids that begin with what stands before the star.
  lemma {:induction false} StarredUids(songs: seq<Song>, p: string, song: Song)
    requires Plain(p)
    ensures song in SelectUid(songs, p + "%") <==> song in songs && StartsWith(song.uid, p)
  {
    if songs != [] {
      PrefixMatch(p, songs[0].uid);
      StarredUids(songs[1..], p, song);
    }
  }

  lemma OnlyUid(songs: seq<Song>, k: nat, uid: string)
    requires k < |songs| && forall i :: 0 <= i < |songs| ==> (songs[i].uid == uid <==> i == k)
    ensures Sum(UidIs(uid), songs) == 1
  {
    SumWithout(UidIs(uid), songs, k);
    SumZero(UidIs(uid), songs[..k] + songs[k + 1..]);
  }

  lemma UidRows(entries: seq<Entry>, path: string, hash: string -> string, data: seq<Song>, k: nat)
    requires multiset(data) == multiset(Listed(entries, path, hash)) && k < |Files(entries)|
    requires var uid := hash("'" + Files(entries)[k] + "'");
      && uid != "" && Plain(uid) && uid !in Files(entries)
      && forall i :: 0 <= i < |Files(entries)| && hash("'" + Files(entries)[i] + "'") == uid ==> i == k
    ensures var name := Files(entries)[k];
      var uid := hash("'" + name + "'");
      Select(data, uid) == [] && SelectUid(data, uid) == [Song(name, uid, path)]
  {
    var songs := Listed(entries, path, hash);
    var uid := hash("'" + Files(entries)[k] + "'");
    ListedMeans(entries, path, hash);
    OnlyUid(songs, k, uid);
    SumPermuted(UidIs(uid), data, songs);
    SelectUidMeans(data, uid);
    NoSuchName(entries, path, hash, data, uid);
    NameRows(data, uid);
    var song := SelectUid(data, uid)[0];
    assert song in multiset(songs);
    var i :| 0 <= i < |songs| && songs[i] == song;
  }

  // In a table that holds what a refresh lists, the uid that only this file has leads to
  // this file, and the target becomes its name.
  lemma UidFinds(entries: seq<Entry>, path: string, hash: string -> string, data: seq<Song>, k: nat, error: string)
    requires multiset(data) == multiset(Listed(entries, path, hash)) && k < |Files(entries)|
    requires var uid := hash("'" + Files(entries)[k] + "'");
      && uid != "" && Plain(uid) && !Illegal(uid) && uid !in Files(entries)
      && forall i :: 0 <= i < |Files(entries)| && hash("'" + Files(entries)[i] + "'") == uid ==> i == k
    ensures var name := Files(entries)[k];
      FromTable(hash("'" + name + "'"), data, error) == Info(name, path + "/" + name, error)
  {
    var name := Files(entries)[k];
    UidRows(entries, path, hash, data, k);
    LastPlain(hash("'" + name + "'"));
    UidAlone(hash("'" + name + "'"), Song(name, hash("'" + name + "'"), path), error);
  }

  lemma UidAlone(target: string, song: Song, error: string)
    requires target != "" && !Illegal(target)
    ensures FileUri(Info(target, "", error), Rows([]), Rows([song]))
            == Info(song.name, song.url + "/" + song.name, error)
  {
  }

  lemma NoSuchName(entries: seq<Entry>, path: string, hash: string -> string, data: seq<Song>, name: string)
    requires multiset(data) == multiset(Listed(entries, path, hash)) && name !in Files(entries)
    ensures Sum(SongOfName(name), data) == 0
  {
    var songs := Listed(entries, path, hash);
    ListedMeans(entries, path, hash);
    SumPermuted(SongOfName(name), data, songs);
    forall i | 0 <= i < |songs| ensures SongOfName(name)(songs[i]) == 0 {
      assert songs[i].name == Files(entries)[i];
    }
    SumZero(SongOfName(name), songs);
  }

  lemma {:induction false} NamesCount(songs: seq<Song>, name: string)
    ensures multiset(SongNames(songs))[name] == Sum(SongOfName(name), songs)
  {
    if songs != [] {
      NamesCount(songs[1..], name);
      assert SongNames(songs)[1..] == SongNames(songs[1..]);
      assert SongNames(songs) == [songs[0].name] + SongNames(songs[1..]);
    }
  }

  lemma SameSongNames(a: seq<Song>, b: seq<Song>)
    requires multiset(a) == multiset(b)
    ensures multiset(SongNames(a)) == multiset(SongNames(b))
  {
    forall name ensures multiset(SongNames(a))[name] == multiset(SongNames(b))[name] {
      NamesCount(a, name);
      NamesCount(b, name);
      SumPermuted(SongOfName(name), a, b);
    }
  }

  lemma SameUrls(a: seq<Song>, b: seq<Song>, path: string)
    requires multiset(a) == multiset(b) && forall i :: 0 <= i < |b| ==> b[i].url == path
    ensures forall i :: 0 <= i < |a| ==> a[i].url == path
  {
    forall i | 0 <= i < |a| ensures a[i].url == path {
      assert a[i] in multiset(b);
    }
  }

  lemma ListedMirrors(entries: seq<Entry>, path: string, hash: string -> string, data: seq<Song>)
    requires forall i, j :: 0 <= i < j < |Files(entries)| ==> Files(entries)[i] != Files(entries)[j]
    requires multiset(data) == multiset(Listed(entries, path, hash))
    ensures Mirrors(data, entries, path)
  {
    var songs := Listed(entries, path, hash);
    ListedMeans(entries, path, hash);
    SameSongNames(data, songs);
    SameUrls(data, songs, path);
  }

  // A completed refresh of a folder leaves a table that mirrors it, which is what the
  // agreement of the two handlers needs.
  lemma RefreshMirrors(entries: seq<Entry>, path: string, hash: string -> string, table: Table<Song>,
                       steps: seq<RefreshStep>, t: Refresh)
    requires forall i, j :: 0 <= i < j < |Files(entries)| ==> Files(entries)[i] != Files(entries)[j]
    requires RefreshRun(Refresh(Begun, multiset{}, table), Listed(entries, path, hash), steps, t)
    requires t.phase == Adding(|Listed(entries, path, hash)|) && t.queued == multiset{}
    ensures Mirrors(Data(t.table.rows), entries, path)
  {
    ListedMeans(entries, path, hash);
    RefreshExact(table, Listed(entries, path, hash), steps, t);
    ListedMirrors(entries, path, hash, Data(t.table.rows));
  }

  // ---- After a history of events ----

  function NameSet(names: seq<string>): set<string> {
    set name | name in names
  }

  lemma {:induction false} CountOnce(names: seq<string>, name: string)
    requires forall i, j :: 0 <= i < j < |names| ==> names[i] != names[j]
    ensures multiset(names)[name] == if name in names then 1 else 0
  {
    if names != [] {
      assert forall i :: 0 <= i < |names[1..]| ==> names[1..][i] == names[i + 1];
      CountOnce(names[1..], name);
      assert names == [names[0]] + names[1..];
    }
  }

  lemma OneRowCounts(t: Table<Song>, files: seq<string>, name: string)
    requires forall i, j :: 0 <= i < j < |files| ==> files[i] != files[j]
    ensures OneRow(t, NameSet(files), name) <==> multiset(SongNames(Data(t.rows)))[name] == multiset(files)[name]
  {
    NamesCount(Data(t.rows), name);
    CountOnce(files, name);
  }

  lemma OneEachCounts(t: Table<Song>, files: seq<string>)
    requires forall i, j :: 0 <= i < j < |files| ==> files[i] != files[j]
    ensures OneEach(t, NameSet(files)) <==> multiset(SongNames(Data(t.rows))) == multiset(files)
  {
    var a, b := multiset(SongNames(Data(t.rows))), multiset(files);
    forall name ensures OneRow(t, NameSet(files), name) <==> a[name] == b[name] {
      OneRowCounts(t, files, name);
    }
    if OneEach(t, NameSet(files)) {
      forall name ensures a[name] == b[name] {
        assert OneRow(t, NameSet(files), name);
      }
      assert a == b;
    }
  }

  // A table mirrors a folder exactly when it has one row for each regular file and
  // the folder's path in every row.
  lemma MirrorsMeans(t: Table<Song>, entries: seq<Entry>, path: string)
    requires forall i, j :: 0 <= i < j < |Files(entries)| ==> Files(entries)[i] != Files(entries)[j]
    ensures Mirrors(Data(t.rows), entries, path) <==> OneEach(t, NameSet(Files(entries))) && Under(path, Data(t.rows))
  {
    OneEachCounts(t, Files(entries));
  }

  // What the directory iterator says about the folder.
  ghost predicate Lists(entries: seq<Entry>, f: Folder) {
    && f.Present?
    && (forall i, j :: 0 <= i < j < |entries| ==> entries[i].name != entries[j].name)
    && (forall name, regular :: Entry(name, regular) in entries <==>
          name in f.entries && regular == f.entries[name].Regular?)
  }

  lemma {:induction false} FilesMean(entries: seq<Entry>, name: string)
    ensures name in Files(entries) <==> Entry(name, true) in entries
  {
    if entries != [] {
      FilesMean(entries[1..], name);
      assert entries == [entries[0]] + entries[1..];
    }
  }

  lemma {:induction false} FilesDistinct(entries: seq<Entry>)
    requires forall i, j :: 0 <= i < j < |entries| ==> entries[i].name != entries[j].name
    ensures forall i, j :: 0 <= i < j < |Files(entries)| ==> Files(entries)[i] != Files(entries)[j]
  {
    if entries != [] {
      assert forall i :: 0 <= i < |entries[1..]| ==> entries[1..][i] == entries[i + 1];
      FilesDistinct(entries[1..]);
      FilesMean(entries[1..], entries[0].name);
      assert entries[0].name !in Files(entries[1..]);
      var rest := Files(entries[1..]);
      assert forall i :: 0 <= i < |rest| ==> rest[i] in rest;
    }
  }

  lemma FilesListed(entries: seq<Entry>, f: Folder)
    requires Lists(entries, f)
    ensures forall i, j :: 0 <= i < j < |Files(entries)| ==> Files(entries)[i] != Files(entries)[j]
    ensures NameSet(Files(entries)) == Listing(f, true)
  {
    FilesDistinct(entries);
    forall name ensures name in Files(entries) <==> name in Listing(f, true) {
      FilesMean(entries, name);
    }
  }

  // From a table that mirrors the folder, through any history that leaves the folder and
  // any allowed order of execution: the table mirrors the folder again if and only if
  // every name that came and stayed came as a regular file that was not there yet.
  lemma HistoryMirrorsIff(path: string, hash: string -> string, before: seq<Entry>, after: seq<Entry>, f: Folder,
                          rs: seq<Inotify.Record>, cs: seq<Change>, t: Table<Song>, u: Table<Song>)
    requires Follows(path, hash, rs, cs, t, u) && Mirrors(Data(t.rows), before, path)
    requires Lists(before, f) && Lists(after, ChangedAll(f, cs))
    ensures Mirrors(Data(u.rows), after, path) <==> forall i :: Stays(cs, i) ==> Lands(f, cs, i, true)
  {
    FilesListed(before, f);
    FilesListed(after, ChangedAll(f, cs));
    MirrorsMeans(t, before, path);
    IndexExactIff(path, hash, f, rs, cs, t, u, true);
    HistoryUnder(path, hash, f, rs, cs, t, u);
    MirrorsMeans(u, after, path);
  }

  // Then the two handlers agree, as IndexAgreesWithScan says in full: here for a
  // request that at most one file matches.
  lemma AgreeAfterHistory(path: string, hash: string -> string, before: seq<Entry>, after: seq<Entry>, f: Folder,
                          rs: seq<Inotify.Record>, cs: seq<Change>, t: Table<Song>, u: Table<Song>,
                          target: string, error: string)
    requires Follows(path, hash, rs, cs, t, u) && Mirrors(Data(t.rows), before, path)
    requires Lists(before, f) && Lists(after, ChangedAll(f, cs))
    requires forall i :: Stays(cs, i) ==> Lands(f, cs, i, true)
    requires Simple(target) && NoUid(Data(u.rows), Pattern(target)) && Hits(after, target) <= 1
    requires path != "" && Back(path) != '/'
    ensures FromTable(target, Data(u.rows), error).result == Scan(Info(target, "", ""), after, path).result
  {
    HistoryMirrorsIff(path, hash, before, after, f, rs, cs, t, u);
    IndexAgreesWithScan(target, Data(u.rows), after, path, error);
  }

  // ---- One name ----

  // A request for a plain name is answered from its own rows and its own entry.
  lemma {:induction false} NameHits(names: seq<string>, name: string)
    requires Plain(name) && name != ""
    ensures Sum(Hit(name), names) == multiset(names)[name]
  {
    LastPlain(name);
    if names != [] {
      NameHits(names[1..], name);
      assert names == [names[0]] + names[1..];
    }
  }

  lemma NameRows(songs: seq<Song>, name: string)
    requires Plain(name) && name != ""
    ensures Pattern(name) == name && |Select(songs, name)| == Sum(SongOfName(name), songs)
    ensures forall i :: 0 <= i < |Select(songs, name)| ==>
      Select(songs, name)[i] in songs && Select(songs, name)[i].name == name
  {
    LastPlain(name);
    SelectCount(songs, name);
    NameHits(SongNames(songs), name);
    NamesCount(songs, name);
  }

  lemma NameScanned(entries: seq<Entry>, name: string, path: string)
    requires Plain(name) && name != "" && !Illegal(name) && path != "" && Back(path) != '/'
    ensures Hits(entries, name) == multiset(Files(entries))[name]
    ensures Scan(Info(name, "", ""), entries, path).result == if name in Files(entries) then path + "/" + name else ""
  {
    LastPlain(name);
    NameHits(Files(entries), name);
    ScanByHits(name, entries, path);
  }

  // ---- Two histories that mislead ----

  lemma AddedOnce(path: string, hash: string -> string, r: Inotify.Record, c: Change, name: string,
                  t: Table<Song>) returns (u: Table<Song>)
    requires Reports(r, c) && Adds(c, name)
    ensures Follows(path, hash, [r], [c], t, u)
    ensures Data(u.rows) == Data(t.rows) + [Song(name, hash(Inotify.Quoted(name)), path)]
  {
    var song := Song(name, hash(Inotify.Quoted(name)), path);
    MaskMeans(r, c);
    UnquotedQuoted(name);
    assert Inotify.Calls(path, [r]) == Inotify.CallOf(path, r) + Inotify.Calls(path, []);
    assert HandledAll(Inotify.Calls(path, [r]), hash) == [Add(song)] + [];
    u := Inserted(t, song);
    DoneFirst(t, Add(song), u, [], u);
    InOrder([Add(song)] + [], t, u);
    InsertedData(t, song);
  }

  lemma TwoRowsAreSeveral(name: string, a: Song, b: Song)
    requires Plain(name) && name != "" && !Illegal(name) && a.name == b.name == name
    ensures var byName := Rows(Select([a, b], Pattern(name)));
      StartsWith(FileUri(Info(name, "", ""), byName, Rows([])).error, "Several")
  {
    LastPlain(name);
    PlainMatch(name, name);
    assert Select([b], name) == [b] + Select([], name);
    assert Select([a, b], name) == [a] + Select([b], name);
    UriByRows(name, Select([a, b], name), "");
  }

  lemma ChangedOnce(f: Folder, c: Change)
    ensures ChangedAll(f, [c]) == Changed(f, c)
  {
    var cs := [c];
    assert cs[..0] == [];
    assert ChangedAll(f, cs) == Changed(ChangedAll(f, cs[..0]), c);
  }

  lemma OneFile(name: string, uid: string, path: string)
    ensures Mirrors([Song(name, uid, path)], [Entry(name, true)], path)
  {
    var songs, entries := [Song(name, uid, path)], [Entry(name, true)];
    assert songs[1..] == [] && entries[1..] == [];
    assert SongNames(songs) == [name] + SongNames(songs[1..]) == [name];
    assert Files(entries) == [name] + Files(entries[1..]) == [name];
  }

  lemma OneFileFound(name: string, path: string)
    requires Plain(name) && name != "" && !Illegal(name) && path != "" && Back(path) != '/'
    ensures Scan(Info(name, "", ""), [Entry(name, true)], path).result == path + "/" + name
  {
    LastPlain(name);
    var entries := [Entry(name, true)];
    assert entries[0].regular && Wanted(name, entries[0].name);
    assert FirstWanted(entries, name) == Some(name);
  }

  // A rename onto a song that is already there keeps the folder's entries and leaves
  // the table with two rows: the query handler finds several files, the scan the one.
  lemma RenameOntoSong(path: string, hash: string -> string, r: Inotify.Record, name: string, uid: string,
                       t: Table<Song>) returns (u: Table<Song>)
    requires Reports(r, MovedIn(name, Regular)) && Data(t.rows) == [Song(name, uid, path)]
    requires Plain(name) && name != "" && !Illegal(name) && path != "" && Back(path) != '/'
    ensures Mirrors(Data(t.rows), [Entry(name, true)], path)
    ensures ChangedAll(Present(map[name := Regular]), [MovedIn(name, Regular)]) == Present(map[name := Regular])
    ensures Follows(path, hash, [r], [MovedIn(name, Regular)], t, u)
    ensures var byName := Rows(Select(Data(u.rows), Pattern(name)));
      StartsWith(FileUri(Info(name, "", ""), byName, Rows([])).error, "Several")
    ensures Scan(Info(name, "", ""), [Entry(name, true)], path).result == path + "/" + name
  {
    u := AddedOnce(path, hash, r, MovedIn(name, Regular), name, t);
    RenamedRows(Song(name, uid, path), Song(name, hash(Inotify.Quoted(name)), path), t, u, name);
    RenameKeeps(path, name, uid, t);
  }

  lemma RenameKeeps(path: string, name: string, uid: string, t: Table<Song>)
    requires Data(t.rows) == [Song(name, uid, path)]
    requires Plain(name) && name != "" && !Illegal(name) && path != "" && Back(path) != '/'
    ensures Mirrors(Data(t.rows), [Entry(name, true)], path)
    ensures ChangedAll(Present(map[name := Regular]), [MovedIn(name, Regular)]) == Present(map[name := Regular])
    ensures Scan(Info(name, "", ""), [Entry(name, true)], path).result == path + "/" + name
  {
    OneFile(name, uid, path);
    OneFileFound(name, path);
    ChangedOnce(Present(map[name := Regular]), MovedIn(name, Regular));
  }

  lemma RenamedRows(a: Song, b: Song, t: Table<Song>, u: Table<Song>, name: string)
    requires Data(t.rows) == [a] && Data(u.rows) == [a] + [b] && a.name == b.name == name
    requires Plain(name) && name != "" && !Illegal(name)
    ensures var byName := Rows(Select(Data(u.rows), Pattern(name)));
      StartsWith(FileUri(Info(name, "", ""), byName, Rows([])).error, "Several")
  {
    assert Data(u.rows) == [a, b];
    TwoRowsAreSeveral(name, a, b);
  }

  // A directory made in an empty folder is a row of the table and no file: the query
  // handler finds it, the scan does not.
  lemma DirectoryListed(path: string, hash: string -> string, r: Inotify.Record, name: string)
      returns (u: Table<Song>)
    requires Reports(r, Created(name, Directory)) && Plain(name) && name != "" && !Illegal(name)
    requires path != "" && Back(path) != '/'
    ensures Follows(path, hash, [r], [Created(name, Directory)], Table([], RESTARTED), u)
    ensures Lists([Entry(name, false)], ChangedAll(Present(map[]), [Created(name, Directory)]))
    ensures FileUri(Info(name, "", ""), Rows(Select(Data(u.rows), Pattern(name))), Rows([])).result == path + "/" + name
    ensures Scan(Info(name, "", ""), [Entry(name, false)], path).result == ""
  {
    var song := Song(name, hash(Inotify.Quoted(name)), path);
    u := AddedOnce(path, hash, r, Created(name, Directory), name, Table([], RESTARTED));
    assert Data(u.rows) == [song];
    ChangedOnce(Present(map[]), Created(name, Directory));
    NameRows([song], name);
    UriByRows(name, Select([song], name), "");
    FilesMean([Entry(name, false)], name);
    NameScanned([Entry(name, false)], name, path);
  }

  // ---- The handlers' methods ----

  ghost function InfoOf(reqInfo: array<string>): Info
    requires reqInfo.Length == REQ_SIZE
    reads reqInfo
  {
    Info(reqInfo[0], reqInfo[6], reqInfo[7])
  }

  twostate predicate OthersKept(reqInfo: array<string>)
    requires reqInfo.Length == REQ_SIZE
    reads reqInfo
  {
    forall i :: REQ_TARGET < i < REQ_RESULT ==> reqInfo[i] == old(reqInfo[i])
  }

  method ResHandle(reqInfo: array<string>, a: Answer) returns (handled: Handled)
    requires reqInfo.Length == REQ_SIZE
    modifies reqInfo
    ensures (handled, InfoOf(reqInfo)) == HandleAnswer(old(InfoOf(reqInfo)), a) && OthersKept(reqInfo)
  {
    match a {
      case Failed(database, message) =>
        reqInfo[REQ_ERROR] := reqInfo[REQ_ERROR] + ("Database " + database + " error while searching for target "
                                                     + reqInfo[REQ_TARGET] + ": " + message);
        return DbError;
      case Rows(rows) =>
        if |rows| == 1 {
          return ResultIsOk;
        }
        if |rows| > 1 {
          FillSeveral(reqInfo);
          return SeveralFiles;
        }
        return NotFound;
    }
  }

  method FillSeveral(reqInfo: array<string>)
    requires reqInfo.Length == REQ_SIZE
    modifies reqInfo
    ensures InfoOf(reqInfo) == Several(old(InfoOf(reqInfo))) && OthersKept(reqInfo)
  {
    if reqInfo[REQ_TARGET] != "" && Back(reqInfo[REQ_TARGET]) == '%' {
      reqInfo[REQ_TARGET] := WithLast(reqInfo[REQ_TARGET], '*');
    }
    reqInfo[REQ_ERROR] := SeveralError(reqInfo[REQ_TARGET]);
  }

  // get_file_URI; the answers are those to the two SELECTs with the rewritten target.
  method GetFileUri(reqInfo: array<string>, byName: Answer, byUid: Answer)
    requires reqInfo.Length == REQ_SIZE && reqInfo[REQ_TARGET] != ""
    modifies reqInfo
    ensures InfoOf(reqInfo) == FileUri(old(InfoOf(reqInfo)), byName, byUid) && OthersKept(reqInfo)
  {
    var target := reqInfo[REQ_TARGET];
    if Back(target) == '/' || HasDots(target) {
      reqInfo[REQ_ERROR] := ILLEGAL;
      return;
    }
    if |target| > 1 && Back(target) == '*' {
      reqInfo[REQ_TARGET] := WithLast(target, '%');
    }
    var name := ResHandle(reqInfo, byName);
    if name == DbError || name == SeveralFiles {
      return;
    }
    var uid := ResHandle(reqInfo, byUid);
    if uid == DbError || uid == SeveralFiles {
      return;
    }
    if name == NotFound && uid == NotFound {
      reqInfo[REQ_ERROR] := "File " + reqInfo[REQ_TARGET] + " not found";
      return;
    }
    if name == ResultIsOk && uid == ResultIsOk {
      FillSeveral(reqInfo);
      return;
    }
    var song := if name == ResultIsOk then byName.rows[0] else byUid.rows[0];
    reqInfo[REQ_TARGET] := song.name;
    reqInfo[REQ_RESULT] := song.url + "/" + song.name;
  }

  // find: the scan of the directory, in whatever order it lists its entries.
  method Find(reqInfo: array<string>, entries: seq<Entry>, path: string)
    requires reqInfo.Length == REQ_SIZE && reqInfo[REQ_TARGET] != ""
    modifies reqInfo
    ensures InfoOf(reqInfo) == Scan(old(InfoOf(reqInfo)), entries, path) && OthersKept(reqInfo)
  {
    var target := reqInfo[REQ_TARGET];
    if Back(target) == '/' || HasDots(target) {
      reqInfo[REQ_ERROR] := ILLEGAL;
      return;
    }
    if |target| > 1 && Back(target) == '*' {
      reqInfo[REQ_TARGET] := target[..|target| - 1];
    }
    for i := 0 to |entries|
      invariant InfoOf(reqInfo) == old(InfoOf(reqInfo)).(target := Stripped(target)) && OthersKept(reqInfo)
      invariant FirstWanted(entries, target) == FirstWanted(entries[i..], target)
    {
      assert entries[i..][1..] == entries[i + 1..];
      if entries[i].regular && Wanted(target, entries[i].name) {
        reqInfo[REQ_TARGET] := entries[i].name;
        reqInfo[REQ_RESULT] := Join(path, entries[i].name);
        return;
      }
    }
    reqInfo[REQ_ERROR] := "File " + reqInfo[REQ_TARGET] + " not found";
  }
}
