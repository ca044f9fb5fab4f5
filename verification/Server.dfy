// Handle_request: from a request, through the handler's strings, to a response.

module Server {
  import opened Lookup
  import opened SongIndex
  import opened Sums
  import opened Tables
  import Inotify

  datatype Method = Get | Head | Other

  datatype Response =
    | BadRequest
    | MultipleChoices
    | InternalError
    | NotFoundError
    | OpenFile(path: string)
    | Ok(body: string)

  // What became of the insert into log_table that precedes every lookup.
  datatype LogUpdate = Logged | LogFailed(database: string, message: string)

  function LogError(log: LogUpdate): string {
    match log
    case Logged => ""
    case LogFailed(database, message) => "Database " + database + " error while updating log table: " + message
  }

  predicate AsksForTables(target: string) {
    target in {"", "/", "files_table", "Files_table", "log_table", "Log_table"}
  }

  // The response to a file request, chosen from what the handler left in its strings.
  function Respond(info: Info): Response {
    if info.result != "" then OpenFile(info.result)
    else
      var wrong := info.error + "\n";
      if StartsWith(wrong, "Illegal request") then BadRequest
      else if StartsWith(wrong, "Several") then MultipleChoices
      else if StartsWith(wrong, "Database") then InternalError
      else NotFoundError
  }

  // ---- The choice as it is meant ----

  datatype Outcome = Fails | Nothing | One | Many

  function OutcomeOf(a: Answer): Outcome {
    match a
    case Failed(_, _) => Fails
    case Rows(rows) => if |rows| == 0 then Nothing else if |rows| == 1 then One else Many
  }

  datatype Choice = C400 | C300 | C500 | C404 | COpen

  // The name's outcome decides first, then the uid's; one match by each is several.
  function Meant(legal: bool, name: Outcome, uid: Outcome): Choice {
    if !legal then C400
    else match (name, uid)
         case (Fails, _) => C500
         case (Many, _) => C300
         case (_, Fails) => C500
         case (_, Many) => C300
         case (Nothing, Nothing) => C404
         case (One, One) => C300
         case _ => COpen
  }

  function ChoiceOf(r: Response): Choice
    requires !r.Ok?
  {
    match r
    case BadRequest => C400
    case MultipleChoices => C300
    case InternalError => C500
    case NotFoundError => C404
    case OpenFile(_) => COpen
  }

  // ---- Through the strings ----

  lemma SumStarts(prefix: string, more: string)
    ensures StartsWith(prefix + more, prefix)
  {
  }

  lemma FirstDecides(s: string, p: string, q: string)
    requires StartsWith(s, p) && StartsWith(s, q) && p != "" && q != ""
    ensures p[0] == q[0]
  {
    assert s[..|p|][0] == s[0] && s[..|q|][0] == s[0];
  }

  lemma RespondIllegal(info: Info)
    requires info.result == "" && info.error == ILLEGAL
    ensures Respond(info) == BadRequest
  {
    assert ILLEGAL == "Illegal request" + "-target";
    SumStarts("Illegal request", "-target");
    StartsMore(ILLEGAL, "Illegal request", "\n");
  }

  lemma RespondBy(info: Info, prefix: string)
    requires info.result == "" && StartsWith(info.error, prefix) && prefix in {"Several", "Database", "File "}
    ensures Respond(info) == (if prefix == "Several" then MultipleChoices
                              else if prefix == "Database" then InternalError else NotFoundError)
  {
    var wrong := info.error + "\n";
    StartsMore(info.error, prefix, "\n");
    if StartsWith(wrong, "Illegal request") {
      FirstDecides(wrong, prefix, "Illegal request");
    }
    if StartsWith(wrong, "Several") {
      FirstDecides(wrong, prefix, "Several");
    }
    if StartsWith(wrong, "Database") {
      FirstDecides(wrong, prefix, "Database");
    }
  }

  // A failed query leaves an error that starts with "Database", whatever the log
  // update left before it.
  lemma FailedStarts(info: Info, a: Answer, log: LogUpdate)
    requires a.Failed? && info.error == LogError(log)
    ensures StartsWith(HandleAnswer(info, a).1.error, "Database")
  {
    var own := "Database " + a.database + " error while searching for target " + info.target + ": " + a.message;
    DatabaseStarts(a.database + " error while searching for target " + info.target + ": " + a.message);
    assert own == "Database " + (a.database + " error while searching for target " + info.target + ": " + a.message);
    match log {
      case Logged =>
        assert info.error + own == own;
      case LogFailed(database, message) =>
        DatabaseStarts(database + " error while updating log table: " + message);
        assert info.error == "Database " + (database + " error while updating log table: " + message);
        StartsMore(info.error, "Database", own);
    }
  }

  lemma DatabaseStarts(more: string)
    ensures StartsWith("Database " + more, "Database")
  {
    assert "Database " + more == "Database" + (" " + more);
    SumStarts("Database", " " + more);
  }

  lemma NotFoundStarts(target: string)
    ensures StartsWith("File " + target + " not found", "File ")
  {
    SumStarts("File ", target);
    StartsMore("File " + target, "File ", " not found");
  }

  // The four ways a lookup of a legal target can end. First, a query fails before
  // anything is decided.
  lemma StatusFails(target: string, log: LogUpdate, byName: Answer, byUid: Answer)
    requires target != "" && !Illegal(target)
    requires byName.Failed? || (|byName.rows| <= 1 && byUid.Failed?)
    ensures Respond(FileUri(Info(target, "", LogError(log)), byName, byUid)) == InternalError
  {
    var asked := Info(Pattern(target), "", LogError(log));
    if byName.Failed? {
      FailedStarts(asked, byName, log);
    } else {
      FailedStarts(asked, byUid, log);
    }
    RespondBy(FileUri(Info(target, "", LogError(log)), byName, byUid), "Database");
  }

  lemma StatusIllegal(target: string, log: LogUpdate, byName: Answer, byUid: Answer)
    requires target != "" && Illegal(target)
    ensures Respond(FileUri(Info(target, "", LogError(log)), byName, byUid)) == BadRequest
  {
    RespondIllegal(FileUri(Info(target, "", LogError(log)), byName, byUid));
  }

  lemma StatusSeveral(target: string, log: LogUpdate, byName: Answer, byUid: Answer)
    requires target != "" && !Illegal(target) && byName.Rows?
    requires |byName.rows| > 1 || (byUid.Rows? && (|byUid.rows| > 1 || |byName.rows| == |byUid.rows| == 1))
    ensures Respond(FileUri(Info(target, "", LogError(log)), byName, byUid)) == MultipleChoices
  {
    SeveralPrefix(Info(Pattern(target), "", LogError(log)));
    RespondBy(FileUri(Info(target, "", LogError(log)), byName, byUid), "Several");
  }

  lemma StatusNothing(target: string, log: LogUpdate)
    requires target != "" && !Illegal(target)
    ensures Respond(FileUri(Info(target, "", LogError(log)), Rows([]), Rows([]))) == NotFoundError
  {
    NotFoundStarts(Pattern(target));
    RespondBy(FileUri(Info(target, "", LogError(log)), Rows([]), Rows([])), "File ");
  }

  lemma StatusOne(target: string, log: LogUpdate, byName: Answer, byUid: Answer)
    requires target != "" && !Illegal(target) && byName.Rows? && byUid.Rows?
    requires |byName.rows| + |byUid.rows| == 1
    ensures var song := if |byName.rows| == 1 then byName.rows[0] else byUid.rows[0];
      Respond(FileUri(Info(target, "", LogError(log)), byName, byUid)) == OpenFile(song.url + "/" + song.name)
  {
    var song := if |byName.rows| == 1 then byName.rows[0] else byUid.rows[0];
    assert |song.url + "/" + song.name| > 0;
  }

  // For every file request, the choice depends on the target's legality and the two
  // lookup outcomes alone: not on the rest of the target's text, and not on whether
  // the log update before it failed. What is opened is the one file found.
  lemma StatusByOutcomes(target: string, log: LogUpdate, byName: Answer, byUid: Answer)
    requires target != ""
    ensures var r := Respond(FileUri(Info(target, "", LogError(log)), byName, byUid));
      && ChoiceOf(r) == Meant(!Illegal(target), OutcomeOf(byName), OutcomeOf(byUid))
      && (r.OpenFile? ==>
            var song := if OutcomeOf(byName) == One then byName.rows[0] else byUid.rows[0];
            r.path == song.url + "/" + song.name)
  {
    if Illegal(target) {
      StatusIllegal(target, log, byName, byUid);
    } else if byName.Failed? || (|byName.rows| <= 1 && byUid.Failed?) {
      StatusFails(target, log, byName, byUid);
    } else if |byName.rows| > 1 || |byUid.rows| > 1 || |byName.rows| == |byUid.rows| == 1 {
      StatusSeveral(target, log, byName, byUid);
    } else if |byName.rows| == |byUid.rows| == 0 {
      assert byName == Rows([]) && byUid == Rows([]);
      StatusNothing(target, log);
    } else {
      StatusOne(target, log, byName, byUid);
    }
  }

  // The scanning handler's responses.
  lemma ScanStatus(target: string, entries: seq<Entry>, path: string)
    requires target != "" && path != ""
    ensures ChoiceOf(Respond(Scan(Info(target, "", ""), entries, path))) ==
      if Illegal(target) then C400
      else if Hits(entries, target) == 0 then C404
      else COpen
  {
    var last := Scan(Info(target, "", ""), entries, path);
    FirstWantedMeans(entries, target);
    if Illegal(target) {
      RespondIllegal(last);
    } else if FirstWanted(entries, target).None? {
      NotFoundStarts(Stripped(target));
      RespondBy(last, "File ");
    }
  }

  lemma ChoiceDecides(a: Info, b: Info)
    requires ChoiceOf(Respond(a)) == ChoiceOf(Respond(b)) && a.result == b.result
    ensures Respond(a) == Respond(b)
  {
  }

  lemma QueryStatus(target: string, log: LogUpdate, rows: seq<Song>)
    requires target != "" && |rows| <= 1
    ensures ChoiceOf(Respond(FileUri(Info(target, "", LogError(log)), Rows(rows), Rows([])))) ==
      if Illegal(target) then C400 else if |rows| == 0 then C404 else COpen
  {
    StatusByOutcomes(target, log, Rows(rows), Rows([]));
  }

  // With a table that mirrors the folder and one match at most, a client cannot tell
  // the two handlers apart by the response.
  lemma SameResponse(target: string, log: LogUpdate, songs: seq<Song>, entries: seq<Entry>, path: string)
    requires Simple(target) && Mirrors(songs, entries, path) && NoUid(songs, Pattern(target))
    requires path != "" && Back(path) != '/' && Hits(entries, target) <= 1
    ensures Respond(FromTable(target, songs, LogError(log))) == Respond(Scan(Info(target, "", ""), entries, path))
  {
    var rows := Select(songs, Pattern(target));
    IndexAgreesWithScan(target, songs, entries, path, LogError(log));
    RowsAreHits(target, songs, entries, path);
    QueryStatus(target, log, rows);
    ScanStatus(target, entries, path);
    ChoiceDecides(FromTable(target, songs, LogError(log)), Scan(Info(target, "", ""), entries, path));
  }

  lemma QueryResponse(name: string, log: LogUpdate, songs: seq<Song>, path: string)
    requires Plain(name) && name != "" && !Illegal(name) && Under(path, songs) && NoUid(songs, name)
    ensures var n := Sum(SongOfName(name), songs);
      Respond(FromTable(name, songs, LogError(log)))
      == if n == 0 then NotFoundError else if n == 1 then OpenFile(path + "/" + name) else MultipleChoices
  {
    NameRows(songs, name);
    var rows := Select(songs, name);
    if |rows| == 0 {
      assert rows == [];
      StatusNothing(name, log);
    } else if |rows| == 1 {
      StatusOne(name, log, Rows(rows), Rows([]));
    } else {
      StatusSeveral(name, log, Rows(rows), Rows([]));
    }
  }

  lemma ScanResponse(name: string, entries: seq<Entry>, path: string)
    requires Plain(name) && name != "" && !Illegal(name) && path != "" && Back(path) != '/'
    ensures Respond(Scan(Info(name, "", ""), entries, path))
      == if name in Files(entries) then OpenFile(path + "/" + name) else NotFoundError
  {
    NameScanned(entries, name, path);
    ScanStatus(name, entries, path);
  }

  // For a plain, legal name that is nobody's uid: the two handlers lead to the same
  // response if and only if the name has one row when it is a regular file and none
  // when it is not.
  lemma SameAnswerIff(name: string, log: LogUpdate, t: Table<Song>, entries: seq<Entry>, path: string)
    requires Plain(name) && name != "" && !Illegal(name) && path != "" && Back(path) != '/'
    requires Under(path, Data(t.rows)) && NoUid(Data(t.rows), name)
    ensures Respond(FromTable(name, Data(t.rows), LogError(log))) == Respond(Scan(Info(name, "", ""), entries, path))
      <==> OneRow(t, NameSet(Files(entries)), name)
  {
    QueryResponse(name, log, Data(t.rows), path);
    ScanResponse(name, entries, path);
  }

  // After any history that leaves the folder, from a table that mirrored it: the two
  // handlers lead to the same response to a request for such a name if and only if each
  // time the name came and stayed it came as a regular file that was not there yet.
  lemma SameAnswerAfterHistory(path: string, hash: string -> string, before: seq<Entry>, after: seq<Entry>, f: Folder,
                               rs: seq<Inotify.Record>, cs: seq<Change>, t: Table<Song>, u: Table<Song>,
                               name: string, log: LogUpdate)
    requires Follows(path, hash, rs, cs, t, u) && Mirrors(Data(t.rows), before, path)
    requires Lists(before, f) && Lists(after, ChangedAll(f, cs))
    requires Plain(name) && name != "" && !Illegal(name) && path != "" && Back(path) != '/'
    requires NoUid(Data(u.rows), name)
    ensures Respond(FromTable(name, Data(u.rows), LogError(log))) == Respond(Scan(Info(name, "", ""), after, path))
      <==> forall i :: Stays(cs, i) && cs[i].name == name ==> Lands(f, cs, i, true)
  {
    FilesListed(before, f);
    FilesListed(after, ChangedAll(f, cs));
    MirrorsMeans(t, before, path);
    HistoryUnder(path, hash, f, rs, cs, t, u);
    assert OneRow(t, Listing(f, true), name);
    NameExact(path, hash, f, rs, cs, t, u, name, true);
    SameAnswerIff(name, log, u, after, path);
  }

  // For every target but the empty one and whatever the lookups give: a request is
  // rejected, by either handler, if and only if its target ends in a slash or holds two
  // dots in a row.
  lemma RejectedIff(target: string, log: LogUpdate, byName: Answer, byUid: Answer, entries: seq<Entry>, path: string)
    requires target != "" && path != ""
    ensures Respond(FileUri(Info(target, "", LogError(log)), byName, byUid)) == BadRequest
      <==> target[|target| - 1] == '/' || exists a, b :: target == a + ".." + b
    ensures Respond(Scan(Info(target, "", ""), entries, path)) == BadRequest
      <==> target[|target| - 1] == '/' || exists a, b :: target == a + ".." + b
  {
    IllegalMeans(target);
    StatusByOutcomes(target, log, byName, byUid);
    ScanStatus(target, entries, path);
  }

  // After a completed refresh a request by the uid that only one file has opens this file.
  lemma UidAfterRefresh(entries: seq<Entry>, path: string, hash: string -> string, table: Table<Song>,
                        steps: seq<RefreshStep>, t: Refresh, k: nat, log: LogUpdate)
    requires forall i, j :: 0 <= i < j < |Files(entries)| ==> Files(entries)[i] != Files(entries)[j]
    requires RefreshRun(Refresh(Begun, multiset{}, table), Listed(entries, path, hash), steps, t)
    requires t.phase == Adding(|Listed(entries, path, hash)|) && t.queued == multiset{} && k < |Files(entries)|
    requires var uid := hash("'" + Files(entries)[k] + "'");
      && uid != "" && Plain(uid) && !Illegal(uid) && uid !in Files(entries)
      && forall i :: 0 <= i < |Files(entries)| && hash("'" + Files(entries)[i] + "'") == uid ==> i == k
    ensures var name := Files(entries)[k];
      var last := FromTable(hash("'" + name + "'"), Data(t.table.rows), LogError(log));
      Respond(last) == OpenFile(path + "/" + name) && last.target == name
  {
    ListedMeans(entries, path, hash);
    RefreshExact(table, Listed(entries, path, hash), steps, t);
    UidFinds(entries, path, hash, Data(t.table.rows), k, LogError(log));
    assert |path + "/" + Files(entries)[k]| > 0;
  }

  // ---- The object ----

  class HandleRequest {
    const reqInfo: array<string>

    ghost predicate Valid()
      reads this, reqInfo
    {
      reqInfo.Length == REQ_SIZE
    }

    constructor (remoteAddress: string, remotePort: string)
      ensures Valid() && fresh(reqInfo)
      ensures reqInfo[..] == ["", "", remotePort, remoteAddress, "", "", "", ""]
    {
      reqInfo := new string[REQ_SIZE];
      new;
      for i := 0 to REQ_SIZE
        invariant forall j :: 0 <= j < i ==> reqInfo[j] == ""
      {
        reqInfo[i] := "";
      }
      reqInfo[REQ_PORT], reqInfo[REQ_IP_ADDRESS] := remotePort, remoteAddress;
    }

    // Every entry of an earlier request goes; the peer's address and port stay.
    method HandlerVectorFill(rawTarget: string, host: string, userAgent: string, methodName: string)
      requires Valid() && rawTarget != ""
      modifies reqInfo
      ensures reqInfo[..] == [rawTarget[1..], host, old(reqInfo[REQ_PORT]), old(reqInfo[REQ_IP_ADDRESS]),
                              userAgent, methodName, "", ""]
    {
      reqInfo[REQ_RESULT], reqInfo[REQ_ERROR] := "", "";
      reqInfo[REQ_TARGET], reqInfo[REQ_HOST] := rawTarget[1..], host;
      reqInfo[REQ_USER_AGENT], reqInfo[REQ_METHOD] := userAgent, methodName;
    }

    // handle, with the database handler. tables is what a request for the tables
    // leaves as its text; byName and byUid answer the SELECTs of a file request.
    method Handle(m: Method, rawTarget: string, host: string, userAgent: string, methodName: string,
                  log: LogUpdate, tables: string, byName: Answer, byUid: Answer) returns (r: Response)
      requires Valid() && rawTarget != ""
      modifies reqInfo
      ensures m == Other ==> r == BadRequest && reqInfo[..] == old(reqInfo[..])
      ensures m != Other && rawTarget[1..] in ["", "/", "files_table", "Files_table", "log_table", "Log_table"] ==>
        r == Ok(tables)
      ensures m != Other && rawTarget[1..] !in ["", "/", "files_table", "Files_table", "log_table", "Log_table"] ==>
        r == Respond(FileUri(Info(rawTarget[1..], "", LogError(log)), byName, byUid))
    {
      if m == Other {
        return BadRequest;
      }
      HandlerVectorFill(rawTarget, host, userAgent, methodName);
      match log {
        case Logged =>
        case LogFailed(database, message) =>
          reqInfo[REQ_ERROR] :=
            reqInfo[REQ_ERROR] + ("Database " + database + " error while updating log table: " + message);
      }
      assert reqInfo[REQ_ERROR] == LogError(log);
      var target := reqInfo[REQ_TARGET];
      if AsksForTables(target) {
        reqInfo[REQ_RESULT] := tables;
        return Ok(tables);
      }
      GetFileUri(reqInfo, byName, byUid);
      if reqInfo[REQ_RESULT] == "" {
        var wrong := reqInfo[REQ_ERROR] + "\n";
        if StartsWith(wrong, "Illegal request") {
          return BadRequest;
        }
        if StartsWith(wrong, "Several") {
          return MultipleChoices;
        }
        if StartsWith(wrong, "Database") {
          return InternalError;
        }
        return NotFoundError;
      }
      r := OpenFile(reqInfo[REQ_RESULT]);
    }
  }
}
