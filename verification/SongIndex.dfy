// Inotify_DB_handler: from handler calls to transactions on song_table, the set of
// names they leave under any order the workers may run them in, and the refresh.

module SongIndex {
  import opened Sums
  import opened Tables
  import Inotify

  datatype Song = Song(name: string, uid: string, url: string)

  datatype Command = Add(song: Song) | Remove(name: string) | Clear

  function Named(name: string): Row<Song> -> bool {
    (r: Row<Song>) => r.data.name == name
  }

  function TransactionOf(c: Command): Transaction<Song> {
    match c
    case Add(song) => Insert(song)
    case Remove(name) => DeleteWhere(Named(name))
    case Clear => Truncate
  }

  function Unquoted(s: string): string {
    if |s| >= 2 && s[0] == '\'' && s[|s| - 1] == '\'' then s[1..|s| - 1] else s
  }

  // What handle does with one call of the three events the walk reports; hash is what
  // std::hash makes of a name. The refresh is a protocol of its own, below.
  function Handled(args: Inotify.Args, hash: string -> string): seq<Command> {
    if args.event == "add" then [Add(Song(Unquoted(args.entity), hash(args.entity), args.folder))]
    else if args.event == "delete" then [Remove(Unquoted(args.entity))]
    else if args.event == "dir_del" then [Clear]
    else []
  }

  function HandledAll(calls: seq<Inotify.Args>, hash: string -> string): seq<Command> {
    if calls == [] then [] else Handled(calls[0], hash) + HandledAll(calls[1..], hash)
  }

  function Transactions(cs: seq<Command>): seq<Transaction<Song>> {
    if cs == [] then [] else [TransactionOf(cs[0])] + Transactions(cs[1..])
  }

  lemma FirstDone(t: Table<Song>, cs: seq<Command>, u: Table<Song>) returns (m: Table<Song>)
    requires cs != [] && DoesAll(t, Transactions(cs), u)
    ensures Does(t, TransactionOf(cs[0]), m) && DoesAll(m, Transactions(cs[1..]), u)
  {
    assert Transactions(cs)[0] == TransactionOf(cs[0]) && Transactions(cs)[1..] == Transactions(cs[1..]);
    m :| Does(t, TransactionOf(cs[0]), m) && DoesAll(m, Transactions(cs[1..]), u);
  }

  lemma DoneFirst(t: Table<Song>, c: Command, m: Table<Song>, rest: seq<Command>, u: Table<Song>)
    requires Does(t, TransactionOf(c), m) && DoesAll(m, Transactions(rest), u)
    ensures DoesAll(t, Transactions([c] + rest), u)
  {
    var cs := [c] + rest;
    assert cs[1..] == rest;
    assert Transactions(cs)[0] == TransactionOf(c) && Transactions(cs)[1..] == Transactions(rest);
  }

  // ---- The set of names ----

  function Names(t: Table<Song>): set<string> {
    set d | d in Data(t.rows) :: d.name
  }

  function After(names: set<string>, c: Command): set<string> {
    match c
    case Add(song) => names + {song.name}
    case Remove(name) => names - {name}
    case Clear => {}
  }

  function AfterAll(names: set<string>, cs: seq<Command>): set<string>
    decreases |cs|
  {
    if cs == [] then names else AfterAll(After(names, cs[0]), cs[1..])
  }

  lemma {:induction false} KeptData(rows: seq<Row<Song>>, name: string, d: Song)
    ensures d in Data(Kept(rows, Named(name))) <==> d in Data(rows) && d.name != name
  {
    if rows != [] {
      KeptData(rows[1..], name, d);
    }
  }

  lemma SameData<P>(a: seq<Row<P>>, b: seq<Row<P>>, d: P)
    requires multiset(Data(a)) == multiset(Data(b))
    ensures d in Data(a) <==> d in Data(b)
  {
    assert d in Data(a) <==> d in multiset(Data(a));
    assert d in Data(b) <==> d in multiset(Data(b));
  }

  // Every transaction acts on the set of names as its command does.
  lemma NamesStep(t: Table<Song>, c: Command, u: Table<Song>)
    requires Does(t, TransactionOf(c), u)
    ensures Names(u) == After(Names(t), c)
  {
    match c {
      case Add(song) =>
        InsertedData(t, song);
      case Remove(name) =>
        forall d ensures d in Data(u.rows) <==> d in Data(t.rows) && d.name != name {
          KeptData(t.rows, name, d);
          SameData(u.rows, Kept(t.rows, Named(name)), d);
        }
        assert forall n :: n in Names(u) <==> n in Names(t) && n != name;
      case Clear =>
    }
  }

  lemma {:induction false} NamesRun(t: Table<Song>, cs: seq<Command>, u: Table<Song>)
    requires DoesAll(t, Transactions(cs), u)
    ensures Names(u) == AfterAll(Names(t), cs)
    decreases |cs|
  {
    if cs != [] {
      var m := FirstDone(t, cs, u);
      NamesStep(t, cs[0], m);
      NamesRun(m, cs[1..], u);
    }
  }

  // ---- Any order of execution ----

  predicate Conflict(a: Command, b: Command) {
    a.Clear? || b.Clear? || NameOf(a) == NameOf(b)
  }

  function NameOf(c: Command): string
    requires !c.Clear?
  {
    if c.Add? then c.song.name else c.name
  }

  predicate Relevant(c: Command, name: string) {
    c.Clear? || NameOf(c) == name
  }

  // exec is emit in another order: exec[i] is emit[pi[i]], and commands on the same
  // name and whole-table commands keep their places relative to each other.
  ghost predicate Reorders(emit: seq<Command>, exec: seq<Command>, pi: seq<nat>, inv: seq<nat>) {
    && |emit| == |exec| == |pi| == |inv|
    && (forall i :: 0 <= i < |pi| ==> pi[i] < |emit| && inv[pi[i]] == i && exec[i] == emit[pi[i]])
    && (forall j :: 0 <= j < |inv| ==> inv[j] < |exec| && pi[inv[j]] == j)
    && (forall i, j :: 0 <= i < j < |exec| && Conflict(exec[i], exec[j]) ==> pi[i] < pi[j])
  }

  // exec is an order in which the workers may run what was emitted.
  ghost predicate Allowed(emit: seq<Command>, exec: seq<Command>) {
    exists pi, inv :: Reorders(emit, exec, pi, inv)
  }

  // Two commands may change places if and only if they are about different names, or
  // are the same.
  lemma SwapAllowedIff(a: Command, b: Command)
    ensures Allowed([a, b], [b, a]) <==>
      a == b || (!a.Clear? && !b.Clear? &&
                 (if a.Add? then a.song.name else a.name) != (if b.Add? then b.song.name else b.name))
  {
    if a == b {
      assert Reorders([a, b], [b, a], [0, 1], [0, 1]);
    } else if !Conflict(b, a) {
      assert Reorders([a, b], [b, a], [1, 0], [1, 0]);
    } else {
      var exec := [b, a];
      assert Conflict(exec[0], exec[1]);
      forall pi, inv ensures !Reorders([a, b], exec, pi, inv) {
      }
    }
  }

  // Where the commands that bear on a name stand, and those commands alone.
  function Spots(cs: seq<Command>, name: string): seq<nat> {
    if cs == [] then []
    else
      var n := |cs| - 1;
      Spots(cs[..n], name) + if Relevant(cs[n], name) then [n] else []
  }

  function Bearing(cs: seq<Command>, name: string): seq<Command> {
    if cs == [] then []
    else
      var n := |cs| - 1;
      Bearing(cs[..n], name) + if Relevant(cs[n], name) then [cs[n]] else []
  }

  ghost predicate Increasing(a: seq<nat>) {
    forall i, j :: 0 <= i < j < |a| ==> a[i] < a[j]
  }

  lemma SpotsBefore(before: seq<nat>, n: nat)
    requires Increasing(before) && forall k: nat :: k in before ==> k < n
    ensures Increasing(before + [n])
  {
    assert forall i :: 0 <= i < |before| ==> before[i] in before;
  }

  lemma {:induction false} SpotsMean(cs: seq<Command>, name: string)
    ensures Increasing(Spots(cs, name))
    ensures forall k: nat :: k in Spots(cs, name) <==> k < |cs| && Relevant(cs[k], name)
  {
    if cs != [] {
      var n := |cs| - 1;
      var before := Spots(cs[..n], name);
      SpotsMean(cs[..n], name);
      SpotsBefore(before, n);
      forall k: nat ensures k in Spots(cs, name) <==> k < |cs| && Relevant(cs[k], name) {
        assert k in Spots(cs, name) <==> k in before || (Relevant(cs[n], name) && k == n);
        assert k < n ==> cs[..n][k] == cs[k];
      }
    }
  }

  lemma {:induction false} BearingAt(cs: seq<Command>, name: string)
    ensures |Bearing(cs, name)| == |Spots(cs, name)|
    ensures forall i :: 0 <= i < |Spots(cs, name)| ==>
      Spots(cs, name)[i] < |cs| && Bearing(cs, name)[i] == cs[Spots(cs, name)[i]]
  {
    if cs != [] {
      BearingAt(cs[..|cs| - 1], name);
    }
  }

  lemma {:induction false} LastIsMost(a: seq<nat>, x: nat)
    requires a != [] && Increasing(a) && x in a
    ensures x <= a[|a| - 1] && (x in a[..|a| - 1] <==> x != a[|a| - 1])
  {
    var i :| 0 <= i < |a| && a[i] == x;
    assert i < |a| - 1 ==> a[..|a| - 1][i] == x;
  }

  lemma SomeIn(a: seq<nat>)
    ensures a == [] || exists x: nat :: x in a
  {
    if a != [] {
      assert a[0] in a;
    }
  }

  // Increasing sequences of the same numbers are the same.
  lemma {:induction false} SameSpots(a: seq<nat>, b: seq<nat>)
    requires Increasing(a) && Increasing(b) && forall x: nat :: x in a <==> x in b
    ensures a == b
    decreases |a|
  {
    if a == [] || b == [] {
      SomeIn(a);
      SomeIn(b);
    } else {
      var m, n := |a| - 1, |b| - 1;
      LastIsMost(a, b[n]);
      LastIsMost(b, a[m]);
      forall x: nat ensures x in a[..m] <==> x in b[..n] {
        if x in a { LastIsMost(a, x); LastIsMost(b, x); }
        assert x in a[..m] ==> x in a;
        assert x in b[..n] ==> x in b;
      }
      SameSpots(a[..m], b[..n]);
      assert a == a[..m] + [a[m]] && b == b[..n] + [b[n]];
    }
  }

  // Where the commands executed for a name were in the emission.
  ghost predicate Traces(exec: seq<Command>, pi: seq<nat>, a: seq<nat>, c: seq<nat>) {
    |c| == |a| && forall i :: 0 <= i < |a| ==> a[i] < |pi| && a[i] < |exec| && c[i] == pi[a[i]]
  }

  function Traced(pi: seq<nat>, a: seq<nat>): (c: seq<nat>)
    requires forall i :: 0 <= i < |a| ==> a[i] < |pi|
    ensures |c| == |a| && forall i :: 0 <= i < |a| ==> c[i] == pi[a[i]]
  {
    seq(|a|, i requires 0 <= i < |a| && a[i] < |pi| => pi[a[i]])
  }

  lemma TracesIncrease(emit: seq<Command>, exec: seq<Command>, pi: seq<nat>, inv: seq<nat>, name: string,
                       a: seq<nat>, c: seq<nat>)
    requires Reorders(emit, exec, pi, inv) && Traces(exec, pi, a, c) && Increasing(a)
    requires forall i :: 0 <= i < |a| ==> Relevant(exec[a[i]], name)
    ensures Increasing(c)
  {
    forall i, j | 0 <= i < j < |a| ensures c[i] < c[j] {
      assert Conflict(exec[a[i]], exec[a[j]]);
    }
  }

  lemma TracesAll(emit: seq<Command>, exec: seq<Command>, pi: seq<nat>, inv: seq<nat>, name: string, c: seq<nat>,
                  x: nat)
    requires Reorders(emit, exec, pi, inv) && Traces(exec, pi, Spots(exec, name), c)
    ensures x in c <==> x in Spots(emit, name)
  {
    SpotsMean(exec, name);
    SpotsMean(emit, name);
    var a := Spots(exec, name);
    if x in c {
      var i :| 0 <= i < |c| && c[i] == x;
      assert a[i] in a;
      assert exec[a[i]] == emit[pi[a[i]]];
    }
    if x in Spots(emit, name) {
      assert exec[inv[x]] == emit[pi[inv[x]]];
      assert inv[x] in a;
      var i :| 0 <= i < |a| && a[i] == inv[x];
      assert c[i] == x;
    }
  }

  lemma BearingTraced(emit: seq<Command>, exec: seq<Command>, pi: seq<nat>, inv: seq<nat>, a: seq<nat>, b: seq<nat>,
                      x: seq<Command>, y: seq<Command>)
    requires Reorders(emit, exec, pi, inv) && Traces(exec, pi, a, b) && |x| == |a| && |y| == |b|
    requires forall i :: 0 <= i < |a| ==> x[i] == exec[a[i]]
    requires forall i :: 0 <= i < |b| ==> b[i] < |emit| && y[i] == emit[b[i]]
    ensures x == y
  {
    forall i | 0 <= i < |a| ensures x[i] == y[i] {
      assert exec[a[i]] == emit[pi[a[i]]];
    }
  }

  // The commands that bear on a name are executed in the order of their emission.
  lemma SameBearing(emit: seq<Command>, exec: seq<Command>, name: string)
    requires Allowed(emit, exec)
    ensures Bearing(exec, name) == Bearing(emit, name)
  {
    var pi, inv :| Reorders(emit, exec, pi, inv);
    var a, b := Spots(exec, name), Spots(emit, name);
    SpotsMean(exec, name);
    SpotsMean(emit, name);
    BearingAt(exec, name);
    BearingAt(emit, name);
    assert forall i :: 0 <= i < |a| ==> a[i] in a;
    var c := Traced(pi, a);
    TracesIncrease(emit, exec, pi, inv, name, a, c);
    forall x: nat ensures x in c <==> x in b {
      TracesAll(emit, exec, pi, inv, name, c, x);
    }
    SameSpots(c, b);
    BearingTraced(emit, exec, pi, inv, a, b, Bearing(exec, name), Bearing(emit, name));
  }

  // ---- Counting rows ----

  // What commands do to the weight of a name's rows, by a measure w that is 0 on
  // songs of other names.
  function TallyOne(k: nat, c: Command, name: string, w: Song -> nat): nat {
    if !Relevant(c, name) then k
    else match c
         case Add(song) => k + w(song)
         case Remove(_) => 0
         case Clear => 0
  }

  function Tally(k: nat, cs: seq<Command>, name: string, w: Song -> nat): nat {
    if cs == [] then k
    else
      var n := |cs| - 1;
      TallyOne(Tally(k, cs[..n], name, w), cs[n], name, w)
  }

  ghost predicate Weighs(w: Song -> nat, name: string) {
    forall song :: w(song) > 0 ==> song.name == name
  }

  function OfName(name: string): Row<Song> -> nat {
    (r: Row<Song>) => if r.data.name == name then 1 else 0
  }

  function SongOfName(name: string): Song -> nat {
    (s: Song) => if s.name == name then 1 else 0
  }

  function ThisSong(song: Song): Song -> nat {
    (s: Song) => if s == song then 1 else 0
  }

  // The rows of a name, and of one song.
  function RowsOf(t: Table<Song>, name: string): nat {
    Sum(SongOfName(name), Data(t.rows))
  }

  lemma {:induction false} TallyAppend(k: nat, a: seq<Command>, b: seq<Command>, name: string, w: Song -> nat)
    ensures Tally(k, a + b, name, w) == Tally(Tally(k, a, name, w), b, name, w)
    decreases |b|
  {
    if b == [] {
      assert a + b == a;
    } else {
      var n := |b| - 1;
      var ab := a + b;
      assert ab[..|ab| - 1] == a + b[..n] && ab[|ab| - 1] == b[n];
      TallyAppend(k, a, b[..n], name, w);
    }
  }

  lemma {:induction false} TallyBearing(k: nat, cs: seq<Command>, name: string, w: Song -> nat)
    ensures Tally(k, cs, name, w) == Tally(k, Bearing(cs, name), name, w)
  {
    if cs != [] {
      var n := |cs| - 1;
      var before := Bearing(cs[..n], name);
      TallyBearing(k, cs[..n], name, w);
      if Relevant(cs[n], name) {
        assert (before + [cs[n]])[..|before|] == before;
      } else {
        assert Bearing(cs, name) == before;
      }
    }
  }

  lemma {:induction false} KeptTally(rows: seq<Row<Song>>, gone: string, name: string, w: Song -> nat)
    requires Weighs(w, name)
    ensures Sum(w, Data(Kept(rows, Named(gone)))) == if gone == name then 0 else Sum(w, Data(rows))
  {
    if rows != [] {
      KeptTally(rows[1..], gone, name, w);
    }
  }

  lemma TallyStep(t: Table<Song>, c: Command, u: Table<Song>, name: string, w: Song -> nat)
    requires Weighs(w, name) && Does(t, TransactionOf(c), u)
    ensures Sum(w, Data(u.rows)) == TallyOne(Sum(w, Data(t.rows)), c, name, w)
  {
    match c {
      case Add(song) =>
        InsertedData(t, song);
        SumAppend(w, Data(t.rows), [song]);
        assert Sum(w, [song]) == w(song);
      case Remove(gone) =>
        KeptTally(t.rows, gone, name, w);
        SumPermuted(w, Data(u.rows), Data(Kept(t.rows, Named(gone))));
      case Clear =>
    }
  }

  lemma TallyOnly(k: nat, c: Command, name: string, w: Song -> nat)
    ensures Tally(k, [c], name, w) == TallyOne(k, c, name, w)
  {
    assert [c][..0] == [];
    assert Tally(k, [], name, w) == k;
  }

  lemma TallyFirst(k: nat, cs: seq<Command>, name: string, w: Song -> nat)
    requires cs != []
    ensures Tally(k, cs, name, w) == Tally(TallyOne(k, cs[0], name, w), cs[1..], name, w)
  {
    TallyOnly(k, cs[0], name, w);
    TallyAppend(k, [cs[0]], cs[1..], name, w);
    assert cs == [cs[0]] + cs[1..];
  }

  // Commands executed one after the other leave the rows they tally.
  lemma {:induction false} TallyRun(t: Table<Song>, cs: seq<Command>, u: Table<Song>, name: string, w: Song -> nat)
    requires Weighs(w, name) && DoesAll(t, Transactions(cs), u)
    ensures Sum(w, Data(u.rows)) == Tally(Sum(w, Data(t.rows)), cs, name, w)
    decreases |cs|
  {
    if cs != [] {
      var m := FirstDone(t, cs, u);
      TallyStep(t, cs[0], m, name, w);
      TallyRun(m, cs[1..], u, name, w);
      TallyFirst(Sum(w, Data(t.rows)), cs, name, w);
    }
  }

  // Executed in an allowed order, the commands leave what the emission tallies.
  lemma TallyReordered(t: Table<Song>, emit: seq<Command>, exec: seq<Command>, u: Table<Song>, name: string,
                       w: Song -> nat)
    requires Weighs(w, name) && Allowed(emit, exec) && DoesAll(t, Transactions(exec), u)
    ensures Sum(w, Data(u.rows)) == Tally(Sum(w, Data(t.rows)), emit, name, w)
  {
    TallyRun(t, exec, u, name, w);
    SameBearing(emit, exec, name);
    TallyBearing(Sum(w, Data(t.rows)), exec, name, w);
    TallyBearing(Sum(w, Data(t.rows)), emit, name, w);
  }

  lemma {:induction false} CountIs(songs: seq<Song>, d: Song)
    ensures multiset(songs)[d] == Sum(ThisSong(d), songs)
  {
    if songs != [] {
      CountIs(songs[1..], d);
      assert songs == [songs[0]] + songs[1..];
    }
  }

  lemma {:induction false} NamedSum(songs: seq<Song>, name: string)
    ensures Sum(SongOfName(name), songs) > 0 <==> exists d :: d in songs && d.name == name
  {
    if Sum(SongOfName(name), songs) > 0 {
      var i := SumWitness(SongOfName(name), songs);
      assert songs[i] in songs;
    }
    if d :| d in songs && d.name == name {
      var i :| 0 <= i < |songs| && songs[i] == d;
      SumAt(SongOfName(name), songs, i);
    }
  }

  lemma NamesAreRows(t: Table<Song>, name: string)
    ensures name in Names(t) <==> RowsOf(t, name) > 0
  {
    NamedSum(Data(t.rows), name);
  }

  // Whatever order keeps same-name and whole-table commands as emitted leaves the
  // songs that the emission order leaves, duplicates included, and so the same names.
  lemma ScheduleIndependence(t: Table<Song>, emit: seq<Command>, exec: seq<Command>, u: Table<Song>, v: Table<Song>)
    requires Allowed(emit, exec)
    requires DoesAll(t, Transactions(emit), u) && DoesAll(t, Transactions(exec), v)
    ensures multiset(Data(u.rows)) == multiset(Data(v.rows)) && Names(u) == Names(v)
  {
    forall d ensures multiset(Data(u.rows))[d] == multiset(Data(v.rows))[d] {
      TallyRun(t, emit, u, d.name, ThisSong(d));
      TallyReordered(t, emit, exec, v, d.name, ThisSong(d));
      CountIs(Data(u.rows), d);
      CountIs(Data(v.rows), d);
    }
    forall d ensures d in Data(u.rows) <==> d in Data(v.rows) {
      SameData(u.rows, v.rows, d);
    }
  }

  // The order matters for one name: an add and a removal swapped leave other names.
  lemma SameNameOrderMatters(names: set<string>, song: Song)
    ensures AfterAll(names, [Add(song), Remove(song.name)]) == names - {song.name}
    ensures AfterAll(names, [Remove(song.name), Add(song)]) == names + {song.name}
    ensures AfterAll(names, [Add(song), Remove(song.name)]) != AfterAll(names, [Remove(song.name), Add(song)])
  {
    var a: seq<Command> := [Add(song), Remove(song.name)];
    var b: seq<Command> := [Remove(song.name), Add(song)];
    assert a[1..] == [Remove(song.name)] && b[1..] == [Add(song)];
    assert AfterAll(names, a) == AfterAll(names + {song.name}, [Remove(song.name)]);
    assert AfterAll(names, b) == AfterAll(names - {song.name}, [Add(song)]);
    assert song.name !in AfterAll(names, a) && song.name in AfterAll(names, b);
  }

  // ---- The watched folder ----

  // What can happen to the folder. Unwatched stands for every report that says
  // nothing about entries, such as IN_IGNORED.
  datatype Change =
    | Created(name: string, kind: Kind)
    | Deleted(name: string, kind: Kind)
    | MovedOut(name: string, kind: Kind)
    | MovedIn(name: string, kind: Kind)
    | FolderDeleted
    | FolderMoved
    | Unwatched

  // What an entry is: the scan and the refresh list regular files, the handler does not
  // ask. Special stands for pipes, sockets and the like.
  datatype Kind = Regular | Directory | Special

  datatype Folder = Present(entries: map<string, Kind>) | Missing

  function Entries(f: Folder): set<string> {
    if f.Present? then f.entries.Keys else {}
  }

  predicate Counts(kind: Kind, filesOnly: bool) {
    !filesOnly || kind.Regular?
  }

  // The folder's entries, all of them or the regular files.
  function Listing(f: Folder, filesOnly: bool): set<string> {
    if f.Present? then set name | name in f.entries && Counts(f.entries[name], filesOnly) else {}
  }

  function Changed(f: Folder, c: Change): Folder {
    match c
    case Created(name, kind) => if f.Present? then Present(f.entries[name := kind]) else f
    case MovedIn(name, kind) => if f.Present? then Present(f.entries[name := kind]) else f
    case Deleted(name, _) => if f.Present? then Present(f.entries - {name}) else f
    case MovedOut(name, _) => if f.Present? then Present(f.entries - {name}) else f
    case FolderDeleted => Missing
    case FolderMoved => Missing
    case Unwatched => f
  }

  function ChangedAll(f: Folder, cs: seq<Change>): Folder {
    if cs == [] then f
    else
      var n := |cs| - 1;
      Changed(ChangedAll(f, cs[..n]), cs[n])
  }

  const IN_IGNORED := 0x8000
  const IN_ISDIR := 0x4000_0000

  function MaskOf(c: Change): nat {
    match c
    case Created(_, _) => Inotify.IN_CREATE
    case Deleted(_, _) => Inotify.IN_DELETE
    case MovedOut(_, _) => Inotify.IN_MOVED_FROM
    case MovedIn(_, _) => Inotify.IN_MOVED_TO
    case FolderDeleted => Inotify.IN_DELETE_SELF
    case FolderMoved => Inotify.IN_MOVE_SELF
    case Unwatched => IN_IGNORED
  }

  predicate IsEntryChange(c: Change) {
    c.Created? || c.Deleted? || c.MovedOut? || c.MovedIn?
  }

  // The record the kernel queues for a change; entries that are directories carry a flag.
  predicate Reports(r: Inotify.Record, c: Change) {
    && r.mask == MaskOf(c) + (if IsEntryChange(c) && c.kind.Directory? then IN_ISDIR else 0)
    && (IsEntryChange(c) ==> r.name == c.name)
  }

  ghost predicate ReportsAll(rs: seq<Inotify.Record>, cs: seq<Change>) {
    |rs| == |cs| && forall i :: 0 <= i < |rs| ==> Reports(rs[i], cs[i])
  }

  predicate Adds(c: Change, name: string) {
    (c.Created? || c.MovedIn?) && c.name == name
  }

  // The changes after which the handler leaves no row of a name.
  predicate Resets(c: Change, name: string) {
    c.FolderDeleted? || c.FolderMoved? || ((c.Deleted? || c.MovedOut?) && c.name == name)
  }

  // A name comes at i and nothing takes it away later.
  ghost predicate Stays(cs: seq<Change>, i: int) {
    && 0 <= i < |cs| && (cs[i].Created? || cs[i].MovedIn?)
    && forall j :: i < j < |cs| ==> !Resets(cs[j], cs[i].name)
  }

  // It comes, as something that is listed, into a folder that is still there and does
  // not list it yet.
  ghost predicate Lands(f: Folder, cs: seq<Change>, i: int, filesOnly: bool)
    requires 0 <= i < |cs| && (cs[i].Created? || cs[i].MovedIn?)
  {
    && Counts(cs[i].kind, filesOnly)
    && ChangedAll(f, cs[..i]).Present? && cs[i].name !in Listing(ChangedAll(f, cs[..i]), filesOnly)
  }

  // The masks of the reports, in numbers.
  lemma ReportMasks(r: Inotify.Record, c: Change)
    ensures Reports(r, c) <==>
      match c
      case Created(name, kind) => r.name == name && r.mask == 0x100 + if kind == Directory then 0x4000_0000 else 0
      case Deleted(name, kind) => r.name == name && r.mask == 0x200 + if kind == Directory then 0x4000_0000 else 0
      case MovedOut(name, kind) => r.name == name && r.mask == 0x40 + if kind == Directory then 0x4000_0000 else 0
      case MovedIn(name, kind) => r.name == name && r.mask == 0x80 + if kind == Directory then 0x4000_0000 else 0
      case FolderDeleted => r.mask == 0x400
      case FolderMoved => r.mask == 0x800
      case Unwatched => r.mask == 0x8000
  {
  }

  lemma MaskMeans(r: Inotify.Record, c: Change)
    requires Reports(r, c)
    ensures Inotify.EventOf(r.mask) ==
      match c
      case Created(_, _) => Some("add")
      case MovedIn(_, _) => Some("add")
      case Deleted(_, _) => Some("delete")
      case MovedOut(_, _) => Some("delete")
      case FolderDeleted => Some("dir_del")
      case FolderMoved => Some("dir_del")
      case Unwatched => None
  {
  }

  lemma {:induction false} HandledAppend(a: seq<Inotify.Args>, b: seq<Inotify.Args>, hash: string -> string)
    ensures HandledAll(a + b, hash) == HandledAll(a, hash) + HandledAll(b, hash)
  {
    if a == [] {
      assert a + b == b;
    } else {
      assert (a + b)[1..] == a[1..] + b;
      HandledAppend(a[1..], b, hash);
    }
  }

  lemma UnquotedQuoted(name: string)
    ensures Unquoted(Inotify.Quoted(name)) == name
  {
    assert Inotify.Quoted(name)[1..|name| + 1] == name;
  }

  // The history cs of the folder at path, reported by rs, walked and handled; its
  // commands executed in an allowed order take the table from t to u.
  ghost predicate Follows(path: string, hash: string -> string, rs: seq<Inotify.Record>, cs: seq<Change>,
                          t: Table<Song>, u: Table<Song>) {
    ReportsAll(rs, cs) && exists exec :: Executed(HandledAll(Inotify.Calls(path, rs), hash), exec, t, u)
  }

  ghost predicate Executed(emit: seq<Command>, exec: seq<Command>, t: Table<Song>, u: Table<Song>) {
    Allowed(emit, exec) && DoesAll(t, Transactions(exec), u)
  }

  // The rows of a name after a history, from k of them.
  function RowsAfter(k: nat, cs: seq<Change>, name: string): nat {
    if cs == [] then k
    else
      var n := |cs| - 1;
      var before := RowsAfter(k, cs[..n], name);
      if Adds(cs[n], name) then before + 1 else if Resets(cs[n], name) then 0 else before
  }

  // One reported change, through walk and handler.
  lemma ChangeStep(path: string, hash: string -> string, k: nat, r: Inotify.Record, c: Change, name: string)
    requires Reports(r, c)
    ensures Tally(k, HandledAll(Inotify.CallOf(path, r), hash), name, SongOfName(name))
            == if Adds(c, name) then k + 1 else if Resets(c, name) then 0 else k
  {
    MaskMeans(r, c);
    var calls := Inotify.CallOf(path, r);
    if calls != [] {
      UnquotedQuoted(r.name);
      assert HandledAll(calls, hash) == Handled(calls[0], hash) + HandledAll([], hash) == Handled(calls[0], hash);
      var cs := Handled(calls[0], hash);
      assert cs == [cs[0]];
      TallyOnly(k, cs[0], name, SongOfName(name));
    }
  }

  lemma AddedSong(path: string, hash: string -> string, r: Inotify.Record, c: Change, name: string)
    requires Reports(r, c) && Adds(c, name)
    ensures HandledAll(Inotify.CallOf(path, r), hash) == [Add(Song(name, hash("'" + name + "'"), path))]
  {
    MaskMeans(r, c);
    UnquotedQuoted(name);
    var calls := Inotify.CallOf(path, r);
    assert HandledAll(calls, hash) == Handled(calls[0], hash) + HandledAll([], hash) == Handled(calls[0], hash);
  }

  lemma {:induction false} HistoryTally(path: string, hash: string -> string, k: nat, rs: seq<Inotify.Record>,
                                        cs: seq<Change>, name: string)
    requires ReportsAll(rs, cs)
    ensures Tally(k, HandledAll(Inotify.Calls(path, rs), hash), name, SongOfName(name)) == RowsAfter(k, cs, name)
    decreases |rs|
  {
    if rs != [] {
      var n := |rs| - 1;
      var before := Inotify.Calls(path, rs[..n]);
      var last := Inotify.CallOf(Inotify.FolderAtEnd(path, rs[..n]), rs[n]);
      LastCall(path, rs);
      HandledAppend(before, last, hash);
      HistoryTally(path, hash, k, rs[..n], cs[..n], name);
      TallyAppend(k, HandledAll(before, hash), HandledAll(last, hash), name, SongOfName(name));
      ChangeStep(Inotify.FolderAtEnd(path, rs[..n]), hash, RowsAfter(k, cs[..n], name), rs[n], cs[n], name);
    }
  }

  lemma LastCall(path: string, rs: seq<Inotify.Record>)
    requires rs != []
    ensures var n := |rs| - 1; var folder := Inotify.FolderAtEnd(path, rs[..n]);
      && Inotify.Calls(path, rs) == Inotify.Calls(path, rs[..n]) + Inotify.CallOf(folder, rs[n])
      && Inotify.FolderAtEnd(path, rs) == Inotify.FolderAfter(folder, rs[n])
  {
    assert rs[..|rs|] == rs;
    Inotify.CallsStep(path, rs, |rs| - 1);
  }

  // What has happened by the last change, for one name.
  lemma StaysStep(cs: seq<Change>, i: int)
    requires cs != []
    ensures Stays(cs, i) <==>
      var n := |cs| - 1;
      (i == n && (cs[n].Created? || cs[n].MovedIn?)) ||
      (Stays(cs[..n], i) && !Resets(cs[n], cs[..n][i].name))
  {
  }

  ghost predicate NoneStays(cs: seq<Change>, name: string) {
    forall i :: Stays(cs, i) ==> cs[i].name != name
  }

  lemma NoneStaysStep(cs: seq<Change>, name: string)
    requires cs != []
    ensures var n := |cs| - 1;
      NoneStays(cs, name) <==> !Adds(cs[n], name) && (Resets(cs[n], name) || NoneStays(cs[..n], name))
  {
    var n := |cs| - 1;
    forall i ensures Stays(cs, i) && cs[i].name == name <==>
      (i == n && Adds(cs[n], name)) || (Stays(cs[..n], i) && cs[..n][i].name == name && !Resets(cs[n], name))
    {
      StaysStep(cs, i);
    }
    if Adds(cs[n], name) {
      assert Stays(cs, n);
    } else if !Resets(cs[n], name) && !NoneStays(cs[..n], name) {
      var i :| Stays(cs[..n], i) && cs[..n][i].name == name;
      assert Stays(cs, i) && cs[i].name == name;
    }
  }

  // For one name: there are rows exactly for an entry, unless the folder has gone and
  // the name has come since.
  lemma {:induction false} NameMirrored(f: Folder, cs: seq<Change>, k: nat, name: string)
    requires k > 0 <==> name in Entries(f)
    ensures (RowsAfter(k, cs, name) > 0 <==> name in Entries(ChangedAll(f, cs))) <==>
            ChangedAll(f, cs).Present? || NoneStays(cs, name)
  {
    if cs != [] {
      NameMirrored(f, cs[..|cs| - 1], k, name);
      NoneStaysStep(cs, name);
    }
  }

  lemma NameFollows(path: string, hash: string -> string, f: Folder, rs: seq<Inotify.Record>, cs: seq<Change>,
                    t: Table<Song>, u: Table<Song>, name: string)
    requires Follows(path, hash, rs, cs, t, u) && (name in Names(t) <==> name in Entries(f))
    ensures (name in Names(u) <==> name in Entries(ChangedAll(f, cs))) <==>
            ChangedAll(f, cs).Present? || NoneStays(cs, name)
  {
    HistoryRows(path, hash, rs, cs, t, u, name);
    NamesAreRows(t, name);
    NamesAreRows(u, name);
    NameMirrored(f, cs, RowsOf(t, name), name);
  }

  lemma StaysByName(cs: seq<Change>)
    ensures (forall name :: NoneStays(cs, name)) <==> forall i :: !Stays(cs, i)
  {
    if i :| Stays(cs, i) {
      assert !NoneStays(cs, cs[i].name);
    }
  }

  // From the folder to the table, in any allowed order of execution: after a history
  // the table's names are the folder's entries if and only if the folder is still there
  // or no name has come and stayed since it went. The records that follow the folder's
  // end in a buffer are what the second case is about.
  lemma IndexMirrorsFolder(path: string, hash: string -> string, f: Folder, rs: seq<Inotify.Record>, cs: seq<Change>,
                           t: Table<Song>, u: Table<Song>)
    requires Follows(path, hash, rs, cs, t, u) && Names(t) == Entries(f)
    ensures Names(u) == Entries(ChangedAll(f, cs)) <==> ChangedAll(f, cs).Present? || forall i :: !Stays(cs, i)
  {
    forall name ensures (name in Names(u) <==> name in Entries(ChangedAll(f, cs))) <==>
      ChangedAll(f, cs).Present? || NoneStays(cs, name)
    {
      NameFollows(path, hash, f, rs, cs, t, u, name);
    }
    StaysByName(cs);
  }

  lemma HistoryRows(path: string, hash: string -> string, rs: seq<Inotify.Record>, cs: seq<Change>,
                    t: Table<Song>, u: Table<Song>, name: string)
    requires Follows(path, hash, rs, cs, t, u)
    ensures RowsOf(u, name) == RowsAfter(RowsOf(t, name), cs, name)
  {
    var emit := HandledAll(Inotify.Calls(path, rs), hash);
    var exec :| Executed(emit, exec, t, u);
    TallyReordered(t, emit, exec, u, name, SongOfName(name));
    HistoryTally(path, hash, RowsOf(t, name), rs, cs, name);
  }

  lemma InOrder(emit: seq<Command>, t: Table<Song>, u: Table<Song>)
    requires DoesAll(t, Transactions(emit), u)
    ensures Executed(emit, emit, t, u)
  {
    var pi := seq(|emit|, i requires 0 <= i => i);
    assert Reorders(emit, emit, pi, pi);
  }

  // The other case occurs: an empty folder is moved away and a file is created in it
  // before the buffer is read. The table then lists the file, the folder is gone.
  lemma LateRecordMisleads(path: string, hash: string -> string, rs: seq<Inotify.Record>, name: string, kind: Kind,
                           t: Table<Song>) returns (u: Table<Song>)
    requires ReportsAll(rs, [FolderMoved, Created(name, kind)])
    ensures Follows(path, hash, rs, [FolderMoved, Created(name, kind)], t, u)
    ensures Data(u.rows) == [Song(name, hash(Inotify.Quoted(name)), "")]
    ensures Names(u) == {name} && Entries(ChangedAll(Present(map[]), [FolderMoved, Created(name, kind)])) == {}
  {
    var cs := [FolderMoved, Created(name, kind)];
    assert Reports(rs[0], cs[0]) && Reports(rs[1], cs[1]);
    MaskMeans(rs[0], cs[0]);
    MaskMeans(rs[1], cs[1]);
    UnquotedQuoted(name);
    var song := Song(name, hash(Inotify.Quoted(name)), "");
    TwoCalls(path, rs, hash);
    u := Inserted(Table([], RESTARTED), song);
    var m: Table<Song> := Table([], RESTARTED);
    DoneFirst(m, Add(song), u, [], u);
    DoneFirst(t, Clear, m, [Add(song)] + [], u);
    assert HandledAll(Inotify.Calls(path, rs), hash) == [Clear] + ([Add(song)] + []);
    InOrder([Clear] + ([Add(song)] + []), t, u);
    assert Data(u.rows) == [song];
    var f := Present(map[]);
    assert ChangedAll(f, cs[..1]) == Changed(ChangedAll(f, cs[..1][..0]), FolderMoved) == Missing;
  }

  lemma TwoCalls(path: string, rs: seq<Inotify.Record>, hash: string -> string)
    requires |rs| == 2
    ensures var a, b := Inotify.CallOf(path, rs[0]), Inotify.CallOf(Inotify.FolderAfter(path, rs[0]), rs[1]);
      HandledAll(Inotify.Calls(path, rs), hash) == HandledAll(a, hash) + HandledAll(b, hash)
  {
    var later := Inotify.FolderAfter(path, rs[0]);
    var a, b := Inotify.CallOf(path, rs[0]), Inotify.CallOf(later, rs[1]);
    assert Inotify.Calls(path, rs) == a + (b + Inotify.Calls(Inotify.FolderAfter(later, rs[1]), rs[1..][1..]));
    assert Inotify.Calls(path, rs) == a + b;
    HandledAppend(a, b, hash);
  }

  // ---- One row for each entry ----

  predicate OneRow(t: Table<Song>, names: set<string>, name: string) {
    RowsOf(t, name) == if name in names then 1 else 0
  }

  ghost predicate OneEach(t: Table<Song>, names: set<string>) {
    forall name :: OneRow(t, names, name)
  }

  ghost predicate AllLand(f: Folder, cs: seq<Change>, name: string, filesOnly: bool) {
    forall i :: Stays(cs, i) && cs[i].name == name ==> Lands(f, cs, i, filesOnly)
  }

  lemma AllLandStep(f: Folder, cs: seq<Change>, name: string, filesOnly: bool)
    requires cs != []
    ensures var n := |cs| - 1; var g := ChangedAll(f, cs[..n]);
      AllLand(f, cs, name, filesOnly) <==>
        && (Adds(cs[n], name) ==> Counts(cs[n].kind, filesOnly) && g.Present? && name !in Listing(g, filesOnly))
        && (Resets(cs[n], name) || AllLand(f, cs[..n], name, filesOnly))
  {
    var n := |cs| - 1;
    forall i | Stays(cs[..n], i) ensures cs[..n][..i] == cs[..i] {
    }
    forall i ensures Stays(cs, i) && cs[i].name == name <==>
      (i == n && Adds(cs[n], name)) || (Stays(cs[..n], i) && cs[..n][i].name == name && !Resets(cs[n], name))
    {
      StaysStep(cs, i);
    }
    if Adds(cs[n], name) {
      assert Stays(cs, n);
    }
    if !Resets(cs[n], name) && !AllLand(f, cs[..n], name, filesOnly) {
      var i :| Stays(cs[..n], i) && cs[..n][i].name == name && !Lands(f, cs[..n], i, filesOnly);
      assert Stays(cs, i) && cs[i].name == name && !Lands(f, cs, i, filesOnly);
    }
  }

  lemma {:induction false} EntryHasRow(f: Folder, cs: seq<Change>, k: nat, name: string, filesOnly: bool)
    requires name in Listing(f, filesOnly) ==> k > 0
    ensures name in Listing(ChangedAll(f, cs), filesOnly) ==> RowsAfter(k, cs, name) > 0
  {
    if cs != [] {
      EntryHasRow(f, cs[..|cs| - 1], k, name, filesOnly);
    }
  }

  lemma {:induction false} NameOnce(f: Folder, cs: seq<Change>, k: nat, name: string, filesOnly: bool)
    requires k == if name in Listing(f, filesOnly) then 1 else 0
    ensures RowsAfter(k, cs, name) == (if name in Listing(ChangedAll(f, cs), filesOnly) then 1 else 0)
      <==> AllLand(f, cs, name, filesOnly)
  {
    if cs != [] {
      NameOnce(f, cs[..|cs| - 1], k, name, filesOnly);
      EntryHasRow(f, cs[..|cs| - 1], k, name, filesOnly);
      AllLandStep(f, cs, name, filesOnly);
    }
  }

  lemma LandsByName(f: Folder, cs: seq<Change>, filesOnly: bool)
    ensures (forall name :: AllLand(f, cs, name, filesOnly)) <==>
      forall i :: Stays(cs, i) ==> Lands(f, cs, i, filesOnly)
  {
    if i :| Stays(cs, i) && !Lands(f, cs, i, filesOnly) {
      assert !AllLand(f, cs, cs[i].name, filesOnly);
    }
  }

  lemma NameExact(path: string, hash: string -> string, f: Folder, rs: seq<Inotify.Record>, cs: seq<Change>,
                  t: Table<Song>, u: Table<Song>, name: string, filesOnly: bool)
    requires Follows(path, hash, rs, cs, t, u) && OneRow(t, Listing(f, filesOnly), name)
    ensures OneRow(u, Listing(ChangedAll(f, cs), filesOnly), name) <==> AllLand(f, cs, name, filesOnly)
  {
    HistoryRows(path, hash, rs, cs, t, u, name);
    NameOnce(f, cs, RowsOf(t, name), name, filesOnly);
  }

  // Duplicates included, for all entries and for the regular files alone: each of them
  // has one row and nothing else has any, if and only if every name that comes and stays
  // comes as one of them into a folder that is there and does not have it as one yet. A
  // rename onto a file that is already there does not, and a directory is no file.
  lemma IndexExactIff(path: string, hash: string -> string, f: Folder, rs: seq<Inotify.Record>, cs: seq<Change>,
                      t: Table<Song>, u: Table<Song>, filesOnly: bool)
    requires Follows(path, hash, rs, cs, t, u) && OneEach(t, Listing(f, filesOnly))
    ensures OneEach(u, Listing(ChangedAll(f, cs), filesOnly)) <==>
      forall i :: Stays(cs, i) ==> Lands(f, cs, i, filesOnly)
  {
    forall name ensures OneRow(u, Listing(ChangedAll(f, cs), filesOnly), name) <==> AllLand(f, cs, name, filesOnly) {
      assert OneRow(t, Listing(f, filesOnly), name);
      NameExact(path, hash, f, rs, cs, t, u, name, filesOnly);
    }
    LandsByName(f, cs, filesOnly);
  }

  // ---- The folder's path in the rows ----

  ghost predicate Under(path: string, songs: seq<Song>) {
    forall i :: 0 <= i < |songs| ==> songs[i].url == path
  }

  ghost predicate AddsUnder(path: string, cs: seq<Command>) {
    forall i :: 0 <= i < |cs| && cs[i].Add? ==> cs[i].song.url == path
  }

  lemma UnderStep(path: string, t: Table<Song>, c: Command, u: Table<Song>)
    requires Under(path, Data(t.rows)) && (c.Add? ==> c.song.url == path) && Does(t, TransactionOf(c), u)
    ensures Under(path, Data(u.rows))
  {
    match c {
      case Add(song) => InsertedData(t, song);
      case Remove(name) =>
        forall i | 0 <= i < |Data(u.rows)| ensures Data(u.rows)[i].url == path {
          var d := Data(u.rows)[i];
          assert d in Data(u.rows);
          SameData(u.rows, Kept(t.rows, Named(name)), d);
          KeptData(t.rows, name, d);
        }
      case Clear =>
    }
  }

  lemma {:induction false} UnderRun(path: string, t: Table<Song>, cs: seq<Command>, u: Table<Song>)
    requires Under(path, Data(t.rows)) && AddsUnder(path, cs) && DoesAll(t, Transactions(cs), u)
    ensures Under(path, Data(u.rows))
    decreases |cs|
  {
    if cs != [] {
      var m := FirstDone(t, cs, u);
      UnderStep(path, t, cs[0], m);
      assert forall i :: 0 <= i < |cs[1..]| ==> cs[1..][i] == cs[i + 1];
      UnderRun(path, m, cs[1..], u);
    }
  }

  lemma CallUnder(path: string, hash: string -> string, r: Inotify.Record)
    ensures AddsUnder(path, HandledAll(Inotify.CallOf(path, r), hash))
  {
    var calls := Inotify.CallOf(path, r);
    if calls != [] {
      assert HandledAll(calls, hash) == Handled(calls[0], hash) + HandledAll([], hash) == Handled(calls[0], hash);
    }
  }

  // While the folder is there its path is the one the rows get.
  lemma {:induction false} PathStays(path: string, hash: string -> string, f: Folder, rs: seq<Inotify.Record>,
                                     cs: seq<Change>)
    requires ReportsAll(rs, cs) && ChangedAll(f, cs).Present?
    ensures Inotify.FolderAtEnd(path, rs) == path
    ensures AddsUnder(path, HandledAll(Inotify.Calls(path, rs), hash))
    decreases |rs|
  {
    if rs != [] {
      var n := |rs| - 1;
      LastCall(path, rs);
      PathStays(path, hash, f, rs[..n], cs[..n]);
      MaskMeans(rs[n], cs[n]);
      HandledAppend(Inotify.Calls(path, rs[..n]), Inotify.CallOf(path, rs[n]), hash);
      CallUnder(path, hash, rs[n]);
    }
  }

  lemma HistoryUnder(path: string, hash: string -> string, f: Folder, rs: seq<Inotify.Record>, cs: seq<Change>,
                     t: Table<Song>, u: Table<Song>)
    requires Follows(path, hash, rs, cs, t, u) && ChangedAll(f, cs).Present? && Under(path, Data(t.rows))
    ensures Under(path, Data(u.rows))
  {
    PathStays(path, hash, f, rs, cs);
    var emit := HandledAll(Inotify.Calls(path, rs), hash);
    var exec :| Executed(emit, exec, t, u);
    var pi, inv :| Reorders(emit, exec, pi, inv);
    assert forall i :: 0 <= i < |exec| ==> exec[i] == emit[pi[i]];
    UnderRun(path, t, exec, u);
  }

  // ---- Refresh ----

  // Before the truncation is queued, while its future is awaited, with the first i
  // songs queued, or given up because the truncation failed.
  datatype Phase = Begun | Truncating(ran: bool) | Adding(i: nat) | Failed

  // queued holds the add commands some worker will run, in any order.
  datatype Refresh = Refresh(phase: Phase, queued: multiset<Song>, table: Table<Song>)

  datatype RefreshStep = QueueTruncate | RunTruncate | TruncateFails | Resume | QueueAdd | RunAdd(song: Song)

  predicate CanRefresh(s: Refresh, songs: seq<Song>, step: RefreshStep) {
    match step
    case QueueTruncate => s.phase == Begun
    case RunTruncate => s.phase == Truncating(false)
    case TruncateFails => s.phase == Truncating(false)
    case Resume => s.phase == Truncating(true)
    case QueueAdd => s.phase.Adding? && s.phase.i < |songs|
    case RunAdd(song) => song in s.queued
  }

  function Refreshed(s: Refresh, songs: seq<Song>, step: RefreshStep): Refresh
    requires CanRefresh(s, songs, step)
  {
    match step
    case QueueTruncate => s.(phase := Truncating(false))
    case RunTruncate => s.(phase := Truncating(true), table := Table([], RESTARTED))
    case TruncateFails => s.(phase := Failed)
    case Resume => s.(phase := Adding(0))
    case QueueAdd => s.(phase := Adding(s.phase.i + 1), queued := s.queued + multiset{songs[s.phase.i]})
    case RunAdd(song) => s.(queued := s.queued - multiset{song}, table := Inserted(s.table, song))
  }

  ghost predicate RefreshRun(s: Refresh, songs: seq<Song>, steps: seq<RefreshStep>, t: Refresh)
    decreases |steps|
  {
    if steps == [] then t == s
    else CanRefresh(s, songs, steps[0]) && RefreshRun(Refreshed(s, songs, steps[0]), songs, steps[1..], t)
  }

  ghost predicate RefreshInv(s: Refresh, songs: seq<Song>) {
    match s.phase
    case Begun => s.queued == multiset{}
    case Truncating(ran) => s.queued == multiset{} && (ran ==> s.table == Table([], RESTARTED))
    case Adding(i) =>
      i <= |songs| && multiset(Data(s.table.rows)) + s.queued == multiset(songs[..i]) && Contiguous(s.table)
    case Failed => s.queued == multiset{}
  }

  lemma QueueAddInv(s: Refresh, songs: seq<Song>)
    requires RefreshInv(s, songs) && CanRefresh(s, songs, QueueAdd)
    ensures RefreshInv(Refreshed(s, songs, QueueAdd), songs)
  {
    assert songs[..s.phase.i + 1] == songs[..s.phase.i] + [songs[s.phase.i]];
  }

  lemma RunAddInv(s: Refresh, songs: seq<Song>, song: Song)
    requires RefreshInv(s, songs) && CanRefresh(s, songs, RunAdd(song))
    ensures RefreshInv(Refreshed(s, songs, RunAdd(song)), songs)
  {
    assert s.phase.Adding?;
    InsertedData(s.table, song);
    InsertedContiguous(s.table, song);
    var data, left := multiset(Data(s.table.rows)), s.queued - multiset{song};
    assert multiset(Data(s.table.rows) + [song]) == data + multiset{song};
    assert left + multiset{song} == s.queued;
    assert (data + multiset{song}) + left == data + (left + multiset{song});
  }

  lemma RefreshInvStep(s: Refresh, songs: seq<Song>, step: RefreshStep)
    requires RefreshInv(s, songs) && CanRefresh(s, songs, step)
    ensures RefreshInv(Refreshed(s, songs, step), songs)
  {
    match step {
      case QueueAdd => QueueAddInv(s, songs);
      case RunAdd(song) => RunAddInv(s, songs, song);
      case _ =>
    }
  }

  lemma {:induction false} RefreshInvRun(s: Refresh, songs: seq<Song>, steps: seq<RefreshStep>, t: Refresh)
    requires RefreshInv(s, songs) && RefreshRun(s, songs, steps, t)
    ensures RefreshInv(t, songs)
    decreases |steps|
  {
    if steps != [] {
      RefreshInvStep(s, songs, steps[0]);
      RefreshInvRun(Refreshed(s, songs, steps[0]), songs, steps[1..], t);
    }
  }

  lemma {:induction false} RowsAndData(rows: seq<Row<Song>>, name: string)
    ensures Sum(OfName(name), rows) == Sum(SongOfName(name), Data(rows))
  {
    if rows != [] {
      RowsAndData(rows[1..], name);
    }
  }

  lemma {:induction false} OnceInDistinct(songs: seq<Song>, k: nat)
    requires k < |songs| && forall i, j :: 0 <= i < j < |songs| ==> songs[i].name != songs[j].name
    ensures Sum(SongOfName(songs[k].name), songs) == 1
  {
    var f := SongOfName(songs[k].name);
    assert songs == songs[..k] + ([songs[k]] + songs[k + 1..]);
    SumAppend(f, songs[..k], [songs[k]] + songs[k + 1..]);
    SumAppend(f, [songs[k]], songs[k + 1..]);
    SumZero(f, songs[..k]);
    SumZero(f, songs[k + 1..]);
    assert Sum(f, [songs[k]]) == f(songs[k]);
  }

  // However the workers interleave: once every add has run, the table holds exactly
  // the listed songs, each name once, and its ids are 1 .. n.
  lemma RefreshExact(table: Table<Song>, songs: seq<Song>, steps: seq<RefreshStep>, t: Refresh)
    requires forall i, j :: 0 <= i < j < |songs| ==> songs[i].name != songs[j].name
    requires RefreshRun(Refresh(Begun, multiset{}, table), songs, steps, t)
    requires t.phase == Adding(|songs|) && t.queued == multiset{}
    ensures multiset(Data(t.table.rows)) == multiset(songs)
    ensures forall k :: 0 <= k < |songs| ==> Sum(OfName(songs[k].name), t.table.rows) == 1
    ensures |t.table.rows| == |songs| && Contiguous(t.table)
  {
    RefreshInvRun(Refresh(Begun, multiset{}, table), songs, steps, t);
    assert songs[..|songs|] == songs;
    forall k | 0 <= k < |songs| ensures Sum(OfName(songs[k].name), t.table.rows) == 1 {
      RowsAndData(t.table.rows, songs[k].name);
      SumPermuted(SongOfName(songs[k].name), Data(t.table.rows), songs);
      OnceInDistinct(songs, k);
    }
    DataLength(t.table.rows);
    assert |multiset(songs)| == |songs| && |multiset(Data(t.table.rows))| == |Data(t.table.rows)|;
  }

  // A truncation that fails leaves the table alone, and no add is ever queued.
  lemma {:induction false} RefreshFails(s: Refresh, songs: seq<Song>, steps: seq<RefreshStep>, t: Refresh)
    requires RefreshRun(s, songs, steps, t) && s.queued == multiset{} && t.phase == Failed
    requires s.phase in {Begun, Truncating(false), Failed}
    ensures t.table == s.table && t.queued == multiset{}
    decreases |steps|
  {
    if steps != [] {
      if steps[0].RunTruncate? {
        NoWayBack(Refreshed(s, songs, steps[0]), songs, steps[1..], t);
      } else {
        RefreshFails(Refreshed(s, songs, steps[0]), songs, steps[1..], t);
      }
    }
  }

  lemma {:induction false} NoWayBack(s: Refresh, songs: seq<Song>, steps: seq<RefreshStep>, t: Refresh)
    requires RefreshRun(s, songs, steps, t) && (s.phase == Truncating(true) || s.phase.Adding?)
    ensures t.phase != Failed
    decreases |steps|
  {
    if steps != [] {
      NoWayBack(Refreshed(s, songs, steps[0]), songs, steps[1..], t);
    }
  }
}
