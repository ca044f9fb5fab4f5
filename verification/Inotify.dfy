// The walk over the bytes inotify delivers, and the handler calls it makes.

module Inotify {
  import opened Sums

  type byte = b: int | 0 <= b < 256

  const IN_MOVED_FROM := 0x40
  const IN_MOVED_TO := 0x80
  const IN_CREATE := 0x100
  const IN_DELETE := 0x200
  const IN_DELETE_SELF := 0x400
  const IN_MOVE_SELF := 0x800

  const HEADER := 16
  const WORD := 0x1_0000_0000

  // One event as the kernel queued it. The name is followed by pad NUL bytes; both
  // together are the record's len field.
  datatype Record = Record(wd: nat, mask: nat, cookie: nat, name: string, pad: nat)

  // The vector handed to the handler: files folder, event, entity name.
  datatype Args = Args(folder: string, event: string, entity: string)

  predicate Bit(mask: nat, bit: nat)
    requires bit > 0
  {
    mask / bit % 2 == 1
  }

  // What the chain of mask tests makes of an event.
  function EventOf(mask: nat): Option<string> {
    if Bit(mask, IN_CREATE) then Some("add")
    else if Bit(mask, IN_DELETE) then Some("delete")
    else if Bit(mask, IN_MOVED_FROM) then Some("delete")
    else if Bit(mask, IN_MOVED_TO) then Some("add")
    else if Bit(mask, IN_DELETE_SELF) then Some("dir_del")
    else if Bit(mask, IN_MOVE_SELF) then Some("dir_del")
    else None
  }

  predicate NameChar(c: char) {
    0 < c as int < 256
  }

  predicate WellFormed(r: Record) {
    && r.wd < WORD && r.mask < WORD && r.cookie < WORD && |r.name| + r.pad < WORD
    && (forall i :: 0 <= i < |r.name| ==> NameChar(r.name[i]))
    && (r.name != "" ==> r.pad > 0)
    && (EventOf(r.mask) in {Some("add"), Some("delete")} ==> r.name != "")
  }

  ghost predicate AllWellFormed(rs: seq<Record>) {
    forall i :: 0 <= i < |rs| ==> WellFormed(rs[i])
  }

  // ---- Bytes ----

  function Le32(v: nat): seq<byte>
    requires v < WORD
  {
    [v % 256, v / 256 % 256, v / 65536 % 256, v / 16777216]
  }

  function Read32(b: seq<byte>, i: nat): nat
    requires i + 4 <= |b|
  {
    var b0: int, b1: int, b2: int, b3: int := b[i], b[i + 1], b[i + 2], b[i + 3];
    b0 + 256 * b1 + 65536 * b2 + 16777216 * b3
  }

  function NameBytes(name: string): seq<byte>
    requires forall i :: 0 <= i < |name| ==> NameChar(name[i])
  {
    seq(|name|, i requires 0 <= i < |name| && NameChar(name[i]) => var b: byte := name[i] as int; b)
  }

  function Zeros(n: nat): seq<byte> {
    seq(n, _ => 0)
  }

  function Header(r: Record): (h: seq<byte>)
    requires WellFormed(r)
    ensures |h| == HEADER
  {
    Le32(r.wd) + Le32(r.mask) + Le32(r.cookie) + Le32(|r.name| + r.pad)
  }

  function Encode(r: Record): (e: seq<byte>)
    requires WellFormed(r)
    ensures |e| == HEADER + |r.name| + r.pad
  {
    Header(r) + (NameBytes(r.name) + Zeros(r.pad))
  }

  function Size(r: Record): nat {
    HEADER + |r.name| + r.pad
  }

  function TotalSize(rs: seq<Record>): nat {
    if rs == [] then 0 else Size(rs[0]) + TotalSize(rs[1..])
  }

  function Concat<T>(parts: seq<seq<T>>): seq<T> {
    if parts == [] then [] else parts[0] + Concat(parts[1..])
  }

  function EncodeEach(rs: seq<Record>): seq<seq<byte>>
    requires forall i :: 0 <= i < |rs| ==> WellFormed(rs[i])
  {
    seq(|rs|, i requires 0 <= i < |rs| && WellFormed(rs[i]) => Encode(rs[i]))
  }

  function EncodeAll(rs: seq<Record>): seq<byte>
    requires forall i :: 0 <= i < |rs| ==> WellFormed(rs[i])
  {
    Concat(EncodeEach(rs))
  }

  // A C string: the characters up to the first NUL.
  function CString(b: seq<byte>, i: nat): string
    requires i <= |b|
    decreases |b| - i
  {
    if i == |b| || b[i] == 0 then "" else [b[i] as char] + CString(b, i + 1)
  }

  // ---- What the walk should amount to ----

  function Quoted(name: string): string {
    "'" + name + "'"
  }

  // After the folder is gone its path is cleared, for the events that follow too.
  function FolderAfter(folder: string, r: Record): string {
    if EventOf(r.mask) == Some("dir_del") then "" else folder
  }

  function CallOf(folder: string, r: Record): seq<Args> {
    match EventOf(r.mask)
    case None => []
    case Some("dir_del") => [Args(folder, "dir_del", "")]
    case Some(event) => [Args(folder, event, Quoted(r.name))]
  }

  // One call for each recognised record, in order.
  function Calls(folder: string, rs: seq<Record>): seq<Args>
    decreases |rs|
  {
    if rs == [] then [] else CallOf(folder, rs[0]) + Calls(FolderAfter(folder, rs[0]), rs[1..])
  }

  function FolderAtEnd(folder: string, rs: seq<Record>): string
    decreases |rs|
  {
    if rs == [] then folder else FolderAtEnd(FolderAfter(folder, rs[0]), rs[1..])
  }

  function Gone(rs: seq<Record>): bool {
    rs != [] && (EventOf(rs[0].mask) == Some("dir_del") || Gone(rs[1..]))
  }

  // Where each record starts.
  function Offsets(start: nat, rs: seq<Record>): seq<nat>
    decreases |rs|
  {
    if rs == [] then [] else [start] + Offsets(start + Size(rs[0]), rs[1..])
  }

  // ---- Reading back one record ----

  lemma Le32Read(v: nat, b: seq<byte>, i: nat)
    requires v < WORD && i + 4 <= |b| && b[i..i + 4] == Le32(v)
    ensures Read32(b, i) == v
  {
    assert b[i] == Le32(v)[0] && b[i + 1] == Le32(v)[1] && b[i + 2] == Le32(v)[2] && b[i + 3] == Le32(v)[3];
    assert v == v / 256 * 256 + v % 256;
    assert v / 256 == v / 65536 * 256 + v / 256 % 256;
    assert v / 65536 == v / 16777216 * 256 + v / 65536 % 256;
  }

  lemma {:induction false} CStringRead(name: string, b: seq<byte>, i: nat)
    requires i + |name| < |b| && b[i + |name|] == 0
    requires forall k :: 0 <= k < |name| ==> NameChar(name[k]) && b[i + k] == name[k] as int
    ensures CString(b, i) == name
  {
    if name != "" {
      assert b[i] == name[0] as int;
      forall k | 0 <= k < |name[1..]| ensures NameChar(name[1..][k]) && b[i + 1 + k] == name[1..][k] as int {
        assert name[1..][k] == name[k + 1];
      }
      CStringRead(name[1..], b, i + 1);
    }
  }

  lemma Within(b: seq<byte>, i: nat, n: nat, lo: nat, hi: nat)
    requires i + n <= |b| && lo <= hi <= n
    ensures b[i + lo..i + hi] == b[i..i + n][lo..hi]
  {
    var s := b[i..i + n];
    assert forall k :: lo <= k < hi ==> s[k] == b[i + k];
  }

  lemma HeaderFields(r: Record)
    requires WellFormed(r)
    ensures Encode(r)[4..8] == Le32(r.mask) && Encode(r)[12..16] == Le32(|r.name| + r.pad)
  {
    var h := Header(r);
    assert h[4..8] == Le32(r.mask) && h[12..16] == Le32(|r.name| + r.pad);
    assert Encode(r)[4..8] == h[4..8] && Encode(r)[12..16] == h[12..16];
  }

  lemma NameField(r: Record, k: nat)
    requires WellFormed(r) && r.name != "" && k <= |r.name|
    ensures Encode(r)[HEADER + k] == if k < |r.name| then r.name[k] as int else 0
  {
    var rest := NameBytes(r.name) + Zeros(r.pad);
    assert Encode(r)[HEADER + k] == rest[k];
  }

  lemma SameByte(b: seq<byte>, i: nat, e: seq<byte>, k: nat)
    requires i + |e| <= |b| && b[i..i + |e|] == e && k < |e|
    ensures b[i + k] == e[k]
  {
    assert b[i..i + |e|][k] == b[i + k];
  }

  lemma NameRead(b: seq<byte>, i: nat, r: Record)
    requires WellFormed(r) && r.name != "" && i + |Encode(r)| <= |b| && b[i..i + |Encode(r)|] == Encode(r)
    ensures CString(b, i + HEADER) == r.name
  {
    var e := Encode(r);
    forall k | 0 <= k <= |r.name| ensures b[i + HEADER + k] == if k < |r.name| then r.name[k] as int else 0 {
      NameField(r, k);
      SameByte(b, i, e, HEADER + k);
    }
    CStringRead(r.name, b, i + HEADER);
  }

  // At the offset of an encoded record the header fields and the name read back.
  lemma RecordRead(b: seq<byte>, i: nat, r: Record)
    requires WellFormed(r) && i + |Encode(r)| <= |b| && b[i..i + |Encode(r)|] == Encode(r)
    ensures |Encode(r)| == Size(r)
    ensures Read32(b, i + 4) == r.mask && Read32(b, i + 12) == |r.name| + r.pad
    ensures r.name != "" ==> CString(b, i + HEADER) == r.name
  {
    HeaderFields(r);
    Within(b, i, |Encode(r)|, 4, 8);
    Within(b, i, |Encode(r)|, 12, 16);
    Le32Read(r.mask, b, i + 4);
    Le32Read(|r.name| + r.pad, b, i + 12);
    if r.name != "" {
      NameRead(b, i, r);
    }
  }

  // ---- Lists of records ----

  lemma {:induction false} ConcatAppend<T>(a: seq<seq<T>>, b: seq<seq<T>>)
    ensures Concat(a + b) == Concat(a) + Concat(b)
  {
    if a == [] {
      assert a + b == b;
    } else {
      assert (a + b)[1..] == a[1..] + b;
      ConcatAppend(a[1..], b);
      assert a[0] + (Concat(a[1..]) + Concat(b)) == (a[0] + Concat(a[1..])) + Concat(b);
    }
  }

  lemma EncodeAppend(a: seq<Record>, b: seq<Record>)
    requires AllWellFormed(a) && AllWellFormed(b)
    ensures AllWellFormed(a + b) && EncodeAll(a + b) == EncodeAll(a) + EncodeAll(b)
  {
    assert EncodeEach(a + b) == EncodeEach(a) + EncodeEach(b);
    ConcatAppend(EncodeEach(a), EncodeEach(b));
  }

  lemma EncodeOne(r: Record)
    requires WellFormed(r)
    ensures EncodeAll([r]) == Encode(r)
  {
    var parts := EncodeEach([r]);
    assert parts == [Encode(r)];
    assert Concat(parts) == Encode(r) + Concat(parts[1..]);
    assert Concat(parts[1..]) == [];
  }

  lemma {:induction false} EncodedSize(rs: seq<Record>)
    requires AllWellFormed(rs)
    ensures |EncodeAll(rs)| == TotalSize(rs)
  {
    if rs != [] {
      assert forall i :: 0 <= i < |rs[1..]| ==> rs[1..][i] == rs[i + 1];
      EncodedSize(rs[1..]);
      assert EncodeEach(rs)[1..] == EncodeEach(rs[1..]);
      assert EncodeEach(rs)[0] == Encode(rs[0]);
    }
  }

  lemma {:induction false} CallsAppend(folder: string, a: seq<Record>, b: seq<Record>)
    ensures Calls(folder, a + b) == Calls(folder, a) + Calls(FolderAtEnd(folder, a), b)
    ensures FolderAtEnd(folder, a + b) == FolderAtEnd(FolderAtEnd(folder, a), b)
    ensures Gone(a + b) == (Gone(a) || Gone(b))
    decreases |a|
  {
    if a == [] {
      assert a + b == b;
    } else {
      assert (a + b)[1..] == a[1..] + b;
      CallsAppend(FolderAfter(folder, a[0]), a[1..], b);
    }
  }

  lemma {:induction false} OffsetsAppend(start: nat, a: seq<Record>, r: Record)
    ensures Offsets(start, a + [r]) == Offsets(start, a) + [start + TotalSize(a)]
    decreases |a|
  {
    var all := a + [r];
    if a == [] {
      assert all == [r];
      assert Offsets(start, all) == [start] + Offsets(start + Size(r), all[1..]);
    } else {
      assert all[0] == a[0] && all[1..] == a[1..] + [r];
      OffsetsAppend(start + Size(a[0]), a[1..], r);
    }
  }

  lemma Between<T>(a: seq<T>, b: seq<T>, c: seq<T>)
    ensures ((a + b) + c)[|a|..|a + b|] == b
  {
  }

  lemma Cut(rs: seq<Record>, k: nat)
    requires AllWellFormed(rs) && k < |rs|
    ensures AllWellFormed(rs[..k]) && AllWellFormed(rs[..k + 1])
    ensures rs[..k + 1] == rs[..k] + [rs[k]]
    ensures EncodeAll(rs[..k + 1]) == EncodeAll(rs[..k]) + Encode(rs[k])
    ensures |EncodeAll(rs[..k + 1])| <= |EncodeAll(rs)|
    ensures EncodeAll(rs)[|EncodeAll(rs[..k])|..|EncodeAll(rs[..k + 1])|] == Encode(rs[k])
  {
    assert rs == rs[..k + 1] + rs[k + 1..];
    EncodeAppend(rs[..k], [rs[k]]);
    EncodeOne(rs[k]);
    EncodeAppend(rs[..k + 1], rs[k + 1..]);
    Between(EncodeAll(rs[..k]), Encode(rs[k]), EncodeAll(rs[k + 1..]));
  }

  // ---- The state of the walk ----

  datatype State = State(folder: string, done: bool, handled: seq<Args>)

  // After k records: the offset is where record k starts, and everything so far is
  // as it should be.
  ghost predicate Reached(start: State, rs: seq<Record>, k: nat, i: nat, visited: seq<nat>, now: State)
    requires AllWellFormed(rs) && k <= |rs|
  {
    && AllWellFormed(rs[..k]) && i == |EncodeAll(rs[..k])| <= |EncodeAll(rs)|
    && visited == Offsets(0, rs[..k])
    && now == State(FolderAtEnd(start.folder, rs[..k]), start.done || Gone(rs[..k]),
                    start.handled + Calls(start.folder, rs[..k]))
  }

  lemma NotAtEnd(start: State, rs: seq<Record>, k: nat, i: nat, visited: seq<nat>, now: State)
    requires AllWellFormed(rs) && k <= |rs| && Reached(start, rs, k, i, visited, now) && i < |EncodeAll(rs)|
    ensures k < |rs|
  {
    assert rs[..|rs|] == rs;
  }

  lemma AtEnd(start: State, rs: seq<Record>, k: nat, i: nat, visited: seq<nat>, now: State)
    requires AllWellFormed(rs) && k <= |rs| && Reached(start, rs, k, i, visited, now) && i >= |EncodeAll(rs)|
    ensures i == |EncodeAll(rs)| && visited == Offsets(0, rs)
    ensures now == State(if FolderGone(rs, |rs|) then "" else start.folder, start.done || FolderGone(rs, |rs|),
                         start.handled + Calls(start.folder, rs))
  {
    GoneMeans(start.folder, rs);
    if k < |rs| {
      Cut(rs, k);
    }
    assert rs[..k] == rs;
  }

  lemma RecordAt(start: State, rs: seq<Record>, k: nat, i: nat, visited: seq<nat>, now: State)
    requires AllWellFormed(rs) && k < |rs| && Reached(start, rs, k, i, visited, now)
    ensures var b, r := EncodeAll(rs), rs[k];
      && i + HEADER + |r.name| + r.pad <= |b|
      && Read32(b, i + 4) == r.mask && Read32(b, i + 12) == |r.name| + r.pad
      && (r.name != "" ==> CString(b, i + HEADER) == r.name)
  {
    Cut(rs, k);
    RecordRead(EncodeAll(rs), i, rs[k]);
  }

  // What one more record adds.
  lemma OneCall(folder: string, r: Record)
    ensures Calls(folder, [r]) == CallOf(folder, r)
    ensures FolderAtEnd(folder, [r]) == FolderAfter(folder, r)
    ensures Gone([r]) == (EventOf(r.mask) == Some("dir_del"))
  {
    var rs := [r];
    assert Calls(folder, rs) == CallOf(folder, r) + Calls(FolderAfter(folder, r), rs[1..]);
    assert FolderAtEnd(folder, rs) == FolderAtEnd(FolderAfter(folder, r), rs[1..]);
    assert !Gone(rs[1..]);
  }

  // The calls, the folder and the flag after one more record.
  lemma CallsStep(folder: string, rs: seq<Record>, k: nat)
    requires k < |rs|
    ensures var f := FolderAtEnd(folder, rs[..k]);
      && Calls(folder, rs[..k + 1]) == Calls(folder, rs[..k]) + CallOf(f, rs[k])
      && FolderAtEnd(folder, rs[..k + 1]) == FolderAfter(f, rs[k])
      && Gone(rs[..k + 1]) == (Gone(rs[..k]) || EventOf(rs[k].mask) == Some("dir_del"))
  {
    assert rs[..k + 1] == rs[..k] + [rs[k]];
    CallsAppend(folder, rs[..k], [rs[k]]);
    OneCall(FolderAtEnd(folder, rs[..k]), rs[k]);
  }

  // The offset after one more record.
  lemma OffsetStep(rs: seq<Record>, k: nat)
    requires AllWellFormed(rs) && k < |rs|
    ensures AllWellFormed(rs[..k]) && AllWellFormed(rs[..k + 1])
    ensures |EncodeAll(rs[..k + 1])| == |EncodeAll(rs[..k])| + Size(rs[k]) <= |EncodeAll(rs)|
    ensures Offsets(0, rs[..k + 1]) == Offsets(0, rs[..k]) + [|EncodeAll(rs[..k])|]
  {
    Cut(rs, k);
    EncodedSize(rs[..k]);
    OffsetsAppend(0, rs[..k], rs[k]);
  }

  // What one more record adds.
  lemma Advance(start: State, rs: seq<Record>, k: nat, visited: seq<nat>, before: State, now: State)
    requires AllWellFormed(rs) && k < |rs| && visited != []
    requires Reached(start, rs, k, visited[|visited| - 1], visited[..|visited| - 1], before)
    requires now.handled == before.handled + CallOf(before.folder, rs[k])
    requires now.folder == FolderAfter(before.folder, rs[k])
    requires now.done == (before.done || EventOf(rs[k].mask) == Some("dir_del"))
    ensures Reached(start, rs, k + 1, visited[|visited| - 1] + Size(rs[k]), visited, now)
  {
    OffsetStep(rs, k);
    CallsStep(start.folder, rs, k);
    assert visited == visited[..|visited| - 1] + [visited[|visited| - 1]];
    assert start.handled + Calls(start.folder, rs[..k]) + CallOf(before.folder, rs[k])
        == start.handled + (Calls(start.folder, rs[..k]) + CallOf(before.folder, rs[k]));
  }

  // ---- What the walk means, from the bytes ----

  predicate Set(mask: nat, k: nat) {
    mask / Power(k) % 2 == 1
  }

  function Power(k: nat): (p: nat)
    ensures p >= 1
  {
    if k == 0 then 1 else 2 * Power(k - 1)
  }

  lemma Powers()
    ensures Power(6) == 0x40 && Power(7) == 0x80 && Power(8) == 0x100 && Power(9) == 0x200
    ensures Power(10) == 0x400 && Power(11) == 0x800
  {
    assert Power(4) == 16 && Power(8) == 256;
  }

  // By the bits of the mask, as the kernel numbers them: 8 created, 9 deleted, 6 moved
  // out, 7 moved in, 10 the folder deleted, 11 the folder moved; the first of these in
  // this order decides.
  lemma EventMeans(mask: nat)
    ensures EventOf(mask) == Some("add") <==> Set(mask, 8) || (Set(mask, 7) && !Set(mask, 9) && !Set(mask, 6))
    ensures EventOf(mask) == Some("delete") <==> !Set(mask, 8) && (Set(mask, 9) || Set(mask, 6))
    ensures EventOf(mask) == Some("dir_del") <==>
      (Set(mask, 10) || Set(mask, 11)) && !Set(mask, 8) && !Set(mask, 9) && !Set(mask, 6) && !Set(mask, 7)
    ensures EventOf(mask) == None <==> forall k :: 6 <= k <= 11 ==> !Set(mask, k)
  {
    Powers();
  }

  // The layout of a record: watch, mask, cookie and length in four bytes each, lowest
  // byte first, then the name and its padding.
  lemma Layout(r: Record, k: nat)
    requires WellFormed(r) && k < 4
    ensures |Encode(r)| == 16 + |r.name| + r.pad
    ensures Encode(r)[k] == r.wd / Power(8 * k) % 256
    ensures Encode(r)[4 + k] == r.mask / Power(8 * k) % 256
    ensures Encode(r)[8 + k] == r.cookie / Power(8 * k) % 256
    ensures Encode(r)[12 + k] == (|r.name| + r.pad) / Power(8 * k) % 256
    ensures forall i :: 0 <= i < |r.name| ==> Encode(r)[16 + i] == r.name[i] as int
    ensures forall i :: 16 + |r.name| <= i < |Encode(r)| ==> Encode(r)[i] == 0
  {
    BytePowers();
    Le32At(r.wd, k);
    Le32At(r.mask, k);
    Le32At(r.cookie, k);
    Le32At(|r.name| + r.pad, k);
    var h, e := Header(r), Encode(r);
    assert h[k] == Le32(r.wd)[k] && h[4 + k] == Le32(r.mask)[k];
    assert h[8 + k] == Le32(r.cookie)[k] && h[12 + k] == Le32(|r.name| + r.pad)[k];
    assert e[k] == h[k] && e[4 + k] == h[4 + k] && e[8 + k] == h[8 + k] && e[12 + k] == h[12 + k];
    var rest := NameBytes(r.name) + Zeros(r.pad);
    assert forall i :: 16 <= i < |e| ==> e[i] == rest[i - 16];
  }

  lemma BytePowers()
    ensures Power(0) == 1 && Power(8) == 256 && Power(16) == 65536 && Power(24) == 16777216
  {
    assert Power(4) == 16 && Power(12) == 16 * Power(8) && Power(20) == 16 * Power(16);
  }

  lemma Le32At(v: nat, k: nat)
    requires v < WORD && k < 4
    ensures Le32(v)[k] == v / Power(8 * k) % 256
  {
    BytePowers();
  }

  // Some record up to k tells that the folder itself is gone.
  ghost predicate FolderGone(rs: seq<Record>, k: nat) {
    exists j :: 0 <= j < k && j < |rs| && EventOf(rs[j].mask) == Some("dir_del")
  }

  lemma {:induction false} GoneMeans(folder: string, rs: seq<Record>)
    ensures Gone(rs) <==> FolderGone(rs, |rs|)
    ensures FolderAtEnd(folder, rs) == if FolderGone(rs, |rs|) then "" else folder
    decreases |rs|
  {
    if rs != [] {
      GoneMeans(FolderAfter(folder, rs[0]), rs[1..]);
      assert forall j :: 0 <= j < |rs[1..]| ==> rs[1..][j] == rs[j + 1];
      if FolderGone(rs[1..], |rs[1..]|) {
        var j :| 0 <= j < |rs[1..]| && EventOf(rs[1..][j].mask) == Some("dir_del");
        assert EventOf(rs[j + 1].mask) == Some("dir_del");
      }
    }
  }

  // Each record is visited where it begins.
  lemma OffsetsMean(rs: seq<Record>)
    requires AllWellFormed(rs)
    ensures |Offsets(0, rs)| == |rs|
    ensures forall k :: 0 <= k < |rs| ==> AllWellFormed(rs[..k]) && Offsets(0, rs)[k] == |EncodeAll(rs[..k])|
  {
    if rs != [] {
      OffsetAt(0, rs, 0);
    }
    forall k | 0 <= k < |rs|
      ensures |Offsets(0, rs)| == |rs| && AllWellFormed(rs[..k]) && Offsets(0, rs)[k] == |EncodeAll(rs[..k])|
    {
      OffsetAt(0, rs, k);
      EncodedSize(rs[..k]);
    }
  }

  lemma {:induction false} OffsetAt(start: nat, rs: seq<Record>, k: nat)
    requires k < |rs|
    ensures |Offsets(start, rs)| == |rs| && Offsets(start, rs)[k] == start + TotalSize(rs[..k])
    decreases |rs|
  {
    if |rs| > 1 {
      var j := if k == 0 then 0 else k - 1;
      OffsetAt(start + Size(rs[0]), rs[1..], j);
      assert k > 0 ==> rs[..k][1..] == rs[1..][..k - 1];
    }
  }

  // What the kernel delivers: names without NUL with at least one NUL after them, and
  // nameless reports about the folder itself.
  lemma KernelRecords(wd: nat, mask: nat, cookie: nat, name: string, pad: nat)
    requires wd < 0x1_0000_0000 && mask < 0x1_0000_0000 && cookie < 0x1_0000_0000 && |name| + pad <= 0xFFFF_FFFF
    requires forall i :: 0 <= i < |name| ==> 0 < name[i] as int < 256
    ensures name != "" && pad > 0 ==> WellFormed(Record(wd, mask, cookie, name, pad))
    ensures EventOf(mask) == None || EventOf(mask) == Some("dir_del") ==> WellFormed(Record(wd, mask, cookie, "", pad))
  {
  }

  // Record by record: no call for a mask that is not recognised; otherwise one, with the
  // path cleared if the folder was reported gone before, and the name in quotes.
  lemma CallsMean(folder: string, rs: seq<Record>, k: nat)
    requires k < |rs|
    ensures var path := if FolderGone(rs, k) then "" else folder;
      Calls(folder, rs[..k + 1]) == Calls(folder, rs[..k]) +
        match EventOf(rs[k].mask)
        case None => []
        case Some(event) => [Args(path, event, if event == "dir_del" then "" else "'" + rs[k].name + "'")]
  {
    CallsStep(folder, rs, k);
    GoneMeans(folder, rs[..k]);
    EventKinds(rs[k].mask);
    assert forall j :: 0 <= j < k ==> rs[..k][j] == rs[j];
    if FolderGone(rs, k) {
      var j :| 0 <= j < k && EventOf(rs[j].mask) == Some("dir_del");
      assert EventOf(rs[..k][j].mask) == Some("dir_del");
    }
  }

  // ---- Reading no further than the record ----

  // Where the C string at i ends: at the first NUL, or where the buffer does.
  function NulAt(b: seq<byte>, i: nat): (k: nat)
    requires i <= |b|
    ensures i <= k <= |b|
    decreases |b| - i
  {
    if i == |b| || b[i] == 0 then i else NulAt(b, i + 1)
  }

  lemma {:induction false} NulFound(b: seq<byte>, i: nat, k: nat)
    requires i <= k < |b| && b[k] == 0 && forall j :: i <= j < k ==> b[j] != 0
    ensures NulAt(b, i) == k
    decreases k - i
  {
    if i < k {
      NulFound(b, i + 1, k);
    }
  }

  // The record ends after the name field, so a string that starts there ends inside the
  // record if and only if the field holds anything.
  lemma NameInside(b: seq<byte>, i: nat, r: Record)
    requires WellFormed(r) && i + |Encode(r)| <= |b| && b[i..i + |Encode(r)|] == Encode(r)
    ensures NulAt(b, i + HEADER) < i + Size(r) <==> |r.name| + r.pad > 0
  {
    var e := Encode(r);
    if r.name != "" {
      forall k | 0 <= k <= |r.name| ensures b[i + HEADER + k] == if k < |r.name| then r.name[k] as int else 0 {
        NameField(r, k);
        SameByte(b, i, e, HEADER + k);
      }
      NulFound(b, i + HEADER, i + HEADER + |r.name|);
    } else if r.pad > 0 {
      assert e[HEADER] == (NameBytes(r.name) + Zeros(r.pad))[0] == 0;
      SameByte(b, i, e, HEADER);
      NulFound(b, i + HEADER, i + HEADER);
    }
  }

  // Record k of the buffer: the walk does not read its name, or finds its end inside.
  ghost predicate ReadsOwn(rs: seq<Record>, k: nat)
    requires AllWellFormed(rs) && k < |rs|
  {
    EventOf(rs[k].mask).Some? ==>
      AllWellFormed(rs[..k]) && |EncodeAll(rs[..k])| + Size(rs[k]) <= |EncodeAll(rs)| &&
      NulAt(EncodeAll(rs), |EncodeAll(rs[..k])| + HEADER) < |EncodeAll(rs[..k])| + Size(rs[k])
  }

  // The walk reads only bytes of the record it looks at if and only if no report that the
  // folder itself is gone comes without a name field. Those of the kernel do, and the
  // name is then looked for in the next record or behind the buffer.
  lemma ReadsOwnIff(rs: seq<Record>)
    requires AllWellFormed(rs)
    ensures (forall k: nat :: k < |rs| ==> ReadsOwn(rs, k)) <==>
      forall k: nat :: k < |rs| && EventOf(rs[k].mask) == Some("dir_del") ==> |rs[k].name| + rs[k].pad > 0
  {
    forall k: nat | k < |rs|
      ensures ReadsOwn(rs, k) <==> (EventOf(rs[k].mask) == Some("dir_del") ==> |rs[k].name| + rs[k].pad > 0)
    {
      OffsetStep(rs, k);
      Cut(rs, k);
      EventKinds(rs[k].mask);
      NameInside(EncodeAll(rs), |EncodeAll(rs[..k])|, rs[k]);
    }
  }

  lemma EventKinds(mask: nat)
    ensures EventOf(mask) in {None, Some("add"), Some("delete"), Some("dir_del")}
  {
  }

  class InotifyModule {
    var filesFolder: string
    var done: bool
    // The calls made to handler->handle, oldest first.
    var handled: seq<Args>

    constructor (folder: string)
      ensures filesFolder == folder && !done && handled == []
    {
      filesFolder, done, handled := folder, false, [];
    }

    // The chain of mask tests for one event. The name of a dir_del event is left out:
    // the handler does not look at it.
    method Dispatch(mask: nat, name: string, ghost r: Record)
      requires mask == r.mask
      requires EventOf(mask) in {Some("add"), Some("delete")} ==> name == r.name
      modifies this
      ensures handled == old(handled) + CallOf(old(filesFolder), r)
      ensures filesFolder == if EventOf(r.mask) == Some("dir_del") then "" else old(filesFolder)
      ensures done == (old(done) || EventOf(r.mask) == Some("dir_del"))
    {
      if Bit(mask, IN_CREATE) {
        handled := handled + [Args(filesFolder, "add", Quoted(name))];
      } else if Bit(mask, IN_DELETE) {
        handled := handled + [Args(filesFolder, "delete", Quoted(name))];
      } else if Bit(mask, IN_MOVED_FROM) {
        handled := handled + [Args(filesFolder, "delete", Quoted(name))];
      } else if Bit(mask, IN_MOVED_TO) {
        handled := handled + [Args(filesFolder, "add", Quoted(name))];
      } else if Bit(mask, IN_DELETE_SELF) {
        handled := handled + [Args(filesFolder, "dir_del", "")];
        filesFolder, done := "", true;
      } else if Bit(mask, IN_MOVE_SELF) {
        handled := handled + [Args(filesFolder, "dir_del", "")];
        filesFolder, done := "", true;
      }
    }

    // read_handle_event on a buffer that holds these records: each is visited once,
    // in order, the walk stops after the last byte, and the handler is called
    // exactly for the recognised masks.
    method ReadHandleEvent(buf: seq<byte>, ghost records: seq<Record>) returns (consumed: nat, visited: seq<nat>)
      requires AllWellFormed(records) && buf == EncodeAll(records)
      modifies this
      ensures consumed == |buf| && |visited| == |records|
      ensures forall k :: 0 <= k < |records| ==>
        AllWellFormed(records[..k]) && visited[k] == |EncodeAll(records[..k])|
      ensures handled == old(handled) + Calls(old(filesFolder), records)
      ensures filesFolder == if FolderGone(records, |records|) then "" else old(filesFolder)
      ensures done == (old(done) || FolderGone(records, |records|))
    {
      var i: nat := 0;
      visited := [];
      ghost var k: nat := 0;
      ghost var start := State(filesFolder, done, handled);
      while i < |buf|
        invariant AllWellFormed(records) && buf == EncodeAll(records)
        invariant k <= |records| && Reached(start, records, k, i, visited, State(filesFolder, done, handled))
      {
        NotAtEnd(start, records, k, i, visited, State(filesFolder, done, handled));
        RecordAt(start, records, k, i, visited, State(filesFolder, done, handled));
        ghost var before := State(filesFolder, done, handled);
        var mask := Read32(buf, i + 4);
        Dispatch(mask, CString(buf, i + HEADER), records[k]);
        visited := visited + [i];
        i := i + HEADER + Read32(buf, i + 12);
        Advance(start, records, k, visited, before, State(filesFolder, done, handled));
        k := k + 1;
      }
      AtEnd(start, records, k, i, visited, State(filesFolder, done, handled));
      OffsetsMean(records);
      consumed := i;
    }
  }
}
