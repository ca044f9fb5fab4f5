// The client's list of targets: read from a comma-separated line, then handed out to
// any number of sessions, a given number of times over.

module Client {
  import opened Sums

  // ---- The comma-separated line ----

  predicate IsSpace(c: char) {
    c == ' ' || 9 <= c as int <= 13
  }

  // The position of the first comma, or the length.
  function Comma(s: string): (k: nat)
    ensures k <= |s|
  {
    if s == "" || s[0] == ',' then 0 else 1 + Comma(s[1..])
  }

  function Blanks(s: string): (k: nat)
    ensures k <= |s|
  {
    if s == "" || !IsSpace(s[0]) then 0 else 1 + Blanks(s[1..])
  }

  function TrimLeft(s: string): string {
    s[Blanks(s)..]
  }

  // The text between the commas.
  function Split(s: string): (r: seq<string>)
    ensures r != []
    decreases |s|
  {
    if Comma(s) == |s| then [s] else [s[..Comma(s)]] + Split(s[Comma(s) + 1..])
  }

  function TrimAll(pieces: seq<string>): seq<string> {
    if pieces == [] then [] else [TrimLeft(pieces[0])] + TrimAll(pieces[1..])
  }

  // What a line means: its pieces, all but the first without leading blanks.
  function Pieces(s: string): seq<string> {
    [Split(s)[0]] + TrimAll(Split(s)[1..])
  }

  // The pieces with a comma after each but the last, and then the next gap.
  function Joined(pieces: seq<string>, gaps: seq<string>): string
    requires |pieces| == |gaps| + 1
  {
    if |pieces| == 1 then pieces[0] else pieces[0] + "," + gaps[0] + Joined(pieces[1..], gaps[1..])
  }

  lemma {:induction false} CommaMeans(s: string)
    ensures Comma(s) < |s| ==> s[Comma(s)] == ','
    ensures forall i :: 0 <= i < Comma(s) ==> s[i] != ','
  {
    if s != "" && s[0] != ',' {
      CommaMeans(s[1..]);
      assert forall i :: 0 < i < |s| ==> s[i] == s[1..][i - 1];
    }
  }

  lemma {:induction false} BlanksMean(s: string)
    ensures Blanks(s) < |s| ==> !IsSpace(s[Blanks(s)])
    ensures forall i :: 0 <= i < Blanks(s) ==> IsSpace(s[i])
  {
    if s != "" && IsSpace(s[0]) {
      BlanksMean(s[1..]);
      assert forall i :: 0 < i < |s| ==> s[i] == s[1..][i - 1];
    }
  }

  lemma {:induction false} BlanksAre(s: string, k: nat)
    requires k <= |s| && (k < |s| ==> !IsSpace(s[k])) && forall i :: 0 <= i < k ==> IsSpace(s[i])
    ensures Blanks(s) == k
  {
    BlanksMean(s);
  }

  lemma {:induction false} CommaIs(s: string, k: nat)
    requires k <= |s| && (k < |s| ==> s[k] == ',') && forall i :: 0 <= i < k ==> s[i] != ','
    ensures Comma(s) == k
  {
    CommaMeans(s);
  }

  lemma {:induction false} CommaAt(a: string, b: string)
    requires ',' !in a
    ensures Comma(a + "," + b) == |a|
  {
    var s := a + "," + b;
    assert s[|a|] == ',';
    assert forall i :: 0 <= i < |a| ==> s[i] == a[i];
    CommaIs(s, |a|);
  }

  lemma {:induction false} BlanksFirst(s: string)
    ensures Blanks(s) <= Comma(s)
  {
    if s != "" && IsSpace(s[0]) {
      BlanksFirst(s[1..]);
    }
  }

  // Leading blanks come before the first comma, and nothing else is lost with them.
  lemma {:induction false} CommaTrim(s: string)
    ensures Blanks(s) <= Comma(s) && Comma(TrimLeft(s)) == Comma(s) - Blanks(s)
  {
    BlanksFirst(s);
    CommaMeans(s);
    CommaIs(s[Blanks(s)..], Comma(s) - Blanks(s));
  }

  lemma {:induction false} TrimPrefix(s: string, k: nat)
    requires Blanks(s) <= k <= |s|
    ensures TrimLeft(s[..k]) == TrimLeft(s)[..k - Blanks(s)]
  {
    BlanksMean(s);
    BlanksAre(s[..k], Blanks(s));
  }

  lemma {:induction false} SplitStep(s: string, k: nat)
    requires k == Comma(s)
    ensures k == |s| ==> Split(s) == [s]
    ensures k < |s| ==> Split(s) == [s[..k]] + Split(s[k + 1..])
  {
  }

  // Leading blanks belong to the first piece: no blank is a comma.
  lemma {:induction false} TrimSplit(s: string)
    ensures Split(TrimLeft(s)) == [TrimLeft(Split(s)[0])] + Split(s)[1..]
  {
    var b, k, t := Blanks(s), Comma(s), TrimLeft(s);
    CommaTrim(s);
    SplitStep(s, k);
    SplitStep(t, k - b);
    if k < |s| {
      TrimPrefix(s, k);
      assert t[k - b + 1..] == s[k + 1..];
      OtherFirst(Split(s), s[..k], Split(t), t[..k - b], Split(s[k + 1..]));
    }
  }

  lemma OtherFirst(a: seq<string>, first: string, b: seq<string>, other: string, rest: seq<string>)
    requires a == [first] + rest && b == [other] + rest
    ensures a[0] == first && b == [other] + a[1..]
  {
  }

  // The line's pieces from any point after a comma: what is left to collect there.
  lemma {:induction false} PiecesStep(s: string)
    ensures Comma(s) == |s| ==> Pieces(s) == [s]
    ensures Comma(s) < |s| ==> Pieces(s) == [s[..Comma(s)]] + Pieces(TrimLeft(s[Comma(s) + 1..]))
  {
    SplitStep(s, Comma(s));
    if Comma(s) < |s| {
      PiecesRest(s[..Comma(s)], s[Comma(s) + 1..]);
    }
  }

  lemma {:induction false} PiecesRest(first: string, rest: string)
    ensures [first] + TrimAll(Split(rest)) == [first] + Pieces(TrimLeft(rest))
  {
    var split := Split(rest);
    TrimSplit(rest);
    assert TrimAll(split) == [TrimLeft(split[0])] + TrimAll(split[1..]);
  }

  // The white space characters, by number: tab, the line and page breaks, and the blank.
  predicate White(s: string) {
    forall i :: 0 <= i < |s| ==> s[i] as int in {9, 10, 11, 12, 13, 32}
  }

  // A list of comma-free pieces joined with commas and any white space after each comma
  // reads back as it was. The first piece may start with white space; the others may not.
  lemma {:induction false} JoinedBack(pieces: seq<string>, gaps: seq<string>)
    requires |pieces| == |gaps| + 1 && forall i :: 0 <= i < |pieces| ==> ',' !in pieces[i]
    requires forall i :: 0 <= i < |gaps| ==> White(gaps[i])
    requires forall i :: 0 < i < |pieces| && pieces[i] != "" ==> !White(pieces[i][..1])
    ensures Pieces(Joined(pieces, gaps)) == pieces
    decreases |pieces|
  {
    var s := Joined(pieces, gaps);
    if |pieces| == 1 {
      CommaIs(s, |s|);
      PiecesStep(s);
    } else {
      var rest, more := pieces[1..], gaps[1..];
      assert forall i :: 0 <= i < |rest| ==> rest[i] == pieces[i + 1];
      assert forall i :: 0 <= i < |more| ==> more[i] == gaps[i + 1];
      JoinedBack(rest, more);
      NoLeadingBlank(rest, more);
      PieceAndGap(pieces[0], gaps[0], Joined(rest, more));
      assert s == pieces[0] + "," + (gaps[0] + Joined(rest, more));
      assert pieces == [pieces[0]] + rest;
    }
  }

  lemma {:induction false} PieceAndGap(piece: string, gap: string, more: string)
    requires ',' !in piece && White(gap) && (more != "" ==> !IsSpace(more[0]))
    ensures Pieces(piece + "," + (gap + more)) == [piece] + Pieces(more)
  {
    var s := piece + "," + (gap + more);
    CommaAt(piece, gap + more);
    PiecesStep(s);
    assert s[|piece| + 1..] == gap + more && s[..|piece|] == piece;
    GapTrimmed(gap, more);
  }

  lemma {:induction false} GapTrimmed(gap: string, more: string)
    requires White(gap) && (more != "" ==> !IsSpace(more[0]))
    ensures TrimLeft(gap + more) == more
  {
    BlanksAre(gap + more, |gap|);
  }

  lemma {:induction false} NoLeadingBlank(pieces: seq<string>, gaps: seq<string>)
    requires |pieces| == |gaps| + 1 && (pieces[0] != "" ==> !White(pieces[0][..1]))
    ensures Joined(pieces, gaps) != "" ==> !IsSpace(Joined(pieces, gaps)[0])
  {
    if |pieces| > 1 {
      assert Joined(pieces, gaps) == pieces[0] + "," + gaps[0] + Joined(pieces[1..], gaps[1..]);
    }
  }

  // The inner loop of parse: on to the first character after a comma that is not
  // blank, at the latest the NUL that terminates the stored line.
  method SkipBlanks(line: string, from: nat) returns (begin: nat)
    requires '\0' !in line && from <= |line|
    ensures from <= begin <= |line| && line[begin..] == TrimLeft(line[from..])
  {
    var stored := line + "\0";
    begin := from;
    while IsSpace(stored[begin])
      invariant from <= begin <= |line|
      invariant forall i :: from <= i < begin ==> IsSpace(line[i])
      decreases |line| - begin
    {
      begin := begin + 1;
    }
    BlanksAre(line[from..], begin - from);
  }

  lemma {:induction false} PieceAt(line: string, begin: nat, end: nat)
    requires begin <= |line| && end == begin + Comma(line[begin..])
    ensures end == |line| ==> Pieces(line[begin..]) == [line[begin..end]]
    ensures end < |line| ==> Pieces(line[begin..]) == [line[begin..end]] + Pieces(TrimLeft(line[end + 1..]))
  {
    var rest := line[begin..];
    PiecesStep(rest);
    assert line[begin..end] == rest[..end - begin];
    if end < |line| {
      assert line[end + 1..] == rest[end - begin + 1..];
    } else {
      assert rest[..end - begin] == rest;
    }
  }

  // One round of parse: the piece up to the next comma, and where the next one begins.
  method NextPiece(line: string, begin: nat) returns (piece: string, next: Option<nat>)
    requires '\0' !in line && begin <= |line|
    ensures next.Some? ==> begin < next.value <= |line|
    ensures next.None? ==> Pieces(line[begin..]) == [piece]
    ensures next.Some? ==> Pieces(line[begin..]) == [piece] + Pieces(line[next.value..])
  {
    var end := begin + Comma(line[begin..]);
    PieceAt(line, begin, end);
    piece := line[begin..end];
    if end == |line| {
      next := None;
    } else {
      var after := SkipBlanks(line, end + 1);
      next := Some(after);
    }
  }

  // parse: the pieces one after the other, until no comma is left.
  method Parse(line: string) returns (c: seq<string>)
    requires '\0' !in line
    ensures c == Pieces(line)
  {
    var begin: nat := 0;
    var more := true;
    c := [];
    ghost var all := Pieces(line);
    assert line[0..] == line;
    while more
      invariant begin <= |line|
      invariant c + (if more then Pieces(line[begin..]) else []) == all
      decreases more, |line| - begin
    {
      var piece, next := NextPiece(line, begin);
      c := c + [piece];
      if next.Some? {
        begin := next.value;
      } else {
        more := false;
      }
    }
  }

  // ---- Handing out targets ----

  // The shared counters; n is the number of targets.
  datatype Dispenser = Dispenser(index: nat, loops: int, over: bool)

  function StartLoops(loops: int): Dispenser {
    Dispenser(0, loops, loops <= 0)
  }

  // What one session does between two yields: the position it takes, if any.
  function Pick(d: Dispenser, n: nat): (Dispenser, Option<nat>) {
    if d.over then (d, None)
    else if d.index < n then (d.(index := d.index + 1), Some(d.index))
    else if d.loops - 1 > 0 then (Dispenser(1, d.loops - 1, false), Some(0))
    else (Dispenser(0, d.loops - 1, true), None)
  }

  datatype Picked = Picked(session: nat, position: nat)

  // Sessions in the order in which they get to pick.
  function Run(d: Dispenser, n: nat, schedule: seq<nat>): (Dispenser, seq<Picked>) {
    if schedule == [] then (d, [])
    else
      var last := |schedule| - 1;
      var (before, picks) := Run(d, n, schedule[..last]);
      var (after, taken) := Pick(before, n);
      (after, if taken.Some? then picks + [Picked(schedule[last], taken.value)] else picks)
  }

  function Repeated(targets: seq<string>, times: nat): seq<string> {
    if times == 0 then [] else Repeated(targets, times - 1) + targets
  }

  function Min(a: int, b: int): int {
    if a < b then a else b
  }

  lemma AtLeast(q: int, n: nat)
    requires q >= 1
    ensures q * n >= n
  {
  }

  // The remainder of a * n + i.
  lemma Times(a: nat, n: nat, i: nat)
    requires i < n
    ensures (a * n + i) % n == i
  {
    var x := a * n + i;
    var q, r := x / n, x % n;
    assert x == q * n + r;
    assert (a - q) * n == r - i && (q - a) * n == i - r;
    if a > q {
      AtLeast(a - q, n);
    } else if a < q {
      AtLeast(q - a, n);
    }
  }

  // The counters, after any number of turns: (L - loops) * n + index positions taken.
  ghost predicate Counted(d: Dispenser, total: nat, n: nat, turns: nat, picks: seq<Picked>) {
    && |picks| == Min(turns, total * n)
    && (d.over <==> turns > total * n || total == 0)
    && (!d.over ==> 0 < d.loops <= total && d.index <= n && (total - d.loops) * n + d.index == |picks|)
    && (forall k :: 0 <= k < |picks| ==> picks[k].position == k % n)
  }

  lemma OneRound(rounds: nat, total: nat, n: nat)
    requires rounds < total
    ensures (rounds + 1) * n == rounds * n + n <= total * n
  {
    AtMostTimes(rounds + 1, total, n);
  }

  lemma AtMostTimes(a: nat, b: nat, n: nat)
    requires a <= b
    ensures a * n <= b * n
  {
    assert b * n == a * n + (b - a) * n;
  }

  lemma CountedStep(d: Dispenser, total: nat, n: nat, turns: nat, picks: seq<Picked>, session: nat)
    requires n > 0 && Counted(d, total, n, turns, picks)
    ensures var (after, taken) := Pick(d, n);
      && (taken.Some? ==> taken.value < n)
      && Counted(after, total, n, turns + 1,
                 if taken.Some? then picks + [Picked(session, taken.value)] else picks)
  {
    if !d.over {
      var rounds := total - d.loops;
      OneRound(rounds, total, n);
      if d.index < n {
        Times(rounds, n, d.index);
      } else if d.loops > 1 {
        Times(rounds + 1, n, 0);
        OneRound(rounds + 1, total, n);
      }
    }
  }

  lemma {:induction false} CountedRun(loops: int, n: nat, schedule: seq<nat>)
    requires n > 0
    ensures var (d, picks) := Run(StartLoops(loops), n, schedule);
      Counted(d, if loops > 0 then loops else 0, n, |schedule|, picks)
    ensures forall k :: 0 <= k < |Run(StartLoops(loops), n, schedule).1| ==>
      Run(StartLoops(loops), n, schedule).1[k].position < n
    decreases |schedule|
  {
    var total := if loops > 0 then loops else 0;
    if schedule == [] {
      assert total > 0 ==> total * n > 0;
    } else {
      var last := |schedule| - 1;
      CountedRun(loops, n, schedule[..last]);
      var (before, picks) := Run(StartLoops(loops), n, schedule[..last]);
      CountedStep(before, total, n, last, picks, schedule[last]);
    }
  }

  function Texts(targets: seq<string>, picks: seq<Picked>): seq<string>
    requires forall k :: 0 <= k < |picks| ==> picks[k].position < |targets|
  {
    seq(|picks|, k requires 0 <= k < |picks| && picks[k].position < |targets| => targets[picks[k].position])
  }

  lemma {:induction false} RepeatedAt(targets: seq<string>, times: nat, k: nat)
    requires targets != [] && k < times * |targets|
    ensures |Repeated(targets, times)| == times * |targets|
    ensures Repeated(targets, times)[k] == targets[k % |targets|]
  {
    var n := |targets|;
    assert times * n == (times - 1) * n + n;
    RepeatedLength(targets, times - 1);
    if k < (times - 1) * n {
      RepeatedAt(targets, times - 1, k);
    } else {
      Times(times - 1, n, k - (times - 1) * n);
    }
  }

  lemma {:induction false} RepeatedLength(targets: seq<string>, times: nat)
    ensures |Repeated(targets, times)| == times * |targets|
  {
    if times > 0 {
      RepeatedLength(targets, times - 1);
      assert times * |targets| == (times - 1) * |targets| + |targets|;
    }
  }

  // Whatever sessions take turns in whatever order: no position is out of range, the
  // targets handed out are a prefix of the list repeated L times, one for every turn
  // until there are no more, and the end is declared on the first turn after that.
  lemma DispensesInOrder(loops: int, targets: seq<string>, schedule: seq<nat>)
    requires targets != []
    ensures var (d, picks) := Run(StartLoops(loops), |targets|, schedule);
      var total := if loops > 0 then loops else 0;
      && (forall k :: 0 <= k < |picks| ==> picks[k].position < |targets|)
      && |picks| == Min(|schedule|, total * |targets|)
      && |picks| <= |Repeated(targets, total)|
      && Texts(targets, picks) == Repeated(targets, total)[..|picks|]
      && (d.over <==> |schedule| > total * |targets| || total == 0)
      && (d.over ==> Texts(targets, picks) == Repeated(targets, total))
      && (!d.over ==> (total - d.loops) * |targets| + d.index == |picks|)
  {
    var (d, picks) := Run(StartLoops(loops), |targets|, schedule);
    var total := if loops > 0 then loops else 0;
    CountedRun(loops, |targets|, schedule);
    RepeatedLength(targets, total);
    forall k | 0 <= k < |picks| ensures Texts(targets, picks)[k] == Repeated(targets, total)[k] {
      RepeatedAt(targets, total, k);
    }
  }

  // The object the sessions share.
  class TargetDispenser {
    const targets: seq<string>
    var targetsIndex: nat
    var targetsLoops: int
    var targetsLoopingOver: bool

    ghost function View(): Dispenser
      reads this
    {
      Dispenser(targetsIndex, targetsLoops, targetsLoopingOver)
    }

    // The number of loops is asked for only when there is a list.
    constructor (list: seq<string>, loops: int)
      ensures targets == list && View() == StartLoops(if list == [] then 0 else loops)
    {
      targets, targetsIndex, targetsLoops, targetsLoopingOver := list, 0, 0, true;
      if list != [] {
        targetsLoops := loops;
        if loops > 0 {
          targetsLoopingOver := false;
        }
      }
    }

    // The block of do_session that picks a target; None leaves it to the user.
    method NextTarget() returns (target: Option<string>)
      requires targets != [] || targetsLoopingOver
      modifies this
      ensures View() == Pick(old(View()), |targets|).0
      ensures var taken := Pick(old(View()), |targets|).1;
        target == if taken.Some? && taken.value < |targets| then Some(targets[taken.value]) else None
    {
      target := None;
      if !targetsLoopingOver {
        var loops, index := targetsLoops, targetsIndex;
        targetsIndex := targetsIndex + 1;
        if index < |targets| {
          target := Some(targets[index]);
        } else {
          index := index + 1;
          if targetsLoops == loops {
            targetsLoops := loops - 1;
          }
          if targetsIndex == index {
            targetsIndex := 0;
          }
          if targetsLoops > 0 {
            target := Some(targets[targetsIndex]);
            targetsIndex := targetsIndex + 1;
          } else {
            targetsLoopingOver := true;
          }
        }
      }
    }
  }
}
