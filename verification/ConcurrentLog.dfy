// update_log_table with any number of sessions interleaved between its atomic load,
// its transactions, its compare-exchange and its increment.

module ConcurrentLog {
  import opened Sums
  import opened Tables
  import opened LogRetention

  // Where a session stands. OverLimit has loaded a counter over the limit, Trimmed
  // has also read back the last_value of its trim; Ready is past the check and has
  // not inserted; Inserted has not counted its row yet.
  datatype Session = Idle | OverLimit(seen: int) | Trimmed(seen: int, last: int) | Ready | Inserted

  datatype State = State(rows: nat, counter: int, sessions: seq<Session>)

  datatype Label = Load(i: nat) | Trim(i: nat) | Exchange(i: nat) | Store(i: nat) | Count(i: nat)

  predicate Enabled(s: State, l: Label) {
    l.i < |s.sessions| &&
    match l
    case Load(i) => s.sessions[i].Idle?
    case Trim(i) => s.sessions[i].OverLimit?
    case Exchange(i) => s.sessions[i].Trimmed?
    case Store(i) => s.sessions[i].Ready?
    case Count(i) => s.sessions[i].Inserted?
  }

  // Rows left by the trim, and the last_value it reads back.
  function Left(limit: int, rows: nat): nat {
    var d := Half(limit);
    if d <= 0 then rows else if d <= rows then rows - d else 0
  }

  function LastValue(rows: nat): int {
    if rows == 0 then 1 else rows
  }

  // That is what the trim does to every contiguous table.
  lemma TrimOfTable<P(!new)>(limit: int, t: Table<P>, mid: Table<P>)
    requires Contiguous(t) && TrimmedTo(limit, t, mid)
    ensures |mid.rows| == Left(limit, |t.rows|) && mid.ids.last == LastValue(|mid.rows|)
  {
    TrimExact(t, Half(limit), mid);
  }

  function Next(limit: int, s: State, l: Label): State
    requires Enabled(s, l)
  {
    match l
    case Load(i) =>
      s.(sessions := s.sessions[i := if s.counter > limit then OverLimit(s.counter) else Ready])
    case Trim(i) =>
      var rows := Left(limit, s.rows);
      s.(rows := rows, sessions := s.sessions[i := Trimmed(s.sessions[i].seen, LastValue(rows))])
    case Exchange(i) =>
      s.(counter := if s.counter == s.sessions[i].seen then s.sessions[i].last else s.counter,
         sessions := s.sessions[i := Ready])
    case Store(i) => s.(rows := s.rows + 1, sessions := s.sessions[i := Inserted])
    case Count(i) => s.(counter := s.counter + 1, sessions := s.sessions[i := Idle])
  }

  ghost predicate Run(limit: int, s: State, ls: seq<Label>, t: State)
    decreases |ls|
  {
    if ls == [] then t == s
    else Enabled(s, ls[0]) && Run(limit, Next(limit, s, ls[0]), ls[1..], t)
  }

  function InWindow(p: Session): nat {
    if p.OverLimit? || p.Trimmed? then 1 else 0
  }

  // The hypothesis: no session enters the window from the load of an over-limit
  // counter to the compare-exchange while another one is in it.
  ghost predicate Apart(limit: int, s: State, ls: seq<Label>)
    decreases |ls|
  {
    ls == [] ||
    (Enabled(s, ls[0]) &&
     (ls[0].Load? && s.counter > limit ==> Sum(InWindow, s.sessions) == 0) &&
     Apart(limit, Next(limit, s, ls[0]), ls[1..]))
  }

  function IsReady(p: Session): nat {
    if p.Ready? then 1 else 0
  }

  function IsInserted(p: Session): nat {
    if p.Inserted? then 1 else 0
  }

  function IsTrimmed(p: Session): nat {
    if p.Trimmed? then 1 else 0
  }

  function Busy(p: Session): nat {
    if p.Idle? then 0 else 1
  }

  function Uncounted(s: State): nat {
    Sum(IsInserted, s.sessions)
  }

  ghost predicate WindowInv(s: State) {
    && Sum(InWindow, s.sessions) <= 1
    && (forall i | 0 <= i < |s.sessions| ::
          && (s.sessions[i].OverLimit? ==> s.sessions[i].seen <= s.counter)
          && (s.sessions[i].Trimmed? ==>
                s.sessions[i].seen <= s.counter &&
                (s.counter == s.sessions[i].seen ==> s.rows <= s.sessions[i].last + Uncounted(s))))
  }

  // Counted and uncounted insertions cover the rows; rows, pending insertions and a
  // trimmed session's own insertion to come stay within the bound.
  ghost predicate Inv(s: State, bound: int) {
    && s.rows <= s.counter + Uncounted(s)
    && WindowInv(s)
    && s.rows + Sum(IsReady, s.sessions) + Sum(IsTrimmed, s.sessions) <= bound
  }

  // Each session is at most one of ready, inserted and trimmed.
  lemma {:induction false} ThreeKinds(ss: seq<Session>)
    ensures Sum(IsReady, ss) + Sum(IsInserted, ss) + Sum(IsTrimmed, ss) <= Sum(Busy, ss) <= |ss|
  {
    if ss != [] {
      ThreeKinds(ss[1..]);
    }
  }

  lemma Totals(s: State, l: Label, limit: int)
    requires Enabled(s, l)
    ensures var p, q := s.sessions[l.i], Next(limit, s, l).sessions[l.i];
      var ss, tt := s.sessions, Next(limit, s, l).sessions;
      && tt == ss[l.i := q]
      && Sum(IsReady, tt) + IsReady(p) == Sum(IsReady, ss) + IsReady(q)
      && Sum(IsInserted, tt) + IsInserted(p) == Sum(IsInserted, ss) + IsInserted(q)
      && Sum(IsTrimmed, tt) + IsTrimmed(p) == Sum(IsTrimmed, ss) + IsTrimmed(q)
      && Sum(InWindow, tt) + InWindow(p) == Sum(InWindow, ss) + InWindow(q)
      && Sum(Busy, tt) + Busy(p) == Sum(Busy, ss) + Busy(q)
  {
    var q := Next(limit, s, l).sessions[l.i];
    SumUpdate(IsReady, s.sessions, l.i, q);
    SumUpdate(IsInserted, s.sessions, l.i, q);
    SumUpdate(IsTrimmed, s.sessions, l.i, q);
    SumUpdate(InWindow, s.sessions, l.i, q);
    SumUpdate(Busy, s.sessions, l.i, q);
  }

  // Nobody else is in the window.
  lemma AloneInWindow(s: State, i: nat, j: nat)
    requires Sum(InWindow, s.sessions) <= 1 && i < |s.sessions| && j < |s.sessions| && i != j
    requires InWindow(s.sessions[i]) == 1
    ensures InWindow(s.sessions[j]) == 0
  {
    SumTwo(InWindow, s.sessions, if i < j then i else j, if i < j then j else i);
  }

  lemma CoverStep(limit: int, s: State, l: Label, bound: int)
    requires Inv(s, bound) && Enabled(s, l) && limit >= 2
    ensures Next(limit, s, l).rows <= Next(limit, s, l).counter + Uncounted(Next(limit, s, l))
  {
    Totals(s, l, limit);
  }

  lemma WindowStep(limit: int, s: State, l: Label, bound: int)
    requires Inv(s, bound) && Enabled(s, l) && limit >= 2
    requires l.Load? && s.counter > limit ==> Sum(InWindow, s.sessions) == 0
    ensures WindowInv(Next(limit, s, l))
  {
    Totals(s, l, limit);
    var t := Next(limit, s, l);
    forall j | 0 <= j < |t.sessions|
      ensures t.sessions[j].OverLimit? ==> t.sessions[j].seen <= t.counter
      ensures t.sessions[j].Trimmed? ==>
                t.sessions[j].seen <= t.counter &&
                (t.counter == t.sessions[j].seen ==> t.rows <= t.sessions[j].last + Uncounted(t))
    {
      if j != l.i {
        assert t.sessions[j] == s.sessions[j];
        if (l.Trim? || l.Exchange?) && InWindow(s.sessions[j]) == 1 {
          AloneInWindow(s, j, l.i);
        }
      }
    }
  }

  lemma BoundStep(limit: int, s: State, l: Label, bound: int)
    requires Inv(s, bound) && Enabled(s, l) && limit >= 2 && bound >= limit + |s.sessions|
    ensures var t := Next(limit, s, l);
      t.rows + Sum(IsReady, t.sessions) + Sum(IsTrimmed, t.sessions) <= bound
  {
    Totals(s, l, limit);
    ThreeKinds(s.sessions);
    ThreeKinds(Next(limit, s, l).sessions);
    var t := Next(limit, s, l);
    if l.Trim? {
      assert Sum(IsReady, t.sessions) + Sum(IsTrimmed, t.sessions) <= |s.sessions|;
    }
  }

  lemma {:induction false} RunInv(limit: int, s: State, ls: seq<Label>, t: State, bound: int)
    requires limit >= 2 && bound >= limit + |s.sessions|
    requires Inv(s, bound) && Run(limit, s, ls, t) && Apart(limit, s, ls)
    ensures Inv(t, bound)
    decreases |ls|
  {
    if ls != [] {
      CoverStep(limit, s, ls[0], bound);
      WindowStep(limit, s, ls[0], bound);
      BoundStep(limit, s, ls[0], bound);
      RunInv(limit, Next(limit, s, ls[0]), ls[1..], t, bound);
    }
  }

  function Start(rows: nat, sessions: nat): State {
    State(rows, rows, seq(sessions, _ => Idle))
  }

  // Every reachable state of K sessions: no row escapes the count, and the rows with
  // the insertions that are past the check stay within max(n0, limit + K).
  lemma ConcurrentBound(limit: int, rows: nat, k: nat, ls: seq<Label>, t: State)
    requires limit >= 2 && Run(limit, Start(rows, k), ls, t) && Apart(limit, Start(rows, k), ls)
    ensures t.counter + Uncounted(t) >= t.rows
    ensures t.rows + Sum(IsReady, t.sessions) <= Max(rows, limit + k)
  {
    var s := Start(rows, k);
    SumZero(IsReady, s.sessions);
    SumZero(IsTrimmed, s.sessions);
    SumZero(InWindow, s.sessions);
    RunInv(limit, s, ls, t, Max(rows, limit + k));
  }

  lemma Cons(s: State, l: Label, m: State, rest: seq<Label>, t: State)
    requires Enabled(s, l) && Next(2, s, l) == m && Run(2, m, rest, t)
    ensures Run(2, s, [l] + rest, t)
  {
    First(2, s, l, m, rest, t);
  }

  lemma {:induction false} RunTrans(s: State, a: seq<Label>, m: State, b: seq<Label>, t: State)
    requires Run(2, s, a, m) && Run(2, m, b, t)
    ensures Run(2, s, a + b, t)
    decreases |a|
  {
    if a == [] {
      assert a + b == b;
    } else {
      RunTrans(Next(2, s, a[0]), a[1..], m, b, t);
      assert (a + b)[1..] == a[1..] + b;
    }
  }

  // Two sessions load the same over-limit counter and both trim.
  lemma BothTrim() returns (ls: seq<Label>)
    ensures Run(2, State(3, 3, [Idle, Idle]), ls, State(1, 3, [Trimmed(3, 2), Trimmed(3, 1)]))
  {
    var a := State(3, 3, [OverLimit(3), Idle]);
    var b := State(3, 3, [OverLimit(3), OverLimit(3)]);
    var c := State(2, 3, [Trimmed(3, 2), OverLimit(3)]);
    var d := State(1, 3, [Trimmed(3, 2), Trimmed(3, 1)]);
    Cons(c, Trim(1), d, [], d);
    Cons(b, Trim(0), c, [Trim(1)], d);
    Cons(a, Load(1), b, [Trim(0), Trim(1)], d);
    Cons(State(3, 3, [Idle, Idle]), Load(0), a, [Load(1), Trim(0), Trim(1)], d);
    ls := [Load(0), Load(1), Trim(0), Trim(1)];
  }

  // The second one exchanges the counter away, and two rows bring it back.
  lemma AwayAndBack() returns (ls: seq<Label>)
    ensures Run(2, State(1, 3, [Trimmed(3, 2), Trimmed(3, 1)]), ls, State(3, 3, [Trimmed(3, 2), Idle]))
  {
    var w := Trimmed(3, 2);
    var e := State(1, 1, [w, Ready]);
    var f := State(2, 1, [w, Inserted]);
    var g := State(2, 2, [w, Idle]);
    var h := State(2, 2, [w, Ready]);
    var i := State(3, 2, [w, Inserted]);
    var j := State(3, 3, [w, Idle]);
    Cons(i, Count(1), j, [], j);
    Cons(h, Store(1), i, [Count(1)], j);
    Cons(g, Load(1), h, [Store(1), Count(1)], j);
    Cons(f, Count(1), g, [Load(1), Store(1), Count(1)], j);
    Cons(e, Store(1), f, [Count(1), Load(1), Store(1), Count(1)], j);
    ls := [Exchange(1)] + [Store(1), Count(1), Load(1), Store(1), Count(1)];
    Cons(State(1, 3, [w, Trimmed(3, 1)]), Exchange(1), e, [Store(1), Count(1), Load(1), Store(1), Count(1)], j);
  }

  // One session alone never has two windows.
  lemma {:induction false} SingleIsApart(limit: int, s: State, ls: seq<Label>, t: State)
    requires Run(limit, s, ls, t) && |s.sessions| == 1
    ensures Apart(limit, s, ls)
    decreases |ls|
  {
    if ls != [] {
      assert s.sessions == [s.sessions[0]];
      assert Sum(InWindow, s.sessions) == InWindow(s.sessions[0]) + Sum(InWindow, s.sessions[1..]);
      SingleIsApart(limit, Next(limit, s, ls[0]), ls[1..], t);
    }
  }

  // The hypothesis cannot be dropped: two windows that overlap let the counter leave
  // a value and come back to it, and the exchange then forgets a row.
  lemma OverlapForgetsRow()
    ensures exists ls, t :: Run(2, Start(3, 2), ls, t) && t.counter + Uncounted(t) < t.rows
  {
    var ls1 := BothTrim();
    var ls2 := AwayAndBack();
    var last := State(3, 2, [Ready, Idle]);
    Cons(State(3, 3, [Trimmed(3, 2), Idle]), Exchange(0), last, [], last);
    RunTrans(State(1, 3, [Trimmed(3, 2), Trimmed(3, 1)]), ls2, State(3, 3, [Trimmed(3, 2), Idle]), [Exchange(0)], last);
    assert Start(3, 2) == State(3, 3, [Idle, Idle]);
    RunTrans(Start(3, 2), ls1, State(1, 3, [Trimmed(3, 2), Trimmed(3, 1)]), ls2 + [Exchange(0)], last);
    SumZero(IsInserted, last.sessions);
  }

  // ---- The counter and the rows, exactly ----

  function Counts(ls: seq<Label>): nat {
    if ls == [] then 0 else (if ls[0].Count? then 1 else 0) + Counts(ls[1..])
  }

  function Stores(ls: seq<Label>): nat {
    if ls == [] then 0 else (if ls[0].Store? then 1 else 0) + Stores(ls[1..])
  }

  ghost predicate Leaves(ls: seq<Label>, i: nat) {
    forall k :: 0 <= k < |ls| ==> ls[k].i != i
  }

  // Beside a session in its window the others insert and count, and no more.
  lemma BesideWindow(limit: int, s: State, l: Label, i: nat)
    requires Enabled(s, l) && l.i != i && i < |s.sessions|
    requires InWindow(s.sessions[i]) == 1 && Sum(InWindow, s.sessions) <= 1
    requires l.Load? && s.counter > limit ==> Sum(InWindow, s.sessions) == 0
    ensures var t := Next(limit, s, l);
      && |t.sessions| == |s.sessions| && t.sessions[i] == s.sessions[i] && Sum(InWindow, t.sessions) <= 1
      && t.counter == s.counter + (if l.Count? then 1 else 0) && t.rows == s.rows + (if l.Store? then 1 else 0)
  {
    Totals(s, l, limit);
    SumAt(InWindow, s.sessions, i);
    if InWindow(s.sessions[l.i]) == 1 {
      AloneInWindow(s, i, l.i);
    }
  }

  lemma {:induction false} WindowHolds(limit: int, s: State, ls: seq<Label>, t: State, i: nat)
    requires Run(limit, s, ls, t) && Apart(limit, s, ls) && Leaves(ls, i) && i < |s.sessions|
    requires InWindow(s.sessions[i]) == 1 && Sum(InWindow, s.sessions) <= 1
    ensures |t.sessions| == |s.sessions| && t.sessions[i] == s.sessions[i] && Sum(InWindow, t.sessions) <= 1
    ensures t.counter == s.counter + Counts(ls) && t.rows == s.rows + Stores(ls)
    decreases |ls|
  {
    if ls != [] {
      assert ls[0].i != i;
      assert forall k :: 0 <= k < |ls[1..]| ==> ls[1..][k] == ls[k + 1];
      BesideWindow(limit, s, ls[0], i);
      WindowHolds(limit, Next(limit, s, ls[0]), ls[1..], t, i);
    }
  }

  // One window of session i in a run with windows apart: it loads a counter over the
  // limit, others do a, it trims at m, others do b, it compares and exchanges at e.
  ghost predicate Window(limit: int, s: State, i: nat, a: seq<Label>, m: State, b: seq<Label>, e: State) {
    && Enabled(s, Load(i)) && s.counter > limit && Sum(InWindow, s.sessions) == 0
    && Run(limit, Next(limit, s, Load(i)), a, m) && Apart(limit, Next(limit, s, Load(i)), a) && Leaves(a, i)
    && Enabled(m, Trim(i))
    && Run(limit, Next(limit, m, Trim(i)), b, e) && Apart(limit, Next(limit, m, Trim(i)), b) && Leaves(b, i)
    && Enabled(e, Exchange(i))
  }

  // What the window does to the counter: if anybody counted a row in between, that is
  // all that happened to it; otherwise it becomes the last_value the trim read back. The
  // rows lose limit / 2, or all there are, and gain what was inserted.
  lemma WindowOnCounter(limit: int, s: State, i: nat, a: seq<Label>, m: State, b: seq<Label>, e: State)
    requires Window(limit, s, i, a, m, b, e)
    ensures var t := Next(limit, e, Exchange(i));
      var n := Counts(a) + Counts(b);
      var half := if limit <= 1 then 0 else limit / 2;
      var left := if half <= m.rows then m.rows - half else 0;
      && t.counter == (if n > 0 then s.counter + n else if left == 0 then 1 else left)
      && m.rows == s.rows + Stores(a) && t.rows == left + Stores(b)
  {
    Totals(s, Load(i), limit);
    var s1 := Next(limit, s, Load(i));
    WindowHolds(limit, s1, a, m, i);
    Totals(m, Trim(i), limit);
    WindowHolds(limit, Next(limit, m, Trim(i)), b, e, i);
  }

  // Outside windows: with no counter over the limit loaded and no session between such a
  // load and its exchange, the counter counts and the rows are inserted, one by one.
  ghost predicate NoneOver(limit: int, s: State, ls: seq<Label>)
    decreases |ls|
  {
    ls == [] ||
    (Enabled(s, ls[0]) && (ls[0].Load? ==> s.counter <= limit) && NoneOver(limit, Next(limit, s, ls[0]), ls[1..]))
  }

  lemma {:induction false} OutsideWindows(limit: int, s: State, ls: seq<Label>, t: State)
    requires Run(limit, s, ls, t) && NoneOver(limit, s, ls) && Sum(InWindow, s.sessions) == 0
    ensures t.counter == s.counter + Counts(ls) && t.rows == s.rows + Stores(ls) && Sum(InWindow, t.sessions) == 0
    decreases |ls|
  {
    if ls != [] {
      SumAt(InWindow, s.sessions, ls[0].i);
      Totals(s, ls[0], limit);
      OutsideWindows(limit, Next(limit, s, ls[0]), ls[1..], t);
    }
  }

  lemma First(limit: int, s: State, l: Label, m: State, rest: seq<Label>, t: State)
    requires Enabled(s, l) && Next(limit, s, l) == m && Run(limit, m, rest, t)
    ensures Run(limit, s, [l] + rest, t)
  {
    assert ([l] + rest)[1..] == rest;
  }

  lemma AloneInserts(limit: int, s: State, i: nat)
    requires i < |s.sessions| && s.sessions[i].Ready?
    ensures Run(limit, s, [Store(i), Count(i)], State(s.rows + 1, s.counter + 1, s.sessions[i := Idle]))
  {
    var b := Next(limit, s, Store(i));
    var t := Next(limit, b, Count(i));
    First(limit, b, Count(i), t, [], t);
    First(limit, s, Store(i), b, [Count(i)], t);
  }

  lemma AloneTrims(limit: int, s: State, i: nat, rest: seq<Label>, t: State)
    requires i < |s.sessions| && s.sessions[i] == OverLimit(s.counter)
    requires var left := Left(limit, s.rows);
      Run(limit, State(left, LastValue(left), s.sessions[i := Ready]), rest, t)
    ensures Run(limit, s, [Trim(i)] + ([Exchange(i)] + rest), t)
  {
    var y := Next(limit, s, Trim(i));
    var x := Next(limit, y, Exchange(i));
    assert x.sessions == s.sessions[i := Ready];
    First(limit, y, Exchange(i), x, rest, t);
    First(limit, s, Trim(i), y, [Exchange(i)] + rest, t);
  }

  // What a request does to a contiguous table, in numbers.
  lemma UpdatedSizes<P(!new)>(limit: int, table: Table<P>, n: int, req: P, u: Table<P>, m: int)
    requires Contiguous(table) && Updated(limit, table, n, req, u, m)
    ensures var left := Left(limit, |table.rows|);
      if n > limit then |u.rows| == left + 1 && m == LastValue(left) + 1
      else |u.rows| == |table.rows| + 1 && m == n + 1
  {
    if n > limit {
      var mid :| TrimmedTo(limit, table, mid) && u == Tables.Inserted(mid, req) && m == mid.ids.last + 1;
      TrimOfTable(limit, table, mid);
    }
  }

  lemma AloneWithin(limit: int, s: State, i: nat)
    requires i < |s.sessions| && s.sessions[i].Idle? && s.counter <= limit
    ensures Run(limit, s, [Load(i), Store(i), Count(i)], State(s.rows + 1, s.counter + 1, s.sessions))
  {
    var a := Next(limit, s, Load(i));
    assert a.sessions[i := Idle] == s.sessions;
    AloneInserts(limit, a, i);
    First(limit, s, Load(i), a, [Store(i), Count(i)], State(s.rows + 1, s.counter + 1, s.sessions));
  }

  lemma AloneOver(limit: int, s: State, i: nat)
    requires i < |s.sessions| && s.sessions[i].Idle? && s.counter > limit
    ensures var left := Left(limit, s.rows);
      Run(limit, s, [Load(i), Trim(i), Exchange(i), Store(i), Count(i)],
          State(left + 1, LastValue(left) + 1, s.sessions))
  {
    var left := Left(limit, s.rows);
    var t := State(left + 1, LastValue(left) + 1, s.sessions);
    var a := Next(limit, s, Load(i));
    var x := State(left, LastValue(left), a.sessions[i := Ready]);
    assert x.sessions[i := Idle] == s.sessions;
    AloneInserts(limit, x, i);
    AloneTrims(limit, a, i, [Store(i), Count(i)], t);
    First(limit, s, Load(i), a, [Trim(i)] + ([Exchange(i)] + [Store(i), Count(i)]), t);
  }

  // A session that nobody interleaves does what one request does to the table: the rows,
  // the counter and the session's own end are those of the sequential relation.
  lemma AloneIsSequential<P(!new)>(limit: int, table: Table<P>, req: P, u: Table<P>, m: int, s: State, i: nat)
      returns (ls: seq<Label>)
    requires Contiguous(table) && s.rows == |table.rows| && i < |s.sessions| && s.sessions[i].Idle?
    requires Updated(limit, table, s.counter, req, u, m)
    ensures Run(limit, s, ls, State(|u.rows|, m, s.sessions))
    ensures ls == if s.counter > limit then [Load(i), Trim(i), Exchange(i), Store(i), Count(i)]
                  else [Load(i), Store(i), Count(i)]
  {
    UpdatedSizes(limit, table, s.counter, req, u, m);
    if s.counter > limit {
      AloneOver(limit, s, i);
      ls := [Load(i), Trim(i), Exchange(i), Store(i), Count(i)];
    } else {
      AloneWithin(limit, s, i);
      ls := [Load(i), Store(i), Count(i)];
    }
  }
}
