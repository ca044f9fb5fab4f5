// update_log_table: the row counter, the trim when it is over the limit, and the
// insert; first one request at a time, then any number of sessions interleaved.

module LogRetention {
  import opened Sums
  import opened Tables

  // Integer division of the source, which truncates toward zero.
  function Half(limit: int): int {
    if limit >= 0 then limit / 2 else -(-limit / 2)
  }

  // ---- One request at a time ----

  // A request that finds the counter n over the limit first trims, and takes the
  // last_value it reads back as the new counter.
  // Half the limit, rounded toward zero.
  lemma HalfTruncates(limit: int)
    ensures limit >= 0 ==> 2 * Half(limit) <= limit < 2 * Half(limit) + 2
    ensures limit < 0 ==> 2 * Half(limit) - 2 < limit <= 2 * Half(limit)
  {
  }

  ghost predicate Updated<P(!new)>(limit: int, t: Table<P>, n: int, req: P, u: Table<P>, m: int) {
    if n > limit then
      exists mid :: TrimmedTo(limit, t, mid) && u == Inserted(mid, req) && m == mid.ids.last + 1
    else
      u == Inserted(t, req) && m == n + 1
  }

  ghost predicate TrimmedTo<P(!new)>(limit: int, t: Table<P>, mid: Table<P>) {
    Does(t, DeleteWhere(AtMost<P>(Half(limit))), mid)
  }

  // From an exact counter, a request leaves an exact counter if and only if it is
  // not the case that the table is empty under a negative limit. The rows follow.
  lemma CounterExactIff<P(!new)>(limit: int, t: Table<P>, n: int, req: P, u: Table<P>, m: int)
    requires Contiguous(t) && n == |t.rows| && Updated(limit, t, n, req, u, m)
    ensures Contiguous(u)
    ensures m == |u.rows| <==> !(n == 0 && limit < 0)
    ensures limit >= 0 ==> |u.rows| == n + 1 - (if n > limit then limit / 2 else 0)
  {
    if n > limit {
      var mid :| TrimmedTo(limit, t, mid) && u == Inserted(mid, req) && m == mid.ids.last + 1;
      TrimExact(t, Half(limit), mid);
      ContiguityStep(t, DeleteWhere(AtMost<P>(Half(limit))), mid);
      InsertedContiguous(mid, req);
    } else {
      InsertedContiguous(t, req);
    }
  }

  // It does not in the other case: on an empty table every negative limit leaves one
  // row and a counter of two.
  lemma CounterOff<P(!new)>(limit: int, req: P) returns (u: Table<P>, m: int)
    requires limit < 0
    ensures Updated(limit, Table([], RESTARTED), 0, req, u, m)
    ensures |u.rows| == 1 && m == 2
  {
    var mid: Table<P> := Table([], RESTARTED);
    assert TrimmedTo(limit, mid, mid);
    u, m := Inserted(mid, req), mid.ids.last + 1;
  }

  // With a limit of at least 2 the table never grows past the limit + 1 it may reach
  // or the size it already has. A request over the limit lets the table grow exactly
  // when the limit is below 2, and shrinks it exactly when the limit is at least 4.
  lemma RetentionStep<P(!new)>(limit: int, t: Table<P>, n: int, req: P, u: Table<P>, m: int)
    requires limit >= 0 && Contiguous(t) && n == |t.rows| && Updated(limit, t, n, req, u, m)
    ensures limit >= 2 ==> |u.rows| <= limit + 1 || |u.rows| <= |t.rows|
    ensures n > limit ==> (|u.rows| > |t.rows| <==> limit < 2) && (|u.rows| < |t.rows| <==> limit >= 4)
  {
    CounterExactIff(limit, t, n, req, u, m);
  }

  // Requests in a row; trims counts those that found the counter over the limit.
  ghost predicate UpdatedAll<P(!new)>(limit: int, t: Table<P>, n: int, reqs: seq<P>, u: Table<P>, m: int, trims: nat)
    decreases |reqs|, 1
  {
    if reqs == [] then u == t && m == n && trims == 0
    else exists mid, k, rest :: Through(limit, t, n, reqs, u, m, trims, mid, k, rest)
  }

  // The first request leads to the table mid and counter k, the others on from there.
  ghost predicate Through<P(!new)>(limit: int, t: Table<P>, n: int, reqs: seq<P>, u: Table<P>, m: int, trims: nat,
                                   mid: Table<P>, k: int, rest: nat)
    requires reqs != []
    decreases |reqs|, 0
  {
    && Updated(limit, t, n, reqs[0], mid, k)
    && UpdatedAll(limit, mid, k, reqs[1..], u, m, rest)
    && trims == rest + (if n > limit then 1 else 0)
  }

  function Max(a: int, b: int): int {
    if a < b then b else a
  }

  predicate Over(limit: int, n: int) {
    n > limit
  }

  lemma FirstUpdate<P(!new)>(limit: int, t: Table<P>, n: int, reqs: seq<P>, u: Table<P>, m: int, trims: nat)
      returns (mid: Table<P>, k: int, rest: nat)
    requires limit >= 0 && Contiguous(t) && n == |t.rows| && reqs != [] && UpdatedAll(limit, t, n, reqs, u, m, trims)
    ensures Contiguous(mid) && k == |mid.rows| && UpdatedAll(limit, mid, k, reqs[1..], u, m, rest)
    ensures trims == rest + (if Over(limit, n) then 1 else 0)
    ensures |mid.rows| == n + 1 - (if Over(limit, n) then limit / 2 else 0)
  {
    mid, k, rest :| Through(limit, t, n, reqs, u, m, trims, mid, k, rest);
    CounterExactIff(limit, t, n, reqs[0], mid, k);
  }

  // After k requests with T trims: n0 + k - T * (limit / 2) rows, all counted, and for
  // limits of at least 2 never more than max(n0, limit + 1).
  lemma {:induction false} Retention<P(!new)>(limit: int, t: Table<P>, n: int, reqs: seq<P>, u: Table<P>, m: int,
                                              trims: nat)
    requires limit >= 0 && Contiguous(t) && n == |t.rows| && UpdatedAll(limit, t, n, reqs, u, m, trims)
    ensures Contiguous(u) && m == |u.rows|
    ensures |u.rows| == |t.rows| + |reqs| - trims * (limit / 2)
    ensures limit >= 2 ==> |u.rows| <= Max(|t.rows|, limit + 1)
    decreases |reqs|
  {
    if reqs != [] {
      var mid, k, rest := FirstUpdate(limit, t, n, reqs, u, m, trims);
      Retention(limit, mid, k, reqs[1..], u, m, rest);
      OneMore(rest, trims, limit / 2, Over(limit, n));
    }
  }

  // With a limit of at least 4, each request takes at least one row off an oversized
  // table until it is within limit + 1, where it stays.
  lemma {:induction false} Settles<P(!new)>(limit: int, t: Table<P>, n: int, reqs: seq<P>, u: Table<P>, m: int,
                                            trims: nat)
    requires limit >= 4 && Contiguous(t) && n == |t.rows| && UpdatedAll(limit, t, n, reqs, u, m, trims)
    ensures |u.rows| <= Max(|t.rows| - |reqs|, limit + 1)
    decreases |reqs|
  {
    if reqs != [] {
      var mid, k, rest := FirstUpdate(limit, t, n, reqs, u, m, trims);
      Settles(limit, mid, k, reqs[1..], u, m, rest);
    }
  }

  lemma OneMore(rest: nat, trims: nat, d: int, over: bool)
    requires trims == rest + (if over then 1 else 0)
    ensures trims * d == rest * d + (if over then d else 0)
  {
  }

  // ---- When renumbering keeps the order of ids ----

  // The rows in id order, and renumbered in that order.
  ghost predicate InOrder<P>(t: Table<P>) {
    && (forall i :: 0 <= i < |t.rows| ==> t.rows[i].id == i + 1)
    && NextVal(t.ids) == |t.rows| + 1
  }

  ghost predicate UpdatedInOrder<P(!new)>(limit: int, t: Table<P>, n: int, req: P, u: Table<P>, m: int) {
    if n > limit then
      exists mid :: TrimmedTo(limit, t, mid) && Data(mid.rows) == Data(Kept(t.rows, AtMost<P>(Half(limit))))
        && u == Inserted(mid, req) && m == mid.ids.last + 1
    else
      u == Inserted(t, req) && m == n + 1
  }

  ghost predicate UpdatedAllInOrder<P(!new)>(limit: int, t: Table<P>, n: int, reqs: seq<P>, u: Table<P>, m: int)
    decreases |reqs|
  {
    if reqs == [] then u == t && m == n
    else exists mid, k ::
           UpdatedInOrder(limit, t, n, reqs[0], mid, k) && UpdatedAllInOrder(limit, mid, k, reqs[1..], u, m)
  }

  lemma {:induction false} KeptTail<P>(rows: seq<Row<P>>, first: int, d: int)
    requires forall i :: 0 <= i < |rows| ==> rows[i].id == first + i
    ensures Data(Kept(rows, AtMost<P>(d))) ==
      Data(rows)[if d < first then 0 else if d - first + 1 <= |Data(rows)| then d - first + 1 else |Data(rows)|..]
  {
    if rows != [] {
      assert forall i :: 0 <= i < |rows[1..]| ==> rows[1..][i] == rows[i + 1];
      KeptTail(rows[1..], first + 1, d);
      DataLength(rows);
      DataLength(rows[1..]);
    }
  }

  lemma InOrderContiguous<P>(t: Table<P>)
    requires InOrder(t)
    ensures Contiguous(t)
  {
    forall k: int ensures Sum(HasId<P>(k), t.rows) == if 1 <= k <= |t.rows| then 1 else 0 {
      NumberedFrom(t.rows, 1, k);
    }
  }

  lemma TrimInOrder<P(!new)>(limit: int, t: Table<P>, mid: Table<P>)
    requires limit >= 0 && InOrder(t) && |t.rows| > limit && TrimmedTo(limit, t, mid)
    requires Data(mid.rows) == Data(Kept(t.rows, AtMost<P>(Half(limit))))
    ensures InOrder(mid) && mid.ids.last == |mid.rows|
    ensures limit / 2 <= |Data(t.rows)| && Data(mid.rows) == Data(t.rows)[limit / 2..]
  {
    InOrderContiguous(t);
    DataLength(t.rows);
    TrimExact(t, Half(limit), mid);
    KeptTail(t.rows, 1, Half(limit));
  }

  lemma InsertInOrder<P>(t: Table<P>, req: P)
    requires InOrder(t)
    ensures InOrder(Inserted(t, req)) && Data(Inserted(t, req).rows) == Data(t.rows) + [req]
  {
    InsertedData(t, req);
  }

  predicate Suffix<P(==)>(a: seq<P>, b: seq<P>) {
    |a| <= |b| && a == b[|b| - |a|..]
  }

  lemma SuffixTrans<P>(a: seq<P>, b: seq<P>, c: seq<P>)
    requires Suffix(a, b) && Suffix(b, c)
    ensures Suffix(a, c)
  {
  }

  lemma TailIsSuffix<P>(a: seq<P>, h: nat, req: P)
    requires h <= |a|
    ensures Suffix(a[h..] + [req], a + [req])
  {
  }

  lemma StepInOrder<P(!new)>(limit: int, t: Table<P>, n: int, req: P, mid: Table<P>, k: int)
    requires limit >= 0 && InOrder(t) && n == |t.rows| && UpdatedInOrder(limit, t, n, req, mid, k)
    ensures InOrder(mid) && k == |mid.rows| && Suffix(Data(mid.rows), Data(t.rows) + [req])
    ensures Updated(limit, t, n, req, mid, k)
  {
    if n > limit {
      var cut :| TrimmedTo(limit, t, cut) && Data(cut.rows) == Data(Kept(t.rows, AtMost<P>(Half(limit))))
        && mid == Inserted(cut, req) && k == cut.ids.last + 1;
      TrimInOrder(limit, t, cut);
      InsertInOrder(cut, req);
      TailIsSuffix(Data(t.rows), limit / 2, req);
    } else {
      InsertInOrder(t, req);
    }
  }

  lemma SuffixAppend<P>(a: seq<P>, b: seq<P>, req: P, rest: seq<P>)
    requires Suffix(a, b + [req])
    ensures Suffix(a + rest, b + ([req] + rest))
  {
    assert b + ([req] + rest) == (b + [req]) + rest;
  }

  lemma FirstInOrder<P(!new)>(limit: int, t: Table<P>, n: int, reqs: seq<P>, u: Table<P>, m: int)
      returns (mid: Table<P>, k: int)
    requires reqs != [] && UpdatedAllInOrder(limit, t, n, reqs, u, m)
    ensures UpdatedInOrder(limit, t, n, reqs[0], mid, k) && UpdatedAllInOrder(limit, mid, k, reqs[1..], u, m)
  {
    mid, k :| UpdatedInOrder(limit, t, n, reqs[0], mid, k) && UpdatedAllInOrder(limit, mid, k, reqs[1..], u, m);
  }

  // The table is a suffix of the initial log followed by the requests: the oldest
  // entries have gone, and nothing else.
  lemma {:induction false} LogIsSuffix<P(!new)>(limit: int, t: Table<P>, n: int, reqs: seq<P>, u: Table<P>, m: int)
    requires limit >= 0 && InOrder(t) && n == |t.rows| && UpdatedAllInOrder(limit, t, n, reqs, u, m)
    ensures Suffix(Data(u.rows), Data(t.rows) + reqs)
    decreases |reqs|
  {
    if reqs == [] {
      assert Data(t.rows) + reqs == Data(t.rows);
    } else {
      var mid, k := FirstInOrder(limit, t, n, reqs, u, m);
      StepInOrder(limit, t, n, reqs[0], mid, k);
      LogIsSuffix(limit, mid, k, reqs[1..], u, m);
      SuffixAppend(Data(mid.rows), Data(t.rows), reqs[0], reqs[1..]);
      assert reqs == [reqs[0]] + reqs[1..];
      SuffixTrans(Data(u.rows), Data(mid.rows) + reqs[1..], Data(t.rows) + reqs);
    }
  }

  lemma OneMoreUpdate<P(!new)>(limit: int, t: Table<P>, n: int, reqs: seq<P>, mid: Table<P>, k: int, u: Table<P>,
                               m: int, rest: nat) returns (trims: nat)
    requires reqs != [] && Updated(limit, t, n, reqs[0], mid, k) && UpdatedAll(limit, mid, k, reqs[1..], u, m, rest)
    ensures UpdatedAll(limit, t, n, reqs, u, m, trims)
  {
    trims := if n > limit then rest + 1 else rest;
    assert Through(limit, t, n, reqs, u, m, trims, mid, k, rest);
  }

  // An order-keeping run is a run, so Retention says how long the suffix is.
  lemma {:induction false} InOrderIsRun<P(!new)>(limit: int, t: Table<P>, n: int, reqs: seq<P>, u: Table<P>, m: int)
      returns (trims: nat)
    requires limit >= 0 && InOrder(t) && n == |t.rows| && UpdatedAllInOrder(limit, t, n, reqs, u, m)
    ensures UpdatedAll(limit, t, n, reqs, u, m, trims)
    decreases |reqs|
  {
    if reqs == [] {
      trims := 0;
    } else {
      var mid, k := FirstInOrder(limit, t, n, reqs, u, m);
      StepInOrder(limit, t, n, reqs[0], mid, k);
      var rest := InOrderIsRun(limit, mid, k, reqs[1..], u, m);
      trims := OneMoreUpdate(limit, t, n, reqs, mid, k, u, m, rest);
    }
  }

  // ---- The object ----

  function NumberFrom<P>(rows: seq<Row<P>>, first: int): seq<Row<P>> {
    if rows == [] then [] else [Row(first, rows[0].data)] + NumberFrom(rows[1..], first + 1)
  }

  function Renumbering<P>(rows: seq<Row<P>>): Table<P> {
    Table(NumberFrom(rows, 1), if rows == [] then RESTARTED else Sequence(|rows|, true))
  }

  lemma {:induction false} NumberFromRows<P>(rows: seq<Row<P>>, first: int)
    ensures |NumberFrom(rows, first)| == |rows| && Data(NumberFrom(rows, first)) == Data(rows)
    ensures forall i :: 0 <= i < |rows| ==> NumberFrom(rows, first)[i].id == first + i
    decreases |rows|
  {
    if rows != [] {
      NumberFromRows(rows[1..], first + 1);
    }
  }

  class LogKeeper<P(!new)> {
    const rowsLimit: int
    var logTableNrows: int
    var table: Table<P>

    // The database's part: any scan order would do.
    method Execute(txn: Transaction<P>)
      modifies this`table
      ensures Does(old(table), txn, table)
    {
      match txn {
        case Insert(data) => table := Inserted(table, data);
        case DeleteWhere(gone) =>
          NumberFromRows(Kept(table.rows, gone), 1);
          table := Renumbering(Kept(table.rows, gone));
        case Truncate => table := Table([], RESTARTED);
        case Renumber =>
          NumberFromRows(table.rows, 1);
          table := Renumbering(table.rows);
      }
    }

    // Start of the server: renumber, drop what is too old, renumber, count. Whatever
    // ids the table had before, they are contiguous and counted now.
    constructor (limit: int, stored: Table<P>, tooOld: Row<P> -> bool)
      ensures rowsLimit == limit && Contiguous(table) && logTableNrows == |table.rows|
      ensures exists mid :: Renumbered(stored.rows, mid) && Does(mid, DeleteWhere(tooOld), table)
    {
      rowsLimit, logTableNrows, table := limit, 0, stored;
      new;
      Execute(Renumber);
      RenumberedContiguous(stored.rows, table);
      ghost var mid := table;
      Execute(DeleteWhere(tooOld));
      ContiguityStep(mid, DeleteWhere(tooOld), table);
      logTableNrows := |table.rows|;
    }

    method UpdateLogTable(req: P)
      modifies this
      ensures Updated(rowsLimit, old(table), old(logTableNrows), req, table, logTableNrows)
    {
      var seen := logTableNrows;
      if seen > rowsLimit {
        Execute(DeleteWhere(AtMost<P>(Half(rowsLimit))));
        ghost var mid := table;
        assert TrimmedTo(rowsLimit, old(table), mid);
        var lastValue := table.ids.last;
        if logTableNrows == seen {
          logTableNrows := lastValue;
        }
      }
      Execute(Insert(req));
      logTableNrows := logTableNrows + 1;
    }
  }
}
