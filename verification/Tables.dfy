// A table whose ids come from a sequence, and the transactions the handlers send it.
// Rows are listed in some scan order; the order itself means nothing.

module Tables {
  import opened Sums

  datatype Row<+P> = Row(id: int, data: P)

  // A sequence as PostgreSQL keeps it: last_value, and whether it was handed out.
  datatype Sequence = Sequence(last: int, called: bool)

  const RESTARTED := Sequence(1, false)

  function NextVal(s: Sequence): int {
    if s.called then s.last + 1 else s.last
  }

  datatype Table<+P> = Table(rows: seq<Row<P>>, ids: Sequence)

  datatype Transaction<!P> =
    | Insert(data: P)
    | DeleteWhere(gone: Row<P> -> bool)
    | Truncate
    | Renumber

  function Data<P>(rows: seq<Row<P>>): seq<P> {
    if rows == [] then [] else [rows[0].data] + Data(rows[1..])
  }

  function Kept<P>(rows: seq<Row<P>>, gone: Row<P> -> bool): seq<Row<P>> {
    if rows == [] then []
    else if gone(rows[0]) then Kept(rows[1..], gone)
    else [rows[0]] + Kept(rows[1..], gone)
  }

  function Inserted<P>(t: Table<P>, data: P): Table<P> {
    Table(t.rows + [Row(NextVal(t.ids), data)], Sequence(NextVal(t.ids), true))
  }

  // The sequence restarted and every row given the next number, in any scan order:
  // after lists the rows in the order in which they were scanned.
  ghost predicate Renumbered<P(!new)>(before: seq<Row<P>>, after: Table<P>) {
    && multiset(Data(after.rows)) == multiset(Data(before))
    && (forall i :: 0 <= i < |after.rows| ==> after.rows[i].id == i + 1)
    && after.ids == if after.rows == [] then RESTARTED else Sequence(|after.rows|, true)
  }

  // One transaction that succeeds.
  ghost predicate Does<P(!new)>(t: Table<P>, txn: Transaction<P>, u: Table<P>) {
    match txn
    case Insert(data) => u == Inserted(t, data)
    case DeleteWhere(gone) => Renumbered(Kept(t.rows, gone), u)
    case Truncate => u == Table([], RESTARTED)
    case Renumber => Renumbered(t.rows, u)
  }

  ghost predicate DoesAll<P(!new)>(t: Table<P>, txns: seq<Transaction<P>>, u: Table<P>)
    decreases |txns|
  {
    if txns == [] then u == t
    else exists m :: Does(t, txns[0], m) && DoesAll(m, txns[1..], u)
  }

  function HasId<P>(k: int): Row<P> -> nat {
    (r: Row<P>) => if r.id == k then 1 else 0
  }

  // The ids are exactly 1 .. n, once each, and n+1 comes next.
  ghost predicate Contiguous<P>(t: Table<P>) {
    && NextVal(t.ids) == |t.rows| + 1
    && forall k: int :: Sum(HasId<P>(k), t.rows) == if 1 <= k <= |t.rows| then 1 else 0
  }

  lemma {:induction false} NumberedFrom<P>(rows: seq<Row<P>>, first: int, k: int)
    requires forall i :: 0 <= i < |rows| ==> rows[i].id == first + i
    ensures Sum(HasId<P>(k), rows) == if first <= k < first + |rows| then 1 else 0
  {
    if rows != [] {
      assert forall i :: 0 <= i < |rows[1..]| ==> rows[1..][i] == rows[i + 1];
      NumberedFrom(rows[1..], first + 1, k);
    }
  }

  lemma RenumberedContiguous<P(!new)>(before: seq<Row<P>>, t: Table<P>)
    requires Renumbered(before, t)
    ensures Contiguous(t)
  {
    forall k: int ensures Sum(HasId<P>(k), t.rows) == if 1 <= k <= |t.rows| then 1 else 0 {
      NumberedFrom(t.rows, 1, k);
    }
  }

  lemma InsertedContiguous<P>(t: Table<P>, data: P)
    requires Contiguous(t)
    ensures Contiguous(Inserted(t, data))
  {
    var row := Row(NextVal(t.ids), data);
    forall k: int
      ensures Sum(HasId<P>(k), Inserted(t, data).rows) == if 1 <= k <= |t.rows| + 1 then 1 else 0
    {
      SumAppend(HasId<P>(k), t.rows, [row]);
      assert Sum(HasId<P>(k), [row]) == HasId<P>(k)(row);
    }
  }

  lemma ContiguityStep<P(!new)>(t: Table<P>, txn: Transaction<P>, u: Table<P>)
    requires Contiguous(t) && Does(t, txn, u)
    ensures Contiguous(u)
  {
    match txn {
      case Insert(data) => InsertedContiguous(t, data);
      case DeleteWhere(gone) => RenumberedContiguous(Kept(t.rows, gone), u);
      case Truncate =>
      case Renumber => RenumberedContiguous(t.rows, u);
    }
  }

  // Every history of successful transactions, each renumbering in any scan order of
  // its own, keeps the ids 1 .. n with n+1 next.
  lemma {:induction false} ContiguityKept<P(!new)>(t: Table<P>, txns: seq<Transaction<P>>, u: Table<P>)
    requires Contiguous(t) && DoesAll(t, txns, u)
    ensures Contiguous(u)
    decreases |txns|
  {
    if txns != [] {
      var m :| Does(t, txns[0], m) && DoesAll(m, txns[1..], u);
      ContiguityStep(t, txns[0], m);
      ContiguityKept(m, txns[1..], u);
    }
  }

  // ---- Deleting the lowest ids ----

  function AtMost<P>(d: int): Row<P> -> bool {
    (r: Row<P>) => r.id <= d
  }

  function Low<P>(d: int): Row<P> -> nat {
    (r: Row<P>) => if r.id <= d then 1 else 0
  }

  lemma {:induction false} KeptCount<P>(rows: seq<Row<P>>, d: int)
    ensures |Kept(rows, AtMost<P>(d))| + Sum(Low<P>(d), rows) == |rows|
  {
    if rows != [] {
      KeptCount(rows[1..], d);
    }
  }

  lemma {:induction false} LowStep<P>(rows: seq<Row<P>>, d: int)
    ensures Sum(Low<P>(d), rows) == Sum(Low<P>(d - 1), rows) + Sum(HasId<P>(d), rows)
  {
    if rows != [] {
      LowStep(rows[1..], d);
    }
  }

  lemma {:induction false} PositiveId<P>(t: Table<P>, i: nat)
    requires Contiguous(t) && i < |t.rows|
    ensures 1 <= t.rows[i].id <= |t.rows|
  {
    SumAt(HasId<P>(t.rows[i].id), t.rows, i);
    assert Sum(HasId<P>(t.rows[i].id), t.rows) >= 1;
  }

  lemma {:induction false} LowCount<P>(t: Table<P>, d: nat)
    requires Contiguous(t)
    ensures Sum(Low<P>(d), t.rows) == if d <= |t.rows| then d else |t.rows|
  {
    if d == 0 {
      forall i | 0 <= i < |t.rows| ensures Low<P>(0)(t.rows[i]) == 0 {
        PositiveId(t, i);
      }
      SumZero(Low<P>(0), t.rows);
    } else {
      LowStep(t.rows, d);
      LowCount(t, d - 1);
    }
  }

  lemma {:induction false} DataLength<P>(rows: seq<Row<P>>)
    ensures |Data(rows)| == |rows|
  {
    if rows != [] {
      DataLength(rows[1..]);
    }
  }

  // A contiguous table loses exactly min(d, n) rows to "id <= d", and the last_value
  // the transaction reads back is the number of rows left, except that a table left
  // empty reads back 1.
  lemma TrimExact<P(!new)>(t: Table<P>, d: int, u: Table<P>)
    requires Contiguous(t) && Does(t, DeleteWhere(AtMost<P>(d)), u)
    ensures |u.rows| == |t.rows| - (if d < 0 then 0 else if d <= |t.rows| then d else |t.rows|)
    ensures u.ids.last == if u.rows == [] then 1 else |u.rows|
  {
    var left := Kept(t.rows, AtMost<P>(d));
    KeptCount(t.rows, d);
    DataLength(left);
    DataLength(u.rows);
    assert |multiset(Data(u.rows))| == |Data(u.rows)| && |multiset(Data(left))| == |Data(left)|;
    if d < 0 {
      forall i | 0 <= i < |t.rows| ensures Low<P>(d)(t.rows[i]) == 0 {
        PositiveId(t, i);
      }
      SumZero(Low<P>(d), t.rows);
    } else {
      LowCount(t, d);
    }
  }

  // ---- What a table holds, scan order aside ----

  lemma {:induction false} DataAppend<P>(a: seq<Row<P>>, b: seq<Row<P>>)
    ensures Data(a + b) == Data(a) + Data(b)
  {
    if a == [] {
      assert a + b == b;
    } else {
      assert (a + b)[1..] == a[1..] + b;
      DataAppend(a[1..], b);
    }
  }

  lemma InsertedData<P>(t: Table<P>, data: P)
    ensures Data(Inserted(t, data).rows) == Data(t.rows) + [data]
  {
    DataAppend(t.rows, [Row(NextVal(t.ids), data)]);
  }
}
