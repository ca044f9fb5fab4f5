// The two plain-text tables: the aligned printer for query results, and the numbered
// list of files.

module TextTables {

  function Max(a: nat, b: nat): nat {
    if a < b then b else a
  }

  function Spaces(n: nat): string {
    seq(n, _ => ' ')
  }

  // ---- The aligned printer ----

  ghost predicate Rectangular(cells: seq<seq<string>>, columns: nat) {
    forall i :: 0 <= i < |cells| ==> |cells[i]| == columns
  }

  function MaxLength(cells: seq<seq<string>>, j: nat): nat
    requires forall i :: 0 <= i < |cells| ==> j < |cells[i]|
  {
    if cells == [] then 0 else Max(|cells[0][j]|, MaxLength(cells[1..], j))
  }

  lemma {:induction false} MaxLengthBounds(cells: seq<seq<string>>, j: nat)
    requires forall i :: 0 <= i < |cells| ==> j < |cells[i]|
    ensures forall i :: 0 <= i < |cells| ==> |cells[i][j]| <= MaxLength(cells, j)
    ensures cells != [] ==> exists i :: 0 <= i < |cells| && |cells[i][j]| == MaxLength(cells, j)
  {
    if cells != [] {
      MaxLengthBounds(cells[1..], j);
      assert forall i :: 0 < i < |cells| ==> cells[i] == cells[1..][i - 1];
      if |cells[0][j]| < MaxLength(cells[1..], j) {
        var i :| 0 <= i < |cells[1..]| && |cells[1..][i][j]| == MaxLength(cells[1..], j);
        assert |cells[i + 1][j]| == MaxLength(cells, j);
      }
    }
  }

  // Every column but the last has a width, and every cell fits into its column.
  predicate Fits(row: seq<string>, widths: seq<nat>) {
    |row| == |widths| + 1 && forall j :: 0 <= j < |widths| ==> |row[j]| <= widths[j]
  }

  function Line(row: seq<string>, widths: seq<nat>): string
    requires Fits(row, widths)
    decreases |widths|
  {
    if widths == [] then row[0]
    else row[0] + Spaces(widths[0] - |row[0]| + 2) + Line(row[1..], widths[1..])
  }

  function Render(cells: seq<seq<string>>, widths: seq<nat>): string
    requires forall i :: 0 <= i < |cells| ==> Fits(cells[i], widths)
  {
    if cells == [] then "" else Line(cells[0], widths) + "\n" + Render(cells[1..], widths)
  }

  // Where column j starts: the widths before it and two blanks each.
  function Offset(widths: seq<nat>, j: nat): nat
    requires j <= |widths|
  {
    if j == 0 then 0 else widths[0] + 2 + Offset(widths[1..], j - 1)
  }

  lemma FitsTail(row: seq<string>, widths: seq<nat>)
    requires Fits(row, widths) && widths != []
    ensures Fits(row[1..], widths[1..])
  {
    assert forall k :: 0 <= k < |row[1..]| ==> row[1..][k] == row[k + 1];
  }

  lemma Shifted(first: string, rest: string, at: nat, n: nat)
    requires at + n <= |rest|
    ensures (first + rest)[|first| + at..|first| + at + n] == rest[at..at + n]
  {
  }

  lemma LineStep(row: seq<string>, widths: seq<nat>) returns (first: string)
    requires Fits(row, widths) && widths != []
    ensures first == row[0] + Spaces(widths[0] - |row[0]| + 2) && |first| == widths[0] + 2
    ensures Fits(row[1..], widths[1..]) && Line(row, widths) == first + Line(row[1..], widths[1..])
  {
    FitsTail(row, widths);
    first := row[0] + Spaces(widths[0] - |row[0]| + 2);
  }

  // In every line column j starts at the same offset and holds the row's cell.
  lemma {:induction false} ColumnAligned(row: seq<string>, widths: seq<nat>, j: nat)
    requires Fits(row, widths) && j <= |widths|
    ensures var at := Offset(widths, j);
      at + |row[j]| <= |Line(row, widths)| && Line(row, widths)[at..at + |row[j]|] == row[j]
    ensures j == |widths| ==> Offset(widths, j) + |row[j]| == |Line(row, widths)|
    decreases j
  {
    if j == 0 {
      assert Line(row, widths)[..|row[0]|] == row[0];
    } else {
      var tail, ws := row[1..], widths[1..];
      var first := LineStep(row, widths);
      assert tail[j - 1] == row[j];
      ColumnAligned(tail, ws, j - 1);
      Shifted(first, Line(tail, ws), Offset(ws, j - 1), |row[j]|);
    }
  }

  // ---- Reading the table back ----

  function Trimmed(s: string): string {
    if s != "" && s[|s| - 1] == ' ' then Trimmed(s[..|s| - 1]) else s
  }

  // Cut at the column offsets and strip trailing blanks.
  function CutLine(line: string, widths: seq<nat>): seq<string> {
    if widths == [] then [line]
    else if |line| < widths[0] + 2 then []
    else [Trimmed(line[..widths[0] + 2])] + CutLine(line[widths[0] + 2..], widths[1..])
  }

  function LineEnd(text: string): nat
    ensures LineEnd(text) <= |text|
  {
    if text == "" || text[0] == '\n' then 0 else 1 + LineEnd(text[1..])
  }

  function CutTable(text: string, widths: seq<nat>): seq<seq<string>>
    decreases |text|
  {
    if text == "" then []
    else
      var e := LineEnd(text);
      [CutLine(text[..e], widths)] + (if e == |text| then [] else CutTable(text[e + 1..], widths))
  }

  // No line break, and no blank at the end.
  predicate Printable(cell: string) {
    '\n' !in cell && (cell != "" ==> cell[|cell| - 1] != ' ')
  }

  lemma {:induction false} TrimPadding(cell: string, n: nat)
    requires Printable(cell)
    ensures Trimmed(cell + Spaces(n)) == cell
  {
    var s := cell + Spaces(n);
    if n == 0 {
      assert s == cell;
    } else {
      assert s[..|s| - 1] == cell + Spaces(n - 1);
      TrimPadding(cell, n - 1);
    }
  }

  lemma {:induction false} LineUnbroken(row: seq<string>, widths: seq<nat>)
    requires Fits(row, widths) && forall j :: 0 <= j < |row| ==> '\n' !in row[j]
    ensures '\n' !in Line(row, widths)
    decreases |widths|
  {
    if widths != [] {
      FitsTail(row, widths);
      assert forall k :: 0 <= k < |row[1..]| ==> row[1..][k] == row[k + 1];
      LineUnbroken(row[1..], widths[1..]);
      var pad := Spaces(widths[0] - |row[0]| + 2);
      assert '\n' !in row[0] && '\n' !in pad;
    }
  }

  lemma CutLineStep(cell: string, rest: string, widths: seq<nat>)
    requires widths != [] && |cell| <= widths[0] && Printable(cell)
    ensures CutLine(cell + Spaces(widths[0] - |cell| + 2) + rest, widths) == [cell] + CutLine(rest, widths[1..])
  {
    CutFirst(cell, widths[0], rest);
  }

  lemma {:induction false} CutLineBack(row: seq<string>, widths: seq<nat>)
    requires Fits(row, widths) && forall j :: 0 <= j < |row| ==> Printable(row[j])
    ensures CutLine(Line(row, widths), widths) == row
    decreases |widths|
  {
    if widths == [] {
      assert row == [row[0]];
    } else {
      var tail, ws := row[1..], widths[1..];
      var first := LineStep(row, widths);
      assert forall k :: 0 <= k < |tail| ==> tail[k] == row[k + 1];
      CutLineBack(tail, ws);
      CutLineStep(row[0], Line(tail, ws), widths);
      assert row == [row[0]] + tail;
    }
  }

  lemma CutFirst(cell: string, width: nat, rest: string)
    requires |cell| <= width && Printable(cell)
    ensures var line := cell + Spaces(width - |cell| + 2) + rest;
      && |line| >= width + 2 && Trimmed(line[..width + 2]) == cell && line[width + 2..] == rest
  {
    var padded := cell + Spaces(width - |cell| + 2);
    TrimPadding(cell, width - |cell| + 2);
    assert (padded + rest)[..width + 2] == padded;
  }

  lemma {:induction false} LineEndFound(line: string, rest: string)
    requires '\n' !in line
    ensures LineEnd(line + "\n" + rest) == |line|
  {
    var text := line + "\n" + rest;
    if line != "" {
      assert text[0] == line[0] && line[0] in line;
      assert text[1..] == line[1..] + "\n" + rest;
      LineEndFound(line[1..], rest);
    }
  }

  lemma CutTableStep(line: string, rest: string, widths: seq<nat>)
    requires '\n' !in line
    ensures CutTable(line + "\n" + rest, widths) == [CutLine(line, widths)] + CutTable(rest, widths)
  {
    var text := line + "\n" + rest;
    LineEndFound(line, rest);
    assert text[..|line|] == line;
    assert text[|line| + 1..] == rest;
  }

  lemma {:induction false} RenderBack(cells: seq<seq<string>>, widths: seq<nat>)
    requires forall i :: 0 <= i < |cells| ==> Fits(cells[i], widths)
    requires forall i :: 0 <= i < |cells| ==> forall j :: 0 <= j < |cells[i]| ==> Printable(cells[i][j])
    ensures CutTable(Render(cells, widths), widths) == cells
  {
    if cells != [] {
      var rows := cells[1..];
      assert forall i :: 0 <= i < |rows| ==> rows[i] == cells[i + 1];
      CutLineBack(cells[0], widths);
      LineUnbroken(cells[0], widths);
      RenderBack(rows, widths);
      CutTableStep(Line(cells[0], widths), Render(rows, widths), widths);
      assert cells == [cells[0]] + rows;
    }
  }

  // The widths the printer uses: each column's longest cell, the last column apart.
  ghost predicate WidthsOf(cells: seq<seq<string>>, widths: seq<nat>) {
    cells != [] && |cells[0]| == |widths| + 1 && Rectangular(cells, |widths| + 1) &&
    forall j: nat :: j < |widths| ==> widths[j] == MaxLength(cells, j)
  }

  lemma WidthsFit(cells: seq<seq<string>>, widths: seq<nat>)
    requires WidthsOf(cells, widths)
    ensures forall i :: 0 <= i < |cells| ==> Fits(cells[i], widths)
  {
    forall i, j | 0 <= i < |cells| && 0 <= j < |widths| ensures |cells[i][j]| <= widths[j] {
      MaxLengthBounds(cells, j);
    }
  }

  // What is printed can be read back: the cells come out of the text at the offsets.
  lemma TableRoundTrip(cells: seq<seq<string>>, widths: seq<nat>)
    requires WidthsOf(cells, widths)
    requires forall i :: 0 <= i < |cells| ==> forall j :: 0 <= j < |cells[i]| ==>
      '\n' !in cells[i][j] && (cells[i][j] != "" ==> cells[i][j][|cells[i][j]| - 1] != ' ')
    ensures forall i :: 0 <= i < |cells| ==> Fits(cells[i], widths)
    ensures CutTable(Render(cells, widths), widths) == cells
  {
    WidthsFit(cells, widths);
    RenderBack(cells, widths);
  }

  lemma RenderOne(row: seq<string>, widths: seq<nat>)
    requires Fits(row, widths)
    ensures Render([row], widths) == Line(row, widths) + "\n"
  {
    assert [row][1..] == [];
    assert Render([row][1..], widths) == "";
  }

  lemma {:induction false} RenderAppend(cells: seq<seq<string>>, row: seq<string>, widths: seq<nat>)
    requires (forall i :: 0 <= i < |cells| ==> Fits(cells[i], widths)) && Fits(row, widths)
    ensures Render(cells + [row], widths) == Render(cells, widths) + (Line(row, widths) + "\n")
  {
    if cells == [] {
      assert cells + [row] == [row];
      RenderOne(row, widths);
    } else {
      var rows := cells[1..];
      assert (cells + [row])[1..] == rows + [row];
      assert forall i :: 0 <= i < |rows| ==> rows[i] == cells[i + 1];
      RenderAppend(rows, row, widths);
      var first, more := Line(cells[0], widths) + "\n", Line(row, widths) + "\n";
      assert first + (Render(rows, widths) + more) == (first + Render(rows, widths)) + more;
    }
  }

  lemma {:induction false} MaxLengthAppend(cells: seq<seq<string>>, row: seq<string>, j: nat)
    requires (forall i :: 0 <= i < |cells| ==> j < |cells[i]|) && j < |row|
    ensures MaxLength(cells + [row], j) == Max(MaxLength(cells, j), |row[j]|)
  {
    if cells == [] {
      assert cells + [row] == [row];
      assert MaxLength([row][1..], j) == 0;
    } else {
      assert (cells + [row])[1..] == cells[1..] + [row];
      MaxLengthAppend(cells[1..], row, j);
    }
  }

  // The longest cell of column j.
  method ColumnWidth(cells: seq<seq<string>>, j: nat) returns (width: nat)
    requires forall i :: 0 <= i < |cells| ==> j < |cells[i]|
    ensures width == MaxLength(cells, j)
  {
    width := 0;
    for i := 0 to |cells|
      invariant width == MaxLength(cells[..i], j)
    {
      MaxLengthAppend(cells[..i], cells[i], j);
      assert cells[..i] + [cells[i]] == cells[..i + 1];
      width := Max(width, |cells[i][j]|);
    }
    assert cells[..|cells|] == cells;
  }

  lemma LineFrom(row: seq<string>, widths: seq<nat>, j: nat)
    requires Fits(row, widths) && j <= |widths|
    ensures Fits(row[j..], widths[j..])
    ensures j == |widths| ==> Line(row[j..], widths[j..]) == row[j]
    ensures j < |widths| ==> Fits(row[j + 1..], widths[j + 1..])
    ensures j < |widths| ==>
      Line(row[j..], widths[j..]) == row[j] + Spaces(widths[j] - |row[j]| + 2) + Line(row[j + 1..], widths[j + 1..])
  {
    if j < |widths| {
      assert row[j..][1..] == row[j + 1..];
      assert widths[j..][1..] == widths[j + 1..];
    }
  }

  // One line, column by column; the padding count is never negative.
  method FormLine(row: seq<string>, widths: array<nat>) returns (line: string)
    requires Fits(row, widths[..])
    ensures line == Line(row, widths[..])
  {
    line := "";
    ghost var ws := widths[..];
    assert row[0..] == row && ws[0..] == ws;
    for j := 0 to widths.Length
      invariant Fits(row[j..], ws[j..]) && line + Line(row[j..], ws[j..]) == Line(row, ws)
    {
      LineFrom(row, ws, j);
      ghost var before := line;
      var cell := row[j] + Spaces(widths[j] - |row[j]| + 2);
      line := line + cell;
      assert before + (cell + Line(row[j + 1..], ws[j + 1..])) == line + Line(row[j + 1..], ws[j + 1..]);
    }
    LineFrom(row, ws, widths.Length);
    line := line + row[widths.Length];
  }

  method ColumnWidths(cells: seq<seq<string>>) returns (widths: array<nat>)
    requires cells != [] && cells[0] != [] && Rectangular(cells, |cells[0]|)
    ensures WidthsOf(cells, widths[..])
  {
    var columns := |cells[0]| - 1;
    widths := new nat[columns];
    for j := 0 to columns
      invariant forall k :: 0 <= k < j ==> widths[k] == MaxLength(cells, k)
    {
      widths[j] := ColumnWidth(cells, j);
    }
  }

  // The text of the first k rows.
  function RenderTo(cells: seq<seq<string>>, widths: seq<nat>, k: nat): string
    requires k <= |cells| && forall i :: 0 <= i < |cells| ==> Fits(cells[i], widths)
  {
    Render(cells[..k], widths)
  }

  lemma RenderNext(before: string, cells: seq<seq<string>>, widths: seq<nat>, k: nat)
    requires k < |cells| && forall i :: 0 <= i < |cells| ==> Fits(cells[i], widths)
    ensures before + RenderTo(cells, widths, k + 1)
            == before + RenderTo(cells, widths, k) + Line(cells[k], widths) + "\n"
  {
    assert cells[..k] + [cells[k]] == cells[..k + 1];
    RenderAppend(cells[..k], cells[k], widths);
    var text, line := Render(cells[..k], widths), Line(cells[k], widths);
    assert before + (text + (line + "\n")) == before + text + line + "\n";
  }

  // forming_tables_helper: the widths first, then the text, added to what is there.
  method FormTable(before: string, cells: seq<seq<string>>) returns (result: string, widths: array<nat>)
    requires cells != [] && cells[0] != [] && Rectangular(cells, |cells[0]|)
    ensures WidthsOf(cells, widths[..])
    ensures forall i :: 0 <= i < |cells| ==> Fits(cells[i], widths[..])
    ensures result == before + Render(cells, widths[..])
  {
    widths := ColumnWidths(cells);
    ghost var ws := widths[..];
    WidthsFit(cells, ws);
    result := before;
    for i := 0 to |cells|
      invariant widths[..] == ws && result == before + RenderTo(cells, ws, i)
    {
      var line := FormLine(cells[i], widths);
      RenderNext(before, cells, ws, i);
      result := result + line + "\n";
    }
    assert cells[..|cells|] == cells;
  }

  // ---- The numbered list of files ----

  function Pow10(d: nat): nat {
    if d == 0 then 1 else 10 * Pow10(d - 1)
  }

  function Digits(n: nat): nat {
    if n < 10 then 1 else 1 + Digits(n / 10)
  }

  function DigitChar(d: nat): char
    requires d < 10
  {
    d as char + '0'
  }

  // to_string of an unsigned number.
  function Decimal(n: nat): string {
    if n < 10 then [DigitChar(n)] else Decimal(n / 10) + [DigitChar(n % 10)]
  }

  function Value(s: string): int {
    if s == "" then 0 else 10 * Value(s[..|s| - 1]) + (s[|s| - 1] as int - '0' as int)
  }

  // The digit count brackets the number between powers of ten, is the length of what
  // is printed, and what is printed has that value.
  lemma {:induction false} DigitsExact(n: nat)
    ensures n > 0 ==> Pow10(Digits(n) - 1) <= n
    ensures n < Pow10(Digits(n)) && Digits(n) >= 1
    ensures |Decimal(n)| == Digits(n) && Value(Decimal(n)) == n
  {
    if n >= 10 {
      DigitsExact(n / 10);
      var s := Decimal(n);
      assert s[..|s| - 1] == Decimal(n / 10);
    } else {
      assert Pow10(1) == 10 * Pow10(0);
      assert Decimal(n)[..0] == "";
    }
  }

  lemma {:induction false} DigitsMonotone(m: nat, n: nat)
    requires m <= n
    ensures Digits(m) <= Digits(n)
  {
    if m >= 10 {
      DigitsMonotone(m / 10, n / 10);
    }
  }

  // number_of_digits: divide until nothing is left, at least once.
  method NumberOfDigits(n: nat) returns (d: nat)
    ensures d == Digits(n)
  {
    var rest: nat := n / 10;
    d := 1;
    while rest != 0
      invariant d + (if rest == 0 then 0 else Digits(rest)) == Digits(n)
    {
      d := d + 1;
      rest := rest / 10;
    }
  }

  // The width of the first column for n files: its heading has three letters.
  function FirstColumn(n: nat): nat {
    Max(Digits(n), 3)
  }

  function FileLine(n: nat, pos: nat, name: string): string
    requires Digits(pos) <= FirstColumn(n)
  {
    Decimal(pos) + Spaces(FirstColumn(n) - Digits(pos) + 1) + name + "\n"
  }

  ghost predicate AllPositions(n: nat) {
    forall pos: nat :: pos <= n ==> Digits(pos) <= FirstColumn(n)
  }

  lemma PositionsFit(n: nat)
    ensures AllPositions(n)
  {
    forall pos: nat | pos <= n ensures Digits(pos) <= FirstColumn(n) {
      DigitsMonotone(pos, n);
    }
  }

  // The lines of the first k of the names.
  ghost function FileLines(names: seq<string>, k: nat): string
    requires k <= |names| && AllPositions(|names|)
  {
    if k == 0 then "" else FileLines(names, k - 1) + FileLine(|names|, k, names[k - 1])
  }

  // In every line the position is printed, at least one blank follows, and the file
  // name starts in the column after the first one, under its heading.
  lemma NamesAligned(n: nat, pos: nat, name: string)
    requires pos <= n
    ensures Digits(pos) <= FirstColumn(n)
    ensures var line := FileLine(n, pos, name);
      && |line| == FirstColumn(n) + 1 + |name| + 1
      && line[..Digits(pos)] == Decimal(pos)
      && line[Digits(pos)] == ' '
      && line[FirstColumn(n) + 1..] == name + "\n"
    ensures ("Pos" + Spaces(FirstColumn(n) - 3 + 1) + "File name\n")[FirstColumn(n) + 1..] == "File name\n"
  {
    DigitsMonotone(pos, n);
    DigitsExact(pos);
    var pad := Spaces(FirstColumn(n) - Digits(pos) + 1);
    var line := FileLine(n, pos, name);
    assert line == (Decimal(pos) + pad) + (name + "\n");
    assert |Decimal(pos) + pad| == FirstColumn(n) + 1;
    assert line[Digits(pos)] == pad[0];
    var heading := "Pos" + Spaces(FirstColumn(n) - 3 + 1);
    assert |heading| == FirstColumn(n) + 1;
  }

  lemma FileLinesNext(heading: string, names: seq<string>, c: nat)
    requires c < |names| && AllPositions(|names|)
    ensures heading + FileLines(names, c + 1) == (heading + FileLines(names, c)) + FileLine(|names|, c + 1, names[c])
  {
    assert FileLines(names, c + 1) == FileLines(names, c) + FileLine(|names|, c + 1, names[c]);
  }

  // The number of a file, padded to the width of the first column.
  method FormPosition(pos: nat, width: nat) returns (text: string)
    requires Digits(pos) <= width
    ensures text == Decimal(pos) + Spaces(width - Digits(pos) + 1)
  {
    var d := NumberOfDigits(pos);
    text := Decimal(pos) + Spaces(width - d + 1);
  }

  method FormHeading(width: nat) returns (text: string)
    requires width >= 3
    ensures text == "Pos" + Spaces(width - 3 + 1) + "File name\n"
  {
    text := "Pos" + Spaces(width - 3 + 1) + "File name\n";
  }

  // forming_files_table of the scanning handler, on the names the scan collected.
  method FormFilesTable(names: seq<string>) returns (table: string)
    ensures AllPositions(|names|)
    ensures table == "Pos" + Spaces(FirstColumn(|names|) - 3 + 1) + "File name\n" + FileLines(names, |names|)
  {
    PositionsFit(|names|);
    var digits := NumberOfDigits(|names|);
    var width := Max(digits, 3);
    table := FormHeading(width);
    ghost var heading := table;
    for c := 0 to |names|
      invariant table == heading + FileLines(names, c)
    {
      var position := FormPosition(c + 1, width);
      FileLinesNext(heading, names, c);
      table := table + (position + names[c] + "\n");
    }
  }

  // ---- What the list of files is, line by line ----

  lemma {:induction false} DigitsAre(n: nat, d: nat)
    requires d >= 1 && n < Pow10(d) && (d == 1 || Pow10(d - 1) <= n)
    ensures Digits(n) == d
  {
    if n >= 10 {
      assert Pow10(d) == 10 * Pow10(d - 1) && Pow10(d - 1) == 10 * Pow10(d - 2);
      DigitsAre(n / 10, d - 1);
    } else {
      assert Pow10(d - 1) >= 10 || d == 1;
    }
  }

  // Three characters wide up to 999 files, and as wide as the last number beyond.
  lemma FirstColumnIs(n: nat)
    ensures FirstColumn(n) == if n < 1000 then 3 else |Decimal(n)|
  {
    DigitsExact(n);
    assert Pow10(3) == 1000;
    if n < 1000 {
      DigitsMonotone(n, 999);
    } else {
      DigitsMonotone(1000, n);
    }
  }

  function Unlines(lines: seq<string>): string {
    if lines == [] then "" else lines[0] + "\n" + Unlines(lines[1..])
  }

  lemma {:induction false} UnlinesAppend(lines: seq<string>, line: string)
    ensures Unlines(lines + [line]) == Unlines(lines) + (line + "\n")
  {
    if lines == [] {
      assert lines + [line] == [line];
      assert [line][1..] == [];
    } else {
      assert (lines + [line])[1..] == lines[1..] + [line];
      UnlinesAppend(lines[1..], line);
      var first := lines[0] + "\n";
      assert first + (Unlines(lines[1..]) + (line + "\n")) == (first + Unlines(lines[1..])) + (line + "\n");
    }
  }

  function Row(n: nat, pos: nat, name: string): string
    requires |Decimal(pos)| <= (if n < 1000 then 3 else |Decimal(n)|)
  {
    Decimal(pos) + Spaces((if n < 1000 then 3 else |Decimal(n)|) - |Decimal(pos)| + 1) + name
  }

  lemma RowFits(n: nat, pos: nat)
    requires pos <= n
    ensures |Decimal(pos)| <= if n < 1000 then 3 else |Decimal(n)|
  {
    FirstColumnIs(n);
    DigitsExact(pos);
    DigitsMonotone(pos, n);
  }

  // The rows for the first k of the names.
  ghost function Rows(names: seq<string>, k: nat): (rows: seq<string>)
    requires k <= |names|
    ensures |rows| == k
  {
    if k == 0 then []
    else
      RowFits(|names|, k);
      Rows(names, k - 1) + [Row(|names|, k, names[k - 1])]
  }

  lemma {:induction false} LinesAreRows(names: seq<string>, k: nat)
    requires k <= |names| && AllPositions(|names|)
    ensures FileLines(names, k) == Unlines(Rows(names, k))
  {
    if k > 0 {
      LinesAreRows(names, k - 1);
      LineIsRow(|names|, k, names[k - 1]);
      UnlinesAppend(Rows(names, k - 1), Row(|names|, k, names[k - 1]));
    }
  }

  lemma LineIsRow(n: nat, pos: nat, name: string)
    requires pos <= n && Digits(pos) <= FirstColumn(n)
    ensures |Decimal(pos)| <= if n < 1000 then 3 else |Decimal(n)|
    ensures FileLine(n, pos, name) == Row(n, pos, name) + "\n"
  {
    RowFits(n, pos);
    FirstColumnIs(n);
    DigitsExact(pos);
  }

  lemma {:induction false} LinesBack(lines: seq<string>)
    requires forall i :: 0 <= i < |lines| ==> '\n' !in lines[i]
    ensures CutTable(Unlines(lines), []) == seq(|lines|, i requires 0 <= i < |lines| => [lines[i]])
  {
    if lines != [] {
      assert forall i :: 0 <= i < |lines[1..]| ==> lines[1..][i] == lines[i + 1];
      LinesBack(lines[1..]);
      CutTableStep(lines[0], Unlines(lines[1..]), []);
    }
  }

  predicate IsRow(names: seq<string>, i: nat, line: string) {
    var n := |names|;
    && i < n && |Decimal(i + 1)| <= (if n < 1000 then 3 else |Decimal(n)|)
    && line == Row(n, i + 1, names[i])
  }

  lemma {:induction false} RowsUnbroken(names: seq<string>, k: nat)
    requires k <= |names| && forall i :: 0 <= i < |names| ==> '\n' !in names[i]
    ensures forall i :: 0 <= i < k ==> '\n' !in Rows(names, k)[i]
    ensures forall i: nat :: i < k ==> IsRow(names, i, Rows(names, k)[i])
  {
    if k > 0 {
      RowFits(|names|, k);
      RowsUnbroken(names, k - 1);
      RowUnbroken(|names|, k, names[k - 1]);
      assert IsRow(names, k - 1, Row(|names|, k, names[k - 1]));
    }
  }

  lemma RowUnbroken(n: nat, pos: nat, name: string)
    requires |Decimal(pos)| <= (if n < 1000 then 3 else |Decimal(n)|) && '\n' !in name
    ensures '\n' !in Row(n, pos, name)
  {
    NoBreakInDecimal(pos);
    assert '\n' !in Spaces((if n < 1000 then 3 else |Decimal(n)|) - |Decimal(pos)| + 1);
  }

  lemma {:induction false} NoBreakInDecimal(n: nat)
    ensures '\n' !in Decimal(n)
  {
    if n >= 10 {
      NoBreakInDecimal(n / 10);
    }
  }

  function Heading(n: nat): string {
    "Pos" + Spaces((if n < 1000 then 3 else Max(|Decimal(n)|, 3)) - 2) + "File name"
  }

  lemma HeadingIs(n: nat)
    ensures Heading(n) + "\n" == "Pos" + Spaces(FirstColumn(n) - 3 + 1) + "File name\n"
    ensures '\n' !in Heading(n)
  {
    FirstColumnIs(n);
    DigitsExact(n);
    assert "File name\n" == "File name" + "\n";
    assert '\n' !in Spaces((if n < 1000 then 3 else Max(|Decimal(n)|, 3)) - 2);
  }

  // The list, read back line by line: the heading, one line for each file in order, with
  // its number from 1 on, and nothing else.
  lemma FilesTableLines(names: seq<string>, table: string)
    requires forall i :: 0 <= i < |names| ==> '\n' !in names[i]
    requires AllPositions(|names|)
    requires table == "Pos" + Spaces(FirstColumn(|names|) - 3 + 1) + "File name\n" + FileLines(names, |names|)
    ensures var lines := CutTable(table, []);
      && |lines| == 1 + |names| && lines[0] == [Heading(|names|)]
      && forall i: nat :: i < |names| ==> LineIs(names, lines, i)
  {
    LinesAreRows(names, |names|);
    HeadingIs(|names|);
    RowsAreLines(names);
    var rest := Unlines(Rows(names, |names|));
    assert table == Heading(|names|) + "\n" + rest;
    CutTableStep(Heading(|names|), rest, []);
    var lines, more := CutTable(table, []), CutTable(rest, []);
    forall i: nat | i < |names| ensures LineIs(names, lines, i) {
      assert lines[1 + i] == more[i];
    }
  }

  // Line i after the heading.
  predicate LineIs(names: seq<string>, lines: seq<seq<string>>, i: nat) {
    1 + i < |lines| && |lines[1 + i]| == 1 && IsRow(names, i, lines[1 + i][0])
  }

  lemma RowsAreLines(names: seq<string>)
    requires forall i :: 0 <= i < |names| ==> '\n' !in names[i]
    ensures var lines := CutTable(Unlines(Rows(names, |names|)), []);
      |lines| == |names| && forall i: nat :: i < |names| ==> |lines[i]| == 1 && IsRow(names, i, lines[i][0])
  {
    var rows := Rows(names, |names|);
    RowsUnbroken(names, |names|);
    LinesBack(rows);
    assert forall i: nat :: i < |names| ==> IsRow(names, i, rows[i]);
  }

  // Where a column starts, in numbers: two blanks for each column before it, and the
  // widths of these.
  function Total(widths: seq<nat>): nat {
    if widths == [] then 0 else widths[0] + Total(widths[1..])
  }

  lemma {:induction false} OffsetIs(widths: seq<nat>, j: nat)
    requires j <= |widths|
    ensures Offset(widths, j) == 2 * j + Total(widths[..j])
  {
    if j > 0 {
      OffsetIs(widths[1..], j - 1);
      assert widths[..j][1..] == widths[1..][..j - 1];
    }
  }
}
