/** The human-readable output of emctl/output.py: tables of fixed-width columns, and
    single records. */
module Render {
  import opened Text

  // A value of a row; Printed stands for what isoformat, json.dumps and str print.
  datatype Value = Null | Flag(b: bool) | Int(n: int) | Plain(s: string) | Printed(text: string)

  // A dict in insertion order.
  type Row = seq<(string, Value)>

  // dict.get
  function Get(row: Row, key: string): Value {
    if row == [] then Null else if row[0].0 == key then row[0].1 else Get(row[1..], key)
  }

  function Cell(v: Value): string {
    match v
    case Null => ""
    case Flag(b) => if b then "true" else "false"
    case Int(n) => Decimal(n)
    case Plain(s) => s
    case Printed(text) => text
  }

  function Repeat(c: char, n: nat): string {
    seq(n, _ => c)
  }

  // str.ljust
  function LJust(s: string, width: nat): (r: string)
    ensures |r| == Max(|s|, width) && r[..|s|] == s
  {
    if |s| < width then s + Repeat(' ', width - |s|) else s
  }

  function Max(a: nat, b: nat): nat {
    if a < b then b else a
  }

  // The parts with two spaces between neighbours.
  function Join(parts: seq<string>): string {
    if parts == [] then "" else if |parts| == 1 then parts[0] else parts[0] + "  " + Join(parts[1..])
  }

  // ----- the table as a function of its rows

  function Names(rows: seq<Row>): seq<string>
    requires rows != []
  {
    seq(|rows[0]|, i requires 0 <= i < |rows[0]| => rows[0][i].0)
  }

  function CellOf(row: Row, column: string): string {
    Cell(Get(row, column))
  }

  function Width(column: string, rows: seq<Row>): nat {
    if rows == [] then |column|
    else Max(Width(column, rows[..|rows| - 1]), |CellOf(rows[|rows| - 1], column)|)
  }

  function Widths(columns: seq<string>, rows: seq<Row>): seq<nat> {
    seq(|columns|, j requires 0 <= j < |columns| => Width(columns[j], rows))
  }

  function Justified(cells: seq<string>, widths: seq<nat>): seq<string>
    requires |cells| == |widths|
  {
    seq(|cells|, j requires 0 <= j < |cells| => LJust(cells[j], widths[j]))
  }

  function Rules(widths: seq<nat>): seq<string> {
    seq(|widths|, j requires 0 <= j < |widths| => Repeat('-', widths[j]))
  }

  function CellsOf(row: Row, columns: seq<string>): (r: seq<string>)
    ensures |r| == |columns|
  {
    seq(|columns|, j requires 0 <= j < |columns| => CellOf(row, columns[j]))
  }

  function TableLines(rows: seq<Row>): seq<string>
    requires rows != []
  {
    var columns := Names(rows);
    var widths := Widths(columns, rows);
    [Join(Justified(columns, widths)), Join(Rules(widths))]
    + seq(|rows|, i requires 0 <= i < |rows| => Join(Justified(CellsOf(rows[i], columns), widths)))
  }

  // ----- cells

  /** A null prints as nothing, a flag as a word, a number in decimal, text as it is. */
  lemma CellReads(b: bool, n: int, s: string)
    ensures Cell(Null) == "" && Cell(Flag(b)) == (if b then "true" else "false")
    ensures Cell(Int(n)) == Decimal(n) && Cell(Plain(s)) == s && Cell(Printed(s)) == s
  {
  }

  /** A row's value of a key; a key that is not there reads as null. */
  lemma {:induction false} GetReads(row: Row, key: string)
    ensures forall i | 0 <= i < |row| && row[i].0 == key && (forall j | 0 <= j < i :: row[j].0 != key) ::
              Get(row, key) == row[i].1
    ensures (forall i | 0 <= i < |row| :: row[i].0 != key) ==> Get(row, key) == Null
  {
    if row != [] {
      GetReads(row[1..], key);
      forall i | 0 <= i < |row| && row[i].0 == key && (forall j | 0 <= j < i :: row[j].0 != key)
        ensures Get(row, key) == row[i].1
      {
        if i > 0 {
          assert row[1..][i - 1] == row[i] && row[0].0 != key;
          assert forall j | 0 <= j < i - 1 :: row[1..][j] == row[j + 1];
        }
      }
      assert forall i | 0 <= i < |row| - 1 :: row[1..][i] == row[i + 1];
    }
  }

  // ----- layout

  function Sum(widths: seq<nat>): nat {
    if widths == [] then 0 else widths[0] + Sum(widths[1..])
  }

  // The length of a line of columns of these widths.
  function LineLength(widths: seq<nat>): nat {
    if widths == [] then 0 else Sum(widths) + 2 * (|widths| - 1)
  }

  // Where column j starts.
  function Offset(widths: seq<nat>, j: nat): nat
    requires j <= |widths|
  {
    Sum(widths[..j]) + 2 * j
  }

  ghost predicate Fits(parts: seq<string>, widths: seq<nat>) {
    |parts| == |widths| && forall j | 0 <= j < |parts| :: |parts[j]| == widths[j]
  }

  /** Columns of fixed widths, joined, can be cut apart again at their offsets. */
  lemma {:induction false} JoinLayout(parts: seq<string>, widths: seq<nat>)
    requires Fits(parts, widths)
    ensures |Join(parts)| == LineLength(widths)
    ensures forall j | 0 <= j < |parts| ::
              && Offset(widths, j) + widths[j] <= LineLength(widths)
              && Join(parts)[Offset(widths, j)..Offset(widths, j) + widths[j]] == parts[j]
    decreases |parts|
  {
    if |parts| == 1 {
      assert widths[1..] == [] && widths[..0] == [];
    } else if parts != [] {
      var rest := Join(parts[1..]);
      JoinLayout(parts[1..], widths[1..]);
      assert Join(parts) == parts[0] + "  " + rest;
      assert LineLength(widths) == widths[0] + 2 + LineLength(widths[1..]);
      hide Join, Sum, LineLength;
      forall j | 0 <= j < |parts|
        ensures Offset(widths, j) + widths[j] <= LineLength(widths)
        ensures Join(parts)[Offset(widths, j)..Offset(widths, j) + widths[j]] == parts[j]
      {
        if j == 0 {
          OffsetZero(widths);
        } else {
          OffsetNext(widths, j);
          var at := Offset(widths[1..], j - 1);
          CutTail(parts[0] + "  ", rest, at, at + widths[j]);
          assert rest[at..at + widths[1..][j - 1]] == parts[1..][j - 1];
        }
      }
    }
  }

  lemma OffsetZero(widths: seq<nat>)
    ensures Offset(widths, 0) == 0
  {
  }

  lemma OffsetNext(widths: seq<nat>, j: nat)
    requires 0 < j <= |widths|
    ensures Offset(widths, j) == widths[0] + 2 + Offset(widths[1..], j - 1)
  {
    assert widths[..j][1..] == widths[1..][..j - 1];
  }

  lemma CutTail(head: string, tail: string, i: nat, j: nat)
    requires i <= j <= |tail|
    ensures (head + tail)[|head| + i..|head| + j] == tail[i..j]
  {
  }

  /** A column is as wide as its widest entry, header included, and no wider. */
  lemma {:induction false} WidthIsMax(column: string, rows: seq<Row>, w: nat)
    ensures Width(column, rows) == w <==>
            && |column| <= w && (forall i | 0 <= i < |rows| :: |CellOf(rows[i], column)| <= w)
            && (|column| == w || exists i :: 0 <= i < |rows| && |CellOf(rows[i], column)| == w)
  {
    WidthBounds(column, rows);
  }

  lemma {:induction false} WidthBounds(column: string, rows: seq<Row>)
    ensures |column| <= Width(column, rows)
    ensures forall i | 0 <= i < |rows| :: |CellOf(rows[i], column)| <= Width(column, rows)
    ensures |column| == Width(column, rows) ||
            exists i :: 0 <= i < |rows| && |CellOf(rows[i], column)| == Width(column, rows)
  {
    if rows != [] {
      var n := |rows| - 1;
      WidthBounds(column, rows[..n]);
      assert forall i | 0 <= i < n :: rows[..n][i] == rows[i];
    }
  }

  // The columns' names, or the cells of row i.
  function Entries(rows: seq<Row>, line: nat): seq<string>
    requires rows != [] && line < |rows| + 2 && line != 1
  {
    if line == 0 then Names(rows) else CellsOf(rows[line - 2], Names(rows))
  }

  lemma EntriesFit(rows: seq<Row>, line: nat)
    requires rows != [] && line < |rows| + 2 && line != 1
    ensures var widths := Widths(Names(rows), rows);
            && |Entries(rows, line)| == |widths|
            && Fits(Justified(Entries(rows, line), widths), widths)
            && TableLines(rows)[line] == Join(Justified(Entries(rows, line), widths))
  {
    var columns := Names(rows);
    forall j | 0 <= j < |columns| ensures |Entries(rows, line)[j]| <= Width(columns[j], rows) {
      WidthBounds(columns[j], rows);
    }
  }

  /** Every line of a table, the header and the rule under it included, has the same
      length: the widths and two spaces a gap. */
  lemma LinesAligned(rows: seq<Row>, line: nat)
    requires rows != [] && line < |rows| + 2
    ensures |TableLines(rows)| == |rows| + 2
    ensures |TableLines(rows)[line]| == LineLength(Widths(Names(rows), rows))
  {
    var widths := Widths(Names(rows), rows);
    if line == 1 {
      JoinLayout(Rules(widths), widths);
    } else {
      EntriesFit(rows, line);
      JoinLayout(Justified(Entries(rows, line), widths), widths);
    }
  }

  /** Cutting a line at the offset of a column gives that cell back, then blanks. */
  lemma CellsReadBack(rows: seq<Row>, line: nat, j: nat)
    requires rows != [] && line < |rows| + 2 && line != 1 && j < |Names(rows)|
    ensures var widths := Widths(Names(rows), rows);
            var (from, cell) := (Offset(widths, j), Entries(rows, line)[j]);
            && from + widths[j] <= |TableLines(rows)[line]| && |cell| <= widths[j]
            && TableLines(rows)[line][from..from + widths[j]] == cell + Repeat(' ', widths[j] - |cell|)
  {
    var widths := Widths(Names(rows), rows);
    EntriesFit(rows, line);
    JoinLayout(Justified(Entries(rows, line), widths), widths);
    var cell := Entries(rows, line)[j];
    assert |LJust(cell, widths[j])| == widths[j];
    assert Repeat(' ', 0) == "" && cell + "" == cell;
  }

  /** The first line is the header: the keys of the first row. Under it a rule of dashes
      fills every column. */
  lemma FrameReads(rows: seq<Row>, j: nat)
    requires rows != [] && j < |rows[0]|
    ensures |Names(rows)| == |rows[0]| && Entries(rows, 0)[j] == rows[0][j].0
    ensures var widths := Widths(Names(rows), rows);
            var from := Offset(widths, j);
            && from + widths[j] <= |TableLines(rows)[1]|
            && AllAre(TableLines(rows)[1][from..from + widths[j]], '-')
  {
    var widths := Widths(Names(rows), rows);
    assert Entries(rows, 0)[j] == rows[0][j].0;
    JoinLayout(Rules(widths), widths);
    assert Rules(widths)[j] == Repeat('-', widths[j]) && AllAre(Rules(widths)[j], '-');
    assert TableLines(rows)[1] == Join(Rules(widths));
  }

  predicate AllAre(s: string, c: char) {
    forall i | 0 <= i < |s| :: s[i] == c
  }

  /** On every line two blanks part one column from the next. */
  lemma GapsRead(rows: seq<Row>, line: nat, j: nat)
    requires rows != [] && line < |rows| + 2 && j + 1 < |Names(rows)|
    ensures var widths := Widths(Names(rows), rows);
            var end := Offset(widths, j) + widths[j];
            end + 2 <= |TableLines(rows)[line]| && TableLines(rows)[line][end..end + 2] == "  "
  {
    hide *;
    var widths := Widths(Names(rows), rows);
    if line == 1 {
      RulesFit(rows);
      JoinGaps(Rules(widths), widths, j);
    } else {
      EntriesFit(rows, line);
      WidthsAt(Names(rows), rows);
      FitsAlike(Justified(Entries(rows, line), widths), widths);
      JoinGaps(Justified(Entries(rows, line), widths), widths, j);
    }
  }

  lemma FitsAlike(parts: seq<string>, widths: seq<nat>)
    requires Fits(parts, widths)
    ensures |parts| == |widths|
  {
  }

  lemma RulesFit(rows: seq<Row>)
    requires rows != []
    ensures var widths := Widths(Names(rows), rows);
            && |Rules(widths)| == |widths| == |Names(rows)| && Fits(Rules(widths), widths)
            && TableLines(rows)[1] == Join(Rules(widths))
  {
  }

  lemma {:induction false} JoinGaps(parts: seq<string>, widths: seq<nat>, j: nat)
    requires Fits(parts, widths) && j < |parts|
    ensures j + 1 < |parts| ==>
              var end := Offset(widths, j) + widths[j];
              end + 2 <= |Join(parts)| && Join(parts)[end..end + 2] == "  "
    decreases |parts|
  {
    if j + 1 < |parts| {
      var rest := Join(parts[1..]);
      assert Join(parts) == parts[0] + "  " + rest;
      hide Join, Sum;
      if j == 0 {
        OffsetZero(widths);
      } else {
        OffsetNext(widths, j);
        JoinGaps(parts[1..], widths[1..], j - 1);
        var end := Offset(widths[1..], j - 1) + widths[1..][j - 1];
        CutTail(parts[0] + "  ", rest, end, end + 2);
      }
    }
  }

  /** So two tables of the same columns and widths that print alike agree in every cell,
      except for blanks at a cell's end. */
  lemma PrintDetermines(a: seq<Row>, b: seq<Row>, i: nat, j: nat)
    requires a != [] && b != [] && Names(a) == Names(b) && Widths(Names(a), a) == Widths(Names(b), b)
    requires TableLines(a) == TableLines(b) && i < |a| && j < |Names(a)|
    ensures |a| == |b|
    ensures RStripChar(CellOf(a[i], Names(a)[j]), ' ') == RStripChar(CellOf(b[i], Names(b)[j]), ' ')
  {
    hide *;
    LinesAligned(a, 0);
    LinesAligned(b, 0);
    EntryIs(a, i, j);
    EntryIs(b, i, j);
    CellsReadBack(a, i + 2, j);
    CellsReadBack(b, i + 2, j);
    var w := Widths(Names(a), a)[j];
    var x, y := CellOf(a[i], Names(a)[j]), CellOf(b[i], Names(b)[j]);
    PaddingStripped(x, w - |x|);
    PaddingStripped(y, w - |y|);
  }

  lemma EntryIs(rows: seq<Row>, i: nat, j: nat)
    requires i < |rows| && j < |Names(rows)|
    ensures |Entries(rows, i + 2)| == |Names(rows)| == |Widths(Names(rows), rows)|
    ensures Entries(rows, i + 2)[j] == CellOf(rows[i], Names(rows)[j])
  {
  }

  lemma PaddingStripped(s: string, n: nat)
    ensures RStripChar(s + Repeat(' ', n), ' ') == RStripChar(s, ' ')
  {
    var m := RStripChar(s, ' ');
    var tail := s[|m|..] + Repeat(' ', n);
    assert s + Repeat(' ', n) == m + tail;
    RStripCharIs(m, tail, ' ');
  }

  // ----- the loops

  method RenderTable(rows: seq<Row>) returns (lines: seq<string>)
    ensures lines == if rows == [] then ["(no rows)"] else TableLines(rows)
  {
    if rows == [] { return ["(no rows)"]; }
    var columns := Names(rows);
    var widths, cells := Measured(columns, rows);
    hide *;
    var final := seq(|columns|, j requires 0 <= j < |columns| => widths[columns[j]]);
    WidthsAt(columns, rows);
    assert final == Widths(columns, rows);
    var body := Body(columns, final, rows, cells);
    lines := [Join(Justified(columns, final)), Join(Rules(final))] + body;
    LinesAt(rows, body);
  }

  // The second loop: one line a row.
  method Body(columns: seq<string>, widths: seq<nat>, rows: seq<Row>, cells: seq<map<string, string>>)
    returns (lines: seq<string>)
    requires |columns| == |widths| && |cells| == |rows|
    requires forall k | 0 <= k < |rows| :: Renders(cells[k], rows[k], columns)
    ensures |lines| == |rows|
    ensures forall k | 0 <= k < |rows| :: lines[k] == Join(Justified(CellsOf(rows[k], columns), widths))
  {
    hide *;
    lines := [];
    for i := 0 to |rows|
      invariant |lines| == i
      invariant forall k | 0 <= k < i :: lines[k] == Join(Justified(CellsOf(rows[k], columns), widths))
    {
      RenderedAt(cells[i], rows[i], columns);
      lines := lines + [Join(Justified(Ordered(cells[i], columns), widths))];
    }
  }

  // The cells of a rendered row, in the order of the columns.
  function Ordered(rendered: map<string, string>, columns: seq<string>): (r: seq<string>)
    requires forall c | c in columns :: c in rendered
    ensures |r| == |columns|
  {
    seq(|columns|, j requires 0 <= j < |columns| => rendered[columns[j]])
  }

  // The first loop: every cell rendered, every column widened to its cells.
  method Measured(columns: seq<string>, rows: seq<Row>)
    returns (widths: map<string, nat>, cells: seq<map<string, string>>)
    ensures widths.Keys == set c | c in columns
    ensures forall c | c in columns :: widths[c] == Width(c, rows)
    ensures |cells| == |rows| && forall k | 0 <= k < |rows| :: Renders(cells[k], rows[k], columns)
  {
    widths := map c | c in columns :: |c|;
    cells := [];
    for i := 0 to |rows|
      invariant widths.Keys == set c | c in columns
      invariant forall c | c in columns :: widths[c] == Width(c, rows[..i])
      invariant |cells| == i
      invariant forall k | 0 <= k < i :: Renders(cells[k], rows[k], columns)
    {
      hide Width, CellOf, Max;
      var rendered := map c | c in columns :: CellOf(rows[i], c);
      widths := Widened(columns, rows[i], widths, rendered);
      cells := cells + [rendered];
      OneWider(columns, rows, i);
    }
    assert rows[..|rows|] == rows;
  }

  ghost predicate Renders(rendered: map<string, string>, row: Row, columns: seq<string>) {
    rendered.Keys == (set c | c in columns) && forall c | c in columns :: rendered[c] == CellOf(row, c)
  }

  lemma RenderedAt(rendered: map<string, string>, row: Row, columns: seq<string>)
    requires Renders(rendered, row, columns)
    ensures forall c | c in columns :: c in rendered
    ensures Ordered(rendered, columns) == CellsOf(row, columns)
  {
  }

  lemma OneWider(columns: seq<string>, rows: seq<Row>, i: nat)
    requires i < |rows|
    ensures forall c :: Width(c, rows[..i + 1]) == Max(Width(c, rows[..i]), |CellOf(rows[i], c)|)
  {
    assert rows[..i + 1][..i] == rows[..i];
  }

  lemma WidthsAt(columns: seq<string>, rows: seq<Row>)
    ensures |Widths(columns, rows)| == |columns|
    ensures forall j | 0 <= j < |columns| :: Widths(columns, rows)[j] == Width(columns[j], rows)
  {
  }

  lemma LinesAt(rows: seq<Row>, body: seq<string>)
    requires rows != [] && |body| == |rows|
    requires forall k | 0 <= k < |rows| ::
               body[k] == Join(Justified(CellsOf(rows[k], Names(rows)), Widths(Names(rows), rows)))
    ensures var (columns, widths) := (Names(rows), Widths(Names(rows), rows));
            TableLines(rows) == [Join(Justified(columns, widths)), Join(Rules(widths))] + body
  {
    hide Join, Justified, Rules, CellsOf, Names;
  }

  // Widens every column that a row's cell does not fit into.
  method Widened(columns: seq<string>, row: Row, widths: map<string, nat>, rendered: map<string, string>)
    returns (r: map<string, nat>)
    requires widths.Keys == set c | c in columns
    requires rendered.Keys == set c | c in columns
    ensures r.Keys == widths.Keys
    ensures forall c | c in columns :: r[c] == Max(widths[c], |rendered[c]|)
  {
    r := widths;
    for j := 0 to |columns|
      invariant r.Keys == widths.Keys
      invariant forall c | c in columns ::
                  r[c] == if c in columns[..j] then Max(widths[c], |rendered[c]|) else widths[c]
    {
      var c := columns[j];
      r := r[c := Max(r[c], |rendered[c]|)];
      assert columns[..j + 1] == columns[..j] + [c];
    }
  }

  // ----- one record

  function KeyWidth(row: Row): nat {
    if row == [] then 0 else Max(KeyWidth(row[..|row| - 1]), |row[|row| - 1].0|)
  }

  method RenderRecord(row: Row) returns (lines: seq<string>)
    ensures row == [] ==> lines == ["(empty)"]
    ensures row != [] ==> |lines| == |row|
    ensures forall i | 0 <= i < |row| :: RecordReads(lines[i], KeyWidth(row), row[i].0, Cell(row[i].1))
  {
    if row == [] { return ["(empty)"]; }
    var width := WidestKey(row);
    hide *;
    lines := [];
    for i := 0 to |row|
      invariant |lines| == i
      invariant forall k | 0 <= k < i :: lines[k] == LJust(row[k].0, width) + "  " + Cell(row[k].1)
    {
      lines := lines + [LJust(row[i].0, width) + "  " + Cell(row[i].1)];
    }
    forall i | 0 <= i < |row| ensures RecordReads(lines[i], width, row[i].0, Cell(row[i].1)) {
      RecordLine(row[i].0, Cell(row[i].1), width);
    }
  }

  // The key padded to the width, two blanks, the value.
  ghost predicate RecordReads(line: string, width: nat, key: string, cell: string) {
    && |key| <= width && width + 2 <= |line|
    && line[..|key|] == key && AllAre(line[|key|..width + 2], ' ') && line[width + 2..] == cell
  }

  /** The key width is the length of the longest key. */
  lemma {:induction false} KeyWidthIsMax(row: Row)
    requires row != []
    ensures forall i | 0 <= i < |row| :: |row[i].0| <= KeyWidth(row)
    ensures exists i :: 0 <= i < |row| && |row[i].0| == KeyWidth(row)
  {
    var n := |row| - 1;
    if n == 0 {
      assert row[..0] == [] && |row[0].0| == KeyWidth(row);
    } else {
      KeyWidthIsMax(row[..n]);
      assert forall i | 0 <= i < n :: row[..n][i] == row[i];
      if KeyWidth(row) == |row[n].0| {
      } else {
        var i :| 0 <= i < n && |row[..n][i].0| == KeyWidth(row[..n]);
        assert |row[i].0| == KeyWidth(row);
      }
    }
  }

  // The length of the longest key.
  method WidestKey(row: Row) returns (width: nat)
    ensures width == KeyWidth(row)
    ensures forall i | 0 <= i < |row| :: |row[i].0| <= width
  {
    width := 0;
    for i := 0 to |row|
      invariant width == KeyWidth(row[..i])
      invariant forall k | 0 <= k < i :: |row[k].0| <= width
    {
      assert row[..i + 1][..i] == row[..i];
      width := Max(width, |row[i].0|);
    }
    assert row[..|row|] == row;
  }

  lemma RecordLine(key: string, cell: string, width: nat)
    requires |key| <= width
    ensures RecordReads(LJust(key, width) + "  " + cell, width, key, cell)
  {
    var line := LJust(key, width) + "  " + cell;
    assert line == key + Repeat(' ', width + 2 - |key|) + cell;
  }
}
