/** What the built statements do to a table, in its columns and rows. */
module SqlLaws {
  import opened Prelude
  import opened Sql

  // The dict gives the column this value.
  lemma ValueIs(d: Dict, i: nat)
    requires DictKeys(d) && i < |d|
    ensures Sets(d, d[i].0) && ValueOf(d, d[i].0) == d[i].1
    decreases |d|
  {
    if i > 0 {
      assert d[1..][i - 1] == d[i];
      ValueIs(d[1..], i - 1);
    }
  }

  lemma WrittenRow(row: Row, d: Dict)
    requires DictKeys(d)
    ensures forall i | 0 <= i < |d| :: d[i].0 in Over(row, d) && Over(row, d)[d[i].0] == d[i].1
    ensures forall c | c in Over(row, d) :: c in row || exists i :: 0 <= i < |d| && d[i].0 == c
    ensures forall c | c in row :: c in Over(row, d)
    ensures forall c | c in row && (forall i | 0 <= i < |d| :: d[i].0 != c) :: Over(row, d)[c] == row[c]
  {
    hide Over, ValueOf;
    forall i | 0 <= i < |d| ensures d[i].0 in Over(row, d) && Over(row, d)[d[i].0] == d[i].1 {
      ValueIs(d, i);
      OverReads(row, d, d[i].0);
    }
    forall c ensures c in Over(row, d) <==> c in row || Sets(d, c) { OverReads(row, d, c); }
    forall c | c in row && (forall i | 0 <= i < |d| :: d[i].0 != c) ensures Over(row, d)[c] == row[c] {
      OverReads(row, d, c);
    }
  }

  /** INSERT: one new row with the dict's values, and in every other column its default
      (the next id, the literal, or now()); it is filed under the id it carries, and no
      other row changes. It fails exactly when a constraint refuses it or the id it names
      is no free number. The sequence moves exactly when the id is left to it. */
  lemma InsertExact(t: Table, values: Dict, now: int) returns (row: Row)
    requires DictKeys(values) && values != [] && forall i | 0 <= i < |values| :: values[i].0 in t.defaults
    requires "id" in t.defaults && t.defaults["id"] == Serial && t.last + 1 !in t.rows
    ensures row.Keys == t.defaults.Keys
    ensures forall i | 0 <= i < |values| :: row[values[i].0] == values[i].1
    ensures forall c | c in t.defaults && (forall i | 0 <= i < |values| :: values[i].0 != c) ::
              match t.defaults[c]
              case Serial => row[c] == Int(t.last + 1)
              case Literal(v) => row[c] == v
              case NowDefault => row[c] == Time(now)
    ensures var a := InsertMeaning(t, values, [], now);
            if forall i | 0 <= i < |values| :: values[i].0 != "id"
            then a == if t.accepts(row)
                      then Answer(t.(rows := t.rows[t.last + 1 := row], last := t.last + 1), [row])
                      else Failure(t.(last := t.last + 1), Violation)
            else a == if t.accepts(row) && row["id"].Int? && row["id"].n !in t.rows
                      then Answer(t.(rows := t.rows[row["id"].n := row]), [row])
                      else Failure(t, Violation)
  {
    row := Over(Defaults(t, t.last + 1, now), values);
    WrittenRow(Defaults(t, t.last + 1, now), values);
    IdNamed(values);
    hide Over;
    assert (forall i | 0 <= i < |values| :: values[i].0 != "id") ==> row["id"] == Int(t.last + 1);
    InsertAnswers(t, values, now, row);
    hide Stored, Drawn, InsertMeaning, Defaults;
    assert "id" !in Keys(values) ==> RowId(row) == Some(t.last + 1);
    StoredNew(t, row);
  }

  lemma InsertAnswers(t: Table, values: Dict, now: int, row: Row)
    requires DictKeys(values) && values != [] && forall i | 0 <= i < |values| :: values[i].0 in t.defaults
    requires row == Over(Defaults(t, t.last + 1, now), values)
    ensures InsertMeaning(t, values, [], now) == Stored(Drawn(t, Keys(values)), None, row)
  {
    NothingFixed(values, now);
    NamesWork(t, values);
    AnswersInsert(t, values, now);
    hide *;
  }

  lemma AnswersInsert(t: Table, d: Dict, now: int)
    requires d != [] && !Repeats(Keys(d)) && Known(t, Keys(d)) && d + Fixed([], now) == d
    ensures InsertMeaning(t, d, [], now) == Stored(Drawn(t, Keys(d)), None, Over(Defaults(t, t.last + 1, now), d))
  {
    hide Over, Stored, Defaults, Drawn, Repeats, Known, Keys, Fixed;
  }

  lemma NothingFixed(d: Dict, now: int)
    ensures d + Fixed([], now) == d
  {
  }

  lemma NamesWork(t: Table, d: Dict)
    requires DictKeys(d) && forall i | 0 <= i < |d| :: d[i].0 in t.defaults
    ensures !Repeats(Keys(d)) && Known(t, Keys(d))
  {
  }

  lemma StoredNew(t: Table, row: Row)
    requires "id" in row
    ensures Stored(t, None, row) ==
            if t.accepts(row) && row["id"].Int? && row["id"].n !in t.rows
            then Answer(t.(rows := t.rows[row["id"].n := row]), [row]) else Failure(t, Violation)
    ensures var u := t.(last := t.last + 1);
            Stored(u, None, row) ==
            if t.accepts(row) && row["id"].Int? && row["id"].n !in t.rows
            then Answer(u.(rows := t.rows[row["id"].n := row]), [row]) else Failure(u, Violation)
  {
  }

  lemma IdNamed(d: Dict)
    ensures "id" in Keys(d) <==> exists i :: 0 <= i < |d| && d[i].0 == "id"
  {
    if "id" in Keys(d) {
      var i :| 0 <= i < |d| && Keys(d)[i] == "id";
      assert d[i].0 == "id";
    }
    if i :| 0 <= i < |d| && d[i].0 == "id" { assert Keys(d)[i] == "id"; }
  }

  /** An INSERT of nothing, or of a column that is not there, is an error. */
  lemma InsertRefused(t: Table, values: Dict, now: int)
    requires DictKeys(values)
    ensures values == [] ==> InsertMeaning(t, values, [], now) == Failure(t, SyntaxError)
    ensures (exists i | 0 <= i < |values| :: values[i].0 !in t.defaults) ==>
              InsertMeaning(t, values, [], now) == Failure(t, UndefinedColumn)
  {
    assert values + Fixed([], now) == values;
    if i :| 0 <= i < |values| && values[i].0 !in t.defaults { assert Keys(values)[i] == values[i].0; }
  }

  /** UPDATE of a stored row, filed under its id, that leaves the id alone: the dict's
      values and the fixed columns are written (now(), or NULL), every other column and
      every other row stays; a constraint may refuse. */
  lemma UpdateExact(t: Table, id: int, values: Dict, extra: seq<Assignment>, now: int) returns (row: Row)
    requires id in t.rows && "id" in t.rows[id] && t.rows[id]["id"] == Int(id)
    requires Unbound(extra) && DictKeys(values + Fixed(extra, now)) && values + Fixed(extra, now) != []
    requires forall i | 0 <= i < |values| :: values[i].0 in t.defaults && values[i].0 != "id"
    requires forall i | 0 <= i < |extra| :: extra[i].col in t.defaults && extra[i].col != "id"
    ensures forall i | 0 <= i < |values| :: values[i].0 in row && row[values[i].0] == values[i].1
    ensures forall i | 0 <= i < |extra| ::
              && extra[i].col in row
              && row[extra[i].col] == match extra[i].term case Now => Time(now) case NullTerm => Null
    ensures t.rows[id].Keys <= row.Keys
    ensures forall c | c in t.rows[id] && (forall i | 0 <= i < |values| :: values[i].0 != c)
                       && (forall i | 0 <= i < |extra| :: extra[i].col != c) :: row[c] == t.rows[id][c]
    ensures UpdateMeaning(t, id, values, extra, now) ==
            if t.accepts(row) then Answer(t.(rows := t.rows[id := row]), [row]) else Failure(t, Violation)
  {
    var d := values + Fixed(extra, now);
    var n := |values|;
    row := Over(t.rows[id], d);
    WrittenRow(t.rows[id], d);
    assert forall i | 0 <= i < n :: d[i] == values[i];
    assert forall i | 0 <= i < |extra| :: d[n + i].0 == extra[i].col;
    assert forall i | n <= i < |d| :: d[i].0 == extra[i - n].col;
    assert forall i | 0 <= i < |d| :: d[i].0 in t.defaults && d[i].0 != "id";
    NamesWork(t, d);
    UpdatedInPlace(t, id, row);
    hide Over, Repeats, Known, Stored, Keys;
  }

  /** An UPDATE of a row that is not there is not-found, and one without anything to
      write only reads. */
  lemma UpdateEdges(t: Table, id: int, values: Dict, extra: seq<Assignment>, now: int)
    requires DictKeys(values + Fixed(extra, now))
    requires forall i | 0 <= i < |values| :: values[i].0 in t.defaults
    requires forall i | 0 <= i < |extra| :: extra[i].col in t.defaults
    ensures id !in t.rows ==> UpdateMeaning(t, id, values, extra, now) == Failure(t, Missing)
    ensures id in t.rows && values == [] && extra == [] ==>
              UpdateMeaning(t, id, values, extra, now) == Answer(t, [t.rows[id]])
  {
    var d := values + Fixed(extra, now);
    assert forall i | 0 <= i < |values| :: d[i] == values[i];
    assert forall i | |values| <= i < |d| :: d[i].0 == extra[i - |values|].col;
    assert !Repeats(Keys(d)) && Known(t, Keys(d));
  }
}
