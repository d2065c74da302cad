/** The statement builder of emctl/repo/_sql.py: a column-to-value dict becomes a
    statement with positional placeholders and a parameter list put together apart
    from it. Running the pair means the direct operation on the table. */
module Sql {
  import opened Prelude
  import opened Ordering

  datatype Value = Null | Int(n: int) | Text(text: string) | Flag(b: bool) | Time(t: int) | Ints(ns: seq<int>)

  type Row = map<string, Value>

  // A Python dict in insertion order.
  type Dict = seq<(string, Value)>

  ghost predicate DictKeys(d: Dict) {
    forall i, j | 0 <= i < j < |d| :: d[i].0 != d[j].0
  }

  function Keys(d: Dict): seq<string> {
    seq(|d|, i requires 0 <= i < |d| => d[i].0)
  }

  function Values(d: Dict): seq<Value> {
    seq(|d|, i requires 0 <= i < |d| => d[i].1)
  }

  // ----- tables

  datatype Default = Serial | Literal(value: Value) | NowDefault

  /** A table: the default of every column, the constraint each row must meet (NOT
      NULL, CHECK and references, as one test), its rows by primary key, its sequence,
      and two things the server decides: how it ranks the values of a column it sorts
      on (a collation, and where NULL goes), and what it does with rows of equal rank. */
  datatype Table = Table(
    defaults: map<string, Default>, accepts: Row -> bool, rows: map<int, Row>, last: int,
    rank: Value -> int, place: int -> int)

  datatype DbError = SyntaxError | UndefinedColumn | ParameterMismatch | Violation | Missing

  datatype Answer = Answer(table: Table, rows: seq<Row>) | Failure(table: Table, error: DbError)

  // ----- statements

  // A bound placeholder, now(), or the literal NULL.
  datatype Term = Placeholder | Now | NullTerm

  datatype Assignment = Assignment(col: string, term: Term)

  datatype Stmt =
    | Insert(cols: seq<string>, vals: seq<Term>)   // INSERT ... RETURNING *
    | Update(sets: seq<Assignment>)                // UPDATE ... SET ... WHERE id = %s RETURNING *
    | SelectById                                   // SELECT * ... WHERE id = %s
    | Select(conds: seq<string>, key: string)       // SELECT * ... WHERE c = %s AND ... ORDER BY key

  function Placeholders(terms: seq<Term>): nat {
    if terms == [] then 0 else (if terms[0].Placeholder? then 1 else 0) + Placeholders(terms[1..])
  }

  function Terms(sets: seq<Assignment>): seq<Term> {
    seq(|sets|, i requires 0 <= i < |sets| => sets[i].term)
  }

  function Columns(sets: seq<Assignment>): seq<string> {
    seq(|sets|, i requires 0 <= i < |sets| => sets[i].col)
  }

  function Arity(s: Stmt): nat {
    match s
    case Insert(_, vals) => Placeholders(vals)
    case Update(sets) => Placeholders(Terms(sets)) + 1
    case SelectById => 1
    case Select(conds, _) => |conds|
  }

  // ----- running a statement: parameters are consumed left to right

  // The terms' values, each placeholder taking the next parameter.
  function Bind(terms: seq<Term>, params: seq<Value>, now: int): (r: seq<Value>)
    requires Placeholders(terms) <= |params|
    ensures |r| == |terms|
  {
    if terms == [] then []
    else
      match terms[0]
      case Placeholder => [params[0]] + Bind(terms[1..], params[1..], now)
      case Now => [Time(now)] + Bind(terms[1..], params, now)
      case NullTerm => [Null] + Bind(terms[1..], params, now)
  }

  predicate Repeats(cols: seq<string>) {
    exists i, j :: 0 <= i < j < |cols| && cols[i] == cols[j]
  }

  function Assign(row: Row, cols: seq<string>, vals: seq<Value>): Row
    requires |cols| == |vals|
    decreases |cols|
  {
    if cols == [] then row else Assign(row[cols[0] := vals[0]], cols[1..], vals[1..])
  }

  function DefaultOf(d: Default, id: int, now: int): Value {
    match d case Serial => Int(id) case Literal(v) => v case NowDefault => Time(now)
  }

  function Defaults(t: Table, id: int, now: int): Row {
    map c | c in t.defaults :: DefaultOf(t.defaults[c], id, now)
  }

  // `c = v` is true: neither side NULL, and equal.
  predicate Equal(row: Row, c: string, v: Value) {
    c in row && row[c] != Null && v != Null && row[c] == v
  }

  function Matching(t: Table, conds: seq<string>, vals: seq<Value>): set<int>
    requires |conds| == |vals|
  {
    set id | id in t.rows && forall i | 0 <= i < |conds| :: Equal(t.rows[id], conds[i], vals[i])
  }

  function Cell(row: Row, c: string): Value {
    if c in row then row[c] else Null
  }

  function SortKeys(t: Table, key: string): Keys {
    map id | id in t.rows :: (t.rank(Cell(t.rows[id], key)), t.place(id))
  }

  function Listing(t: Table, ids: set<int>, key: string): seq<Row>
    requires ids <= t.rows.Keys
  {
    var s := OrderBy(ids, SortKeys(t, key));
    assert forall i | 0 <= i < |s| :: s[i] in Elements(s);
    seq(|s|, i requires 0 <= i < |s| => t.rows[s[i]])
  }

  // The primary key of a row.
  function RowId(row: Row): Option<int> {
    if "id" in row && row["id"].Int? then Some(row["id"].n) else None
  }

  // A row written in place of an old one, or of none: its key must be there and free.
  function Filed(rows: map<int, Row>, was: Option<int>, row: Row): Option<map<int, Row>> {
    match RowId(row)
    case None => None
    case Some(n) =>
      if was == Some(n) then Some(rows[n := row])
      else if n in rows then None
      else Some((if was.Some? then rows - {was.value} else rows)[n := row])
  }

  function Stored(t: Table, was: Option<int>, row: Row): (r: Answer)
    ensures r.Answer? ==> r.rows == [row]
    ensures r.Failure? ==> r.table == t
  {
    var rows := Filed(t.rows, was, row);
    if t.accepts(row) && rows.Some? then Answer(t.(rows := rows.value), [row]) else Failure(t, Violation)
  }

  // An insertion draws from the sequence unless it names the id itself.
  function Drawn(t: Table, cols: seq<string>): Table {
    if "id" in cols then t else t.(last := t.last + 1)
  }

  predicate Known(t: Table, cols: seq<string>) {
    forall i | 0 <= i < |cols| :: cols[i] in t.defaults
  }

  function Exec(s: Stmt, params: seq<Value>, t: Table, now: int): Answer {
    if Arity(s) != |params| then Failure(t, ParameterMismatch)
    else
      match s
      case Insert(cols, vals) =>
        if cols == [] || |cols| != |vals| || Repeats(cols) then Failure(t, SyntaxError)
        else if !Known(t, cols) then Failure(t, UndefinedColumn)
        else
          Stored(Drawn(t, cols), None, Assign(Defaults(t, t.last + 1, now), cols, Bind(vals, params, now)))
      case Update(sets) =>
        var cols := Columns(sets);
        if sets == [] || Repeats(cols) then Failure(t, SyntaxError)
        else if !Known(t, cols) then Failure(t, UndefinedColumn)
        else
          var vals := Bind(Terms(sets), params, now);
          var id := params[Placeholders(Terms(sets))];
          if !(id.Int? && id.n in t.rows) then Answer(t, [])
          else Stored(t, Some(id.n), Assign(t.rows[id.n], cols, vals))
      case SelectById =>
        if params[0].Int? && params[0].n in t.rows then Answer(t, [t.rows[params[0].n]]) else Answer(t, [])
      case Select(conds, key) =>
        if !Known(t, conds + [key]) then Failure(t, UndefinedColumn)
        else Answer(t, Listing(t, Matching(t, conds, params), key))
  }

  // ----- what the helpers mean

  // The row with the dict's values over it.
  function Over(row: Row, d: Dict): Row
    decreases |d|
  {
    if d == [] then row else Over(row[d[0].0 := d[0].1], d[1..])
  }

  // Assignments that take no bound value, as columns and values.
  function Fixed(extra: seq<Assignment>, now: int): Dict {
    seq(|extra|, i requires 0 <= i < |extra| => (extra[i].col, if extra[i].term.Now? then Time(now) else Null))
  }

  predicate Unbound(extra: seq<Assignment>) {
    forall i | 0 <= i < |extra| :: !extra[i].term.Placeholder?
  }

  // INSERT: the defaults under the dict (and under the fixed columns), checked.
  function InsertMeaning(t: Table, values: Dict, extra: seq<Assignment>, now: int): Answer {
    var d := values + Fixed(extra, now);
    if d == [] || Repeats(Keys(d)) then Failure(t, SyntaxError)
    else if !Known(t, Keys(d)) then Failure(t, UndefinedColumn)
    else
      Stored(Drawn(t, Keys(d)), None, Over(Defaults(t, t.last + 1, now), d))
  }

  // UPDATE of one id: a patch, a missing row, or, without anything to write, a read.
  function UpdateMeaning(t: Table, id: int, values: Dict, extra: seq<Assignment>, now: int): Answer {
    var d := values + Fixed(extra, now);
    if d == [] then GetMeaning(t, id)
    else if Repeats(Keys(d)) then Failure(t, SyntaxError)
    else if !Known(t, Keys(d)) then Failure(t, UndefinedColumn)
    else if id !in t.rows then Failure(t, Missing)
    else Stored(t, Some(id), Over(t.rows[id], d))
  }

  function GetMeaning(t: Table, id: int): Answer {
    if id in t.rows then Answer(t, [t.rows[id]]) else Failure(t, Missing)
  }

  // SELECT: the rows that agree with the dict on every column, NULL agreeing with
  // nothing, sorted on a column.
  function SelectMeaning(t: Table, filter: Dict, key: string): Answer {
    if !Known(t, Keys(filter) + [key]) then Failure(t, UndefinedColumn)
    else Answer(t, Listing(t, Agreeing(t, filter), key))
  }

  function Agreeing(t: Table, filter: Dict): set<int> {
    set id | id in t.rows && forall k | k in filter :: Equal(t.rows[id], k.0, k.1)
  }

  // ----- binding consumes exactly the dict's values

  lemma {:induction false} BindAll(n: nat, params: seq<Value>, more: seq<Term>, rest: seq<Value>, now: int)
    requires |params| == n && Placeholders(more) <= |rest|
    ensures Placeholders(Marks(n) + more) == n + Placeholders(more)
    ensures Bind(Marks(n) + more, params + rest, now) == params + Bind(more, rest, now)
    decreases n
  {
    if n == 0 {
      assert Marks(0) + more == more && params + rest == rest;
    } else {
      assert (Marks(n) + more)[1..] == Marks(n - 1) + more;
      assert (params + rest)[1..] == params[1..] + rest;
      BindAll(n - 1, params[1..], more, rest, now);
    }
  }

  // n placeholders
  function Marks(n: nat): seq<Term> {
    seq(n, _ => Placeholder)
  }

  lemma {:induction false} BindFixed(extra: seq<Assignment>, rest: seq<Value>, now: int)
    requires Unbound(extra)
    ensures Placeholders(Terms(extra)) == 0
    ensures Bind(Terms(extra), rest, now) == Values(Fixed(extra, now))
  {
    if extra != [] {
      assert Terms(extra)[1..] == Terms(extra[1..]);
      BindFixed(extra[1..], rest, now);
      assert Values(Fixed(extra, now))[1..] == Values(Fixed(extra[1..], now));
    }
  }

  lemma {:induction false} AssignIsOver(row: Row, d: Dict)
    ensures Assign(row, Keys(d), Values(d)) == Over(row, d)
    decreases |d|
  {
    if d != [] {
      assert Keys(d)[1..] == Keys(d[1..]) && Values(d)[1..] == Values(d[1..]);
      AssignIsOver(row[d[0].0 := d[0].1], d[1..]);
    }
  }

  // ----- the helpers, as they build statement and parameters

  lemma KeysAppend(a: Dict, b: Dict)
    ensures Keys(a + b) == Keys(a) + Keys(b) && Values(a + b) == Values(a) + Values(b)
  {
  }

  /** The insertion of a dict. */
  method BuildInsert(values: Dict) returns (stmt: Stmt, params: seq<Value>)
    ensures Arity(stmt) == |params|
    ensures forall t: Table, now: int :: Exec(stmt, params, t, now) == InsertMeaning(t, values, [], now)
  {
    var columns := Keys(values);
    stmt := Insert(columns, Marks(|columns|));
    params := Values(values);
    forall t: Table, now: int ensures Exec(stmt, params, t, now) == InsertMeaning(t, values, [], now) {
      InsertRuns(t, values, [], now);
      assert columns + Columns([]) == columns && Marks(|values|) + Terms([]) == Marks(|values|);
    }
    BindAll(|values|, Values(values), [], [], 0);
    assert Marks(|values|) + [] == Marks(|values|);
  }

  /** The update of one id: bound settings, then the fixed ones; nothing to set is a read. */
  method BuildUpdate(id: int, values: Dict, extra: seq<Assignment>) returns (stmt: Stmt, params: seq<Value>)
    requires Unbound(extra)
    ensures Arity(stmt) == |params|
    ensures forall t: Table, now: int ::
              Fetched(Exec(stmt, params, t, now)) == UpdateMeaning(t, id, values, extra, now)
  {
    var assignments := Settings(values);
    assignments := assignments + extra;
    if assignments == [] {
      stmt, params := SelectById, [Int(id)];
    } else {
      stmt := Update(assignments);
      params := Values(values) + [Int(id)];
      TermsOfUpdate(values, extra, id, 0);
      forall t: Table, now: int
        ensures Fetched(Exec(stmt, params, t, now)) == UpdateMeaning(t, id, values, extra, now)
      {
        UpdateRuns(t, id, values, extra, now);
      }
    }
  }

  /** The filtered, sorted read; an empty filter has no WHERE. */
  method BuildSelect(filter: Dict, key: string) returns (stmt: Stmt, params: seq<Value>)
    ensures Arity(stmt) == |params|
    ensures forall t: Table, now: int :: Exec(stmt, params, t, now) == SelectMeaning(t, filter, key)
    ensures forall t: Table, now: int | Known(t, Keys(filter) + [key]) ::
              Selects(t, filter, key, Exec(stmt, params, t, now))
  {
    stmt, params := Select([], key), [];
    if filter != [] {
      stmt := Select(Keys(filter), key);
      params := params + Values(filter);
    }
    assert [] + Values(filter) == Values(filter);
    assert stmt == Select(Keys(filter), key) && params == Values(filter);
    forall t: Table, now: int
      ensures Exec(stmt, params, t, now) == SelectMeaning(t, filter, key)
      ensures Known(t, Keys(filter) + [key]) ==> Selects(t, filter, key, Exec(stmt, params, t, now))
    {
      SelectRuns(t, filter, key);
      if Known(t, Keys(filter) + [key]) { SelectSelects(t, filter, key); }
    }
  }

  // The answer lists these rows of the table, in an order that sorts the column.
  ghost predicate Lists(t: Table, filter: Dict, key: string, a: Answer, ids: seq<int>) {
    && a.Answer? && a.table == t && |a.rows| == |ids|
    && (forall i, j | 0 <= i < j < |ids| :: ids[i] != ids[j])
    && (forall id :: id in ids <==>
          id in t.rows && forall k | k in filter :: k.0 in t.rows[id] && k.1 != Null && t.rows[id][k.0] == k.1)
    && (forall i | 0 <= i < |ids| :: ids[i] in t.rows && a.rows[i] == t.rows[ids[i]])
    && forall i, j | 0 <= i < j < |ids| ::
         t.rank(if key in a.rows[i] then a.rows[i][key] else Null)
         <= t.rank(if key in a.rows[j] then a.rows[j][key] else Null)
  }

  ghost predicate Selects(t: Table, filter: Dict, key: string, a: Answer) {
    exists ids :: Lists(t, filter, key, a, ids)
  }

  lemma SelectSelects(t: Table, filter: Dict, key: string)
    requires Known(t, Keys(filter) + [key])
    ensures Selects(t, filter, key, SelectMeaning(t, filter, key))
  {
    hide SelectMeaning, Known;
    var ids := SelectExact(t, filter, key);
    assert Lists(t, filter, key, SelectMeaning(t, filter, key), ids);
  }

  function Settings(values: Dict): seq<Assignment> {
    seq(|values|, i requires 0 <= i < |values| => Assignment(values[i].0, Placeholder))
  }

  // The first row of the answer; none is not-found.
  function Fetched(a: Answer): Answer {
    if a.Answer? && a.rows == [] then Failure(a.table, Missing) else a
  }

  lemma TermsOfUpdate(values: Dict, extra: seq<Assignment>, id: int, now: int)
    requires Unbound(extra)
    ensures var terms, params := Terms(Settings(values) + extra), Values(values) + [Int(id)];
            && Placeholders(terms) == |values| && params[|values|] == Int(id)
            && Bind(terms, params, now) == Values(values + Fixed(extra, now))
    ensures Columns(Settings(values) + extra) == Keys(values + Fixed(extra, now))
  {
    assert Terms(Settings(values) + extra) == Marks(|values|) + Terms(extra);
    BindFixed(extra, [Int(id)], now);
    BindAll(|values|, Values(values), Terms(extra), [Int(id)], now);
    KeysAppend(values, Fixed(extra, now));
    assert Columns(Settings(values) + extra) == Keys(values) + Keys(Fixed(extra, now));
  }

  lemma UpdateRuns(t: Table, id: int, values: Dict, extra: seq<Assignment>, now: int)
    requires Unbound(extra) && Settings(values) + extra != []
    ensures Fetched(Exec(Update(Settings(values) + extra), Values(values) + [Int(id)], t, now)) ==
            UpdateMeaning(t, id, values, extra, now)
  {
    hide Defaults, Listing, Matching, Repeats, Known, Bind, Assign, Over, Stored;
    TermsOfUpdate(values, extra, id, now);
    assert |values + Fixed(extra, now)| == |Settings(values) + extra|;
    if id in t.rows { AssignIsOver(t.rows[id], values + Fixed(extra, now)); }
  }

  lemma SelectRuns(t: Table, filter: Dict, key: string)
    ensures forall now :: Exec(Select(Keys(filter), key), Values(filter), t, now) == SelectMeaning(t, filter, key)
  {
    hide Listing;
    var a := Matching(t, Keys(filter), Values(filter));
    var b := Agreeing(t, filter);
    forall id | id in t.rows ensures id in a <==> id in b {
      if id in a {
        forall k | k in filter ensures Equal(t.rows[id], k.0, k.1) {
          var i :| 0 <= i < |filter| && filter[i] == k;
          assert Equal(t.rows[id], Keys(filter)[i], Values(filter)[i]);
        }
      }
      if id in b {
        forall i | 0 <= i < |filter| ensures Equal(t.rows[id], Keys(filter)[i], Values(filter)[i]) {
          assert filter[i] in filter;
        }
      }
    }
    assert a == b;
  }

  // The statement of a dict and fixed columns means their insertion.
  lemma InsertRuns(t: Table, values: Dict, extra: seq<Assignment>, now: int)
    requires Unbound(extra)
    ensures Exec(Insert(Keys(values) + Columns(extra), Marks(|values|) + Terms(extra)), Values(values), t, now)
            == InsertMeaning(t, values, extra, now)
  {
    var d := values + Fixed(extra, now);
    var vals := Marks(|values|) + Terms(extra);
    BindFixed(extra, [], now);
    BindAll(|values|, Values(values), Terms(extra), [], now);
    assert Values(values) + [] == Values(values);
    KeysAppend(values, Fixed(extra, now));
    assert Keys(Fixed(extra, now)) == Columns(extra);
    assert Bind(vals, Values(values), now) == Values(d);
    hide Defaults, Listing, Matching, Stored;
    assert Keys(d) == Keys(values) + Columns(extra);
    AssignIsOver(Defaults(t, t.last + 1, now), d);
  }

  // ----- what the meanings say row by row

  predicate Sets(d: Dict, k: string) {
    exists i :: 0 <= i < |d| && d[i].0 == k
  }

  // The value a dict with distinct keys gives a column.
  function ValueOf(d: Dict, k: string): Value
    requires Sets(d, k)
  {
    if d[0].0 == k then d[0].1 else ValueOf(d[1..], k)
  }

  /** A written row has the dict's value in every column of the dict and what it had
      (or its default) everywhere else. */
  lemma {:induction false} OverReads(row: Row, d: Dict, k: string)
    requires DictKeys(d)
    ensures k in Over(row, d) <==> k in row || Sets(d, k)
    ensures k in Over(row, d) ==> Over(row, d)[k] == if Sets(d, k) then ValueOf(d, k) else row[k]
    decreases |d|
  {
    if d != [] {
      OverReads(row[d[0].0 := d[0].1], d[1..], k);
      assert Sets(d[1..], k) ==> Sets(d, k);
      assert Sets(d, k) && d[0].0 != k ==> Sets(d[1..], k) by {
        if Sets(d, k) && d[0].0 != k {
          var i :| 0 <= i < |d| && d[i].0 == k;
          assert d[1..][i - 1].0 == k;
        }
      }
    }
  }

  /** A select lists exactly the rows that hold the filter's value in each of its columns
      (a filter on NULL holds of none), each once, sorted on the column. */
  lemma SelectExact(t: Table, filter: Dict, key: string) returns (ids: seq<int>)
    requires Known(t, Keys(filter) + [key])
    ensures forall i, j | 0 <= i < j < |ids| :: ids[i] != ids[j]
    ensures forall id :: id in ids <==>
              id in t.rows && forall k | k in filter :: k.0 in t.rows[id] && k.1 != Null && t.rows[id][k.0] == k.1
    ensures var a := SelectMeaning(t, filter, key);
            && a.Answer? && a.table == t && |a.rows| == |ids|
            && (forall i | 0 <= i < |ids| :: ids[i] in t.rows && a.rows[i] == t.rows[ids[i]])
            && forall i, j | 0 <= i < j < |ids| ::
                 t.rank(if key in a.rows[i] then a.rows[i][key] else Null)
                 <= t.rank(if key in a.rows[j] then a.rows[j][key] else Null)
  {
    var chosen, keys := Agreeing(t, filter), SortKeys(t, key);
    ids := OrderBy(chosen, keys);
    assert forall id :: id in ids <==> id in Elements(ids);
    forall i, j | 0 <= i < j < |ids| ensures Before(keys, ids[i], ids[j]) {}
  }

  // Rows are filed under their own id.
  ghost predicate Numbered(t: Table) {
    forall id | id in t.rows :: RowId(t.rows[id]) == Some(id)
  }

  /** Every statement keeps rows filed under their ids, also one that writes an id. */
  lemma StaysNumbered(s: Stmt, params: seq<Value>, t: Table, now: int)
    requires Numbered(t)
    ensures Numbered(Exec(s, params, t, now).table)
  {
    hide Defaults, Listing, Matching, Repeats, Known, Bind, Assign;
  }

  /** Sorted on `id`, as every repository asks: strictly ascending ids. */
  lemma SelectInIdOrder(t: Table, filter: Dict) returns (ids: seq<int>)
    requires Known(t, Keys(filter) + ["id"]) && Numbered(t)
    requires forall m, n | m < n :: t.rank(Int(m)) < t.rank(Int(n))
    ensures forall i, j | 0 <= i < j < |ids| :: ids[i] < ids[j]
    ensures forall id :: id in ids <==>
              id in t.rows && forall k | k in filter :: k.0 in t.rows[id] && k.1 != Null && t.rows[id][k.0] == k.1
    ensures var a := SelectMeaning(t, filter, "id");
            && a.Answer? && a.table == t && |a.rows| == |ids|
            && forall i | 0 <= i < |ids| :: ids[i] in t.rows && a.rows[i] == t.rows[ids[i]]
  {
    ids := SelectExact(t, filter, "id");
    var a := SelectMeaning(t, filter, "id");
    hide SelectMeaning, Known;
    forall i, j | 0 <= i < j < |ids| ensures ids[i] < ids[j] {
      assert Cell(a.rows[i], "id") == Int(ids[i]) && Cell(a.rows[j], "id") == Int(ids[j]);
      assert t.rank(Int(ids[i])) <= t.rank(Int(ids[j]));
    }
  }

  /** An insertion that leaves the id to the sequence, where nothing lies beyond it, is
      filed under the next id; the only way to fail is the row's own constraints. */
  lemma InsertedNext(t: Table, d: Dict, row: Row)
    requires "id" !in Keys(d) && RowId(row) == Some(t.last + 1) && t.last + 1 !in t.rows
    ensures Stored(Drawn(t, Keys(d)), None, row) ==
            if t.accepts(row) then Answer(t.(rows := t.rows[t.last + 1 := row], last := t.last + 1), [row])
            else Failure(t.(last := t.last + 1), Violation)
  {
  }

  // An update that keeps the id stays where it is.
  lemma UpdatedInPlace(t: Table, id: int, row: Row)
    requires RowId(row) == Some(id)
    ensures Stored(t, Some(id), row) ==
            if t.accepts(row) then Answer(t.(rows := t.rows[id := row]), [row]) else Failure(t, Violation)
  {
  }
}
