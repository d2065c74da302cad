/** Dicts filled from optional values: the entries that were supplied are written, an
    omitted one leaves its column alone. */
module Supply {
  import opened Prelude
  import opened Sql

  function TextOf(s: Option<string>): Option<Value> {
    match s case None => None case Some(v) => Some(Text(v))
  }

  function IntOf(n: Option<int>): Option<Value> {
    match n case None => None case Some(v) => Some(Int(v))
  }

  type Optional = seq<(string, Option<Value>)>

  // The entries that were supplied, in order.
  function Supplied(optional: Optional): Dict {
    if optional == [] then [] else Entry(optional[0]) + Supplied(optional[1..])
  }

  function Entry(o: (string, Option<Value>)): Dict {
    if o.1.Some? then [(o.0, o.1.value)] else []
  }

  // ----- reading a written row

  lemma {:induction false} OverAppend(row: Row, a: Dict, b: Dict)
    ensures Over(row, a + b) == Over(Over(row, a), b)
    decreases |a|
  {
    if a == [] {
      assert a + b == b;
    } else {
      assert (a + b)[1..] == a[1..] + b;
      OverAppend(row[a[0].0 := a[0].1], a[1..], b);
    }
  }

  predicate DistinctNames(optional: Optional) {
    forall i, j | 0 <= i < j < |optional| :: optional[i].0 != optional[j].0
  }

  // A supplied flag is written, an omitted or unnamed column keeps its value.
  lemma {:induction false} OverFlags(row: Row, optional: Optional, k: string)
    requires DistinctNames(optional) && k in row
    ensures k in Over(row, Supplied(optional))
    ensures forall i | 0 <= i < |optional| && optional[i].0 == k ::
              Over(row, Supplied(optional))[k] == optional[i].1.Or(row[k])
    ensures (forall i | 0 <= i < |optional| :: optional[i].0 != k) ==>
              Over(row, Supplied(optional))[k] == row[k]
    decreases |optional|
  {
    if optional != [] {
      var o, rest := optional[0], optional[1..];
      assert forall i | 1 <= i < |optional| :: optional[i] == rest[i - 1];
      if o.1.Some? {
        var next := row[o.0 := o.1.value];
        assert Over(row, Supplied(optional)) == Over(next, Supplied(rest)) by {
          OverAppend(row, [(o.0, o.1.value)], Supplied(rest));
          OneOver(row, o.0, o.1.value);
        }
        OverFlags(next, rest, k);
      } else {
        assert Supplied(optional) == Supplied(rest);
        OverFlags(row, rest, k);
      }
    }
  }

  lemma OneOver(row: Row, k: string, v: Value)
    ensures Over(row, [(k, v)]) == row[k := v]
  {
    assert [(k, v)][1..] == [];
  }

  lemma {:induction false} OverUntouched(row: Row, d: Dict, k: string)
    requires k in row && forall i | 0 <= i < |d| :: d[i].0 != k
    ensures k in Over(row, d) && Over(row, d)[k] == row[k]
    decreases |d|
  {
    if d != [] { OverUntouched(row[d[0].0 := d[0].1], d[1..], k); }
  }

  // Adds the supplied entries to a dict one after the other; omitted ones leave no key.
  method Collect(head: Dict, optional: Optional) returns (values: Dict)
    ensures values == head + Supplied(optional)
  {
    values := head;
    for i := 0 to |optional|
      invariant values == head + Supplied(optional[..i])
    {
      PrefixSupplied(optional, i);
      var (key, value) := optional[i];
      if value.Some? { values := values + [(key, value.value)]; }
    }
    assert optional[..|optional|] == optional;
  }

  lemma {:induction false} SuppliedAppend(a: Optional, o: (string, Option<Value>))
    ensures Supplied(a + [o]) == Supplied(a) + Entry(o)
  {
    if a == [] {
      assert (a + [o])[1..] == [] && a + [o] == [o];
      assert Entry(o) + [] == [] + Entry(o);
    } else {
      assert (a + [o])[1..] == a[1..] + [o] && (a + [o])[0] == a[0];
      SuppliedAppend(a[1..], o);
      hide Entry;
      assert Entry(a[0]) + (Supplied(a[1..]) + Entry(o)) == Entry(a[0]) + Supplied(a[1..]) + Entry(o);
    }
  }

  // What the supplied entries are called.
  lemma {:induction false} SuppliedNames(optional: Optional)
    requires DistinctNames(optional)
    ensures DictKeys(Supplied(optional))
    ensures forall i | 0 <= i < |Supplied(optional)| ::
              exists j :: 0 <= j < |optional| && optional[j].0 == Supplied(optional)[i].0
  {
    if optional != [] {
      var rest := optional[1..];
      var d, tail := Supplied(optional), Supplied(rest);
      assert DistinctNames(rest);
      SuppliedNames(rest);
      var n := |Entry(optional[0])|;
      assert forall i | n <= i < |d| :: d[i] == tail[i - n];
      forall i | 0 <= i < |d| ensures exists j :: 0 <= j < |optional| && optional[j].0 == d[i].0 {
        if i < n {
          assert optional[0].0 == d[i].0;
        } else {
          var j :| 0 <= j < |rest| && rest[j].0 == tail[i - n].0;
          assert optional[j + 1].0 == d[i].0;
        }
      }
      forall i, j | 0 <= i < j < |d| ensures d[i].0 != d[j].0 {
        if i < n {
          var m :| 0 <= m < |rest| && rest[m].0 == tail[j - n].0;
          assert optional[m + 1] == rest[m];
        }
      }
    }
  }

  // A patch of supplied entries and fixed columns: no column twice, all of them known.
  lemma PatchWorks(t: Table, optional: Optional, fixed: Dict)
    requires DistinctNames(optional) && DictKeys(fixed)
    requires forall i | 0 <= i < |optional| :: optional[i].0 in t.defaults
    requires forall i | 0 <= i < |fixed| :: fixed[i].0 in t.defaults
    requires forall i, j | 0 <= i < |optional| && 0 <= j < |fixed| :: optional[i].0 != fixed[j].0
    ensures !Repeats(Keys(Supplied(optional) + fixed)) && Known(t, Keys(Supplied(optional) + fixed))
  {
    var d := Supplied(optional);
    SuppliedNames(optional);
    hide Supplied;
    forall i | 0 <= i < |d|
      ensures d[i].0 in t.defaults && forall j | 0 <= j < |fixed| :: d[i].0 != fixed[j].0
    {
      var m :| 0 <= m < |optional| && optional[m].0 == d[i].0;
    }
    hide *;
    AppendWorks(t, d, fixed);
  }

  // An insertion of supplied entries: and no column but those named.
  lemma FlagsWork(t: Table, optional: Optional, k: string)
    requires optional != [] && optional[0].1.Some?
    requires forall i, j | 0 <= i < j < |optional| :: optional[i].0 != optional[j].0
    requires forall i | 0 <= i < |optional| :: optional[i].0 in t.defaults && optional[i].0 != k
    ensures var d := Supplied(optional);
            d != [] && !Repeats(Keys(d)) && Known(t, Keys(d)) && k !in Keys(d)
  {
    var d := Supplied(optional);
    assert d != [] && DistinctNames(optional);
    SuppliedNames(optional);
    hide Supplied;
    forall i | 0 <= i < |d| ensures d[i].0 != k {
      var m :| 0 <= m < |optional| && optional[m].0 == d[i].0;
    }
    PatchWorks(t, optional, []);
    assert d + [] == d;
  }

  lemma AppendWorks(t: Table, a: Dict, b: Dict)
    requires DictKeys(a) && DictKeys(b)
    requires forall i | 0 <= i < |a| :: a[i].0 in t.defaults && forall j | 0 <= j < |b| :: a[i].0 != b[j].0
    requires forall i | 0 <= i < |b| :: b[i].0 in t.defaults
    ensures !Repeats(Keys(a + b)) && Known(t, Keys(a + b))
  {
    KeysAppend(a, b);
    assert forall i | 0 <= i < |b| :: Keys(a + b)[|a| + i] == b[i].0;
  }

  // ----- records as rows: one flag per name

  predicate Distinct(names: seq<string>) {
    forall i, j | 0 <= i < j < |names| :: names[i] != names[j]
  }

  function Flags(names: seq<string>, flag: string -> Option<Value>): Optional {
    seq(|names|, i requires 0 <= i < |names| => (names[i], flag(names[i])))
  }

  // Every column after the write: its flag if one was supplied, else what it was.
  lemma OverNamed(row: Row, names: seq<string>, flag: string -> Option<Value>)
    requires Distinct(names) && forall i | 0 <= i < |names| :: names[i] in row
    ensures Over(row, Supplied(Flags(names, flag))).Keys == row.Keys
    ensures forall k | k in row :: Over(row, Supplied(Flags(names, flag)))[k] ==
                                   if k in names then flag(k).Or(row[k]) else row[k]
  {
    var optional := Flags(names, flag);
    assert DistinctNames(optional);
    SuppliedNames(optional);
    forall i | 0 <= i < |Supplied(optional)| ensures Supplied(optional)[i].0 in row {
      var j :| 0 <= j < |optional| && optional[j].0 == Supplied(optional)[i].0;
    }
    OverSameKeys(row, Supplied(optional));
    forall k | k in row
      ensures Over(row, Supplied(optional))[k] == if k in names then flag(k).Or(row[k]) else row[k]
    {
      OverFlags(row, optional, k);
      if k in names {
        var i :| 0 <= i < |names| && names[i] == k;
        assert optional[i].0 == k;
      }
    }
  }

  lemma {:induction false} OverSameKeys(row: Row, d: Dict)
    requires forall i | 0 <= i < |d| :: d[i].0 in row
    ensures Over(row, d).Keys == row.Keys
    decreases |d|
  {
    if d != [] {
      assert row[d[0].0 := d[0].1].Keys == row.Keys;
      OverSameKeys(row[d[0].0 := d[0].1], d[1..]);
    }
  }

  lemma PrefixSupplied(optional: Optional, i: nat)
    requires i < |optional|
    ensures Supplied(optional[..i + 1]) == Supplied(optional[..i]) + Entry(optional[i])
  {
    assert optional[..i + 1] == optional[..i] + [optional[i]];
    SuppliedAppend(optional[..i], optional[i]);
  }

  // A dict that grows entry by entry.
  lemma PrefixesSupplied(optional: Optional)
    ensures Supplied(optional[..0]) == []
    ensures forall i | 0 <= i < |optional| ::
              Supplied(optional[..i + 1]) == Supplied(optional[..i]) + Entry(optional[i])
    ensures optional[..|optional|] == optional
  {
    forall i | 0 <= i < |optional|
      ensures Supplied(optional[..i + 1]) == Supplied(optional[..i]) + Entry(optional[i])
    {
      PrefixSupplied(optional, i);
    }
  }

  // What the dict holds for one key: this value, or nothing.
  ghost predicate Takes(d: Dict, key: string, v: Option<Value>) {
    match v
    case None => forall i | 0 <= i < |d| :: d[i].0 != key
    case Some(value) =>
      && (exists i :: 0 <= i < |d| && d[i] == (key, value))
      && forall i | 0 <= i < |d| && d[i].0 == key :: d[i].1 == value
  }

  lemma {:induction false} SuppliedTakes(optional: Optional)
    requires DistinctNames(optional)
    ensures forall j | 0 <= j < |optional| :: Takes(Supplied(optional), optional[j].0, optional[j].1)
  {
    if optional != [] {
      var rest, d, tail := optional[1..], Supplied(optional), Supplied(optional[1..]);
      SuppliedTakes(rest);
      SuppliedNames(rest);
      var n := |Entry(optional[0])|;
      assert d == Entry(optional[0]) + tail;
      assert forall i | 0 <= i < |tail| :: d[n + i] == tail[i];
      assert forall i | n <= i < |d| :: d[i] == tail[i - n];
      assert forall i | 0 <= i < |tail| :: tail[i].0 != optional[0].0 by {
        forall i | 0 <= i < |tail| ensures tail[i].0 != optional[0].0 {
          var m :| 0 <= m < |rest| && rest[m].0 == tail[i].0;
          assert optional[m + 1] == rest[m];
        }
      }
      forall j | 0 <= j < |optional| ensures Takes(d, optional[j].0, optional[j].1) {
        if j > 0 {
          assert optional[j] == rest[j - 1] && Takes(tail, rest[j - 1].0, rest[j - 1].1);
          TakesLater(optional[0], tail, optional[j].0, optional[j].1);
        } else if optional[0].1.Some? {
          assert d[0] == (optional[0].0, optional[0].1.value);
        }
      }
    }
  }

  lemma TakesLater(o: (string, Option<Value>), tail: Dict, key: string, v: Option<Value>)
    requires o.0 != key && Takes(tail, key, v)
    ensures Takes(Entry(o) + tail, key, v)
  {
    var d, n := Entry(o) + tail, |Entry(o)|;
    assert forall i | n <= i < |d| :: d[i] == tail[i - n];
    if v.Some? {
      var i :| 0 <= i < |tail| && tail[i] == (key, v.value);
      assert d[n + i] == (key, v.value);
    }
  }
}
