/** ORDER BY over rows named by id. A sort key is a pair of integers and the id
    breaks ties, which covers every ordering the repositories ask for:
    `groom_rank ASC NULLS LAST, id`, `at, id`, `started_at DESC, id DESC`, `id`.
    Since the order is total the result does not depend on how the rows lie in
    the table, which is what the lemmas below exploit. */
module Ordering {

  type Keys = map<int, (int, int)>

  predicate Before(keys: Keys, a: int, b: int)
    requires a in keys && b in keys
  {
    || keys[a].0 < keys[b].0
    || (keys[a].0 == keys[b].0 && keys[a].1 < keys[b].1)
    || (keys[a].0 == keys[b].0 && keys[a].1 == keys[b].1 && a < b)
  }

  ghost predicate Ascending(keys: Keys, s: seq<int>) {
    && (forall i | 0 <= i < |s| :: s[i] in keys)
    && forall i, j | 0 <= i < j < |s| :: Before(keys, s[i], s[j])
  }

  function Elements<T>(s: seq<T>): set<T> {
    set x | x in s
  }

  ghost predicate IsFirst(ids: set<int>, keys: Keys, m: int)
    requires ids <= keys.Keys
  {
    m in ids && forall b | b in ids && b != m :: Before(keys, m, b)
  }

  lemma {:induction false} FirstExists(ids: set<int>, keys: Keys) returns (m: int)
    requires ids != {} && ids <= keys.Keys
    ensures IsFirst(ids, keys, m)
  {
    assert (forall y :: y !in ids) ==> ids == {};
    var x :| x in ids;
    if ids == {x} {
      m := x;
    } else {
      var rest := ids - {x};
      assert rest == {} ==> ids == {x};
      var r := FirstExists(rest, keys);
      m := if Before(keys, x, r) then x else r;
      assert ids == rest + {x};
    }
  }

  function First(ids: set<int>, keys: Keys): (m: int)
    requires ids != {} && ids <= keys.Keys
    ensures IsFirst(ids, keys, m)
  {
    ghost var _ := FirstIs(ids, keys);
    var m :| m in ids && forall b | b in ids && b != m :: Before(keys, m, b);
    m
  }

  // Witness for the choice in First.
  ghost function FirstIs(ids: set<int>, keys: Keys): (m: int)
    requires ids != {} && ids <= keys.Keys
    ensures IsFirst(ids, keys, m)
  {
    assert exists m :: IsFirst(ids, keys, m) by {
      var m := FirstExists(ids, keys);
    }
    var m :| IsFirst(ids, keys, m);
    m
  }

  function OrderBy(ids: set<int>, keys: Keys): (s: seq<int>)
    requires ids <= keys.Keys
    ensures Elements(s) == ids
    ensures Ascending(keys, s)
  {
    if ids == {} then []
    else
      var m := First(ids, keys);
      var rest := OrderBy(ids - {m}, keys);
      assert forall i | 0 <= i < |rest| :: rest[i] in Elements(rest);
      ElementsPrepend(m, rest);
      [m] + rest
  }

  // A strictly ascending listing of a set of rows is unique.
  lemma {:induction false} AscendingUnique(keys: Keys, a: seq<int>, b: seq<int>)
    requires Ascending(keys, a) && Ascending(keys, b)
    requires Elements(a) == Elements(b)
    ensures a == b
  {
    ElementsEmpty(a);
    ElementsEmpty(b);
    if a != [] {
      assert a[0] in Elements(b) && b[0] in Elements(a);
      var i :| 0 <= i < |b| && b[i] == a[0];
      var j :| 0 <= j < |a| && a[j] == b[0];
      assert a[0] == b[0];
      TailElements(keys, a);
      TailElements(keys, b);
      AscendingUnique(keys, a[1..], b[1..]);
    }
  }

  lemma TailElements(keys: Keys, a: seq<int>)
    requires Ascending(keys, a) && a != []
    ensures Ascending(keys, a[1..]) && Elements(a[1..]) == Elements(a) - {a[0]}
  {
    forall x | x in Elements(a) - {a[0]} ensures x in a[1..] {
      var i :| 0 <= i < |a| && a[i] == x;
      assert a[1..][i - 1] == x;
    }
  }

  // Any ascending listing of the rows is the ORDER BY result.
  lemma OrderByIs(ids: set<int>, keys: Keys, s: seq<int>)
    requires ids <= keys.Keys
    requires Ascending(keys, s) && Elements(s) == ids
    ensures OrderBy(ids, keys) == s
  {
    AscendingUnique(keys, OrderBy(ids, keys), s);
  }

  // ----- WHERE on an ordered listing

  function Keep<T(==)>(s: seq<T>, keep: set<T>): (r: seq<T>)
    ensures Elements(r) == Elements(s) * keep
    ensures |r| <= |s|
  {
    if s == [] then []
    else if s[0] in keep then
      ElementsPrepend(s[0], Keep(s[1..], keep)); ElementsPrepend(s[0], s[1..]); assert s == [s[0]] + s[1..];
      [s[0]] + Keep(s[1..], keep)
    else
      ElementsPrepend(s[0], s[1..]); assert s == [s[0]] + s[1..];
      Keep(s[1..], keep)
  }

  function Without<T(==)>(s: seq<T>, drop: set<T>): (r: seq<T>)
    ensures Elements(r) == Elements(s) - drop
    ensures |r| <= |s|
  {
    if s == [] then []
    else if s[0] in drop then
      ElementsPrepend(s[0], s[1..]); assert s == [s[0]] + s[1..];
      Without(s[1..], drop)
    else
      ElementsPrepend(s[0], Without(s[1..], drop)); ElementsPrepend(s[0], s[1..]); assert s == [s[0]] + s[1..];
      [s[0]] + Without(s[1..], drop)
  }

  lemma {:induction false} KeepAscending(keys: Keys, s: seq<int>, keep: set<int>)
    requires Ascending(keys, s)
    ensures Ascending(keys, Keep(s, keep))
  {
    if s != [] {
      KeepAscending(keys, s[1..], keep);
      var rest := Keep(s[1..], keep);
      forall i | 0 <= i < |rest| ensures Before(keys, s[0], rest[i]) {
        assert rest[i] in Elements(rest);
        var j :| 0 <= j < |s[1..]| && s[1..][j] == rest[i];
        assert Before(keys, s[0], s[j + 1]);
      }
    }
  }

  lemma {:induction false} WithoutNothing<T>(s: seq<T>, drop: set<T>)
    requires forall x | x in s :: x !in drop
    ensures Without(s, drop) == s
  {
    if s != [] { WithoutNothing(s[1..], drop); }
  }

  lemma {:induction false} KeepAppend<T>(s: seq<T>, x: T, keep: set<T>)
    ensures Keep(s + [x], keep) == if x in keep then Keep(s, keep) + [x] else Keep(s, keep)
  {
    if s == [] {
      assert [x][1..] == [];
    } else {
      KeepAppend(s[1..], x, keep);
      assert (s + [x])[1..] == s[1..] + [x];
    }
  }

  lemma {:induction false} WithoutIsKeep<T>(s: seq<T>, drop: set<T>, keep: set<T>)
    requires forall x | x in s :: x in keep <==> x !in drop
    ensures Without(s, drop) == Keep(s, keep)
  {
    if s != [] {
      WithoutIsKeep(s[1..], drop, keep);
    }
  }

  // Filtering after sorting is sorting after filtering.
  lemma KeepOrderBy(ids: set<int>, keys: Keys, keep: set<int>)
    requires ids <= keys.Keys
    ensures Keep(OrderBy(ids, keys), keep) == OrderBy(ids * keep, keys)
  {
    KeepAscending(keys, OrderBy(ids, keys), keep);
    OrderByIs(ids * keep, keys, Keep(OrderBy(ids, keys), keep));
  }

  lemma WithoutOrderBy(ids: set<int>, keys: Keys, drop: set<int>)
    requires ids <= keys.Keys
    ensures Without(OrderBy(ids, keys), drop) == OrderBy(ids - drop, keys)
  {
    WithoutIsKeep(OrderBy(ids, keys), drop, ids - drop) by {
      forall x | x in OrderBy(ids, keys) ensures x in ids - drop <==> x !in drop {
        assert x in Elements(OrderBy(ids, keys));
      }
    }
    KeepOrderBy(ids, keys, ids - drop);
    assert ids * (ids - drop) == ids - drop;
  }

  // Only the keys of the listed rows matter.
  lemma AgreeOrderBy(ids: set<int>, k1: Keys, k2: Keys)
    requires ids <= k1.Keys && ids <= k2.Keys
    requires forall x | x in ids :: k1[x] == k2[x]
    ensures OrderBy(ids, k1) == OrderBy(ids, k2)
  {
    var s := OrderBy(ids, k1);
    forall i | 0 <= i < |s| ensures s[i] in ids { assert s[i] in Elements(s); }
    OrderByIs(ids, k2, s);
  }

  // A row that sorts after all the others is listed last ...
  lemma AppendOrderBy(ids: set<int>, keys: Keys, x: int)
    requires ids <= keys.Keys && x in keys && x !in ids
    requires forall y | y in ids :: Before(keys, y, x)
    ensures OrderBy(ids + {x}, keys) == OrderBy(ids, keys) + [x]
  {
    var s := OrderBy(ids, keys);
    forall i | 0 <= i < |s| ensures s[i] in ids { assert s[i] in Elements(s); }
    ElementsAppend(s, x);
    OrderByIs(ids + {x}, keys, s + [x]);
  }

  // ... and one that sorts before them, first.
  lemma PrependOrderBy(ids: set<int>, keys: Keys, x: int)
    requires ids <= keys.Keys && x in keys && x !in ids
    requires forall y | y in ids :: Before(keys, x, y)
    ensures OrderBy(ids + {x}, keys) == [x] + OrderBy(ids, keys)
  {
    var s := OrderBy(ids, keys);
    forall i | 0 <= i < |s| ensures s[i] in ids { assert s[i] in Elements(s); }
    ElementsPrepend(x, s);
    OrderByIs(ids + {x}, keys, [x] + s);
  }

  // ----- merging two listings

  function MergeIds(keys: Keys, a: seq<int>, b: seq<int>): seq<int>
    requires (forall x | x in a :: x in keys) && (forall x | x in b :: x in keys)
  {
    if a == [] then b
    else if b == [] then a
    else if Before(keys, a[0], b[0]) then [a[0]] + MergeIds(keys, a[1..], b)
    else [b[0]] + MergeIds(keys, a, b[1..])
  }

  // Two ascending listings without a common row merge into one.
  lemma {:induction false} MergeAscending(keys: Keys, a: seq<int>, b: seq<int>)
    requires Ascending(keys, a) && Ascending(keys, b) && forall x | x in a :: x !in b
    ensures (forall x | x in a :: x in keys) && (forall x | x in b :: x in keys)
    ensures Ascending(keys, MergeIds(keys, a, b))
    ensures forall x :: x in MergeIds(keys, a, b) <==> x in a || x in b
  {
    if a != [] && b != [] {
      assert a[0] in a && b[0] in b;
      if Before(keys, a[0], b[0]) {
        MergeAscending(keys, a[1..], b);
        HeadFirst(keys, a, b, MergeIds(keys, a[1..], b));
      } else {
        MergeAscending(keys, a, b[1..]);
        HeadFirst(keys, b, a, MergeIds(keys, a, b[1..]));
      }
    }
  }

  // The smaller head may be put before the merged rest.
  lemma HeadFirst(keys: Keys, a: seq<int>, b: seq<int>, rest: seq<int>)
    requires Ascending(keys, a) && Ascending(keys, b) && a != [] && b != []
    requires a[0] != b[0] && !Before(keys, b[0], a[0])
    requires Ascending(keys, rest) && forall x :: x in rest <==> x in a[1..] || x in b
    ensures Ascending(keys, [a[0]] + rest)
    ensures forall x :: x in [a[0]] + rest <==> x in a || x in b
  {
    forall i | 0 <= i < |rest| ensures Before(keys, a[0], rest[i]) {
      assert rest[i] in rest;
      if rest[i] in a[1..] {
        var k :| 0 <= k < |a[1..]| && a[1..][k] == rest[i];
        assert Before(keys, a[0], a[k + 1]);
      } else {
        var k :| 0 <= k < |b| && b[k] == rest[i];
        assert k == 0 || Before(keys, b[0], b[k]);
      }
    }
    assert a == [a[0]] + a[1..];
  }

  lemma ElementsEmpty<T>(s: seq<T>)
    ensures Elements(s) == {} <==> s == []
  {
    if s != [] { assert s[0] in Elements(s); }
  }

  lemma ElementsPrepend<T>(x: T, s: seq<T>)
    ensures Elements([x] + s) == {x} + Elements(s)
  {
    assert forall y | y in s :: y in [x] + s;
  }

  lemma ElementsAppend<T>(s: seq<T>, x: T)
    ensures Elements(s + [x]) == Elements(s) + {x}
  {
    assert forall y | y in Elements(s) + {x} :: y in s + [x];
  }
}
