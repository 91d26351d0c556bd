/**
 * Queryset operations as functions on sequences of rows: listing a table,
 * narrowing by a predicate, chaining several narrowings, and ordering by a
 * field.
 */
module Query {
  import opened Entities
  import opened Ids

  /** The rows of `m` whose ids are in `keys`, least id first. */
  function RowsOf<T>(m: map<int, T>, keys: set<int>): seq<Saved<T>>
    requires keys <= m.Keys
    decreases keys
  {
    if keys == {} then []
    else
      var k := MinKey(keys);
      [Saved(k, m[k])] + RowsOf(m, keys - {k})
  }

  /** Each row of `RowsOf` is a row of `m` with its id in `keys`, in strictly ascending id order. */
  lemma {:induction false} RowsOfSound<T>(m: map<int, T>, keys: set<int>)
    requires keys <= m.Keys
    ensures forall i :: 0 <= i < |RowsOf(m, keys)| ==>
      RowsOf(m, keys)[i].id in keys && m[RowsOf(m, keys)[i].id] == RowsOf(m, keys)[i].value
    ensures forall i, j :: 0 <= i < j < |RowsOf(m, keys)| ==> RowsOf(m, keys)[i].id < RowsOf(m, keys)[j].id
    decreases keys
  {
    if keys != {} {
      var k := MinKey(keys);
      RowsOfSound(m, keys - {k});
      var tail := RowsOf(m, keys - {k});
      var r := RowsOf(m, keys);
      assert r == [Saved(k, m[k])] + tail;
      forall i | 0 <= i < |tail| ensures k < tail[i].id {
        assert tail[i].id in keys - {k};
      }
    }
  }

  /** Every row of `m` with its id in `keys` is in `RowsOf`. */
  lemma {:induction false} RowsOfComplete<T>(m: map<int, T>, keys: set<int>)
    requires keys <= m.Keys
    ensures forall id :: id in keys ==> Saved(id, m[id]) in RowsOf(m, keys)
    decreases keys
  {
    if keys != {} {
      var k := MinKey(keys);
      RowsOfComplete(m, keys - {k});
      var tail := RowsOf(m, keys - {k});
      assert RowsOf(m, keys) == [Saved(k, m[k])] + tail;
      forall id | id in keys ensures Saved(id, m[id]) in RowsOf(m, keys) {
        if id != k {
          assert id in keys - {k};
          assert Saved(id, m[id]) in tail;
        }
      }
    }
  }

  /** All rows of a table (`objects.all()`), by ascending id. */
  function Rows<T>(m: map<int, T>): (r: seq<Saved<T>>)
    ensures forall i :: 0 <= i < |r| ==> r[i].id in m && m[r[i].id] == r[i].value
    ensures forall id :: id in m ==> Saved(id, m[id]) in r
    ensures forall i, j :: 0 <= i < j < |r| ==> r[i].id < r[j].id
  {
    RowsOfSound(m, m.Keys);
    RowsOfComplete(m, m.Keys);
    RowsOf(m, m.Keys)
  }

  /** Two sequences with the same multiset of elements have the same members. */
  lemma SameMembers<T>(a: seq<T>, b: seq<T>)
    requires multiset(a) == multiset(b)
    ensures forall x :: x in a <==> x in b
  {
    forall x ensures x in a <==> x in b {
      assert x in a <==> x in multiset(a);
      assert x in b <==> x in multiset(b);
    }
  }

  /** `queryset.filter(...)`: the rows that `keep` accepts, in their order. */
  function Narrow<T>(rows: seq<T>, keep: T -> bool): seq<T>
    decreases |rows|
  {
    if rows == [] then []
    else (if keep(rows[0]) then [rows[0]] else []) + Narrow(rows[1..], keep)
  }

  /** Narrowing keeps exactly the accepted rows and never adds or repeats one. */
  lemma {:induction false} NarrowMembers<T>(rows: seq<T>, keep: T -> bool)
    ensures forall x :: x in Narrow(rows, keep) <==> x in rows && keep(x)
    ensures forall i :: 0 <= i < |Narrow(rows, keep)| ==> keep(Narrow(rows, keep)[i])
    ensures multiset(Narrow(rows, keep)) <= multiset(rows)
    decreases |rows|
  {
    if rows != [] {
      NarrowMembers(rows[1..], keep);
      assert rows == [rows[0]] + rows[1..];
    }
  }

  /** Narrowing by a predicate that accepts every row changes nothing. */
  lemma {:induction false} NarrowAll<T>(rows: seq<T>, keep: T -> bool)
    requires forall i :: 0 <= i < |rows| ==> keep(rows[i])
    ensures Narrow(rows, keep) == rows
    decreases |rows|
  {
    if rows != [] {
      NarrowAll(rows[1..], keep);
    }
  }

  /** Narrowing depends only on what the predicate says about each row. */
  lemma {:induction false} NarrowSame<T>(rows: seq<T>, p: T -> bool, q: T -> bool)
    requires forall i :: 0 <= i < |rows| ==> p(rows[i]) == q(rows[i])
    ensures Narrow(rows, p) == Narrow(rows, q)
    decreases |rows|
  {
    if rows != [] {
      NarrowSame(rows[1..], p, q);
    }
  }

  function Both<T>(p: T -> bool, q: T -> bool): T -> bool {
    x => p(x) && q(x)
  }

  /** Narrowing distributes over concatenation. */
  lemma {:induction false} NarrowAppend<T>(a: seq<T>, b: seq<T>, keep: T -> bool)
    ensures Narrow(a + b, keep) == Narrow(a, keep) + Narrow(b, keep)
    decreases |a|
  {
    if a != [] {
      assert (a + b)[1..] == a[1..] + b;
      NarrowAppend(a[1..], b, keep);
    } else {
      assert a + b == b;
    }
  }

  /** Two narrowings in a row are one narrowing by the conjunction. */
  lemma {:induction false} NarrowNarrow<T>(rows: seq<T>, p: T -> bool, q: T -> bool)
    ensures Narrow(Narrow(rows, p), q) == Narrow(rows, Both(p, q))
    decreases |rows|
  {
    if rows != [] {
      NarrowNarrow(rows[1..], p, q);
      var head := if p(rows[0]) then [rows[0]] else [];
      NarrowAppend(head, Narrow(rows[1..], p), q);
      if p(rows[0]) {
        assert head[1..] == [];
        assert Narrow(head, q) == (if q(rows[0]) then [rows[0]] else []) + Narrow([], q);
      }
    }
  }

  /** The conjunction of a list of predicates. */
  function AllOf<T>(tests: seq<T -> bool>): T -> bool {
    x => forall i :: 0 <= i < |tests| ==> tests[i](x)
  }

  /** A filter set applies its filters one after the other, each narrowing the queryset. */
  function Chain<T>(rows: seq<T>, tests: seq<T -> bool>): seq<T>
    decreases |tests|
  {
    if tests == [] then rows else Chain(Narrow(rows, tests[0]), tests[1..])
  }

  /** Chained filters combine by AND: the chain keeps exactly the rows that pass every test. */
  lemma {:induction false} ChainIsConjunction<T>(rows: seq<T>, tests: seq<T -> bool>)
    ensures Chain(rows, tests) == Narrow(rows, AllOf(tests))
    decreases |tests|
  {
    if tests == [] {
      NarrowAll(rows, AllOf(tests));
    } else {
      ChainIsConjunction(Narrow(rows, tests[0]), tests[1..]);
      NarrowNarrow(rows, tests[0], AllOf(tests[1..]));
      var both := Both(tests[0], AllOf(tests[1..]));
      forall k | 0 <= k < |rows| ensures both(rows[k]) == AllOf(tests)(rows[k]) {
        var x := rows[k];
        if AllOf(tests)(x) {
          forall i | 0 <= i < |tests| - 1 ensures tests[1..][i](x) {
            assert tests[1..][i] == tests[i + 1];
          }
        }
        if both(x) {
          forall i | 0 <= i < |tests| ensures tests[i](x) {
            if i > 0 { assert tests[i] == tests[1..][i - 1]; }
          }
        }
      }
      NarrowSame(rows, both, AllOf(tests));
    }
  }

  /** Applying the same narrowing twice equals applying it once. */
  lemma {:induction false} NarrowIdempotent<T>(rows: seq<T>, keep: T -> bool)
    ensures Narrow(Narrow(rows, keep), keep) == Narrow(rows, keep)
  {
    NarrowMembers(rows, keep);
    NarrowAll(Narrow(rows, keep), keep);
  }

  /** A sort key: SQL NULL sorts before numbers, numbers before text. */
  datatype Key = NullKey | NumKey(n: int) | TextKey(s: string)

  /** Lexicographic order on strings by character code. */
  predicate TextLe(a: string, b: string)
    decreases |a|
  {
    a == [] || (b != [] && (a[0] < b[0] || (a[0] == b[0] && TextLe(a[1..], b[1..]))))
  }

  lemma {:induction false} TextLeTotal(a: string, b: string)
    ensures TextLe(a, b) || TextLe(b, a)
    decreases |a|
  {
    if a != [] && b != [] && a[0] == b[0] {
      TextLeTotal(a[1..], b[1..]);
    }
  }

  predicate KeyLe(a: Key, b: Key) {
    match (a, b)
    case (NullKey, _) => true
    case (_, NullKey) => false
    case (NumKey(x), NumKey(y)) => x <= y
    case (NumKey(_), TextKey(_)) => true
    case (TextKey(_), NumKey(_)) => false
    case (TextKey(x), TextKey(y)) => TextLe(x, y)
  }

  /** `a` may come before `b` in ascending, or with `descending` in descending, order. */
  predicate InOrder(a: Key, b: Key, descending: bool) {
    if descending then KeyLe(b, a) else KeyLe(a, b)
  }

  lemma InOrderTotal(a: Key, b: Key, descending: bool)
    ensures InOrder(a, b, descending) || InOrder(b, a, descending)
  {
    if a.TextKey? && b.TextKey? {
      TextLeTotal(a.s, b.s);
    }
  }

  /** Neighbouring rows are in order of their keys. */
  predicate SortedBy<T>(rows: seq<T>, key: T -> Key, descending: bool) {
    forall i :: 0 < i < |rows| ==> InOrder(key(rows[i - 1]), key(rows[i]), descending)
  }

  /** Insertion of one row in front of the first row it may precede. */
  function Insert<T>(x: T, rows: seq<T>, key: T -> Key, descending: bool): (r: seq<T>)
    ensures multiset(r) == multiset(rows) + multiset{x}
    ensures |r| == |rows| + 1
    ensures r[0] == x || (rows != [] && r[0] == rows[0])
    decreases |rows|
  {
    if rows == [] then [x]
    else if InOrder(key(x), key(rows[0]), descending) then [x] + rows
    else
      assert rows == [rows[0]] + rows[1..];
      [rows[0]] + Insert(x, rows[1..], key, descending)
  }

  /** Insertion into a sorted sequence keeps it sorted. */
  lemma {:induction false} InsertKeepsSorted<T>(x: T, rows: seq<T>, key: T -> Key, descending: bool)
    requires SortedBy(rows, key, descending)
    ensures SortedBy(Insert(x, rows, key, descending), key, descending)
    decreases |rows|
  {
    if rows != [] && !InOrder(key(x), key(rows[0]), descending) {
      InOrderTotal(key(x), key(rows[0]), descending);
      InsertKeepsSorted(x, rows[1..], key, descending);
      var tail := Insert(x, rows[1..], key, descending);
      var r := [rows[0]] + tail;
      forall i | 0 < i < |r| ensures InOrder(key(r[i - 1]), key(r[i]), descending) {
        if i > 1 {
          assert r[i - 1] == tail[i - 2] && r[i] == tail[i - 1];
        }
      }
    }
  }

  /** `queryset.order_by(field)`: the same rows, ordered by the field's key. */
  function SortBy<T>(rows: seq<T>, key: T -> Key, descending: bool): (r: seq<T>)
    ensures multiset(r) == multiset(rows)
    ensures SortedBy(r, key, descending)
    decreases |rows|
  {
    if rows == [] then []
    else
      assert rows == [rows[0]] + rows[1..];
      var tail := SortBy(rows[1..], key, descending);
      InsertKeepsSorted(rows[0], tail, key, descending);
      Insert(rows[0], tail, key, descending)
  }
}
