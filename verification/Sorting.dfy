/** ORDER BY and LIMIT. The order is a strict comparison that decides every two different rows a
    query can meet, which is why each query ends its ORDER BY with a unique column or ignores ties. */
module Sorting {

  /** ORDER BY: the rows, each put in front of the first one it precedes. */
  function Sort<T>(rows: seq<T>, precedes: (T, T) -> bool): seq<T> {
    if rows == [] then [] else Insert(Sort(rows[..|rows| - 1], precedes), rows[|rows| - 1], precedes)
  }

  function Insert<T>(sorted: seq<T>, x: T, precedes: (T, T) -> bool): seq<T> {
    if sorted == [] then [x]
    else
      var last := sorted[|sorted| - 1];
      if precedes(x, last) then Insert(sorted[..|sorted| - 1], x, precedes) + [last] else sorted + [x]
  }

  /** LIMIT n. */
  function Limit<T>(rows: seq<T>, n: nat): seq<T> { if |rows| <= n then rows else rows[..n] }

  lemma SortOne<T>(x: T, precedes: (T, T) -> bool, n: nat)
    requires n > 0
    ensures Limit(Sort([x], precedes), n) == [x]
  {
    assert Sort<T>([x][..0], precedes) == [];
  }

  ghost predicate WeakOrder<T(!new)>(precedes: (T, T) -> bool) {
    && (forall x, y, z :: precedes(x, y) && precedes(y, z) ==> precedes(x, z))
    && (forall x, y, z :: !precedes(y, x) && !precedes(z, y) ==> !precedes(z, x))
    && (forall x :: !precedes(x, x))
  }

  /** No row precedes an earlier one. */
  ghost predicate Ordered<T>(rows: seq<T>, precedes: (T, T) -> bool) {
    forall i, j :: 0 <= i < j < |rows| ==> !precedes(rows[j], rows[i])
  }

  /** Every row precedes every later one. */
  ghost predicate Ascending<T>(rows: seq<T>, precedes: (T, T) -> bool) {
    forall i, j :: 0 <= i < j < |rows| ==> precedes(rows[i], rows[j])
  }

  lemma {:induction false} InsertAdds<T>(sorted: seq<T>, x: T, precedes: (T, T) -> bool)
    ensures multiset(Insert(sorted, x, precedes)) == multiset(sorted) + multiset{x}
  {
    if sorted != [] {
      assert sorted == sorted[..|sorted| - 1] + [sorted[|sorted| - 1]];
      if precedes(x, sorted[|sorted| - 1]) { InsertAdds(sorted[..|sorted| - 1], x, precedes); }
    }
  }

  /** The last row precedes none of the rows before it, with x put among them. */
  lemma LastStays<T(!new)>(sorted: seq<T>, x: T, r: seq<T>, precedes: (T, T) -> bool)
    requires WeakOrder(precedes) && Ordered(sorted, precedes) && sorted != [] && precedes(x, sorted[|sorted| - 1])
    requires multiset(r) == multiset(sorted[..|sorted| - 1]) + multiset{x}
    ensures forall i :: 0 <= i < |r| ==> !precedes(sorted[|sorted| - 1], r[i])
  {
    forall i | 0 <= i < |r| ensures !precedes(sorted[|sorted| - 1], r[i]) {
      assert r[i] in multiset(r);
      if r[i] != x { assert r[i] in multiset(sorted[..|sorted| - 1]); }
    }
  }

  lemma {:induction false} InsertOrdered<T(!new)>(sorted: seq<T>, x: T, precedes: (T, T) -> bool)
    requires WeakOrder(precedes) && Ordered(sorted, precedes)
    ensures Ordered(Insert(sorted, x, precedes), precedes)
  {
    if sorted != [] {
      var rest, last := sorted[..|sorted| - 1], sorted[|sorted| - 1];
      if precedes(x, last) {
        InsertOrdered(rest, x, precedes);
        InsertAdds(rest, x, precedes);
        LastStays(sorted, x, Insert(rest, x, precedes), precedes);
      } else {
        AppendOrdered(sorted, x, precedes);
      }
    }
  }

  lemma AppendOrdered<T(!new)>(sorted: seq<T>, x: T, precedes: (T, T) -> bool)
    requires WeakOrder(precedes) && Ordered(sorted, precedes) && sorted != [] && !precedes(x, sorted[|sorted| - 1])
    ensures Ordered(sorted + [x], precedes)
  {
    assert forall i :: 0 <= i < |sorted| - 1 ==> !precedes(sorted[|sorted| - 1], sorted[i]);
  }

  lemma {:induction false} SortOrdered<T(!new)>(rows: seq<T>, precedes: (T, T) -> bool)
    requires WeakOrder(precedes)
    ensures Ordered(Sort(rows, precedes), precedes)
    ensures multiset(Sort(rows, precedes)) == multiset(rows)
    ensures |Sort(rows, precedes)| == |rows|
  {
    if rows != [] {
      var rest, last := rows[..|rows| - 1], rows[|rows| - 1];
      SortOrdered(rest, precedes);
      InsertOrdered(Sort(rest, precedes), last, precedes);
      InsertAdds(Sort(rest, precedes), last, precedes);
      assert rows == rest + [last];
    }
    assert |multiset(Sort(rows, precedes))| == |multiset(rows)|;
  }

  lemma SortMembers<T(!new)>(rows: seq<T>, precedes: (T, T) -> bool)
    requires WeakOrder(precedes)
    ensures forall x :: x in Sort(rows, precedes) <==> x in rows
  {
    SortOrdered(rows, precedes);
    forall x ensures x in Sort(rows, precedes) <==> x in rows {
      assert x in Sort(rows, precedes) <==> x in multiset(Sort(rows, precedes));
      assert x in rows <==> x in multiset(rows);
    }
  }

  /** The first row of a sorted result is one no other row precedes. */
  lemma SortHead<T(!new)>(rows: seq<T>, precedes: (T, T) -> bool)
    requires WeakOrder(precedes)
    ensures Sort(rows, precedes) == [] <==> rows == []
    ensures rows != [] ==> var h := Sort(rows, precedes)[0];
      h in rows && forall x :: x in rows ==> !precedes(x, h)
  {
    SortOrdered(rows, precedes);
    SortMembers(rows, precedes);
    var sorted := Sort(rows, precedes);
    if rows != [] {
      assert sorted[0] in sorted;
      forall x | x in rows ensures !precedes(x, sorted[0]) {
        var k :| 0 <= k < |sorted| && sorted[k] == x;
      }
    }
  }

  /** ORDER BY ... LIMIT n takes the first n: a row it leaves out precedes none it takes, and it
      leaves none out while there is room. */
  lemma LimitTakesFirst<T(!new)>(rows: seq<T>, precedes: (T, T) -> bool, n: nat)
    requires WeakOrder(precedes)
    ensures var taken := Limit(Sort(rows, precedes), n);
      && |taken| <= n && (forall x :: x in taken ==> x in rows)
      && forall x :: x in rows && x !in taken ==> |taken| == n && forall y :: y in taken ==> !precedes(x, y)
  {
    var sorted := Sort(rows, precedes);
    var taken := Limit(sorted, n);
    SortOrdered(rows, precedes);
    SortMembers(rows, precedes);
    assert forall i :: 0 <= i < |taken| ==> taken[i] == sorted[i] && taken[i] in taken && sorted[i] in sorted;
    forall x, y | x in rows && x !in taken && y in taken ensures !precedes(x, y) {
      var i :| 0 <= i < |sorted| && sorted[i] == x;
      var j :| 0 <= j < |taken| && taken[j] == y;
    }
  }

  ghost predicate Comparable<T>(x: T, y: T, precedes: (T, T) -> bool) { precedes(x, y) || precedes(y, x) }

  lemma {:induction false} InsertAscending<T(!new)>(sorted: seq<T>, x: T, precedes: (T, T) -> bool)
    requires WeakOrder(precedes) && Ascending(sorted, precedes)
    requires forall y :: y in sorted ==> Comparable(x, y, precedes)
    ensures Ascending(Insert(sorted, x, precedes), precedes)
    ensures forall y :: y in Insert(sorted, x, precedes) <==> y in sorted || y == x
  {
    if sorted != [] {
      var rest, last := sorted[..|sorted| - 1], sorted[|sorted| - 1];
      assert sorted == rest + [last];
      if precedes(x, last) {
        InsertAscending(rest, x, precedes);
        var r := Insert(rest, x, precedes);
        forall i | 0 <= i < |r| ensures precedes(r[i], last) { assert r[i] in r; }
      } else {
        assert Comparable(x, last, precedes);
        forall i | 0 <= i < |sorted| ensures precedes(sorted[i], x) {
          if i < |rest| { assert precedes(sorted[i], last); }
        }
      }
    }
  }

  /** Rows no two of which tie come out in strictly ascending order. */
  lemma {:induction false} SortAscending<T(!new)>(rows: seq<T>, precedes: (T, T) -> bool)
    requires WeakOrder(precedes)
    requires forall i, j :: 0 <= i < j < |rows| ==> Comparable(rows[j], rows[i], precedes)
    ensures Ascending(Sort(rows, precedes), precedes)
    ensures forall x :: x in Sort(rows, precedes) <==> x in rows
  {
    if rows != [] {
      var rest, last := rows[..|rows| - 1], rows[|rows| - 1];
      assert rows == rest + [last];
      SortAscending(rest, precedes);
      forall y | y in Sort(rest, precedes) ensures Comparable(last, y, precedes) {
        var i :| 0 <= i < |rest| && rest[i] == y;
        assert rows[i] == y;
      }
      InsertAscending(Sort(rest, precedes), last, precedes);
    }
  }

  lemma HeadIn<T>(s: seq<T>)
    ensures |s| > 0 ==> s[0] in s
  {
  }

  lemma AfterHead<T>(s: seq<T>, k: nat, precedes: (T, T) -> bool)
    requires Ascending(s, precedes) && k < |s|
    ensures k > 0 ==> precedes(s[0], s[k])
  {
  }

  /** A set of rows has only one strictly ascending listing. */
  lemma {:induction false} AscendingUnique<T(!new)>(a: seq<T>, b: seq<T>, precedes: (T, T) -> bool)
    requires WeakOrder(precedes) && Ascending(a, precedes) && Ascending(b, precedes)
    requires forall x :: x in a <==> x in b
    ensures a == b
  {
    if a == [] {
      HeadIn(b);
    } else {
      assert a[0] in a;
      assert b != [] && b[0] in b;
      var k :| 0 <= k < |b| && b[k] == a[0];
      var l :| 0 <= l < |a| && a[l] == b[0];
      AfterHead(b, k, precedes);
      AfterHead(a, l, precedes);
      assert a[0] == b[0];
      forall x ensures x in a[1..] <==> x in b[1..] {
        if x in a[1..] {
          var i :| 1 <= i < |a| && a[i] == x;
          assert precedes(a[0], x) && x in b;
          var j :| 0 <= j < |b| && b[j] == x;
          assert b[j] == b[1..][j - 1];
        }
        if x in b[1..] {
          var j :| 1 <= j < |b| && b[j] == x;
          assert precedes(b[0], x) && x in a;
          var i :| 0 <= i < |a| && a[i] == x;
          assert a[i] == a[1..][i - 1];
        }
      }
      AscendingUnique(a[1..], b[1..], precedes);
    }
  }

  ghost predicate NoRepeats<T>(rows: seq<T>) { forall i, j :: 0 <= i < j < |rows| ==> rows[i] != rows[j] }

  lemma LastRepeats<T>(rest: seq<T>, last: T)
    ensures NoRepeats(rest + [last]) <==> NoRepeats(rest) && last !in rest
  {
    var rows := rest + [last];
    if NoRepeats(rows) {
      forall i | 0 <= i < |rest| ensures rest[i] != last { assert rows[i] != rows[|rest|]; }
      forall i, j | 0 <= i < j < |rest| ensures rest[i] != rest[j] { assert rows[i] != rows[j]; }
    }
  }

  lemma {:induction false} RepeatsCounted<T>(rows: seq<T>)
    ensures NoRepeats(rows) <==> forall x :: x in rows ==> multiset(rows)[x] == 1
  {
    if rows != [] {
      var rest, last := rows[..|rows| - 1], rows[|rows| - 1];
      RepeatsCounted(rest);
      assert rows == rest + [last];
      assert forall x :: x in rest ==> x in multiset(rest) && x in rows;
      assert forall x :: multiset(rows)[x] == multiset(rest)[x] + if x == last then 1 else 0;
      LastRepeats(rest, last);
      if forall x :: x in rows ==> multiset(rows)[x] == 1 {
        assert forall x :: x in rest ==> multiset(rest)[x] >= 1;
        assert last in rows;
      }
    }
  }

  /** ORDER BY neither drops nor repeats a row. */
  lemma SortNoRepeats<T(!new)>(rows: seq<T>, precedes: (T, T) -> bool)
    requires WeakOrder(precedes) && NoRepeats(rows)
    ensures NoRepeats(Sort(rows, precedes))
  {
    SortOrdered(rows, precedes);
    SortMembers(rows, precedes);
    RepeatsCounted(rows);
    RepeatsCounted(Sort(rows, precedes));
  }

  // ---- Rows looked up by a numeric key ----

  predicate LeastOf(keys: set<nat>, m: nat) { m in keys && forall x :: x in keys ==> m <= x }

  lemma {:induction false} Least(keys: set<nat>)
    requires keys != {}
    ensures exists m :: LeastOf(keys, m)
    decreases |keys|
  {
    var x :| x in keys;
    var rest := keys - {x};
    if rest == {} {
      assert forall y :: y in keys ==> y == x || y in rest;
      assert LeastOf(keys, x);
    } else {
      Least(rest);
      var m :| LeastOf(rest, m);
      assert forall y :: y in keys ==> y == x || y in rest;
      assert LeastOf(keys, if x < m then x else m);
    }
  }

  /** ORDER BY id. */
  function KeysInOrder(keys: set<nat>): seq<nat>
    decreases |keys|
  {
    if keys == {} then []
    else
      Least(keys);
      var m :| LeastOf(keys, m);
      [m] + KeysInOrder(keys - {m})
  }

  lemma {:induction false} KeysAscending(keys: set<nat>)
    ensures forall e :: e in KeysInOrder(keys) <==> e in keys
    ensures forall i, j :: 0 <= i < j < |KeysInOrder(keys)| ==> KeysInOrder(keys)[i] < KeysInOrder(keys)[j]
    decreases |keys|
  {
    if keys != {} {
      var m := KeysInOrder(keys)[0];
      assert KeysInOrder(keys) == [m] + KeysInOrder(keys - {m}) && LeastOf(keys, m);
      KeysAscending(keys - {m});
      var rest := KeysInOrder(keys - {m});
      forall k | 0 <= k < |rest| ensures rest[k] > m {
        assert rest[k] in rest && rest[k] in keys - {m};
      }
      assert forall e :: e in keys ==> e == m || e in keys - {m};
    }
  }
}
