/** What a SQL statement over one table means: a table is the sequence of its rows in insertion
    order, and a statement is a WHERE predicate with, for an UPDATE, the new row. */
module Tables {

  datatype Option<+T> = None | Some(value: T)

  /** SELECT * FROM rows WHERE p. */
  function Where<T>(rows: seq<T>, p: T -> bool): seq<T> {
    if rows == [] then []
    else
      var last := rows[|rows| - 1];
      Where(rows[..|rows| - 1], p) + if p(last) then [last] else []
  }

  /** DELETE FROM rows WHERE p: the rows that stay. */
  function Delete<T>(rows: seq<T>, p: T -> bool): seq<T> {
    if rows == [] then []
    else
      var last := rows[|rows| - 1];
      Delete(rows[..|rows| - 1], p) + if p(last) then [] else [last]
  }

  /** UPDATE rows SET f WHERE p. */
  function Update<T>(rows: seq<T>, p: T -> bool, f: T -> T): seq<T> {
    if rows == [] then []
    else
      var last := rows[|rows| - 1];
      Update(rows[..|rows| - 1], p, f) + [if p(last) then f(last) else last]
  }

  /** The rows after SET f, with no WHERE. */
  function Apply<S, T>(rows: seq<S>, f: S -> T): seq<T> {
    if rows == [] then [] else Apply(rows[..|rows| - 1], f) + [f(rows[|rows| - 1])]
  }

  /** RowsAffected of a statement with this WHERE. */
  function Count<T>(rows: seq<T>, p: T -> bool): nat { |Where(rows, p)| }

  lemma {:induction false} WhereMembers<T(!new)>(rows: seq<T>, p: T -> bool)
    ensures forall x :: x in Where(rows, p) <==> x in rows && p(x)
  {
    if rows != [] {
      WhereMembers(rows[..|rows| - 1], p);
      assert rows == rows[..|rows| - 1] + [rows[|rows| - 1]];
    }
  }

  lemma {:induction false} DeleteMembers<T(!new)>(rows: seq<T>, p: T -> bool)
    ensures forall x :: x in Delete(rows, p) <==> x in rows && !p(x)
  {
    if rows != [] {
      DeleteMembers(rows[..|rows| - 1], p);
      assert rows == rows[..|rows| - 1] + [rows[|rows| - 1]];
    }
  }

  lemma {:induction false} UpdateAt<T(!new)>(rows: seq<T>, p: T -> bool, f: T -> T)
    ensures |Update(rows, p, f)| == |rows|
    ensures forall i :: 0 <= i < |rows| ==>
      Update(rows, p, f)[i] == if p(rows[i]) then f(rows[i]) else rows[i]
  {
    if rows != [] {
      UpdateAt(rows[..|rows| - 1], p, f);
    }
  }

  lemma {:induction false} WhereAppend<T>(a: seq<T>, b: seq<T>, p: T -> bool)
    ensures Where(a + b, p) == Where(a, p) + Where(b, p)
  {
    if b == [] {
      assert a + b == a;
    } else {
      WhereAppend(a, b[..|b| - 1], p);
      assert (a + b)[..|a + b| - 1] == a + b[..|b| - 1];
    }
  }

  lemma {:induction false} WhereNone<T>(rows: seq<T>, p: T -> bool)
    requires forall i :: 0 <= i < |rows| ==> !p(rows[i])
    ensures Where(rows, p) == []
  {
    if rows != [] { WhereNone(rows[..|rows| - 1], p); }
  }

  lemma {:induction false} DeleteNone<T>(rows: seq<T>, p: T -> bool)
    requires forall i :: 0 <= i < |rows| ==> !p(rows[i])
    ensures Delete(rows, p) == rows
  {
    if rows != [] { DeleteNone(rows[..|rows| - 1], p); }
  }

  /** A WHERE that touches no row changes nothing. */
  lemma {:induction false} UpdateNone<T>(rows: seq<T>, p: T -> bool, f: T -> T)
    requires Count(rows, p) == 0
    ensures Update(rows, p, f) == rows
  {
    if rows != [] {
      UpdateNone(rows[..|rows| - 1], p, f);
    }
  }

  /** SELECT SUM(w) FROM rows. */
  function Sum<T>(rows: seq<T>, w: T -> int): int {
    if rows == [] then 0 else Sum(rows[..|rows| - 1], w) + w(rows[|rows| - 1])
  }

  lemma SumAppend<T>(rows: seq<T>, x: T, w: T -> int)
    ensures Sum(rows + [x], w) == Sum(rows, w) + w(x)
  {
  }

  lemma ApplyAppend<S, T>(rows: seq<S>, x: S, f: S -> T)
    ensures Apply(rows + [x], f) == Apply(rows, f) + [f(x)]
  {
  }

  /** An UPDATE moves a sum by what it moves on the rows it matches. */
  lemma {:induction false} SumUpdate<T>(rows: seq<T>, p: T -> bool, f: T -> T, w: T -> int)
    ensures Sum(Update(rows, p, f), w) ==
      Sum(rows, w) - Sum(Where(rows, p), w) + Sum(Apply(Where(rows, p), f), w)
  {
    if rows != [] {
      var rest, last := rows[..|rows| - 1], rows[|rows| - 1];
      SumUpdate(rest, p, f, w);
      SumAppend(Update(rest, p, f), if p(last) then f(last) else last, w);
      if p(last) {
        SumAppend(Where(rest, p), last, w);
        ApplyAppend(Where(rest, p), last, f);
        SumAppend(Apply(Where(rest, p), f), f(last), w);
      } else {
        assert Where(rows, p) == Where(rest, p);
      }
    }
  }

  /** An UPDATE that leaves every matched row's worth alone leaves the sum alone. */
  lemma {:induction false} SumUpdateSame<T>(rows: seq<T>, p: T -> bool, f: T -> T, w: T -> int)
    requires forall i :: 0 <= i < |rows| && p(rows[i]) ==> w(f(rows[i])) == w(rows[i])
    ensures Sum(Update(rows, p, f), w) == Sum(rows, w)
  {
    if rows != [] {
      var rest, last := rows[..|rows| - 1], rows[|rows| - 1];
      SumUpdateSame(rest, p, f, w);
      SumAppend(Update(rest, p, f), if p(last) then f(last) else last, w);
    }
  }

  /** An UPDATE after which the matched rows are worth nothing takes their sum away. */
  lemma {:induction false} SumUpdateClear<T>(rows: seq<T>, p: T -> bool, f: T -> T, w: T -> int)
    requires forall i :: 0 <= i < |rows| && p(rows[i]) ==> w(f(rows[i])) == 0
    ensures Sum(Update(rows, p, f), w) == Sum(rows, w) - Sum(Where(rows, p), w)
  {
    if rows != [] {
      var rest, last := rows[..|rows| - 1], rows[|rows| - 1];
      SumUpdateClear(rest, p, f, w);
      SumAppend(Update(rest, p, f), if p(last) then f(last) else last, w);
      if p(last) {
        SumAppend(Where(rest, p), last, w);
      } else {
        assert Where(rows, p) == Where(rest, p);
      }
    }
  }

  /** What an UPDATE can have put in the table. */
  lemma UpdateMembers<T(!new)>(rows: seq<T>, p: T -> bool, f: T -> T)
    ensures forall x :: x in Update(rows, p, f) ==>
      exists y :: y in rows && x == if p(y) then f(y) else y
  {
  }

  lemma UpdateHas<T(!new)>(rows: seq<T>, p: T -> bool, f: T -> T, x: T)
    requires x in rows
    ensures (if p(x) then f(x) else x) in Update(rows, p, f)
  {
  }

  /** A DELETE takes exactly the sums of the rows it removes. */
  lemma {:induction false} SumDelete<T>(rows: seq<T>, p: T -> bool, w: T -> int)
    ensures Sum(Delete(rows, p), w) == Sum(rows, w) - Sum(Where(rows, p), w)
  {
    if rows != [] {
      var rest, last := rows[..|rows| - 1], rows[|rows| - 1];
      SumDelete(rest, p, w);
      if p(last) {
        assert Delete(rows, p) == Delete(rest, p);
        SumAppend(Where(rest, p), last, w);
      } else {
        assert Where(rows, p) == Where(rest, p);
        SumAppend(Delete(rest, p), last, w);
      }
    }
  }

  lemma {:induction false} SumZero<T>(rows: seq<T>, w: T -> int)
    requires forall i :: 0 <= i < |rows| ==> w(rows[i]) == 0
    ensures Sum(rows, w) == 0
  {
    if rows != [] {
      SumZero(rows[..|rows| - 1], w);
      assert w(rows[|rows| - 1]) == 0;
    }
  }

  lemma {:induction false} SumNonNegative<T>(rows: seq<T>, w: T -> int)
    requires forall i :: 0 <= i < |rows| ==> w(rows[i]) >= 0
    ensures Sum(rows, w) >= 0
  {
    if rows != [] {
      SumNonNegative(rows[..|rows| - 1], w);
      assert w(rows[|rows| - 1]) >= 0;
    }
  }

  /** Selected rows of a non-negative column never add up to more than the whole table. */
  lemma {:induction false} SumWhereAtMost<T(!new)>(rows: seq<T>, p: T -> bool, w: T -> int)
    requires forall x :: w(x) >= 0
    ensures Sum(Where(rows, p), w) <= Sum(rows, w)
  {
    SumDelete(rows, p, w);
    SumNonNegative(Delete(rows, p), w);
  }

  lemma SumOne<T>(x: T, w: T -> int)
    ensures Sum([x], w) == w(x)
  {
  }

  /** An UPDATE that matches one row. */
  lemma SumUpdateOne<T>(rows: seq<T>, p: T -> bool, f: T -> T, w: T -> int, x: T)
    requires Where(rows, p) == [x]
    ensures Sum(Update(rows, p, f), w) == Sum(rows, w) - w(x) + w(f(x))
  {
    SumUpdate(rows, p, f, w);
    SumOne(x, w);
    ApplyAppend([], x, f);
    assert [] + [x] == [x] && Apply([x], f) == [f(x)];
    SumOne(f(x), w);
  }

  /** Two WHERE clauses that differ only on worthless rows select the same sum. */
  lemma {:induction false} SumWhereSame<T>(rows: seq<T>, p: T -> bool, q: T -> bool, w: T -> int)
    requires forall i :: 0 <= i < |rows| && p(rows[i]) != q(rows[i]) ==> w(rows[i]) == 0
    ensures Sum(Where(rows, p), w) == Sum(Where(rows, q), w)
  {
    if rows != [] {
      var rest, last := rows[..|rows| - 1], rows[|rows| - 1];
      SumWhereSame(rest, p, q, w);
      SumAppend(Where(rest, p), last, w);
      SumAppend(Where(rest, q), last, w);
      assert Where(rows, p) == if p(last) then Where(rest, p) + [last] else Where(rest, p);
      assert Where(rows, q) == if q(last) then Where(rest, q) + [last] else Where(rest, q);
    }
  }

  /** One row is worth at most the whole non-negative column. */
  lemma {:induction false} SumAtLeast<T(!new)>(rows: seq<T>, w: T -> int, x: T)
    requires (forall y :: w(y) >= 0) && x in rows
    ensures Sum(rows, w) >= w(x)
  {
    var rest, last := rows[..|rows| - 1], rows[|rows| - 1];
    if x == last {
      SumNonNegative(rest, w);
    } else {
      assert rows == rest + [last];
      SumAtLeast(rest, w, x);
    }
  }

  /** Deleting a row of positive weight lowers the sum. */
  lemma SumDrops<T(!new)>(rows: seq<T>, p: T -> bool, w: T -> int, x: T)
    requires (forall y :: w(y) >= 0) && x in rows && p(x) && w(x) > 0
    ensures Sum(Delete(rows, p), w) < Sum(rows, w)
  {
    SumDelete(rows, p, w);
    WhereMembers(rows, p);
    SumAtLeast(Where(rows, p), w, x);
  }

  /** Every statement over a one-row table. */
  lemma Single<T>(x: T, p: T -> bool, f: T -> T)
    ensures Where([x], p) == if p(x) then [x] else []
    ensures Delete([x], p) == if p(x) then [] else [x]
    ensures Update([x], p, f) == [if p(x) then f(x) else x]
  {
  }

  /** A SET that keeps every row it touches inside a selection is seen there as the same SET. */
  lemma {:induction false} WhereUpdateKept<T>(rows: seq<T>, p: T -> bool, f: T -> T, q: T -> bool)
    requires forall i :: 0 <= i < |rows| && p(rows[i]) ==> q(rows[i]) == q(f(rows[i]))
    ensures Where(Update(rows, p, f), q) == Update(Where(rows, q), p, f)
  {
    if rows != [] {
      var rest, last := rows[..|rows| - 1], rows[|rows| - 1];
      WhereUpdateKept(rest, p, f, q);
      var after := if p(last) then f(last) else last;
      WhereAppend(Update(rest, p, f), [after], q);
      Single(after, q, f);
      Single(last, q, f);
      if q(last) {
        assert Where(rows, q) == Where(rest, q) + [last];
        UpdateAppend(Where(rest, q), last, p, f);
      } else {
        assert Where(rows, q) == Where(rest, q);
      }
    }
  }

  /** A SET that takes every row it touches out of a selection is seen there as a DELETE. */
  lemma {:induction false} WhereUpdateDropped<T>(rows: seq<T>, p: T -> bool, f: T -> T, q: T -> bool)
    requires forall i :: 0 <= i < |rows| && p(rows[i]) ==> !q(f(rows[i]))
    ensures Where(Update(rows, p, f), q) == Delete(Where(rows, q), p)
  {
    if rows != [] {
      var rest, last := rows[..|rows| - 1], rows[|rows| - 1];
      WhereUpdateDropped(rest, p, f, q);
      var after := if p(last) then f(last) else last;
      WhereAppend(Update(rest, p, f), [after], q);
      Single(after, q, f);
      if q(last) {
        assert Where(rows, q) == Where(rest, q) + [last];
        DeleteAppend(Where(rest, q), last, p);
      } else {
        assert Where(rows, q) == Where(rest, q);
      }
    }
  }

  lemma UpdateAppend<T>(rows: seq<T>, x: T, p: T -> bool, f: T -> T)
    ensures Update(rows + [x], p, f) == Update(rows, p, f) + [if p(x) then f(x) else x]
  {
  }

  lemma DeleteAppend<T>(rows: seq<T>, x: T, p: T -> bool)
    ensures Delete(rows + [x], p) == Delete(rows, p) + if p(x) then [] else [x]
  {
  }

  /** Selecting from a wider selection changes nothing. */
  lemma {:induction false} WhereWhere<T>(rows: seq<T>, p: T -> bool, q: T -> bool)
    requires forall i :: 0 <= i < |rows| && p(rows[i]) ==> q(rows[i])
    ensures Where(Where(rows, q), p) == Where(rows, p)
  {
    if rows != [] {
      var rest, last := rows[..|rows| - 1], rows[|rows| - 1];
      WhereWhere(rest, p, q);
      if q(last) {
        WhereAppend(Where(rest, q), [last], p);
        Single(last, p, (x: T) => x);
      } else {
        assert Where(rows, q) == Where(rest, q);
      }
    }
  }

  /** Two rows of a selection are two rows of its table. */
  lemma {:induction false} WhereSplits<T(!new)>(rows: seq<T>, p: T -> bool, i: nat, j: nat)
    requires i < j < |Where(rows, p)|
    ensures exists k, l :: 0 <= k < l < |rows| && rows[k] == Where(rows, p)[i] && rows[l] == Where(rows, p)[j]
  {
    var rest, last := rows[..|rows| - 1], rows[|rows| - 1];
    if p(last) && j == |Where(rows, p)| - 1 {
      WhereMembers(rest, p);
      assert Where(rest, p)[i] in rest;
      var k :| 0 <= k < |rest| && rest[k] == Where(rest, p)[i];
      assert rows[k] == Where(rows, p)[i] && rows[|rows| - 1] == Where(rows, p)[j];
    } else {
      WhereSplits(rest, p, i, j);
    }
  }

  /** Two tables that agree on the rows their queries select are selected the same. */
  lemma {:induction false} WhereAgree<T>(a: seq<T>, b: seq<T>, p: T -> bool, q: T -> bool)
    requires |a| == |b|
    requires forall i :: 0 <= i < |a| ==> p(a[i]) == q(b[i]) && (p(a[i]) ==> a[i] == b[i])
    ensures Where(a, p) == Where(b, q)
  {
    if a != [] { WhereAgree(a[..|a| - 1], b[..|b| - 1], p, q); }
  }

  /** A selection that matches one place of the table. */
  lemma {:induction false} OnlyAt<T>(rows: seq<T>, p: T -> bool, i: nat)
    requires i < |rows| && forall j :: 0 <= j < |rows| ==> (p(rows[j]) <==> j == i)
    ensures Where(rows, p) == [rows[i]]
  {
    var rest := rows[..|rows| - 1];
    if i == |rest| {
      WhereNone(rest, p);
    } else {
      OnlyAt(rest, p, i);
    }
  }

  lemma {:induction false} SubsetSize<T>(a: set<T>, b: set<T>)
    requires a <= b
    ensures |a| <= |b|
  {
    if a != {} {
      var x :| x in a;
      SubsetSize(a - {x}, b - {x});
    }
  }

  function First<T>(rows: seq<T>): Option<T> { if rows == [] then None else Some(rows[0]) }
}
