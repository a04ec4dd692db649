/** Lists shown newest first, page by page. */
module Listing {
  import opened Base

  // ----- Order -----

  /** `ORDER BY at DESC, id DESC`. */
  predicate Before<T>(a: T, b: T, at: T -> int, id: T -> Id) {
    at(a) > at(b) || (at(a) == at(b) && id(a) > id(b))
  }

  function InsertRow<T>(r: T, rows: seq<T>, at: T -> int, id: T -> Id): seq<T> {
    if rows == [] || Before(r, rows[0], at, id) then [r] + rows else [rows[0]] + InsertRow(r, rows[1..], at, id)
  }

  function Ordered<T>(rows: seq<T>, at: T -> int, id: T -> Id): seq<T> {
    if rows == [] then [] else InsertRow(rows[0], Ordered(rows[1..], at, id), at, id)
  }

  predicate InOrder<T>(rows: seq<T>, at: T -> int, id: T -> Id) {
    forall i, j :: 0 <= i < j < |rows| ==> Before(rows[i], rows[j], at, id)
  }

  predicate DistinctIds<T>(rows: seq<T>, id: T -> Id) {
    forall i, j :: 0 <= i < j < |rows| ==> id(rows[i]) != id(rows[j])
  }

  lemma FirstStaysFirst<T>(first: T, rest: seq<T>, r: T, rows: seq<T>, at: T -> int, id: T -> Id)
    requires InOrder(rest, at, id) && multiset(rest) == multiset(rows) + multiset{r}
    requires Before(first, r, at, id) && forall s :: s in rows ==> Before(first, s, at, id)
    ensures InOrder([first] + rest, at, id)
  {
    forall j | 0 <= j < |rest| ensures Before(first, rest[j], at, id) {
      assert rest[j] in multiset(rest);
      assert rest[j] == r || rest[j] in rows;
    }
  }

  lemma {:induction false} InsertRowKeeps<T>(r: T, rows: seq<T>, at: T -> int, id: T -> Id)
    requires InOrder(rows, at, id) && forall s :: s in rows ==> id(s) != id(r)
    ensures InOrder(InsertRow(r, rows, at, id), at, id)
    ensures multiset(InsertRow(r, rows, at, id)) == multiset(rows) + multiset{r}
  {
    if rows == [] || Before(r, rows[0], at, id) {
      assert InsertRow(r, rows, at, id) == [r] + rows;
    } else {
      assert rows == [rows[0]] + rows[1..];
      InsertRowKeeps(r, rows[1..], at, id);
      FirstStaysFirst(rows[0], InsertRow(r, rows[1..], at, id), r, rows[1..], at, id);
    }
  }

  lemma {:induction false} OrderedKeeps<T>(rows: seq<T>, at: T -> int, id: T -> Id)
    requires DistinctIds(rows, id)
    ensures InOrder(Ordered(rows, at, id), at, id) && multiset(Ordered(rows, at, id)) == multiset(rows)
  {
    if rows == [] {
      assert Ordered(rows, at, id) == rows;
    } else {
      OrderedKeeps(rows[1..], at, id);
      assert rows == [rows[0]] + rows[1..];
      forall s | s in Ordered(rows[1..], at, id) ensures id(s) != id(rows[0]) {
        assert s in multiset(rows[1..]);
        assert s in rows[1..];
      }
      InsertRowKeeps(rows[0], Ordered(rows[1..], at, id), at, id);
    }
  }

  lemma FirstIsEarliest<T>(a: seq<T>, b: seq<T>, at: T -> int, id: T -> Id)
    requires InOrder(a, at, id) && multiset(a) == multiset(b) && a != []
    ensures b != [] && (a[0] == b[0] || Before(a[0], b[0], at, id))
  {
    assert a[0] in multiset(b);
    assert b[0] in multiset(a);
    var j :| 0 <= j < |a| && a[j] == b[0];
  }

  lemma TailsAreSame<T>(a: seq<T>, b: seq<T>)
    requires a != [] && b != [] && a[0] == b[0] && multiset(a) == multiset(b)
    ensures multiset(a[1..]) == multiset(b[1..])
  {
    assert a == [a[0]] + a[1..] && b == [b[0]] + b[1..];
    assert multiset(a[1..]) == multiset(a) - multiset{a[0]} && multiset(b[1..]) == multiset(b) - multiset{b[0]};
  }

  /** Two ordered lists of the same rows are equal. */
  lemma {:induction false} OrderIsUnique<T>(a: seq<T>, b: seq<T>, at: T -> int, id: T -> Id)
    requires InOrder(a, at, id) && InOrder(b, at, id) && multiset(a) == multiset(b)
    ensures a == b
  {
    if a == [] {
      assert |multiset(b)| == |b|;
    } else {
      FirstIsEarliest(a, b, at, id);
      FirstIsEarliest(b, a, at, id);
      TailsAreSame(a, b);
      OrderIsUnique(a[1..], b[1..], at, id);
      assert a == [a[0]] + a[1..] && b == [b[0]] + b[1..];
    }
  }

  // ----- Pages -----

  /** `OFFSET (page - 1) * size LIMIT size`. */
  function Page<T>(rows: seq<T>, page: nat, size: nat): seq<T>
    requires page >= 1 && size >= 1
  {
    Slice(rows, (page - 1) * size, size)
  }

  function Slice<T>(rows: seq<T>, offset: nat, limit: nat): seq<T> {
    if offset >= |rows| then []
    else if offset + limit >= |rows| then rows[offset..] else rows[offset..offset + limit]
  }

  /** `COUNT(*) OVER ()` as read from the first row of a page, or 0 without rows. */
  function ReportedTotal<T>(rows: seq<T>, page: nat, size: nat): nat
    requires page >= 1 && size >= 1
  {
    if Page(rows, page, size) == [] then 0 else |rows|
  }

  function FirstPages<T>(rows: seq<T>, n: nat, size: nat): seq<T>
    requires size >= 1
  {
    if n == 0 then [] else FirstPages(rows, n - 1, size) + Page(rows, n, size)
  }

  lemma {:induction false} PagesArePrefix<T>(rows: seq<T>, n: nat, size: nat)
    requires size >= 1
    ensures FirstPages(rows, n, size) == if n * size >= |rows| then rows else rows[..n * size]
  {
    if n == 0 {
      assert FirstPages(rows, n, size) == [];
    } else {
      PagesArePrefix(rows, n - 1, size);
      assert n * size == (n - 1) * size + size;
    }
  }

  /** The reported total is right exactly on pages that begin before the end, or if there is nothing. */
  lemma TotalIsRightIffPageExists<T>(rows: seq<T>, page: nat, size: nat)
    requires page >= 1 && size >= 1
    ensures ReportedTotal(rows, page, size) == |rows| <==> rows == [] || (page - 1) * size < |rows|
  {
  }
}
