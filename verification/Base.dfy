/** Shared vocabulary: row identifiers, optional columns, bulk row updates. */
module Base {

  /** Stands for a UUID. A "fresh" identifier is one that is not used yet. */
  type Id = nat

  /** A nullable column or an optional argument. */
  datatype Option<+T> = None | Some(value: T)

  /** `UPDATE t SET row = f(row)`: every row goes through `f`, none appears or disappears. */
  function Mapped<R>(table: map<Id, R>, f: R -> R): map<Id, R> {
    map k | k in table :: f(table[k])
  }

  /** There is always an identifier that no row uses. */
  lemma {:induction false} FreshId(used: set<Id>) returns (unused: Id)
    ensures unused !in used
    ensures forall k :: k in used ==> k < unused
  {
    if used == {} {
      unused := 0;
    } else {
      var k :| k in used;
      var above := FreshId(used - {k});
      unused := if k < above then above else k + 1;
      assert forall j :: j in used ==> j == k || j in used - {k};
    }
  }

  /** A subset is not larger. */
  lemma {:induction false} SubsetSize<T>(small: set<T>, large: set<T>)
    requires small <= large
    ensures |small| <= |large|
  {
    if small == {} {
    } else {
      var x :| x in small;
      SubsetSize(small - {x}, large - {x});
    }
  }
}
