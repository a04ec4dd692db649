/**
 Which object lists feed the same bytes to the hash as a given one. Keys may contain NUL, so a key
 may hide whole records; nothing else makes two lists collide.
 */
module ObjectCollision {
  import opened Base
  import opened ObjectDigest

  // ----- Records of lists -----

  lemma {:induction false} RecordsOfParts(a: seq<Object>, b: seq<Object>)
    ensures Records(a + b) == Records(a) + Records(b)
  {
    if a == [] {
      assert a + b == b;
    } else {
      assert (a + b)[1..] == a[1..] + b;
      RecordsOfParts(a[1..], b);
    }
  }

  lemma RecordsOfOne(o: Object)
    ensures Records([o]) == Record(o)
  {
    assert [o][1..] == [];
    assert Record(o) + "" == Record(o);
  }

  lemma SortedOfOrdered(os: seq<Object>)
    requires Ordered(os) && DistinctKeys(os)
    ensures Sorted(os) == os
  {
    SortedIsSorted(os);
    DistinctAsMultiset(os, Sorted(os));
    OrderIsUnique(Sorted(os), os);
  }

  // ----- Every record ends where a record of the other list ends -----

  predicate AllDigits(d: string) { forall k :: 0 <= k < |d| ==> '0' <= d[k] <= '9' }

  /** After a size comes a NUL, after a digest a newline. */
  lemma SizeIsNoDigest(h: string, rest: string, d: string, more: string)
    requires |h| == 64 && AllHex(h) && AllDigits(d)
    ensures h + "\n" + rest != d + [NUL] + more
  {
    var s, t := h + "\n" + rest, d + [NUL] + more;
    assert s[64] == '\n' && t[|d|] == NUL;
    if |d| < 64 { assert s[|d|] == h[|d|]; } else if |d| > 64 { assert t[64] == d[64]; }
  }

  lemma SameFront(u: string, x: string, d: string, y: string)
    requires NulFree(u) && NulFree(d) && u + [NUL] + x == d + [NUL] + y
    ensures u == d && x == y
  {
    FirstNulAfter(u, x);
    FirstNulAfter(d, y);
    var s := u + [NUL] + x;
    assert s[..|u|] == u && s[..|d|] == d && s[|u| + 1..] == x && s[|d| + 1..] == y;
  }

  lemma {:induction false} FirstNulOfFront(front: string, rest: string)
    requires !NulFree(front)
    ensures FirstNul(front + rest) == FirstNul(front) < |front|
  {
    if front[0] == NUL {
    } else {
      assert (front + rest)[1..] == front[1..] + rest;
      assert !NulFree(front[1..]);
      FirstNulOfFront(front[1..], rest);
    }
  }

  /** Up to its first NUL, a string that starts with `front` is `front`. */
  lemma SplitAtNul(u: string, x: string, front: string, rest: string)
    requires NulFree(front) && u + x == front + [NUL] + rest && !NulFree(u)
    ensures |front| < |u| && u == front + [NUL] + u[|front| + 1..] && rest == u[|front| + 1..] + x
  {
    FirstNulOfFront(u, x);
    FirstNulAfter(front, rest);
    var s, n := u + x, |front|;
    assert u == s[..|u|] && s[..n] == front && s[n] == NUL && s[n + 1..] == rest;
    assert u[..n] == front;
  }

  /** What comes after the key in a record and what follows it. */
  function Rest(o: Object, more: string): string { Digits(o.size) + [NUL] + (Hex(o.sha) + "\n" + more) }

  lemma RecordIs(o: Object, more: string)
    ensures Record(o) + more == o.key + [NUL] + Rest(o, more)
    ensures Record(o) + more == o.key + ([NUL] + Rest(o, more))
  {
  }

  lemma DigestIsWhole(w: string, x: string, h: string, rest: string)
    requires |h| == 64 && AllHex(h) && h + "\n" + rest == w + [NUL] + x
    ensures |w| >= 65 && w == h + "\n" + w[65..] && rest == w[65..] + ([NUL] + x)
  {
    var s := h + "\n" + rest;
    assert s[|w|] == NUL;
    assert forall k :: 0 <= k < 64 ==> s[k] == h[k];
    assert s[64] == '\n';
    assert w == s[..|w|] && s[..64] == h && s[65..] == rest;
  }

  /** Without a NUL in what is left of the key, a size would have to be followed by a size. */
  lemma KeyGoesOn(u: string, x: string, a: Object, rest: string, b: Object, more: string)
    requires u + ([NUL] + x) == Rest(a, rest) && x == Rest(b, more) && AllHex(Hex(a.sha))
    ensures !NulFree(u)
  {
    DigitsAreNulFree(a.size);
    SizeIsNoDigest(Hex(a.sha), rest, Digits(b.size), Hex(b.sha) + "\n" + more);
    assert x != Hex(a.sha) + "\n" + rest;
    assert u + [NUL] + x == u + ([NUL] + x);
    if NulFree(u) { SameFront(u, x, Digits(a.size), Hex(a.sha) + "\n" + rest); }
  }

  /** A key with NUL at the front of some records hides the first of them. */
  lemma KeyHidesRecord(b: Object, more: string, a: Object, rest: string) returns (k: string)
    requires NulFree(a.key) && !NulFree(b.key) && Record(b) + more == Record(a) + rest
    ensures b.key == Record(a) + k && Record(Object(k, b.size, b.sha)) + more == rest
  {
    var x := Rest(b, more);
    RecordIs(b, more);
    RecordIs(a, rest);
    SplitAtNul(b.key, [NUL] + x, a.key, Rest(a, rest));
    var u := b.key[|a.key| + 1..];
    UnhexHex(a.sha);
    KeyGoesOn(u, x, a, rest, b, more);
    DigitsAreNulFree(a.size);
    SplitAtNul(u, [NUL] + x, Digits(a.size), Hex(a.sha) + "\n" + rest);
    var w := u[|Digits(a.size)| + 1..];
    assert w + [NUL] + x == w + ([NUL] + x);
    DigestIsWhole(w, x, Hex(a.sha), rest);
    k := w[65..];
    RecordIs(Object(k, b.size, b.sha), more);
    assert b.key == a.key + [NUL] + (Digits(a.size) + [NUL] + (Hex(a.sha) + "\n" + k));
    RecordIs(a, k);
  }

  lemma OneMoreInFront(os: seq<Object>, m: nat, key: string)
    requires 2 <= m <= |os|
    ensures Records(os[..m - 1]) + key == Record(os[0]) + (Records(os[1..][..m - 2]) + key)
  {
    assert os[..m - 1] == [os[0]] + os[1..][..m - 2];
    RecordsOfParts([os[0]], os[1..][..m - 2]);
    RecordsOfOne(os[0]);
  }

  lemma FirstIsWhole(b: Object, more: string, os: seq<Object>)
    requires os != [] && NulFree(b.key) && NulFree(os[0].key) && Record(b) + more == Records(os)
    ensures b == os[0] && more == Records(os[1..])
  {
    ReadRecordBack(b, more);
    ReadRecordBack(os[0], Records(os[1..]));
  }

  /** A record at the front of the records of NUL-free objects is some of them, run together. */
  lemma {:induction false} CutsAtRecord(b: Object, more: string, os: seq<Object>) returns (m: nat)
    requires NulFreeKeys(os) && Record(b) + more == Records(os)
    ensures 1 <= m <= |os| && more == Records(os[m..])
    ensures b == Object(Records(os[..m - 1]) + os[m - 1].key, os[m - 1].size, os[m - 1].sha)
    decreases |os|
  {
    var a, rest := os[0], Records(os[1..]);
    if NulFree(b.key) {
      FirstIsWhole(b, more, os);
      m := 1;
      assert os[..0] == [] && "" + a.key == a.key;
    } else {
      var k := KeyHidesRecord(b, more, a, rest);
      var n := CutsAtRecord(Object(k, b.size, b.sha), more, os[1..]);
      m := n + 1;
      assert os[1..][n..] == os[m..] && os[1..][n - 1] == os[m - 1];
      OneMoreInFront(os, m, os[m - 1].key);
    }
  }

  /** A key that runs together several records is as long as two neighbours at least. */
  lemma RunIsLong(os: seq<Object>, m: nat)
    requires 2 <= m <= |os|
    ensures |Records(os[..m - 1]) + os[m - 1].key| >= |Record(os[m - 2])| + |os[m - 1].key|
  {
    assert os[..m - 1] == os[..m - 2] + [os[m - 2]];
    RecordsOfParts(os[..m - 2], [os[m - 2]]);
    RecordsOfOne(os[m - 2]);
  }

  /** Some key of `bs` is at least as long as a record of `os` and the key after it. */
  ghost predicate HidesPair(bs: seq<Object>, os: seq<Object>) {
    exists i, k :: 0 <= i < |bs| && 0 <= k < |os| - 1 && |bs[i].key| >= |Record(os[k])| + |os[k + 1].key|
  }

  lemma {:induction false} SameOrHides(bs: seq<Object>, os: seq<Object>)
    requires NulFreeKeys(os) && Records(bs) == Records(os)
    ensures bs == os || HidesPair(bs, os)
  {
    if bs == [] || os == [] {
      assert bs == os;
    } else {
      var m := CutsAtRecord(bs[0], Records(bs[1..]), os);
      if m >= 2 {
        RunIsLong(os, m);
        assert |bs[0].key| >= |Record(os[m - 2])| + |os[m - 2 + 1].key|;
      } else {
        assert os[..0] == [] && "" + os[0].key == os[0].key && bs[0] == os[0];
        SameOrHides(bs[1..], os[1..]);
        assert bs == [bs[0]] + bs[1..] && os == [os[0]] + os[1..];
        if bs[1..] != os[1..] { HidesFurther(bs, os); }
      }
    }
  }

  lemma HidesFurther(bs: seq<Object>, os: seq<Object>)
    requires bs != [] && os != [] && HidesPair(bs[1..], os[1..])
    ensures HidesPair(bs, os)
  {
    var i, k :| 0 <= i < |bs[1..]| && 0 <= k < |os[1..]| - 1
                && |bs[1..][i].key| >= |Record(os[1..][k])| + |os[1..][k + 1].key|;
    assert |bs[i + 1].key| >= |Record(os[k + 1])| + |os[k + 1 + 1].key|;
  }

  // ----- Any two neighbours can be hidden -----

  lemma {:induction false} PrefixComesFirst(a: string, t: string)
    ensures KeyLeq(a, a + t)
  {
    if a == "" {
      assert KeyLeq(a, t);
    } else {
      assert (a + t)[1..] == a[1..] + t;
      PrefixComesFirst(a[1..], t);
    }
  }

  /** NUL sorts before every other character. */
  lemma {:induction false} NulComesFirst(a: string, t: string, b: string)
    requires KeyLeq(a, b) && a != b && NulFree(b)
    ensures KeyLeq(a + [NUL] + t, b)
  {
    if a == "" {
      assert (a + [NUL] + t)[0] == NUL;
    } else if a[0] == b[0] {
      assert a == [a[0]] + a[1..] && b == [b[0]] + b[1..];
      assert (a + [NUL] + t)[1..] == a[1..] + [NUL] + t;
      NulComesFirst(a[1..], t, b[1..]);
    }
  }

  /** One object that reads like two. */
  function Merged(x: Object, y: Object): Object { Object(Record(x) + y.key, y.size, y.sha) }

  lemma MergedReadsTheSame(x: Object, y: Object)
    ensures Record(Merged(x, y)) == Record(x) + Record(y) && !NulFree(Merged(x, y).key)
  {
    assert (Record(x) + y.key) + Ending(Merged(x, y)) == Record(x) + (y.key + Ending(y));
    assert Merged(x, y).key[|x.key|] == NUL;
  }

  function MergedAt(os: seq<Object>, k: nat): seq<Object>
    requires k + 1 < |os|
  {
    os[..k] + [Merged(os[k], os[k + 1])] + os[k + 2..]
  }

  lemma MergedStarts(x: Object, y: Object) returns (t: string)
    ensures Merged(x, y).key == x.key + [NUL] + t && Merged(x, y).key == x.key + ([NUL] + t)
  {
    t := Digits(x.size) + [NUL] + Hex(x.sha) + "\n" + y.key;
  }

  lemma MergedIsBetween(os: seq<Object>, k: nat, i: nat)
    requires k + 1 < |os| && i < |os| && Ordered(os) && DistinctKeys(os) && NulFreeKeys(os)
    ensures i < k ==> KeyLeq(os[i].key, Merged(os[k], os[k + 1]).key)
    ensures i >= k + 2 ==> KeyLeq(Merged(os[k], os[k + 1]).key, os[i].key)
  {
    var t := MergedStarts(os[k], os[k + 1]);
    if i < k {
      PrefixComesFirst(os[k].key, [NUL] + t);
      KeyTransitive(os[i].key, os[k].key, os[k].key + ([NUL] + t));
    } else if i >= k + 2 {
      NulComesFirst(os[k].key, t, os[i].key);
    }
  }

  lemma MergedIsOrdered(os: seq<Object>, k: nat)
    requires k + 1 < |os| && Ordered(os) && DistinctKeys(os) && NulFreeKeys(os)
    ensures Ordered(MergedAt(os, k)) && DistinctKeys(MergedAt(os, k))
  {
    var b := MergedAt(os, k);
    MergedReadsTheSame(os[k], os[k + 1]);
    forall i | 0 <= i < |os| && (i < k || i >= k + 2)
      ensures (i < k ==> KeyLeq(os[i].key, b[k].key)) && (i >= k + 2 ==> KeyLeq(b[k].key, os[i].key))
      ensures os[i].key != b[k].key
    {
      MergedIsBetween(os, k, i);
    }
    assert forall i :: 0 <= i < k ==> b[i] == os[i];
    assert forall i :: k < i < |b| ==> b[i] == os[i + 1];
  }

  lemma ReplacedMiddle(front: seq<Object>, p: seq<Object>, q: seq<Object>, back: seq<Object>)
    requires Records(p) == Records(q)
    ensures Records(front + p + back) == Records(front + q + back)
  {
    RecordsOfParts(front + p, back);
    RecordsOfParts(front + q, back);
    RecordsOfParts(front, p);
    RecordsOfParts(front, q);
  }

  lemma PairInside(os: seq<Object>, k: nat)
    requires k + 1 < |os|
    ensures os == os[..k] + [os[k], os[k + 1]] + os[k + 2..]
  {
  }

  lemma MergedRecords(os: seq<Object>, k: nat)
    requires k + 1 < |os|
    ensures Records(MergedAt(os, k)) == Records(os)
  {
    var front, x, y, back := os[..k], os[k], os[k + 1], os[k + 2..];
    PairRecords(x, y);
    PairInside(os, k);
    ReplacedMiddle(front, [x, y], [Merged(x, y)], back);
  }

  lemma PairRecords(x: Object, y: Object)
    ensures Records([x, y]) == Records([Merged(x, y)])
  {
    assert [x, y] == [x] + [y];
    RecordsOfParts([x], [y]);
    RecordsOfOne(x);
    RecordsOfOne(y);
    RecordsOfOne(Merged(x, y));
    MergedReadsTheSame(x, y);
  }

  lemma MergedCollides(os: seq<Object>, k: nat)
    requires k + 1 < |os| && Ordered(os) && DistinctKeys(os) && NulFreeKeys(os)
    ensures var b := MergedAt(os, k); DistinctKeys(b) && Stream(b) == Records(os) && |b| == |os| - 1
  {
    MergedIsOrdered(os, k);
    SortedOfOrdered(MergedAt(os, k));
    MergedRecords(os, k);
  }

  // ----- Results -----

  /** `b` is a different list without repeated keys that feeds the same bytes to the hash. */
  ghost predicate Collides(a: seq<Object>, b: seq<Object>) {
    DistinctKeys(b) && Stream(b) == Stream(a) && multiset(b) != multiset(a)
  }

  /** The keys that a manifest accepts. */
  predicate ManifestKeys(os: seq<Object>) { forall k :: 0 <= k < |os| ==> 0 < |os[k].key| <= 255 }

  lemma SortedOf(os: seq<Object>)
    requires DistinctKeys(os) && NulFreeKeys(os)
    ensures var s := Sorted(os);
            Ordered(s) && DistinctKeys(s) && NulFreeKeys(s) && multiset(s) == multiset(os) && |s| == |os|
  {
    SortedIsSorted(os);
    DistinctAsMultiset(os, Sorted(os));
    SortedNulFree(os);
    assert |multiset(Sorted(os))| == |Sorted(os)| && |multiset(os)| == |os|;
  }

  lemma CollidingHides(a: seq<Object>, b: seq<Object>)
    requires DistinctKeys(a) && NulFreeKeys(a) && Collides(a, b)
    ensures HidesPair(Sorted(b), Sorted(a))
  {
    SortedOf(a);
    SortedIsSorted(b);
    SameOrHides(Sorted(b), Sorted(a));
  }

  lemma MergedOfSorted(a: seq<Object>, k: nat)
    requires DistinctKeys(a) && NulFreeKeys(a) && k + 1 < |Sorted(a)|
    ensures Collides(a, MergedAt(Sorted(a), k))
  {
    SortedOf(a);
    MergedCollides(Sorted(a), k);
    assert |multiset(MergedAt(Sorted(a), k))| == |a| - 1 && |multiset(a)| == |a|;
  }

  // ----- Keys with NUL -----

  lemma SameBack(x: string, d: string, y: string, e: string)
    requires NulFree(d) && NulFree(e) && x + [NUL] + d == y + [NUL] + e
    ensures x == y && d == e
  {
    var s := x + [NUL] + d;
    assert s[|x|] == NUL && forall k :: |x| < k < |s| ==> s[k] == d[k - |x| - 1];
    assert s[|y|] == NUL && forall k :: |y| < k < |s| ==> s[k] == e[k - |y| - 1];
    assert x == s[..|x|] && y == s[..|y|] && d == s[|x| + 1..] && e == s[|y| + 1..];
  }

  function Front(o: Object): string { o.key + [NUL] + Digits(o.size) }

  lemma BackOfRecord(o: Object)
    ensures var s, n := Record(o), |Front(o)|;
            |s| == n + 66 && s[..n] == Front(o) && s[n + 1..n + 65] == Hex(o.sha)
  {
    assert Record(o) == Front(o) + [NUL] + Hex(o.sha) + "\n";
  }

  lemma SameFrontSameObject(a: Object, b: Object)
    requires Front(a) == Front(b) && Hex(a.sha) == Hex(b.sha)
    ensures a == b
  {
    DigitsAreNulFree(a.size);
    DigitsAreNulFree(b.size);
    SameBack(a.key, Digits(a.size), b.key, Digits(b.size));
    NumberOfDigits(a.size);
    NumberOfDigits(b.size);
    UnhexHex(a.sha);
    UnhexHex(b.sha);
  }

  /** Whatever its key is, an object can be read from the end of its record. */
  lemma RecordIsInjective(a: Object, b: Object)
    requires Record(a) == Record(b)
    ensures a == b
  {
    BackOfRecord(a);
    BackOfRecord(b);
    SameFrontSameObject(a, b);
  }

  /** One object that reads like the whole list. */
  function Whole(os: seq<Object>): Object
    requires os != []
  {
    var last := os[|os| - 1];
    Object(Records(os[..|os| - 1]) + last.key, last.size, last.sha)
  }

  lemma WholeReadsTheSame(os: seq<Object>)
    requires os != []
    ensures Record(Whole(os)) == Records(os)
  {
    var front, last := os[..|os| - 1], os[|os| - 1];
    assert os == front + [last];
    RecordsOfParts(front, [last]);
    RecordsOfOne(last);
    assert (Records(front) + last.key) + Ending(last) == Records(front) + (last.key + Ending(last));
  }

  lemma WholeOfOne(os: seq<Object>)
    requires os != []
    ensures |os| == 1 ==> os == [Whole(os)]
  {
    assert |os| == 1 ==> os[..0] == [] && "" + os[0].key == os[0].key;
  }

  lemma OneIsSorted(o: Object)
    ensures Stream([o]) == Record(o)
  {
    SortedOfOrdered([o]);
    RecordsOfOne(o);
  }

  lemma WholeCollides(a: seq<Object>)
    requires |a| >= 2
    ensures exists b :: Collides(a, b)
  {
    SortedIsSorted(a);
    assert |multiset(Sorted(a))| == |Sorted(a)| && |multiset(a)| == |a|;
    WholeReadsTheSame(Sorted(a));
    var b := [Whole(Sorted(a))];
    OneIsSorted(b[0]);
    assert |multiset(b)| == 1;
    assert Collides(a, b);
  }

  /** The key is the record of `o` and the later key `k`. */
  predicate SplitsInto(key: string, o: Object, k: string) {
    key == Record(o) + k && o.key != k && KeyLeq(o.key, k)
  }

  lemma SplitReadsTheSame(a: Object, o: Object, k: string)
    requires a.key == Record(o) + k
    ensures Records([o, Object(k, a.size, a.sha)]) == Record(a)
  {
    var last := Object(k, a.size, a.sha);
    assert [o, last] == [o] + [last];
    RecordsOfParts([o], [last]);
    RecordsOfOne(o);
    RecordsOfOne(last);
    assert (Record(o) + k) + Ending(a) == Record(o) + (k + Ending(last));
  }

  lemma SplitCollides(a: Object, o: Object, k: string)
    requires SplitsInto(a.key, o, k)
    ensures Collides([a], [o, Object(k, a.size, a.sha)])
  {
    var b := [o, Object(k, a.size, a.sha)];
    SortedOfOrdered(b);
    SplitReadsTheSame(a, o, k);
    OneIsSorted(a);
    assert |multiset(b)| == 2 && |multiset([a])| == 1;
  }

  lemma OneReadsLikeOne(a: Object, b: seq<Object>)
    requires Collides([a], b)
    ensures |Sorted(b)| >= 2 && Whole(Sorted(b)) == a
  {
    var s := Sorted(b);
    OneIsSorted(a);
    SortedIsSorted(b);
    assert s != [] by { assert Record(a) != ""; }
    WholeReadsTheSame(s);
    RecordIsInjective(Whole(s), a);
    WholeOfOne(s);
  }

  lemma OneSplits(a: Object, b: seq<Object>) returns (k: string)
    requires Collides([a], b)
    ensures Sorted(b) != [] && SplitsInto(a.key, Sorted(b)[0], k)
  {
    var s := Sorted(b);
    OneReadsLikeOne(a, b);
    SortedIsSorted(b);
    DistinctAsMultiset(b, s);
    var last := s[|s| - 1];
    k := Records(s[1..][..|s| - 2]) + last.key;
    OneMoreInFront(s, |s|, last.key);
    SecondKeyStarts(s);
    if k == s[0].key { KeyAntisymmetric(s[0].key, s[1].key); }
    KeyTransitive(s[0].key, s[1].key, k);
  }

  lemma SecondKeyStarts(s: seq<Object>)
    requires |s| >= 2
    ensures KeyLeq(s[1].key, Records(s[1..][..|s| - 2]) + s[|s| - 1].key)
  {
    var last := s[|s| - 1];
    if |s| == 2 {
      PrefixComesFirst(last.key, "");
      assert "" + last.key == last.key + "";
    } else {
      var mid := s[1..][..|s| - 2];
      assert mid[0] == s[1];
      assert Records(mid) + last.key == s[1].key + (Ending(s[1]) + Records(mid[1..]) + last.key);
      PrefixComesFirst(s[1].key, Ending(s[1]) + Records(mid[1..]) + last.key);
    }
  }

  /** Without objects there are no bytes, and only then. */
  lemma NothingReadsLikeNothing(b: seq<Object>)
    ensures !Collides([], b)
  {
    SortedIsSorted(b);
    if Sorted(b) != [] { assert Records(Sorted(b)) != ""; }
  }

  /** A list with distinct keys, with NUL or without, shares its bytes with another list exactly if it has
      two objects or more, or its one key is a record and a later key. */
  lemma CollidesIff(a: seq<Object>)
    requires DistinctKeys(a)
    ensures (exists b :: Collides(a, b)) <==> |a| >= 2 || (|a| == 1 && exists o, k :: SplitsInto(a[0].key, o, k))
  {
    if |a| >= 2 {
      WholeCollides(a);
    } else if |a| == 1 {
      assert a == [a[0]];
      if o, k :| SplitsInto(a[0].key, o, k) { SplitCollides(a[0], o, k); }
      if b :| Collides(a, b) { var k := OneSplits(a[0], b); }
    } else {
      forall b ensures !Collides(a, b) { NothingReadsLikeNothing(b); }
    }
  }

  /** With one object, the other list can be in a manifest exactly if the first of the two keys is not empty. */
  lemma OneManifestCollidesIff(a: Object)
    requires ManifestKeys([a])
    ensures (exists b :: Collides([a], b) && ManifestKeys(b))
            <==> exists o, k :: SplitsInto(a.key, o, k) && o.key != ""
  {
    if o, k :| SplitsInto(a.key, o, k) && o.key != "" {
      SplitCollides(a, o, k);
      assert [a][0] == a;
      assert ManifestKeys([o, Object(k, a.size, a.sha)]);
    }
    if b :| Collides([a], b) && ManifestKeys(b) {
      var k := OneSplits(a, b);
      SortedIsSorted(b);
      KeysStay(b, Sorted(b));
    }
  }

  /** Without NUL in the keys, a list shares its bytes exactly if it has two objects or more. */
  lemma CollidesIffSeveral(a: seq<Object>)
    requires DistinctKeys(a) && NulFreeKeys(a)
    ensures (exists b :: Collides(a, b)) <==> |a| >= 2
  {
    CollidesIff(a);
    if |a| == 1 {
      forall o, k ensures !SplitsInto(a[0].key, o, k) { assert (Record(o) + k)[|o.key|] == NUL; }
    }
  }

  /** Two neighbours in the order of keys are short enough for one key of a manifest. */
  predicate ShortNeighbours(os: seq<Object>) {
    exists k :: 0 <= k < |os| - 1 && |Record(os[k])| + |os[k + 1].key| <= 255
  }

  lemma ShortCollides(a: seq<Object>)
    requires DistinctKeys(a) && NulFreeKeys(a) && ManifestKeys(a) && ShortNeighbours(Sorted(a))
    ensures exists b :: Collides(a, b) && ManifestKeys(b)
  {
    var s := Sorted(a);
    SortedOf(a);
    KeysStay(a, s);
    var k :| 0 <= k < |s| - 1 && |Record(s[k])| + |s[k + 1].key| <= 255;
    MergedOfSorted(a, k);
    MergedFits(s, k);
  }

  lemma MergedFits(os: seq<Object>, k: nat)
    requires ManifestKeys(os) && k + 1 < |os| && |Record(os[k])| + |os[k + 1].key| <= 255
    ensures ManifestKeys(MergedAt(os, k))
  {
    var b := MergedAt(os, k);
    forall i | 0 <= i < |b| ensures 0 < |b[i].key| <= 255 {
      assert b[i] == if i < k then os[i] else if i == k then Merged(os[k], os[k + 1]) else os[i + 1];
    }
  }

  lemma CollisionIsShort(a: seq<Object>, b: seq<Object>)
    requires DistinctKeys(a) && NulFreeKeys(a) && Collides(a, b) && ManifestKeys(b)
    ensures ShortNeighbours(Sorted(a))
  {
    CollidingHides(a, b);
    SortedIsSorted(b);
    KeysStay(b, Sorted(b));
    var s := Sorted(a);
    var i, k :| 0 <= i < |Sorted(b)| && 0 <= k < |s| - 1 && |Sorted(b)[i].key| >= |Record(s[k])| + |s[k + 1].key|;
  }

  /** It shares them with a list that a manifest can hold exactly if two neighbours are short enough. */
  lemma ManifestCollidesIffShort(a: seq<Object>)
    requires DistinctKeys(a) && NulFreeKeys(a) && ManifestKeys(a)
    ensures (exists b :: Collides(a, b) && ManifestKeys(b)) <==> ShortNeighbours(Sorted(a))
  {
    if ShortNeighbours(Sorted(a)) { ShortCollides(a); }
    if b :| Collides(a, b) && ManifestKeys(b) { CollisionIsShort(a, b); }
  }

  lemma KeysStay(a: seq<Object>, b: seq<Object>)
    requires multiset(a) == multiset(b) && ManifestKeys(a)
    ensures ManifestKeys(b)
  {
    forall k | 0 <= k < |b| ensures 0 < |b[k].key| <= 255 { assert b[k] in multiset(a); }
  }

  /** The keys that the file service makes, of 116 characters, are too long for that. */
  lemma LongKeysAreSafe(a: seq<Object>, b: seq<Object>)
    requires DistinctKeys(a) && NulFreeKeys(a) && ManifestKeys(a)
    requires forall k :: 0 <= k < |a| ==> |a[k].key| >= 94
    requires DistinctKeys(b) && ManifestKeys(b) && Stream(b) == Stream(a)
    ensures multiset(b) == multiset(a)
  {
    SortedOf(a);
    forall k | 0 <= k < |Sorted(a)| ensures |Sorted(a)[k].key| >= 94 { assert Sorted(a)[k] in multiset(a); }
    assert !ShortNeighbours(Sorted(a));
    ManifestCollidesIffShort(a);
  }

  /** The manifest entries of an object list. */
  function Entries(os: seq<Object>): seq<RawObject> {
    seq(|os|, k requires 0 <= k < |os| => RawObject(Some(os[k].key), Some(os[k].size), Some(Hex(os[k].sha))))
  }

  lemma EntriesParse(os: seq<Object>)
    requires ManifestKeys(os)
    ensures AllWellFormed(Entries(os)) && AllParsed(Entries(os)) == os
  {
    forall k | 0 <= k < |os| ensures WellFormed(Entries(os)[k]) && Parsed(Entries(os)[k]) == os[k] {
      UnhexHex(os[k].sha);
    }
  }

  /** Whatever the hash: under one declared digest a manifest accepts the list and the other one. */
  lemma CollisionIsAccepted(a: seq<Object>, hash: string -> Sha) returns (b: seq<Object>)
    requires DistinctKeys(a) && NulFreeKeys(a) && ManifestKeys(a) && ShortNeighbours(Sorted(a))
    ensures var declared := Some(Hex(hash(Stream(a))));
            Acceptable(Entries(a), declared, hash) && Acceptable(Entries(b), declared, hash)
    ensures AllParsed(Entries(a)) == a && AllParsed(Entries(b)) == b && multiset(b) != multiset(a)
  {
    ManifestCollidesIffShort(a);
    b :| Collides(a, b) && ManifestKeys(b);
    EntriesParse(a);
    EntriesParse(b);
    UnhexHex(hash(Stream(a)));
  }
}
