/**
 The canonical form of a manifest's object list that `objectsSha256` covers. Characters stand
 for their UTF-8 bytes, which determine them.
 */
module ObjectDigest {
  import opened Base

  type Byte = x: nat | x < 256

  /** A SHA-256 digest. */
  type Sha = s: seq<Byte> | |s| == 32 witness seq(32, _ => 0)

  datatype Object = Object(key: string, size: nat, sha: Sha)

  const NUL: char := '\U{0}'

  // ----- Order by key -----

  predicate KeyLeq(a: string, b: string) {
    a == "" || (b != "" && (a[0] < b[0] || (a[0] == b[0] && KeyLeq(a[1..], b[1..]))))
  }

  lemma {:induction false} KeyTotal(a: string, b: string)
    ensures KeyLeq(a, b) || KeyLeq(b, a)
  {
    if a == "" || b == "" || a[0] != b[0] {
    } else {
      KeyTotal(a[1..], b[1..]);
    }
  }

  lemma {:induction false} KeyAntisymmetric(a: string, b: string)
    requires KeyLeq(a, b) && KeyLeq(b, a)
    ensures a == b
  {
    if a == "" {
    } else {
      KeyAntisymmetric(a[1..], b[1..]);
      assert a == [a[0]] + a[1..] && b == [b[0]] + b[1..];
    }
  }

  lemma {:induction false} KeyTransitive(a: string, b: string, c: string)
    requires KeyLeq(a, b) && KeyLeq(b, c)
    ensures KeyLeq(a, c)
  {
    if a == "" || a[0] != b[0] || b[0] != c[0] {
    } else {
      KeyTransitive(a[1..], b[1..], c[1..]);
    }
  }

  /** Behind all objects with a smaller or equal key: the sort is stable. */
  function Insert(o: Object, os: seq<Object>): seq<Object> {
    if os == [] || (KeyLeq(o.key, os[0].key) && o.key != os[0].key) then [o] + os else [os[0]] + Insert(o, os[1..])
  }

  function Sorted(os: seq<Object>): seq<Object> {
    if os == [] then [] else Insert(os[|os| - 1], Sorted(os[..|os| - 1]))
  }

  predicate Ordered(os: seq<Object>) { forall i, j :: 0 <= i < j < |os| ==> KeyLeq(os[i].key, os[j].key) }

  predicate DistinctKeys(os: seq<Object>) { forall i, j :: 0 <= i < j < |os| ==> os[i].key != os[j].key }

  lemma FirstKeepsOrder(first: Object, rest: seq<Object>, o: Object, os: seq<Object>)
    requires Ordered(rest) && multiset(rest) == multiset(os) + multiset{o}
    requires KeyLeq(first.key, o.key) && forall k :: 0 <= k < |os| ==> KeyLeq(first.key, os[k].key)
    ensures Ordered([first] + rest)
  {
    forall j | 0 <= j < |rest| ensures KeyLeq(first.key, rest[j].key) {
      assert rest[j] in multiset(rest);
      assert rest[j] == o || rest[j] in os;
    }
  }

  lemma {:induction false} InsertKeepsOrder(o: Object, os: seq<Object>)
    requires Ordered(os)
    ensures Ordered(Insert(o, os)) && multiset(Insert(o, os)) == multiset(os) + multiset{o}
  {
    if os == [] {
    } else if KeyLeq(o.key, os[0].key) && o.key != os[0].key {
      forall j | 0 <= j < |os| ensures KeyLeq(o.key, os[j].key) {
        if j > 0 { KeyTransitive(o.key, os[0].key, os[j].key); }
      }
    } else {
      InsertKeepsOrder(o, os[1..]);
      KeyTotal(o.key, os[0].key);
      assert os == [os[0]] + os[1..];
      FirstKeepsOrder(os[0], Insert(o, os[1..]), o, os[1..]);
    }
  }

  lemma {:induction false} SortedIsSorted(os: seq<Object>)
    ensures Ordered(Sorted(os)) && multiset(Sorted(os)) == multiset(os)
  {
    if os == [] {
    } else {
      SortedIsSorted(os[..|os| - 1]);
      InsertKeepsOrder(os[|os| - 1], Sorted(os[..|os| - 1]));
      assert os == os[..|os| - 1] + [os[|os| - 1]];
    }
  }

  lemma FirstIsSmallest(a: seq<Object>, b: seq<Object>) returns (j: nat)
    requires Ordered(a) && multiset(a) == multiset(b) && a != []
    ensures b != [] && j < |a| && a[j] == b[0] && (j > 0 ==> KeyLeq(a[0].key, b[0].key))
  {
    assert a[0] in multiset(b);
    assert b[0] in multiset(a);
    j :| 0 <= j < |a| && a[j] == b[0];
  }

  lemma TailsAgree(a: seq<Object>, b: seq<Object>)
    requires a != [] && b != [] && a[0] == b[0] && multiset(a) == multiset(b)
    ensures multiset(a[1..]) == multiset(b[1..])
  {
    assert a == [a[0]] + a[1..] && b == [b[0]] + b[1..];
    assert multiset(a[1..]) == multiset(a) - multiset{a[0]} && multiset(b[1..]) == multiset(b) - multiset{b[0]};
  }

  /** Two ordered lists of the same objects are equal if no key repeats. */
  lemma {:induction false} OrderIsUnique(a: seq<Object>, b: seq<Object>)
    requires Ordered(a) && Ordered(b) && multiset(a) == multiset(b) && DistinctKeys(a)
    ensures a == b
  {
    if a == [] {
      assert |multiset(b)| == |b|;
    } else {
      var j := FirstIsSmallest(a, b);
      var i := FirstIsSmallest(b, a);
      if i > 0 && j > 0 { KeyAntisymmetric(a[0].key, b[0].key); }
      TailsAgree(a, b);
      OrderIsUnique(a[1..], b[1..]);
      assert a == [a[0]] + a[1..] && b == [b[0]] + b[1..];
    }
  }

  lemma DistinctAsMultiset(a: seq<Object>, b: seq<Object>)
    requires multiset(a) == multiset(b) && DistinctKeys(a)
    ensures DistinctKeys(b)
  {
    forall i, j | 0 <= i < j < |b| ensures b[i].key != b[j].key {
      var x, y := b[i], b[j];
      assert x in multiset(a) && y in multiset(a);
      var k :| 0 <= k < |a| && a[k] == x;
      var l :| 0 <= l < |a| && a[l] == y;
      if x == y { OnceInDistinct(a, k); TwiceInSeq(b, i, j); }
    }
  }

  lemma OnceInDistinct(a: seq<Object>, k: nat)
    requires k < |a| && DistinctKeys(a)
    ensures multiset(a)[a[k]] == 1
  {
    assert a == a[..k] + [a[k]] + a[k + 1..];
    assert a[k] !in a[..k] && a[k] !in a[k + 1..];
  }

  lemma TwiceInSeq(b: seq<Object>, i: nat, j: nat)
    requires i < j < |b| && b[i] == b[j]
    ensures multiset(b)[b[i]] >= 2
  {
    assert b == b[..i] + [b[i]] + b[i + 1..j] + [b[j]] + b[j + 1..];
  }

  // ----- The stream -----

  function Digits(n: nat): (s: string)
    ensures s != "" && forall k :: 0 <= k < |s| ==> '0' <= s[k] <= '9'
  {
    if n < 10 then [Digit(n)] else Digits(n / 10) + [Digit(n % 10)]
  }

  function Digit(n: nat): char
    requires n < 10
  {
    ('0' as int + n) as char
  }

  function HexDigit(n: nat): char
    requires n < 16
  {
    "0123456789abcdef"[n]
  }

  function Hex(s: seq<Byte>): (h: string)
    ensures |h| == 2 * |s|
  {
    if s == [] then "" else [HexDigit(s[0] / 16), HexDigit(s[0] % 16)] + Hex(s[1..])
  }

  function Record(o: Object): string { o.key + Ending(o) }

  function Ending(o: Object): string { [NUL] + Digits(o.size) + [NUL] + Hex(o.sha) + "\n" }

  function Records(os: seq<Object>): string {
    if os == [] then "" else Record(os[0]) + Records(os[1..])
  }

  function Stream(os: seq<Object>): string { Records(Sorted(os)) }

  // ----- Reading the stream back -----

  function FirstNul(s: string): (k: nat)
    ensures k <= |s| && (k < |s| ==> s[k] == NUL) && forall j :: 0 <= j < k ==> s[j] != NUL
  {
    if s == "" || s[0] == NUL then 0 else 1 + FirstNul(s[1..])
  }

  function NumberOf(s: string): nat
    requires forall k :: 0 <= k < |s| ==> '0' <= s[k] <= '9'
  {
    if s == "" then 0 else NumberOf(s[..|s| - 1]) * 10 + (s[|s| - 1] as int - '0' as int)
  }

  predicate IsHex(c: char) { '0' <= c <= '9' || 'a' <= c <= 'f' || 'A' <= c <= 'F' }

  function HexValue(c: char): (n: nat)
    ensures n < 16
  {
    if '0' <= c <= '9' then c as int - '0' as int
    else if 'A' <= c <= 'F' then c as int - 'A' as int + 10
    else if 'a' <= c <= 'f' then c as int - 'a' as int + 10 else 0
  }

  predicate AllHex(h: string) { forall k :: 0 <= k < |h| ==> IsHex(h[k]) }

  function Unhex(h: string): (s: seq<Byte>)
    ensures |s| == |h| / 2
  {
    if |h| < 2 then [] else [HexValue(h[0]) * 16 + HexValue(h[1])] + Unhex(h[2..])
  }

  /** Reads one record off the front: up to a NUL the key, up to a NUL the size, 64 digits, a newline. */
  function ReadRecord(s: string): (r: Option<(Object, string)>)
    ensures r.Some? ==> |r.value.1| < |s|
  {
    var i := FirstNul(s);
    if i == |s| then None else
    var t := s[i + 1..];
    var j := FirstNul(t);
    if j + 66 > |t| || t[j + 65] != '\n' || !AllHex(t[j + 1..j + 65])
       || exists k :: 0 <= k < j && !('0' <= t[k] <= '9')
    then None
    else Some((Object(s[..i], NumberOf(t[..j]), Unhex(t[j + 1..j + 65])), t[j + 66..]))
  }

  function Decoded(s: string): Option<seq<Object>>
    decreases |s|
  {
    if s == "" then Some([]) else
    var first := ReadRecord(s);
    if first.None? then None else
    var rest := Decoded(first.value.1);
    if rest.None? then None else Some([first.value.0] + rest.value)
  }

  predicate NulFree(s: string) { forall k :: 0 <= k < |s| ==> s[k] != NUL }

  predicate NulFreeKeys(os: seq<Object>) { forall k :: 0 <= k < |os| ==> NulFree(os[k].key) }

  lemma {:induction false} FirstNulAfter(front: string, rest: string)
    requires NulFree(front)
    ensures FirstNul(front + [NUL] + rest) == |front|
  {
    if front == "" {
    } else {
      assert (front + [NUL] + rest)[1..] == front[1..] + [NUL] + rest;
      FirstNulAfter(front[1..], rest);
    }
  }

  lemma {:induction false} NumberOfDigits(n: nat)
    ensures NumberOf(Digits(n)) == n
  {
    if n < 10 {
    } else {
      NumberOfDigits(n / 10);
      assert Digits(n)[..|Digits(n)| - 1] == Digits(n / 10);
    }
  }

  lemma HexDigitBack(n: nat)
    requires n < 16
    ensures IsHex(HexDigit(n)) && HexValue(HexDigit(n)) == n
  {
  }

  lemma UnhexMore(b: Byte, x: char, y: char, rest: string)
    requires HexValue(x) * 16 + HexValue(y) == b
    ensures Unhex([x, y] + rest) == [b] + Unhex(rest)
  {
    assert ([x, y] + rest)[2..] == rest;
  }

  lemma {:induction false} UnhexHex(s: seq<Byte>)
    ensures AllHex(Hex(s)) && Unhex(Hex(s)) == s
  {
    if s == [] {
    } else {
      UnhexHex(s[1..]);
      HexDigitBack(s[0] / 16);
      HexDigitBack(s[0] % 16);
      UnhexMore(s[0], HexDigit(s[0] / 16), HexDigit(s[0] % 16), Hex(s[1..]));
      assert s == [s[0]] + s[1..];
    }
  }

  lemma DigitsAreNulFree(n: nat)
    ensures NulFree(Digits(n))
  {
  }

  /** What follows the key of a record. */
  function Tail(o: Object, rest: string): string { Digits(o.size) + [NUL] + (Hex(o.sha) + "\n" + rest) }

  lemma TailParts(o: Object, rest: string)
    ensures var t, j := Tail(o, rest), |Digits(o.size)|;
            && FirstNul(t) == j && |t| == j + 66 + |rest| && t[..j] == Digits(o.size)
            && t[j + 1..j + 65] == Hex(o.sha) && t[j + 65] == '\n' && t[j + 66..] == rest
  {
    DigitsAreNulFree(o.size);
    FirstNulAfter(Digits(o.size), Hex(o.sha) + "\n" + rest);
  }

  lemma RecordParts(o: Object, rest: string)
    requires NulFree(o.key)
    ensures var s := Record(o) + rest;
            FirstNul(s) == |o.key| < |s| && s[..|o.key|] == o.key && s[|o.key| + 1..] == Tail(o, rest)
  {
    assert Record(o) + rest == o.key + [NUL] + Tail(o, rest);
    FirstNulAfter(o.key, Tail(o, rest));
  }

  lemma ReadRecordBack(o: Object, rest: string)
    requires NulFree(o.key)
    ensures ReadRecord(Record(o) + rest) == Some((o, rest))
  {
    RecordParts(o, rest);
    TailParts(o, rest);
    NumberOfDigits(o.size);
    UnhexHex(o.sha);
    var t, j := Tail(o, rest), |Digits(o.size)|;
    assert forall k :: 0 <= k < j ==> t[k] == t[..j][k];
  }

  lemma DecodedMore(s: string, o: Object, rest: string, os: seq<Object>)
    requires ReadRecord(s) == Some((o, rest)) && Decoded(rest) == Some(os)
    ensures Decoded(s) == Some([o] + os)
  {
  }

  lemma {:induction false} DecodedRecords(os: seq<Object>)
    requires NulFreeKeys(os)
    ensures Decoded(Records(os)) == Some(os)
  {
    if os == [] {
    } else {
      DecodedRecords(os[1..]);
      ReadRecordBack(os[0], Records(os[1..]));
      DecodedMore(Records(os), os[0], Records(os[1..]), os[1..]);
      assert [os[0]] + os[1..] == os;
    }
  }

  // ----- Results -----

  /** Every ordering of a list of objects with distinct keys gives the same stream. */
  lemma StreamIgnoresOrder(a: seq<Object>, b: seq<Object>)
    requires DistinctKeys(a) && multiset(a) == multiset(b)
    ensures Stream(a) == Stream(b)
  {
    SortedIsSorted(a);
    SortedIsSorted(b);
    DistinctAsMultiset(a, Sorted(a));
    OrderIsUnique(Sorted(a), Sorted(b));
  }

  lemma SortedNulFree(os: seq<Object>)
    requires NulFreeKeys(os)
    ensures NulFreeKeys(Sorted(os))
  {
    SortedIsSorted(os);
    forall k | 0 <= k < |Sorted(os)| ensures NulFree(Sorted(os)[k].key) {
      assert Sorted(os)[k] in multiset(os);
    }
  }

  /** The stream of objects with NUL-free keys decodes to those objects. */
  lemma StreamDecodes(os: seq<Object>)
    requires NulFreeKeys(os)
    ensures Decoded(Stream(os)).Some? && multiset(Decoded(Stream(os)).value) == multiset(os)
    ensures Ordered(Decoded(Stream(os)).value)
  {
    SortedIsSorted(os);
    SortedNulFree(os);
    DecodedRecords(Sorted(os));
  }

  /** Distinct NUL-free keys: equal streams if and only if equal objects. */
  lemma StreamIsInjective(a: seq<Object>, b: seq<Object>)
    requires NulFreeKeys(a) && NulFreeKeys(b) && DistinctKeys(a)
    ensures Stream(a) == Stream(b) <==> multiset(a) == multiset(b)
  {
    StreamDecodes(a);
    StreamDecodes(b);
    if multiset(a) == multiset(b) { StreamIgnoresOrder(a, b); }
  }

  // ----- Operations -----

  lemma FeedOne(fed: string, os: seq<Object>, k: nat)
    requires k < |os|
    ensures fed + Records(os[k..]) == (fed + Record(os[k])) + Records(os[k + 1..])
  {
    assert os[k..][1..] == os[k + 1..];
  }

  /** Feeds the sorted objects to the hash, piece by piece. */
  method Digest(os: seq<Object>, hash: string -> Sha) returns (d: Sha)
    ensures d == hash(Stream(os))
  {
    var sorted := Sorted(os);
    var fed := "";
    for k := 0 to |sorted|
      invariant fed + Records(sorted[k..]) == Stream(os)
    {
      ghost var was := fed;
      var ending := [NUL];
      ending := ending + Digits(sorted[k].size);
      ending := ending + [NUL];
      ending := ending + Hex(sorted[k].sha);
      ending := ending + "\n";
      fed := fed + (sorted[k].key + ending);
      FeedOne(was, sorted, k);
    }
    assert fed + "" == fed;
    d := hash(fed);
  }

  /** An entry of the manifest's JSON list; `None` stands for a value of another type. */
  datatype RawObject = NotAnObject | RawObject(key: Option<string>, size: Option<int>, sha: Option<string>)

  predicate ShaText(h: Option<string>) { h.Some? && |h.value| == 64 && AllHex(h.value) }

  predicate WellFormed(o: RawObject) {
    && o.RawObject? && o.key.Some? && 0 < |o.key.value| <= 255 && o.size.Some? && o.size.value >= 0 && ShaText(o.sha)
  }

  function Parsed(o: RawObject): Object
    requires WellFormed(o)
  {
    Object(o.key.value, o.size.value, Unhex(o.sha.value))
  }

  predicate AllWellFormed(raw: seq<RawObject>) { forall k :: 0 <= k < |raw| ==> WellFormed(raw[k]) }

  function AllParsed(raw: seq<RawObject>): seq<Object>
    requires AllWellFormed(raw)
  {
    seq(|raw|, k requires 0 <= k < |raw| => Parsed(raw[k]))
  }

  function KeysOf(os: seq<Object>): (keys: set<string>)
    ensures forall k :: 0 <= k < |os| ==> os[k].key in keys
    ensures forall x :: x in keys ==> exists k :: 0 <= k < |os| && os[k].key == x
  {
    set o | o in os :: o.key
  }

  lemma ParsedMore(raw: seq<RawObject>, os: seq<Object>, n: nat)
    requires n == |os| < |raw| && WellFormed(raw[n]) && DistinctKeys(os) && raw[n].key.value !in KeysOf(os)
    ensures DistinctKeys(os + [Parsed(raw[n])])
    ensures KeysOf(os + [Parsed(raw[n])]) == KeysOf(os) + {raw[n].key.value}
  {
    var more := os + [Parsed(raw[n])];
    assert more[n].key == raw[n].key.value && KeysOf(os + [more[n]]) >= KeysOf(os) + {raw[n].key.value};
  }

  method ParseObjects(raw: seq<RawObject>) returns (r: Option<seq<Object>>)
    ensures r.Some? <==> AllWellFormed(raw) && DistinctKeys(AllParsed(raw))
    ensures r.Some? ==> r.value == AllParsed(raw)
  {
    var objects: seq<Object> := [];
    var keys: set<string> := {};
    for n := 0 to |raw|
      invariant |objects| == n && AllWellFormed(raw[..n]) && objects == AllParsed(raw[..n])
      invariant keys == KeysOf(objects) && DistinctKeys(objects)
    {
      var o := raw[n];
      if !WellFormed(o) { return None; }
      if o.key.value in keys {
        ghost var k :| 0 <= k < n && objects[k].key == o.key.value;
        assert raw[..n][k] == raw[k];
        assert AllWellFormed(raw) ==> AllParsed(raw)[k].key == AllParsed(raw)[n].key;
        return None;
      }
      ParsedMore(raw, objects, n);
      keys := keys + {o.key.value};
      objects := objects + [Parsed(o)];
      assert raw[..n + 1] == raw[..n] + [raw[n]];
    }
    assert raw[..|raw|] == raw;
    r := Some(objects);
  }

  /** Every entry is well-formed, no key repeats, and the declared digest is that of the stream. */
  predicate Acceptable(raw: seq<RawObject>, declared: Option<string>, hash: string -> Sha) {
    && AllWellFormed(raw) && DistinctKeys(AllParsed(raw))
    && ShaText(declared) && hash(Stream(AllParsed(raw))) == Unhex(declared.value)
  }

  /** The object list of a manifest: accepted exactly if every entry is well-formed, no key
      repeats, and the declared digest is that of the canonical stream. */
  method LoadObjects(raw: seq<RawObject>, declared: Option<string>, hash: string -> Sha)
    returns (r: Option<seq<Object>>)
    ensures r.Some? <==> Acceptable(raw, declared, hash)
    ensures r.Some? ==> r.value == AllParsed(raw)
  {
    r := ParseObjects(raw);
    if r.None? { return; }
    var digest := Digest(r.value, hash);
    if !ShaText(declared) || digest != Unhex(declared.value) { r := None; }
  }
}
