/** Required and optional text, as the services accept it. */
module Text {
  import opened Base

  /** The characters that `str.strip` removes. */
  predicate IsSpace(c: char) {
    || '\t' <= c <= '\r' || '\U{1c}' <= c <= ' ' || c == '\U{85}' || c == '\U{a0}' || c == '\U{1680}'
    || c == '\U{2028}' || c == '\U{2029}' || c == '\U{202f}' || c == '\U{205f}' || c == '\U{3000}'
    || '\U{2000}' <= c <= '\U{200a}'
  }

  function TrimmedLeft(s: string): string {
    if s != "" && IsSpace(s[0]) then TrimmedLeft(s[1..]) else s
  }

  function TrimmedRight(s: string): string {
    if s != "" && IsSpace(s[|s| - 1]) then TrimmedRight(s[..|s| - 1]) else s
  }

  function Trimmed(s: string): string { TrimmedRight(TrimmedLeft(s)) }

  function Required(s: string, limit: nat): Option<string> {
    if Trimmed(s) == "" || |Trimmed(s)| > limit then None else Some(Trimmed(s))
  }

  /** Optional text is acceptable unless it is too long; blank text counts as none. */
  predicate Fits(t: Option<string>, limit: nat) { t.Some? ==> |Trimmed(t.value)| <= limit }

  function Normal(t: Option<string>): Option<string> {
    if t.Some? && Trimmed(t.value) != "" then Some(Trimmed(t.value)) else None
  }

  predicate Blank(s: string) { forall i :: 0 <= i < |s| ==> IsSpace(s[i]) }

  predicate Tight(s: string) { s != "" ==> !IsSpace(s[0]) && !IsSpace(s[|s| - 1]) }

  lemma {:induction false} LeftParts(s: string) returns (front: string)
    ensures s == front + TrimmedLeft(s) && Blank(front)
    ensures TrimmedLeft(s) != "" ==> !IsSpace(TrimmedLeft(s)[0])
  {
    front := "";
    if s == "" || !IsSpace(s[0]) {
    } else {
      var more := LeftParts(s[1..]);
      front := [s[0]] + more;
    }
  }

  lemma BlankMore(s: string, c: char)
    requires Blank(s) && IsSpace(c)
    ensures Blank(s + [c])
  {
  }

  lemma {:induction false} RightParts(s: string) returns (back: string)
    ensures s == TrimmedRight(s) + back && Blank(back)
    ensures TrimmedRight(s) != "" ==> !IsSpace(TrimmedRight(s)[|TrimmedRight(s)| - 1])
  {
    back := "";
    if s == "" || !IsSpace(s[|s| - 1]) {
    } else {
      var front, last := s[..|s| - 1], s[|s| - 1];
      var more := RightParts(front);
      assert s == front + [last] && TrimmedRight(s) == TrimmedRight(front);
      BlankMore(more, last);
      back := more + [last];
    }
  }

  /** Trimming cuts only blank ends and leaves none. */
  lemma TrimmedParts(s: string) returns (front: string, back: string)
    ensures s == front + Trimmed(s) + back && Blank(front) && Blank(back) && Tight(Trimmed(s))
  {
    front := LeftParts(s);
    back := RightParts(TrimmedLeft(s));
    assert Trimmed(s) != "" ==> Trimmed(s)[0] == TrimmedLeft(s)[0];
  }

  /** Accepted text is accepted again and unchanged. */
  lemma RequiredTwice(s: string, limit: nat)
    requires Required(s, limit).Some?
    ensures Required(Required(s, limit).value, limit) == Required(s, limit)
  {
    var front, back := TrimmedParts(s);
  }

  lemma NormalTwice(t: Option<string>, limit: nat)
    requires Fits(t, limit)
    ensures Fits(Normal(t), limit) && Normal(Normal(t)) == Normal(t)
  {
    if Normal(t).Some? { RequiredTwice(t.value, limit); }
  }
}
