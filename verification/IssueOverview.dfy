/**
 Three views of an issue's conclusion: the detail of the issue, the overview query of the issue
 service, and the overview function in the database. Tables are listed in any order.
 */
module IssueOverview {
  import opened Base
  import opened Issues
  import opened IssuesProofs
  import opened Listing

  // ----- The detail -----

  /** The links that carry a conclusion of the current generation. */
  function Current(db: Db, i: Id): set<Id>
    requires i in db.issues
  {
    set l | l in db.links && OnCurrent(db, i, l)
  }

  predicate OnCurrent(db: Db, i: Id, l: Id)
    requires i in db.issues && l in db.links
  {
    && db.links[l].issue == i && db.links[l].generation == db.issues[i].generation
    && db.links[l].conclusion.Some?
  }

  /** The detail takes the current link with the smallest identifier. */
  ghost predicate IsDetail(db: Db, i: Id, found: Option<Id>)
    requires i in db.issues
  {
    && (found.None? <==> Current(db, i) == {})
    && (found.Some? ==> found.value in Current(db, i) && forall k :: k in Current(db, i) ==> found.value <= k)
  }

  lemma {:induction false} Smallest(ids: set<Id>) returns (least: Id)
    requires ids != {}
    ensures least in ids && forall k :: k in ids ==> least <= k
  {
    least :| least in ids;
    if ids == {least} {
    } else {
      var rest := Smallest(ids - {least});
      forall k | k in ids ensures (if least <= rest then least else rest) <= k {
        assert k == least || k in ids - {least};
      }
      if rest < least { least := rest; }
    }
  }

  lemma DetailExists(db: Db, i: Id)
    requires i in db.issues
    ensures exists found :: IsDetail(db, i, found)
  {
    if Current(db, i) == {} {
      assert IsDetail(db, i, None);
    } else {
      var least := Smallest(Current(db, i));
      assert IsDetail(db, i, Some(least));
    }
  }

  ghost function DetailOf(db: Db, i: Id): (found: Option<Id>)
    requires i in db.issues
    ensures IsDetail(db, i, found)
  {
    DetailExists(db, i);
    var found :| IsDetail(db, i, found);
    found
  }

  datatype Verification = Concluded(conclusion: Conclusion) | AwaitsRetest | NotRecorded

  datatype Row = Row(issue: Id, verification: Verification, conclusion: Option<Conclusion>, session: Option<Id>)

  /** What the detail shows of an issue. */
  ghost function DetailRow(db: Db, i: Id): Row
    requires i in db.issues
  {
    var found := DetailOf(db, i);
    if found.Some? then
      var link := db.links[found.value];
      Row(i, Concluded(link.conclusion.value), link.conclusion, Some(link.session))
    else Row(i, if db.issues[i].note.Some? then AwaitsRetest else NotRecorded, None, None)
  }

  // ----- The service's query -----

  datatype Kind = PendingRetest | NeedsAction

  function JoinedLinks(db: Db, i: Id, ls: seq<Id>): seq<Id>
    requires i in db.issues
  {
    if ls == [] then []
    else (if ls[0] in db.links && OnCurrent(db, i, ls[0]) then [ls[0]] else []) + JoinedLinks(db, i, ls[1..])
  }

  function Nullable(ls: seq<Id>): seq<Option<Id>> {
    if ls == [] then [None] else seq(|ls|, k requires 0 <= k < |ls| => Some(ls[k]))
  }

  /** All conditions of the `WHERE` clause on one joined pair. */
  predicate Wanted(db: Db, i: Id, link: Option<Id>, work: Id, kind: Kind)
    requires i in db.issues
  {
    && db.issues[i].work == work && db.issues[i].status.Opened?
    && match kind
       case PendingRetest => db.issues[i].note.Some? && link.None?
       case NeedsAction => db.issues[i].note.None? || link.Some?
  }

  predicate HasConclusion(db: Db, link: Option<Id>) {
    link.Some? ==> link.value in db.links && db.links[link.value].conclusion.Some?
  }

  function Projected(db: Db, i: Id, link: Option<Id>): Row
    requires i in db.issues && HasConclusion(db, link)
  {
    Row(i,
        if link.Some? then Concluded(db.links[link.value].conclusion.value)
        else if db.issues[i].note.Some? then AwaitsRetest else NotRecorded,
        if link.Some? then db.links[link.value].conclusion else None,
        if link.Some? then Some(db.links[link.value].session) else None)
  }

  function Selected(db: Db, i: Id, links: seq<Option<Id>>, work: Id, kind: Kind): seq<Row>
    requires i in db.issues && forall k :: 0 <= k < |links| ==> HasConclusion(db, links[k])
  {
    if links == [] then []
    else (if Wanted(db, i, links[0], work, kind) then [Projected(db, i, links[0])] else [])
         + Selected(db, i, links[1..], work, kind)
  }

  lemma {:induction false} JoinedLinksConclude(db: Db, i: Id, ls: seq<Id>)
    requires i in db.issues
    ensures forall k :: 0 <= k < |JoinedLinks(db, i, ls)| ==>
              JoinedLinks(db, i, ls)[k] in ls && JoinedLinks(db, i, ls)[k] in Current(db, i)
    ensures forall l :: l in ls && l in Current(db, i) ==> l in JoinedLinks(db, i, ls)
  {
    if ls == [] {
      assert JoinedLinks(db, i, ls) == [];
    } else {
      JoinedLinksConclude(db, i, ls[1..]);
      assert ls == [ls[0]] + ls[1..];
    }
  }

  function OuterJoin(db: Db, i: Id, ls: seq<Id>): (joined: seq<Option<Id>>)
    requires i in db.issues
    ensures forall k :: 0 <= k < |joined| ==> HasConclusion(db, joined[k])
  {
    JoinedLinksConclude(db, i, ls);
    Nullable(JoinedLinks(db, i, ls))
  }

  function ServiceRows(db: Db, xs: seq<Id>, ls: seq<Id>, work: Id, kind: Kind): seq<Row>
    requires forall k :: 0 <= k < |xs| ==> xs[k] in db.issues
  {
    if xs == [] then []
    else Selected(db, xs[0], OuterJoin(db, xs[0], ls), work, kind) + ServiceRows(db, xs[1..], ls, work, kind)
  }

  // ----- The database function -----

  /** A row of the common table expression `scoped_issues`. */
  datatype Scoped = Scoped(issue: Id, note: Option<string>, conclusion: Option<Conclusion>, session: Option<Id>)

  function LeftJoined(db: Db, i: Id, ls: seq<Id>): seq<Scoped>
    requires i in db.issues
  {
    var matches := JoinedLinks(db, i, ls);
    JoinedLinksConclude(db, i, ls);
    if matches == [] then [Scoped(i, db.issues[i].note, None, None)]
    else seq(|matches|, k requires 0 <= k < |matches| =>
               Scoped(i, db.issues[i].note, db.links[matches[k]].conclusion, Some(db.links[matches[k]].session)))
  }

  function ScopedIssues(db: Db, xs: seq<Id>, ls: seq<Id>, allowed: bool, work: Id): seq<Scoped>
    requires forall k :: 0 <= k < |xs| ==> xs[k] in db.issues
  {
    if xs == [] then [] else ScopedIssue(db, xs[0], ls, allowed, work) + ScopedIssues(db, xs[1..], ls, allowed, work)
  }

  function ScopedIssue(db: Db, i: Id, ls: seq<Id>, allowed: bool, work: Id): seq<Scoped>
    requires i in db.issues
  {
    if allowed && db.issues[i].work == work && db.issues[i].status.Opened? then LeftJoined(db, i, ls) else []
  }

  predicate Keeps(kind: string, r: Scoped) {
    || (kind == "pending-retest" && r.note.Some? && r.conclusion.None?)
    || (kind == "needs-action" && (r.note.None? || r.conclusion.Some?))
  }

  function Shown(r: Scoped): Row {
    Row(r.issue,
        match r.conclusion
        case Some(c) => Concluded(c)
        case None => (match r.note case Some(_) => AwaitsRetest case None => NotRecorded),
        r.conclusion, r.session)
  }

  function FilteredIssues(rows: seq<Scoped>, kind: string): seq<Row> {
    if rows == [] then [] else (if Keeps(kind, rows[0]) then [Shown(rows[0])] else []) + FilteredIssues(rows[1..], kind)
  }

  function KindText(kind: Kind): string {
    match kind case PendingRetest => "pending-retest" case NeedsAction => "needs-action"
  }

  // ----- Both queries select the same rows -----

  lemma {:induction false} FilterOfParts(a: seq<Scoped>, b: seq<Scoped>, kind: string)
    ensures FilteredIssues(a + b, kind) == FilteredIssues(a, kind) + FilteredIssues(b, kind)
  {
    if a == [] {
      assert a + b == b;
    } else {
      assert (a + b)[1..] == a[1..] + b;
      FilterOfParts(a[1..], b, kind);
    }
  }

  /** The columns of a scoped row are those of a joined pair. */
  predicate Corresponds(db: Db, i: Id, r: Scoped, link: Option<Id>)
    requires i in db.issues && HasConclusion(db, link)
  {
    && r.issue == i && r.note == db.issues[i].note
    && r.conclusion == (if link.Some? then db.links[link.value].conclusion else None)
    && r.session == (if link.Some? then Some(db.links[link.value].session) else None)
  }

  lemma {:induction false} SamePairs(db: Db, i: Id, rows: seq<Scoped>, links: seq<Option<Id>>, work: Id, kind: Kind)
    requires i in db.issues && db.issues[i].work == work && db.issues[i].status.Opened? && |rows| == |links|
    requires forall k :: 0 <= k < |links| ==> HasConclusion(db, links[k]) && Corresponds(db, i, rows[k], links[k])
    ensures FilteredIssues(rows, KindText(kind)) == Selected(db, i, links, work, kind)
  {
    if rows == [] {
      assert links == [];
    } else {
      assert Corresponds(db, i, rows[0], links[0]);
      SamePairs(db, i, rows[1..], links[1..], work, kind);
    }
  }

  lemma {:induction false} NothingWanted(db: Db, i: Id, links: seq<Option<Id>>, work: Id, kind: Kind)
    requires i in db.issues && !(db.issues[i].work == work && db.issues[i].status.Opened?)
    requires forall k :: 0 <= k < |links| ==> HasConclusion(db, links[k])
    ensures Selected(db, i, links, work, kind) == []
  {
    if links == [] {
      assert Selected(db, i, links, work, kind) == [];
    } else {
      NothingWanted(db, i, links[1..], work, kind);
    }
  }

  lemma {:induction false} SameRows(db: Db, xs: seq<Id>, ls: seq<Id>, work: Id, kind: Kind)
    requires forall k :: 0 <= k < |xs| ==> xs[k] in db.issues
    ensures FilteredIssues(ScopedIssues(db, xs, ls, true, work), KindText(kind)) == ServiceRows(db, xs, ls, work, kind)
  {
    if xs == [] {
      assert ServiceRows(db, xs, ls, work, kind) == [];
    } else {
      var i := xs[0];
      var first := ScopedIssue(db, i, ls, true, work);
      SameRows(db, xs[1..], ls, work, kind);
      FilterOfParts(first, ScopedIssues(db, xs[1..], ls, true, work), KindText(kind));
      if db.issues[i].work == work && db.issues[i].status.Opened? {
        SamePairs(db, i, first, OuterJoin(db, i, ls), work, kind);
      } else {
        NothingWanted(db, i, OuterJoin(db, i, ls), work, kind);
      }
    }
  }

  // ----- And they are the details -----

  ghost predicate Lists(xs: seq<Id>, s: set<Id>) {
    (forall x :: x in xs <==> x in s) && forall i, j :: 0 <= i < j < |xs| ==> xs[i] != xs[j]
  }

  ghost predicate Due(db: Db, i: Id, work: Id, kind: Kind) {
    && i in db.issues && db.issues[i].work == work && db.issues[i].status.Opened?
    && (kind.PendingRetest? <==> DetailRow(db, i).verification.AwaitsRetest?)
  }

  /** The links joined with an issue are the one that its detail shows, if any. */
  lemma {:induction false} JoinedIsDetail(db: Db, i: Id, ls: seq<Id>)
    requires Inv(db) && i in db.issues && forall j, k :: 0 <= j < k < |ls| ==> ls[j] != ls[k]
    ensures var found := DetailOf(db, i);
            JoinedLinks(db, i, ls) == if found.Some? && found.value in ls then [found.value] else []
  {
    var found := DetailOf(db, i);
    if ls == [] {
      assert JoinedLinks(db, i, ls) == [];
    } else {
      JoinedIsDetail(db, i, ls[1..]);
      assert ls == [ls[0]] + ls[1..];
      OnlyDetailIsCurrent(db, i, ls[0]);
    }
  }

  lemma OnlyDetailIsCurrent(db: Db, i: Id, l: Id)
    requires Inv(db) && i in db.issues
    ensures l in Current(db, i) <==> DetailOf(db, i) == Some(l)
  {
    var found := DetailOf(db, i);
    if l in Current(db, i) { assert db.links[l].issue == db.links[found.value].issue; }
  }

  lemma JoinIsDetail(db: Db, i: Id, ls: seq<Id>)
    requires Inv(db) && i in db.issues && Lists(ls, db.links.Keys)
    ensures OuterJoin(db, i, ls) == [DetailOf(db, i)]
  {
    JoinedIsDetail(db, i, ls);
  }

  lemma SelectedIsDetail(db: Db, i: Id, ls: seq<Id>, work: Id, kind: Kind)
    requires Inv(db) && i in db.issues && Lists(ls, db.links.Keys)
    ensures Selected(db, i, OuterJoin(db, i, ls), work, kind)
            == if Due(db, i, work, kind) then [DetailRow(db, i)] else []
  {
    JoinIsDetail(db, i, ls);
    var found := DetailOf(db, i);
    assert OuterJoin(db, i, ls)[1..] == [];
    assert Due(db, i, work, kind) <==> Wanted(db, i, found, work, kind);
    assert Projected(db, i, found) == DetailRow(db, i);
  }

  /** The details of the issues that are due, one after the other. */
  ghost function Details(db: Db, xs: seq<Id>, work: Id, kind: Kind): seq<Row>
    requires forall k :: 0 <= k < |xs| ==> xs[k] in db.issues
  {
    if xs == [] then []
    else (if Due(db, xs[0], work, kind) then [DetailRow(db, xs[0])] else []) + Details(db, xs[1..], work, kind)
  }

  lemma {:induction false} ServiceRowsAreDetails(db: Db, xs: seq<Id>, ls: seq<Id>, work: Id, kind: Kind)
    requires Inv(db) && Lists(ls, db.links.Keys) && forall k :: 0 <= k < |xs| ==> xs[k] in db.issues
    ensures ServiceRows(db, xs, ls, work, kind) == Details(db, xs, work, kind)
  {
    if xs == [] {
      assert ServiceRows(db, xs, ls, work, kind) == [];
    } else {
      SelectedIsDetail(db, xs[0], ls, work, kind);
      ServiceRowsAreDetails(db, xs[1..], ls, work, kind);
    }
  }

  lemma {:induction false} DetailsAreOfIssues(db: Db, xs: seq<Id>, work: Id, kind: Kind)
    requires forall k :: 0 <= k < |xs| ==> xs[k] in db.issues
    ensures forall r :: r in Details(db, xs, work, kind) ==> r.issue in xs
  {
    if xs == [] {
      assert Details(db, xs, work, kind) == [];
    } else {
      DetailsAreOfIssues(db, xs[1..], work, kind);
      assert xs == [xs[0]] + xs[1..];
    }
  }

  /** Each issue that is due has one row, the one of its detail, and there are no others. */
  lemma {:induction false} DetailsOnce(db: Db, xs: seq<Id>, work: Id, kind: Kind, r: Row)
    requires forall j, k :: 0 <= j < k < |xs| ==> xs[j] != xs[k]
    requires forall k :: 0 <= k < |xs| ==> xs[k] in db.issues
    ensures multiset(Details(db, xs, work, kind))[r] == if r.issue in xs && IsDue(db, work, kind, r) then 1 else 0
  {
    if xs == [] {
      assert Details(db, xs, work, kind) == [];
    } else {
      DetailsOnce(db, xs[1..], work, kind, r);
      assert xs == [xs[0]] + xs[1..];
      var first := if Due(db, xs[0], work, kind) then [DetailRow(db, xs[0])] else [];
      assert multiset(first)[r] == if r.issue == xs[0] && IsDue(db, work, kind, r) then 1 else 0;
    }
  }

  /** The row is the detail of an issue that is due. */
  ghost predicate IsDue(db: Db, work: Id, kind: Kind, r: Row) {
    Due(db, r.issue, work, kind) && r == DetailRow(db, r.issue)
  }

  lemma {:induction false} DetailsAreDistinct(db: Db, xs: seq<Id>, work: Id, kind: Kind)
    requires forall j, k :: 0 <= j < k < |xs| ==> xs[j] != xs[k]
    requires forall k :: 0 <= k < |xs| ==> xs[k] in db.issues
    ensures DistinctIds(Details(db, xs, work, kind), IssueOf)
  {
    if xs == [] {
      assert Details(db, xs, work, kind) == [];
    } else {
      DetailsAreDistinct(db, xs[1..], work, kind);
      DetailsAreOfIssues(db, xs[1..], work, kind);
      var rest := Details(db, xs[1..], work, kind);
      assert forall k :: 0 <= k < |rest| ==> rest[k] in rest;
    }
  }

  function IssueOf(r: Row): Id { r.issue }

  /** The column `updated_at` of the row's issue. */
  function UpdatedAt(updated: Id -> int): Row -> int { (r: Row) => updated(r.issue) }

  // ----- Results -----

  function ServiceView(db: Db, xs: seq<Id>, ls: seq<Id>, updated: Id -> int, work: Id, kind: Kind): seq<Row>
    requires forall k :: 0 <= k < |xs| ==> xs[k] in db.issues
  {
    Ordered(ServiceRows(db, xs, ls, work, kind), UpdatedAt(updated), IssueOf)
  }

  function DatabaseView(
      db: Db, xs: seq<Id>, ls: seq<Id>, updated: Id -> int, allowed: bool, work: Id, kind: string): seq<Row>
    requires forall k :: 0 <= k < |xs| ==> xs[k] in db.issues
  {
    Ordered(FilteredIssues(ScopedIssues(db, xs, ls, allowed, work), kind), UpdatedAt(updated), IssueOf)
  }

  /** With access, both queries return the same pages, however the tables are listed; without, the
      database returns none. Their totals differ exactly on pages that begin behind the end. */
  lemma QueriesAgree(
      db: Db, xs: seq<Id>, ls: seq<Id>, updated: Id -> int, work: Id, kind: Kind, page: nat, size: nat)
    requires Lists(xs, db.issues.Keys) && page >= 1 && size >= 1
    ensures var service := ServiceView(db, xs, ls, updated, work, kind);
            var database := DatabaseView(db, xs, ls, updated, true, work, KindText(kind));
            && Page(database, page, size) == Page(service, page, size)
            && (ReportedTotal(database, page, size) == |service| <==> service == [] || (page - 1) * size < |service|)
    ensures DatabaseView(db, xs, ls, updated, false, work, KindText(kind)) == []
  {
    SameRows(db, xs, ls, work, kind);
    TotalIsRightIffPageExists(ServiceView(db, xs, ls, updated, work, kind), page, size);
    NoAccessNoRows(db, xs, ls, work);
  }

  lemma {:induction false} NoAccessNoRows(db: Db, xs: seq<Id>, ls: seq<Id>, work: Id)
    requires forall k :: 0 <= k < |xs| ==> xs[k] in db.issues
    ensures ScopedIssues(db, xs, ls, false, work) == []
  {
    if xs == [] {
      assert ScopedIssues(db, xs, ls, false, work) == [];
    } else {
      NoAccessNoRows(db, xs[1..], ls, work);
    }
  }

  /** In every reachable state all pages of an overview one after the other are, newest first, one
      row for each open issue of the work that is due, showing what its detail shows. An open
      issue is due in exactly one of the two overviews. */
  lemma OverviewAgreesWithDetail(
      db: Db, run: seq<Action>, xs: seq<Id>, ls: seq<Id>, updated: Id -> int, work: Id, kind: Kind,
      n: nat, size: nat, r: Row)
    requires Initial(db) && Legal(db, run) && size >= 1
    requires Lists(xs, After(db, run).issues.Keys) && Lists(ls, After(db, run).links.Keys)
    requires n * size >= |ServiceRows(After(db, run), xs, ls, work, kind)|
    ensures var v := After(db, run);
            var rows := FirstPages(DatabaseView(v, xs, ls, updated, true, work, KindText(kind)), n, size);
            && rows == FirstPages(ServiceView(v, xs, ls, updated, work, kind), n, size)
            && InOrder(rows, UpdatedAt(updated), IssueOf)
            && multiset(rows)[r] == if IsDue(v, work, kind, r) then 1 else 0
  {
    var v := After(db, run);
    RunKeepsInv(db, run);
    SameRows(v, xs, ls, work, kind);
    ServiceRowsAreDetails(v, xs, ls, work, kind);
    DetailsOnce(v, xs, work, kind, r);
    DetailsAreDistinct(v, xs, work, kind);
    var rows := ServiceRows(v, xs, ls, work, kind);
    OrderedKeeps(rows, UpdatedAt(updated), IssueOf);
    assert |multiset(rows)| == |rows|;
    assert |multiset(ServiceView(v, xs, ls, updated, work, kind))| == |ServiceView(v, xs, ls, updated, work, kind)|;
    PagesArePrefix(ServiceView(v, xs, ls, updated, work, kind), n, size);
  }
}
