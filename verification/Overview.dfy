/** The overview of the started sessions of a work: what the SQL functions select, group and page. */
module Overview {
  import opened Base
  import opened Listing

  datatype SessionStatus = Scheduled | Started | Cancelled

  datatype Completion = Completed | Interrupted

  datatype Session = Session(
    id: Id, workspace: Id, work: Id, status: SessionStatus, scheduledAt: int,
    headcount: Option<nat>, duration: Option<nat>, completion: Option<Completion>, mode: Option<string>,
    changeReason: Option<string>, variantObserved: bool)

  datatype Filters = Filters(
    since: Option<int>, before: Option<int>, headcountMin: Option<nat>, headcountMax: Option<nat>, mode: Option<string>)

  datatype Scope = Scope(allowed: bool, workspace: Id, work: Id)

  datatype Coverage = Coverage(headcount: nat, completed: nat, interrupted: nat, unrecorded: nat, variants: nat)

  datatype Summary = Summary(
    included: nat, missingHeadcount: nat, missingDuration: nat, missingCompletion: nat, missingMode: nat,
    variants: nat, coverage: seq<Coverage>)

  // ----- Selection -----

  /** A comparison with a null column is not true. */
  predicate Selected(scope: Scope, f: Filters, s: Session) {
    && scope.allowed && s.workspace == scope.workspace && s.work == scope.work && s.status.Started?
    && (f.since.Some? ==> s.scheduledAt >= f.since.value)
    && (f.before.Some? ==> s.scheduledAt < f.before.value)
    && (f.headcountMin.Some? ==> s.headcount.Some? && s.headcount.value >= f.headcountMin.value)
    && (f.headcountMax.Some? ==> s.headcount.Some? && s.headcount.value <= f.headcountMax.value)
    && (f.mode.Some? ==> s.mode == f.mode)
  }

  function Included(table: seq<Session>, scope: Scope, f: Filters): seq<Session> {
    if table == [] then []
    else (if Selected(scope, f, table[0]) then [table[0]] else []) + Included(table[1..], scope, f)
  }

  lemma {:induction false} IncludedExactly(table: seq<Session>, scope: Scope, f: Filters, s: Session)
    ensures multiset(Included(table, scope, f))[s] == if Selected(scope, f, s) then multiset(table)[s] else 0
  {
    if table == [] {
    } else {
      IncludedExactly(table[1..], scope, f, s);
      assert table == [table[0]] + table[1..];
    }
  }

  /** `BTRIM` removes blanks only. */
  predicate OnlyBlanks(t: string) { forall k :: 0 <= k < |t| ==> t[k] == ' ' }

  predicate HasVariant(s: Session) { (s.changeReason.Some? && !OnlyBlanks(s.changeReason.value)) || s.variantObserved }

  // ----- Grouping -----

  function Count(rows: seq<Session>, p: Session -> bool): nat {
    if rows == [] then 0 else (if p(rows[0]) then 1 else 0) + Count(rows[1..], p)
  }

  function At(h: nat, p: Session -> bool): Session -> bool { (s: Session) => s.headcount == Some(h) && p(s) }

  function Missing(p: Session -> bool): Session -> bool { (s: Session) => s.headcount.None? && p(s) }

  function Ends(c: Option<Completion>): Session -> bool { (s: Session) => s.completion == c }

  function AnySession(): Session -> bool { (s: Session) => true }

  function Variants(): Session -> bool { (s: Session) => HasVariant(s) }

  function InsertHead(h: nat, hs: seq<nat>): seq<nat> {
    if hs == [] || h < hs[0] then [h] + hs else if h == hs[0] then hs else [hs[0]] + InsertHead(h, hs[1..])
  }

  function Heads(rows: seq<Session>): seq<nat> {
    if rows == [] then []
    else if rows[0].headcount.None? then Heads(rows[1..])
    else InsertHead(rows[0].headcount.value, Heads(rows[1..]))
  }

  function Group(rows: seq<Session>, h: nat): Coverage {
    Coverage(h, Count(rows, At(h, Ends(Some(Completed)))), Count(rows, At(h, Ends(Some(Interrupted)))),
             Count(rows, At(h, Ends(None))), Count(rows, At(h, Variants())))
  }

  function Groups(rows: seq<Session>, hs: seq<nat>): seq<Coverage> {
    seq(|hs|, k requires 0 <= k < |hs| => Group(rows, hs[k]))
  }

  function Summarised(table: seq<Session>, scope: Scope, f: Filters): Summary {
    var rows := Included(table, scope, f);
    Summary(|rows|, Count(rows, Missing(AnySession())), Count(rows, (s: Session) => s.duration.None?),
            Count(rows, Ends(None)), Count(rows, (s: Session) => s.mode.None?), Count(rows, Variants()),
            Groups(rows, Heads(rows)))
  }

  predicate Increasing(hs: seq<nat>) { forall i, j :: 0 <= i < j < |hs| ==> hs[i] < hs[j] }

  lemma {:induction false} InsertHeadKeeps(h: nat, hs: seq<nat>)
    requires Increasing(hs)
    ensures Increasing(InsertHead(h, hs))
    ensures forall x :: x in InsertHead(h, hs) <==> x == h || x in hs
  {
    if hs == [] || h <= hs[0] {
    } else {
      InsertHeadKeeps(h, hs[1..]);
      assert hs == [hs[0]] + hs[1..];
      forall x | x in InsertHead(h, hs[1..]) ensures hs[0] < x { assert x == h || x in hs[1..]; }
    }
  }

  lemma {:induction false} HeadsAreHeadcounts(rows: seq<Session>)
    ensures Increasing(Heads(rows))
    ensures forall h :: h in Heads(rows) <==> exists s :: s in rows && s.headcount == Some(h)
  {
    if rows == [] {
    } else {
      HeadsAreHeadcounts(rows[1..]);
      assert rows == [rows[0]] + rows[1..];
      if rows[0].headcount.Some? { InsertHeadKeeps(rows[0].headcount.value, Heads(rows[1..])); }
    }
  }

  /** Sum of one count over headcounts. */
  function Total(rows: seq<Session>, p: Session -> bool, hs: seq<nat>): nat {
    if hs == [] then 0 else Count(rows, At(hs[0], p)) + Total(rows, p, hs[1..])
  }

  lemma {:induction false} TotalStep(rows: seq<Session>, p: Session -> bool, hs: seq<nat>)
    requires rows != [] && Increasing(hs)
    ensures Total(rows, p, hs)
            == Total(rows[1..], p, hs)
               + if rows[0].headcount.Some? && rows[0].headcount.value in hs && p(rows[0]) then 1 else 0
  {
    if hs == [] {
    } else {
      TotalStep(rows, p, hs[1..]);
      assert hs == [hs[0]] + hs[1..];
    }
  }

  /** Rows with a property are those without a headcount plus those of each headcount. */
  lemma {:induction false} Partition(rows: seq<Session>, p: Session -> bool, hs: seq<nat>)
    requires Increasing(hs) && forall s :: s in rows && s.headcount.Some? ==> s.headcount.value in hs
    ensures Count(rows, p) == Count(rows, Missing(p)) + Total(rows, p, hs)
  {
    if rows == [] {
      TotalOfNone(p, hs);
    } else {
      assert rows == [rows[0]] + rows[1..];
      Partition(rows[1..], p, hs);
      TotalStep(rows, p, hs);
    }
  }

  lemma {:induction false} TotalOfNone(p: Session -> bool, hs: seq<nat>)
    ensures Total([], p, hs) == 0
  {
    if hs == [] {
    } else {
      TotalOfNone(p, hs[1..]);
    }
  }

  lemma {:induction false} ThreeEnds(rows: seq<Session>, h: nat)
    ensures Count(rows, At(h, AnySession()))
            == Group(rows, h).completed + Group(rows, h).interrupted + Group(rows, h).unrecorded
  {
    if rows == [] {
    } else {
      var s := rows[0];
      ThreeEnds(rows[1..], h);
      assert At(h, AnySession())(s) <==> s.headcount == Some(h);
      assert forall c :: At(h, Ends(c))(s) <==> s.headcount == Some(h) && s.completion == c;
      if s.completion.Some? { assert s.completion.value == Completed || s.completion.value == Interrupted; }
    }
  }

  lemma {:induction false} CountAll(rows: seq<Session>)
    ensures Count(rows, AnySession()) == |rows|
  {
    if rows == [] {
    } else {
      CountAll(rows[1..]);
    }
  }

  function Covered(cs: seq<Coverage>): nat {
    if cs == [] then 0 else cs[0].completed + cs[0].interrupted + cs[0].unrecorded + Covered(cs[1..])
  }

  function CoveredVariants(cs: seq<Coverage>): nat {
    if cs == [] then 0 else cs[0].variants + CoveredVariants(cs[1..])
  }

  lemma {:induction false} CoveredIsTotal(rows: seq<Session>, hs: seq<nat>)
    ensures Covered(Groups(rows, hs)) == Total(rows, AnySession(), hs)
    ensures CoveredVariants(Groups(rows, hs)) == Total(rows, Variants(), hs)
  {
    if hs == [] {
    } else {
      CoveredIsTotal(rows, hs[1..]);
      ThreeEnds(rows, hs[0]);
      assert Groups(rows, hs)[1..] == Groups(rows, hs[1..]);
    }
  }

  /** Nothing is lost or counted twice: the included sessions are those without a headcount plus
      those of each headcount, completed, interrupted or unrecorded; likewise the temporary variants. */
  lemma OverviewConserves(table: seq<Session>, scope: Scope, f: Filters)
    ensures var s := Summarised(table, scope, f); var rows := Included(table, scope, f);
            && s.included == s.missingHeadcount + Covered(s.coverage)
            && s.variants == Count(rows, Missing(Variants())) + CoveredVariants(s.coverage)
  {
    var rows := Included(table, scope, f);
    HeadsAreHeadcounts(rows);
    Partition(rows, AnySession(), Heads(rows));
    Partition(rows, Variants(), Heads(rows));
    CountAll(rows);
    CoveredIsTotal(rows, Heads(rows));
  }

  /** Coverage is strictly increasing and lists exactly the headcounts that occur. */
  lemma CoverageIsExact(table: seq<Session>, scope: Scope, f: Filters, h: nat)
    ensures var cs := Summarised(table, scope, f).coverage;
            && (forall i, j :: 0 <= i < j < |cs| ==> cs[i].headcount < cs[j].headcount)
            && ((exists i :: 0 <= i < |cs| && cs[i].headcount == h)
                <==> exists s :: s in Included(table, scope, f) && s.headcount == Some(h))
  {
    var rows := Included(table, scope, f);
    HeadsAreHeadcounts(rows);
    var cs := Summarised(table, scope, f).coverage;
    assert forall i :: 0 <= i < |cs| ==> cs[i].headcount == Heads(rows)[i];
    if h in Heads(rows) {
      var i :| 0 <= i < |Heads(rows)| && Heads(rows)[i] == h;
      assert cs[i].headcount == h;
    }
  }

  /** A headcount filter leaves out every session without a headcount. */
  lemma FilteredHeadcountIsKnown(table: seq<Session>, scope: Scope, f: Filters)
    requires f.headcountMin.Some? || f.headcountMax.Some?
    ensures Summarised(table, scope, f).missingHeadcount == 0
    ensures Summarised(table, scope, f).included == Covered(Summarised(table, scope, f).coverage)
  {
    var rows := Included(table, scope, f);
    forall s | s in rows ensures s.headcount.Some? {
      IncludedExactly(table, scope, f, s);
      assert multiset(rows)[s] > 0;
    }
    NoneMissing(rows);
    OverviewConserves(table, scope, f);
  }

  lemma {:induction false} NoneMissing(rows: seq<Session>)
    requires forall s :: s in rows ==> s.headcount.Some?
    ensures Count(rows, Missing(AnySession())) == 0
  {
    if rows == [] {
    } else {
      NoneMissing(rows[1..]);
    }
  }

  // ----- Order and pages -----

  function ScheduledAt(s: Session): int { s.scheduledAt }

  function SessionId(s: Session): Id { s.id }

  lemma {:induction false} IncludedIsDistinct(table: seq<Session>, scope: Scope, f: Filters)
    requires DistinctIds(table, SessionId)
    ensures DistinctIds(Included(table, scope, f), SessionId)
  {
    if table == [] {
      assert Included(table, scope, f) == [];
    } else {
      IncludedIsDistinct(table[1..], scope, f);
      var rest := Included(table[1..], scope, f);
      forall k | 0 <= k < |rest| ensures rest[k] in table[1..] {
        IncludedExactly(table[1..], scope, f, rest[k]);
        assert multiset(rest)[rest[k]] > 0;
      }
    }
  }

  function View(table: seq<Session>, scope: Scope, f: Filters): seq<Session> {
    Ordered(Included(table, scope, f), ScheduledAt, SessionId)
  }

  /** All pages one after the other are the selected sessions, newest first, each exactly once. */
  lemma PagesAreTheView(table: seq<Session>, scope: Scope, f: Filters, n: nat, size: nat, s: Session)
    requires DistinctIds(table, SessionId) && size >= 1 && n * size >= |Included(table, scope, f)|
    ensures var rows := FirstPages(View(table, scope, f), n, size);
            && InOrder(rows, ScheduledAt, SessionId)
            && multiset(rows)[s] == if s in table && Selected(scope, f, s) then 1 else 0
  {
    var rows := Included(table, scope, f);
    IncludedIsDistinct(table, scope, f);
    OrderedKeeps(rows, ScheduledAt, SessionId);
    assert |multiset(View(table, scope, f))| == |View(table, scope, f)| && |multiset(rows)| == |rows|;
    PagesArePrefix(View(table, scope, f), n, size);
    IncludedExactly(table, scope, f, s);
    OnceInTable(table, s);
  }

  lemma {:induction false} OnceInTable(table: seq<Session>, s: Session)
    requires DistinctIds(table, SessionId)
    ensures multiset(table)[s] == if s in table then 1 else 0
  {
    if table == [] {
      assert s !in table;
    } else {
      assert table == [table[0]] + table[1..];
      OnceInTable(table[1..], s);
    }
  }

  /** The order of the table does not matter to the view. */
  lemma ViewIgnoresTableOrder(a: seq<Session>, b: seq<Session>, scope: Scope, f: Filters)
    requires DistinctIds(a, SessionId) && DistinctIds(b, SessionId) && multiset(a) == multiset(b)
    ensures View(a, scope, f) == View(b, scope, f)
  {
    IncludedIsDistinct(a, scope, f);
    IncludedIsDistinct(b, scope, f);
    OrderedKeeps(Included(a, scope, f), ScheduledAt, SessionId);
    OrderedKeeps(Included(b, scope, f), ScheduledAt, SessionId);
    forall s ensures multiset(Included(a, scope, f))[s] == multiset(Included(b, scope, f))[s] {
      IncludedExactly(a, scope, f, s);
      IncludedExactly(b, scope, f, s);
    }
    OrderIsUnique(View(a, scope, f), View(b, scope, f), ScheduledAt, SessionId);
  }
}
