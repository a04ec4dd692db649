/**
 The transactions of the issue service, statement by statement, over the tables they update in
 place. Each one is tied to the action of `Issues` that it performs.
 */
module IssueStore {
  import opened Base
  import opened Text
  import opened Issues
  import Outbox

  datatype Failure =
    | Invalid | Unavailable | Forbidden | RevisionConflict | ResultRequired | EvidenceRequired
    | AlreadyLinked | LastEvidence | OperationConflict | Retryable

  datatype Outcome = Done | Refused(failure: Failure)

  datatype Creation = Created | Replayed(issue: Id) | NotCreated(failure: Failure)

  predicate HasKey(issues: map<Id, Issue>, work: Id, key: string, i: Id) {
    i in issues && issues[i].work == work && issues[i].key == key
  }

  function Cleared(links: map<Id, Link>, rows: set<Id>): map<Id, Link> {
    map l | l in links :: if l in rows then Inconclusive(links[l]) else links[l]
  }

  function Settled(todos: map<Source, TodoStatus>, rows: set<Source>, to: TodoStatus): map<Source, TodoStatus> {
    map s | s in todos :: if s in rows then to else todos[s]
  }

  /** Every reference is a source that may be linked, from a session of the work. */
  predicate FromWork(sources: map<Id, Id>, sessions: map<Id, Session>, work: Id, ref: Id) {
    ref in sources && sources[ref] in sessions && sessions[sources[ref]].work == work
  }

  predicate NoRepeats(refs: seq<Id>) { forall i, j :: 0 <= i < j < |refs| ==> refs[i] != refs[j] }

  lemma NotifyMore(todos: map<Source, TodoStatus>, done: set<Id>, a: Id, kind: Outbox.TodoKind, key: Outbox.SourceKey)
    ensures Notified(todos, done + {a}, kind, key)
            == var before := Notified(todos, done, kind, key); var s := Outbox.Source(a, kind, key);
               if s in before then before else before[s := Outbox.Open]
  {
  }

  /** The new evidence rows, one for each reference. */
  function NewRows(i: Id, refs: seq<Id>, ids: seq<Id>, sources: map<Id, Id>): (rows: map<Id, Evidence>)
    requires |ids| == |refs| && NoRepeats(ids) && forall k :: k in refs ==> k in sources
    ensures forall k :: 0 <= k < |refs| ==> ids[k] in rows && rows[ids[k]] == Evidence(i, refs[k], sources[refs[k]])
    ensures forall e :: e in rows ==> e in ids && rows[e].source in refs
  {
    map k | 0 <= k < |refs| :: ids[k] := Evidence(i, refs[k], sources[refs[k]])
  }

  lemma NewRowsAreValid(db: Db, i: Id, work: Id, refs: seq<Id>, ids: seq<Id>, sources: map<Id, Id>)
    requires refs != [] && |ids| == |refs| && NoRepeats(ids) && NoRepeats(refs)
    requires forall e :: e in ids ==> e !in db.evidence
    requires forall k :: k in refs ==> k in sources && FromWork(sources, db.sessions, work, k)
    ensures ValidSources(db, i, work, NewRows(i, refs, ids, sources))
  {
    var rows := NewRows(i, refs, ids, sources);
    assert ids[0] in rows;
    forall e | e in rows ensures e !in db.evidence && rows[e].issue == i && rows[e].session in db.sessions
                                 && db.sessions[rows[e].session].work == work
    {
      var k :| 0 <= k < |refs| && e == ids[k];
      assert FromWork(sources, db.sessions, work, refs[k]);
    }
    forall e, f | e in rows && f in rows && rows[e].source == rows[f].source ensures e == f {
      var j :| 0 <= j < |refs| && e == ids[j];
      var k :| 0 <= k < |refs| && f == ids[k];
      assert refs[j] == refs[k];
    }
  }

  class Store {
    var issues: map<Id, Issue>
    var links: map<Id, Link>
    var evidence: map<Id, Evidence>
    var sessions: map<Id, Session>
    var maintainers: map<Id, set<Id>>
    var todos: map<Source, TodoStatus>
    /** The session of each observation and each submitted feedback. */
    var sources: map<Id, Id>

    function View(): Db
      reads this
    {
      Db(issues, links, evidence, sessions, maintainers, todos)
    }

    /** The check constraint on the conclusion columns. */
    ghost predicate ReasonsMatch()
      reads this`links
    {
      forall l :: l in links ==> (links[l].conclusion.Some? <==> links[l].reason.Some?)
    }

    constructor ()
      ensures Initial(View()) && ReasonsMatch()
    {
      issues, links, evidence, sessions, maintainers, todos, sources := map[], map[], map[], map[], map[], map[], map[];
    }

    /** The checks that every change of an issue starts with. */
    function Admission(access: Outcome, i: Id, expected: int): (r: Outcome)
      reads this
      ensures r.Done? <==> expected > 0 && access.Done? && AtRevision(View(), i, expected)
      ensures r.Refused? && access.Done? && expected > 0 ==>
        r.failure == if i in issues then RevisionConflict else Unavailable
    {
      if expected <= 0 then Refused(Invalid)
      else if access.Refused? then access
      else if i !in issues then Refused(Unavailable)
      else if issues[i].revision != expected then Refused(RevisionConflict)
      else Done
    }

    // ----- Loops -----

    method ClearConclusions(rows: set<Id>)
      requires rows <= links.Keys
      modifies this`links
      ensures links == Cleared(old(links), rows)
    {
      var rest := rows;
      while rest != {}
        invariant rest <= rows && links == Cleared(old(links), rows - rest)
      {
        var l :| l in rest;
        links := links[l := links[l].(conclusion := None)];
        links := links[l := links[l].(reason := None)];
        rest := rest - {l};
      }
    }

    method CloseTodosForTarget(kind: Outbox.TodoKind, i: Id, to: TodoStatus)
      requires !to.Open?
      modifies this`todos
      ensures todos == ClosedFor(old(todos), kind, i, to)
    {
      var rows := set s | s in todos && Targets(todos, s, kind, i);
      var rest := rows;
      while rest != {}
        invariant rest <= rows && todos == Settled(old(todos), rows - rest, to)
      {
        var s :| s in rest;
        if todos[s].Open? { todos := todos[s := to]; }
        rest := rest - {s};
      }
    }

    method CreateTodo(s: Source) returns (created: bool)
      modifies this`todos
      ensures created <==> s !in old(todos)
      ensures todos == if created then old(todos)[s := Outbox.Open] else old(todos)
    {
      created := s !in todos;
      if created { todos := todos[s := Outbox.Open]; }
    }

    method Notify(recipients: set<Id>, kind: Outbox.TodoKind, key: Outbox.SourceKey)
      modifies this`todos
      ensures todos == Notified(old(todos), recipients, kind, key)
    {
      var rest := recipients;
      ghost var done: set<Id> := {};
      while rest != {}
        invariant done + rest == recipients
        invariant todos == Notified(old(todos), done, kind, key)
      {
        var a :| a in rest;
        NotifyMore(old(todos), done, a, kind, key);
        var created := CreateTodo(Outbox.Source(a, kind, key));
        rest, done := rest - {a}, done + {a};
      }
    }

    method ValidateSources(work: Id, refs: seq<Id>) returns (r: Outcome)
      ensures r.Done? <==>
        refs != [] && NoRepeats(refs) && forall k :: k in refs ==> FromWork(sources, sessions, work, k)
      ensures r.Refused? ==> r.failure == if refs == [] || !NoRepeats(refs) then Invalid else Unavailable
    {
      if refs == [] || !NoRepeats(refs) { return Refused(Invalid); }
      for k := 0 to |refs|
        invariant forall j :: 0 <= j < k ==> FromWork(sources, sessions, work, refs[j])
      {
        assert refs[k] in refs;
        if refs[k] !in sources { return Refused(Unavailable); }
        var session := sources[refs[k]];
        if session !in sessions || sessions[session].work != work { return Refused(Unavailable); }
      }
      r := Done;
    }

    /** Looks for a linked source of the session, one link after the other. */
    method HasEvidence(i: Id, session: Id) returns (found: bool)
      ensures found <==> HasEvidenceFrom(View(), i, session)
    {
      var rest := EvidenceOf(View(), i);
      while rest != {}
        invariant rest <= EvidenceOf(View(), i)
        invariant forall e :: e in EvidenceOf(View(), i) && e !in rest ==> evidence[e].session != session
      {
        var e :| e in rest;
        if evidence[e].session == session { return true; }
        rest := rest - {e};
      }
      found := false;
    }

    // ----- Transactions; `access` is the answer of the management check -----

    method WriteIssue(i: Id, work: Id, key: string, words: Words, status: IssueStatus, added: map<Id, Evidence>)
      modifies this`issues, this`evidence, this`todos
      ensures View() == AfterCreate(old(View()), i, work, key, words, status, added)
    {
      issues := issues[i := Issue(work, key, words, None, 0, status, 1)];
      evidence := evidence + added;
      if status.Opened? {
        Notify(Maintainers(View(), work), Outbox.IssueOpened, Outbox.OpenedKey(i, 1));
      }
    }

    /** What the request gets if its operation key is taken: a repetition is recognised only if it asks
        for what the issue is now. */
    method FindRepetition(work: Id, key: string, words: Words, status: IssueStatus, refs: seq<Id>)
      returns (r: Option<Creation>)
      ensures r.None? <==> KeyFree(View(), work, key)
      ensures r.Some? ==> r.value.Replayed? || r.value == NotCreated(OperationConflict)
      ensures r.Some? && r.value.Replayed? ==>
        && HasKey(issues, work, key, r.value.issue) && words == issues[r.value.issue].words
        && issues[r.value.issue].status == status && SourcesOf(View(), r.value.issue) == set k | k in refs
    {
      r := None;
      if j :| j in issues && HasKey(issues, work, key, j) {
        var same := issues[j].words == words && issues[j].status == status
                    && SourcesOf(View(), j) == set k | k in refs;
        r := Some(if same then Replayed(j) else NotCreated(OperationConflict));
      }
    }

    /** Creates the issue once for each operation key. */
    method CreateIssue(
        access: Outcome, i: Id, work: Id, key: string, words: Words, status: IssueStatus, refs: seq<Id>, ids: seq<Id>)
      returns (r: Creation, added: map<Id, Evidence>)
      requires i !in issues && |ids| == |refs| && NoRepeats(ids) && forall e :: e in ids ==> e !in evidence
      modifies this`issues, this`evidence, this`todos
      ensures r.Created? <==> && NormalWords(words).Some? && 0 < |key| <= 128 && access.Done?
                              && KeyFree(old(View()), work, key) && refs != [] && NoRepeats(refs)
                              && forall k :: k in refs ==> FromWork(sources, sessions, work, k)
      ensures !r.Created? ==> View() == old(View())
      ensures r.Created? ==>
        && ValidSources(old(View()), i, work, added) && added == NewRows(i, refs, ids, sources)
        && View() == AfterCreate(old(View()), i, work, key, NormalWords(words).value, status, added)
      ensures r.Replayed? ==>
        && HasKey(old(issues), work, key, r.issue) && NormalWords(words) == Some(old(issues)[r.issue].words)
        && old(issues)[r.issue].status == status && SourcesOf(old(View()), r.issue) == set k | k in refs
      ensures r == NotCreated(OperationConflict) && access.Done? ==> !KeyFree(old(View()), work, key)
    {
      added := map[];
      var normal := NormalWords(words);
      if normal.None? || !(0 < |key| <= 128) { return NotCreated(Invalid), map[]; }
      if access.Refused? { return NotCreated(access.failure), map[]; }
      var repeated := FindRepetition(work, key, normal.value, status, refs);
      if repeated.Some? { return repeated.value, map[]; }
      var valid := ValidateSources(work, refs);
      if valid.Refused? { return NotCreated(valid.failure), map[]; }
      added := NewRows(i, refs, ids, sources);
      NewRowsAreValid(View(), i, work, refs, ids, sources);
      WriteIssue(i, work, key, normal.value, status, added);
      r := Created;
    }

    /** The todos of an issue whose row was just updated. */
    method UpdateTodos(i: Id, wasOpen: bool, adjusted: bool)
      requires i in issues
      modifies this`todos
      ensures todos == NextTodos(old(todos), i, issues[i], wasOpen, adjusted, Maintainers(View(), issues[i].work))
    {
      if issues[i].status.Closed? {
        CloseTodosForTarget(Outbox.IssueOpened, i, Outbox.Completed);
        CloseTodosForTarget(Outbox.RetestNeeded, i, Outbox.Dismissed);
      } else {
        if !wasOpen {
          Notify(Maintainers(View(), issues[i].work), Outbox.IssueOpened, Outbox.OpenedKey(i, issues[i].revision));
        }
        if adjusted { CloseTodosForTarget(Outbox.RetestNeeded, i, Outbox.Dismissed); }
        if issues[i].note.Some? && (adjusted || !wasOpen) {
          Notify(Maintainers(View(), issues[i].work), Outbox.RetestNeeded,
                 Outbox.AdjustmentKey(i, issues[i].generation));
        }
      }
    }

    method WriteUpdate(i: Id, words: Words, note: Option<string>, status: IssueStatus)
      requires i in issues
      modifies this`issues, this`links, this`todos
      ensures issues == AfterUpdate(old(View()), i, words, note, status).issues
      ensures links == UpdatedLinks(old(View()), i, Adjusted(old(issues)[i], note))
      ensures todos == UpdatedTodos(old(View()), i, words, note, status)
    {
      var wasOpen := issues[i].status.Opened?;
      var adjusted := note != issues[i].note;
      issues := issues[i := issues[i].(words := words, note := note, status := status)];
      issues := issues[i := issues[i].(revision := issues[i].revision + 1)];
      if adjusted {
        issues := issues[i := issues[i].(generation := issues[i].generation + 1)];
        ClearConclusions(LinksOf(View(), i));
      }
      UpdateTodos(i, wasOpen, adjusted);
    }

    method UpdateIssue(access: Outcome, i: Id, words: Words, note: Option<string>, status: IssueStatus, expected: int)
      returns (r: Outcome)
      modifies this`issues, this`links, this`todos
      ensures r.Done? <==> && NormalWords(words).Some? && Fits(note, 4000) && expected > 0 && access.Done?
                           && AtRevision(old(View()), i, expected)
      ensures View() == if r.Done? then AfterUpdate(old(View()), i, NormalWords(words).value, Normal(note), status)
                        else old(View())
      ensures NormalWords(words).Some? && Fits(note, 4000) && expected > 0 && access.Done? && r.Refused? ==>
        r.failure == if i in old(issues) then RevisionConflict else Unavailable
    {
      var normal := NormalWords(words);
      if normal.None? || !Fits(note, 4000) { return Refused(Invalid); }
      r := Admission(access, i, expected);
      if r.Refused? { return; }
      WriteUpdate(i, normal.value, Normal(note), status);
    }

    /** A second link to the same session breaks the unique constraint. */
    method BindRetestSession(access: Outcome, i: Id, session: Id, l: Id, actor: Id, expected: int) returns (r: Outcome)
      requires l !in links
      modifies this`issues, this`links, this`todos
      ensures r.Done? <==> && expected > 0 && access.Done? && AtRevision(old(View()), i, expected)
                           && MayBind(old(View()), i, session, l)
      ensures View() == if r.Done? then AfterBind(old(View()), i, session, l, actor) else old(View())
      ensures r == Refused(Retryable) && access.Done? ==>
        exists k :: k in old(links) && old(links)[k].issue == i && old(links)[k].session == session
    {
      r := Admission(access, i, expected);
      if r.Refused? { return; }
      if issues[i].note.None? { return Refused(Invalid); }
      if session !in sessions || sessions[session].work != issues[i].work { return Refused(Unavailable); }
      if exists k :: k in links && links[k].issue == i && links[k].session == session { return Refused(Retryable); }
      links := links[l := Link(i, session, issues[i].generation, None, None)];
      issues := issues[i := issues[i].(revision := issues[i].revision + 1)];
      CloseTodosForTarget(Outbox.RetestNeeded, i, Outbox.Completed);
      Notify(Maintainers(View(), issues[i].work) - {actor}, Outbox.RetestArranged, Outbox.LinkKey(l));
      r := Done;
    }

    /** Only one link of an issue keeps a conclusion. */
    method WriteConclusion(i: Id, l: Id, c: Conclusion, reason: string)
      requires ReasonsMatch() && l in links && links[l].issue == i
      modifies this`links
      ensures ReasonsMatch() && links == ConcludedLinks(old(links), i, l, c, reason)
    {
      var previous := set k | k in links && links[k].issue == i && k != l && links[k].conclusion.Some?;
      ClearConclusions(previous);
      links := links[l := links[l].(conclusion := Some(c), reason := Some(reason))];
      assert links == ConcludedLinks(old(links), i, l, c, reason);
    }

    method SaveRetestConclusion(
        access: Outcome, i: Id, l: Id, c: Conclusion, reason: string, status: IssueStatus, expected: int)
      returns (r: Outcome)
      requires ReasonsMatch()
      modifies this`issues, this`links
      ensures ReasonsMatch()
      ensures r.Done? <==> && Required(reason, 4000).Some? && expected > 0 && access.Done?
                           && AtRevision(old(View()), i, expected) && MayConclude(old(View()), i, l, c)
      ensures View() == if r.Done? then AfterConclude(old(View()), i, l, c, Trimmed(reason), status) else old(View())
      ensures r == Refused(EvidenceRequired) && access.Done? ==>
        !c.InsufficientEvidence? && l in old(links) && !HasEvidenceFrom(old(View()), i, old(links)[l].session)
    {
      if Required(reason, 4000).None? { return Refused(Invalid); }
      r := Admission(access, i, expected);
      if r.Refused? { return; }
      if l !in links || links[l].issue != i { return Refused(Unavailable); }
      if links[l].generation != issues[i].generation { return Refused(Invalid); }
      var session := links[l].session;
      if session !in sessions || sessions[session].work != issues[i].work { return Refused(Unavailable); }
      if !sessions[session].started || !sessions[session].recorded { return Refused(ResultRequired); }
      var linked := HasEvidence(i, session);
      if !c.InsufficientEvidence? && !linked { return Refused(EvidenceRequired); }
      WriteConclusion(i, l, c, Trimmed(reason));
      issues := issues[i := issues[i].(status := status, revision := issues[i].revision + 1)];
      r := Done;
    }

    method AddIssueEvidence(access: Outcome, i: Id, e: Id, ref: Id, expected: int) returns (r: Outcome)
      requires e !in evidence
      modifies this`issues, this`evidence
      ensures r.Done? <==>
        && expected > 0 && access.Done? && ref in sources && AtRevision(old(View()), i, expected)
        && MayAdd(old(View()), i, e, Evidence(i, ref, sources[ref]))
      ensures View() == if r.Done? then AfterAdd(old(View()), i, e, Evidence(i, ref, sources[ref]))
                        else old(View())
      ensures r == Refused(AlreadyLinked) && access.Done? ==>
        Linked(old(View()), i, ref)
    {
      r := Admission(access, i, expected);
      if r.Refused? { return; }
      r := ValidateSources(issues[i].work, [ref]);
      assert ref in [ref];
      if r.Refused? { return; }
      assert FromWork(sources, sessions, issues[i].work, ref);
      if Linked(View(), i, ref) { return Refused(AlreadyLinked); }
      evidence := evidence[e := Evidence(i, ref, sources[ref])];
      issues := issues[i := issues[i].(revision := issues[i].revision + 1)];
    }

    method RemoveIssueEvidence(access: Outcome, i: Id, e: Id, expected: int) returns (r: Outcome)
      modifies this`issues, this`evidence
      ensures r.Done? <==> && expected > 0 && access.Done? && AtRevision(old(View()), i, expected)
                           && MayRemove(old(View()), i, e)
      ensures View() == if r.Done? then AfterRemove(old(View()), i, e) else old(View())
      ensures r == Refused(LastEvidence) && access.Done? ==> EvidenceOf(old(View()), i) == {e}
    {
      r := Admission(access, i, expected);
      if r.Refused? { return; }
      var rows := EvidenceOf(View(), i);
      if e !in rows { return Refused(Unavailable); }
      if |rows| == 1 {
        assert |rows - {e}| == 0;
        assert rows == {e};
        return Refused(LastEvidence);
      }
      evidence := evidence - {e};
      issues := issues[i := issues[i].(revision := issues[i].revision + 1)];
      r := Done;
    }
  }
}
