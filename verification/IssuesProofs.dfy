/** What every run of issue operations keeps, and what the three views of a conclusion show. */
module IssuesProofs {
  import opened Base
  import opened Issues
  import Outbox

  // ----- Invariant -----

  ghost predicate LinkOk(issues: map<Id, Issue>, sessions: map<Id, Session>, k: Link) {
    && k.issue in issues && k.session in sessions && sessions[k.session].work == issues[k.issue].work
    && k.generation <= issues[k.issue].generation
    && (k.conclusion.Some? <==> k.reason.Some?)
    && (k.conclusion.Some? ==> k.generation == issues[k.issue].generation)
    && (k.generation == issues[k.issue].generation ==> issues[k.issue].note.Some?)
  }

  ghost predicate LinksOk(issues: map<Id, Issue>, sessions: map<Id, Session>, links: map<Id, Link>) {
    forall l :: l in links ==> LinkOk(issues, sessions, links[l])
  }

  ghost predicate OneConclusion(links: map<Id, Link>) {
    forall k, l :: k in links && l in links && k != l && links[k].conclusion.Some? && links[l].conclusion.Some? ==>
      links[k].issue != links[l].issue
  }

  ghost predicate EvidenceOk(issues: map<Id, Issue>, sessions: map<Id, Session>, e: Evidence) {
    e.issue in issues && e.session in sessions && sessions[e.session].work == issues[e.issue].work
  }

  /** Some evidence is about the issue. */
  ghost predicate Supported(evidence: map<Id, Evidence>, i: Id) {
    exists e :: e in evidence && evidence[e].issue == i
  }

  ghost predicate AllEvidenceOk(issues: map<Id, Issue>, sessions: map<Id, Session>, evidence: map<Id, Evidence>) {
    && (forall e :: e in evidence ==> EvidenceOk(issues, sessions, evidence[e]))
    && (forall i :: i in issues ==> Supported(evidence, i))
  }

  ghost predicate TodoOk(issues: map<Id, Issue>, s: Source, status: TodoStatus) {
    && (s.kind.RetestNeeded? ==>
          && s.key.AdjustmentKey? && s.key.issue in issues && s.key.generation <= issues[s.key.issue].generation
          && (status.Open? ==>
                s.key.generation == issues[s.key.issue].generation && issues[s.key.issue].note.Some?))
    && (s.kind.IssueOpened? ==>
          s.key.OpenedKey? && s.key.issue in issues && s.key.revision <= issues[s.key.issue].revision)
  }

  ghost predicate TodosOk(issues: map<Id, Issue>, todos: map<Source, TodoStatus>) {
    forall s :: s in todos ==> TodoOk(issues, s, todos[s])
  }

  ghost predicate Inv(db: Db) {
    && LinksOk(db.issues, db.sessions, db.links) && OneConclusion(db.links)
    && AllEvidenceOk(db.issues, db.sessions, db.evidence)
    && TodosOk(db.issues, db.todos)
  }

  // Changes that leave adjustments alone.

  /** No issue disappears or changes its work, note or generation; revisions may grow. */
  predicate Carried(was: map<Id, Issue>, issues: map<Id, Issue>) {
    forall i :: i in was ==>
      && i in issues && issues[i].work == was[i].work && issues[i].note == was[i].note
      && issues[i].generation == was[i].generation && was[i].revision <= issues[i].revision
  }

  lemma CarriedLinks(was: map<Id, Issue>, issues: map<Id, Issue>, sessions: map<Id, Session>, links: map<Id, Link>)
    requires LinksOk(was, sessions, links) && Carried(was, issues)
    ensures LinksOk(issues, sessions, links)
  {
    forall l | l in links ensures LinkOk(issues, sessions, links[l]) { assert LinkOk(was, sessions, links[l]); }
  }

  lemma CarriedEvidence(
      was: map<Id, Issue>, issues: map<Id, Issue>, sessions: map<Id, Session>, evidence: map<Id, Evidence>)
    requires AllEvidenceOk(was, sessions, evidence) && issues.Keys == was.Keys
    requires forall i :: i in was ==> issues[i].work == was[i].work
    ensures AllEvidenceOk(issues, sessions, evidence)
  {
    forall e | e in evidence ensures EvidenceOk(issues, sessions, evidence[e]) {
      assert EvidenceOk(was, sessions, evidence[e]);
    }
  }

  lemma CarriedTodos(was: map<Id, Issue>, issues: map<Id, Issue>, todos: map<Source, TodoStatus>)
    requires TodosOk(was, todos) && Carried(was, issues)
    ensures TodosOk(issues, todos)
  {
    forall s | s in todos ensures TodoOk(issues, s, todos[s]) { assert TodoOk(was, s, todos[s]); }
  }

  lemma NotifiedKeepsTodos(
      issues: map<Id, Issue>, todos: map<Source, TodoStatus>, rs: set<Id>, kind: Outbox.TodoKind, key: Outbox.SourceKey)
    requires TodosOk(issues, todos)
    requires forall r :: r in rs ==> TodoOk(issues, Outbox.Source(r, kind, key), Outbox.Open)
    ensures TodosOk(issues, Notified(todos, rs, kind, key))
  {
  }

  lemma ClosedKeepsTodos(
      issues: map<Id, Issue>, todos: map<Source, TodoStatus>, kind: Outbox.TodoKind, i: Id, to: TodoStatus)
    requires TodosOk(issues, todos) && !to.Open?
    ensures TodosOk(issues, ClosedFor(todos, kind, i, to))
  {
    forall s | s in todos ensures TodoOk(issues, s, ClosedFor(todos, kind, i, to)[s]) {
      assert TodoOk(issues, s, todos[s]);
    }
  }

  /** Same work, and neither generation nor revision goes back. */
  predicate Follows(was: Issue, issue: Issue) {
    was.work == issue.work && was.generation <= issue.generation && was.revision <= issue.revision
    && (was.generation == issue.generation ==> was.note == issue.note)
  }

  // ----- Updates -----

  /** With its open retest todos closed, an issue may be adjusted. */
  lemma AdjustedKeepsTodos(issues: map<Id, Issue>, i: Id, next: Issue, todos: map<Source, TodoStatus>, to: TodoStatus)
    requires i in issues && Follows(issues[i], next) && TodosOk(issues, todos) && !to.Open?
    ensures TodosOk(issues[i := next], ClosedFor(todos, Outbox.RetestNeeded, i, to))
  {
    forall s | s in todos ensures TodoOk(issues[i := next], s, ClosedFor(todos, Outbox.RetestNeeded, i, to)[s]) {
      assert TodoOk(issues, s, todos[s]);
    }
  }

  lemma ReopenedKeepsTodos(issues: map<Id, Issue>, i: Id, next: Issue, rs: set<Id>, todos: map<Source, TodoStatus>)
    requires TodosOk(issues, todos) && i in issues && Follows(issues[i], next)
    ensures var more := Notified(todos, rs, Outbox.IssueOpened, Outbox.OpenedKey(i, next.revision));
            && TodosOk(issues[i := next], ClosedFor(more, Outbox.RetestNeeded, i, Outbox.Dismissed))
            && (next.generation == issues[i].generation ==> TodosOk(issues[i := next], more))
  {
    var higher := issues[i := issues[i].(revision := next.revision)];
    CarriedTodos(issues, higher, todos);
    NotifiedKeepsTodos(higher, todos, rs, Outbox.IssueOpened, Outbox.OpenedKey(i, next.revision));
    var more := Notified(todos, rs, Outbox.IssueOpened, Outbox.OpenedKey(i, next.revision));
    AdjustedKeepsTodos(higher, i, next, more, Outbox.Dismissed);
    assert higher[i := next] == issues[i := next];
    if next.generation == issues[i].generation { CarriedTodos(higher, issues[i := next], more); }
  }

  /** After an update no open retest todo of the issue is left from before if the note changed
      or the issue is closed; all others are still current. */
  lemma UpdateKeepsTodos(
      issues: map<Id, Issue>, i: Id, words: Words, note: Option<string>, status: IssueStatus, rs: set<Id>,
      todos: map<Source, TodoStatus>)
    requires TodosOk(issues, todos) && i in issues
    ensures var next := UpdatedIssue(issues[i], words, note, status);
            TodosOk(issues[i := next],
                    NextTodos(todos, i, next, issues[i].status.Opened?, Adjusted(issues[i], note), rs))
  {
    var next := UpdatedIssue(issues[i], words, note, status);
    var after := issues[i := next];
    if status.Closed? {
      ClosedKeepsTodos(issues, todos, Outbox.IssueOpened, i, Outbox.Completed);
      AdjustedKeepsTodos(issues, i, next, ClosedFor(todos, Outbox.IssueOpened, i, Outbox.Completed), Outbox.Dismissed);
    } else {
      var adjusted, wasOpen := Adjusted(issues[i], note), issues[i].status.Opened?;
      var todos1 := if wasOpen then todos
                    else Notified(todos, rs, Outbox.IssueOpened, Outbox.OpenedKey(i, next.revision));
      var todos2 := if adjusted then ClosedFor(todos1, Outbox.RetestNeeded, i, Outbox.Dismissed) else todos1;
      if !wasOpen {
        ReopenedKeepsTodos(issues, i, next, rs, todos);
      } else if adjusted {
        AdjustedKeepsTodos(issues, i, next, todos, Outbox.Dismissed);
      } else {
        CarriedTodos(issues, after, todos);
      }
      assert TodosOk(after, todos2);
      if note.Some? {
        NotifiedKeepsTodos(after, todos2, rs, Outbox.RetestNeeded, Outbox.AdjustmentKey(i, next.generation));
      }
    }
  }

  /** Links of earlier generations have no conclusion. */
  lemma UpdateKeepsLinks(db: Db, i: Id, next: Issue, adjusted: bool)
    requires LinksOk(db.issues, db.sessions, db.links) && OneConclusion(db.links) && i in db.issues
    requires next.work == db.issues[i].work
    requires if adjusted then next.generation == db.issues[i].generation + 1
             else next.generation == db.issues[i].generation && next.note == db.issues[i].note
    ensures LinksOk(db.issues[i := next], db.sessions, UpdatedLinks(db, i, adjusted))
    ensures OneConclusion(UpdatedLinks(db, i, adjusted))
  {
    forall l | l in db.links ensures LinkOk(db.issues[i := next], db.sessions, UpdatedLinks(db, i, adjusted)[l]) {
      assert LinkOk(db.issues, db.sessions, db.links[l]);
    }
  }

  lemma UpdateKeepsInv(db: Db, i: Id, words: Words, note: Option<string>, status: IssueStatus)
    requires Inv(db) && i in db.issues
    ensures Inv(AfterUpdate(db, i, words, note, status))
  {
    var next := UpdatedIssue(db.issues[i], words, note, status);
    UpdateKeepsTodos(db.issues, i, words, note, status, Maintainers(db, db.issues[i].work), db.todos);
    UpdateKeepsLinks(db, i, next, Adjusted(db.issues[i], note));
    CarriedEvidence(db.issues, db.issues[i := next], db.sessions, db.evidence);
  }

  // ----- Retests -----

  lemma BindKeepsTodos(db: Db, i: Id, session: Id, l: Id, actor: Id)
    requires TodosOk(db.issues, db.todos) && i in db.issues
    ensures TodosOk(AfterBind(db, i, session, l, actor).issues, AfterBind(db, i, session, l, actor).todos)
  {
    var v := AfterBind(db, i, session, l, actor);
    CarriedTodos(db.issues, v.issues, db.todos);
    ClosedKeepsTodos(v.issues, db.todos, Outbox.RetestNeeded, i, Outbox.Completed);
    NotifiedKeepsTodos(v.issues, ClosedFor(db.todos, Outbox.RetestNeeded, i, Outbox.Completed),
                       Maintainers(db, db.issues[i].work) - {actor}, Outbox.RetestArranged, Outbox.LinkKey(l));
  }

  lemma BindKeepsInv(db: Db, i: Id, session: Id, l: Id, actor: Id)
    requires Inv(db) && MayBind(db, i, session, l)
    ensures Inv(AfterBind(db, i, session, l, actor))
  {
    var v := AfterBind(db, i, session, l, actor);
    BindKeepsTodos(db, i, session, l, actor);
    CarriedLinks(db.issues, v.issues, db.sessions, db.links);
    CarriedEvidence(db.issues, v.issues, db.sessions, db.evidence);
  }

  lemma ConcludeKeepsLinks(db: Db, i: Id, l: Id, c: Conclusion, reason: string)
    requires LinksOk(db.issues, db.sessions, db.links) && OneConclusion(db.links) && MayConclude(db, i, l, c)
    ensures LinksOk(db.issues, db.sessions, ConcludedLinks(db.links, i, l, c, reason))
    ensures OneConclusion(ConcludedLinks(db.links, i, l, c, reason))
  {
    forall k | k in db.links ensures LinkOk(db.issues, db.sessions, ConcludedLinks(db.links, i, l, c, reason)[k]) {
      assert LinkOk(db.issues, db.sessions, db.links[k]);
    }
  }

  lemma ConcludeKeepsInv(db: Db, i: Id, l: Id, c: Conclusion, reason: string, status: IssueStatus)
    requires Inv(db) && MayConclude(db, i, l, c)
    ensures Inv(AfterConclude(db, i, l, c, reason, status))
  {
    var v := AfterConclude(db, i, l, c, reason, status);
    ConcludeKeepsLinks(db, i, l, c, reason);
    CarriedLinks(db.issues, v.issues, db.sessions, v.links);
    CarriedEvidence(db.issues, v.issues, db.sessions, db.evidence);
    CarriedTodos(db.issues, v.issues, db.todos);
  }

  // ----- Creations and evidence -----

  lemma CreateKeepsEvidence(db: Db, i: Id, work: Id, row: Issue, sources: map<Id, Evidence>)
    requires AllEvidenceOk(db.issues, db.sessions, db.evidence) && i !in db.issues && row.work == work
    requires ValidSources(db, i, work, sources)
    ensures AllEvidenceOk(db.issues[i := row], db.sessions, db.evidence + sources)
  {
    var issues, evidence := db.issues[i := row], db.evidence + sources;
    forall e | e in evidence ensures EvidenceOk(issues, db.sessions, evidence[e]) {
      if e !in sources { assert EvidenceOk(db.issues, db.sessions, db.evidence[e]); }
    }
    forall j | j in issues ensures Supported(evidence, j) {
      if j == i {
        var e :| e in sources;
        assert evidence[e].issue == i;
      } else {
        var e :| e in db.evidence && db.evidence[e].issue == j;
        assert evidence[e].issue == j;
      }
    }
  }

  lemma CreateKeepsInv(
      db: Db, i: Id, work: Id, key: string, words: Words, status: IssueStatus, sources: map<Id, Evidence>)
    requires Inv(db) && i !in db.issues && ValidSources(db, i, work, sources)
    ensures Inv(AfterCreate(db, i, work, key, words, status, sources))
  {
    var v := AfterCreate(db, i, work, key, words, status, sources);
    CreateKeepsEvidence(db, i, work, v.issues[i], sources);
    CarriedLinks(db.issues, v.issues, db.sessions, db.links);
    CarriedTodos(db.issues, v.issues, db.todos);
    NotifiedKeepsTodos(v.issues, db.todos, Maintainers(db, work), Outbox.IssueOpened, Outbox.OpenedKey(i, 1));
  }

  /** A new revision, and evidence that stays in order, touch neither links nor todos. */
  lemma TouchKeepsInv(db: Db, i: Id, evidence: map<Id, Evidence>)
    requires Inv(db) && i in db.issues && AllEvidenceOk(db.issues, db.sessions, evidence)
    ensures Inv(Touched(db, i).(evidence := evidence))
  {
    var v := Touched(db, i);
    CarriedLinks(db.issues, v.issues, db.sessions, db.links);
    CarriedEvidence(db.issues, v.issues, db.sessions, evidence);
    CarriedTodos(db.issues, v.issues, db.todos);
  }

  lemma AddKeepsInv(db: Db, i: Id, e: Id, source: Evidence)
    requires Inv(db) && MayAdd(db, i, e, source)
    ensures Inv(AfterAdd(db, i, e, source))
  {
    var evidence := db.evidence[e := source];
    forall j | j in db.issues ensures Supported(evidence, j) {
      var f :| f in db.evidence && db.evidence[f].issue == j;
      assert evidence[f].issue == j;
    }
    TouchKeepsInv(db, i, evidence);
  }

  lemma RemoveKeepsInv(db: Db, i: Id, e: Id)
    requires Inv(db) && i in db.issues && MayRemove(db, i, e)
    ensures Inv(AfterRemove(db, i, e))
  {
    var evidence := db.evidence - {e};
    forall j | j in db.issues ensures Supported(evidence, j) {
      var f :| f in db.evidence && db.evidence[f].issue == j;
      if f == e {
        assert |EvidenceOf(db, i) - {e}| == |EvidenceOf(db, i)| - 1;
        var other :| other in EvidenceOf(db, i) - {e};
        assert evidence[other].issue == j;
      } else {
        assert evidence[f].issue == j;
      }
    }
    TouchKeepsInv(db, i, evidence);
  }

  lemma SessionKeepsInv(db: Db, id: Id, row: Session)
    requires Inv(db) && (id in db.sessions ==> db.sessions[id].work == row.work)
    ensures Inv(db.(sessions := db.sessions[id := row]))
  {
    var sessions := db.sessions[id := row];
    forall l | l in db.links ensures LinkOk(db.issues, sessions, db.links[l]) {
      assert LinkOk(db.issues, db.sessions, db.links[l]);
    }
    forall e | e in db.evidence ensures EvidenceOk(db.issues, sessions, db.evidence[e]) {
      assert EvidenceOk(db.issues, db.sessions, db.evidence[e]);
    }
  }

  lemma StepKeepsInv(db: Db, a: Action)
    requires Inv(db) && Enabled(db, a)
    ensures Inv(Apply(db, a))
  {
    match a
    case Create(i, work, key, words, status, sources) => CreateKeepsInv(db, i, work, key, words, status, sources);
    case Update(i, words, note, status, _) => UpdateKeepsInv(db, i, words, note, status);
    case Bind(i, session, l, actor, _) => BindKeepsInv(db, i, session, l, actor);
    case Conclude(i, l, c, reason, status, _) => ConcludeKeepsInv(db, i, l, c, reason, status);
    case AddEvidence(i, e, source, _) => AddKeepsInv(db, i, e, source);
    case RemoveEvidence(i, e, _) => RemoveKeepsInv(db, i, e);
    case SetSession(id, row) => SessionKeepsInv(db, id, row);
    case _ =>
  }

  lemma {:induction false} RunKeepsInv(db: Db, run: seq<Action>)
    requires Inv(db) && Legal(db, run)
    ensures Inv(After(db, run))
    decreases |run|
  {
    if run == [] {
    } else {
      StepKeepsInv(db, run[0]);
      RunKeepsInv(Apply(db, run[0]), run[1..]);
    }
  }

  // ----- Conclusions -----

  /** Every issue has at most one link with a conclusion, it is of the current generation, and a
      link of the current generation implies an adjustment note. */
  lemma ConclusionsAreCurrent(db: Db, run: seq<Action>, k: Id)
    requires Initial(db) && Legal(db, run) && k in After(db, run).links
    ensures var v := After(db, run); var link := v.links[k];
            && link.issue in v.issues
            && (link.conclusion.Some? ==>
                  && link.generation == v.issues[link.issue].generation
                  && link.reason.Some?
                  && forall l :: l in v.links && v.links[l].issue == link.issue && v.links[l].conclusion.Some? ==>
                       l == k)
            && (link.generation == v.issues[link.issue].generation ==> v.issues[link.issue].note.Some?)
  {
    RunKeepsInv(db, run);
    assert LinkOk(After(db, run).issues, After(db, run).sessions, After(db, run).links[k]);
  }

  // ----- Creations -----

  ghost predicate KeysUnique(db: Db) {
    forall i, j :: i in db.issues && j in db.issues && i != j && db.issues[i].work == db.issues[j].work ==>
      db.issues[i].key != db.issues[j].key
  }

  lemma {:induction false} RunKeepsKeys(db: Db, run: seq<Action>)
    requires KeysUnique(db) && Legal(db, run)
    ensures KeysUnique(After(db, run))
    decreases |run|
  {
    if run == [] {
      assert After(db, run) == db;
    } else {
      StepKeepsKeys(db, run[0]);
      RunKeepsKeys(Apply(db, run[0]), run[1..]);
    }
  }

  lemma StepKeepsKeys(db: Db, a: Action)
    requires KeysUnique(db) && Enabled(db, a)
    ensures KeysUnique(Apply(db, a))
  {
  }

  /** A creation that is repeated with its operation key never makes a second issue. */
  lemma OneIssuePerKey(db: Db, run: seq<Action>, i: Id, j: Id)
    requires Initial(db) && Legal(db, run) && i in After(db, run).issues && j in After(db, run).issues
    ensures var v := After(db, run);
            v.issues[i].work == v.issues[j].work && v.issues[i].key == v.issues[j].key ==> i == j
  {
    RunKeepsKeys(db, run);
  }

  // ----- Todos about the current adjustment -----

  /** An open retest todo carries its issue's current generation, and the issue has a note. */
  lemma NeededTodoIsCurrent(db: Db, run: seq<Action>, s: Source)
    requires Initial(db) && Legal(db, run) && s in After(db, run).todos
    requires s.kind.RetestNeeded? && After(db, run).todos[s].Open?
    ensures var v := After(db, run);
            && s.key.AdjustmentKey? && s.key.issue in v.issues
            && s.key.generation == v.issues[s.key.issue].generation && v.issues[s.key.issue].note.Some?
  {
    RunKeepsInv(db, run);
    assert TodoOk(After(db, run).issues, s, After(db, run).todos[s]);
  }

  ghost predicate OpenNeeded(todos: map<Source, TodoStatus>, r: Id, i: Id, s: Source) {
    s.recipient == r && Targets(todos, s, Outbox.RetestNeeded, i)
  }

  /** An adjusting update that leaves the issue open with a note gives exactly the current
      maintainers one open retest todo each, about the new generation. */
  lemma AdjustingUpdateAsksEveryMaintainer(db: Db, i: Id, words: Words, note: Option<string>, r: Id, s: Source)
    requires Inv(db) && i in db.issues && Adjusted(db.issues[i], note) && note.Some?
    ensures OpenNeeded(UpdatedTodos(db, i, words, note, Opened), r, i, s)
            <==> r in Maintainers(db, db.issues[i].work)
                 && s == Outbox.Source(r, Outbox.RetestNeeded, Outbox.AdjustmentKey(i, db.issues[i].generation + 1))
  {
    forall t | t in db.todos && t.kind.RetestNeeded?
      ensures t.key.AdjustmentKey? && (t.key.issue == i ==> t.key.generation <= db.issues[i].generation)
    {
      assert TodoOk(db.issues, t, db.todos[t]);
    }
  }

  /** Reopening without changing the note does not bring the retest todo back: a maintainer has an
      open one afterwards exactly if there was no todo of this source, or it was still open. */
  lemma ReopeningAsksOnlyUnasked(db: Db, i: Id, words: Words, r: Id)
    requires Inv(db) && i in db.issues && db.issues[i].status.Closed? && db.issues[i].note.Some?
    ensures var s := Outbox.Source(r, Outbox.RetestNeeded, Outbox.AdjustmentKey(i, db.issues[i].generation));
            OpenNeeded(UpdatedTodos(db, i, words, db.issues[i].note, Opened), r, i, s)
            <==> if s in db.todos then db.todos[s].Open? else r in Maintainers(db, db.issues[i].work)
  {
  }

  /** Closing an issue dismisses its open retest todos. */
  lemma ClosingDismisses(db: Db, i: Id, words: Words, note: Option<string>, s: Source)
    requires i in db.issues && Targets(db.todos, s, Outbox.RetestNeeded, i)
    ensures var todos := UpdatedTodos(db, i, words, note, Closed); s in todos && todos[s].Dismissed?
  {
  }

  /** A run of one more action, at the front. */
  lemma RunOfMore(db: Db, a: Action, rest: seq<Action>)
    requires Enabled(db, a) && Legal(Apply(db, a), rest)
    ensures Legal(db, [a] + rest) && After(db, [a] + rest) == After(Apply(db, a), rest)
  {
    assert ([a] + rest)[1..] == rest;
  }

  /** Changing the note of an open issue, closing it, and reopening it with that note. */
  function CloseAndReopen(i: Id, words: Words, note: Option<string>, revision: nat): seq<Action> {
    [Update(i, words, note, Opened, revision)] + ClosedThenReopened(i, words, note, revision + 1)
  }

  function ClosedThenReopened(i: Id, words: Words, note: Option<string>, revision: nat): seq<Action> {
    [Update(i, words, note, Closed, revision)] + ([Update(i, words, note, Opened, revision + 1)] + [])
  }

  lemma ThreeSteps(db: Db, a: Action, b: Action, c: Action, db1: Db, db2: Db, db3: Db)
    requires Enabled(db, a) && Apply(db, a) == db1
    requires Enabled(db1, b) && Apply(db1, b) == db2
    requires Enabled(db2, c) && Apply(db2, c) == db3
    ensures Legal(db, [a] + ([b] + ([c] + []))) && After(db, [a] + ([b] + ([c] + []))) == db3
  {
    RunOfMore(db2, c, []);
    RunOfMore(db1, b, [c] + []);
    RunOfMore(db, a, [b] + ([c] + []));
  }

  /** `v` is what the update of an issue at this revision leads to. */
  ghost predicate UpdatesTo(
      db: Db, i: Id, words: Words, note: Option<string>, status: IssueStatus, revision: nat, v: Db)
  {
    Enabled(db, Update(i, words, note, status, revision)) && Apply(db, Update(i, words, note, status, revision)) == v
  }

  lemma UpdateIsStep(db: Db, i: Id, words: Words, note: Option<string>, status: IssueStatus, revision: nat)
    requires i in db.issues && db.issues[i].revision == revision
    ensures UpdatesTo(db, i, words, note, status, revision, AfterUpdate(db, i, words, note, status))
    ensures i in AfterUpdate(db, i, words, note, status).issues
    ensures AfterUpdate(db, i, words, note, status).issues[i].revision == revision + 1
  {
  }

  lemma CloseAndReopenRuns(
      db: Db, i: Id, words: Words, note: Option<string>, revision: nat, adjusted: Db, closed: Db, reopened: Db)
    requires UpdatesTo(db, i, words, note, Opened, revision, adjusted)
    requires UpdatesTo(adjusted, i, words, note, Closed, revision + 1, closed)
    requires UpdatesTo(closed, i, words, note, Opened, revision + 2, reopened)
    ensures Legal(db, CloseAndReopen(i, words, note, revision))
    ensures After(db, CloseAndReopen(i, words, note, revision)) == reopened
  {
    ThreeSteps(db, Update(i, words, note, Opened, revision), Update(i, words, note, Closed, revision + 1),
               Update(i, words, note, Opened, revision + 2), adjusted, closed, reopened);
  }

  lemma NeededTodoIs(db: Db, r: Id, i: Id, s: Source)
    requires Inv(db) && OpenNeeded(db.todos, r, i, s)
    ensures i in db.issues
    ensures s == Outbox.Source(r, Outbox.RetestNeeded, Outbox.AdjustmentKey(i, db.issues[i].generation))
  {
    assert TodoOk(db.issues, s, db.todos[s]);
  }

  /** This happens to every open issue of every reachable state, for every new note and maintainer:
      the reopened issue has the note, but the maintainer has no open todo to arrange a retest. */
  lemma ReopenedIsNotAsked(db: Db, i: Id, words: Words, note: Option<string>, r: Id, s: Source)
    requires Inv(db) && i in db.issues && Adjusted(db.issues[i], note) && note.Some?
    requires r in Maintainers(db, db.issues[i].work)
    ensures Legal(db, CloseAndReopen(i, words, note, db.issues[i].revision))
    ensures var v := After(db, CloseAndReopen(i, words, note, db.issues[i].revision));
            && i in v.issues && v.issues[i].status.Opened? && v.issues[i].note == note
            && r in Maintainers(v, v.issues[i].work) && !OpenNeeded(v.todos, r, i, s)
  {
    var adjusted := AfterUpdate(db, i, words, note, Opened);
    var closed := AfterUpdate(adjusted, i, words, note, Closed);
    var asked := Outbox.Source(r, Outbox.RetestNeeded, Outbox.AdjustmentKey(i, db.issues[i].generation + 1));
    var v := AfterUpdate(closed, i, words, note, Opened);
    UpdateIsStep(db, i, words, note, Opened, db.issues[i].revision);
    UpdateIsStep(adjusted, i, words, note, Closed, db.issues[i].revision + 1);
    UpdateIsStep(closed, i, words, note, Opened, db.issues[i].revision + 2);
    CloseAndReopenRuns(db, i, words, note, db.issues[i].revision, adjusted, closed, v);
    AdjustingUpdateAsksEveryMaintainer(db, i, words, note, r, asked);
    UpdateKeepsInv(db, i, words, note, Opened);
    ClosingDismisses(adjusted, i, words, note, asked);
    UpdateKeepsInv(adjusted, i, words, note, Closed);
    ReopeningAsksOnlyUnasked(closed, i, words, r);
    UpdateKeepsInv(closed, i, words, note, Opened);
    if OpenNeeded(v.todos, r, i, s) { NeededTodoIs(v, r, i, s); }
  }

  /** Arranging a retest completes every open retest todo of the issue. */
  lemma ArrangingSettlesTodos(db: Db, i: Id, session: Id, l: Id, actor: Id, s: Source)
    requires i in db.issues
    ensures !Targets(AfterBind(db, i, session, l, actor).todos, s, Outbox.RetestNeeded, i)
  {
  }

  // ----- Revisions -----

  predicate Manages(a: Action, i: Id) {
    match a
    case Update(j, _, _, _, _) => i == j
    case Bind(j, _, _, _, _) => i == j
    case Conclude(j, _, _, _, _, _) => i == j
    case AddEvidence(j, _, _, _) => i == j
    case RemoveEvidence(j, _, _) => i == j
    case _ => false
  }

  lemma StepFollows(db: Db, a: Action, i: Id)
    requires Enabled(db, a) && i in db.issues
    ensures i in Apply(db, a).issues && Follows(db.issues[i], Apply(db, a).issues[i])
    ensures Manages(a, i) ==> Apply(db, a).issues[i].revision == db.issues[i].revision + 1
  {
  }

  lemma {:induction false} RunFollows(db: Db, run: seq<Action>, i: Id)
    requires Legal(db, run) && i in db.issues
    ensures i in After(db, run).issues && Follows(db.issues[i], After(db, run).issues[i])
    decreases |run|
  {
    if run == [] {
    } else {
      StepFollows(db, run[0], i);
      RunFollows(Apply(db, run[0]), run[1..], i);
    }
  }

  function Expected(a: Action): nat
    requires a.Update? || a.Bind? || a.Conclude? || a.AddEvidence? || a.RemoveEvidence?
  {
    a.expected
  }

  /** No lost update: once a change made at some revision was accepted, no later change that
      expects the same revision is. */
  lemma OneChangePerRevision(db: Db, a: Action, run: seq<Action>, b: Action, i: Id)
    requires Enabled(db, a) && Legal(Apply(db, a), run) && Manages(a, i) && Manages(b, i)
    requires Enabled(After(Apply(db, a), run), b)
    ensures Expected(a) < Expected(b)
  {
    StepFollows(db, a, i);
    RunFollows(Apply(db, a), run, i);
  }

  // ----- Recovery checks -----

  /** The rows that the `issue_retests` check counts. */
  function StrayRetests(db: Db): set<Id> {
    set l | && l in db.links && db.links[l].issue in db.issues && db.links[l].session in db.sessions
            && db.issues[db.links[l].issue].work != db.sessions[db.links[l].session].work
  }

  /** The rows that the `issue_evidence` check counts. */
  function StrayEvidence(db: Db): set<Id> {
    set e | && e in db.evidence && db.evidence[e].issue in db.issues && db.evidence[e].session in db.sessions
            && db.issues[db.evidence[e].issue].work != db.sessions[db.evidence[e].session].work
  }

  lemma IssueChecksPass(db: Db, run: seq<Action>)
    requires Initial(db) && Legal(db, run)
    ensures |StrayRetests(After(db, run))| == 0 && |StrayEvidence(After(db, run))| == 0
  {
    var v := After(db, run);
    RunKeepsInv(db, run);
    assert forall l :: l in v.links ==> LinkOk(v.issues, v.sessions, v.links[l]);
    assert forall e :: e in v.evidence ==> EvidenceOk(v.issues, v.sessions, v.evidence[e]);
    assert StrayRetests(v) == {} && StrayEvidence(v) == {};
  }
}
