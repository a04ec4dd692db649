/**
 Issues, their retests and the todos about them. Every successful operation is one transaction
 that holds the issue row, so a run is a sequence of operations. A conclusion belongs to the
 adjustment generation in which its retest was arranged.

 A todo is identified by its unique source; the issue it is about can be read off its key.
 */
module Issues {
  import opened Base
  import opened Text
  import Outbox

  type Source = Outbox.Source
  type TodoStatus = Outbox.TodoStatus

  datatype IssueStatus = Opened | Closed

  datatype Conclusion = Verified | ContinueObserving | AdjustAgain | InsufficientEvidence

  datatype Decision = Modify | Observe | Reject

  datatype Words = Words(description: string, decision: Decision, reason: string)

  /** `key` is the operation key of the creation. */
  datatype Issue = Issue(
    work: Id, key: string, words: Words, note: Option<string>, generation: nat, status: IssueStatus, revision: nat)

  datatype Link = Link(issue: Id, session: Id, generation: nat, conclusion: Option<Conclusion>, reason: Option<string>)

  /** A playtest session as the issues see it. */
  datatype Session = Session(work: Id, started: bool, recorded: bool)

  /** An evidence link: an observation or a feedback submission of a session. */
  datatype Evidence = Evidence(issue: Id, source: Id, session: Id)

  datatype Db = Db(
    issues: map<Id, Issue>,
    links: map<Id, Link>,
    evidence: map<Id, Evidence>,
    sessions: map<Id, Session>,
    maintainers: map<Id, set<Id>>,
    todos: map<Source, TodoStatus>)

  datatype Action =
    | Create(i: Id, work: Id, key: string, words: Words, status: IssueStatus, sources: map<Id, Evidence>)
    | Update(i: Id, words: Words, note: Option<string>, status: IssueStatus, expected: nat)
    | Bind(i: Id, session: Id, l: Id, actor: Id, expected: nat)
    | Conclude(i: Id, l: Id, conclusion: Conclusion, reason: string, status: IssueStatus, expected: nat)
    | AddEvidence(i: Id, e: Id, source: Evidence, expected: nat)
    | RemoveEvidence(i: Id, e: Id, expected: nat)
    | CloseTodo(s: Source, to: TodoStatus)
    | DeleteTodos(ss: set<Source>)
    | SetSession(id: Id, row: Session)
    | SetMaintainers(work: Id, accounts: set<Id>)

  // ----- Todos -----

  function Maintainers(db: Db, work: Id): set<Id> {
    if work in db.maintainers then db.maintainers[work] else {}
  }

  function IssueOf(key: Outbox.SourceKey): Option<Id> {
    match key
    case OpenedKey(i, _) => Some(i)
    case AdjustmentKey(i, _) => Some(i)
    case _ => None
  }

  /** The open todos of one kind about one issue. */
  predicate Targets(todos: map<Source, TodoStatus>, s: Source, kind: Outbox.TodoKind, i: Id) {
    s in todos && todos[s].Open? && s.kind == kind && IssueOf(s.key) == Some(i)
  }

  function ClosedFor(todos: map<Source, TodoStatus>, kind: Outbox.TodoKind, i: Id, to: TodoStatus)
    : map<Source, TodoStatus>
  {
    map s | s in todos :: if Targets(todos, s, kind, i) then to else todos[s]
  }

  /** `create_todo` for each recipient: a source that already has a todo, open or not, gets no new one. */
  function Notified(todos: map<Source, TodoStatus>, recipients: set<Id>, kind: Outbox.TodoKind, key: Outbox.SourceKey)
    : map<Source, TodoStatus>
  {
    map s | s in todos.Keys + Asked(recipients, kind, key) :: if s in todos then todos[s] else Outbox.Open
  }

  function Asked(recipients: set<Id>, kind: Outbox.TodoKind, key: Outbox.SourceKey): (asked: set<Source>)
    ensures forall s :: s in asked <==> s.recipient in recipients && s.kind == kind && s.key == key
  {
    set r | r in recipients :: Outbox.Source(r, kind, key)
  }

  // ----- Operations -----

  function LinksOf(db: Db, i: Id): set<Id> {
    set l | l in db.links && db.links[l].issue == i
  }

  function EvidenceOf(db: Db, i: Id): set<Id> {
    set e | e in db.evidence && db.evidence[e].issue == i
  }

  predicate HasEvidenceFrom(db: Db, i: Id, session: Id) {
    exists e :: e in db.evidence && db.evidence[e].issue == i && db.evidence[e].session == session
  }

  predicate ValidSources(db: Db, i: Id, work: Id, sources: map<Id, Evidence>) {
    && sources != map[]
    && (forall e :: e in sources ==>
          e !in db.evidence && sources[e].issue == i
          && sources[e].session in db.sessions && db.sessions[sources[e].session].work == work)
    && (forall e, f :: e in sources && f in sources && sources[e].source == sources[f].source ==> e == f)
  }

  predicate MayConclude(db: Db, i: Id, l: Id, conclusion: Conclusion) {
    && i in db.issues && l in db.links && db.links[l].issue == i
    && db.links[l].generation == db.issues[i].generation
    && db.links[l].session in db.sessions
    && var s := db.sessions[db.links[l].session];
       && s.work == db.issues[i].work && s.started && s.recorded
       && (conclusion.InsufficientEvidence? || HasEvidenceFrom(db, i, db.links[l].session))
  }

  /** The unique constraint on works and creation keys. */
  predicate KeyFree(db: Db, work: Id, key: string) {
    forall i :: i in db.issues && db.issues[i].work == work ==> db.issues[i].key != key
  }

  function NormalWords(w: Words): Option<Words> {
    if Required(w.description, 4000).None? || Required(w.reason, 4000).None? then None
    else Some(Words(Trimmed(w.description), w.decision, Trimmed(w.reason)))
  }

  /** The sources that an issue is linked to. */
  function SourcesOf(db: Db, i: Id): set<Id> {
    set e | e in db.evidence && db.evidence[e].issue == i :: db.evidence[e].source
  }

  predicate MayBind(db: Db, i: Id, session: Id, l: Id) {
    && i in db.issues && db.issues[i].note.Some? && l !in db.links
    && session in db.sessions && db.sessions[session].work == db.issues[i].work
    && forall k :: k in db.links && db.links[k].issue == i ==> db.links[k].session != session
  }

  predicate Linked(db: Db, i: Id, source: Id) {
    exists e :: e in db.evidence && db.evidence[e].issue == i && db.evidence[e].source == source
  }

  predicate MayAdd(db: Db, i: Id, e: Id, source: Evidence) {
    && i in db.issues && e !in db.evidence && source.issue == i
    && source.session in db.sessions && db.sessions[source.session].work == db.issues[i].work
    && !Linked(db, i, source.source)
  }

  predicate MayRemove(db: Db, i: Id, e: Id) {
    e in EvidenceOf(db, i) && |EvidenceOf(db, i)| != 1
  }

  predicate AtRevision(db: Db, i: Id, expected: nat) { i in db.issues && db.issues[i].revision == expected }

  predicate Enabled(db: Db, a: Action) {
    match a
    case Create(i, work, key, _, _, sources) =>
      i !in db.issues && KeyFree(db, work, key) && ValidSources(db, i, work, sources)
    case Update(i, _, _, _, expected) => AtRevision(db, i, expected)
    case Bind(i, session, l, _, expected) => AtRevision(db, i, expected) && MayBind(db, i, session, l)
    case Conclude(i, l, conclusion, _, _, expected) => AtRevision(db, i, expected) && MayConclude(db, i, l, conclusion)
    case AddEvidence(i, e, source, expected) => AtRevision(db, i, expected) && MayAdd(db, i, e, source)
    case RemoveEvidence(i, e, expected) => AtRevision(db, i, expected) && MayRemove(db, i, e)
    case CloseTodo(s, to) => s in db.todos && db.todos[s].Open? && !to.Open?
    case SetSession(id, row) => id in db.sessions ==> db.sessions[id].work == row.work
    case _ => true
  }

  function Adjusted(issue: Issue, note: Option<string>): bool { note != issue.note }

  function UpdatedIssue(issue: Issue, words: Words, note: Option<string>, status: IssueStatus): Issue {
    issue.(words := words, note := note, status := status, revision := issue.revision + 1,
           generation := if Adjusted(issue, note) then issue.generation + 1 else issue.generation)
  }

  function Inconclusive(l: Link): Link { l.(conclusion := None, reason := None) }

  function UpdatedLinks(db: Db, i: Id, adjusted: bool): map<Id, Link> {
    map l | l in db.links :: if adjusted && db.links[l].issue == i then Inconclusive(db.links[l]) else db.links[l]
  }

  /** The todos after an update: `next` is the new row. */
  function NextTodos(
      todos: map<Source, TodoStatus>, i: Id, next: Issue, wasOpen: bool, adjusted: bool, recipients: set<Id>)
    : map<Source, TodoStatus>
  {
    if next.status.Closed? then
      ClosedFor(ClosedFor(todos, Outbox.IssueOpened, i, Outbox.Completed), Outbox.RetestNeeded, i, Outbox.Dismissed)
    else
      var todos1 := if wasOpen then todos
                    else Notified(todos, recipients, Outbox.IssueOpened, Outbox.OpenedKey(i, next.revision));
      var todos2 := if adjusted then ClosedFor(todos1, Outbox.RetestNeeded, i, Outbox.Dismissed) else todos1;
      if next.note.Some? && (adjusted || !wasOpen)
      then Notified(todos2, recipients, Outbox.RetestNeeded, Outbox.AdjustmentKey(i, next.generation))
      else todos2
  }

  function UpdatedTodos(db: Db, i: Id, words: Words, note: Option<string>, status: IssueStatus): map<Source, TodoStatus>
    requires i in db.issues
  {
    var issue := db.issues[i];
    NextTodos(db.todos, i, UpdatedIssue(issue, words, note, status), issue.status.Opened?, Adjusted(issue, note),
              Maintainers(db, issue.work))
  }

  function AfterUpdate(db: Db, i: Id, words: Words, note: Option<string>, status: IssueStatus): Db
    requires i in db.issues
  {
    db.(issues := db.issues[i := UpdatedIssue(db.issues[i], words, note, status)],
        links := UpdatedLinks(db, i, Adjusted(db.issues[i], note)),
        todos := UpdatedTodos(db, i, words, note, status))
  }

  function Touched(db: Db, i: Id): Db
    requires i in db.issues
  {
    db.(issues := db.issues[i := db.issues[i].(revision := db.issues[i].revision + 1)])
  }

  function AfterBind(db: Db, i: Id, session: Id, l: Id, actor: Id): Db
    requires i in db.issues
  {
    var recipients := Maintainers(db, db.issues[i].work) - {actor};
    Touched(db, i).(
      links := db.links[l := Link(i, session, db.issues[i].generation, None, None)],
      todos := Notified(ClosedFor(db.todos, Outbox.RetestNeeded, i, Outbox.Completed), recipients,
                        Outbox.RetestArranged, Outbox.LinkKey(l)))
  }

  function ConcludedLinks(links: map<Id, Link>, i: Id, l: Id, c: Conclusion, reason: string): map<Id, Link> {
    map k | k in links ::
      if k == l then links[k].(conclusion := Some(c), reason := Some(reason))
      else if links[k].issue == i then Inconclusive(links[k]) else links[k]
  }

  function AfterConclude(db: Db, i: Id, l: Id, c: Conclusion, reason: string, status: IssueStatus): Db
    requires i in db.issues
  {
    db.(issues := db.issues[i := db.issues[i].(status := status, revision := db.issues[i].revision + 1)],
        links := ConcludedLinks(db.links, i, l, c, reason))
  }

  function AfterCreate(
      db: Db, i: Id, work: Id, key: string, words: Words, status: IssueStatus, sources: map<Id, Evidence>): Db
  {
    db.(issues := db.issues[i := Issue(work, key, words, None, 0, status, 1)],
        evidence := db.evidence + sources,
        todos := if status.Opened?
                 then Notified(db.todos, Maintainers(db, work), Outbox.IssueOpened, Outbox.OpenedKey(i, 1))
                 else db.todos)
  }

  function AfterAdd(db: Db, i: Id, e: Id, source: Evidence): Db
    requires i in db.issues
  {
    Touched(db, i).(evidence := db.evidence[e := source])
  }

  function AfterRemove(db: Db, i: Id, e: Id): Db
    requires i in db.issues
  {
    Touched(db, i).(evidence := db.evidence - {e})
  }

  function Apply(db: Db, a: Action): Db
    requires Enabled(db, a)
  {
    match a
    case Create(i, work, key, words, status, sources) => AfterCreate(db, i, work, key, words, status, sources)
    case Update(i, words, note, status, _) => AfterUpdate(db, i, words, note, status)
    case Bind(i, session, l, actor, _) => AfterBind(db, i, session, l, actor)
    case Conclude(i, l, c, reason, status, _) => AfterConclude(db, i, l, c, reason, status)
    case AddEvidence(i, e, source, _) => AfterAdd(db, i, e, source)
    case RemoveEvidence(i, e, _) => AfterRemove(db, i, e)
    case CloseTodo(s, to) => db.(todos := db.todos[s := to])
    case DeleteTodos(ss) => db.(todos := db.todos - ss)
    case SetSession(id, row) => db.(sessions := db.sessions[id := row])
    case SetMaintainers(work, accounts) => db.(maintainers := db.maintainers[work := accounts])
  }

  ghost predicate Legal(db: Db, run: seq<Action>)
    decreases |run|
  {
    run == [] || (Enabled(db, run[0]) && Legal(Apply(db, run[0]), run[1..]))
  }

  ghost function After(db: Db, run: seq<Action>): Db
    requires Legal(db, run)
    decreases |run|
  {
    if run == [] then db else After(Apply(db, run[0]), run[1..])
  }

  ghost predicate Initial(db: Db) {
    db.issues == map[] && db.links == map[] && db.evidence == map[] && db.todos == map[]
  }
}
