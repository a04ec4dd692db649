/**
 The mail outbox, the todos its mails belong to, and the workers that send the mails.

 Every action below is one committed transaction or one SMTP conversation. A run is any
 sequence of actions, so it interleaves any number of workers, stale-claim recovery, todo
 handling, credential revocation and restricted recovery. A worker that crashes simply
 takes no further action.
 */
module Outbox {
  import opened Base

  datatype MailStatus = Pending | Sending | Accepted | Failed | Unknown | Cancelled | Suppressed

  datatype ErrorCode = CredentialUnavailable | BusinessUnavailable | ExplicitSmtpFailure | SmtpResultUnknown

  /** A row of `mail_outbox`. `envelope` says whether the encrypted token is still stored. */
  datatype Mail = Mail(
    credential: Option<Id>,
    todo: Option<Id>,
    scope: Option<string>,
    retryKey: Option<string>,
    status: MailStatus,
    claim: Option<Id>,
    envelope: bool,
    attempts: nat,
    nextAttemptAt: int,
    dispatchStartedAt: Option<int>,
    smtpStartedAt: Option<int>,
    acceptedAt: Option<int>,
    lastError: Option<ErrorCode>,
    createdAt: int)

  datatype TodoKind =
    | WorkspaceInvitation | PlaytestInvitation | ArrangementUpdated | MaterialUpdated
    | PlaytestCancelled | FeedbackSubmitted | IssueOpened | RetestNeeded | RetestArranged

  /** The texts that services build source keys from, before they are put together. */
  datatype SourceKey =
    | OpenedKey(issue: Id, revision: nat)
    | AdjustmentKey(issue: Id, generation: nat)
    | LinkKey(link: Id)
    | OtherKey(text: string)

  /** What makes a todo unique: recipient, kind and source key. */
  datatype Source = Source(recipient: Id, kind: TodoKind, key: SourceKey)

  datatype Target = Target(kind: string, id: Id)

  datatype TodoStatus = Open | Completed | Dismissed

  datatype Todo = Todo(source: Source, work: Option<Id>, target: Target, status: TodoStatus, retryUsed: bool)

  /** The stage column of the singleton recovery state. */
  datatype Stage = StageOpen | Recovering | ApiOpen

  // ----- Row updates -----

  /** Rows that no SMTP conversation has started for, and that a worker may still pick up. */
  predicate Unstarted(r: Mail) {
    r.status.Pending? || (r.status.Sending? && r.smtpStartedAt.None?)
  }

  function Claimed(r: Mail, c: Id, now: int): Mail {
    r.(status := Sending, claim := Some(c), dispatchStartedAt := Some(now), attempts := r.attempts + 1)
  }

  function Recovered(r: Mail): Mail {
    if r.smtpStartedAt.None?
    then r.(claim := None, status := Pending, dispatchStartedAt := None)
    else r.(claim := None, status := Unknown, lastError := Some(SmtpResultUnknown), envelope := false)
  }

  function StoppedFor(r: Mail, todos: set<Id>): Mail {
    if r.todo.Some? && r.todo.value in todos && Unstarted(r) then r.(status := Cancelled, claim := None) else r
  }

  /** `ON DELETE SET NULL` of the foreign key to the todo. */
  function Detached(r: Mail, todos: set<Id>): Mail {
    if r.todo.Some? && r.todo.value in todos then r.(todo := None) else r
  }

  function SuppressedForRecovery(r: Mail): Mail {
    if Unstarted(r) || r.status.Unknown? then r.(status := Suppressed, claim := None, envelope := false) else r
  }

  function SuppressedForScope(r: Mail, scope: string): Mail {
    if r.scope == Some(scope) && r.credential.None? && Unstarted(r)
    then r.(status := Suppressed, claim := None) else r
  }

  function Cleared(r: Mail, credentials: set<Id>): Mail {
    if && r.credential.Some? && r.credential.value in credentials
       && (r.status.Pending? || r.status.Sending? || r.status.Cancelled?)
       && r.smtpStartedAt.None?
    then r.(status := Cancelled, claim := None, envelope := false) else r
  }

  /** What the SMTP conversation told the worker. */
  datatype Outcome = AcceptedByServer | ExplicitFailure | Uncertain

  /** The row a worker writes after its SMTP conversation ended with outcome `o`. */
  function Recorded(r: Mail, o: Outcome, attempt: nat, limit: nat, now: int): Mail {
    match o
    case AcceptedByServer =>
      r.(claim := None, status := Accepted, acceptedAt := Some(now), lastError := None, envelope := false)
    case Uncertain =>
      r.(claim := None, status := Unknown, lastError := Some(SmtpResultUnknown), envelope := false)
    case ExplicitFailure =>
      if attempt < limit
      then r.(claim := None, status := Pending, nextAttemptAt := now + 60 * attempt,
              dispatchStartedAt := None, smtpStartedAt := None, lastError := Some(ExplicitSmtpFailure))
      else r.(claim := None, status := Failed, lastError := Some(ExplicitSmtpFailure), envelope := false)
  }

  function Ineligible(r: Mail, business: bool): Mail {
    if business
    then r.(claim := None, status := Cancelled, lastError := Some(BusinessUnavailable))
    else r.(claim := None, status := Cancelled, lastError := Some(CredentialUnavailable), envelope := false)
  }

  function NewTokenMail(credential: Id, todo: Option<Id>, now: int): Mail {
    Mail(Some(credential), todo, None, None, Pending, None, true, 0, now, None, None, None, None, now)
  }

  function NewBusinessMail(todo: Option<Id>, scope: string, retryKey: Option<string>, now: int): Mail {
    Mail(None, todo, Some(scope), retryKey, Pending, None, false, 0, now, None, None, None, None, now)
  }

  // ----- World: tables, workers, and the history of SMTP conversations -----

  /** One SMTP conversation, with what the worker learnt from it so far. */
  datatype Send = Send(claim: Id, attempt: nat, outcome: Option<Outcome>)

  datatype Phase = HasClaim | InSmtp | Returned(outcome: Outcome) | Finished

  /** The dispatch that made one claim; `attempt` is the count it read when it claimed. */
  datatype Worker = Worker(mail: Id, attempt: nat, phase: Phase)

  /** `limit` is `mail_max_attempts`; `usable` holds the credentials that may be mailed now. A
      credential may be mailed from its creation until it is used, revoked or expired, or its invitation ends. */
  datatype World = World(
    limit: nat,
    mails: map<Id, Mail>,
    todos: map<Id, Todo>,
    stage: Stage,
    usable: set<Id>,
    workers: map<Id, Worker>,
    sends: map<Id, seq<Send>>)

  datatype Action =
    | EnqueueToken(m: Id, credential: Id, now: int)
    | CreateTodo(t: Id, m: Id, todo: Todo, token: Option<Id>, scope: string, now: int)
    | RetryFailed(t: Id, failed: Id, m: Id, key: string, now: int)
    | CloseTodos(ts: set<Id>, to: TodoStatus)
    | DeleteTodos(ts: set<Id>)
    | SuppressScope(scope: string)
    | ClearEnvelopes(credentials: set<Id>)
    | LoseCredentials(credentials: set<Id>)
    | BeginRecovery
    | VerifyAndOpenApi
    | OpenDispatcher
    | RecoverStale(ms: set<Id>)
    | Claim(m: Id, c: Id, now: int)
    | GiveUp(c: Id, business: bool)
    | Start(c: Id, now: int)
    | Return(c: Id, outcome: Outcome)
    | Record(c: Id, now: int)

  /** The row still belongs to the claim: the fencing condition of every later update. */
  predicate Owns(mails: map<Id, Mail>, m: Id, c: Id) {
    m in mails && mails[m].status.Sending? && mails[m].claim == Some(c)
  }

  predicate TodoAllows(todos: map<Id, Todo>, r: Mail) {
    r.todo.None? || (r.todo.value in todos && todos[r.todo.value].status.Open?)
  }

  /** The condition under which `_start_smtp` updates the row. */
  predicate StartAllowed(mails: map<Id, Mail>, todos: map<Id, Todo>, stage: Stage, usable: set<Id>, m: Id, c: Id) {
    && Owns(mails, m, c)
    && mails[m].smtpStartedAt.None?
    && stage.StageOpen?
    && TodoAllows(todos, mails[m])
    && (mails[m].credential.None? || mails[m].credential.value in usable)
  }

  predicate MayStart(w: World, c: Id) {
    c in w.workers && StartAllowed(w.mails, w.todos, w.stage, w.usable, w.workers[c].mail, c)
  }

  predicate IsBusiness(kind: TodoKind) { !kind.WorkspaceInvitation? }

  predicate IsMaintenance(kind: TodoKind) {
    kind.FeedbackSubmitted? || kind.IssueOpened? || kind.RetestNeeded? || kind.RetestArranged?
  }

  predicate Earlier(mails: map<Id, Mail>, a: Id, b: Id)
    requires a in mails && b in mails
  {
    mails[a].createdAt < mails[b].createdAt || (mails[a].createdAt == mails[b].createdAt && a <= b)
  }

  /** `m` is the most recently created mail of todo `t`. */
  predicate IsLatest(mails: map<Id, Mail>, t: Id, m: Id) {
    && m in mails && mails[m].todo == Some(t)
    && forall k :: k in mails && mails[k].todo == Some(t) ==> Earlier(mails, k, m)
  }

  predicate MayRetry(mails: map<Id, Mail>, todos: map<Id, Todo>, t: Id, failed: Id) {
    && t in todos && todos[t].status.Open? && !todos[t].retryUsed
    && IsLatest(mails, t, failed)
    && mails[failed].status.Failed? && mails[failed].credential.None? && mails[failed].scope.Some?
  }

  function TodosOfSource(todos: map<Id, Todo>, s: Source): set<Id> {
    set t | t in todos && todos[t].source == s
  }

  /** Whether dispatching is allowed is asked in an earlier transaction, so rows may be claimed and
      recovered at any stage; only the start of SMTP looks at the stage itself. */
  predicate Enabled(w: World, a: Action) {
    match a
    case EnqueueToken(m, credential, _) =>
      m !in w.mails && forall k :: k in w.mails ==> w.mails[k].credential != Some(credential)
    case CreateTodo(t, m, todo, token, _, _) =>
      && t !in w.todos && m !in w.mails && todo.status.Open? && !todo.retryUsed
      && TodosOfSource(w.todos, todo.source) == {}
      && (token.None? <==> IsBusiness(todo.source.kind))
      && (token.Some? ==> forall k :: k in w.mails ==> w.mails[k].credential != token)
    case RetryFailed(t, failed, m, _, _) =>
      m !in w.mails && MayRetry(w.mails, w.todos, t, failed)
    case CloseTodos(ts, to) =>
      !to.Open? && forall t :: t in ts ==> t in w.todos && w.todos[t].status.Open?
    case DeleteTodos(ts) =>
      forall t :: t in ts ==> t in w.todos && IsMaintenance(w.todos[t].source.kind)
    case BeginRecovery => !w.stage.ApiOpen?
    case VerifyAndOpenApi => w.stage.Recovering?
    case OpenDispatcher => w.stage.ApiOpen?
    case RecoverStale(ms) => forall m :: m in ms ==> m in w.mails && w.mails[m].status.Sending?
    case Claim(m, c, now) =>
      c !in w.workers && m in w.mails && w.mails[m].status.Pending? && w.mails[m].nextAttemptAt <= now
    case GiveUp(c, _) => c in w.workers && w.workers[c].phase.HasClaim?
    case Start(c, _) => c in w.workers && w.workers[c].phase.HasClaim?
    case Return(c, _) => c in w.workers && w.workers[c].phase.InSmtp?
    case Record(c, _) => c in w.workers && w.workers[c].phase.Returned?
    case _ => true
  }

  /** Stores the outcome in the history entry of claim `c`. */
  function WithOutcome(s: seq<Send>, c: Id, o: Outcome): seq<Send> {
    seq(|s|, i requires 0 <= i < |s| => if s[i].claim == c then s[i].(outcome := Some(o)) else s[i])
  }

  function History(w: World, m: Id): seq<Send> {
    if m in w.sends then w.sends[m] else []
  }

  // ----- What each action does -----

  function ClosedTodos(todos: map<Id, Todo>, ts: set<Id>, to: TodoStatus): map<Id, Todo> {
    map t | t in todos :: if t in ts then todos[t].(status := to) else todos[t]
  }

  function StoppedMails(mails: map<Id, Mail>, ts: set<Id>): map<Id, Mail> {
    map m | m in mails :: StoppedFor(mails[m], ts)
  }

  function DetachedMails(mails: map<Id, Mail>, ts: set<Id>): map<Id, Mail> {
    map m | m in mails :: Detached(StoppedFor(mails[m], ts), ts)
  }

  function RecoveredMails(mails: map<Id, Mail>, ms: set<Id>): map<Id, Mail> {
    map m | m in mails :: if m in ms then Recovered(mails[m]) else mails[m]
  }

  function AfterClose(w: World, ts: set<Id>, to: TodoStatus): World {
    w.(todos := ClosedTodos(w.todos, ts, to), mails := StoppedMails(w.mails, ts))
  }

  function AfterDelete(w: World, ts: set<Id>): World {
    w.(todos := w.todos - ts, mails := DetachedMails(w.mails, ts))
  }

  function AfterStale(w: World, ms: set<Id>): World {
    w.(mails := RecoveredMails(w.mails, ms))
  }

  function AfterClaim(w: World, m: Id, c: Id, now: int): World
    requires m in w.mails
  {
    w.(mails := w.mails[m := Claimed(w.mails[m], c, now)],
       workers := w.workers[c := Worker(m, w.mails[m].attempts + 1, HasClaim)])
  }

  /** Every later step of a worker: its own row changes only if the claim still owns it. */
  function AfterGiveUp(w: World, c: Id, business: bool): World
    requires c in w.workers
  {
    var m := w.workers[c].mail;
    w.(workers := w.workers[c := w.workers[c].(phase := Finished)],
       mails := if Owns(w.mails, m, c) then w.mails[m := Ineligible(w.mails[m], business)] else w.mails)
  }

  function AfterStart(w: World, c: Id, now: int): World
    requires c in w.workers
  {
    var m := w.workers[c].mail;
    if MayStart(w, c)
    then w.(mails := w.mails[m := w.mails[m].(smtpStartedAt := Some(now))],
            workers := w.workers[c := w.workers[c].(phase := InSmtp)],
            sends := w.sends[m := History(w, m) + [Send(c, w.workers[c].attempt, None)]])
    else w.(workers := w.workers[c := w.workers[c].(phase := Finished)])
  }

  function AfterReturn(w: World, c: Id, o: Outcome): World
    requires c in w.workers
  {
    var m := w.workers[c].mail;
    w.(workers := w.workers[c := w.workers[c].(phase := Returned(o))],
       sends := w.sends[m := WithOutcome(History(w, m), c, o)])
  }

  function AfterRecord(w: World, c: Id, now: int): World
    requires c in w.workers && w.workers[c].phase.Returned?
  {
    var k := w.workers[c];
    w.(workers := w.workers[c := k.(phase := Finished)],
       mails := if Owns(w.mails, k.mail, c)
                then w.mails[k.mail := Recorded(w.mails[k.mail], k.phase.outcome, k.attempt, w.limit, now)]
                else w.mails)
  }

  function Apply(w: World, a: Action): World
    requires Enabled(w, a)
  {
    match a
    case EnqueueToken(m, credential, now) =>
      w.(mails := w.mails[m := NewTokenMail(credential, None, now)], sends := w.sends[m := []],
         usable := w.usable + {credential})
    case CreateTodo(t, m, todo, token, scope, now) =>
      var mail := if token.Some? then NewTokenMail(token.value, Some(t), now)
                  else NewBusinessMail(Some(t), scope, None, now);
      w.(todos := w.todos[t := todo], mails := w.mails[m := mail], sends := w.sends[m := []],
         usable := w.usable + if token.Some? then {token.value} else {})
    case RetryFailed(t, failed, m, key, now) =>
      w.(todos := w.todos[t := w.todos[t].(retryUsed := true)],
         mails := w.mails[m := NewBusinessMail(Some(t), w.mails[failed].scope.value, Some(key), now)],
         sends := w.sends[m := []])
    case CloseTodos(ts, to) => AfterClose(w, ts, to)
    case DeleteTodos(ts) => AfterDelete(w, ts)
    case SuppressScope(scope) => w.(mails := Mapped(w.mails, (r: Mail) => SuppressedForScope(r, scope)))
    case ClearEnvelopes(cs) => w.(mails := Mapped(w.mails, (r: Mail) => Cleared(r, cs)))
    case LoseCredentials(cs) => w.(usable := w.usable - cs)
    case BeginRecovery => w.(stage := Recovering, mails := Mapped(w.mails, SuppressedForRecovery))
    case VerifyAndOpenApi => w.(stage := ApiOpen)
    case OpenDispatcher => w.(stage := StageOpen)
    case RecoverStale(ms) => AfterStale(w, ms)
    case Claim(m, c, now) => AfterClaim(w, m, c, now)
    case GiveUp(c, business) => AfterGiveUp(w, c, business)
    case Start(c, now) => AfterStart(w, c, now)
    case Return(c, o) => AfterReturn(w, c, o)
    case Record(c, now) => AfterRecord(w, c, now)
  }

  // ----- Runs -----

  ghost predicate Legal(w: World, run: seq<Action>)
    decreases |run|
  {
    run == [] || (Enabled(w, run[0]) && Legal(Apply(w, run[0]), run[1..]))
  }

  ghost function After(w: World, run: seq<Action>): World
    requires Legal(w, run)
    decreases |run|
  {
    if run == [] then w else After(Apply(w, run[0]), run[1..])
  }

  // ----- The invariant -----

  /** A conversation after which the row may be sent again. */
  predicate Retryable(limit: nat, s: Send) {
    s.outcome == Some(ExplicitFailure) && s.attempt < limit
  }

  /** The attempt numbers that the row has used up for conversations so far. */
  function UsedAttempts(r: Mail): nat {
    if r.status.Sending? && r.smtpStartedAt.None? && r.attempts > 0 then r.attempts - 1 else r.attempts
  }

  /** Attempts increase; every conversation but the last could be retried, and so could the
      last one if the row may be started again. */
  ghost predicate HistoryShape(limit: nat, s: seq<Send>, startable: bool, used: nat) {
    && (forall i :: 0 <= i < |s| - 1 ==> Retryable(limit, s[i]))
    && (startable && s != [] ==> Retryable(limit, s[|s| - 1]))
    && (forall i, j :: 0 <= i < j < |s| ==> s[i].attempt < s[j].attempt)
    && (forall i :: 0 <= i < |s| ==> 1 <= s[i].attempt <= used)
  }

  ghost predicate HistoryOwners(workers: map<Id, Worker>, s: seq<Send>, m: Id) {
    forall i :: 0 <= i < |s| ==>
      && s[i].claim in workers && workers[s[i].claim].mail == m
      && workers[s[i].claim].attempt == s[i].attempt && !workers[s[i].claim].phase.HasClaim?
  }

  predicate InConversation(p: Phase) { p.InSmtp? || p.Returned? }

  /** Columns of one row that must agree with each other. */
  ghost predicate ColumnsOk(r: Mail) {
    && (r.claim.Some? <==> r.status.Sending?)
    && (r.status.Pending? ==> r.smtpStartedAt.None?)
    && (r.envelope ==> r.credential.Some?)
    && (r.credential.Some? && (r.status.Pending? || r.status.Sending?) ==> r.envelope)
    && (r.status.Accepted? || r.status.Failed? || r.status.Unknown? || r.status.Suppressed? ==> !r.envelope)
  }

  /** A claimed row and the worker that claimed it agree. */
  ghost predicate ClaimOk(w: World, m: Id)
    requires m in w.mails
  {
    var r := w.mails[m];
    r.status.Sending? && r.claim.Some? ==>
      && r.claim.value in w.workers
      && w.workers[r.claim.value].mail == m
      && 1 <= r.attempts == w.workers[r.claim.value].attempt
      && (InConversation(w.workers[r.claim.value].phase) <==> r.smtpStartedAt.Some?)
  }

  ghost predicate RowOk(w: World, m: Id)
    requires m in w.mails && m in w.sends
  {
    && ColumnsOk(w.mails[m]) && ClaimOk(w, m)
    && HistoryShape(w.limit, w.sends[m], Unstarted(w.mails[m]), UsedAttempts(w.mails[m]))
    && HistoryOwners(w.workers, w.sends[m], m)
  }

  ghost predicate WorkerOk(w: World, c: Id)
    requires c in w.workers
  {
    var k := w.workers[c];
    && k.mail in w.mails && k.mail in w.sends
    && 1 <= k.attempt <= w.mails[k.mail].attempts
    && (InConversation(k.phase) ==>
          && w.sends[k.mail] != []
          && w.sends[k.mail][|w.sends[k.mail]| - 1]
             == Send(c, k.attempt, if k.phase.InSmtp? then None else Some(k.phase.outcome))
          && !Unstarted(w.mails[k.mail])
          && (w.mails[k.mail].status.Sending? ==> w.mails[k.mail].claim == Some(c)))
  }

  ghost predicate Inv(w: World) {
    && w.sends.Keys == w.mails.Keys
    && (forall m :: m in w.mails ==> RowOk(w, m))
    && (forall c :: c in w.workers ==> WorkerOk(w, c))
  }
}
