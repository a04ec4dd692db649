/**
 The transactions of the mail dispatcher and the notification service, statement by
 statement, over the tables they update in place. Each method is tied to the table functions
 of `Outbox`, whose runs the outbox theorems are about.
 */
module OutboxStore {
  import opened Base
  import opened Outbox

  datatype DispatchClaim = DispatchClaim(mail: Id, claim: Id, attempt: nat)

  datatype DispatchResult = DidAccept | DidFail | DidRequeue | DidLose | DidCancel | WasSuperseded

  datatype RetryResult =
    | RetryQueued | RetryAlreadyQueued | TodoUnavailable | WorkspaceReadOnly
    | TodoNotOpen | RetryUsed | RetryUnavailable

  /** What a dispatch learns from services outside the outbox. */
  datatype Surroundings = Surroundings(businessEligible: bool, recipientActive: bool, tokenReadable: bool)

  function StaleRows(mails: map<Id, Mail>, cutoff: int, locked: set<Id>): set<Id> {
    set m | && m in mails && m !in locked && mails[m].status.Sending?
            && mails[m].dispatchStartedAt.Some? && mails[m].dispatchStartedAt.value < cutoff
  }

  function DueRows(mails: map<Id, Mail>, now: int, locked: set<Id>): set<Id> {
    set m | m in mails && m !in locked && mails[m].status.Pending? && mails[m].nextAttemptAt <= now
  }

  function TodosOfTarget(todos: map<Id, Todo>, target: Target, kinds: set<TodoKind>): set<Id> {
    set t | t in todos && todos[t].target == target && todos[t].source.kind in kinds && todos[t].status.Open?
  }

  function MaintenanceTodos(todos: map<Id, Todo>, recipient: Id, work: Id): set<Id> {
    set t | && t in todos && todos[t].source.recipient == recipient && todos[t].work == Some(work)
            && IsMaintenance(todos[t].source.kind)
  }

  /** The row after one undisturbed dispatch of the claimed row `r`. */
  function DispatchedRow(r: Mail, todoOpen: bool, usable: set<Id>, s: Surroundings, o: Outcome, limit: nat, now: int)
    : Mail
  {
    if !todoOpen then Ineligible(r, r.credential.None?)
    else if r.credential.None? && !s.businessEligible then Ineligible(r, true)
    else if !s.recipientActive
            || (r.credential.Some? && !(r.credential.value in usable && s.tokenReadable && r.envelope))
    then Ineligible(r, false)
    else if r.smtpStartedAt.Some? then r
    else Recorded(r.(smtpStartedAt := Some(now)), o, r.attempts, limit, now)
  }

  lemma StopTwice(r: Mail, done: set<Id>, t: Id)
    ensures StoppedFor(StoppedFor(r, done), {t}) == StoppedFor(r, done + {t})
  {
  }

  lemma StopMore(mails: map<Id, Mail>, done: set<Id>, t: Id)
    ensures StoppedMails(StoppedMails(mails, done), {t}) == StoppedMails(mails, done + {t})
  {
    forall m | m in mails
      ensures StoppedMails(StoppedMails(mails, done), {t})[m] == StoppedMails(mails, done + {t})[m]
    {
      StopTwice(mails[m], done, t);
    }
  }

  lemma DetachTwice(r: Mail, done: set<Id>, t: Id)
    ensures Detached(StoppedFor(Detached(StoppedFor(r, done), done), {t}), {t})
            == Detached(StoppedFor(r, done + {t}), done + {t})
  {
  }

  /** The foreign key empties the references to a deleted todo. */
  function WithoutReference(mails: map<Id, Mail>, t: Id): map<Id, Mail> {
    map m | m in mails :: Detached(mails[m], {t})
  }

  lemma DetachMore(mails: map<Id, Mail>, done: set<Id>, t: Id)
    ensures WithoutReference(StoppedMails(DetachedMails(mails, done), {t}), t) == DetachedMails(mails, done + {t})
  {
    var l, r := WithoutReference(StoppedMails(DetachedMails(mails, done), {t}), t), DetachedMails(mails, done + {t});
    forall m | m in mails ensures l[m] == r[m] { DetachTwice(mails[m], done, t); }
  }

  class Store {
    const maxAttempts: nat
    const staleAfter: nat
    var frozen: bool
    var stage: Stage
    var usable: set<Id>
    var mails: map<Id, Mail>
    var todos: map<Id, Todo>

    constructor (maxAttempts: nat, staleAfter: nat)
      ensures mails == map[] && todos == map[] && stage.StageOpen? && !frozen
      ensures this.maxAttempts == maxAttempts && this.staleAfter == staleAfter
    {
      this.maxAttempts, this.staleAfter := maxAttempts, staleAfter;
      frozen, stage, usable, mails, todos := false, StageOpen, {}, map[], map[];
    }

    predicate DispatcherAllowed()
      reads this
    {
      !frozen && stage.StageOpen?
    }

    // ----- Dispatcher -----

    /** `locked` are the rows that other transactions hold: `SKIP LOCKED` leaves them out. */
    method RecoverStaleDispatches(now: int, locked: set<Id>) returns (n: nat)
      modifies this`mails
      ensures !DispatcherAllowed() ==> n == 0 && mails == old(mails)
      ensures DispatcherAllowed() ==>
        var rows := StaleRows(old(mails), now - staleAfter, locked);
        n == |rows| && mails == RecoveredMails(old(mails), rows)
    {
      if !DispatcherAllowed() { return 0; }
      var rows := StaleRows(mails, now - staleAfter, locked);
      var rest := rows;
      n := |rows|;
      while rest != {}
        invariant rest <= rows
        invariant mails == RecoveredMails(old(mails), rows - rest)
      {
        var m :| m in rest;
        var r := mails[m].(claim := None);
        if r.smtpStartedAt.None? {
          r := r.(status := Pending);
          r := r.(dispatchStartedAt := None);
        } else {
          r := r.(status := Unknown);
          r := r.(lastError := Some(SmtpResultUnknown));
          r := r.(envelope := false);
        }
        mails := mails[m := r];
        rest := rest - {m};
      }
    }

    /** Claims the oldest due row that nobody holds. */
    method ClaimNext(now: int, claim: Id, locked: set<Id>) returns (d: Option<DispatchClaim>)
      modifies this`mails
      ensures d.None? <==> DueRows(old(mails), now, locked) == {}
      ensures d.None? ==> mails == old(mails)
      ensures d.Some? ==>
        var m := d.value.mail;
        && m in DueRows(old(mails), now, locked)
        && (forall k :: k in DueRows(old(mails), now, locked) ==> old(mails)[m].createdAt <= old(mails)[k].createdAt)
        && d.value == DispatchClaim(m, claim, old(mails)[m].attempts + 1)
        && mails == old(mails)[m := Claimed(old(mails)[m], claim, now)]
    {
      var due := DueRows(mails, now, locked);
      if due == {} { return None; }
      var m :| m in due;
      var rest := due - {m};
      while rest != {}
        invariant rest <= due && m in due
        invariant forall k :: k in due - rest ==> mails[m].createdAt <= mails[k].createdAt
      {
        var k :| k in rest;
        if mails[k].createdAt < mails[m].createdAt { m := k; }
        rest := rest - {k};
      }
      var r := mails[m].(status := Sending, claim := Some(claim));
      r := r.(dispatchStartedAt := Some(now));
      r := r.(attempts := r.attempts + 1);
      mails := mails[m := r];
      d := Some(DispatchClaim(m, claim, r.attempts));
    }

    /** A claim starts at most once: no claim can start the row afterwards. */
    method StartSmtp(d: DispatchClaim, now: int) returns (started: bool)
      modifies this`mails
      ensures !StartAllowed(mails, todos, stage, usable, d.mail, d.claim)
      ensures started ==> forall c :: !StartAllowed(mails, todos, stage, usable, d.mail, c)
      ensures started <==> StartAllowed(old(mails), todos, stage, usable, d.mail, d.claim)
      ensures mails == if started then old(mails)[d.mail := old(mails)[d.mail].(smtpStartedAt := Some(now))]
                       else old(mails)
    {
      started := StartAllowed(mails, todos, stage, usable, d.mail, d.claim);
      if started { mails := mails[d.mail := mails[d.mail].(smtpStartedAt := Some(now))]; }
    }

    /** The fenced update every outcome goes through: a claim records at most one. */
    method UpdateClaim(d: DispatchClaim, values: Mail -> Mail) returns (updated: bool)
      modifies this`mails
      ensures !Owns(mails, d.mail, d.claim)
      ensures updated <==> Owns(old(mails), d.mail, d.claim)
      ensures mails == if updated then old(mails)[d.mail := values(old(mails)[d.mail]).(claim := None)] else old(mails)
    {
      updated := Owns(mails, d.mail, d.claim);
      if updated { mails := mails[d.mail := values(mails[d.mail]).(claim := None)]; }
    }

    method MarkIneligible(d: DispatchClaim, business: bool) returns (updated: bool)
      modifies this`mails
      ensures updated <==> Owns(old(mails), d.mail, d.claim)
      ensures !Owns(mails, d.mail, d.claim)
      ensures mails == if updated then old(mails)[d.mail := Ineligible(old(mails)[d.mail], business)] else old(mails)
    {
      if business {
        updated := UpdateClaim(d, (r: Mail) => r.(status := Cancelled, lastError := Some(BusinessUnavailable)));
      } else {
        updated := UpdateClaim(d, (r: Mail) =>
          r.(status := Cancelled, lastError := Some(CredentialUnavailable), envelope := false));
      }
    }

    /** `_mark_accepted`, `_mark_failed` and `_mark_unknown`. */
    method MarkOutcome(d: DispatchClaim, o: Outcome, now: int) returns (updated: bool)
      modifies this`mails
      ensures updated <==> Owns(old(mails), d.mail, d.claim)
      ensures !Owns(mails, d.mail, d.claim)
      ensures mails == if updated
                       then old(mails)[d.mail := Recorded(old(mails)[d.mail], o, d.attempt, maxAttempts, now)]
                       else old(mails)
    {
      var limit := maxAttempts;
      match o
      case AcceptedByServer =>
        updated := UpdateClaim(d, (r: Mail) =>
          r.(status := Accepted, acceptedAt := Some(now), lastError := None, envelope := false));
      case Uncertain =>
        updated := UpdateClaim(d, (r: Mail) =>
          r.(status := Unknown, lastError := Some(SmtpResultUnknown), envelope := false));
      case ExplicitFailure =>
        if d.attempt < limit {
          updated := UpdateClaim(d, (r: Mail) =>
            r.(status := Pending, nextAttemptAt := now + 60 * d.attempt, dispatchStartedAt := None,
               smtpStartedAt := None, lastError := Some(ExplicitSmtpFailure)));
        } else {
          updated := UpdateClaim(d, (r: Mail) =>
            r.(status := Failed, lastError := Some(ExplicitSmtpFailure), envelope := false));
        }
    }

    /** One dispatch that no other transaction interleaves with. */
    method DispatchOne(now: int, claim: Id, locked: set<Id>, around: Surroundings, outcome: Outcome)
      returns (result: Option<DispatchResult>, ghost dispatched: Option<Id>)
      modifies this`mails
      ensures result.None? <==> !DispatcherAllowed() || DueRows(old(mails), now, locked) == {}
      ensures result.None? <==> dispatched.None?
      ensures result.None? ==> mails == old(mails)
      ensures result.Some? ==>
        var m := dispatched.value;
        && m in DueRows(old(mails), now, locked)
        && var r := Claimed(old(mails)[m], claim, now);
           && mails == old(mails)[m := DispatchedRow(r, TodoAllows(todos, r), usable, around, outcome, maxAttempts,
                                                     now)]
           && (result.value.DidCancel? ==> mails[m].status.Cancelled?)
           && (result.value.WasSuperseded? <==> mails[m].status.Sending?)
           && (result.value.DidAccept? <==> mails[m].status.Accepted?)
           && (result.value.DidFail? <==> mails[m].status.Failed?)
           && (result.value.DidLose? <==> mails[m].status.Unknown?)
           && (result.value.DidRequeue? <==> mails[m].status.Pending?)
    {
      dispatched := None;
      if !DispatcherAllowed() { return None, None; }
      var claimed := ClaimNext(now, claim, locked);
      if claimed.None? { return None, None; }
      var d := claimed.value;
      dispatched := Some(d.mail);
      var r := mails[d.mail];
      if !TodoAllows(todos, r) {
        var updated := MarkIneligible(d, r.credential.None?);
        return Some(DidCancel), dispatched;
      }
      if r.credential.None? && !around.businessEligible {
        var updated := MarkIneligible(d, true);
        return Some(DidCancel), dispatched;
      }
      if || !around.recipientActive
         || (r.credential.Some? && !(r.credential.value in usable && around.tokenReadable && r.envelope)) {
        var updated := MarkIneligible(d, false);
        return Some(DidCancel), dispatched;
      }
      var started := StartSmtp(d, now);
      if !started { return Some(WasSuperseded), dispatched; }
      var updated := MarkOutcome(d, outcome, now);
      match outcome
      case AcceptedByServer => result := Some(DidAccept);
      case Uncertain => result := Some(DidLose);
      case ExplicitFailure => result := Some(if d.attempt < maxAttempts then DidRequeue else DidFail);
    }

    // ----- Notification service -----

    method StopTodoMail(t: Id)
      modifies this`mails
      ensures mails == StoppedMails(old(mails), {t})
    {
      mails := map m | m in mails ::
        if mails[m].todo == Some(t) && Unstarted(mails[m])
        then mails[m].(status := Cancelled, claim := None) else mails[m];
    }

    /** Completes or cancels the open todo of a source, if there is one. */
    method CloseTodoBySource(s: Source, to: TodoStatus) returns (ghost closed: set<Id>)
      requires !to.Open?
      requires |TodosOfSource(todos, s)| <= 1
      modifies this`mails, this`todos
      ensures closed == set t | t in TodosOfSource(old(todos), s) && old(todos)[t].status.Open?
      ensures todos == ClosedTodos(old(todos), closed, to)
      ensures mails == StoppedMails(old(mails), closed)
    {
      closed := set t | t in TodosOfSource(todos, s) && todos[t].status.Open?;
      var found := TodosOfSource(todos, s);
      if found != {} {
        var t :| t in found;
        assert found - {t} == {} by { assert |found - {t}| == 0; }
        assert found == {t};
        if todos[t].status.Open? {
          assert closed == {t};
          todos := todos[t := todos[t].(status := to)];
          StopTodoMail(t);
        } else {
          assert closed == {};
        }
      }
    }

    /** Completes or cancels every open todo of a target, one row after the other. */
    method CloseTodosForTarget(target: Target, kinds: set<TodoKind>, to: TodoStatus)
      requires !to.Open?
      modifies this`mails, this`todos
      ensures todos == ClosedTodos(old(todos), TodosOfTarget(old(todos), target, kinds), to)
      ensures mails == StoppedMails(old(mails), TodosOfTarget(old(todos), target, kinds))
    {
      var rows := TodosOfTarget(todos, target, kinds);
      var rest := rows;
      ghost var done: set<Id> := {};
      while rest != {}
        invariant done + rest == rows
        invariant todos == ClosedTodos(old(todos), done, to)
        invariant mails == StoppedMails(old(mails), done)
      {
        var t :| t in rest;
        StopMore(old(mails), done, t);
        todos := todos[t := todos[t].(status := to)];
        StopTodoMail(t);
        rest, done := rest - {t}, done + {t};
      }
      assert done == rows;
    }

    /** Deleting a todo empties the reference of every mail that still has one. */
    method DeleteTodo(t: Id)
      modifies this`mails, this`todos
      ensures todos == old(todos) - {t}
      ensures mails == WithoutReference(StoppedMails(old(mails), {t}), t)
    {
      StopTodoMail(t);
      todos := todos - {t};
      mails := WithoutReference(mails, t);
    }

    /** Deletes the maintenance todos of a recipient who lost access. */
    method DeleteWorkAccessTodos(recipient: Id, work: Id)
      modifies this`mails, this`todos
      ensures todos == old(todos) - MaintenanceTodos(old(todos), recipient, work)
      ensures mails == DetachedMails(old(mails), MaintenanceTodos(old(todos), recipient, work))
    {
      var rows := MaintenanceTodos(todos, recipient, work);
      var rest := rows;
      ghost var done: set<Id> := {};
      while rest != {}
        invariant done + rest == rows
        invariant todos == old(todos) - done
        invariant mails == DetachedMails(old(mails), done)
      {
        var t :| t in rest;
        DetachMore(old(mails), done, t);
        DeleteTodo(t);
        rest, done := rest - {t}, done + {t};
      }
      assert done == rows;
    }

    /** Creates the todo unless its source already has one, open or not. */
    method CreateTodo(s: Source, work: Option<Id>, target: Target, unused: Id) returns (t: Id, created: bool)
      requires unused !in todos
      modifies this`todos
      ensures created <==> TodosOfSource(old(todos), s) == {}
      ensures !created ==> t in TodosOfSource(old(todos), s) && todos == old(todos)
      ensures created ==> t == unused && todos == old(todos)[t := Todo(s, work, target, Open, false)]
    {
      var found := TodosOfSource(todos, s);
      if found != {} {
        t :| t in found;
        return t, false;
      }
      todos := todos[unused := Todo(s, work, target, Open, false)];
      return unused, true;
    }

    /** The most recently created mail of a todo. */
    method LatestMail(t: Id) returns (latest: Option<Id>)
      ensures latest.None? <==> forall m :: m in mails ==> mails[m].todo != Some(t)
      ensures latest.Some? ==> IsLatest(mails, t, latest.value)
    {
      var rows := set m | m in mails && mails[m].todo == Some(t);
      if rows == {} {
        assert forall m :: m in mails && mails[m].todo == Some(t) ==> m in rows;
        return None;
      }
      var best :| best in rows;
      var rest := rows - {best};
      while rest != {}
        invariant rest <= rows && best in rows
        invariant forall k :: k in rows - rest ==> Earlier(mails, k, best)
      {
        var k :| k in rest;
        ghost var seen, before := rows - rest, best;
        if Earlier(mails, best, k) { best := k; }
        rest := rest - {k};
        forall j | j in rows - rest ensures Earlier(mails, j, best) {
          assert j == k || j in seen;
          assert j in seen ==> Earlier(mails, j, before);
        }
      }
      assert forall m :: m in mails && mails[m].todo == Some(t) ==> m in rows;
      latest := Some(best);
    }

    method RetryFailedMail(recipient: Id, t: Id, key: string, unused: Id, writable: bool, eligible: bool, now: int)
      returns (result: RetryResult, ghost failed: Option<Id>)
      requires unused !in mails
      modifies this`mails, this`todos
      ensures result.RetryQueued? ==>
        && failed.Some? && MayRetry(old(mails), old(todos), t, failed.value) && writable && eligible
        && old(todos)[t].source.recipient == recipient
        && todos == old(todos)[t := old(todos)[t].(retryUsed := true)]
        && mails == old(mails)[unused := NewBusinessMail(Some(t), old(mails)[failed.value].scope.value, Some(key), now)]
      ensures !result.RetryQueued? ==> mails == old(mails) && todos == old(todos)
      ensures result.TodoUnavailable? <==> t !in old(todos) || old(todos)[t].source.recipient != recipient
      ensures result.RetryAlreadyQueued? <==>
        && !result.TodoUnavailable?
        && exists m :: m in old(mails) && old(mails)[m].todo == Some(t) && old(mails)[m].retryKey == Some(key)
      ensures !result.TodoUnavailable? && !result.RetryAlreadyQueued? ==>
        && (result.TodoNotOpen? <==> !old(todos)[t].status.Open?)
        && (result.RetryUsed? ==> old(todos)[t].retryUsed)
        && (old(todos)[t].status.Open? && writable ==>
              (result.RetryQueued? <==>
                 eligible && exists m :: m in old(mails) && MayRetry(old(mails), old(todos), t, m)))
    {
      failed := None;
      if t !in todos || todos[t].source.recipient != recipient { return TodoUnavailable, None; }
      if exists m :: m in mails && mails[m].todo == Some(t) && mails[m].retryKey == Some(key) {
        return RetryAlreadyQueued, None;
      }
      if !todos[t].status.Open? { return TodoNotOpen, None; }
      if !writable { return WorkspaceReadOnly, None; }
      if todos[t].retryUsed { return RetryUsed, None; }
      if !eligible { return RetryUnavailable, None; }
      var latest := LatestMail(t);
      if latest.None? { return RetryUnavailable, None; }
      var f := latest.value;
      OneLatest(mails, t, f);
      if !mails[f].status.Failed? || mails[f].credential.Some? || mails[f].scope.None? {
        return RetryUnavailable, None;
      }
      failed := Some(f);
      todos := todos[t := todos[t].(retryUsed := true)];
      mails := mails[unused := NewBusinessMail(Some(t), mails[f].scope.value, Some(key), now)];
      result := RetryQueued;
    }

    /** A cancelled session suppresses its business mails that SMTP has not taken over. */
    method SuppressBusinessMails(scope: string)
      modifies this`mails
      ensures mails == Mapped(old(mails), (r: Mail) => SuppressedForScope(r, scope))
      ensures forall m :: m in mails && mails[m].scope == Some(scope) && mails[m].credential.None? ==>
        !Unstarted(mails[m])
    {
      mails := map m | m in mails ::
        if && mails[m].scope == Some(scope) && mails[m].credential.None?
           && (mails[m].status.Pending? || (mails[m].status.Sending? && mails[m].smtpStartedAt.None?))
        then mails[m].(status := Suppressed, claim := None) else mails[m];
    }

    /** Afterwards nothing can be sent and no result is open; what it suppresses has no envelope. */
    method SuppressForRestrictedRecovery() returns (n: nat)
      modifies this`mails
      ensures forall m :: m in mails ==> !Unstarted(mails[m]) && !mails[m].status.Unknown?
      ensures (forall m :: m in old(mails) ==> ColumnsOk(old(mails)[m])) ==>
        forall m :: m in mails ==> ColumnsOk(mails[m]) && (mails[m].status.Suppressed? ==> !mails[m].envelope)
      ensures mails == Mapped(old(mails), SuppressedForRecovery)
      ensures n == |set m | m in old(mails) && (Unstarted(old(mails)[m]) || old(mails)[m].status.Unknown?)|
    {
      n := |set m | m in mails && (Unstarted(mails[m]) || mails[m].status.Unknown?)|;
      mails := map m | m in mails ::
        if Unstarted(mails[m]) || mails[m].status.Unknown?
        then mails[m].(status := Suppressed, claim := None, envelope := false) else mails[m];
    }

    /** Afterwards no mail of these credentials can be sent. */
    method ClearOutboxEnvelopes(credentials: set<Id>)
      modifies this`mails
      ensures forall m :: m in mails && mails[m].credential.Some? && mails[m].credential.value in credentials ==>
        (mails[m].smtpStartedAt.None? ==> !mails[m].status.Pending? && !mails[m].status.Sending?)
        && (mails[m].status.Cancelled? && mails[m].smtpStartedAt.None? ==> !mails[m].envelope)
      ensures mails == Mapped(old(mails), (r: Mail) => Cleared(r, credentials))
    {
      if credentials == {} { return; }
      mails := map m | m in mails ::
        if && mails[m].credential.Some? && mails[m].credential.value in credentials
           && mails[m].status in {Pending, Sending, Cancelled} && mails[m].smtpStartedAt.None?
        then mails[m].(status := Cancelled, claim := None, envelope := false) else mails[m];
    }
  }

  /** The order by creation time and identifier has one maximum. */
  lemma OneLatest(mails: map<Id, Mail>, t: Id, m: Id)
    requires IsLatest(mails, t, m)
    ensures forall k :: IsLatest(mails, t, k) ==> k == m
  {
  }
}
