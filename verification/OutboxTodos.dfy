/** Further outbox theorems: finished statuses, the mails one todo can own, restricted
    recovery, and the token envelopes. */
module OutboxTodos {
  import opened Base
  import opened Outbox
  import opened OutboxProofs
  import opened OutboxTheorems

  // ----- Finished statuses -----

  predicate Final(s: MailStatus) { s.Accepted? || s.Failed? || s.Cancelled? || s.Suppressed? }

  lemma BulkRowKeepsFinal(a: Action, m: Id, r: Mail)
    requires IsBulk(a)
    requires a.RecoverStale? && m in a.ms ==> r.status.Sending?
    ensures Final(r.status) ==> BulkRow(a, m, r).status == r.status
    ensures r.status.Unknown? ==> BulkRow(a, m, r).status in {Unknown, Suppressed}
  {
  }

  lemma BulkStepKeepsFinal(w: World, a: Action, m: Id)
    requires Enabled(w, a) && IsBulk(a) && m in w.mails
    ensures m in Apply(w, a).mails
    ensures Final(w.mails[m].status) ==> Apply(w, a).mails[m].status == w.mails[m].status
    ensures w.mails[m].status.Unknown? ==> Apply(w, a).mails[m].status in {Unknown, Suppressed}
  {
    BulkRowAt(w, a, m);
    BulkRowKeepsFinal(a, m, w.mails[m]);
  }

  /** A worker changes the status only of a row that it owns, which is sending. */
  lemma WorkerStepKeepsFinal(w: World, a: Action, m: Id)
    requires Enabled(w, a) && m in w.mails && (a.GiveUp? || a.Start? || a.Return? || a.Record?)
    ensures m in Apply(w, a).mails
    ensures !w.mails[m].status.Sending? ==> Apply(w, a).mails[m].status == w.mails[m].status
  {
  }

  lemma StepKeepsFinal(w: World, a: Action, m: Id)
    requires Enabled(w, a) && m in w.mails
    ensures m in Apply(w, a).mails
    ensures Final(w.mails[m].status) ==> Apply(w, a).mails[m].status == w.mails[m].status
    ensures w.mails[m].status.Unknown? ==> Apply(w, a).mails[m].status in {Unknown, Suppressed}
  {
    if IsBulk(a) {
      BulkStepKeepsFinal(w, a, m);
    } else if a.GiveUp? || a.Start? || a.Return? || a.Record? {
      WorkerStepKeepsFinal(w, a, m);
    } else {
      OtherStepKeepsFinal(w, a, m);
    }
  }

  lemma OtherStepKeepsFinal(w: World, a: Action, m: Id)
    requires Enabled(w, a) && m in w.mails && (a.EnqueueToken? || a.CreateTodo? || a.RetryFailed? || a.Claim?)
    ensures m in Apply(w, a).mails
    ensures !w.mails[m].status.Pending? ==> Apply(w, a).mails[m] == w.mails[m]
  {
  }

  /** Accepted, failed, cancelled and suppressed rows keep their status; an unknown result can
      only be suppressed by restricted recovery. */
  lemma {:induction false} FinalForever(w: World, run: seq<Action>, m: Id)
    requires Inv(w) && Legal(w, run) && m in w.mails
    ensures m in After(w, run).mails
    ensures Final(w.mails[m].status) ==> After(w, run).mails[m].status == w.mails[m].status
    ensures w.mails[m].status.Unknown? ==> After(w, run).mails[m].status in {Unknown, Suppressed}
    decreases |run|
  {
    if run == [] {
    } else {
      StepKeepsFinal(w, run[0], m);
      StepKeepsInv(w, run[0]);
      FinalForever(Apply(w, run[0]), run[1..], m);
    }
  }

  // ----- The mails of one business todo -----

  function MailsOf(w: World, t: Id): set<Id> {
    set m | m in w.mails && w.mails[m].todo == Some(t)
  }

  predicate Live(r: Mail) { r.status.Pending? || r.status.Sending? }

  ghost predicate TodoMailsOk(w: World, t: Id)
    requires t in w.todos
  {
    IsBusiness(w.todos[t].source.kind) ==>
      && |MailsOf(w, t)| <= (if w.todos[t].retryUsed then 2 else 1)
      && (forall m :: m in MailsOf(w, t) ==> w.mails[m].credential.None?)
      && (forall a, b :: a in MailsOf(w, t) && b in MailsOf(w, t) && a != b
            ==> w.mails[a].status.Failed? || w.mails[b].status.Failed?)
  }

  ghost predicate Owned(w: World) {
    && (forall m :: m in w.mails && w.mails[m].todo.Some? ==> w.mails[m].todo.value in w.todos)
    && (forall t :: t in w.todos ==> TodoMailsOk(w, t))
  }

  /** The step does not touch which mails belong to `t`. */
  lemma SameMailsKeepTodo(w: World, a: Action, t: Id)
    requires Inv(w) && Enabled(w, a) && t in w.todos && TodoMailsOk(w, t)
    requires t in Apply(w, a).todos && MailsOf(Apply(w, a), t) == MailsOf(w, t)
    requires Apply(w, a).todos[t].source == w.todos[t].source
    requires w.todos[t].retryUsed ==> Apply(w, a).todos[t].retryUsed
    ensures TodoMailsOk(Apply(w, a), t)
  {
    forall m | m in MailsOf(w, t)
      ensures Apply(w, a).mails[m].credential == w.mails[m].credential
      ensures w.mails[m].status.Failed? ==> Apply(w, a).mails[m].status.Failed?
    {
      StepKeepsTodoColumn(w, a, m);
      StepKeepsFinal(w, a, m);
    }
  }

  lemma NewTodoOwnsOneMail(w: World, t: Id, m: Id, todo: Todo, token: Option<Id>, scope: string, now: int)
    requires Inv(w) && Owned(w) && Enabled(w, CreateTodo(t, m, todo, token, scope, now))
    ensures TodoMailsOk(Apply(w, CreateTodo(t, m, todo, token, scope, now)), t)
  {
    assert MailsOf(Apply(w, CreateTodo(t, m, todo, token, scope, now)), t) == {m};
  }

  /** A retry is only accepted while the todo owns exactly one mail, and that one has failed. */
  lemma RetryOwnsTwoMails(w: World, t: Id, failed: Id, m: Id, key: string, now: int)
    requires Inv(w) && Owned(w) && Enabled(w, RetryFailed(t, failed, m, key, now))
    ensures TodoMailsOk(Apply(w, RetryFailed(t, failed, m, key, now)), t)
  {
    var v := Apply(w, RetryFailed(t, failed, m, key, now));
    assert TodoMailsOk(w, t);
    if IsBusiness(w.todos[t].source.kind) {
      assert failed in MailsOf(w, t);
      assert |MailsOf(w, t) - {failed}| == 0;
      assert MailsOf(w, t) == {failed};
      assert MailsOf(v, t) == {failed, m};
    }
  }

  lemma StepKeepsTodoRow(w: World, a: Action, t: Id)
    requires Enabled(w, a) && t in w.todos && t in Apply(w, a).todos && !(a.RetryFailed? && a.t == t)
    ensures Apply(w, a).todos[t].source == w.todos[t].source
    ensures Apply(w, a).todos[t].retryUsed == w.todos[t].retryUsed
    ensures !(a.DeleteTodos? && t in a.ts)
  {
  }

  lemma NewRowTodo(w: World, a: Action, m: Id)
    requires Enabled(w, a) && m !in w.mails && m in Apply(w, a).mails
    ensures a.EnqueueToken? || a.CreateTodo? || a.RetryFailed?
    ensures a.EnqueueToken? ==> Apply(w, a).mails[m].todo.None?
    ensures a.CreateTodo? ==> Apply(w, a).mails[m].todo == Some(a.t)
    ensures a.RetryFailed? ==> Apply(w, a).mails[m].todo == Some(a.t)
  {
    if IsBulk(a) { BulkRowAt(w, a, m); }
  }

  lemma StepKeepsMailsOf(w: World, a: Action, t: Id)
    requires Owned(w) && Enabled(w, a) && t in w.todos && t in Apply(w, a).todos
    requires !(a.RetryFailed? && a.t == t)
    ensures MailsOf(Apply(w, a), t) == MailsOf(w, t)
  {
    var v := Apply(w, a);
    StepKeepsTodoRow(w, a, t);
    forall m ensures m in MailsOf(w, t) <==> m in MailsOf(v, t) {
      if m in w.mails { StepKeepsTodoColumn(w, a, m); }
      else if m in v.mails { NewRowTodo(w, a, m); }
    }
  }

  lemma BulkKeepsReferences(w: World, a: Action, m: Id)
    requires Owned(w) && Enabled(w, a) && IsBulk(a) && m in w.mails
    ensures m in Apply(w, a).mails
    ensures Apply(w, a).mails[m].todo.Some? ==> Apply(w, a).mails[m].todo.value in Apply(w, a).todos
  {
    BulkRowAt(w, a, m);
    BulkKeepsTodos(w, a);
  }

  lemma BulkKeepsTodos(w: World, a: Action)
    requires Enabled(w, a) && IsBulk(a)
    ensures Apply(w, a).todos.Keys == w.todos.Keys - if a.DeleteTodos? then a.ts else {}
  {
  }

  lemma SmallStepKeepsReferences(w: World, a: Action, m: Id)
    requires Owned(w) && Enabled(w, a) && !IsBulk(a) && m in w.mails
    ensures m in Apply(w, a).mails
    ensures Apply(w, a).mails[m].todo.Some? ==> Apply(w, a).mails[m].todo.value in Apply(w, a).todos
  {
    StepKeepsTodoColumn(w, a, m);
  }

  lemma StepKeepsReferences(w: World, a: Action, m: Id)
    requires Owned(w) && Enabled(w, a)
    requires m in Apply(w, a).mails && Apply(w, a).mails[m].todo.Some?
    ensures Apply(w, a).mails[m].todo.value in Apply(w, a).todos
  {
    if m !in w.mails { NewRowTodo(w, a, m); }
    else if IsBulk(a) { BulkKeepsReferences(w, a, m); }
    else { SmallStepKeepsReferences(w, a, m); }
  }

  lemma StepKeepsOwned(w: World, a: Action)
    requires Inv(w) && Owned(w) && Enabled(w, a)
    ensures Owned(Apply(w, a))
  {
    var v := Apply(w, a);
    forall m | m in v.mails && v.mails[m].todo.Some? ensures v.mails[m].todo.value in v.todos {
      StepKeepsReferences(w, a, m);
    }
    forall t | t in v.todos ensures TodoMailsOk(v, t) {
      if a.CreateTodo? && a.t == t {
        NewTodoOwnsOneMail(w, a.t, a.m, a.todo, a.token, a.scope, a.now);
      } else if a.RetryFailed? && a.t == t {
        RetryOwnsTwoMails(w, a.t, a.failed, a.m, a.key, a.now);
      } else {
        assert t in w.todos && TodoMailsOk(w, t);
        StepKeepsMailsOf(w, a, t);
        StepKeepsTodoRow(w, a, t);
        SameMailsKeepTodo(w, a, t);
      }
    }
  }

  lemma {:induction false} RunKeepsOwned(w: World, run: seq<Action>)
    requires Inv(w) && Owned(w) && Legal(w, run)
    ensures Owned(After(w, run))
    decreases |run|
  {
    if run == [] {
    } else {
      StepKeepsOwned(w, run[0]);
      StepKeepsInv(w, run[0]);
      RunKeepsOwned(Apply(w, run[0]), run[1..]);
    }
  }

  ghost function TotalSends(w: World, ms: set<Id>): nat {
    if ms == {} then 0 else var m :| m in ms; |History(w, m)| + TotalSends(w, ms - {m})
  }

  lemma {:induction false} TotalSendsBounded(w: World, ms: set<Id>, limit: nat)
    requires forall m :: m in ms ==> |History(w, m)| <= limit
    ensures TotalSends(w, ms) <= |ms| * limit
  {
    if ms == {} {
    } else {
      var m :| m in ms && TotalSends(w, ms) == |History(w, m)| + TotalSends(w, ms - {m});
      TotalSendsBounded(w, ms - {m}, limit);
      assert (|ms| - 1) * limit + limit == |ms| * limit;
    }
  }

  lemma Scales(a: nat, b: nat, k: nat)
    requires a <= b
    ensures a * k <= b * k
  {
  }

  /** A business todo owns at most two mails, at most one of them live, and they are sent at
      most `2 * mail_max_attempts` times in total. */
  lemma BusinessTodoBound(w: World, run: seq<Action>, t: Id)
    requires Initial(w) && 1 <= w.limit && Legal(w, run)
    requires t in After(w, run).todos && IsBusiness(After(w, run).todos[t].source.kind)
    ensures var v := After(w, run);
            && |MailsOf(v, t)| <= 2
            && (forall a, b :: a in MailsOf(v, t) && b in MailsOf(v, t) && Live(v.mails[a]) && Live(v.mails[b])
                  ==> a == b)
            && TotalSends(v, MailsOf(v, t)) <= 2 * w.limit
  {
    RunKeepsOwned(w, run);
    var v := After(w, run);
    assert TodoMailsOk(v, t);
    forall m | m in MailsOf(v, t) ensures |History(v, m)| <= w.limit { SendsBounded(w, run, m); }
    TotalSendsBounded(v, MailsOf(v, t), w.limit);
    Scales(|MailsOf(v, t)|, 2, w.limit);
  }

  // ----- Restricted recovery -----

  /** From the commit that restricts access until the dispatcher is reopened nothing is sent. */
  lemma {:induction false} RecoveryIsQuiet(w: World, run: seq<Action>, m: Id)
    requires Inv(w) && Legal(w, run) && !w.stage.StageOpen?
    requires forall i :: 0 <= i < |run| ==> !run[i].OpenDispatcher?
    ensures !After(w, run).stage.StageOpen?
    ensures |History(After(w, run), m)| == |History(w, m)|
    decreases |run|
  {
    if run == [] {
    } else {
      OnlyStartSends(w, run[0], m);
      StepKeepsInv(w, run[0]);
      RecoveryIsQuiet(Apply(w, run[0]), run[1..], m);
    }
  }

  /** What restricted recovery finds unstarted or unknown is suppressed and never sent, in this
      recovery or after any later reopening. */
  lemma RestrictedRowsNeverSent(w: World, run: seq<Action>, m: Id)
    requires Inv(w) && Enabled(w, BeginRecovery) && Legal(Apply(w, BeginRecovery), run)
    requires m in w.mails && (Unstarted(w.mails[m]) || w.mails[m].status.Unknown?)
    ensures var v := After(Apply(w, BeginRecovery), run);
            && m in v.mails && v.mails[m].status.Suppressed? && !v.mails[m].envelope
            && |History(v, m)| == |History(w, m)|
  {
    var u := Apply(w, BeginRecovery);
    StepKeepsInv(w, BeginRecovery);
    FinalForever(u, run, m);
    assert Spent(u, m);
    SpentForever(u, run, m);
    RunKeepsInv(u, run);
    assert RowOk(After(u, run), m);
  }

  // ----- Token envelopes -----

  /** A mail that may still be sent keeps its envelope; accepted, failed, unknown and suppressed
      mails have none. Cancelled mails may keep theirs. */
  lemma EnvelopeMatchesStatus(w: World, run: seq<Action>, m: Id)
    requires Initial(w) && Legal(w, run) && m in After(w, run).mails
    ensures var r := After(w, run).mails[m];
            && (r.credential.Some? && Live(r) ==> r.envelope)
            && (r.status.Accepted? || r.status.Failed? || r.status.Unknown? || r.status.Suppressed? ==> !r.envelope)
            && (r.envelope ==> r.credential.Some?)
  {
    RunKeepsInv(w, run);
    assert RowOk(After(w, run), m);
  }
}
