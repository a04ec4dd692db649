/** The outbox theorems: sends are bounded and ordered, finished rows stay finished, todos
    and restricted recovery silence their mails, and the one way a deleted todo does not. */
module OutboxTheorems {
  import opened Base
  import opened Outbox
  import opened OutboxProofs

  // ----- Sends of one row -----

  lemma {:induction false} AttemptsOutgrowIndex(limit: nat, s: seq<Send>, startable: bool, used: nat, i: nat)
    requires HistoryShape(limit, s, startable, used) && i < |s|
    ensures s[i].attempt >= i + 1
  {
    if i == 0 {
    } else {
      AttemptsOutgrowIndex(limit, s, startable, used, i - 1);
    }
  }

  lemma InvBoundsSends(w: World, m: Id)
    requires Inv(w) && m in w.mails && 1 <= w.limit
    ensures |w.sends[m]| <= w.limit
  {
    assert RowOk(w, m);
    var s, r := w.sends[m], w.mails[m];
    if |s| >= 2 { AttemptsOutgrowIndex(w.limit, s, Unstarted(r), UsedAttempts(r), |s| - 2); }
  }

  lemma {:induction false} LimitIsConstant(w: World, run: seq<Action>)
    requires Legal(w, run)
    ensures After(w, run).limit == w.limit
    decreases |run|
  {
    if run == [] {
    } else {
      LimitIsConstant(Apply(w, run[0]), run[1..]);
    }
  }

  /** In every interleaving each mail is sent at most `mail_max_attempts` times. */
  lemma SendsBounded(w: World, run: seq<Action>, m: Id)
    requires Initial(w) && 1 <= w.limit && Legal(w, run)
    ensures |History(After(w, run), m)| <= w.limit
  {
    RunKeepsInv(w, run);
    LimitIsConstant(w, run);
    if m in After(w, run).mails { InvBoundsSends(After(w, run), m); }
  }

  /** Every conversation but the latest of a row ended in an explicit failure: nothing is sent
      again after the server accepted it or after an unknown result. */
  lemma ResendOnlyAfterFailure(w: World, run: seq<Action>, m: Id, i: nat, j: nat)
    requires Initial(w) && Legal(w, run)
    requires i < j < |History(After(w, run), m)|
    ensures History(After(w, run), m)[i].outcome == Some(ExplicitFailure)
    ensures History(After(w, run), m)[i].attempt < w.limit
  {
    RunKeepsInv(w, run);
    LimitIsConstant(w, run);
    assert RowOk(After(w, run), m);
  }

  /** One claim sends at most once, over all rows. */
  lemma ClaimSendsOnce(w: World, run: seq<Action>, m: Id, i: nat, m': Id, j: nat)
    requires Initial(w) && Legal(w, run)
    requires i < |History(After(w, run), m)| && j < |History(After(w, run), m')|
    requires History(After(w, run), m)[i].claim == History(After(w, run), m')[j].claim
    ensures m == m' && i == j
  {
    RunKeepsInv(w, run);
    var v := After(w, run);
    assert RowOk(v, m) && RowOk(v, m');
    assert v.workers[v.sends[m][i].claim].mail == m;
    assert v.workers[v.sends[m'][j].claim].mail == m';
  }

  /** A history only ever grows by one entry, and only when `_start_smtp` updated the row. */
  lemma OnlyStartSends(w: World, a: Action, m: Id)
    requires Inv(w) && Enabled(w, a)
    ensures |History(Apply(w, a), m)| == |History(w, m)|
            || (&& a.Start? && MayStart(w, a.c) && w.workers[a.c].mail == m
                && |History(Apply(w, a), m)| == |History(w, m)| + 1)
  {
    if IsBulk(a) { BulkRowAt(w, a, m); } else { SmallStepHistory(w, a, m); }
  }

  lemma SmallStepHistory(w: World, a: Action, m: Id)
    requires Inv(w) && Enabled(w, a) && !IsBulk(a)
    ensures |History(Apply(w, a), m)|
            == |History(w, m)| + if a.Start? && MayStart(w, a.c) && w.workers[a.c].mail == m then 1 else 0
  {
    if a.Start? {
      StartHistory(w, a.c, a.now, m);
    } else if a.Return? {
      assert WorkerOk(w, a.c);
    }
  }

  lemma StartHistory(w: World, c: Id, now: int, m: Id)
    requires c in w.workers
    ensures |History(AfterStart(w, c, now), m)|
            == |History(w, m)| + if MayStart(w, c) && w.workers[c].mail == m then 1 else 0
  {
  }

  // ----- Rows that are finished -----

  /** The row is in a conversation that may still end in a retryable failure. */
  ghost predicate CanRestart(w: World, m: Id) {
    && m in w.mails && w.mails[m].status.Sending? && w.mails[m].claim.Some? && w.mails[m].claim.value in w.workers
    && var k := w.workers[w.mails[m].claim.value];
       (k.phase.InSmtp? || k.phase == Returned(ExplicitFailure)) && k.attempt < w.limit
  }

  ghost predicate Spent(w: World, m: Id) {
    m in w.mails && !Unstarted(w.mails[m]) && !CanRestart(w, m)
  }

  lemma BulkKeepsSpent(w: World, a: Action, m: Id)
    requires Inv(w) && Enabled(w, a) && IsBulk(a) && Spent(w, m)
    ensures Spent(Apply(w, a), m)
  {
    BulkRowAt(w, a, m);
    SpentSettled(w, Apply(w, a), a, m);
  }

  lemma SpentSettled(w: World, v: World, a: Action, m: Id)
    requires IsBulk(a) && Inv(w) && Spent(w, m) && (a.RecoverStale? && m in a.ms ==> w.mails[m].status.Sending?)
    requires m in v.mails && v.mails[m] == BulkRow(a, m, w.mails[m]) && v.limit == w.limit && v.workers == w.workers
    ensures Spent(v, m)
  {
    assert RowOk(w, m);
    SpentRowSettles(a, m, w.mails[m]);
  }

  /** A bulk action never makes a row startable, and leaves a started row to its worker or ends it. */
  lemma SpentRowSettles(a: Action, m: Id, r: Mail)
    requires IsBulk(a) && !Unstarted(r) && ColumnsOk(r)
    requires a.RecoverStale? && m in a.ms ==> r.status.Sending?
    ensures !Unstarted(BulkRow(a, m, r))
    ensures BulkRow(a, m, r).status.Sending? ==> r.status.Sending? && BulkRow(a, m, r).claim == r.claim
  {
  }

  /** No worker that merely holds a claim owns a spent row. */
  lemma HolderOwnsNoSpentRow(w: World, c: Id, m: Id)
    requires Inv(w) && Spent(w, m) && c in w.workers && w.workers[c].phase.HasClaim?
    ensures !Owns(w.mails, m, c)
  {
    assert RowOk(w, m);
  }

  /** Ending the conversation of a spent row cannot put the row back. */
  lemma RecordKeepsSpent(w: World, c: Id, now: int, m: Id)
    requires Inv(w) && Spent(w, m) && c in w.workers && w.workers[c].phase.Returned?
    ensures Spent(AfterRecord(w, c, now), m)
  {
    var k := w.workers[c];
    assert RowOk(w, m) && WorkerOk(w, c);
    if k.mail == m && Owns(w.mails, m, c) {
      RecordedColumns(w.mails[m], k.phase.outcome, k.attempt, w.limit, now);
    }
  }

  /** The row and the worker that may restart it are as before. */
  lemma SpentFrame(w: World, v: World, m: Id)
    requires Spent(w, m) && m in v.mails && v.mails[m] == w.mails[m] && v.limit == w.limit
    requires var c := w.mails[m].claim;
             w.mails[m].status.Sending? && c.Some? && c.value in v.workers ==>
               c.value in w.workers && v.workers[c.value] == w.workers[c.value]
    ensures Spent(v, m)
  {
  }

  /** No worker that merely holds a claim changes a spent row. */
  lemma HolderKeepsSpent(w: World, a: Action, m: Id)
    requires Inv(w) && Enabled(w, a) && Spent(w, m) && (a.GiveUp? || a.Start?)
    ensures Spent(Apply(w, a), m)
  {
    HolderOwnsNoSpentRow(w, a.c, m);
    if a.GiveUp? { GiveUpKeepsSpent(w, a.c, a.business, m); } else { StartKeepsSpent(w, a.c, a.now, m); }
  }

  lemma GiveUpKeepsSpent(w: World, c: Id, business: bool, m: Id)
    requires Spent(w, m) && c in w.workers && !Owns(w.mails, m, c)
    ensures Spent(AfterGiveUp(w, c, business), m)
  {
    SpentFrame(w, AfterGiveUp(w, c, business), m);
  }

  lemma StartKeepsSpent(w: World, c: Id, now: int, m: Id)
    requires Spent(w, m) && c in w.workers && !Owns(w.mails, m, c)
    ensures Spent(AfterStart(w, c, now), m)
  {
    SpentFrame(w, AfterStart(w, c, now), m);
  }

  lemma OtherStepKeepsSpent(w: World, a: Action, m: Id)
    requires Inv(w) && Enabled(w, a) && Spent(w, m)
    requires !IsBulk(a) && !a.GiveUp? && !a.Start? && !a.Record?
    ensures Spent(Apply(w, a), m)
  {
    assert RowOk(w, m);
  }

  lemma StepKeepsSpent(w: World, a: Action, m: Id)
    requires Inv(w) && Enabled(w, a) && Spent(w, m)
    ensures Spent(Apply(w, a), m) && |History(Apply(w, a), m)| == |History(w, m)|
  {
    OnlyStartSends(w, a, m);
    if IsBulk(a) {
      BulkKeepsSpent(w, a, m);
    } else if a.GiveUp? || a.Start? {
      HolderKeepsSpent(w, a, m);
    } else if a.Record? {
      RecordKeepsSpent(w, a.c, a.now, m);
    } else {
      OtherStepKeepsSpent(w, a, m);
    }
  }

  /** A spent row is never sent again. */
  lemma {:induction false} SpentForever(w: World, run: seq<Action>, m: Id)
    requires Inv(w) && Legal(w, run) && Spent(w, m)
    ensures Spent(After(w, run), m) && |History(After(w, run), m)| == |History(w, m)|
    decreases |run|
  {
    if run == [] {
    } else {
      StepKeepsSpent(w, run[0], m);
      StepKeepsInv(w, run[0]);
      SpentForever(Apply(w, run[0]), run[1..], m);
    }
  }

  // ----- Rows that are not finished can still be sent -----

  ghost predicate CanSendMore(w: World, m: Id, n: nat) {
    exists run: seq<Action> :: Legal(w, run) && |History(After(w, run), m)| > n
  }

  lemma Prepend(w: World, a: Action, m: Id, n: nat)
    requires Enabled(w, a) && CanSendMore(Apply(w, a), m, n)
    ensures CanSendMore(w, m, n)
  {
    var rest: seq<Action> :| Legal(Apply(w, a), rest) && |History(After(Apply(w, a), rest), m)| > n;
    var run := [a] + rest;
    assert run[0] == a && run[1..] == rest;
    assert Legal(w, run) && After(w, run) == After(Apply(w, a), rest);
  }

  /** Neither its todo nor its credential keeps the row from being sent. */
  ghost predicate Allowed(w: World, m: Id) {
    && m in w.mails && TodoAllows(w.todos, w.mails[m])
    && (w.mails[m].credential.None? || w.mails[m].credential.value in w.usable)
  }

  lemma ClaimedCanBeSent(w: World, m: Id)
    requires Inv(w) && Allowed(w, m) && w.mails[m].status.Sending? && w.mails[m].smtpStartedAt.None?
    requires w.workers[w.mails[m].claim.value].phase.HasClaim?
    ensures CanSendMore(w, m, |History(w, m)|)
    decreases if w.stage.Recovering? then 2 else if w.stage.ApiOpen? then 1 else 0
  {
    if w.stage.StageOpen? {
      StartedOnceMore(w, m);
    } else {
      var a := if w.stage.Recovering? then VerifyAndOpenApi else OpenDispatcher;
      StepKeepsInv(w, a);
      ClaimedCanBeSent(Apply(w, a), m);
      Prepend(w, a, m, |History(w, m)|);
    }
  }

  lemma StartedOnceMore(w: World, m: Id)
    requires Inv(w) && Allowed(w, m) && w.mails[m].status.Sending? && w.mails[m].smtpStartedAt.None?
    requires w.workers[w.mails[m].claim.value].phase.HasClaim? && w.stage.StageOpen?
    ensures CanSendMore(w, m, |History(w, m)|)
  {
    assert RowOk(w, m);
    var a := Start(w.mails[m].claim.value, 0);
    StartHistory(w, a.c, 0, m);
    assert Legal(Apply(w, a), []) && After(Apply(w, a), []) == Apply(w, a);
    assert CanSendMore(Apply(w, a), m, |History(w, m)|);
    Prepend(w, a, m, |History(w, m)|);
  }

  lemma PendingCanBeSent(w: World, m: Id)
    requires Inv(w) && Allowed(w, m) && w.mails[m].status.Pending?
    ensures CanSendMore(w, m, |History(w, m)|)
  {
    var c := FreshId(w.workers.Keys);
    var a := Claim(m, c, w.mails[m].nextAttemptAt);
    StepKeepsInv(w, a);
    ClaimedCanBeSent(Apply(w, a), m);
    Prepend(w, a, m, |History(w, m)|);
  }

  lemma UnstartedCanBeSent(w: World, m: Id)
    requires Inv(w) && Allowed(w, m) && Unstarted(w.mails[m])
    ensures CanSendMore(w, m, |History(w, m)|)
  {
    assert RowOk(w, m);
    if w.mails[m].status.Pending? {
      PendingCanBeSent(w, m);
    } else if w.workers[w.mails[m].claim.value].phase.HasClaim? {
      ClaimedCanBeSent(w, m);
    } else {
      var a := RecoverStale({m});
      StepKeepsInv(w, a);
      PendingCanBeSent(Apply(w, a), m);
      Prepend(w, a, m, |History(w, m)|);
    }
  }

  lemma FailureRequeues(w: World, m: Id)
    requires Inv(w) && Allowed(w, m) && CanRestart(w, m)
    requires w.workers[w.mails[m].claim.value].phase.Returned?
    ensures var v := AfterRecord(w, w.mails[m].claim.value, 0);
            Allowed(v, m) && v.mails[m].status.Pending? && History(v, m) == History(w, m)
  {
    assert RowOk(w, m);
  }

  lemma FailureCanBeSent(w: World, m: Id)
    requires Inv(w) && Allowed(w, m) && CanRestart(w, m)
    requires w.workers[w.mails[m].claim.value].phase.Returned?
    ensures CanSendMore(w, m, |History(w, m)|)
  {
    var c := w.mails[m].claim.value;
    FailureRequeues(w, m);
    RecordKeepsInv(w, c, 0);
    PendingCanBeSent(AfterRecord(w, c, 0), m);
    assert Apply(w, Record(c, 0)) == AfterRecord(w, c, 0);
    Prepend(w, Record(c, 0), m, |History(w, m)|);
  }

  lemma RestartableCanBeSent(w: World, m: Id)
    requires Inv(w) && Allowed(w, m) && CanRestart(w, m)
    ensures CanSendMore(w, m, |History(w, m)|)
  {
    var c := w.mails[m].claim.value;
    if w.workers[c].phase.Returned? {
      FailureCanBeSent(w, m);
    } else {
      assert RowOk(w, m);
      ReturnKeepsInv(w, c, ExplicitFailure);
      var v := AfterReturn(w, c, ExplicitFailure);
      FailureCanBeSent(v, m);
      assert Apply(w, Return(c, ExplicitFailure)) == v;
      Prepend(w, Return(c, ExplicitFailure), m, |History(w, m)|);
    }
  }

  // ----- Todos -----

  /** A todo that left `Open` stays as it is until it is deleted. */
  lemma StepKeepsClosed(w: World, a: Action, t: Id)
    requires Enabled(w, a) && t in w.todos && !w.todos[t].status.Open?
    ensures t in Apply(w, a).todos ==> Apply(w, a).todos[t].status == w.todos[t].status
    ensures !(a.DeleteTodos? && t in a.ts) ==> t in Apply(w, a).todos
  {
  }

  ghost predicate Deletes(run: seq<Action>, t: Id) {
    exists i :: 0 <= i < |run| && run[i].DeleteTodos? && t in run[i].ts
  }

  lemma StepKeepsTodoColumn(w: World, a: Action, m: Id)
    requires Enabled(w, a) && m in w.mails
    ensures m in Apply(w, a).mails
    ensures Apply(w, a).mails[m].todo == w.mails[m].todo
            || (a.DeleteTodos? && w.mails[m].todo.Some? && w.mails[m].todo.value in a.ts)
    ensures Apply(w, a).mails[m].credential == w.mails[m].credential
  {
    if IsBulk(a) { BulkRowAt(w, a, m); }
  }

  /** Once a todo left `Open`, no mail attached to it starts SMTP, as long as it is not deleted. */
  lemma {:induction false} ClosedTodoIsSilent(w: World, run: seq<Action>, t: Id, m: Id)
    requires Inv(w) && Legal(w, run) && !Deletes(run, t)
    requires t in w.todos && !w.todos[t].status.Open?
    requires m in w.mails && w.mails[m].todo == Some(t)
    ensures var v := After(w, run);
            && t in v.todos && v.todos[t].status == w.todos[t].status
            && m in v.mails && v.mails[m].todo == Some(t)
            && |History(v, m)| == |History(w, m)|
    decreases |run|
  {
    if run == [] {
    } else {
      StepKeepsInv(w, run[0]);
      StepKeepsClosed(w, run[0], t);
      StepKeepsTodoColumn(w, run[0], m);
      OnlyStartSends(w, run[0], m);
      assert !Deletes(run[1..], t);
      ClosedTodoIsSilent(Apply(w, run[0]), run[1..], t, m);
    }
  }

  lemma DeletedRow(w: World, t: Id, m: Id)
    requires Inv(w) && m in w.mails && w.mails[m].todo == Some(t)
    ensures var v := AfterDelete(w, {t});
            && m in v.mails && v.mails[m].todo.None? && v.mails[m].credential == w.mails[m].credential
            && (CanRestart(v, m) <==> CanRestart(w, m)) && (Spent(v, m) <==> !CanRestart(w, m))
  {
    assert RowOk(w, m);
    DetachedColumns(w.mails[m], t);
    assert AfterDelete(w, {t}).mails[m] == Detached(StoppedFor(w.mails[m], {t}), {t});
  }

  lemma DetachedColumns(r: Mail, t: Id)
    requires r.todo == Some(t)
    ensures var r' := Detached(StoppedFor(r, {t}), {t});
            && r'.todo.None? && r'.credential == r.credential && !Unstarted(r')
            && (Unstarted(r) ==> r'.status.Cancelled?)
            && (!Unstarted(r) ==> r' == r.(todo := None))
  {
  }

  /** Deleting a todo does not silence its business mail for good: exactly the mails that are in
      a conversation which may still end in a retryable failure can be sent again, because the
      row loses its reference to the todo and with it the check that the todo is open. */
  lemma DeletedTodoSilence(w: World, t: Id, m: Id)
    requires Inv(w) && Enabled(w, DeleteTodos({t}))
    requires m in w.mails && w.mails[m].todo == Some(t) && w.mails[m].credential.None?
    ensures CanSendMore(AfterDelete(w, {t}), m, |History(w, m)|) <==> CanRestart(w, m)
  {
    var v := AfterDelete(w, {t});
    BulkStepKeepsInv(w, DeleteTodos({t}));
    DeletedRow(w, t, m);
    if CanRestart(w, m) {
      RestartableCanBeSent(v, m);
    } else {
      forall run: seq<Action> | Legal(v, run) ensures |History(After(v, run), m)| <= |History(w, m)| {
        SpentForever(v, run, m);
      }
    }
  }

  // ----- Exactly which mails can still be sent -----

  /** The row's todo may be deleted: it is one that ends with the recipient's access to the work. */
  predicate Deletable(w: World, r: Mail) {
    r.todo.Some? && r.todo.value in w.todos && IsMaintenance(w.todos[r.todo.value].source.kind)
  }

  ghost predicate MayBeSent(w: World, m: Id) {
    && m in w.mails && (w.mails[m].credential.None? || w.mails[m].credential.value in w.usable)
    && ((Unstarted(w.mails[m]) && TodoAllows(w.todos, w.mails[m]))
        || (CanRestart(w, m) && (TodoAllows(w.todos, w.mails[m]) || Deletable(w, w.mails[m]))))
  }

  /** Its credential is lost, or its todo is closed and cannot be deleted before the row ends. */
  ghost predicate Barred(w: World, m: Id) {
    m in w.mails && (LostCredential(w, m) || ClosedForGood(w, m))
  }

  ghost predicate LostCredential(w: World, m: Id)
    requires m in w.mails
  {
    w.mails[m].credential.Some? && w.mails[m].credential.value !in w.usable
  }

  ghost predicate ClosedForGood(w: World, m: Id)
    requires m in w.mails
  {
    var r := w.mails[m];
    && r.todo.Some? && r.todo.value in w.todos && !w.todos[r.todo.value].status.Open?
    && (Unstarted(r) || !IsMaintenance(w.todos[r.todo.value].source.kind))
  }

  /** A step makes a credential usable only together with its first mail. */
  lemma UsableIsNew(w: World, a: Action, credential: Id)
    requires Enabled(w, a) && credential in Apply(w, a).usable && credential !in w.usable
    ensures forall k :: k in w.mails ==> w.mails[k].credential != Some(credential)
  {
  }

  lemma StepKeepsLoss(w: World, a: Action, m: Id)
    requires Inv(w) && Enabled(w, a) && m in w.mails && LostCredential(w, m)
    ensures m in Apply(w, a).mails && LostCredential(Apply(w, a), m)
  {
    StepKeepsTodoColumn(w, a, m);
    if w.mails[m].credential.value in Apply(w, a).usable { UsableIsNew(w, a, w.mails[m].credential.value); }
  }

  lemma StepKeepsKind(w: World, a: Action, t: Id)
    requires Enabled(w, a) && t in w.todos && t in Apply(w, a).todos
    ensures Apply(w, a).todos[t].source.kind == w.todos[t].source.kind
  {
  }

  lemma BulkLeavesUnstarted(a: Action, m: Id, r: Mail)
    requires IsBulk(a) && Unstarted(r)
    ensures Unstarted(BulkRow(a, m, r)) || !BulkRow(a, m, r).status.Sending?
    ensures a.DeleteTodos? && r.todo.Some? && r.todo.value in a.ts ==> !Unstarted(BulkRow(a, m, r))
  {
  }

  /** An unstarted row that does not start is left alone by workers, or given up. */
  lemma WorkerLeavesUnstarted(w: World, a: Action, m: Id)
    requires Enabled(w, a) && m in w.mails && Unstarted(w.mails[m])
    requires a.Start? || a.Return? || (a.Record? && WorkerOk(w, a.c))
    requires !(a.Start? && MayStart(w, a.c) && w.workers[a.c].mail == m)
    ensures m in Apply(w, a).mails && Apply(w, a).mails[m] == w.mails[m]
  {
    if a.Start? {
      StartRow(w, a.c, a.now, m);
    } else if a.Record? {
      RecordRow(w, a.c, a.now, m);
    }
  }

  lemma StartRow(w: World, c: Id, now: int, m: Id)
    requires c in w.workers && m in w.mails && !(MayStart(w, c) && w.workers[c].mail == m)
    ensures m in AfterStart(w, c, now).mails && AfterStart(w, c, now).mails[m] == w.mails[m]
  {
  }

  lemma RecordRow(w: World, c: Id, now: int, m: Id)
    requires c in w.workers && w.workers[c].phase.Returned? && m in w.mails && w.workers[c].mail != m
    ensures m in AfterRecord(w, c, now).mails && AfterRecord(w, c, now).mails[m] == w.mails[m]
  {
  }

  lemma GiveUpLeavesUnstarted(w: World, c: Id, business: bool, m: Id)
    requires c in w.workers && m in w.mails
    ensures m in AfterGiveUp(w, c, business).mails
    ensures var r := AfterGiveUp(w, c, business).mails[m]; r == w.mails[m] || r.status.Cancelled?
  {
  }

  lemma BulkStepLeavesUnstarted(w: World, a: Action, m: Id)
    requires Enabled(w, a) && IsBulk(a) && m in w.mails && Unstarted(w.mails[m])
    ensures m in Apply(w, a).mails && (Unstarted(Apply(w, a).mails[m]) || Spent(Apply(w, a), m))
    ensures a.DeleteTodos? && w.mails[m].todo.Some? && w.mails[m].todo.value in a.ts ==> Spent(Apply(w, a), m)
  {
    BulkRowAt(w, a, m);
    BulkLeavesUnstarted(a, m, w.mails[m]);
  }

  lemma StepLeavesUnstarted(w: World, a: Action, m: Id)
    requires Inv(w) && Enabled(w, a) && m in w.mails && Unstarted(w.mails[m])
    requires !(a.Start? && MayStart(w, a.c) && w.workers[a.c].mail == m)
    ensures m in Apply(w, a).mails && (Unstarted(Apply(w, a).mails[m]) || Spent(Apply(w, a), m))
    ensures a.DeleteTodos? && w.mails[m].todo.Some? && w.mails[m].todo.value in a.ts ==> Spent(Apply(w, a), m)
  {
    if IsBulk(a) {
      BulkStepLeavesUnstarted(w, a, m);
    } else if a.GiveUp? {
      GiveUpLeavesUnstarted(w, a.c, a.business, m);
    } else if a.Start? || a.Return? || a.Record? {
      WorkerLeavesUnstarted(w, a, m);
    }
  }

  lemma StepKeepsClosure(w: World, a: Action, m: Id)
    requires Inv(w) && Enabled(w, a) && m in w.mails && ClosedForGood(w, m)
    ensures var v := Apply(w, a); m in v.mails && (ClosedForGood(v, m) || Spent(v, m))
  {
    var v, t := Apply(w, a), w.mails[m].todo.value;
    StepKeepsTodoColumn(w, a, m);
    StepKeepsClosed(w, a, t);
    if t in v.todos { StepKeepsKind(w, a, t); }
    if Unstarted(w.mails[m]) { StepLeavesUnstarted(w, a, m); }
  }

  lemma StepKeepsSilence(w: World, a: Action, m: Id)
    requires Inv(w) && Enabled(w, a) && (Spent(w, m) || Barred(w, m))
    ensures Spent(Apply(w, a), m) || Barred(Apply(w, a), m)
    ensures |History(Apply(w, a), m)| == |History(w, m)|
  {
    if Spent(w, m) {
      StepKeepsSpent(w, a, m);
    } else {
      OnlyStartSends(w, a, m);
      if LostCredential(w, m) { StepKeepsLoss(w, a, m); } else { StepKeepsClosure(w, a, m); }
    }
  }

  lemma {:induction false} SilentForever(w: World, run: seq<Action>, m: Id)
    requires Inv(w) && Legal(w, run) && (Spent(w, m) || Barred(w, m))
    ensures |History(After(w, run), m)| == |History(w, m)|
    decreases |run|
  {
    if run == [] {
    } else {
      StepKeepsSilence(w, run[0], m);
      StepKeepsInv(w, run[0]);
      SilentForever(Apply(w, run[0]), run[1..], m);
    }
  }

  lemma DeletionLetsItBeSent(w: World, m: Id)
    requires Inv(w) && MayBeSent(w, m) && CanRestart(w, m) && Deletable(w, w.mails[m])
    ensures CanSendMore(w, m, |History(w, m)|)
  {
    var t := w.mails[m].todo.value;
    BulkStepKeepsInv(w, DeleteTodos({t}));
    DeletedRow(w, t, m);
    RestartableCanBeSent(AfterDelete(w, {t}), m);
    assert Apply(w, DeleteTodos({t})) == AfterDelete(w, {t});
    Prepend(w, DeleteTodos({t}), m, |History(w, m)|);
  }

  /** A mail can be sent once more in some run if and only if its credential, if any, may still be
      mailed, and it is unstarted with an open todo or none, or in a conversation that may still end
      in a retryable failure while its todo is open, absent, or one that may be deleted. */
  lemma CanBeSentIff(w: World, m: Id)
    requires Inv(w) && m in w.mails && (w.mails[m].todo.Some? ==> w.mails[m].todo.value in w.todos)
    ensures CanSendMore(w, m, |History(w, m)|) <==> MayBeSent(w, m)
  {
    if MayBeSent(w, m) {
      if Unstarted(w.mails[m]) { UnstartedCanBeSent(w, m); }
      else if TodoAllows(w.todos, w.mails[m]) { RestartableCanBeSent(w, m); }
      else { DeletionLetsItBeSent(w, m); }
    } else {
      assert Spent(w, m) || Barred(w, m);
      forall run: seq<Action> | Legal(w, run) ensures |History(After(w, run), m)| <= |History(w, m)| {
        SilentForever(w, run, m);
      }
    }
  }

  // ----- A reachable case of a mail that outlives its todo -----

  function EmptyWorld(limit: nat): World {
    World(limit, map[], map[], StageOpen, {}, map[], map[])
  }

  const LEAK_TODO := Todo(Source(1, IssueOpened, OpenedKey(9, 1)), Some(7), Target("issue", 9), Open, false)

  function LeakRun(): seq<Action> {
    [CreateTodo(0, 0, LEAK_TODO, None, "issue:9", 0), Claim(0, 0, 0), Start(0, 0)]
  }

  lemma LeakReaches()
    ensures Legal(EmptyWorld(3), LeakRun())
    ensures var w := After(EmptyWorld(3), LeakRun());
            && w.todos == map[0 := LEAK_TODO] && w.mails.Keys == {0} && w.mails[0].todo == Some(0)
            && w.mails[0].credential.None? && CanRestart(w, 0) && |History(w, 0)| == 1
  {
    var w, run := EmptyWorld(3), LeakRun();
    assert TodosOfSource(w.todos, LEAK_TODO.source) == {};
    RunOfThree(w, run[0], run[1], run[2]);
  }

  /** From the empty outbox: the mail of an opened issue is in its first conversation when the
      recipient loses access and the todo is deleted; the mail can still be sent a second time. */
  lemma DeletedTodoMailIsSentAgain()
    ensures Legal(EmptyWorld(3), LeakRun())
    ensures var w := After(EmptyWorld(3), LeakRun());
            && Enabled(w, DeleteTodos({0})) && |History(w, 0)| == 1
            && AfterDelete(w, {0}).todos == map[]
            && CanSendMore(AfterDelete(w, {0}), 0, 1)
  {
    LeakReaches();
    RunKeepsInv(EmptyWorld(3), LeakRun());
    DeletedTodoSilence(After(EmptyWorld(3), LeakRun()), 0, 0);
  }

  /** A run of one more action, at the front. */
  lemma RunOfMore(w: World, a: Action, rest: seq<Action>)
    requires Enabled(w, a) && Legal(Apply(w, a), rest)
    ensures Legal(w, [a] + rest) && After(w, [a] + rest) == After(Apply(w, a), rest)
  {
    assert ([a] + rest)[1..] == rest;
  }

  lemma RunOfThree(w: World, a: Action, b: Action, c: Action)
    requires Enabled(w, a) && Enabled(Apply(w, a), b) && Enabled(Apply(Apply(w, a), b), c)
    ensures Legal(w, [a, b, c]) && After(w, [a, b, c]) == Apply(Apply(Apply(w, a), b), c)
  {
    var w1 := Apply(w, a);
    var w2 := Apply(w1, b);
    RunOfMore(w2, c, []);
    RunOfMore(w1, b, [c]);
    RunOfMore(w, a, [b, c]);
    assert [a] + [b, c] == [a, b, c] && [b] + [c] == [b, c] && [c] + [] == [c];
  }
}
