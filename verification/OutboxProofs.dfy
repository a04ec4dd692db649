/** What every run of the outbox keeps, and what follows for sends, todos and recovery. */
module OutboxProofs {
  import opened Base
  import opened Outbox

  ghost predicate Initial(w: World) {
    w.mails == map[] && w.todos == map[] && w.workers == map[] && w.sends == map[]
  }

  // ----- Invariant: bulk updates -----

  /** A bulk update either leaves a row alone or takes it away from its worker for good,
      unless it puts an unstarted row back to `Pending`. */
  ghost predicate Settles(r: Mail, r': Mail) {
    && r'.attempts == r.attempts && r'.credential == r.credential && r'.smtpStartedAt == r.smtpStartedAt
    && (r' == r.(todo := r'.todo) ||
        (r'.claim.None? && !r'.status.Sending?
         && (r'.status.Pending? ==> Unstarted(r) && r'.smtpStartedAt.None? && r'.envelope == r.envelope)
         && (r'.envelope ==> r.envelope)
         && (r'.status.Accepted? || r'.status.Failed? || r'.status.Unknown? || r'.status.Suppressed?
             ==> !r'.envelope)))
  }

  lemma BulkKeepsRow(w: World, w': World, m: Id)
    requires m in w.mails && m in w.sends && RowOk(w, m)
    requires m in w'.mails && w'.sends == w.sends && w'.workers == w.workers && w'.limit == w.limit
    requires Settles(w.mails[m], w'.mails[m])
    ensures RowOk(w', m)
  {
    assert UsedAttempts(w.mails[m]) <= UsedAttempts(w'.mails[m]);
    assert Unstarted(w'.mails[m]) ==> Unstarted(w.mails[m]);
  }

  lemma BulkKeepsInv(w: World, w': World)
    requires Inv(w)
    requires w' == w.(mails := w'.mails, todos := w'.todos, stage := w'.stage, usable := w'.usable)
    requires w'.mails.Keys == w.mails.Keys
    requires forall m :: m in w.mails ==> Settles(w.mails[m], w'.mails[m])
    ensures Inv(w')
  {
    forall m | m in w'.mails ensures RowOk(w', m) { BulkKeepsRow(w, w', m); }
    forall c | c in w'.workers ensures WorkerOk(w', c) {
      assert WorkerOk(w, c) && Settles(w.mails[w.workers[c].mail], w'.mails[w.workers[c].mail]);
    }
  }

  predicate IsBulk(a: Action) {
    a.CloseTodos? || a.DeleteTodos? || a.SuppressScope? || a.ClearEnvelopes? || a.LoseCredentials?
    || a.BeginRecovery? || a.VerifyAndOpenApi? || a.OpenDispatcher? || a.RecoverStale?
  }

  /** What a bulk action makes of one row. */
  function BulkRow(a: Action, m: Id, r: Mail): Mail
    requires IsBulk(a)
  {
    match a
    case CloseTodos(ts, _) => StoppedFor(r, ts)
    case DeleteTodos(ts) => Detached(StoppedFor(r, ts), ts)
    case SuppressScope(scope) => SuppressedForScope(r, scope)
    case ClearEnvelopes(cs) => Cleared(r, cs)
    case BeginRecovery => SuppressedForRecovery(r)
    case RecoverStale(ms) => if m in ms then Recovered(r) else r
    case _ => r
  }

  lemma BulkRowSettles(a: Action, m: Id, r: Mail)
    requires IsBulk(a)
    requires (r.claim.Some? <==> r.status.Sending?) && (r.envelope ==> r.credential.Some?)
    requires a.RecoverStale? && m in a.ms ==> r.status.Sending?
    requires r.status.Accepted? || r.status.Failed? || r.status.Unknown? || r.status.Suppressed? ==> !r.envelope
    ensures Settles(r, BulkRow(a, m, r))
  {
  }

  lemma BulkStepRows(w: World, a: Action)
    requires IsBulk(a) && Enabled(w, a)
    ensures Apply(w, a) == w.(mails := Apply(w, a).mails, todos := Apply(w, a).todos,
                              stage := Apply(w, a).stage, usable := Apply(w, a).usable)
    ensures Apply(w, a).mails == map m | m in w.mails :: BulkRow(a, m, w.mails[m])
  {
  }

  lemma BulkRowAt(w: World, a: Action, m: Id)
    requires IsBulk(a) && Enabled(w, a)
    ensures var v := Apply(w, a);
            && v.sends == w.sends && v.workers == w.workers && v.limit == w.limit
            && (m in v.mails <==> m in w.mails) && (m in w.mails ==> v.mails[m] == BulkRow(a, m, w.mails[m]))
  {
    BulkStepRows(w, a);
  }

  lemma BulkStepKeepsInv(w: World, a: Action)
    requires Inv(w) && IsBulk(a) && Enabled(w, a)
    ensures Inv(Apply(w, a))
  {
    BulkStepRows(w, a);
    forall m | m in w.mails ensures Settles(w.mails[m], Apply(w, a).mails[m]) {
      assert RowOk(w, m);
      BulkRowSettles(a, m, w.mails[m]);
    }
    BulkKeepsInv(w, Apply(w, a));
  }

  /** A row, its history and its workers are untouched. */
  lemma FrameRow(w: World, w': World, m: Id)
    requires Inv(w) && m in w.mails && m in w'.mails && m in w'.sends
    requires w'.mails[m] == w.mails[m] && w'.sends[m] == w.sends[m] && w'.limit == w.limit
    requires forall c :: c in w.workers && w.workers[c].mail == m ==> c in w'.workers && w'.workers[c] == w.workers[c]
    ensures RowOk(w', m)
  {
    assert RowOk(w, m);
    forall i | 0 <= i < |w.sends[m]|
      ensures w.sends[m][i].claim in w.workers && w.workers[w.sends[m][i].claim].mail == m
    {
    }
  }

  /** A worker is untouched, and its row has not moved on without it. */
  lemma FrameWorker(w: World, w': World, d: Id)
    requires d in w.workers && WorkerOk(w, d) && d in w'.workers && w'.workers[d] == w.workers[d]
    requires var m := w.workers[d].mail;
             && m in w'.mails && m in w'.sends && w.mails[m].attempts <= w'.mails[m].attempts
             && (InConversation(w.workers[d].phase) && !Unstarted(w.mails[m]) ==>
                   && w'.sends[m] == w.sends[m] && !Unstarted(w'.mails[m])
                   && (w'.mails[m].status.Sending? ==>
                         w'.mails[m].claim == w.mails[m].claim && w.mails[m].status.Sending?))
    ensures WorkerOk(w', d)
  {
  }

  // ----- Invariant: a new row -----

  lemma NewRowKeepsInv(w: World, m: Id, r: Mail, todos: map<Id, Todo>, usable: set<Id>)
    requires Inv(w) && m !in w.mails
    requires r.status.Pending? && r.claim.None? && r.smtpStartedAt.None?
    requires r.envelope <==> r.credential.Some?
    ensures Inv(w.(todos := todos, usable := usable, mails := w.mails[m := r], sends := w.sends[m := []]))
  {
    var w' := w.(todos := todos, usable := usable, mails := w.mails[m := r], sends := w.sends[m := []]);
    forall k | k in w'.mails ensures RowOk(w', k) {
      if k != m { FrameRow(w, w', k); }
    }
    forall c | c in w'.workers ensures WorkerOk(w', c) { assert WorkerOk(w, c); }
  }

  // ----- Invariant: the steps of one worker -----

  lemma ClaimKeepsRow(w: World, m: Id, c: Id, now: int)
    requires Inv(w) && c !in w.workers && m in w.mails && w.mails[m].status.Pending?
    ensures var w' := AfterClaim(w, m, c, now); RowOk(w', m) && WorkerOk(w', c)
  {
    var w' := AfterClaim(w, m, c, now);
    assert RowOk(w, m);
    assert HistoryOwners(w'.workers, w.sends[m], m);
  }

  lemma ClaimKeepsOtherRow(w: World, m: Id, c: Id, now: int, k: Id)
    requires Inv(w) && c !in w.workers && m in w.mails && w.mails[m].status.Pending? && k in w.mails
    ensures RowOk(AfterClaim(w, m, c, now), k)
  {
    if k == m { ClaimKeepsRow(w, m, c, now); } else { FrameRow(w, AfterClaim(w, m, c, now), k); }
  }

  lemma ClaimKeepsWorker(w: World, m: Id, c: Id, now: int, d: Id)
    requires Inv(w) && c !in w.workers && m in w.mails && w.mails[m].status.Pending? && (d in w.workers || d == c)
    ensures WorkerOk(AfterClaim(w, m, c, now), d)
  {
    if d == c { ClaimKeepsRow(w, m, c, now); } else { FrameWorker(w, AfterClaim(w, m, c, now), d); }
  }

  lemma ClaimKeepsInv(w: World, m: Id, c: Id, now: int)
    requires Inv(w) && c !in w.workers && m in w.mails && w.mails[m].status.Pending?
    ensures Inv(AfterClaim(w, m, c, now))
  {
    var w' := AfterClaim(w, m, c, now);
    forall k | k in w'.mails ensures RowOk(w', k) { ClaimKeepsOtherRow(w, m, c, now, k); }
    forall d | d in w'.workers ensures WorkerOk(w', d) { ClaimKeepsWorker(w, m, c, now, d); }
  }

  /** A step of one worker on its own row, with what is left to show besides the frame. */
  ghost predicate LocalStep(w: World, w': World, c: Id)
    requires c in w.workers
  {
    && c in w'.workers && w'.workers[c].mail == w.workers[c].mail && w'.workers[c].attempt == w.workers[c].attempt
    && !w'.workers[c].phase.HasClaim?
    && var m := w.workers[c].mail;
       && m in w'.mails && m in w'.sends
       && w'.mails == w.mails[m := w'.mails[m]] && w'.sends == w.sends[m := w'.sends[m]]
       && w'.workers == w.workers[c := w'.workers[c]] && w'.limit == w.limit
       && RowOk(w', m)
       && forall d :: d in w.workers && w.workers[d].mail == m ==> WorkerOk(w', d)
  }

  lemma LocalStepKeepsRow(w: World, w': World, c: Id, k: Id)
    requires Inv(w) && c in w.workers && LocalStep(w, w', c) && k in w'.mails
    ensures k in w'.sends && RowOk(w', k)
  {
    assert WorkerOk(w, c);
    if k != w.workers[c].mail { FrameRow(w, w', k); }
  }

  lemma LocalStepKeepsWorker(w: World, w': World, c: Id, d: Id)
    requires Inv(w) && c in w.workers && LocalStep(w, w', c) && d in w'.workers
    ensures WorkerOk(w', d)
  {
    if w.workers[d].mail != w.workers[c].mail {
      assert WorkerOk(w, d);
    }
  }

  lemma LocalStepKeepsInv(w: World, w': World, c: Id)
    requires Inv(w) && c in w.workers && LocalStep(w, w', c)
    ensures Inv(w')
  {
    assert WorkerOk(w, c);
    forall k | k in w'.mails ensures k in w'.sends && RowOk(w', k) { LocalStepKeepsRow(w, w', c, k); }
    forall d | d in w'.workers ensures WorkerOk(w', d) { LocalStepKeepsWorker(w, w', c, d); }
  }

  /** While a claim is in its conversation, only the last history entry of its row carries it. */
  lemma OnlyLastHasClaim(w: World, c: Id)
    requires Inv(w) && c in w.workers && InConversation(w.workers[c].phase)
    ensures var m := w.workers[c].mail;
            && m in w.sends && w.sends[m] != []
            && forall i :: 0 <= i < |w.sends[m]| ==> (w.sends[m][i].claim == c <==> i == |w.sends[m]| - 1)
  {
    assert WorkerOk(w, c) && RowOk(w, w.workers[c].mail);
  }

  /** At most one worker of a row is in its conversation. */
  lemma OneConversation(w: World, c: Id, d: Id)
    requires Inv(w) && c in w.workers && d in w.workers && w.workers[c].mail == w.workers[d].mail
    requires InConversation(w.workers[c].phase)
    requires InConversation(w.workers[d].phase)
    ensures c == d
  {
    assert WorkerOk(w, c) && WorkerOk(w, d);
  }

  lemma GiveUpKeepsRow(w: World, c: Id, business: bool)
    requires Inv(w) && c in w.workers && w.workers[c].phase.HasClaim?
    ensures var w' := AfterGiveUp(w, c, business); var m := w.workers[c].mail;
            m in w'.mails && m in w'.sends && RowOk(w', m)
  {
    var w' := AfterGiveUp(w, c, business);
    var m := w.workers[c].mail;
    assert WorkerOk(w, c) && RowOk(w, m);
    assert HistoryOwners(w'.workers, w'.sends[m], m);
    assert UsedAttempts(w.mails[m]) <= UsedAttempts(w'.mails[m]);
  }

  lemma GiveUpKeepsInv(w: World, c: Id, business: bool)
    requires Inv(w) && c in w.workers && w.workers[c].phase.HasClaim?
    ensures Inv(AfterGiveUp(w, c, business))
  {
    var w' := AfterGiveUp(w, c, business);
    var m := w.workers[c].mail;
    assert WorkerOk(w, c);
    GiveUpKeepsRow(w, c, business);
    forall d | d in w.workers && w.workers[d].mail == m ensures WorkerOk(w', d) {
      if d != c { FrameWorker(w, w', d); }
    }
    LocalStepKeepsInv(w, w', c);
  }

  lemma ShapeExtended(limit: nat, s: seq<Send>, used: nat, e: Send)
    requires HistoryShape(limit, s, true, used) && used < e.attempt
    ensures HistoryShape(limit, s + [e], false, e.attempt)
  {
    var s' := s + [e];
    assert forall i :: 0 <= i < |s| ==> s'[i] == s[i];
  }

  /** The new conversation has a higher attempt number than every earlier one of the row. */
  lemma StartExtendsHistory(w: World, c: Id, now: int)
    requires Inv(w) && c in w.workers && w.workers[c].phase.HasClaim? && MayStart(w, c)
    ensures var w' := AfterStart(w, c, now); var m := w.workers[c].mail;
            m in w'.mails && m in w'.sends && RowOk(w', m) && WorkerOk(w', c)
  {
    var w' := AfterStart(w, c, now);
    var m := w.workers[c].mail;
    assert WorkerOk(w, c) && RowOk(w, m);
    ShapeExtended(w.limit, w.sends[m], UsedAttempts(w.mails[m]), Send(c, w.workers[c].attempt, None));
    assert w'.sends[m] == w.sends[m] + [Send(c, w.workers[c].attempt, None)];
    assert HistoryOwners(w'.workers, w'.sends[m], m);
  }

  lemma StartKeepsInv(w: World, c: Id, now: int)
    requires Inv(w) && c in w.workers && w.workers[c].phase.HasClaim?
    ensures Inv(AfterStart(w, c, now))
  {
    var w' := AfterStart(w, c, now);
    var m := w.workers[c].mail;
    assert WorkerOk(w, c) && RowOk(w, m);
    if MayStart(w, c) {
      StartExtendsHistory(w, c, now);
    }
    forall d | d in w.workers && w.workers[d].mail == m ensures WorkerOk(w', d) {
      if d != c { FrameWorker(w, w', d); }
    }
    LocalStepKeepsInv(w, w', c);
  }

  lemma ReturnKeepsRow(w: World, c: Id, o: Outcome)
    requires Inv(w) && c in w.workers && w.workers[c].phase.InSmtp?
    ensures var w' := AfterReturn(w, c, o); var m := w.workers[c].mail;
            && m in w'.mails && m in w'.sends && RowOk(w', m)
            && w'.sends[m] != [] && w'.sends[m][|w'.sends[m]| - 1] == Send(c, w.workers[c].attempt, Some(o))
  {
    var w' := AfterReturn(w, c, o);
    var m := w.workers[c].mail;
    assert WorkerOk(w, c) && RowOk(w, m);
    OnlyLastHasClaim(w, c);
    var s, s' := w.sends[m], w'.sends[m];
    assert |s'| == |s|;
    assert forall i :: 0 <= i < |s| - 1 ==> s'[i] == s[i];
    assert HistoryShape(w.limit, s', Unstarted(w.mails[m]), UsedAttempts(w.mails[m]));
    assert HistoryOwners(w'.workers, s', m);
  }

  lemma ReturnKeepsInv(w: World, c: Id, o: Outcome)
    requires Inv(w) && c in w.workers && w.workers[c].phase.InSmtp?
    ensures Inv(AfterReturn(w, c, o))
  {
    var w' := AfterReturn(w, c, o);
    var m := w.workers[c].mail;
    assert WorkerOk(w, c);
    ReturnKeepsRow(w, c, o);
    forall d | d in w.workers && w.workers[d].mail == m ensures WorkerOk(w', d) {
      if d != c {
        if InConversation(w.workers[d].phase) { OneConversation(w, c, d); }
        FrameWorker(w, w', d);
      }
    }
    LocalStepKeepsInv(w, w', c);
  }

  /** Only an explicit failure with attempts left makes the row startable again. */
  lemma RecordedColumns(r: Mail, o: Outcome, attempt: nat, limit: nat, now: int)
    requires ColumnsOk(r) && r.status.Sending? && r.smtpStartedAt.Some?
    ensures var r' := Recorded(r, o, attempt, limit, now);
            && ColumnsOk(r') && !r'.status.Sending? && r'.attempts == r.attempts
            && (Unstarted(r') <==> o.ExplicitFailure? && attempt < limit)
  {
  }

  lemma RecordKeepsOwnRow(w: World, c: Id, now: int)
    requires Inv(w) && c in w.workers && w.workers[c].phase.Returned? && Owns(w.mails, w.workers[c].mail, c)
    ensures var w' := AfterRecord(w, c, now); var m := w.workers[c].mail;
            m in w'.mails && m in w'.sends && RowOk(w', m)
  {
    var w', m := AfterRecord(w, c, now), w.workers[c].mail;
    assert WorkerOk(w, c) && RowOk(w, m);
    RecordedColumns(w.mails[m], w.workers[c].phase.outcome, w.workers[c].attempt, w.limit, now);
    assert HistoryOwners(w'.workers, w.sends[m], m);
  }

  lemma RecordKeepsRow(w: World, c: Id, now: int)
    requires Inv(w) && c in w.workers && w.workers[c].phase.Returned?
    ensures var w' := AfterRecord(w, c, now); var m := w.workers[c].mail;
            m in w'.mails && m in w'.sends && RowOk(w', m)
  {
    var w', m := AfterRecord(w, c, now), w.workers[c].mail;
    assert WorkerOk(w, c) && RowOk(w, m);
    if Owns(w.mails, m, c) {
      RecordKeepsOwnRow(w, c, now);
    } else {
      assert w'.mails == w.mails && HistoryOwners(w'.workers, w.sends[m], m);
    }
  }

  lemma RecordKeepsInv(w: World, c: Id, now: int)
    requires Inv(w) && c in w.workers && w.workers[c].phase.Returned?
    ensures Inv(AfterRecord(w, c, now))
  {
    var w' := AfterRecord(w, c, now);
    var m := w.workers[c].mail;
    assert WorkerOk(w, c);
    RecordKeepsRow(w, c, now);
    forall d | d in w.workers && w.workers[d].mail == m ensures WorkerOk(w', d) {
      if d != c {
        if InConversation(w.workers[d].phase) { OneConversation(w, c, d); }
        FrameWorker(w, w', d);
      }
    }
    LocalStepKeepsInv(w, w', c);
  }

  /** Every action of every actor keeps the invariant. */
  lemma StepKeepsInv(w: World, a: Action)
    requires Inv(w) && Enabled(w, a)
    ensures Inv(Apply(w, a))
  {
    match a
    case EnqueueToken(m, credential, now) => 
      NewRowKeepsInv(w, m, NewTokenMail(credential, None, now), w.todos, Apply(w, a).usable);
    case CreateTodo(t, m, todo, token, scope, now) =>
      NewRowKeepsInv(w, m, Apply(w, a).mails[m], w.todos[t := todo], Apply(w, a).usable);
    case RetryFailed(t, failed, m, key, now) =>
      NewRowKeepsInv(w, m, Apply(w, a).mails[m], Apply(w, a).todos, w.usable);
    case Claim(m, c, now) => ClaimKeepsInv(w, m, c, now);
    case GiveUp(c, business) => GiveUpKeepsInv(w, c, business);
    case Start(c, now) => StartKeepsInv(w, c, now);
    case Return(c, o) => ReturnKeepsInv(w, c, o);
    case Record(c, now) => RecordKeepsInv(w, c, now);
    case _ => BulkStepKeepsInv(w, a);
  }

  lemma {:induction false} RunKeepsInv(w: World, run: seq<Action>)
    requires Inv(w) && Legal(w, run)
    ensures Inv(After(w, run))
    decreases |run|
  {
    if run == [] {
    } else {
      StepKeepsInv(w, run[0]);
      RunKeepsInv(Apply(w, run[0]), run[1..]);
    }
  }
}
