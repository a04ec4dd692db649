/**
 One-time credentials and the jobs that issue recovery credentials. A worker claims a job in one
 transaction and processes it in another; it may crash in between, and stale jobs are queued again.
 */
module Credentials {
  import opened Base

  datatype AccountStatus = PendingActivation | Active | Disabled

  datatype Account = Account(email: string, status: AccountStatus, hasPassword: bool)

  datatype Purpose = Activation | PasswordRecovery | WorkspaceInvitation

  datatype CredentialStatus = Live | Consumed | Revoked

  datatype Credential = Credential(account: Id, purpose: Purpose, status: CredentialStatus, expires: int)

  datatype JobStatus = Pending | Processing | Completed | Failed

  /** `email` stands for the encrypted address, which a finished job no longer has. */
  datatype Job = Job(
    status: JobStatus, claim: Option<Id>, startedAt: Option<int>, email: Option<string>, createdAt: int)

  datatype Issue = Issue(job: Id, credential: Id)

  /** `claims` remembers which job each claim is for, `issued` and `exchanged` what was committed. */
  datatype World = World(
    accounts: map<Id, Account>,
    credentials: map<Id, Credential>,
    jobs: map<Id, Job>,
    claims: map<Id, Id>,
    issued: seq<Issue>,
    exchanged: seq<Id>)

  datatype Action =
    | Queue(j: Id, email: string, now: int)
    | ClaimJob(j: Id, c: Id, now: int)
    | RequeueStale(js: set<Id>)
    | Process(c: Id, readable: bool, k: Id, expires: int)
    | Exchange(k: Id, now: int)
    | Provision(a: Id, email: string, k: Id, expires: int)
    | ActivateInvited(a: Id)
    | Invite(a: Id, k: Id, expires: int)
    | CloseInvitation(k: Id, to: CredentialStatus)
    | RevokeAll
    | SetAccount(a: Id, row: Account)

  predicate LiveFor(r: Credential, a: Id, p: Purpose) { r.account == a && r.purpose == p && r.status.Live? }

  function RevokedFor(rows: map<Id, Credential>, a: Id, p: Purpose): map<Id, Credential> {
    map k | k in rows :: if LiveFor(rows[k], a, p) then rows[k].(status := Revoked) else rows[k]
  }

  /** A new credential replaces the live ones of its account and purpose. */
  function Issued(rows: map<Id, Credential>, a: Id, p: Purpose, k: Id, expires: int): map<Id, Credential> {
    RevokedFor(rows, a, p)[k := Credential(a, p, Live, expires)]
  }

  predicate OwnsJob(jobs: map<Id, Job>, j: Id, c: Id) {
    j in jobs && jobs[j].status.Processing? && jobs[j].claim == Some(c)
  }

  function Finished(job: Job, to: JobStatus): Job { job.(status := to, claim := None, email := None) }

  predicate HasEmail(accounts: map<Id, Account>, email: string, a: Id) { a in accounts && accounts[a].email == email }

  predicate EmailsUnique(accounts: map<Id, Account>) {
    forall a, b :: a in accounts && b in accounts && accounts[a].email == accounts[b].email ==> a == b
  }

  predicate MayRecover(accounts: map<Id, Account>, email: string, a: Id) {
    HasEmail(accounts, email, a) && accounts[a].status.Active? && accounts[a].hasPassword
  }

  /** The account status that an exchange of this purpose requires. */
  function Required(p: Purpose): AccountStatus { if p.Activation? then PendingActivation else Active }

  predicate MayExchange(w: World, k: Id, now: int) {
    && k in w.credentials && !w.credentials[k].purpose.WorkspaceInvitation?
    && w.credentials[k].status.Live? && now < w.credentials[k].expires
    && w.credentials[k].account in w.accounts
    && w.accounts[w.credentials[k].account].status == Required(w.credentials[k].purpose)
  }

  predicate Enabled(w: World, a: Action) {
    match a
    case Queue(j, _, _) => j !in w.jobs
    case ClaimJob(j, c, _) => j in w.jobs && w.jobs[j].status.Pending? && c !in w.claims
    case RequeueStale(js) => forall j :: j in js ==> j in w.jobs && w.jobs[j].status.Processing?
    case Process(c, _, k, _) => c in w.claims && k !in w.credentials
    case Exchange(k, now) => MayExchange(w, k, now)
    case Provision(a, email, k, _) =>
      && k !in w.credentials
      && (if a in w.accounts then w.accounts[a].email == email && !w.accounts[a].status.Active?
          else forall b :: b in w.accounts ==> w.accounts[b].email != email)
    case ActivateInvited(a) => a in w.accounts && w.accounts[a].status.PendingActivation?
    case Invite(_, k, _) => k !in w.credentials
    case CloseInvitation(k, to) =>
      !to.Live? && k in w.credentials && w.credentials[k].purpose.WorkspaceInvitation? && w.credentials[k].status.Live?
    case RevokeAll => true
    case SetAccount(a, row) => a in w.accounts && w.accounts[a].email == row.email
  }

  function Requeued(jobs: map<Id, Job>, js: set<Id>): map<Id, Job> {
    map j | j in jobs :: if j in js then jobs[j].(status := Pending, claim := None, startedAt := None) else jobs[j]
  }

  function AfterFinish(w: World, j: Id, to: JobStatus): World
    requires j in w.jobs
  {
    w.(jobs := w.jobs[j := Finished(w.jobs[j], to)])
  }

  function AfterIssue(w: World, j: Id, a: Id, k: Id, expires: int): World
    requires j in w.jobs
  {
    AfterFinish(w, j, Completed).(credentials := Issued(w.credentials, a, PasswordRecovery, k, expires),
                                  issued := w.issued + [Issue(j, k)])
  }

  /** The outcome of processing: nothing if the claim was taken over. */
  ghost predicate Processed(w: World, c: Id, readable: bool, k: Id, expires: int, v: World)
    requires c in w.claims
  {
    var j := w.claims[c];
    if !OwnsJob(w.jobs, j, c) then v == w
    else if w.jobs[j].email.None? || !readable then v == AfterFinish(w, j, Failed)
    else if exists a :: MayRecover(w.accounts, w.jobs[j].email.value, a)
    then exists a :: MayRecover(w.accounts, w.jobs[j].email.value, a) && v == AfterIssue(w, j, a, k, expires)
    else v == AfterFinish(w, j, Completed)
  }

  function AfterExchange(w: World, k: Id): World
    requires k in w.credentials && w.credentials[k].account in w.accounts
  {
    var r := w.credentials[k];
    var rows := w.credentials[k := r.(status := Consumed)];
    w.(credentials := if r.purpose.PasswordRecovery? then RevokedFor(rows, r.account, PasswordRecovery) else rows,
       accounts := w.accounts[r.account := w.accounts[r.account].(status := Active, hasPassword := true)],
       exchanged := w.exchanged + [k])
  }

  function AfterProvision(w: World, a: Id, email: string, k: Id, expires: int): World {
    if a in w.accounts
    then w.(accounts := w.accounts[a := w.accounts[a].(status := PendingActivation)],
            credentials := Issued(RevokedFor(w.credentials, a, PasswordRecovery), a, Activation, k, expires))
    else w.(accounts := w.accounts[a := Account(email, PendingActivation, false)],
            credentials := Issued(w.credentials, a, Activation, k, expires))
  }

  /** One committed step. */
  ghost predicate Step(w: World, a: Action, v: World) {
    Enabled(w, a) &&
    match a
    case Queue(j, email, now) => v == w.(jobs := w.jobs[j := Job(Pending, None, None, Some(email), now)])
    case ClaimJob(j, c, now) =>
      v == w.(jobs := w.jobs[j := w.jobs[j].(status := Processing, claim := Some(c), startedAt := Some(now))],
              claims := w.claims[c := j])
    case RequeueStale(js) => v == w.(jobs := Requeued(w.jobs, js))
    case Process(c, readable, k, expires) => Processed(w, c, readable, k, expires, v)
    case Exchange(k, _) => v == AfterExchange(w, k)
    case Provision(a, email, k, expires) => v == AfterProvision(w, a, email, k, expires)
    case ActivateInvited(a) =>
      v == w.(accounts := w.accounts[a := w.accounts[a].(status := Active, hasPassword := true)],
              credentials := RevokedFor(w.credentials, a, Activation))
    case Invite(a, k, expires) =>
      v == w.(credentials := w.credentials[k := Credential(a, WorkspaceInvitation, Live, expires)])
    case CloseInvitation(k, to) => v == w.(credentials := w.credentials[k := w.credentials[k].(status := to)])
    case RevokeAll =>
      v == w.(credentials := map k | k in w.credentials ::
                if w.credentials[k].status.Live? then w.credentials[k].(status := Revoked) else w.credentials[k])
    case SetAccount(a, row) => v == w.(accounts := w.accounts[a := row])
  }

  /** A run as the sequence of its worlds. */
  ghost predicate Trace(ws: seq<World>) {
    && ws != []
    && forall i :: 0 <= i < |ws| - 1 ==> Moves(ws[i], ws[i + 1])
  }

  ghost predicate Moves(w: World, v: World) { exists a :: Step(w, a, v) }

  ghost predicate Initial(w: World) {
    w.credentials == map[] && w.jobs == map[] && w.claims == map[] && w.issued == [] && w.exchanged == []
    && EmailsUnique(w.accounts)
  }

  // ----- Invariant -----

  predicate Rivals(r: Credential, s: Credential) {
    r.status.Live? && LiveFor(s, r.account, r.purpose) && !r.purpose.WorkspaceInvitation?
  }

  ghost predicate OneLive(rows: map<Id, Credential>) {
    forall k, l :: k in rows && l in rows && Rivals(rows[k], rows[l]) ==> k == l
  }

  predicate Final(job: Job) { job.status.Completed? || job.status.Failed? }

  ghost predicate JobsOk(w: World) {
    && (forall j :: j in w.jobs ==>
          && (w.jobs[j].claim.Some? <==> w.jobs[j].status.Processing?)
          && (w.jobs[j].email.None? <==> Final(w.jobs[j]))
          && (w.jobs[j].claim.Some? ==> w.jobs[j].claim.value in w.claims && w.claims[w.jobs[j].claim.value] == j))
    && (forall c :: c in w.claims ==> w.claims[c] in w.jobs)
  }

  ghost predicate IssuedOk(w: World) {
    && (forall i :: 0 <= i < |w.issued| ==>
          && w.issued[i].job in w.jobs && w.jobs[w.issued[i].job].status.Completed?
          && w.issued[i].credential in w.credentials)
    && (forall i, j :: 0 <= i < j < |w.issued| ==>
          w.issued[i].job != w.issued[j].job && w.issued[i].credential != w.issued[j].credential)
  }

  ghost predicate ExchangedOk(w: World) {
    && (forall i :: 0 <= i < |w.exchanged| ==>
          w.exchanged[i] in w.credentials && w.credentials[w.exchanged[i]].status.Consumed?)
    && (forall i, j :: 0 <= i < j < |w.exchanged| ==> w.exchanged[i] != w.exchanged[j])
  }

  ghost predicate Inv(w: World) {
    OneLive(w.credentials) && JobsOk(w) && IssuedOk(w) && ExchangedOk(w) && EmailsUnique(w.accounts)
  }

  lemma IssueKeepsOneLive(rows: map<Id, Credential>, a: Id, p: Purpose, k: Id, expires: int)
    requires OneLive(rows) && k !in rows
    ensures OneLive(RevokedFor(rows, a, p)) && OneLive(Issued(rows, a, p, k, expires))
  {
  }

  lemma FinishKeepsInv(w: World, c: Id, to: JobStatus)
    requires Inv(w) && c in w.claims && OwnsJob(w.jobs, w.claims[c], c) && (to.Completed? || to.Failed?)
    ensures Inv(AfterFinish(w, w.claims[c], to))
  {
  }

  lemma IssueKeepsInv(w: World, c: Id, a: Id, k: Id, expires: int)
    requires Inv(w) && c in w.claims && OwnsJob(w.jobs, w.claims[c], c) && k !in w.credentials
    ensures Inv(AfterIssue(w, w.claims[c], a, k, expires))
  {
    var v := AfterIssue(w, w.claims[c], a, k, expires);
    FinishKeepsInv(w, c, Completed);
    IssueKeepsOneLive(w.credentials, a, PasswordRecovery, k, expires);
    forall i, j | 0 <= i < j < |v.issued|
      ensures v.issued[i].job != v.issued[j].job && v.issued[i].credential != v.issued[j].credential
    {
      assert v.issued[i] == w.issued[i];
    }
  }

  lemma ProcessKeepsInv(w: World, c: Id, readable: bool, k: Id, expires: int, v: World)
    requires Inv(w) && c in w.claims && k !in w.credentials && Processed(w, c, readable, k, expires, v)
    ensures Inv(v)
  {
    var j := w.claims[c];
    if OwnsJob(w.jobs, j, c) {
      if w.jobs[j].email.None? || !readable {
        FinishKeepsInv(w, c, Failed);
      } else if exists a :: MayRecover(w.accounts, w.jobs[j].email.value, a) {
        var a :| MayRecover(w.accounts, w.jobs[j].email.value, a) && v == AfterIssue(w, j, a, k, expires);
        IssueKeepsInv(w, c, a, k, expires);
      } else {
        FinishKeepsInv(w, c, Completed);
      }
    }
  }

  lemma ExchangeKeepsInv(w: World, k: Id, now: int)
    requires Inv(w) && MayExchange(w, k, now)
    ensures Inv(AfterExchange(w, k))
  {
    var v := AfterExchange(w, k);
    assert forall i :: 0 <= i < |w.exchanged| ==> v.exchanged[i] == w.exchanged[i] && w.exchanged[i] != k;
  }

  lemma ProvisionKeepsInv(w: World, a: Id, email: string, k: Id, expires: int)
    requires Inv(w) && Enabled(w, Provision(a, email, k, expires))
    ensures Inv(AfterProvision(w, a, email, k, expires))
  {
    IssueKeepsOneLive(w.credentials, a, PasswordRecovery, k, expires);
    IssueKeepsOneLive(RevokedFor(w.credentials, a, PasswordRecovery), a, Activation, k, expires);
    IssueKeepsOneLive(w.credentials, a, Activation, k, expires);
  }

  lemma JobStepKeepsInv(w: World, a: Action, v: World)
    requires Inv(w) && Step(w, a, v) && (a.Queue? || a.ClaimJob? || a.RequeueStale?)
    ensures Inv(v)
  {
    JobStepKeepsJobs(w, a, v);
  }

  lemma JobStepKeepsJobs(w: World, a: Action, v: World)
    requires JobsOk(w) && Step(w, a, v) && (a.Queue? || a.ClaimJob? || a.RequeueStale?)
    ensures JobsOk(v)
    ensures forall j :: j in w.jobs && w.jobs[j].status.Completed? ==> j in v.jobs && v.jobs[j] == w.jobs[j]
  {
  }

  /** Activation by an invitation, revocation and the changes of accounts. */
  lemma AccountStepKeepsInv(w: World, a: Action, v: World)
    requires Inv(w) && Step(w, a, v) && (a.ActivateInvited? || a.RevokeAll? || a.SetAccount?)
    ensures Inv(v)
  {
  }

  lemma InvitationStepKeepsInv(w: World, a: Action, v: World)
    requires Inv(w) && Step(w, a, v) && (a.Invite? || a.CloseInvitation?)
    ensures Inv(v)
  {
  }

  lemma StepKeepsInv(w: World, a: Action, v: World)
    requires Inv(w) && Step(w, a, v)
    ensures Inv(v)
  {
    match a
    case Process(c, readable, k, expires) => ProcessKeepsInv(w, c, readable, k, expires, v);
    case Exchange(k, now) => ExchangeKeepsInv(w, k, now);
    case Provision(x, email, k, expires) => ProvisionKeepsInv(w, x, email, k, expires);
    case Queue(_, _, _) => JobStepKeepsInv(w, a, v);
    case ClaimJob(_, _, _) => JobStepKeepsInv(w, a, v);
    case RequeueStale(_) => JobStepKeepsInv(w, a, v);
    case Invite(_, _, _) => InvitationStepKeepsInv(w, a, v);
    case CloseInvitation(_, _) => InvitationStepKeepsInv(w, a, v);
    case _ => AccountStepKeepsInv(w, a, v);
  }

  lemma {:induction false} TraceKeepsInv(ws: seq<World>, n: nat)
    requires Trace(ws) && Inv(ws[0]) && n < |ws|
    ensures Inv(ws[n])
  {
    if n == 0 {
    } else {
      TraceKeepsInv(ws, n - 1);
      assert Moves(ws[n - 1], ws[n - 1 + 1]);
      var a :| Step(ws[n - 1], a, ws[n]);
      StepKeepsInv(ws[n - 1], a, ws[n]);
    }
  }

  // ----- Results -----

  /** Whatever crashes, requeues and overlaps: a job commits at most one credential, and only by
      completing; no credential is exchanged twice; no account has two live ones of a purpose. */
  lemma OneCredentialPerJob(ws: seq<World>, n: nat)
    requires Trace(ws) && Initial(ws[0]) && n < |ws|
    ensures forall i, j :: 0 <= i < j < |ws[n].issued| ==> ws[n].issued[i].job != ws[n].issued[j].job
    ensures forall i :: 0 <= i < |ws[n].issued| ==>
              ws[n].issued[i].job in ws[n].jobs && ws[n].jobs[ws[n].issued[i].job].status.Completed?
    ensures forall i, j :: 0 <= i < j < |ws[n].exchanged| ==> ws[n].exchanged[i] != ws[n].exchanged[j]
    ensures OneLive(ws[n].credentials)
  {
    TraceKeepsInv(ws, n);
  }

  /** A finished job and a spent credential are as they were. */
  ghost predicate Keeps(w: World, v: World, j: Id, k: Id) {
    && (j in w.jobs && Final(w.jobs[j]) ==> j in v.jobs && v.jobs[j] == w.jobs[j])
    && (k in w.credentials && !w.credentials[k].status.Live? ==>
          k in v.credentials && v.credentials[k] == w.credentials[k])
  }

  lemma StepIsFinal(w: World, a: Action, v: World, j: Id, k: Id)
    requires Inv(w) && Step(w, a, v)
    ensures Keeps(w, v, j, k)
  {
    if a.Process? { ProcessIsFinal(w, a.c, a.readable, a.k, a.expires, v, j, k); }
  }

  lemma ProcessIsFinal(w: World, c: Id, readable: bool, added: Id, expires: int, v: World, j: Id, k: Id)
    requires Inv(w) && c in w.claims && added !in w.credentials && Processed(w, c, readable, added, expires, v)
    ensures Keeps(w, v, j, k)
  {
  }

  lemma KeepsOn(u: World, w: World, v: World, j: Id, k: Id)
    requires Keeps(u, w, j, k) && Inv(w) && Moves(w, v)
    ensures Keeps(u, v, j, k)
  {
    var a :| Step(w, a, v);
    StepIsFinal(w, a, v, j, k);
  }

  /** A finished job never reopens and a spent credential never changes. */
  lemma {:induction false} FinalForever(ws: seq<World>, m: nat, n: nat, j: Id, k: Id)
    requires Trace(ws) && Initial(ws[0]) && m <= n < |ws|
    ensures Keeps(ws[m], ws[n], j, k)
    decreases n - m
  {
    if m == n {
      assert ws[m] == ws[n];
    } else {
      FinalForever(ws, m, n - 1, j, k);
      TraceKeepsInv(ws, n - 1);
      KeepsOn(ws[m], ws[n - 1], ws[n - 1 + 1], j, k);
    }
  }

  /** A worker whose claim was taken over, or whose job is done, changes nothing. */
  lemma LateWorkerIsSuperseded(w: World, c: Id, readable: bool, k: Id, expires: int, v: World)
    requires Inv(w) && Step(w, Process(c, readable, k, expires), v)
    requires w.jobs[w.claims[c]].claim != Some(c)
    ensures v == w
  {
  }

  /** An exchange leaves no live credential of its account and purpose behind. */
  lemma ExchangeLeavesNone(w: World, k: Id, now: int, l: Id)
    requires Inv(w) && MayExchange(w, k, now) && l in AfterExchange(w, k).credentials
    ensures !LiveFor(AfterExchange(w, k).credentials[l], w.credentials[k].account, w.credentials[k].purpose)
  {
  }
}
