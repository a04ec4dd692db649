/**
 The identity service over its tables, statement by statement: attempts, credentials, and the
 jobs that issue recovery credentials.
 */
module IdentityStore {
  import opened Base
  import opened Attempts
  import opened Credentials

  datatype Subject = Subject(purpose: string, hash: Id)

  datatype RequestResult = Accepted | RateLimited(retryAfter: int)

  datatype JobResult = DidComplete | DidFail | WasSuperseded

  datatype ExchangeResult = Exchanged | LinkUnavailable | TooMany(retryAfter: int)

  function StaleJobs(jobs: map<Id, Job>, cutoff: int, locked: set<Id>): set<Id> {
    set j | && j in jobs && j !in locked && jobs[j].status.Processing?
            && jobs[j].startedAt.Some? && jobs[j].startedAt.value < cutoff
  }

  function PendingJobs(jobs: map<Id, Job>, locked: set<Id>): set<Id> {
    set j | j in jobs && j !in locked && jobs[j].status.Pending?
  }

  function RevokedAmong(rows: map<Id, Credential>, done: set<Id>): map<Id, Credential> {
    map k | k in rows :: if k in done then rows[k].(status := Revoked) else rows[k]
  }

  predicate IsLimited(l: Limits, attempts: map<Subject, Window>, s: Subject, now: int) {
    s in attempts && Limited(l, attempts[s], now)
  }

  /** The row after a request that was admitted: checked at one reading of the clock, counted at another. */
  function Admitted(l: Limits, attempts: map<Subject, Window>, s: Subject, checked: int, counted: int): Window {
    Counted(l, if s in attempts then Some(Checked(l, attempts[s], checked)) else None, counted)
  }

  class Store {
    const window: int
    var attempts: map<Subject, Window>
    var accounts: map<Id, Account>
    var credentials: map<Id, Credential>
    var jobs: map<Id, Job>
    ghost var claims: map<Id, Id>
    ghost var issued: seq<Issue>
    ghost var exchanged: seq<Id>

    ghost function View(): World
      reads this
    {
      World(accounts, credentials, jobs, claims, issued, exchanged)
    }

    constructor (window: int, accounts: map<Id, Account>)
      requires EmailsUnique(accounts)
      ensures Credentials.Initial(View()) && attempts == map[] && this.window == window && this.accounts == accounts
    {
      this.window := window;
      attempts, credentials, jobs := map[], map[], map[];
      this.accounts := accounts;
      claims, issued, exchanged := map[], [], [];
    }

    // ----- Attempts -----

    method AttemptRetryAfter(s: Subject, maximum: nat, now: int) returns (retry: Option<int>)
      modifies this`attempts
      ensures var l := Limits(maximum, window);
        && (retry.Some? <==> IsLimited(l, old(attempts), s, now))
        && (retry.Some? ==> retry.value == RetryAfter(l, old(attempts)[s], now) && attempts == old(attempts))
        && (retry.None? ==> attempts == if s in old(attempts) then old(attempts)[s := Checked(l, old(attempts)[s], now)]
                                        else old(attempts))
    {
      if s !in attempts { return None; }
      var w := attempts[s];
      if now - w.start >= window {
        attempts := attempts[s := Window(now, 0)];
        return None;
      }
      if w.count >= maximum {
        var seconds := (window - (now - w.start)) / SECOND;
        return Some(if seconds > 1 then seconds else 1);
      }
      retry := None;
    }

    method RecordAttempt(s: Subject, now: int)
      modifies this`attempts
      ensures var row := if s in old(attempts) then Some(old(attempts)[s]) else None;
              attempts == old(attempts)[s := Counted(Limits(0, window), row, now)]
    {
      if s !in attempts {
        attempts := attempts[s := Window(now, 1)];
        return;
      }
      var w := attempts[s];
      if now - w.start >= window {
        attempts := attempts[s := Window(now, 1)];
        return;
      }
      attempts := attempts[s := Window(w.start, w.count + 1)];
    }

    method RequestRecovery(s: Subject, maximum: nat, email: string, j: Id, checked: int, counted: int)
      returns (r: RequestResult)
      requires j !in jobs
      modifies this`attempts, this`jobs
      ensures var l := Limits(maximum, window);
        && (r.RateLimited? <==> IsLimited(l, old(attempts), s, checked))
        && (r.RateLimited? ==> r.retryAfter == RetryAfter(l, old(attempts)[s], checked))
        && attempts == (if r.Accepted? then old(attempts)[s := Admitted(l, old(attempts), s, checked, counted)]
                        else old(attempts))
      ensures if r.Accepted? then Step(old(View()), Queue(j, email, counted), View()) else View() == old(View())
    {
      var retry := AttemptRetryAfter(s, maximum, checked);
      if retry.Some? { return RateLimited(retry.value); }
      RecordAttempt(s, counted);
      jobs := jobs[j := Job(Pending, None, None, Some(email), counted)];
      r := Accepted;
    }

    // ----- Credentials -----

    method RevokeCredentials(a: Id, p: Purpose) returns (revoked: set<Id>)
      modifies this`credentials
      ensures credentials == RevokedFor(old(credentials), a, p)
      ensures revoked == set k | k in old(credentials) && LiveFor(old(credentials)[k], a, p)
    {
      revoked := set k | k in credentials && LiveFor(credentials[k], a, p);
      var rest := revoked;
      ghost var done: set<Id> := {};
      while rest != {}
        invariant done + rest == revoked && done !! rest
        invariant credentials == RevokedAmong(old(credentials), done)
      {
        var k :| k in rest;
        credentials := credentials[k := credentials[k].(status := Revoked)];
        rest, done := rest - {k}, done + {k};
      }
    }

    method CreateOneTimeCredential(a: Id, p: Purpose, k: Id, expires: int)
      requires k !in credentials
      modifies this`credentials
      ensures credentials == Issued(old(credentials), a, p, k, expires)
    {
      var revoked := RevokeCredentials(a, p);
      credentials := credentials[k := Credential(a, p, Live, expires)];
    }

    // ----- Recovery jobs -----

    /** Claims the oldest pending job that nobody holds. */
    method ClaimRecoveryJob(c: Id, now: int, locked: set<Id>) returns (found: Option<Id>)
      requires c !in claims
      modifies this`jobs, this`claims
      ensures found.None? <==> PendingJobs(old(jobs), locked) == {}
      ensures found.None? ==> View() == old(View())
      ensures found.Some? ==>
        && found.value in PendingJobs(old(jobs), locked)
        && (forall j :: j in PendingJobs(old(jobs), locked) ==>
              old(jobs)[found.value].createdAt <= old(jobs)[j].createdAt)
        && Step(old(View()), ClaimJob(found.value, c, now), View())
    {
      var due := PendingJobs(jobs, locked);
      if due == {} { return None; }
      var j := Oldest(jobs, due);
      jobs := jobs[j := jobs[j].(status := Processing, claim := Some(c), startedAt := Some(now))];
      claims := claims[c := j];
      found := Some(j);
    }

    /** `dispatching` is the answer of the recovery gate. */
    method RecoverStaleJobs(dispatching: bool, cutoff: int, locked: set<Id>) returns (n: nat)
      modifies this`jobs
      ensures !dispatching ==> n == 0 && jobs == old(jobs)
      ensures dispatching ==>
        var rows := StaleJobs(old(jobs), cutoff, locked); n == |rows| && jobs == Requeued(old(jobs), rows)
    {
      if !dispatching { return 0; }
      var rows := StaleJobs(jobs, cutoff, locked);
      var rest := rows;
      n := |rows|;
      ghost var done: set<Id> := {};
      while rest != {}
        invariant done + rest == rows && done !! rest
        invariant jobs == Requeued(old(jobs), done)
      {
        var j :| j in rest;
        jobs := jobs[j := jobs[j].(status := Pending)];
        jobs := jobs[j := jobs[j].(claim := None, startedAt := None)];
        rest, done := rest - {j}, done + {j};
      }
    }

    method FinishRecoveryJob(j: Id, c: Id, to: JobStatus) returns (updated: bool)
      modifies this`jobs
      ensures updated <==> OwnsJob(old(jobs), j, c)
      ensures !OwnsJob(jobs, j, c) && (updated ==> j in jobs && jobs[j].email.None?)
      ensures jobs == if updated then old(jobs)[j := Finished(old(jobs)[j], to)] else old(jobs)
    {
      updated := OwnsJob(jobs, j, c);
      if updated { jobs := jobs[j := jobs[j].(status := to, claim := None, email := None)]; }
    }

    /** The second transaction of a worker, which locks the job it claimed. */
    method ProcessJob(j: Id, c: Id, readable: bool, k: Id, expires: int) returns (r: JobResult)
      requires c in claims && claims[c] == j && k !in credentials
      modifies this`jobs, this`credentials, this`issued
      ensures Step(old(View()), Process(c, readable, k, expires), View())
      ensures r.WasSuperseded? <==> !OwnsJob(old(jobs), j, c)
      ensures r.DidFail? <==> OwnsJob(old(jobs), j, c) && (old(jobs)[j].email.None? || !readable)
    {
      if !OwnsJob(jobs, j, c) { return WasSuperseded; }
      if jobs[j].email.None? || !readable {
        var failed := FinishRecoveryJob(j, c, Failed);
        return if failed then DidFail else WasSuperseded;
      }
      var email := jobs[j].email.value;
      if a :| a in accounts && MayRecover(accounts, email, a) {
        CreateOneTimeCredential(a, PasswordRecovery, k, expires);
        issued := issued + [Issue(j, k)];
      }
      var completed := FinishRecoveryJob(j, c, Completed);
      r := if completed then DidComplete else WasSuperseded;
    }

    // ----- Exchange -----

    /** `found` is the credential whose hash the token has; the subject is the token itself. The clock
        is read to check the attempts, to check the credential, and to count a refusal. */
    method ExchangeCredential(found: Option<Id>, s: Subject, maximum: nat, checked: int, now: int, counted: int)
      returns (r: ExchangeResult)
      modifies this`attempts, this`accounts, this`credentials, this`exchanged
      ensures r.TooMany? <==> IsLimited(Limits(maximum, window), old(attempts), s, checked)
      ensures r.Exchanged? <==> !r.TooMany? && found.Some? && MayExchange(old(View()), found.value, now)
      ensures View() == if r.Exchanged? then AfterExchange(old(View()), found.value) else old(View())
      ensures r.Exchanged? ==> s !in attempts
      ensures r.LinkUnavailable? ==>
        attempts == old(attempts)[s := Admitted(Limits(maximum, window), old(attempts), s, checked, counted)]
    {
      var retry := AttemptRetryAfter(s, maximum, checked);
      if retry.Some? { return TooMany(retry.value); }
      if found.None? || found.value !in credentials || credentials[found.value].purpose.WorkspaceInvitation?
         || !credentials[found.value].status.Live? || credentials[found.value].expires <= now
      {
        RecordAttempt(s, counted);
        return LinkUnavailable;
      }
      var k := found.value;
      var row := credentials[k];
      if row.account !in accounts || accounts[row.account].status != Required(row.purpose) {
        RecordAttempt(s, counted);
        return LinkUnavailable;
      }
      credentials := credentials[k := row.(status := Consumed)];
      accounts := accounts[row.account := accounts[row.account].(hasPassword := true)];
      if row.purpose.Activation? {
        accounts := accounts[row.account := accounts[row.account].(status := Active)];
      }
      if row.purpose.PasswordRecovery? {
        var revoked := RevokeCredentials(row.account, PasswordRecovery);
      }
      exchanged := exchanged + [k];
      attempts := attempts - {s};
      r := Exchanged;
    }

    method ProvisionAccount(a: Id, email: string, k: Id, expires: int) returns (ok: bool)
      requires k !in credentials
      requires if a in accounts then accounts[a].email == email
               else forall b :: b in accounts ==> accounts[b].email != email
      modifies this`accounts, this`credentials
      ensures ok <==> a !in old(accounts) || !old(accounts)[a].status.Active?
      ensures if ok then Step(old(View()), Provision(a, email, k, expires), View()) else View() == old(View())
    {
      if a !in accounts {
        accounts := accounts[a := Account(email, PendingActivation, false)];
      } else if accounts[a].status.Active? {
        return false;
      } else {
        accounts := accounts[a := accounts[a].(status := PendingActivation)];
        var revoked := RevokeCredentials(a, PasswordRecovery);
      }
      CreateOneTimeCredential(a, Activation, k, expires);
      ok := true;
    }
  }

  lemma {:induction false} OldestExists(jobs: map<Id, Job>, js: set<Id>)
    requires js != {} && js <= jobs.Keys
    ensures exists j :: j in js && forall i :: i in js ==> jobs[j].createdAt <= jobs[i].createdAt
  {
    var j :| j in js;
    if js == {j} {
    } else {
      OldestExists(jobs, js - {j});
      var i :| i in js - {j} && forall h :: h in js - {j} ==> jobs[i].createdAt <= jobs[h].createdAt;
      var best := if jobs[j].createdAt <= jobs[i].createdAt then j else i;
      forall h | h in js ensures jobs[best].createdAt <= jobs[h].createdAt { assert h == j || h in js - {j}; }
    }
  }

  method Oldest(jobs: map<Id, Job>, js: set<Id>) returns (j: Id)
    requires js != {} && js <= jobs.Keys
    ensures j in js && forall i :: i in js ==> jobs[j].createdAt <= jobs[i].createdAt
  {
    OldestExists(jobs, js);
    j :| j in js && forall i :: i in js ==> jobs[j].createdAt <= jobs[i].createdAt;
  }
}
