/**
 The session operations, statement by statement, over the tables they update in place; `access` is
 the answer of the access check, and each operation holds the session row.
 */
module PlaytestStore {
  import opened Base
  import opened Text
  import opened Playtests

  datatype Failure =
    | Forbidden | Unavailable | RevisionConflict | StateInvalid | SelectionInvalid | CapacityBelowConfirmed
    | CapacityExceeded | ResultInvalid

  datatype Outcome = Done | Refused(failure: Failure)

  datatype Confirmation = ConfirmedSeat(confirmed: nat, capacity: nat) | NotConfirmed(failure: Failure)

  function AccountsIn(xs: seq<Actual>): set<Id> {
    set x | x in xs && x.account.Some? :: x.account.value
  }

  function CodesIn(xs: seq<Actual>): set<string> {
    set x | x in xs && x.account.None? && Normal(x.code).Some? :: Normal(x.code).value
  }

  predicate Seen(xs: seq<Actual>, x: Actual) { exists y :: y in xs && SamePerson(y, x) }

  lemma SeenOrNot(xs: seq<Actual>, x: Actual)
    requires (x.account.None? ==> Normal(x.code).Some?)
    requires forall y :: y in xs && y.account.None? ==> Normal(y.code).Some?
    ensures Seen(xs, x)
            <==> if x.account.Some? then x.account.value in AccountsIn(xs)
                 else Normal(x.code).value in CodesIn(xs)
  {
  }

  lemma CollectMore(xs: seq<Actual>, x: Actual)
    requires x.account.None? <==> Normal(x.code).Some?
    ensures AccountsIn(xs + [x]) == AccountsIn(xs) + if x.account.Some? then {x.account.value} else {}
    ensures CodesIn(xs + [x]) == CodesIn(xs) + if x.account.None? then {Normal(x.code).value} else {}
    ensures NormalActuals(xs + [x]) == NormalActuals(xs) + [NormalActual(x)]
  {
    assert forall y :: y in xs + [x] <==> y in xs || y == x;
  }

  /** A list stays acceptable exactly if the next person is acceptable and was not seen before. */
  lemma AcceptMore(seats: map<Seat, bool>, s: Id, xs: seq<Actual>, x: Actual)
    requires ActualsOk(seats, s, xs) && ActualOk(seats, s, x)
    ensures ActualsOk(seats, s, xs + [x]) <==> !Seen(xs, x)
  {
    var more := xs + [x];
    if Seen(xs, x) {
      var k :| 0 <= k < |xs| && SamePerson(xs[k], x);
      assert SamePerson(more[k], more[|xs|]);
    } else {
      forall i, j | 0 <= i < j < |more| ensures !SamePerson(more[i], more[j]) {
        assert more[i] == xs[i] && xs[i] in xs;
      }
    }
  }

  /** A part of an acceptable list is acceptable. */
  lemma AcceptLess(seats: map<Seat, bool>, s: Id, xs: seq<Actual>, n: nat)
    requires n <= |xs|
    ensures ActualsOk(seats, s, xs) ==> ActualsOk(seats, s, xs[..n])
  {
    if ActualsOk(seats, s, xs) {
      forall k | 0 <= k < n ensures ActualOk(seats, s, xs[..n][k]) { assert ActualOk(seats, s, xs[k]); }
      forall i, j | 0 <= i < j < n ensures !SamePerson(xs[..n][i], xs[..n][j]) { assert !SamePerson(xs[i], xs[j]); }
    }
  }

  /** The collected accounts and codes tell whether the next person occurred before. */
  lemma OneMore(seats: map<Seat, bool>, s: Id, xs: seq<Actual>, n: nat)
    requires n < |xs| && ActualsOk(seats, s, xs[..n]) && ActualOk(seats, s, xs[n])
    ensures AccountsIn(xs[..n + 1]) == AccountsIn(xs[..n]) + if xs[n].account.Some? then {xs[n].account.value} else {}
    ensures CodesIn(xs[..n + 1]) == CodesIn(xs[..n]) + if xs[n].account.None? then {Normal(xs[n].code).value} else {}
    ensures NormalActuals(xs[..n + 1]) == NormalActuals(xs[..n]) + [NormalActual(xs[n])]
    ensures ActualsOk(seats, s, xs) ==> ActualsOk(seats, s, xs[..n + 1])
    ensures ActualsOk(seats, s, xs[..n + 1])
            <==> if xs[n].account.Some? then xs[n].account.value !in AccountsIn(xs[..n])
                 else Normal(xs[n].code).value !in CodesIn(xs[..n])
  {
    assert xs[..n + 1] == xs[..n] + [xs[n]];
    forall y | y in xs[..n] ensures ActualOk(seats, s, y) {}
    CollectMore(xs[..n], xs[n]);
    SeenOrNot(xs[..n], xs[n]);
    AcceptMore(seats, s, xs[..n], xs[n]);
    AcceptLess(seats, s, xs, n + 1);
  }

  class Store {
    var files: map<Id, File>
    var current: map<Id, set<Id>>
    var sessions: map<Id, Session>
    var seats: map<Seat, bool>
    var planned: map<Copy, Digest>
    var used: map<Copy, Digest>

    function View(): Db
      reads this
    {
      Db(files, current, sessions, seats, planned, used)
    }

    constructor ()
      ensures Initial(View())
    {
      files, current, sessions, seats, planned, used := map[], map[], map[], map[], map[], map[];
    }

    // ----- Participants -----

    method ConfirmParticipation(access: Outcome, s: Id, account: Id) returns (r: Confirmation)
      modifies this`seats
      ensures r.ConfirmedSeat? <==> access.Done? && MayConfirm(old(View()), s, account)
      ensures View() == if r.ConfirmedSeat? then Apply(old(View()), Confirm(s, account)) else old(View())
      ensures r.ConfirmedSeat? ==> r.confirmed == |Confirmed(View(), s)| && r.capacity == sessions[s].capacity
      ensures r == NotConfirmed(CapacityExceeded) && access.Done? ==>
        s in sessions && |Confirmed(old(View()), s)| >= sessions[s].capacity
    {
      if Seat(s, account) !in seats || s !in sessions { return NotConfirmed(Unavailable); }
      if access.Refused? { return NotConfirmed(access.failure); }
      if !sessions[s].status.Scheduled? { return NotConfirmed(StateInvalid); }
      var confirmed := |Confirmed(View(), s)|;
      if seats[Seat(s, account)] {
        assert seats[Seat(s, account) := true] == seats;
        return ConfirmedSeat(confirmed, sessions[s].capacity);
      }
      if confirmed >= sessions[s].capacity { return NotConfirmed(CapacityExceeded); }
      ghost var was := Confirmed(View(), s);
      seats := seats[Seat(s, account) := true];
      assert Confirmed(View(), s) == was + {account};
      r := ConfirmedSeat(confirmed + 1, sessions[s].capacity);
    }

    // ----- Arrangement -----

    /** The checks that every managed change starts with. */
    function Admission(access: Outcome, s: Id, expected: int, status: Status): (r: Outcome)
      reads this
      ensures r.Done? <==> access.Done? && expected >= 0 && AtRevision(View(), s, expected, status)
      ensures r.Refused? && access.Done? ==>
        r.failure == if s !in sessions then Unavailable
                     else if sessions[s].revision != expected then RevisionConflict else StateInvalid
    {
      if access.Refused? then access
      else if s !in sessions then Refused(Unavailable)
      else if sessions[s].revision != expected then Refused(RevisionConflict)
      else if sessions[s].status != status then Refused(StateInvalid)
      else Done
    }

    method UpdateArrangement(access: Outcome, s: Id, capacity: int, expected: int) returns (r: Outcome)
      modifies this`sessions
      ensures r.Done? <==>
        capacity > 0 && expected >= 0 && access.Done? && Enabled(old(View()), Rearrange(s, capacity, expected))
      ensures View() == if r.Done? then Apply(old(View()), Rearrange(s, capacity, expected)) else old(View())
      ensures r == Refused(CapacityBelowConfirmed) && access.Done? ==> capacity < |Confirmed(View(), s)|
    {
      if capacity <= 0 { return Refused(SelectionInvalid); }
      r := Admission(access, s, expected, Scheduled);
      if r.Refused? { return; }
      if capacity < |Confirmed(View(), s)| { return Refused(CapacityBelowConfirmed); }
      sessions := sessions[s := sessions[s].(capacity := capacity)];
      sessions := sessions[s := sessions[s].(revision := sessions[s].revision + 1)];
    }

    method WriteMaterials(s: Id, fs: set<Id>, rules: Rules)
      requires s in sessions && forall f :: f in fs ==> f in files
      modifies this`sessions, this`planned
      ensures sessions == old(sessions)[s := Bumped(old(sessions)[s]).(rules := rules)]
      ensures planned == Copied(old(planned), s, fs, files)
    {
      sessions := sessions[s := sessions[s].(rules := rules, revision := sessions[s].revision + 1)];
      planned := WithoutSession(planned, s);
      planned := planned + Copies(s, fs, files);
    }

    /** `rules` are the current rules of the work. */
    method ReplaceSessionMaterials(access: Outcome, s: Id, fs: seq<Id>, rules: Rules, expected: int)
      returns (r: Outcome)
      modifies this`sessions, this`planned
      ensures var selected := set f | f in fs;
        && (r.Done? <==> && NoRepeat(fs) && expected >= 0 && access.Done?
                         && AtRevision(old(View()), s, expected, Scheduled)
                         && Selectable(old(View()), old(sessions)[s].work, selected) && Playable(rules))
        && View() == if r.Done? then AfterReplace(old(View()), s, selected, rules) else old(View())
    {
      var selected := set f | f in fs;
      if fs == [] || !NoRepeat(fs) {
        assert selected == {} || !NoRepeat(fs);
        return Refused(SelectionInvalid);
      }
      r := Admission(access, s, expected, Scheduled);
      if r.Refused? { return; }
      if !Playable(rules) || !Selectable(View(), sessions[s].work, selected) { return Refused(SelectionInvalid); }
      WriteMaterials(s, selected, rules);
    }

    method StartSession(access: Outcome, s: Id, expected: int) returns (r: Outcome)
      modifies this`sessions
      ensures r.Done? <==> access.Done? && expected >= 0 && AtRevision(old(View()), s, expected, Scheduled)
      ensures View() == if r.Done? then Apply(old(View()), Start(s, expected)) else old(View())
    {
      r := Admission(access, s, expected, Scheduled);
      if r.Refused? { return; }
      sessions := sessions[s := sessions[s].(status := Started, revision := sessions[s].revision + 1)];
    }

    method CancelSession(access: Outcome, s: Id, expected: int) returns (r: Outcome)
      modifies this`sessions
      ensures r.Done? <==> access.Done? && expected >= 0 && AtRevision(old(View()), s, expected, Scheduled)
      ensures View() == if r.Done? then Apply(old(View()), Cancel(s, expected)) else old(View())
    {
      r := Admission(access, s, expected, Scheduled);
      if r.Refused? { return; }
      sessions := sessions[s := sessions[s].(status := Cancelled, revision := sessions[s].revision + 1)];
    }

    // ----- Result -----

    /** One entry: a participant of the session, or a code. */
    method ValidateActual(s: Id, x: Actual) returns (r: Option<Actual>)
      ensures r.Some? <==> ActualOk(seats, s, x)
      ensures r.Some? ==> r.value == NormalActual(x)
    {
      if !Fits(x.code, 160) || !Fits(x.seat, 160) || !Fits(x.score, 160) { return None; }
      var code := Normal(x.code);
      if x.account.None? == code.None? { return None; }
      if x.account.Some? && Seat(s, x.account.value) !in seats { return None; }
      r := Some(Actual(x.account, code, Normal(x.seat), Normal(x.score)));
    }

    /** Accepts exactly participants and codes that occur once; returns them with trimmed text. */
    method ValidateActuals(s: Id, xs: seq<Actual>) returns (r: Option<seq<Actual>>)
      ensures r.Some? <==> ActualsOk(seats, s, xs)
      ensures r.Some? ==> r.value == NormalActuals(xs)
    {
      var accounts: set<Id>, codes: set<string>, actuals: seq<Actual> := {}, {}, [];
      for n := 0 to |xs|
        invariant ActualsOk(seats, s, xs[..n]) && actuals == NormalActuals(xs[..n])
        invariant accounts == AccountsIn(xs[..n]) && codes == CodesIn(xs[..n])
      {
        var x := ValidateActual(s, xs[n]);
        if x.None? { return None; }
        OneMore(seats, s, xs, n);
        if x.value.account.Some? {
          if x.value.account.value in accounts { return None; }
          accounts := accounts + {x.value.account.value};
        } else {
          if x.value.code.value in codes { return None; }
          codes := codes + {x.value.code.value};
        }
        actuals := actuals + [x.value];
      }
      assert xs[..|xs|] == xs;
      r := Some(actuals);
    }

    method ValidateResultDraft(s: Id, d: ResultDraft) returns (r: Option<(Result, seq<Actual>)>)
      requires s in sessions
      ensures r.Some? <==> DraftOk(View(), s, d)
      ensures r.Some? ==> r.value == (ResultOf(View(), s, d), NormalActuals(d.actuals))
    {
      if !Natural(d.headcount) || !Natural(d.duration) || !Fits(d.mode, 160) { return None; }
      var actuals := ValidateActuals(s, d.actuals);
      if actuals.None? { return None; }
      if d.headcount.Some? && d.headcount.value < |actuals.value| { return None; }
      if d.material.Some? && !MaterialOk(View(), s, d.material.value) { return None; }
      r := Some((ResultOf(View(), s, d), actuals.value));
    }

    method WriteResult(s: Id, result: Result, actuals: seq<Actual>, fs: set<Id>)
      requires s in sessions && forall f :: f in fs ==> f in files
      modifies this`sessions, this`used
      ensures sessions == old(sessions)[s := Bumped(old(sessions)[s]).(result := result, actuals := actuals)]
      ensures used == Copied(old(used), s, fs, files)
    {
      sessions := sessions[s := sessions[s].(result := result, actuals := actuals)];
      sessions := sessions[s := sessions[s].(revision := sessions[s].revision + 1)];
      used := WithoutSession(used, s);
      used := used + Copies(s, fs, files);
    }

    method SaveSessionResult(access: Outcome, s: Id, d: ResultDraft, expected: int) returns (r: Outcome)
      modifies this`sessions, this`used
      ensures r.Done? <==> expected > 0 && access.Done? && AtRevision(old(View()), s, expected, Started)
                           && DraftOk(old(View()), s, d)
      ensures View() == if r.Done? then AfterResult(old(View()), s, d) else old(View())
    {
      if expected <= 0 { return Refused(ResultInvalid); }
      r := Admission(access, s, expected, Started);
      if r.Refused? { return; }
      var valid := ValidateResultDraft(s, d);
      if valid.None? { return Refused(ResultInvalid); }
      WriteResult(s, valid.value.0, valid.value.1, FileSet(d.material));
    }
  }
}
