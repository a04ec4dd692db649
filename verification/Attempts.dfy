/**
 Rate limiting of recovery requests for one subject. A request reads the clock and checks the
 subject's row, then reads the clock again and counts itself; the row stays locked in between. A
 request that finds no row has nothing to lock. Times are in microseconds.
 */
module Attempts {
  import opened Base

  datatype Window = Window(start: int, count: nat)

  datatype Admission = Admission(at: int, start: int, ordinal: nat)

  datatype Limits = Limits(maximum: nat, length: int)

  /** The request that holds the row, with its uncommitted changes. */
  datatype Holder = Holder(request: Id, row: Window)

  datatype State = State(
    clock: int,
    row: Option<Window>,
    holder: Option<Holder>,
    unlocked: set<Id>,
    log: seq<Admission>)

  datatype Action =
    | Tick(now: int)
    | Check(request: Id, now: int)
    | Count(request: Id)
    | Abort(request: Id)

  const SECOND := 1_000_000

  predicate Sane(l: Limits) { l.maximum >= 1 && l.length >= 60 * SECOND }

  // ----- Both halves of a request -----

  predicate Expired(l: Limits, w: Window, now: int) { now - w.start >= l.length }

  predicate Limited(l: Limits, w: Window, now: int) { !Expired(l, w, now) && w.count >= l.maximum }

  function Remaining(l: Limits, w: Window, now: int): int { l.length - (now - w.start) }

  function RetryAfter(l: Limits, w: Window, now: int): int {
    if Remaining(l, w, now) / SECOND > 1 then Remaining(l, w, now) / SECOND else 1
  }

  function Checked(l: Limits, w: Window, now: int): Window {
    if Expired(l, w, now) then Window(now, 0) else w
  }

  function Counted(l: Limits, row: Option<Window>, now: int): Window {
    if row.None? || Expired(l, row.value, now) then Window(now, 1) else Window(row.value.start, row.value.count + 1)
  }

  // ----- Interleaved requests -----

  predicate Enabled(l: Limits, s: State, a: Action) {
    match a
    case Tick(now) => s.clock <= now
    case Check(r, now) =>
      && now <= s.clock && r !in s.unlocked && s.holder.None?
      && (s.row.Some? ==> !Limited(l, s.row.value, now))
    case Count(r) =>
      if s.holder.Some? then s.holder.value.request == r else r in s.unlocked
    case Abort(_) => true
  }

  function AfterCount(l: Limits, s: State, row: Option<Window>): State {
    var w := Counted(l, row, s.clock);
    s.(row := Some(w), log := s.log + [Admission(s.clock, w.start, w.count)])
  }

  function Apply(l: Limits, s: State, a: Action): State
    requires Enabled(l, s, a)
  {
    match a
    case Tick(now) => s.(clock := now)
    case Check(r, now) =>
      if s.row.Some? then s.(holder := Some(Holder(r, Checked(l, s.row.value, now))))
      else s.(unlocked := s.unlocked + {r})
    case Count(r) =>
      if s.holder.Some? then AfterCount(l, s, Some(s.holder.value.row)).(holder := None)
      else AfterCount(l, s, s.row).(unlocked := s.unlocked - {r})
    case Abort(r) =>
      s.(unlocked := s.unlocked - {r},
         holder := if s.holder.Some? && s.holder.value.request == r then None else s.holder)
  }

  ghost predicate Legal(l: Limits, s: State, run: seq<Action>)
    decreases |run|
  {
    run == [] || (Enabled(l, s, run[0]) && Legal(l, Apply(l, s, run[0]), run[1..]))
  }

  ghost function After(l: Limits, s: State, run: seq<Action>): State
    requires Legal(l, s, run)
    decreases |run|
  {
    if run == [] then s else After(l, Apply(l, s, run[0]), run[1..])
  }

  /** No request is under way and none was admitted yet; the row may exist from before, with any count. */
  predicate Initial(s: State) {
    && s.holder.None? && s.unlocked == {} && s.log == []
    && (s.row.Some? ==> s.row.value.start <= s.clock)
  }

  // ----- Invariant once the row exists -----

  /** The next admission counts on in the same window, or opens one at least a window later. */
  predicate Follows(l: Limits, a: Admission, b: Admission) {
    && a.at <= b.at
    && (if a.start == b.start then b.ordinal == a.ordinal + 1 else a.start + l.length <= b.start)
  }

  predicate InWindow(l: Limits, a: Admission) {
    a.start <= a.at < a.start + l.length && 1 <= a.ordinal <= l.maximum
  }

  ghost predicate LogOk(l: Limits, log: seq<Admission>) {
    && (forall i :: 0 <= i < |log| ==> InWindow(l, log[i]))
    && (forall i :: 0 <= i < |log| - 1 ==> Follows(l, log[i], log[i + 1]))
  }

  /** The row goes on from the last admission. */
  ghost predicate Continues(l: Limits, s: State, w: Window) {
    && w.start <= s.clock && (s.log == [] || w.count <= l.maximum)
    && (s.log != [] ==>
          var last := s.log[|s.log| - 1];
          last.at <= s.clock
          && (if last.start == w.start then w.count == last.ordinal else last.start + l.length <= w.start))
  }

  ghost predicate Inv(l: Limits, s: State) {
    && s.unlocked == {} && s.row.Some? && Continues(l, s, s.row.value) && LogOk(l, s.log)
    && (s.holder.Some? ==> Continues(l, s, s.holder.value.row) && s.holder.value.row.count < l.maximum)
  }

  lemma CountKeepsInv(l: Limits, s: State, w: Window)
    requires Sane(l) && Inv(l, s) && Continues(l, s, w) && w.count < l.maximum
    ensures Inv(l, AfterCount(l, s, Some(w)).(holder := None))
  {
    var v := AfterCount(l, s, Some(w));
    var n := |s.log|;
    assert InWindow(l, v.log[n]);
    if n > 0 { assert Follows(l, s.log[n - 1], v.log[n]); }
    forall i | 0 <= i < |v.log| ensures InWindow(l, v.log[i]) { if i < n { assert v.log[i] == s.log[i]; } }
  }

  lemma StepKeepsInv(l: Limits, s: State, a: Action)
    requires Sane(l) && Inv(l, s) && Enabled(l, s, a)
    ensures Inv(l, Apply(l, s, a))
  {
    if a.Count? { CountKeepsInv(l, s, s.holder.value.row); }
  }

  lemma {:induction false} RunKeepsInv(l: Limits, s: State, run: seq<Action>)
    requires Sane(l) && Inv(l, s) && Legal(l, s, run)
    ensures Inv(l, After(l, s, run))
    decreases |run|
  {
    if run == [] {
    } else {
      StepKeepsInv(l, s, run[0]);
      RunKeepsInv(l, Apply(l, s, run[0]), run[1..]);
    }
  }

  // ----- The sliding bound -----

  /** Starts and times never decrease, and admissions of one window count up. */
  lemma {:induction false} LogSpread(l: Limits, log: seq<Admission>, i: nat, j: nat)
    requires Sane(l) && LogOk(l, log) && i <= j < |log|
    ensures log[i].at <= log[j].at
    ensures if log[i].start == log[j].start then log[j].ordinal - log[i].ordinal == j - i
            else log[i].start + l.length <= log[j].start
    decreases j - i
  {
    if i >= j {
    } else {
      LogSpread(l, log, i, j - 1);
      assert Follows(l, log[j - 1], log[j - 1 + 1]);
    }
  }

  /** Any `2 * maximum + 1` admissions in a row span more than the window length. */
  lemma FarApart(l: Limits, log: seq<Admission>, i: nat)
    requires Sane(l) && LogOk(l, log) && i + 2 * l.maximum < |log|
    ensures log[i].at + l.length < log[i + 2 * l.maximum].at
  {
    var j, k := i + l.maximum, i + 2 * l.maximum;
    LogSpread(l, log, i, j);
    LogSpread(l, log, j, k);
    assert InWindow(l, log[i]) && InWindow(l, log[j]) && InWindow(l, log[k]);
  }

  /** The admissions in the half-open interval of window length that begins at `from`. */
  function Within(l: Limits, log: seq<Admission>, from: int): set<nat> {
    set i: nat | i < |log| && from <= log[i].at < from + l.length
  }

  ghost predicate Bounded(l: Limits, log: seq<Admission>) {
    forall from: int :: |Within(l, log, from)| <= 2 * l.maximum
  }

  function Upto(n: nat): (s: set<nat>)
    ensures |s| == n && forall i: nat :: i in s <==> i < n
  {
    if n == 0 then {} else Upto(n - 1) + {n - 1}
  }

  lemma {:induction false} RangeSize(low: nat, s: set<nat>, width: nat)
    requires forall i :: i in s ==> low <= i < low + width
    ensures |s| <= width
    decreases width
  {
    if width == 0 {
      assert s == {};
    } else {
      RangeSize(low, s - {low + width - 1}, width - 1);
    }
  }

  lemma {:induction false} SmallestIndex(s: set<nat>) returns (low: nat)
    requires s != {}
    ensures low in s && forall i :: i in s ==> low <= i
  {
    low :| low in s;
    if s == {low} {
    } else {
      var other := SmallestIndex(s - {low});
      forall i | i in s ensures (if low <= other then low else other) <= i { assert i == low || i in s - {low}; }
      if other < low { low := other; }
    }
  }

  lemma LogIsBounded(l: Limits, log: seq<Admission>, from: int)
    requires Sane(l) && LogOk(l, log)
    ensures |Within(l, log, from)| <= 2 * l.maximum
  {
    var s := Within(l, log, from);
    if s != {} {
      var low := SmallestIndex(s);
      forall i | i in s ensures low <= i < low + 2 * l.maximum {
        if low + 2 * l.maximum <= i {
          FarApart(l, log, low);
          LogSpread(l, log, low + 2 * l.maximum, i);
        }
      }
      RangeSize(low, s, 2 * l.maximum);
    }
  }

  // ----- Without a row, concurrent first requests all pass -----

  ghost predicate Reaches(l: Limits, s: State, v: State) {
    exists run :: Legal(l, s, run) && After(l, s, run) == v
  }

  lemma ReachesSelf(l: Limits, s: State)
    ensures Reaches(l, s, s)
  {
    assert Legal(l, s, []) && After(l, s, []) == s;
  }

  lemma ReachesByStep(l: Limits, s: State, a: Action, v: State)
    requires Enabled(l, s, a) && Reaches(l, Apply(l, s, a), v)
    ensures Reaches(l, s, v)
  {
    var run :| Legal(l, Apply(l, s, a), run) && After(l, Apply(l, s, a), run) == v;
    assert ([a] + run)[1..] == run;
    assert Legal(l, s, [a] + run) && After(l, s, [a] + run) == v;
  }

  /** `n` requests are past the check, `m` admissions at the same instant are counted. */
  function Crowd(s: State, m: nat, n: nat): State {
    s.(unlocked := Upto(n), row := if m == 0 then s.row else Some(Window(s.clock, m)),
       log := seq(m, i requires 0 <= i < m => Admission(s.clock, s.clock, i + 1)))
  }

  lemma CrowdStep(l: Limits, s: State, m: nat, n: nat)
    requires Sane(l) && s.row.None? && s.holder.None? && n > 0
    ensures Enabled(l, Crowd(s, m, n), Count(n - 1))
    ensures Apply(l, Crowd(s, m, n), Count(n - 1)) == Crowd(s, m + 1, n - 1)
  {
    var v := Apply(l, Crowd(s, m, n), Count(n - 1));
    assert v.unlocked == Upto(n) - {n - 1} == Upto(n - 1);
    assert v.row == Some(Window(s.clock, m + 1));
    assert v.log == Crowd(s, m + 1, n - 1).log;
  }

  lemma {:induction false} CrowdCounts(l: Limits, s: State, m: nat, n: nat)
    requires Sane(l) && s.row.None? && s.holder.None?
    ensures Reaches(l, Crowd(s, m, n), Crowd(s, m + n, 0))
    decreases n
  {
    if n == 0 {
      ReachesSelf(l, Crowd(s, m, 0));
    } else {
      CrowdCounts(l, s, m + 1, n - 1);
      var y, a := Crowd(s, m, n), Count(n - 1);
      CrowdStep(l, s, m, n);
      assert m + 1 + (n - 1) == m + n;
      ReachesByStep(l, y, a, Crowd(s, m + n, 0));
    }
  }

  lemma {:induction false} CrowdGathers(l: Limits, s: State, k: nat, n: nat)
    requires Sane(l) && s.row.None? && s.holder.None? && k <= n
    ensures Reaches(l, Crowd(s, 0, k), Crowd(s, n, 0))
    decreases n - k
  {
    if k == n {
      CrowdCounts(l, s, 0, n);
    } else {
      CrowdGathers(l, s, k + 1, n);
      var y, a := Crowd(s, 0, k), Check(k, s.clock);
      assert Upto(k) + {k} == Upto(k + 1);
      assert Apply(l, y, a) == Crowd(s, 0, k + 1);
      ReachesByStep(l, y, a, Crowd(s, n, 0));
    }
  }

  lemma CrowdIsUnbounded(l: Limits, s: State, n: nat)
    requires Sane(l) && n > 2 * l.maximum
    ensures !Bounded(l, Crowd(s, n, 0).log)
  {
    var log := Crowd(s, n, 0).log;
    assert Within(l, log, s.clock) == Upto(n);
  }

  // ----- Results -----

  ghost predicate AlwaysBounded(l: Limits, s: State) {
    forall run :: Legal(l, s, run) ==> Bounded(l, After(l, s, run).log)
  }

  /** At most twice the maximum is admitted in any interval of window length, whatever the
      interleaving: this holds exactly if the subject already has a row. */
  lemma BoundedIffRowExists(l: Limits, s: State)
    requires Sane(l) && Initial(s)
    ensures AlwaysBounded(l, s) <==> s.row.Some?
  {
    if s.row.Some? {
      forall run | Legal(l, s, run) ensures Bounded(l, After(l, s, run).log) {
        RunKeepsInv(l, s, run);
        forall from: int ensures |Within(l, After(l, s, run).log, from)| <= 2 * l.maximum {
          LogIsBounded(l, After(l, s, run).log, from);
        }
      }
    } else {
      var n := 2 * l.maximum + 1;
      CrowdGathers(l, s, 0, n);
      assert Crowd(s, 0, 0) == s;
      var run :| Legal(l, s, run) && After(l, s, run) == Crowd(s, n, 0);
      CrowdIsUnbounded(l, s, n);
    }
  }

  /** A first request that no other one overlaps makes the bound hold from then on. */
  lemma FirstAlone(l: Limits, s: State, r: Id, now: int, later: int, run: seq<Action>)
    requires Sane(l) && Initial(s) && s.row.None? && now <= s.clock <= later
    requires Legal(l, s, [Check(r, now), Tick(later), Count(r)])
    requires var v := After(l, s, [Check(r, now), Tick(later), Count(r)]); Legal(l, v, run)
    ensures var v := After(l, s, [Check(r, now), Tick(later), Count(r)]);
            |v.log| == 1 && Bounded(l, After(l, v, run).log)
  {
    var first := [Check(r, now), Tick(later), Count(r)];
    assert first[1..] == [Tick(later), Count(r)] && first[1..][1..] == [Count(r)] && first[1..][1..][1..] == [];
    var s1 := Apply(l, s, Check(r, now));
    var s2 := Apply(l, s1, Tick(later));
    var v := Apply(l, s2, Count(r));
    assert After(l, s, first) == After(l, s1, first[1..]) == After(l, s2, [Count(r)]) == After(l, v, []) == v;
    assert v.unlocked == {};
    assert Inv(l, v);
    RunKeepsInv(l, v, run);
    forall from: int ensures |Within(l, After(l, v, run).log, from)| <= 2 * l.maximum {
      LogIsBounded(l, After(l, v, run).log, from);
    }
  }

  /** In one window at most the maximum is admitted, and windows start at least their length apart. */
  lemma WindowsAreFull(l: Limits, s: State, run: seq<Action>, i: nat, j: nat)
    requires Sane(l) && Initial(s) && s.row.Some? && Legal(l, s, run) && i <= j < |After(l, s, run).log|
    ensures var log := After(l, s, run).log;
            if log[i].start == log[j].start then j - i < l.maximum else log[i].start + l.length <= log[j].start
  {
    RunKeepsInv(l, s, run);
    var log := After(l, s, run).log;
    LogSpread(l, log, i, j);
    assert InWindow(l, log[i]) && InWindow(l, log[j]);
  }

  /** The reported wait is within a second of the true one. Waiting a second longer than reported
      always suffices; exactly the reported time suffices iff the wait is less than a second or a
      whole number of them. */
  lemma RetryAfterIsClose(l: Limits, w: Window, now: int)
    requires Sane(l) && Limited(l, w, now)
    ensures var r := RetryAfter(l, w, now);
            && r >= 1 && -SECOND < Remaining(l, w, now) - r * SECOND < SECOND
            && !Limited(l, w, now + (r + 1) * SECOND)
            && (!Limited(l, w, now + r * SECOND)
                <==> Remaining(l, w, now) < SECOND || Remaining(l, w, now) % SECOND == 0)
    ensures forall t: int :: t >= now ==> (Limited(l, w, t) <==> t - now < Remaining(l, w, now))
  {
  }
}
