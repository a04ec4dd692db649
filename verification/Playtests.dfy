/**
 Playtest sessions: arrangement, confirmations, start or cancellation, and the recorded result.
 Every operation holds the session row, so a run is a sequence of operations.
 */
module Playtests {
  import opened Base
  import opened Text

  datatype Status = Scheduled | Started | Cancelled

  datatype Completion = Completed | Interrupted

  type Digest = nat

  datatype Rules = Rules(name: string, description: Option<string>, content: string)

  datatype FileStatus = Pending | Ready | Failed

  /** A material file; its digest never changes. */
  datatype File = File(work: Id, status: FileStatus, sha: Digest)

  datatype Actual = Actual(account: Option<Id>, code: Option<string>, seat: Option<string>, score: Option<string>)

  datatype Material = Material(rules: Rules, changeReason: Option<string>)

  datatype Result = Result(
    headcount: Option<nat>, duration: Option<nat>, completion: Option<Completion>, mode: Option<string>,
    material: Option<Material>)

  datatype Session = Session(
    work: Id, status: Status, capacity: nat, revision: nat, rules: Rules, result: Result, actuals: seq<Actual>)

  datatype Seat = Seat(session: Id, account: Id)

  datatype Copy = Copy(session: Id, file: Id)

  /** `seats` says for each participant whether they confirmed; `planned` and `used` hold the digests
      of the materials copied into a session. */
  datatype Db = Db(
    files: map<Id, File>,
    current: map<Id, set<Id>>,
    sessions: map<Id, Session>,
    seats: map<Seat, bool>,
    planned: map<Copy, Digest>,
    used: map<Copy, Digest>)

  const NoResult := Result(None, None, None, None, None)

  // ----- Result drafts -----

  datatype MaterialDraft = MaterialDraft(
    name: string, description: Option<string>, content: string, files: seq<Id>, changeReason: Option<string>)

  datatype ResultDraft = ResultDraft(
    headcount: Option<int>, duration: Option<int>, completion: Option<Completion>, mode: Option<string>,
    actuals: seq<Actual>, material: Option<MaterialDraft>)

  predicate Natural(n: Option<int>) { n.Some? ==> n.value >= 0 }

  function NormalActual(a: Actual): Actual { Actual(a.account, Normal(a.code), Normal(a.seat), Normal(a.score)) }

  function NormalActuals(xs: seq<Actual>): seq<Actual> {
    seq(|xs|, k requires 0 <= k < |xs| => NormalActual(xs[k]))
  }

  /** Either a participant of the session or a temporary code. */
  predicate ActualOk(seats: map<Seat, bool>, s: Id, a: Actual) {
    && Fits(a.code, 160) && Fits(a.seat, 160) && Fits(a.score, 160)
    && (a.account.Some? <==> Normal(a.code).None?)
    && (a.account.Some? ==> Seat(s, a.account.value) in seats)
  }

  predicate SamePerson(a: Actual, b: Actual) {
    if a.account.Some? then a.account == b.account else b.account.None? && Normal(a.code) == Normal(b.code)
  }

  predicate ActualsOk(seats: map<Seat, bool>, s: Id, xs: seq<Actual>) {
    && (forall k :: 0 <= k < |xs| ==> ActualOk(seats, s, xs[k]))
    && forall i, j :: 0 <= i < j < |xs| ==> !SamePerson(xs[i], xs[j])
  }

  predicate ReadyIn(files: map<Id, File>, work: Id, f: Id) {
    f in files && files[f].work == work && files[f].status.Ready?
  }

  predicate NoRepeat(fs: seq<Id>) { forall i, j :: 0 <= i < j < |fs| ==> fs[i] != fs[j] }

  function PlannedOf(db: Db, s: Id): set<(Id, Digest)> {
    set c | c in db.planned && c.session == s :: (c.file, db.planned[c])
  }

  function Digests(files: map<Id, File>, fs: seq<Id>): set<(Id, Digest)>
    requires forall f :: f in fs ==> f in files
  {
    set f | f in fs :: (f, files[f].sha)
  }

  function DraftRules(m: MaterialDraft): Rules { Rules(Trimmed(m.name), Normal(m.description), Trimmed(m.content)) }

  predicate Changed(db: Db, s: Id, m: MaterialDraft)
    requires s in db.sessions && forall f :: f in m.files ==> f in db.files
  {
    DraftRules(m) != db.sessions[s].rules || Digests(db.files, m.files) != PlannedOf(db, s)
  }

  /** A material that differs from the planned one needs a reason. */
  predicate MaterialOk(db: Db, s: Id, m: MaterialDraft)
    requires s in db.sessions
  {
    && Required(m.name, 160).Some? && Fits(m.description, 4000) && Required(m.content, 20000).Some?
    && NoRepeat(m.files) && (forall f :: f in m.files ==> ReadyIn(db.files, db.sessions[s].work, f))
    && Fits(m.changeReason, 4000)
    && (Changed(db, s, m) ==> Normal(m.changeReason).Some?)
  }

  predicate DraftOk(db: Db, s: Id, d: ResultDraft)
    requires s in db.sessions
  {
    && Natural(d.headcount) && Natural(d.duration) && Fits(d.mode, 160)
    && ActualsOk(db.seats, s, d.actuals)
    && (d.headcount.Some? ==> |d.actuals| <= d.headcount.value)
    && (d.material.Some? ==> MaterialOk(db, s, d.material.value))
  }

  function ResultOf(db: Db, s: Id, d: ResultDraft): Result
    requires s in db.sessions && DraftOk(db, s, d)
  {
    Result(
      if d.headcount.Some? then Some(d.headcount.value as nat) else None,
      if d.duration.Some? then Some(d.duration.value as nat) else None,
      d.completion, Normal(d.mode),
      if d.material.None? then None
      else Some(Material(DraftRules(d.material.value),
                         if Changed(db, s, d.material.value) then Normal(d.material.value.changeReason) else None)))
  }

  // ----- Operations -----

  datatype Action =
    | CreateSession(s: Id, work: Id, capacity: nat, accounts: set<Id>, fs: set<Id>, rules: Rules)
    | Confirm(s: Id, account: Id)
    | Rearrange(s: Id, capacity: nat, expected: nat)
    | ReplaceMaterials(s: Id, fs: set<Id>, rules: Rules, expected: nat)
    | Start(s: Id, expected: nat)
    | Cancel(s: Id, expected: nat)
    | SaveResult(s: Id, draft: ResultDraft, expected: nat)
    | Observe(s: Id, expected: nat)
    | AddFile(f: Id, row: File)
    | FinishFile(f: Id, to: FileStatus)
    | Publish(work: Id, fs: set<Id>)

  function Confirmed(db: Db, s: Id): set<Id> {
    set p | p in db.seats && p.session == s && db.seats[p] :: p.account
  }

  predicate AtRevision(db: Db, s: Id, expected: nat, status: Status) {
    s in db.sessions && db.sessions[s].revision == expected && db.sessions[s].status == status
  }

  /** A session copies only rules that have a name and a content. */
  predicate Playable(rules: Rules) { Trimmed(rules.name) != "" && Trimmed(rules.content) != "" }

  predicate Selectable(db: Db, work: Id, fs: set<Id>) {
    fs != {} && work in db.current && fs <= db.current[work] && forall f :: f in fs ==> ReadyIn(db.files, work, f)
  }

  predicate MayConfirm(db: Db, s: Id, account: Id) {
    && s in db.sessions && Seat(s, account) in db.seats && db.sessions[s].status.Scheduled?
    && (db.seats[Seat(s, account)] || |Confirmed(db, s)| < db.sessions[s].capacity)
  }

  predicate Enabled(db: Db, a: Action) {
    match a
    case CreateSession(s, work, capacity, _, fs, rules) =>
      s !in db.sessions && capacity > 0 && Selectable(db, work, fs) && Playable(rules)
    case Confirm(s, account) => MayConfirm(db, s, account)
    case Rearrange(s, capacity, expected) =>
      AtRevision(db, s, expected, Scheduled) && capacity > 0 && |Confirmed(db, s)| <= capacity
    case ReplaceMaterials(s, fs, rules, expected) =>
      AtRevision(db, s, expected, Scheduled) && Selectable(db, db.sessions[s].work, fs) && Playable(rules)
    case Start(s, expected) => AtRevision(db, s, expected, Scheduled)
    case Cancel(s, expected) => AtRevision(db, s, expected, Scheduled)
    case SaveResult(s, draft, expected) => AtRevision(db, s, expected, Started) && DraftOk(db, s, draft)
    case Observe(s, expected) => AtRevision(db, s, expected, Started)
    case AddFile(f, row) => f !in db.files && row.status.Pending?
    case FinishFile(f, to) => f in db.files && db.files[f].status.Pending? && !to.Pending?
    case Publish(work, fs) => forall f :: f in fs ==> ReadyIn(db.files, work, f)
  }

  /** The materials of one session are replaced by copies of these files. */
  function Copied(table: map<Copy, Digest>, s: Id, fs: set<Id>, files: map<Id, File>): map<Copy, Digest>
    requires forall f :: f in fs ==> f in files
  {
    WithoutSession(table, s) + Copies(s, fs, files)
  }

  function Copies(s: Id, fs: set<Id>, files: map<Id, File>): (copies: map<Copy, Digest>)
    requires forall f :: f in fs ==> f in files
    ensures forall c :: c in copies <==> c.session == s && c.file in fs
    ensures forall c :: c in copies ==> copies[c] == files[c.file].sha
  {
    map f | f in fs :: Copy(s, f) := files[f].sha
  }

  function WithoutSession(table: map<Copy, Digest>, s: Id): map<Copy, Digest> {
    map c | c in table && c.session != s :: table[c]
  }

  function NewSeats(seats: map<Seat, bool>, s: Id, accounts: set<Id>): map<Seat, bool> {
    map p | p in seats.Keys + SeatsOf(s, accounts) :: p in seats && seats[p]
  }

  function SeatsOf(s: Id, accounts: set<Id>): (ps: set<Seat>)
    ensures forall p :: p in ps <==> p.session == s && p.account in accounts
  {
    set a | a in accounts :: Seat(s, a)
  }

  function Bumped(x: Session): Session { x.(revision := x.revision + 1) }

  function FileSet(m: Option<MaterialDraft>): set<Id> {
    if m.None? then {} else set f | f in m.value.files
  }

  function Apply(db: Db, a: Action): Db
    requires Enabled(db, a)
  {
    match a
    case CreateSession(s, work, capacity, accounts, fs, rules) =>
      db.(sessions := db.sessions[s := Session(work, Scheduled, capacity, 1, rules, NoResult, [])],
          seats := NewSeats(db.seats, s, accounts),
          planned := Copied(db.planned, s, fs, db.files))
    case Confirm(s, account) => db.(seats := db.seats[Seat(s, account) := true])
    case Rearrange(s, capacity, _) =>
      db.(sessions := db.sessions[s := Bumped(db.sessions[s]).(capacity := capacity)])
    case ReplaceMaterials(s, fs, rules, _) => AfterReplace(db, s, fs, rules)
    case Start(s, _) => db.(sessions := db.sessions[s := Bumped(db.sessions[s]).(status := Started)])
    case Cancel(s, _) => db.(sessions := db.sessions[s := Bumped(db.sessions[s]).(status := Cancelled)])
    case SaveResult(s, draft, _) => AfterResult(db, s, draft)
    case Observe(s, _) => db.(sessions := db.sessions[s := Bumped(db.sessions[s])])
    case AddFile(f, row) => db.(files := db.files[f := row])
    case FinishFile(f, to) => db.(files := db.files[f := db.files[f].(status := to)])
    case Publish(work, fs) => db.(current := db.current[work := fs])
  }

  function AfterReplace(db: Db, s: Id, fs: set<Id>, rules: Rules): Db
    requires s in db.sessions && forall f :: f in fs ==> f in db.files
  {
    db.(sessions := db.sessions[s := Bumped(db.sessions[s]).(rules := rules)],
        planned := Copied(db.planned, s, fs, db.files))
  }

  function AfterResult(db: Db, s: Id, d: ResultDraft): Db
    requires s in db.sessions && DraftOk(db, s, d)
  {
    db.(sessions := db.sessions[s := Bumped(db.sessions[s]).(result := ResultOf(db, s, d),
                                                             actuals := NormalActuals(d.actuals))],
        used := Copied(db.used, s, FileSet(d.material), db.files))
  }

  ghost predicate Legal(db: Db, run: seq<Action>)
    decreases |run|
  {
    run == [] || (Enabled(db, run[0]) && Legal(Apply(db, run[0]), run[1..]))
  }

  ghost function After(db: Db, run: seq<Action>): Db
    requires Legal(db, run)
    decreases |run|
  {
    if run == [] then db else After(Apply(db, run[0]), run[1..])
  }

  ghost predicate Initial(db: Db) {
    && db.files == map[] && db.current == map[] && db.sessions == map[] && db.seats == map[]
    && db.planned == map[] && db.used == map[]
  }

  // ----- Invariant -----

  ghost predicate CopiesOk(db: Db, table: map<Copy, Digest>) {
    forall c :: c in table ==>
      && c.session in db.sessions && c.file in db.files && db.files[c.file].status.Ready?
      && table[c] == db.files[c.file].sha && db.files[c.file].work == db.sessions[c.session].work
  }

  /** Everybody recorded is a participant of the session or has a code, and nobody is there twice. */
  ghost predicate ResultOk(db: Db, s: Id)
    requires s in db.sessions
  {
    var x := db.sessions[s];
    && (x.result.headcount.Some? ==> |x.actuals| <= x.result.headcount.value)
    && ActualsOk(db.seats, s, x.actuals)
    && (!x.status.Started? ==> x.result == NoResult && x.actuals == [])
  }

  ghost predicate SessionOk(db: Db, s: Id)
    requires s in db.sessions
  {
    |Confirmed(db, s)| <= db.sessions[s].capacity && ResultOk(db, s)
  }

  ghost predicate Inv(db: Db) {
    && (forall p :: p in db.seats ==> p.session in db.sessions)
    && (forall s :: s in db.sessions ==> SessionOk(db, s))
    && CopiesOk(db, db.planned) && CopiesOk(db, db.used)
  }

  lemma NormalActualsOk(seats: map<Seat, bool>, s: Id, xs: seq<Actual>)
    requires ActualsOk(seats, s, xs)
    ensures ActualsOk(seats, s, NormalActuals(xs))
  {
    var ys := NormalActuals(xs);
    forall k | 0 <= k < |ys| ensures ActualOk(seats, s, ys[k]) && Normal(ys[k].code) == Normal(xs[k].code) {
      assert ActualOk(seats, s, xs[k]);
      NormalTwice(xs[k].code, 160);
      NormalTwice(xs[k].seat, 160);
      NormalTwice(xs[k].score, 160);
    }
    forall i, j | 0 <= i < j < |ys| ensures !SamePerson(ys[i], ys[j]) {
      assert !SamePerson(xs[i], xs[j]);
    }
  }

  lemma MoreSeats(seats: map<Seat, bool>, more: map<Seat, bool>, s: Id, xs: seq<Actual>)
    requires ActualsOk(seats, s, xs) && seats.Keys <= more.Keys
    ensures ActualsOk(more, s, xs)
  {
    forall k | 0 <= k < |xs| ensures ActualOk(more, s, xs[k]) { assert ActualOk(seats, s, xs[k]); }
  }

  lemma CopiedKeepsOk(db: Db, table: map<Copy, Digest>, s: Id, fs: set<Id>)
    requires CopiesOk(db, table) && s in db.sessions
    requires forall f :: f in fs ==> f in db.files && ReadyIn(db.files, db.sessions[s].work, f)
    ensures CopiesOk(db, Copied(table, s, fs, db.files))
  {
  }

  lemma SameWorksKeepCopies(db: Db, v: Db, table: map<Copy, Digest>)
    requires CopiesOk(db, table) && v.files == db.files
    requires forall s :: s in db.sessions ==> s in v.sessions && v.sessions[s].work == db.sessions[s].work
    ensures CopiesOk(v, table)
  {
  }

  lemma CreateKeepsCopies(db: Db, a: Action)
    requires Inv(db) && Enabled(db, a) && a.CreateSession?
    ensures CopiesOk(Apply(db, a), Apply(db, a).planned) && CopiesOk(Apply(db, a), Apply(db, a).used)
  {
    var v := Apply(db, a);
    SameWorksKeepCopies(db, v, db.planned);
    SameWorksKeepCopies(db, v, db.used);
    CopiedKeepsOk(v, db.planned, a.s, a.fs);
  }

  /** Row and seats of the session are as they were. */
  lemma UntouchedSession(db: Db, v: Db, s: Id)
    requires s in db.sessions && s in v.sessions && SessionOk(db, s) && v.sessions[s] == db.sessions[s]
    requires forall p: Seat :: p.session == s ==> (p in v.seats <==> p in db.seats)
    requires forall p: Seat :: p.session == s && p in db.seats ==> v.seats[p] == db.seats[p]
    ensures SessionOk(v, s)
  {
    assert Confirmed(v, s) == Confirmed(db, s);
  }

  lemma CreateKeepsInv(db: Db, a: Action)
    requires Inv(db) && Enabled(db, a) && a.CreateSession?
    ensures Inv(Apply(db, a))
  {
    var v := Apply(db, a);
    CreateKeepsCopies(db, a);
    forall s | s in v.sessions ensures SessionOk(v, s) {
      if s == a.s {
        assert Confirmed(v, s) == {};
      } else {
        UntouchedSession(db, v, s);
      }
    }
  }

  lemma ConfirmKeepsInv(db: Db, a: Action)
    requires Inv(db) && Enabled(db, a) && a.Confirm?
    ensures Inv(Apply(db, a))
  {
    var v := Apply(db, a);
    forall s | s in v.sessions ensures SessionOk(v, s) {
      if s == a.s { ConfirmKeepsSession(db, s, a.account); } else { UntouchedSession(db, v, s); }
    }
  }

  lemma ConfirmKeepsSession(db: Db, s: Id, account: Id)
    requires MayConfirm(db, s, account) && SessionOk(db, s)
    ensures SessionOk(db.(seats := db.seats[Seat(s, account) := true]), s)
  {
    var v := db.(seats := db.seats[Seat(s, account) := true]);
    MoreSeats(db.seats, v.seats, s, v.sessions[s].actuals);
    assert Confirmed(v, s) == Confirmed(db, s) + {account};
    if db.seats[Seat(s, account)] { assert Confirmed(v, s) == Confirmed(db, s); }
  }

  lemma ResultKeepsSessions(db: Db, s: Id, d: ResultDraft, expected: nat, t: Id)
    requires Inv(db) && AtRevision(db, s, expected, Started) && DraftOk(db, s, d) && t in db.sessions
    ensures var v := AfterResult(db, s, d); SessionOk(v, t)
  {
    if t == s { ResultKeepsSession(db, s, d, expected); } else { UntouchedSession(db, AfterResult(db, s, d), t); }
  }

  lemma ResultKeepsSession(db: Db, s: Id, d: ResultDraft, expected: nat)
    requires Inv(db) && AtRevision(db, s, expected, Started) && DraftOk(db, s, d)
    ensures SessionOk(AfterResult(db, s, d), s)
  {
    assert SessionOk(db, s);
    assert Confirmed(AfterResult(db, s, d), s) == Confirmed(db, s);
    NormalActualsOk(db.seats, s, d.actuals);
  }

  lemma DraftFilesAreReady(db: Db, s: Id, d: ResultDraft)
    requires s in db.sessions && DraftOk(db, s, d)
    ensures forall f :: f in FileSet(d.material) ==> f in db.files && ReadyIn(db.files, db.sessions[s].work, f)
  {
  }

  lemma ResultKeepsCopies(db: Db, s: Id, d: ResultDraft)
    requires Inv(db) && s in db.sessions && DraftOk(db, s, d)
    ensures CopiesOk(AfterResult(db, s, d), AfterResult(db, s, d).planned)
    ensures CopiesOk(AfterResult(db, s, d), AfterResult(db, s, d).used)
  {
    var v := AfterResult(db, s, d);
    DraftFilesAreReady(db, s, d);
    CopiedKeepsOk(db, db.used, s, FileSet(d.material));
    SameWorksKeepCopies(db, v, v.used);
    SameWorksKeepCopies(db, v, v.planned);
  }

  lemma ResultKeepsInv(db: Db, s: Id, d: ResultDraft, expected: nat)
    requires Inv(db) && AtRevision(db, s, expected, Started) && DraftOk(db, s, d)
    ensures Inv(AfterResult(db, s, d))
  {
    var v := AfterResult(db, s, d);
    ResultKeepsCopies(db, s, d);
    forall t | t in v.sessions ensures SessionOk(v, t) {
      ResultKeepsSessions(db, s, d, expected, t);
    }
  }

  lemma RowKeepsInv(db: Db, s: Id, row: Session, planned: map<Copy, Digest>)
    requires Inv(db) && s in db.sessions && row.work == db.sessions[s].work
    requires row.result == db.sessions[s].result && row.actuals == db.sessions[s].actuals
    requires row.status == db.sessions[s].status || db.sessions[s].status.Scheduled?
    requires |Confirmed(db, s)| <= row.capacity && CopiesOk(db, planned)
    ensures Inv(db.(sessions := db.sessions[s := row], planned := planned))
  {
    var v := db.(sessions := db.sessions[s := row], planned := planned);
    SameWorksKeepCopies(db, v, planned);
    SameWorksKeepCopies(db, v, db.used);
    forall t | t in v.sessions ensures SessionOk(v, t) {
      if t == s { RowKeepsSession(db, s, row, v); } else { UntouchedSession(db, v, t); }
    }
  }

  lemma RowKeepsSession(db: Db, s: Id, row: Session, v: Db)
    requires s in db.sessions && SessionOk(db, s) && s in v.sessions && v.sessions[s] == row && v.seats == db.seats
    requires row.result == db.sessions[s].result && row.actuals == db.sessions[s].actuals
    requires row.status == db.sessions[s].status || db.sessions[s].status.Scheduled?
    requires |Confirmed(db, s)| <= row.capacity
    ensures SessionOk(v, s)
  {
    SameConfirmed(db, v, s);
  }

  lemma SameConfirmed(db: Db, v: Db, s: Id)
    requires forall p: Seat :: p.session == s ==> (p in v.seats && v.seats[p] <==> p in db.seats && db.seats[p])
    ensures Confirmed(v, s) == Confirmed(db, s)
  {
    forall x ensures x in Confirmed(v, s) <==> x in Confirmed(db, s) {
      assert x in Confirmed(v, s) <==> Seat(s, x) in v.seats && v.seats[Seat(s, x)];
      assert x in Confirmed(db, s) <==> Seat(s, x) in db.seats && db.seats[Seat(s, x)];
    }
  }

  /** The rows of ready files stay. */
  lemma FilesKeepInv(db: Db, files: map<Id, File>, current: map<Id, set<Id>>)
    requires Inv(db)
    requires forall f :: f in db.files && db.files[f].status.Ready? ==> f in files && files[f] == db.files[f]
    ensures Inv(db.(files := files, current := current))
  {
    var v := db.(files := files, current := current);
    forall s | s in v.sessions ensures SessionOk(v, s) { UntouchedSession(db, v, s); }
  }

  lemma FileKeepsInv(db: Db, a: Action)
    requires Inv(db) && Enabled(db, a) && (a.AddFile? || a.FinishFile? || a.Publish?)
    ensures Inv(Apply(db, a))
  {
    FilesKeepInv(db, Apply(db, a).files, Apply(db, a).current);
  }

  lemma ManagedKeepsInv(db: Db, a: Action)
    requires Inv(db) && Enabled(db, a) && (a.Rearrange? || a.Start? || a.Cancel? || a.Observe?)
    ensures Inv(Apply(db, a))
  {
    assert SessionOk(db, a.s);
    RowKeepsInv(db, a.s, Apply(db, a).sessions[a.s], db.planned);
  }

  lemma ReplaceKeepsInv(db: Db, s: Id, fs: set<Id>, rules: Rules)
    requires Inv(db) && s in db.sessions && Selectable(db, db.sessions[s].work, fs)
    ensures Inv(AfterReplace(db, s, fs, rules))
  {
    assert SessionOk(db, s);
    CopiedKeepsOk(db, db.planned, s, fs);
    RowKeepsInv(db, s, Bumped(db.sessions[s]).(rules := rules), Copied(db.planned, s, fs, db.files));
  }

  lemma StepKeepsInv(db: Db, a: Action)
    requires Inv(db) && Enabled(db, a)
    ensures Inv(Apply(db, a))
  {
    match a
    case CreateSession(_, _, _, _, _, _) => CreateKeepsInv(db, a);
    case Confirm(_, _) => ConfirmKeepsInv(db, a);
    case ReplaceMaterials(s, fs, rules, _) => ReplaceKeepsInv(db, s, fs, rules);
    case SaveResult(s, d, expected) => ResultKeepsInv(db, s, d, expected);
    case AddFile(_, _) => FileKeepsInv(db, a);
    case FinishFile(_, _) => FileKeepsInv(db, a);
    case Publish(_, _) => FileKeepsInv(db, a);
    case _ => ManagedKeepsInv(db, a);
  }

  lemma {:induction false} RunKeepsInv(db: Db, run: seq<Action>)
    requires Inv(db) && Legal(db, run)
    ensures Inv(After(db, run))
    decreases |run|
  {
    if run == [] {
    } else {
      StepKeepsInv(db, run[0]);
      RunKeepsInv(Apply(db, run[0]), run[1..]);
    }
  }

  // ----- Results -----

  /** Whatever the interleaving, no session has more confirmations than its capacity. */
  lemma CapacityHolds(db: Db, run: seq<Action>, s: Id)
    requires Initial(db) && Legal(db, run) && s in After(db, run).sessions
    ensures |Confirmed(After(db, run), s)| <= After(db, run).sessions[s].capacity
  {
    RunKeepsInv(db, run);
  }

  predicate Manages(a: Action, s: Id) {
    match a
    case Rearrange(t, _, _) => s == t
    case ReplaceMaterials(t, _, _, _) => s == t
    case Start(t, _) => s == t
    case Cancel(t, _) => s == t
    case SaveResult(t, _, _) => s == t
    case Observe(t, _) => s == t
    case _ => false
  }

  function Expected(a: Action): nat
    requires exists s :: Manages(a, s)
  {
    a.expected
  }

  /** The status leaves `scheduled` once and for all, and then nobody's confirmation changes. */
  ghost predicate Follows(db: Db, v: Db, s: Id) {
    && s in db.sessions && s in v.sessions
    && db.sessions[s].revision <= v.sessions[s].revision && db.sessions[s].work == v.sessions[s].work
    && (!db.sessions[s].status.Scheduled? ==>
          v.sessions[s].status == db.sessions[s].status && Confirmed(v, s) == Confirmed(db, s))
  }

  lemma StepKeepsConfirmed(db: Db, a: Action, s: Id)
    requires Enabled(db, a) && s in db.sessions && (a.Confirm? ==> a.s != s)
    ensures Confirmed(Apply(db, a), s) == Confirmed(db, s)
  {
    SameConfirmed(db, Apply(db, a), s);
  }

  lemma StepRevises(db: Db, a: Action, s: Id)
    requires Enabled(db, a) && s in db.sessions
    ensures s in Apply(db, a).sessions
    ensures var x, y := db.sessions[s], Apply(db, a).sessions[s];
            && (Manages(a, s) ==> Expected(a) == x.revision && y.revision == x.revision + 1 && y.work == x.work)
            && (!x.status.Scheduled? ==> y.status == x.status)
            && (!Manages(a, s) ==> y == x)
  {
  }

  lemma StepFollows(db: Db, a: Action, s: Id)
    requires Enabled(db, a) && s in db.sessions
    ensures Follows(db, Apply(db, a), s)
  {
    StepRevises(db, a, s);
    if a.Confirm? && a.s == s {
      assert db.sessions[s].status.Scheduled?;
    } else {
      StepKeepsConfirmed(db, a, s);
    }
  }

  lemma {:induction false} RunFollows(db: Db, run: seq<Action>, s: Id)
    requires Legal(db, run) && s in db.sessions
    ensures Follows(db, After(db, run), s)
    decreases |run|
  {
    if run == [] {
    } else {
      StepFollows(db, run[0], s);
      RunFollows(Apply(db, run[0]), run[1..], s);
    }
  }

  /** Once a session left `scheduled`, its status and its confirmations stay. */
  lemma ConfirmationsFreeze(db: Db, run: seq<Action>, s: Id)
    requires Legal(db, run) && s in db.sessions && !db.sessions[s].status.Scheduled?
    ensures s in After(db, run).sessions && After(db, run).sessions[s].status == db.sessions[s].status
    ensures Confirmed(After(db, run), s) == Confirmed(db, s)
  {
    RunFollows(db, run, s);
  }

  /** Every managed change raises the revision by one, so no two accepted ones expect the same. */
  lemma OneChangePerRevision(db: Db, a: Action, run: seq<Action>, b: Action, s: Id)
    requires Enabled(db, a) && s in db.sessions && Manages(a, s) && Manages(b, s)
    requires Legal(Apply(db, a), run) && Enabled(After(Apply(db, a), run), b)
    ensures Expected(a) < Expected(b)
  {
    StepRevises(db, a, s);
    RunFollows(Apply(db, a), run, s);
    StepRevises(After(Apply(db, a), run), b, s);
  }

  // ----- Recovery checks -----

  /** The rows that the material checks count: no file, not ready, or another digest. */
  function WrongCopies(files: map<Id, File>, table: map<Copy, Digest>): set<Copy> {
    set c | c in table && !(c.file in files && files[c.file].status.Ready? && files[c.file].sha == table[c])
  }

  /** The rows that the `actual_participants` check counts. */
  function OverfullSessions(db: Db): set<Id> {
    set s | s in db.sessions && db.sessions[s].result.headcount.Some?
            && |db.sessions[s].actuals| > db.sessions[s].result.headcount.value
  }

  lemma PlaytestChecksPass(db: Db, run: seq<Action>)
    requires Initial(db) && Legal(db, run)
    ensures var v := After(db, run);
            |WrongCopies(v.files, v.planned)| == 0 && |WrongCopies(v.files, v.used)| == 0 && |OverfullSessions(v)| == 0
  {
    var v := After(db, run);
    RunKeepsInv(db, run);
    assert forall s :: s in v.sessions ==> ResultOk(v, s);
    assert WrongCopies(v.files, v.planned) == {} && WrongCopies(v.files, v.used) == {} && OverfullSessions(v) == {};
  }

  /** What was used differs from the plan only with a recorded reason. */
  lemma UnexplainedResultMatchesPlan(db: Db, s: Id, d: ResultDraft, f: Id)
    requires s in db.sessions && DraftOk(db, s, d) && d.material.Some?
    requires ResultOf(db, s, d).material.value.changeReason.None?
    ensures var v := AfterResult(db, s, d);
            && ResultOf(db, s, d).material.value.rules == db.sessions[s].rules
            && (Copy(s, f) in v.used <==> Copy(s, f) in db.planned)
            && (Copy(s, f) in v.used ==> v.used[Copy(s, f)] == db.planned[Copy(s, f)])
  {
    var fs := d.material.value.files;
    assert Digests(db.files, fs) == PlannedOf(db, s);
    if Copy(s, f) in db.planned { assert (f, db.planned[Copy(s, f)]) in PlannedOf(db, s); }
    if f in fs { assert (f, db.files[f].sha) in Digests(db.files, fs); }
  }
}
