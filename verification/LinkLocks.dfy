/**
 Linking issues to feedback submissions while participants change their feedback. Both sides run
 as transactions of several lock steps. A linker first reads every referenced submission, then
 takes the row of each one FOR KEY SHARE and an advisory lock on its identifier, and looks at the
 status it read with the row. A saver takes the row FOR UPDATE; when it turns a submitted row into
 a draft it takes the advisory lock and looks for links; when it submits a draft it inserts the
 todos that maintainers lack, and their foreign key takes the work row FOR KEY SHARE. All locks
 last until the transaction ends.

 `key` maps a submission to its advisory lock key, a 64-bit hash: two submissions may share one.
 The transactions modelled are those of one work. Creating an issue first takes the work row FOR
 UPDATE.
 */
module LinkLocks {
  import opened Base

  datatype SubStatus = Draft | Submitted

  datatype LinkPhase =
    | AtWork                                        // waits for the work row
    | AtCheck(seen: nat)                            // has read the first references without a lock
    | AtRow(next: nat)                              // waits for the row of reference `next`, or commits
    | AtAdvisory(at: nat, read: Option<SubStatus>)  // waits for the advisory lock of reference `at`

  /** `asking` are the accounts that get a todo. */
  datatype SavePhase =
    | SaveAtRow
    | SaveAtAdvisory
    | SaveAtWork(asking: set<Id>)                   // waits for the work row
    | SaveAtCommit(guarded: bool, asking: set<Id>)

  datatype Tx =
    | Linker(creates: bool, refs: seq<Id>, link: LinkPhase)
    | Saver(sub: Id, to: SubStatus, save: SavePhase)

  /** A maintainer's todo about a submission. */
  datatype Todo = Todo(account: Id, sub: Id)

  /** Committed submissions, links, maintainers and todos, and the open transactions. */
  datatype Sys = Sys(
    subs: map<Id, SubStatus>, links: set<Id>, maintainers: set<Id>, todos: set<Todo>, txs: map<Id, Tx>)

  datatype Action =
    | Submit(sub: Id, status: SubStatus)
    | Unlink(sub: Id)
    | SetMaintainers(accounts: set<Id>)
    | DeleteTodos(gone: set<Todo>)
    | Begin(t: Id, tx: Tx)
    | Abort(t: Id)
    | Proceed(t: Id)

  // ----- Which locks a transaction holds -----

  function RowsTaken(tx: Tx): nat
    requires tx.Linker?
  {
    match tx.link case AtWork => 0 case AtCheck(_) => 0 case AtRow(i) => i case AtAdvisory(i, _) => i + 1
  }

  function KeysTaken(tx: Tx): nat
    requires tx.Linker?
  {
    match tx.link case AtWork => 0 case AtCheck(_) => 0 case AtRow(i) => i case AtAdvisory(i, _) => i
  }

  /** How many references it has found submitted. */
  function Checked(tx: Tx): nat
    requires tx.Linker?
  {
    match tx.link case AtWork => 0 case AtCheck(i) => i case _ => |tx.refs|
  }

  predicate SharesRow(tx: Tx, s: Id) {
    tx.Linker? && exists j :: 0 <= j < RowsTaken(tx) && j < |tx.refs| && tx.refs[j] == s
  }

  predicate OwnsRow(tx: Tx, s: Id) {
    tx.Saver? && tx.sub == s && !tx.save.SaveAtRow?
  }

  predicate HoldsKey(key: Id -> int, tx: Tx, k: int) {
    match tx
    case Linker(_, refs, _) => exists j :: 0 <= j < KeysTaken(tx) && j < |refs| && key(refs[j]) == k
    case Saver(s, _, p) => p.SaveAtCommit? && p.guarded && key(s) == k
  }

  predicate HoldsWork(tx: Tx) { tx.Linker? && tx.creates && !tx.link.AtWork? }

  /** The todo's foreign key shares the work row. */
  predicate SharesWork(tx: Tx) { tx.Saver? && tx.save.SaveAtCommit? && tx.save.asking != {} }

  /** The next step of `t` waits for a lock that another transaction holds. */
  predicate Blocked(key: Id -> int, y: Sys, t: Id)
    requires t in y.txs
  {
    exists u :: u in y.txs && u != t && BlockedBy(key, y.txs[t], y.txs[u])
  }

  predicate BlockedBy(key: Id -> int, tx: Tx, other: Tx) {
    match tx
    case Linker(_, refs, AtWork) => HoldsWork(other) || SharesWork(other)
    case Linker(_, refs, AtCheck(_)) => false
    case Linker(_, refs, AtRow(i)) => i < |refs| && OwnsRow(other, refs[i])
    case Linker(_, refs, AtAdvisory(i, _)) => i < |refs| && HoldsKey(key, other, key(refs[i]))
    case Saver(s, _, SaveAtRow) => OwnsRow(other, s) || SharesRow(other, s)
    case Saver(s, _, SaveAtAdvisory) => HoldsKey(key, other, key(s))
    case Saver(_, _, SaveAtWork(_)) => HoldsWork(other)
    case Saver(_, _, SaveAtCommit(_, _)) => false
  }

  // ----- Steps -----

  function StatusOf(y: Sys, s: Id): Option<SubStatus> {
    if s in y.subs then Some(y.subs[s]) else None
  }

  predicate Distinct<T(==)>(s: seq<T>) {
    forall i, j :: 0 <= i < j < |s| ==> s[i] != s[j]
  }

  /** Creating an issue links any number of distinct sources; adding evidence links one. */
  predicate Starts(tx: Tx) {
    match tx
    case Linker(creates, refs, p) => if creates then p.AtWork? && Distinct(refs) else p == AtCheck(0) && |refs| <= 1
    case Saver(_, _, p) => p.SaveAtRow?
  }

  predicate Enabled(key: Id -> int, y: Sys, a: Action) {
    match a
    case Submit(s, _) => s !in y.subs
    case Unlink(_) => true
    case SetMaintainers(_) => true
    case DeleteTodos(_) => true
    case Begin(t, tx) => t !in y.txs && Starts(tx)
    case Abort(t) => t in y.txs
    case Proceed(t) => t in y.txs && !Blocked(key, y, t)
  }

  function With(y: Sys, t: Id, tx: Tx): Sys { y.(txs := y.txs[t := tx]) }

  function Ended(y: Sys, t: Id): Sys { y.(txs := y.txs - {t}) }

  function LinkStep(y: Sys, t: Id): Sys
    requires t in y.txs && y.txs[t].Linker?
  {
    var tx := y.txs[t];
    match tx.link
    case AtWork => With(y, t, tx.(link := AtCheck(0)))
    case AtCheck(i) =>
      if i >= |tx.refs| then With(y, t, tx.(link := AtRow(0)))
      else if StatusOf(y, tx.refs[i]) == Some(Submitted) then With(y, t, tx.(link := AtCheck(i + 1)))
      else Ended(y, t)
    case AtRow(i) =>
      if i < |tx.refs| then With(y, t, tx.(link := AtAdvisory(i, StatusOf(y, tx.refs[i]))))
      else Ended(y.(links := y.links + set j | 0 <= j < |tx.refs| :: tx.refs[j]), t)
    case AtAdvisory(i, read) =>
      if read == Some(Submitted) then With(y, t, tx.(link := AtRow(i + 1))) else Ended(y, t)
  }

  /** The maintainers that have no todo about `s`. */
  function Unasked(y: Sys, s: Id): set<Id> { set a | a in y.maintainers && Todo(a, s) !in y.todos }

  function TodosFor(accounts: set<Id>, s: Id): set<Todo> { set a | a in accounts :: Todo(a, s) }

  function SaveStep(y: Sys, t: Id): Sys
    requires t in y.txs && y.txs[t].Saver?
  {
    var tx := y.txs[t];
    match tx.save
    case SaveAtRow =>
      if tx.sub !in y.subs then Ended(y, t)
      else if tx.to.Draft? && y.subs[tx.sub].Submitted? then With(y, t, tx.(save := SaveAtAdvisory))
      else if tx.to.Submitted? && y.subs[tx.sub].Draft? && Unasked(y, tx.sub) != {}
      then With(y, t, tx.(save := SaveAtWork(Unasked(y, tx.sub))))
      else With(y, t, tx.(save := SaveAtCommit(false, {})))
    case SaveAtAdvisory =>
      if tx.sub in y.links then Ended(y, t) else With(y, t, tx.(save := SaveAtCommit(true, {})))
    case SaveAtWork(asking) => With(y, t, tx.(save := SaveAtCommit(false, asking)))
    case SaveAtCommit(_, asking) =>
      Ended(y.(subs := y.subs[tx.sub := tx.to], todos := y.todos + TodosFor(asking, tx.sub)), t)
  }

  function Apply(key: Id -> int, y: Sys, a: Action): Sys
    requires Enabled(key, y, a)
  {
    match a
    case Submit(s, status) =>
      y.(subs := y.subs[s := status],
         todos := y.todos + if status.Submitted? then TodosFor(y.maintainers, s) else {})
    case Unlink(s) => y.(links := y.links - {s})
    case SetMaintainers(accounts) => y.(maintainers := accounts)
    case DeleteTodos(gone) => y.(todos := y.todos - gone)
    case Begin(t, tx) => With(y, t, tx)
    case Abort(t) => Ended(y, t)
    case Proceed(t) => if y.txs[t].Linker? then LinkStep(y, t) else SaveStep(y, t)
  }

  ghost predicate Legal(key: Id -> int, y: Sys, run: seq<Action>)
    decreases |run|
  {
    run == [] || (Enabled(key, y, run[0]) && Legal(key, Apply(key, y, run[0]), run[1..]))
  }

  ghost function After(key: Id -> int, y: Sys, run: seq<Action>): Sys
    requires Legal(key, y, run)
    decreases |run|
  {
    if run == [] then y else After(key, Apply(key, y, run[0]), run[1..])
  }

  /** Nothing is linked and no transaction is open. */
  function Start(subs: map<Id, SubStatus>, maintainers: set<Id>, todos: set<Todo>): Sys {
    Sys(subs, {}, maintainers, todos, map[])
  }

  // ----- Invariant -----

  ghost predicate TxOk(y: Sys, tx: Tx) {
    match tx
    case Linker(creates, refs, p) =>
      && RowsTaken(tx) <= |refs| && Checked(tx) <= |refs|
      && (creates ==> Distinct(refs))
      && (!creates ==> |refs| <= 1 && !p.AtWork?)
      && (forall j :: 0 <= j < KeysTaken(tx) ==> StatusOf(y, refs[j]) == Some(Submitted))
      && (p.AtAdvisory? && p.read.Some? ==> StatusOf(y, refs[p.at]) == p.read)
    case Saver(s, to, p) =>
      && (!p.SaveAtRow? ==> s in y.subs)
      && (p.SaveAtCommit? && to.Draft? && StatusOf(y, s) == Some(Submitted) ==> p.guarded && s !in y.links)
      && (p.SaveAtAdvisory? ==> to.Draft?)
      && (p.SaveAtWork? ==> to.Submitted? && p.asking != {} && StatusOf(y, s) == Some(Draft))
  }

  /** Row locks, advisory locks and the work lock exclude as the database makes them. */
  ghost predicate Excludes(key: Id -> int, a: Tx, b: Tx) {
    && (forall s :: OwnsRow(a, s) ==> !OwnsRow(b, s) && !SharesRow(b, s))
    && (forall k :: HoldsKey(key, a, k) ==> !HoldsKey(key, b, k))
    && !(HoldsWork(a) && (HoldsWork(b) || SharesWork(b)))
  }

  ghost predicate Inv(key: Id -> int, y: Sys) {
    && (forall s :: s in y.links ==> StatusOf(y, s) == Some(Submitted))
    && (forall t :: t in y.txs ==> TxOk(y, y.txs[t]))
    && (forall t, u :: t in y.txs && u in y.txs && t != u ==> Excludes(key, y.txs[t], y.txs[u]))
  }

  /** The phase a linker moves on to when it does not end. */
  ghost predicate Advances(tx: Tx, p: LinkPhase)
    requires tx.Linker?
  {
    match tx.link
    case AtWork => p == AtCheck(0)
    case AtCheck(i) => if i < |tx.refs| then p == AtCheck(i + 1) else p == AtRow(0)
    case AtRow(i) => i < |tx.refs| && p.AtAdvisory? && p.at == i
    case AtAdvisory(i, _) => p == AtRow(i + 1)
  }

  /** The only lock a linker gains in a step is the one it did not have to wait for. */
  lemma LinkKeepsExclusion(key: Id -> int, was: Tx, p: LinkPhase, other: Tx)
    requires was.Linker? && Advances(was, p) && RowsTaken(was) <= |was.refs|
    requires !BlockedBy(key, was, other) && Excludes(key, was, other) && Excludes(key, other, was)
    ensures Excludes(key, was.(link := p), other) && Excludes(key, other, was.(link := p))
  {
    var tx := was.(link := p);
    forall s | OwnsRow(other, s) ensures !SharesRow(tx, s) {
      assert !SharesRow(was, s);
      assert forall j :: 0 <= j < RowsTaken(was) ==> was.refs[j] != s;
    }
    forall k ensures HoldsKey(key, tx, k) ==> !HoldsKey(key, other, k) {
      assert HoldsKey(key, was, k) ==> !HoldsKey(key, other, k);
    }
  }

  lemma SaveKeepsExclusion(key: Id -> int, was: Tx, p: SavePhase, other: Tx)
    requires was.Saver? && !was.save.SaveAtCommit?
    requires was.save.SaveAtAdvisory? || was.save.SaveAtWork? ==> p.SaveAtCommit?
    requires p.SaveAtCommit? && p.guarded ==> was.save.SaveAtAdvisory?
    requires p.SaveAtCommit? && p.asking != {} ==> was.save.SaveAtWork?
    requires !BlockedBy(key, was, other) && Excludes(key, was, other) && Excludes(key, other, was)
    ensures Excludes(key, was.(save := p), other) && Excludes(key, other, was.(save := p))
  {
  }

  lemma ReplaceKeepsExclusion(key: Id -> int, y: Sys, t: Id, tx: Tx)
    requires Inv(key, y)
    requires forall u :: u in y.txs && u != t ==> Excludes(key, tx, y.txs[u]) && Excludes(key, y.txs[u], tx)
    requires TxOk(y, tx)
    ensures Inv(key, With(y, t, tx))
  {
    var z := With(y, t, tx);
    forall u | u in z.txs ensures TxOk(z, z.txs[u]) { if u != t { assert TxOk(y, y.txs[u]); } }
    forall u, v | u in z.txs && v in z.txs && u != v ensures Excludes(key, z.txs[u], z.txs[v]) {
      if u != t && v != t { assert Excludes(key, y.txs[u], y.txs[v]); }
    }
  }

  lemma LinkStepAdvances(y: Sys, t: Id)
    requires t in y.txs && y.txs[t].Linker? && t in LinkStep(y, t).txs
    ensures var p := LinkStep(y, t).txs[t];
            p.Linker? && p == y.txs[t].(link := p.link) && Advances(y.txs[t], p.link) && LinkStep(y, t) == With(y, t, p)
  {
  }

  lemma LinkStepTxOk(key: Id -> int, y: Sys, t: Id)
    requires Inv(key, y) && t in y.txs && y.txs[t].Linker? && t in LinkStep(y, t).txs
    ensures var p := LinkStep(y, t).txs[t];
            && p.Linker? && p == y.txs[t].(link := p.link) && Advances(y.txs[t], p.link) && TxOk(y, p)
            && LinkStep(y, t) == With(y, t, p)
  {
    assert TxOk(y, y.txs[t]);
    LinkStepAdvances(y, t);
  }

  lemma LinkStepKeepsInv(key: Id -> int, y: Sys, t: Id)
    requires Inv(key, y) && t in y.txs && y.txs[t].Linker? && !Blocked(key, y, t)
    ensures Inv(key, LinkStep(y, t))
  {
    var z, tx := LinkStep(y, t), y.txs[t];
    assert TxOk(y, tx);
    if t in z.txs {
      LinkStepTxOk(key, y, t);
      forall u | u in y.txs && u != t
        ensures Excludes(key, z.txs[t], y.txs[u]) && Excludes(key, y.txs[u], z.txs[t])
      {
        LinkKeepsExclusion(key, tx, z.txs[t].link, y.txs[u]);
      }
      ReplaceKeepsExclusion(key, y, t, z.txs[t]);
    } else {
      LinkEndKeepsInv(key, y, t);
    }
  }

  /** A commit links only submissions whose rows the linker holds: no saver is past its check. */
  lemma LinkEndKeepsTx(key: Id -> int, y: Sys, t: Id, u: Id)
    requires Inv(key, y) && t in y.txs && u in y.txs && u != t && y.txs[t].Linker? && t !in LinkStep(y, t).txs
    ensures TxOk(LinkStep(y, t), y.txs[u])
  {
    var tx := y.txs[t];
    assert TxOk(y, tx) && TxOk(y, y.txs[u]) && Excludes(key, y.txs[u], tx);
    if y.txs[u].Saver? && OwnsRow(y.txs[u], y.txs[u].sub) {
      assert !SharesRow(tx, y.txs[u].sub);
    }
  }

  lemma LinkEndKeepsInv(key: Id -> int, y: Sys, t: Id)
    requires Inv(key, y) && t in y.txs && y.txs[t].Linker? && t !in LinkStep(y, t).txs
    ensures Inv(key, LinkStep(y, t))
  {
    var z := LinkStep(y, t);
    assert TxOk(y, y.txs[t]);
    forall u | u in z.txs ensures TxOk(z, z.txs[u]) { LinkEndKeepsTx(key, y, t, u); }
  }

  lemma SaveStepKeepsInv(key: Id -> int, y: Sys, t: Id)
    requires Inv(key, y) && t in y.txs && y.txs[t].Saver? && !Blocked(key, y, t)
    ensures Inv(key, SaveStep(y, t))
  {
    var z, tx := SaveStep(y, t), y.txs[t];
    assert TxOk(y, tx);
    if t in z.txs {
      forall u | u in y.txs && u != t
        ensures Excludes(key, z.txs[t], y.txs[u]) && Excludes(key, y.txs[u], z.txs[t])
      {
        SaveKeepsExclusion(key, tx, z.txs[t].save, y.txs[u]);
      }
      ReplaceKeepsExclusion(key, y, t, z.txs[t]);
    } else {
      SaveEndKeepsInv(key, y, t);
    }
  }

  /** A commit changes only a row that no linker has read. */
  lemma SaveEndKeepsTx(key: Id -> int, y: Sys, t: Id, u: Id)
    requires Inv(key, y) && t in y.txs && u in y.txs && u != t && y.txs[t].Saver? && t !in SaveStep(y, t).txs
    ensures TxOk(SaveStep(y, t), y.txs[u])
  {
    var tx, other := y.txs[t], y.txs[u];
    assert TxOk(y, other) && Excludes(key, tx, other);
    if tx.save.SaveAtCommit? {
      assert OwnsRow(tx, tx.sub) && !SharesRow(other, tx.sub) && !OwnsRow(other, tx.sub);
      RowChangeKeepsTx(y, SaveStep(y, t), tx.sub, other);
    }
  }

  lemma RowChangeKeepsTx(y: Sys, z: Sys, s: Id, other: Tx)
    requires TxOk(y, other) && !OwnsRow(other, s) && !SharesRow(other, s) && z.links == y.links
    requires forall r :: r != s ==> StatusOf(z, r) == StatusOf(y, r)
    ensures TxOk(z, other)
  {
    if other.Linker? {
      assert forall j :: 0 <= j < RowsTaken(other) ==> other.refs[j] != s;
    } else {
      assert other.save.SaveAtRow? || StatusOf(z, other.sub) == StatusOf(y, other.sub);
    }
  }

  lemma SaveEndKeepsInv(key: Id -> int, y: Sys, t: Id)
    requires Inv(key, y) && t in y.txs && y.txs[t].Saver? && t !in SaveStep(y, t).txs
    ensures Inv(key, SaveStep(y, t))
  {
    var z := SaveStep(y, t);
    assert TxOk(y, y.txs[t]);
    forall u | u in z.txs ensures TxOk(z, z.txs[u]) { SaveEndKeepsTx(key, y, t, u); }
  }

  lemma BeginKeepsInv(key: Id -> int, y: Sys, t: Id, tx: Tx)
    requires Inv(key, y) && t !in y.txs && Starts(tx)
    ensures Inv(key, With(y, t, tx))
  {
    assert forall s :: !OwnsRow(tx, s) && !SharesRow(tx, s);
    assert forall k :: !HoldsKey(key, tx, k);
    forall u | u in y.txs ensures Excludes(key, tx, y.txs[u]) && Excludes(key, y.txs[u], tx) {
    }
    assert TxOk(y, tx);
    ReplaceKeepsExclusion(key, y, t, tx);
  }

  lemma TablesKeepInv(key: Id -> int, y: Sys, z: Sys)
    requires Inv(key, y) && z.txs == y.txs && z.links <= y.links
    requires forall s :: s in y.subs ==> StatusOf(z, s) == StatusOf(y, s)
    ensures Inv(key, z)
  {
    forall t | t in z.txs ensures TxOk(z, z.txs[t]) { assert TxOk(y, y.txs[t]); }
  }

  lemma StepKeepsInv(key: Id -> int, y: Sys, a: Action)
    requires Inv(key, y) && Enabled(key, y, a)
    ensures Inv(key, Apply(key, y, a))
  {
    match a
    case Submit(s, status) => TablesKeepInv(key, y, Apply(key, y, a));
    case Unlink(s) => TablesKeepInv(key, y, Apply(key, y, a));
    case SetMaintainers(_) => TablesKeepInv(key, y, Apply(key, y, a));
    case DeleteTodos(_) => TablesKeepInv(key, y, Apply(key, y, a));
    case Begin(t, tx) => BeginKeepsInv(key, y, t, tx);
    case Abort(t) =>
      var z := Ended(y, t);
      forall u | u in z.txs ensures TxOk(z, z.txs[u]) { assert TxOk(y, y.txs[u]); }
    case Proceed(t) =>
      if y.txs[t].Linker? { LinkStepKeepsInv(key, y, t); } else { SaveStepKeepsInv(key, y, t); }
  }

  lemma {:induction false} RunKeepsInv(key: Id -> int, y: Sys, run: seq<Action>)
    requires Inv(key, y) && Legal(key, y, run)
    ensures Inv(key, After(key, y, run))
    decreases |run|
  {
    if run == [] {
    } else {
      StepKeepsInv(key, y, run[0]);
      RunKeepsInv(key, Apply(key, y, run[0]), run[1..]);
    }
  }

  /** No committed state links an issue to a draft, whatever transactions are under way and
      however their steps interleave. */
  lemma NoLinkToDraft(
      key: Id -> int, subs: map<Id, SubStatus>, maintainers: set<Id>, todos: set<Todo>, run: seq<Action>)
    requires Legal(key, Start(subs, maintainers, todos), run)
    ensures var y := After(key, Start(subs, maintainers, todos), run);
            forall s :: s in y.links ==> s in y.subs && y.subs[s] == Submitted
  {
    RunKeepsInv(key, Start(subs, maintainers, todos), run);
  }

  // ----- Deadlock -----

  /** Some transactions each wait for a lock that another one of them holds. */
  ghost predicate Deadlocked(key: Id -> int, y: Sys) {
    exists ts: set<Id> :: ts != {} && ts <= y.txs.Keys && StuckAmong(key, y, ts)
  }

  ghost predicate StuckAmong(key: Id -> int, y: Sys, ts: set<Id>)
    requires ts <= y.txs.Keys
  {
    forall t :: t in ts ==> Blocked(key, Only(y, ts), t)
  }

  /** The system with some of its transactions. */
  function Only(y: Sys, ts: set<Id>): Sys
    requires ts <= y.txs.Keys
  {
    y.(txs := map t | t in ts :: y.txs[t])
  }

  /** The references of one issue creation have different advisory keys. */
  predicate KeysDiffer(key: Id -> int, refs: seq<Id>) {
    forall i, j :: 0 <= i < j < |refs| ==> key(refs[i]) != key(refs[j])
  }

  predicate Creates(tx: Tx) { tx.Linker? && tx.creates }

  predicate Asks(tx: Tx) { tx.Saver? && tx.save.SaveAtWork? }

  predicate Links(tx: Tx) { Creates(tx) && (tx.link.AtRow? || tx.link.AtAdvisory?) }

  /** No saver waits for the work row to submit what an issue creation is about to link. */
  ghost predicate CreatorsSafe(key: Id -> int, y: Sys) {
    && (forall t :: t in y.txs && Creates(y.txs[t]) ==> KeysDiffer(key, y.txs[t].refs))
    && (forall t, u :: t in y.txs && u in y.txs && Links(y.txs[t]) && Asks(y.txs[u]) ==>
          y.txs[u].sub !in y.txs[t].refs)
  }

  /** Who holds an advisory lock without the work lock has all it needs. */
  lemma KeyHolderProceeds(key: Id -> int, y: Sys, u: Id, k: int)
    requires Inv(key, y) && u in y.txs && HoldsKey(key, y.txs[u], k) && !HoldsWork(y.txs[u])
    ensures !Blocked(key, y, u)
  {
    assert TxOk(y, y.txs[u]);
  }

  /** Behind the one issue creation that holds the work lock someone can go on, if not itself. */
  lemma RunnerBehindCreator(key: Id -> int, y: Sys, c: Id) returns (r: Id)
    requires Inv(key, y) && c in y.txs && HoldsWork(y.txs[c]) && CreatorsSafe(key, y)
    ensures r in y.txs && !Blocked(key, y, r)
  {
    var tx := y.txs[c];
    assert TxOk(y, tx);
    if !Blocked(key, y, c) { return c; }
    var u :| u in y.txs && u != c && BlockedBy(key, tx, y.txs[u]);
    assert Excludes(key, tx, y.txs[u]);
    if tx.link.AtAdvisory? {
      KeyHolderProceeds(key, y, u, key(tx.refs[tx.link.at]));
      return u;
    }
    if !Blocked(key, y, u) { return u; }
    var i := tx.link.next;
    assert tx.refs[i] in tx.refs && !y.txs[u].save.SaveAtWork?;
    var v :| v in y.txs && v != u && BlockedBy(key, y.txs[u], y.txs[v]);
    assert HoldsKey(key, y.txs[v], key(tx.refs[i]));
    assert !HoldsKey(key, tx, key(tx.refs[i]));
    assert Excludes(key, tx, y.txs[v]);
    KeyHolderProceeds(key, y, v, key(tx.refs[i]));
    return v;
  }

  lemma RunnerBehindKey(key: Id -> int, y: Sys, u: Id, k: int) returns (r: Id)
    requires Inv(key, y) && u in y.txs && HoldsKey(key, y.txs[u], k) && CreatorsSafe(key, y)
    ensures r in y.txs && !Blocked(key, y, r)
  {
    if HoldsWork(y.txs[u]) {
      r := RunnerBehindCreator(key, y, u);
    } else {
      KeyHolderProceeds(key, y, u, k);
      r := u;
    }
  }

  /** Who shares the work row only has to commit. */
  lemma RunnerBehindWork(key: Id -> int, y: Sys, u: Id) returns (r: Id)
    requires Inv(key, y) && u in y.txs && (HoldsWork(y.txs[u]) || SharesWork(y.txs[u])) && CreatorsSafe(key, y)
    ensures r in y.txs && !Blocked(key, y, r)
  {
    if HoldsWork(y.txs[u]) { r := RunnerBehindCreator(key, y, u); } else { r := u; }
  }

  /** Who holds a row waits, if at all, for its advisory lock or for the work row. */
  lemma RowHolderWaits(key: Id -> int, y: Sys, tx: Tx, s: Id, other: Tx)
    requires TxOk(y, tx) && (OwnsRow(tx, s) || SharesRow(tx, s)) && !HoldsWork(tx) && !Asks(tx)
    requires BlockedBy(key, tx, other)
    ensures HoldsKey(key, other, key(s))
  {
    if tx.Linker? { assert tx.refs == [s]; }
  }

  lemma RunnerBehindRow(key: Id -> int, y: Sys, u: Id, s: Id) returns (r: Id)
    requires Inv(key, y) && u in y.txs && (OwnsRow(y.txs[u], s) || SharesRow(y.txs[u], s))
    requires CreatorsSafe(key, y)
    ensures r in y.txs && !Blocked(key, y, r)
  {
    if HoldsWork(y.txs[u]) {
      r := RunnerBehindCreator(key, y, u);
    } else if !Blocked(key, y, u) {
      r := u;
    } else {
      var v :| v in y.txs && v != u && BlockedBy(key, y.txs[u], y.txs[v]);
      if Asks(y.txs[u]) {
        r := RunnerBehindWork(key, y, v);
      } else {
        RowHolderWaits(key, y, y.txs[u], s, y.txs[v]);
        r := RunnerBehindKey(key, y, v, key(s));
      }
    }
  }

  /** With different keys inside every issue creation, and no saver that waits to ask about one of
      its references, some transaction can always go on. */
  lemma SomeoneProceeds(key: Id -> int, y: Sys)
    requires Inv(key, y) && y.txs != map[] && CreatorsSafe(key, y)
    ensures exists r :: r in y.txs && !Blocked(key, y, r)
  {
    var t :| t in y.txs;
    if Blocked(key, y, t) {
      var tx := y.txs[t];
      assert TxOk(y, tx);
      var u :| u in y.txs && u != t && BlockedBy(key, tx, y.txs[u]);
      var r: Id;
      match tx
      case Linker(_, refs, AtWork) => r := RunnerBehindWork(key, y, u);
      case Linker(_, refs, AtRow(i)) => r := RunnerBehindRow(key, y, u, refs[i]);
      case Linker(_, refs, AtAdvisory(i, _)) => r := RunnerBehindKey(key, y, u, key(refs[i]));
      case Saver(s, _, SaveAtRow) => r := RunnerBehindRow(key, y, u, s);
      case Saver(s, _, SaveAtWork(_)) => r := RunnerBehindWork(key, y, u);
      case Saver(s, _, _) => r := RunnerBehindKey(key, y, u, key(s));
    }
  }

  lemma OnlyKeepsInv(key: Id -> int, y: Sys, ts: set<Id>)
    requires Inv(key, y) && ts <= y.txs.Keys
    ensures Inv(key, Only(y, ts))
  {
    var z := Only(y, ts);
    forall t | t in z.txs ensures TxOk(z, z.txs[t]) { assert TxOk(y, y.txs[t]); }
  }

  /** The same for every group of transactions: no deadlock. */
  lemma NoDeadlock(key: Id -> int, y: Sys)
    requires Inv(key, y) && CreatorsSafe(key, y)
    ensures !Deadlocked(key, y)
  {
    forall ts: set<Id> | ts != {} && ts <= y.txs.Keys ensures !StuckAmong(key, y, ts) {
      OnlyKeepsInv(key, y, ts);
      assert Only(y, ts).txs.Keys == ts;
      SomeoneProceeds(key, Only(y, ts));
      var r :| r in Only(y, ts).txs && !Blocked(key, Only(y, ts), r);
    }
  }

  // ----- When a deadlock is possible -----

  /** The run creates issues only with the references `refs`. */
  ghost predicate CreatesOnly(run: seq<Action>, refs: seq<Id>) {
    forall i :: 0 <= i < |run| && run[i].Begin? && Creates(run[i].tx) ==> run[i].tx.refs == refs
  }

  /** The run changes no maintainers and deletes no todos. */
  ghost predicate Steady(run: seq<Action>) {
    forall i :: 0 <= i < |run| ==> !run[i].SetMaintainers? && !run[i].DeleteTodos?
  }

  ghost predicate MayDeadlock(key: Id -> int, y: Sys, refs: seq<Id>, steady: bool) {
    exists run :: && Legal(key, y, run) && CreatesOnly(run, refs) && (steady ==> Steady(run))
                  && Deadlocked(key, After(key, y, run))
  }

  ghost predicate CreatorsUse(y: Sys, refs: seq<Id>) {
    forall t :: t in y.txs && Creates(y.txs[t]) ==> y.txs[t].refs == refs
  }

  lemma StepKeepsReferences(key: Id -> int, y: Sys, a: Action, refs: seq<Id>)
    requires Enabled(key, y, a) && CreatorsUse(y, refs)
    requires a.Begin? && Creates(a.tx) ==> a.tx.refs == refs
    ensures CreatorsUse(Apply(key, y, a), refs)
  {
  }

  lemma {:induction false} RunKeepsReferences(key: Id -> int, y: Sys, run: seq<Action>, refs: seq<Id>)
    requires Legal(key, y, run) && CreatesOnly(run, refs) && CreatorsUse(y, refs)
    ensures CreatorsUse(After(key, y, run), refs)
    decreases |run|
  {
    if run == [] {
      assert After(key, y, run) == y;
    } else {
      StepKeepsReferences(key, y, run[0], refs);
      assert forall i :: 0 <= i < |run| - 1 ==> run[1..][i] == run[i + 1];
      RunKeepsReferences(key, Apply(key, y, run[0]), run[1..], refs);
    }
  }

  /** Every maintainer has the todo about every reference, and no saver is about to ask for one. */
  ghost predicate AllAsked(y: Sys, refs: seq<Id>) {
    && (forall s :: s in refs ==> Unasked(y, s) == {})
    && (forall t :: t in y.txs && Asks(y.txs[t]) ==> y.txs[t].sub !in refs)
  }

  lemma StepKeepsAsked(key: Id -> int, y: Sys, a: Action, refs: seq<Id>)
    requires Enabled(key, y, a) && AllAsked(y, refs) && !a.SetMaintainers? && !a.DeleteTodos?
    requires a.Begin? ==> Starts(a.tx)
    ensures AllAsked(Apply(key, y, a), refs)
  {
    var z := Apply(key, y, a);
    forall s | s in refs ensures Unasked(z, s) == {} {
      assert forall x :: x in y.maintainers ==> x !in Unasked(y, s);
    }
  }

  lemma {:induction false} RunKeepsAsked(key: Id -> int, y: Sys, run: seq<Action>, refs: seq<Id>)
    requires Legal(key, y, run) && Steady(run) && AllAsked(y, refs)
    ensures AllAsked(After(key, y, run), refs)
    decreases |run|
  {
    if run == [] {
      assert After(key, y, run) == y;
    } else {
      StepKeepsAsked(key, y, run[0], refs);
      assert forall i :: 0 <= i < |run| - 1 ==> run[1..][i] == run[i + 1];
      RunKeepsAsked(key, Apply(key, y, run[0]), run[1..], refs);
    }
  }

  ghost predicate Leads(key: Id -> int, y: Sys, z: Sys, refs: seq<Id>) {
    exists run :: Legal(key, y, run) && CreatesOnly(run, refs) && Steady(run) && After(key, y, run) == z
  }

  lemma LeadsSelf(key: Id -> int, y: Sys, refs: seq<Id>)
    ensures Leads(key, y, y, refs)
  {
    assert Legal(key, y, []) && After(key, y, []) == y && CreatesOnly([], refs) && Steady([]);
  }

  lemma LeadsPrepend(key: Id -> int, y: Sys, a: Action, z: Sys, refs: seq<Id>)
    requires Enabled(key, y, a) && CreatesOnly([a], refs) && Steady([a]) && Leads(key, Apply(key, y, a), z, refs)
    ensures Leads(key, y, z, refs)
  {
    var rest :| && Legal(key, Apply(key, y, a), rest) && CreatesOnly(rest, refs) && Steady(rest)
                && After(key, Apply(key, y, a), rest) == z;
    var run := [a] + rest;
    assert run[0] == a && run[1..] == rest && [a][0] == a;
    assert forall i :: 0 < i < |run| ==> run[i] == rest[i - 1];
    assert Legal(key, y, run) && After(key, y, run) == z;
  }

  /** An issue creation at some phase and perhaps one saver. */
  function Creator(y: Sys, refs: seq<Id>, p: LinkPhase): Sys { y.(txs := map[0 := Linker(true, refs, p)]) }

  function Squeeze(y: Sys, refs: seq<Id>, p: LinkPhase, saver: Tx): Sys {
    y.(txs := map[0 := Linker(true, refs, p), 1 := saver])
  }

  ghost predicate AllSubmitted(y: Sys, refs: seq<Id>) {
    forall s :: s in refs ==> StatusOf(y, s) == Some(Submitted)
  }

  /** The creation reads all its references and then waits for their rows. */
  lemma {:induction false} CheckOn(key: Id -> int, y: Sys, refs: seq<Id>, k: nat)
    requires AllSubmitted(y, refs) && k <= |refs|
    ensures Leads(key, Creator(y, refs, AtCheck(k)), Creator(y, refs, AtRow(0)), refs)
    decreases |refs| - k
  {
    var w, z := Creator(y, refs, AtCheck(k)), Creator(y, refs, AtRow(0));
    if k == |refs| {
      LeadsSelf(key, z, refs);
      assert Apply(key, w, Proceed(0)) == z;
    } else {
      assert refs[k] in refs;
      CheckOn(key, y, refs, k + 1);
      assert Apply(key, w, Proceed(0)) == Creator(y, refs, AtCheck(k + 1));
    }
    LeadsPrepend(key, w, Proceed(0), z, refs);
  }

  /** From no transactions to a creation that has read all its references. */
  lemma CreatorReady(key: Id -> int, y: Sys, refs: seq<Id>)
    requires y.txs == map[] && AllSubmitted(y, refs) && Distinct(refs)
    ensures Leads(key, y, Creator(y, refs, AtRow(0)), refs)
  {
    var w := Creator(y, refs, AtWork);
    var goal := Creator(y, refs, AtRow(0));
    CheckOn(key, y, refs, 0);
    assert !Blocked(key, w, 0) && Apply(key, w, Proceed(0)) == Creator(y, refs, AtCheck(0));
    LeadsPrepend(key, w, Proceed(0), goal, refs);
    assert Apply(key, y, Begin(0, Linker(true, refs, AtWork))) == w;
    LeadsPrepend(key, y, Begin(0, Linker(true, refs, AtWork)), goal, refs);
  }

  /** A saver in the middle that holds one row and no advisory lock. */
  predicate InTheWay(saver: Tx, s: Id) {
    saver.Saver? && saver.sub == s && (saver.save.SaveAtAdvisory? || saver.save.SaveAtWork?)
  }

  lemma SqueezeRow(key: Id -> int, y: Sys, refs: seq<Id>, saver: Tx, j: nat, k: nat)
    requires k < j < |refs| && Distinct(refs) && InTheWay(saver, refs[j]) && StatusOf(y, refs[k]) == Some(Submitted)
    ensures var w := Squeeze(y, refs, AtRow(k), saver);
            && Enabled(key, w, Proceed(0))
            && Apply(key, w, Proceed(0)) == Squeeze(y, refs, AtAdvisory(k, Some(Submitted)), saver)
  {
    assert refs[k] != refs[j];
    assert !Blocked(key, Squeeze(y, refs, AtRow(k), saver), 0);
  }

  lemma SqueezeKey(key: Id -> int, y: Sys, refs: seq<Id>, saver: Tx, j: nat, k: nat)
    requires k < j < |refs| && InTheWay(saver, refs[j])
    ensures var w := Squeeze(y, refs, AtAdvisory(k, Some(Submitted)), saver);
            Enabled(key, w, Proceed(0)) && Apply(key, w, Proceed(0)) == Squeeze(y, refs, AtRow(k + 1), saver)
  {
    assert !Blocked(key, Squeeze(y, refs, AtAdvisory(k, Some(Submitted)), saver), 0);
  }

  /** The creation links its references up to the one whose row the saver holds. */
  lemma {:induction false} SqueezeOn(key: Id -> int, y: Sys, refs: seq<Id>, saver: Tx, j: nat, k: nat)
    requires k <= j < |refs| && Distinct(refs) && InTheWay(saver, refs[j])
    requires forall i :: 0 <= i < j ==> StatusOf(y, refs[i]) == Some(Submitted)
    ensures Leads(key, Squeeze(y, refs, AtRow(k), saver), Squeeze(y, refs, AtRow(j), saver), refs)
    decreases j - k
  {
    var w, z := Squeeze(y, refs, AtRow(k), saver), Squeeze(y, refs, AtRow(j), saver);
    if k == j {
      LeadsSelf(key, z, refs);
    } else {
      SqueezeRow(key, y, refs, saver, j, k);
      SqueezeKey(key, y, refs, saver, j, k);
      SqueezeOn(key, y, refs, saver, j, k + 1);
      LeadsPrepend(key, Squeeze(y, refs, AtAdvisory(k, Some(Submitted)), saver), Proceed(0), z, refs);
      LeadsPrepend(key, w, Proceed(0), z, refs);
    }
  }

  lemma {:induction false} RunsJoin(key: Id -> int, y: Sys, first: seq<Action>, second: seq<Action>)
    requires Legal(key, y, first) && Legal(key, After(key, y, first), second)
    ensures Legal(key, y, first + second)
    ensures After(key, y, first + second) == After(key, After(key, y, first), second)
    decreases |first|
  {
    if first == [] {
      assert first + second == second;
    } else {
      RunsJoin(key, Apply(key, y, first[0]), first[1..], second);
      assert (first + second)[1..] == first[1..] + second;
    }
  }

  lemma LeadsOn(key: Id -> int, x: Sys, y: Sys, z: Sys, refs: seq<Id>)
    requires Leads(key, x, y, refs) && Leads(key, y, z, refs)
    ensures Leads(key, x, z, refs)
  {
    var first :| Legal(key, x, first) && CreatesOnly(first, refs) && Steady(first) && After(key, x, first) == y;
    var second :| Legal(key, y, second) && CreatesOnly(second, refs) && Steady(second) && After(key, y, second) == z;
    RunsJoin(key, x, first, second);
    var run := first + second;
    assert CreatesOnly(run, refs) && Steady(run);
  }

  lemma TwoStuck(key: Id -> int, y: Sys, t: Id, u: Id)
    requires t in y.txs && u in y.txs && t != u
    requires BlockedBy(key, y.txs[t], y.txs[u]) && BlockedBy(key, y.txs[u], y.txs[t])
    ensures Deadlocked(key, y)
  {
    var ts := {t, u};
    assert ts <= y.txs.Keys;
    forall x | x in ts ensures Blocked(key, Only(y, ts), x) {
      var other := if x == t then u else t;
      assert BlockedBy(key, Only(y, ts).txs[x], Only(y, ts).txs[other]);
    }
    assert StuckAmong(key, y, ts);
  }

  /** The saver takes the row of reference `j` before the creation comes by. */
  lemma SaverTakesRow(key: Id -> int, y: Sys, refs: seq<Id>, j: nat, saver: Tx, held: Tx)
    requires j < |refs| && Distinct(refs) && InTheWay(held, refs[j])
    requires saver.Saver? && saver.sub == refs[j] && saver.save.SaveAtRow?
    requires SaveStep(Squeeze(y, refs, AtRow(0), saver), 1) == Squeeze(y, refs, AtRow(0), held)
    requires forall i :: 0 <= i < j ==> StatusOf(y, refs[i]) == Some(Submitted)
    ensures Leads(key, Creator(y, refs, AtRow(0)), Squeeze(y, refs, AtRow(j), held), refs)
  {
    var ready, begun := Creator(y, refs, AtRow(0)), Squeeze(y, refs, AtRow(0), saver);
    var z := Squeeze(y, refs, AtRow(j), held);
    SqueezeOn(key, y, refs, held, j, 0);
    assert !Blocked(key, begun, 1);
    LeadsPrepend(key, begun, Proceed(1), z, refs);
    assert Apply(key, ready, Begin(1, saver)) == begun;
    LeadsPrepend(key, ready, Begin(1, saver), z, refs);
  }

  /** A saver that turns reference `j` into a draft holds its row when the creation comes by. */
  lemma DraftSaverSqueezes(key: Id -> int, y: Sys, refs: seq<Id>, i: nat, j: nat)
    requires y.txs == map[] && AllSubmitted(y, refs) && Distinct(refs)
    requires i < j < |refs| && key(refs[i]) == key(refs[j])
    ensures exists z :: Leads(key, y, z, refs) && Deadlocked(key, z)
  {
    assert refs[j] in refs && forall k :: 0 <= k < |refs| ==> refs[k] in refs;
    var saver := Saver(refs[j], Draft, SaveAtRow);
    var held := saver.(save := SaveAtAdvisory);
    var ready, z := Creator(y, refs, AtRow(0)), Squeeze(y, refs, AtRow(j), held);
    CreatorReady(key, y, refs);
    SaverTakesRow(key, y, refs, j, saver, held);
    LeadsOn(key, y, ready, z, refs);
    assert HoldsKey(key, z.txs[0], key(refs[j]));
    TwoStuck(key, z, 0, 1);
  }

  /** A saver that holds the row of an unlinked reference `j` makes it a draft. */
  lemma DraftCommits(key: Id -> int, y: Sys, refs: seq<Id>, j: nat)
    requires y.txs == map[] && y.links == {} && j < |refs|
    ensures Leads(key, Squeeze(y, refs, AtRow(0), Saver(refs[j], Draft, SaveAtAdvisory)),
                  Creator(y.(subs := y.subs[refs[j] := Draft]), refs, AtRow(0)), refs)
  {
    var z := Creator(y.(subs := y.subs[refs[j] := Draft]), refs, AtRow(0));
    var w2 := Squeeze(y, refs, AtRow(0), Saver(refs[j], Draft, SaveAtAdvisory));
    var w3 := Squeeze(y, refs, AtRow(0), Saver(refs[j], Draft, SaveAtCommit(true, {})));
    LeadsSelf(key, z, refs);
    assert !Blocked(key, w3, 1) && TodosFor({}, refs[j]) == {} && Apply(key, w3, Proceed(1)) == z;
    LeadsPrepend(key, w3, Proceed(1), z, refs);
    assert !Blocked(key, w2, 1) && Apply(key, w2, Proceed(1)) == w3;
    LeadsPrepend(key, w2, Proceed(1), z, refs);
  }

  /** A saver turns reference `j` into a draft and commits, after the creation has read it. */
  lemma DraftComesBetween(key: Id -> int, y: Sys, refs: seq<Id>, j: nat)
    requires y.txs == map[] && y.links == {} && AllSubmitted(y, refs) && Distinct(refs) && j < |refs|
    ensures Leads(key, Creator(y, refs, AtRow(0)), Creator(y.(subs := y.subs[refs[j] := Draft]), refs, AtRow(0)), refs)
  {
    assert refs[j] in refs;
    var saver := Saver(refs[j], Draft, SaveAtRow);
    var z := Creator(y.(subs := y.subs[refs[j] := Draft]), refs, AtRow(0));
    var w, w1 := Creator(y, refs, AtRow(0)), Squeeze(y, refs, AtRow(0), saver);
    DraftCommits(key, y, refs, j);
    assert !Blocked(key, w1, 1) && SaveStep(w1, 1) == Squeeze(y, refs, AtRow(0), saver.(save := SaveAtAdvisory));
    LeadsPrepend(key, w1, Proceed(1), z, refs);
    assert Apply(key, w, Begin(1, saver)) == w1;
    LeadsPrepend(key, w, Begin(1, saver), z, refs);
  }

  /** Submitting reference `j` again asks a maintainer, and waits for the creation's work row. */
  lemma AskingSaverSqueezes(key: Id -> int, y: Sys, refs: seq<Id>, j: nat)
    requires y.txs == map[] && y.links == {} && AllSubmitted(y, refs) && Distinct(refs)
    requires j < |refs| && Unasked(y, refs[j]) != {}
    ensures exists z :: Leads(key, y, z, refs) && Deadlocked(key, z)
  {
    var d := y.(subs := y.subs[refs[j] := Draft]);
    assert forall k :: 0 <= k < |refs| ==> refs[k] in refs;
    assert Unasked(d, refs[j]) == Unasked(y, refs[j]);
    var saver := Saver(refs[j], Submitted, SaveAtRow);
    var held := saver.(save := SaveAtWork(Unasked(d, refs[j])));
    var ready, z := Creator(d, refs, AtRow(0)), Squeeze(d, refs, AtRow(j), held);
    assert Unasked(Squeeze(d, refs, AtRow(0), saver), refs[j]) == Unasked(d, refs[j]);
    SaverTakesRow(key, d, refs, j, saver, held);
    CreatorReady(key, y, refs);
    DraftComesBetween(key, y, refs, j);
    LeadsOn(key, y, Creator(y, refs, AtRow(0)), ready, refs);
    LeadsOn(key, y, ready, z, refs);
    TwoStuck(key, z, 0, 1);
  }

  /** The condition on a creation's references under which it can deadlock with savers. */
  predicate Exposed(key: Id -> int, y: Sys, refs: seq<Id>) {
    !KeysDiffer(key, refs) || exists s :: s in refs && Unasked(y, s) != {}
  }

  /** While nobody becomes or ceases to be a maintainer, issue creations with references `refs`,
      evidence additions and feedback savers can deadlock if and only if two of these references
      share an advisory key or some maintainer has no todo about one of them. */
  lemma DeadlockIffExposed(
      key: Id -> int, subs: map<Id, SubStatus>, maintainers: set<Id>, todos: set<Todo>, refs: seq<Id>)
    requires Distinct(refs) && AllSubmitted(Start(subs, maintainers, todos), refs)
    ensures var y := Start(subs, maintainers, todos);
            MayDeadlock(key, y, refs, true) <==> Exposed(key, y, refs)
  {
    var y := Start(subs, maintainers, todos);
    if Exposed(key, y, refs) {
      ExposedDeadlocks(key, y, refs);
    } else {
      forall run | Legal(key, y, run) && CreatesOnly(run, refs) && Steady(run)
        ensures !Deadlocked(key, After(key, y, run))
      {
        RunKeepsInv(key, y, run);
        RunKeepsReferences(key, y, run, refs);
        RunKeepsAsked(key, y, run, refs);
        NoDeadlock(key, After(key, y, run));
      }
    }
  }

  lemma ExposedDeadlocks(key: Id -> int, y: Sys, refs: seq<Id>)
    requires y.txs == map[] && y.links == {} && AllSubmitted(y, refs) && Distinct(refs) && Exposed(key, y, refs)
    ensures MayDeadlock(key, y, refs, true)
  {
    if !KeysDiffer(key, refs) {
      var i, j :| 0 <= i < j < |refs| && key(refs[i]) == key(refs[j]);
      DraftSaverSqueezes(key, y, refs, i, j);
    } else {
      var s :| s in refs && Unasked(y, s) != {};
      var j :| 0 <= j < |refs| && refs[j] == s;
      AskingSaverSqueezes(key, y, refs, j);
    }
  }

  /** When maintainers may change, they can deadlock if and only if the creations refer to any
      submission at all: a new maintainer has no todo about it. */
  lemma DeadlockIffAnyReference(
      key: Id -> int, subs: map<Id, SubStatus>, maintainers: set<Id>, todos: set<Todo>, refs: seq<Id>)
    requires Distinct(refs) && AllSubmitted(Start(subs, maintainers, todos), refs)
    ensures MayDeadlock(key, Start(subs, maintainers, todos), refs, false) <==> refs != []
  {
    var y := Start(subs, maintainers, todos);
    if refs != [] {
      PromotionDeadlocks(key, y, refs);
    } else {
      forall run | Legal(key, y, run) && CreatesOnly(run, refs) ensures !Deadlocked(key, After(key, y, run)) {
        RunKeepsInv(key, y, run);
        RunKeepsReferences(key, y, run, refs);
        NoDeadlock(key, After(key, y, run));
      }
    }
  }

  lemma PromotionDeadlocks(key: Id -> int, y: Sys, refs: seq<Id>)
    requires y.txs == map[] && y.links == {} && AllSubmitted(y, refs) && Distinct(refs) && refs != []
    ensures MayDeadlock(key, y, refs, false)
  {
    var a := FreshId(set t | t in y.todos :: t.account);
    var change := SetMaintainers({a});
    var z := y.(maintainers := {a});
    assert a in Unasked(z, refs[0]);
    ExposedDeadlocks(key, z, refs);
    var run :| Legal(key, z, run) && CreatesOnly(run, refs) && Deadlocked(key, After(key, z, run));
    var whole := [change] + run;
    assert whole[1..] == run && Apply(key, y, change) == z;
    assert Legal(key, y, whole) && After(key, y, whole) == After(key, z, run);
    assert CreatesOnly(whole, refs);
  }

  // ----- One saver -----

  function SaversIn(run: seq<Action>): nat {
    if run == [] then 0 else (if run[0].Begin? && run[0].tx.Saver? then 1 else 0) + SaversIn(run[1..])
  }

  function LiveSavers(y: Sys): set<Id> { set t | t in y.txs && y.txs[t].Saver? }

  /** What issue creations have read is as they read it. */
  ghost predicate ReadsHold(y: Sys) {
    forall t, i :: t in y.txs && Creates(y.txs[t]) && 0 <= i < Checked(y.txs[t]) && i < |y.txs[t].refs| ==>
      StatusOf(y, y.txs[t].refs[i]) == Some(Submitted)
  }

  /** `more` savers may still begin; reads hold as long as a saver can still commit. */
  ghost predicate AtMostOneSaver(y: Sys, more: nat) {
    |LiveSavers(y)| + more <= 1 && (LiveSavers(y) != {} || more >= 1 ==> ReadsHold(y))
  }

  predicate SaverEnds(key: Id -> int, y: Sys, a: Action)
    requires Enabled(key, y, a)
  {
    a.Proceed? && y.txs[a.t].Saver? && a.t !in Apply(key, y, a).txs
  }

  lemma LinkStepKeepsReads(key: Id -> int, y: Sys, t: Id)
    requires Inv(key, y) && t in y.txs && y.txs[t].Linker? && ReadsHold(y)
    ensures ReadsHold(LinkStep(y, t))
  {
    var z := LinkStep(y, t);
    if t in z.txs {
      LinkStepTxOk(key, y, t);
      if Creates(y.txs[t]) { OneMoreRead(y, y.txs[t], z.txs[t].link); }
    } else {
      assert z.subs == y.subs && z.txs == y.txs - {t};
    }
  }

  lemma OneMoreRead(y: Sys, tx: Tx, p: LinkPhase)
    requires Creates(tx) && Advances(tx, p) && Checked(tx) <= |tx.refs|
    requires tx.link.AtCheck? && p.AtCheck? ==> StatusOf(y, tx.refs[tx.link.seen]) == Some(Submitted)
    requires forall i :: 0 <= i < Checked(tx) ==> StatusOf(y, tx.refs[i]) == Some(Submitted)
    ensures forall i :: 0 <= i < Checked(tx.(link := p)) && i < |tx.refs| ==> StatusOf(y, tx.refs[i]) == Some(Submitted)
  {
  }

  lemma LinkStepKeepsSavers(key: Id -> int, y: Sys, t: Id)
    requires Inv(key, y) && t in y.txs && y.txs[t].Linker?
    ensures LiveSavers(LinkStep(y, t)) == LiveSavers(y)
  {
    var z := LinkStep(y, t);
    if t in z.txs { LinkStepTxOk(key, y, t); } else { assert z.txs == y.txs - {t}; }
  }

  lemma SaveStepKeepsSavers(y: Sys, t: Id)
    requires t in y.txs && y.txs[t].Saver?
    ensures var z := SaveStep(y, t);
            if t in z.txs then LiveSavers(z) == LiveSavers(y) && (ReadsHold(y) ==> ReadsHold(z))
            else LiveSavers(z) == LiveSavers(y) - {t}
  {
    var z := SaveStep(y, t);
    if t in z.txs {
      assert z == With(y, t, z.txs[t]) && z.txs[t].Saver?;
    } else {
      assert z.txs == y.txs - {t};
    }
  }

  lemma StepKeepsReads(key: Id -> int, y: Sys, a: Action)
    requires Inv(key, y) && Enabled(key, y, a) && ReadsHold(y) && !SaverEnds(key, y, a)
    ensures ReadsHold(Apply(key, y, a))
  {
    if a.Proceed? {
      if y.txs[a.t].Linker? { LinkStepKeepsReads(key, y, a.t); } else { SaveStepKeepsSavers(y, a.t); }
    }
  }

  lemma StepCountsSavers(key: Id -> int, y: Sys, a: Action)
    requires Inv(key, y) && Enabled(key, y, a)
    ensures LiveSavers(Apply(key, y, a))
            == if a.Begin? && a.tx.Saver? then LiveSavers(y) + {a.t}
               else if a.Abort? || SaverEnds(key, y, a) then LiveSavers(y) - {a.t}
               else LiveSavers(y)
  {
    if a.Proceed? {
      if y.txs[a.t].Linker? { LinkStepKeepsSavers(key, y, a.t); } else { SaveStepKeepsSavers(y, a.t); }
    }
  }

  lemma StepKeepsOneSaver(key: Id -> int, y: Sys, a: Action, more: nat)
    requires Inv(key, y) && Enabled(key, y, a)
    requires var begins := if a.Begin? && a.tx.Saver? then 1 else 0; AtMostOneSaver(y, begins + more)
    ensures AtMostOneSaver(Apply(key, y, a), more)
  {
    StepCountsSavers(key, y, a);
    if SaverEnds(key, y, a) {
      assert a.t in LiveSavers(y) && |LiveSavers(y) - {a.t}| == |LiveSavers(y)| - 1;
    } else if ReadsHold(y) {
      StepKeepsReads(key, y, a);
    }
  }

  lemma OneSaverIsSafe(key: Id -> int, y: Sys, refs: seq<Id>)
    requires Inv(key, y) && AtMostOneSaver(y, 0) && CreatorsUse(y, refs) && KeysDiffer(key, refs)
    ensures CreatorsSafe(key, y)
  {
    forall t, u | t in y.txs && u in y.txs && Links(y.txs[t]) && Asks(y.txs[u])
      ensures y.txs[u].sub !in y.txs[t].refs
    {
      assert u in LiveSavers(y) && TxOk(y, y.txs[u]) && TxOk(y, y.txs[t]);
      assert forall i :: 0 <= i < |y.txs[t].refs| ==> StatusOf(y, y.txs[t].refs[i]) == Some(Submitted);
    }
  }

  lemma {:induction false} RunKeepsOneSaver(key: Id -> int, y: Sys, run: seq<Action>)
    requires Inv(key, y) && Legal(key, y, run) && AtMostOneSaver(y, SaversIn(run))
    ensures AtMostOneSaver(After(key, y, run), 0)
    decreases |run|
  {
    if run == [] {
      assert After(key, y, run) == y;
    } else {
      StepKeepsInv(key, y, run[0]);
      StepKeepsOneSaver(key, y, run[0], SaversIn(run[1..]));
      RunKeepsOneSaver(key, Apply(key, y, run[0]), run[1..]);
    }
  }

  /** A single saver never deadlocks with any number of linkers, even while maintainers change, if
      the keys inside a creation differ; in particular not with the one link of its own submission. */
  lemma OneSaverNeverDeadlocks(
      key: Id -> int, subs: map<Id, SubStatus>, maintainers: set<Id>, todos: set<Todo>, refs: seq<Id>, run: seq<Action>)
    requires KeysDiffer(key, refs) && Legal(key, Start(subs, maintainers, todos), run)
    requires CreatesOnly(run, refs) && SaversIn(run) <= 1
    ensures !Deadlocked(key, After(key, Start(subs, maintainers, todos), run))
  {
    var y := Start(subs, maintainers, todos);
    assert LiveSavers(y) == {};
    RunKeepsInv(key, y, run);
    RunKeepsReferences(key, y, run, refs);
    RunKeepsOneSaver(key, y, run);
    OneSaverIsSafe(key, After(key, y, run), refs);
    NoDeadlock(key, After(key, y, run));
  }
}
