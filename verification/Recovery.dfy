/**
 The staged reopening after a disaster recovery: which commands move the stage, what they check,
 and how the API came to be open. The commands hold one advisory lock, so only the two
 transactions of a confirmation are separate steps; the process may crash between them.
 */
module Recovery {
  import opened Base
  import opened ObjectDigest
  import Outbox

  type Stage = Outbox.Stage

  type Bytes = seq<Byte>

  /** A parsed manifest; `raw` is the digest of the file it was read from. */
  datatype Manifest = Manifest(id: string, raw: Sha, objects: seq<Object>)

  /** A ready file in the database. */
  datatype Stored = Stored(key: string, size: nat, sha: Sha)

  /** What a verification meets: the counts of the database checks, the ready files, the bucket. */
  datatype Facts = Facts(counts: map<string, nat>, files: set<Stored>, bucket: map<string, Bytes>)

  datatype State = State(
    frozen: bool,
    stage: Stage,
    id: Option<string>,
    raw: Option<Sha>,
    restricted: bool,
    confirmed: bool,
    verified: bool,
    verifying: Option<Manifest>)

  datatype Action =
    | Recover(m: Manifest)
    | Confirm(m: Manifest)
    | Verify(facts: Facts)
    | Crash
    | OpenDispatcher(id: string)
    | SetFrozen(frozen: bool)

  // ----- Object agreement -----

  predicate AllZero(counts: map<string, nat>) { forall c :: c in counts ==> counts[c] == 0 }

  predicate SameKeys(objects: seq<Object>, files: set<Stored>, bucket: map<string, Bytes>) {
    && (forall f :: f in files ==> f.key in KeysOf(objects))
    && (forall x :: x in KeysOf(objects) ==> x in bucket && exists f :: f in files && f.key == x)
    && (forall x :: x in bucket ==> x in KeysOf(objects))
  }

  predicate RowAgrees(o: Object, files: set<Stored>) {
    forall f :: f in files && f.key == o.key ==> f.size == o.size && f.sha == o.sha
  }

  predicate ContentAgrees(o: Object, bucket: map<string, Bytes>, hash: Bytes -> Sha) {
    o.key in bucket && |bucket[o.key]| == o.size && hash(bucket[o.key]) == o.sha
  }

  predicate Agrees(objects: seq<Object>, files: set<Stored>, bucket: map<string, Bytes>, hash: Bytes -> Sha) {
    && SameKeys(objects, files, bucket)
    && forall k :: 0 <= k < |objects| ==> EntryAgrees(objects[k], files, bucket, hash)
  }

  /** What each side says about a key: size and digest. */
  function ManifestView(objects: seq<Object>): map<string, (nat, Sha)>
    requires DistinctKeys(objects)
  {
    map o | o in objects :: o.key := (o.size, o.sha)
  }

  predicate KeysUnique(files: set<Stored>) { forall f, g :: f in files && g in files && f.key == g.key ==> f == g }

  function DatabaseView(files: set<Stored>): map<string, (nat, Sha)>
    requires KeysUnique(files)
  {
    map f | f in files :: f.key := (f.size, f.sha)
  }

  function BucketView(bucket: map<string, Bytes>, hash: Bytes -> Sha): map<string, (nat, Sha)> {
    map x | x in bucket :: (|bucket[x]|, hash(bucket[x]))
  }

  lemma ViewKeys(objects: seq<Object>, files: set<Stored>, bucket: map<string, Bytes>, hash: Bytes -> Sha)
    requires DistinctKeys(objects) && KeysUnique(files)
    ensures ManifestView(objects).Keys == KeysOf(objects)
    ensures BucketView(bucket, hash).Keys == bucket.Keys
    ensures forall x :: x in DatabaseView(files).Keys <==> exists f :: f in files && f.key == x
  {
  }

  lemma SameKeySets(objects: seq<Object>, files: set<Stored>, bucket: map<string, Bytes>, stored: set<string>)
    requires forall x :: x in stored <==> exists f :: f in files && f.key == x
    ensures SameKeys(objects, files, bucket) <==> KeysOf(objects) == stored == bucket.Keys
  {
  }

  lemma AgreeingKeys(objects: seq<Object>, files: set<Stored>, bucket: map<string, Bytes>, hash: Bytes -> Sha)
    requires DistinctKeys(objects) && KeysUnique(files)
    ensures SameKeys(objects, files, bucket)
            <==> ManifestView(objects).Keys == DatabaseView(files).Keys == BucketView(bucket, hash).Keys
  {
    ViewKeys(objects, files, bucket, hash);
    SameKeySets(objects, files, bucket, DatabaseView(files).Keys);
  }

  predicate EntryAgrees(o: Object, files: set<Stored>, bucket: map<string, Bytes>, hash: Bytes -> Sha) {
    RowAgrees(o, files) && ContentAgrees(o, bucket, hash)
  }

  lemma EntryAgreesIffSame(
      o: Object, objects: seq<Object>, files: set<Stored>, bucket: map<string, Bytes>, hash: Bytes -> Sha)
    requires DistinctKeys(objects) && KeysUnique(files) && SameKeys(objects, files, bucket) && o in objects
    ensures o.key in ManifestView(objects) && o.key in DatabaseView(files) && o.key in BucketView(bucket, hash)
    ensures EntryAgrees(o, files, bucket, hash)
            <==> ManifestView(objects)[o.key] == DatabaseView(files)[o.key] == BucketView(bucket, hash)[o.key]
  {
    AgreeingKeys(objects, files, bucket, hash);
    assert o.key in KeysOf(objects);
    var f :| f in files && f.key == o.key;
    assert ManifestView(objects)[o.key] == (o.size, o.sha);
    assert DatabaseView(files)[f.key] == (f.size, f.sha);
  }

  lemma SameMaps(
      objects: seq<Object>, files: set<Stored>, bucket: map<string, Bytes>, hash: Bytes -> Sha,
      m: map<string, (nat, Sha)>, d: map<string, (nat, Sha)>, b: map<string, (nat, Sha)>)
    requires m.Keys == d.Keys == b.Keys == KeysOf(objects)
    requires forall o :: o in objects ==>
      o.key in m && (EntryAgrees(o, files, bucket, hash) <==> m[o.key] == d[o.key] == b[o.key])
    ensures (forall o :: o in objects ==> EntryAgrees(o, files, bucket, hash)) <==> m == d == b
  {
    if forall o :: o in objects ==> EntryAgrees(o, files, bucket, hash) {
      forall x | x in m ensures m[x] == d[x] == b[x] {
        var k :| 0 <= k < |objects| && objects[k].key == x;
        assert objects[k] in objects;
      }
    }
  }

  /** The check passes exactly when manifest, ready files and bucket are the same map from key to
      size and content digest. */
  lemma AgreesIffSameMap(objects: seq<Object>, files: set<Stored>, bucket: map<string, Bytes>, hash: Bytes -> Sha)
    requires DistinctKeys(objects) && KeysUnique(files)
    ensures Agrees(objects, files, bucket, hash)
            <==> ManifestView(objects) == DatabaseView(files) == BucketView(bucket, hash)
  {
    AgreeingKeys(objects, files, bucket, hash);
    if SameKeys(objects, files, bucket) {
      forall o | o in objects
        ensures o.key in ManifestView(objects)
        ensures EntryAgrees(o, files, bucket, hash)
                <==> ManifestView(objects)[o.key] == DatabaseView(files)[o.key] == BucketView(bucket, hash)[o.key]
      {
        EntryAgreesIffSame(o, objects, files, bucket, hash);
      }
      assert ManifestView(objects).Keys == KeysOf(objects);
      SameMaps(objects, files, bucket, hash, ManifestView(objects), DatabaseView(files), BucketView(bucket, hash));
    }
  }

  predicate Passes(m: Manifest, facts: Facts, hash: Bytes -> Sha) {
    AllZero(facts.counts) && Agrees(m.objects, facts.files, facts.bucket, hash)
  }

  // ----- Stages -----

  predicate Matches(s: State, m: Manifest) { s.id == Some(m.id) && s.raw == Some(m.raw) }

  predicate Enabled(s: State, a: Action) {
    match a
    case Recover(m) =>
      && s.frozen && s.verifying.None? && !s.stage.ApiOpen?
      && (s.stage.Recovering? ==> Matches(s, m) && s.restricted)
      && (s.stage.StageOpen? ==> s.id != Some(m.id))
    case Confirm(m) => s.frozen && s.verifying.None? && s.stage.Recovering? && Matches(s, m) && s.restricted
    case Verify(_) => s.verifying.Some?
    case Crash => true
    case OpenDispatcher(id) => !s.frozen && s.verifying.None? && s.stage.ApiOpen? && s.id == Some(id)
    case SetFrozen(_) => s.verifying.None?
  }

  /** The condition that the verification transaction checks again. */
  predicate MayVerify(s: State, m: Manifest) {
    s.stage.Recovering? && Matches(s, m) && s.restricted && s.confirmed
  }

  function Failed(s: State, m: Manifest): State {
    if s.id == Some(m.id) then s.(stage := Outbox.Recovering) else s
  }

  function Apply(s: State, a: Action, hash: Bytes -> Sha): State
    requires Enabled(s, a)
  {
    match a
    case Recover(m) =>
      if s.stage.Recovering? then s
      else State(s.frozen, Outbox.Recovering, Some(m.id), Some(m.raw), true, false, false, None)
    case Confirm(m) => s.(confirmed := true, verifying := Some(m))
    case Verify(facts) =>
      var m := s.verifying.value;
      var after := if MayVerify(s, m) && Passes(m, facts, hash) then s.(stage := Outbox.ApiOpen, verified := true)
                   else Failed(s, m);
      after.(verifying := None)
    case Crash => s.(verifying := None)
    case OpenDispatcher(_) => s.(stage := Outbox.StageOpen)
    case SetFrozen(frozen) => s.(frozen := frozen)
  }

  /** Runs are followed from their end, so that positions in a run stay the same as it grows. */
  ghost predicate Legal(s: State, run: seq<Action>, hash: Bytes -> Sha)
    decreases |run|, 0
  {
    run == [] || (Legal(s, Front(run), hash) && Enabled(After(s, Front(run), hash), Last(run)))
  }

  ghost function After(s: State, run: seq<Action>, hash: Bytes -> Sha): State
    requires Legal(s, run, hash)
    decreases |run|, 1
  {
    if run == [] then s else Apply(After(s, Front(run), hash), Last(run), hash)
  }

  function Front<T>(s: seq<T>): seq<T>
    requires s != []
  {
    s[..|s| - 1]
  }

  function Last<T>(s: seq<T>): T
    requires s != []
  {
    s[|s| - 1]
  }

  predicate Initial(s: State) { s.stage.StageOpen? && s.id.None? && s.verifying.None? && !s.confirmed }

  // ----- How a stage was reached -----

  /** The recovery of the current manifest was begun at position `i`, and no dispatcher was opened since. */
  ghost predicate Begun(s: State, run: seq<Action>, i: nat) {
    && i < |run| && run[i].Recover? && Matches(s, run[i].m)
    && forall n :: i <= n < |run| ==> !run[n].OpenDispatcher?
  }

  ghost predicate ConfirmedAt(s: State, run: seq<Action>, i: nat, j: nat) {
    i < j < |run| && run[j].Confirm? && Matches(s, run[j].m)
  }

  /** The verification at `k` belongs to the confirmation at `j`, passed, and nothing happened since
      but crashes and new settings. */
  ghost predicate VerifiedAt(s: State, run: seq<Action>, j: nat, k: nat, hash: Bytes -> Sha) {
    && j < k < |run| && run[j].Confirm? && run[k].Verify? && Passes(run[j].m, run[k].facts, hash)
    && forall n :: k < n < |run| ==> run[n].Crash? || run[n].SetFrozen?
  }

  ghost predicate History(s: State, run: seq<Action>, hash: Bytes -> Sha) {
    && (s.verifying.Some? ==> s.stage.Recovering? && s.confirmed && Matches(s, s.verifying.value))
    && (s.stage.Recovering? ==> s.restricted && exists i: nat :: Begun(s, run, i))
    && (s.stage.Recovering? && s.confirmed ==> exists i: nat, j: nat :: Begun(s, run, i) && ConfirmedAt(s, run, i, j))
    && (s.verifying.Some? ==>
          exists i: nat, j: nat :: Begun(s, run, i) && ConfirmedAt(s, run, i, j) && run[j].m == s.verifying.value)
    && (s.stage.ApiOpen? ==>
          exists i: nat, j: nat, k: nat ::
            Begun(s, run, i) && ConfirmedAt(s, run, i, j) && VerifiedAt(s, run, j, k, hash))
  }

  lemma HistoryGrows(s: State, run: seq<Action>, a: Action, hash: Bytes -> Sha)
    requires !a.OpenDispatcher?
    ensures forall i: nat :: Begun(s, run, i) ==> Begun(s, run + [a], i)
    ensures forall i: nat, j: nat :: ConfirmedAt(s, run, i, j) ==> ConfirmedAt(s, run + [a], i, j)
    ensures a.Crash? || a.SetFrozen? ==>
              forall j: nat, k: nat :: VerifiedAt(s, run, j, k, hash) ==> VerifiedAt(s, run + [a], j, k, hash)
  {
  }

  lemma RecoverKeepsHistory(s: State, run: seq<Action>, a: Action, hash: Bytes -> Sha)
    requires History(s, run, hash) && Enabled(s, a) && a.Recover?
    ensures History(Apply(s, a, hash), run + [a], hash)
  {
    HistoryGrows(s, run, a, hash);
    assert Begun(Apply(s, a, hash), run + [a], |run|);
    if s.stage.Recovering? && s.confirmed {
      var i: nat, j: nat :| Begun(s, run, i) && ConfirmedAt(s, run, i, j);
      assert Begun(s, run + [a], i) && ConfirmedAt(s, run + [a], i, j);
    }
  }

  lemma ConfirmKeepsHistory(s: State, run: seq<Action>, a: Action, hash: Bytes -> Sha)
    requires History(s, run, hash) && Enabled(s, a) && a.Confirm?
    ensures History(Apply(s, a, hash), run + [a], hash)
  {
    HistoryGrows(s, run, a, hash);
    var v := Apply(s, a, hash);
    var i: nat :| Begun(s, run, i);
    assert Begun(v, run + [a], i) && ConfirmedAt(v, run + [a], i, |run|);
  }

  lemma VerifyKeepsHistory(s: State, run: seq<Action>, a: Action, hash: Bytes -> Sha)
    requires History(s, run, hash) && Enabled(s, a) && a.Verify?
    ensures History(Apply(s, a, hash), run + [a], hash)
  {
    HistoryGrows(s, run, a, hash);
    var v := Apply(s, a, hash);
    var i: nat, j: nat :| Begun(s, run, i) && ConfirmedAt(s, run, i, j) && run[j].m == s.verifying.value;
    assert Begun(v, run + [a], i) && ConfirmedAt(v, run + [a], i, j);
    if v.stage.ApiOpen? {
      assert VerifiedAt(v, run + [a], j, |run|, hash);
    }
  }

  lemma QuietStepKeepsHistory(s: State, run: seq<Action>, a: Action, hash: Bytes -> Sha)
    requires History(s, run, hash) && Enabled(s, a) && (a.Crash? || a.SetFrozen?)
    ensures History(Apply(s, a, hash), run + [a], hash)
  {
    HistoryGrows(s, run, a, hash);
    var v := Apply(s, a, hash);
    assert forall i: nat :: Begun(s, run + [a], i) ==> Begun(v, run + [a], i);
    assert forall i: nat, j: nat :: ConfirmedAt(s, run + [a], i, j) ==> ConfirmedAt(v, run + [a], i, j);
    assert forall j: nat, k: nat :: VerifiedAt(s, run + [a], j, k, hash) ==> VerifiedAt(v, run + [a], j, k, hash);
  }

  lemma {:induction false} RunHasHistory(s: State, run: seq<Action>, hash: Bytes -> Sha)
    requires Initial(s) && Legal(s, run, hash)
    ensures History(After(s, run, hash), run, hash)
    decreases |run|
  {
    if run == [] {
    } else {
      var a, before := Last(run), After(s, Front(run), hash);
      RunHasHistory(s, Front(run), hash);
      assert run == Front(run) + [a];
      match a
      case Recover(_) => RecoverKeepsHistory(before, Front(run), a, hash);
      case Confirm(_) => ConfirmKeepsHistory(before, Front(run), a, hash);
      case Verify(_) => VerifyKeepsHistory(before, Front(run), a, hash);
      case OpenDispatcher(_) =>
      case _ => QuietStepKeepsHistory(before, Front(run), a, hash);
    }
  }

  // ----- Results -----

  /** The API is open only after: the recovery of a manifest was begun, restricted access was
      confirmed for the same recovery and manifest, and the verification that followed found every
      database count zero and all three object lists equal. */
  lemma ApiOpenIsEarned(s: State, run: seq<Action>, hash: Bytes -> Sha) returns (i: nat, j: nat, k: nat)
    requires Initial(s) && Legal(s, run, hash) && After(s, run, hash).stage.ApiOpen?
    ensures i < j < k < |run| && run[i].Recover? && run[j].Confirm? && run[k].Verify?
    ensures run[i].m.id == run[j].m.id && run[i].m.raw == run[j].m.raw && Matches(After(s, run, hash), run[j].m)
    ensures AllZero(run[k].facts.counts) && Agrees(run[j].m.objects, run[k].facts.files, run[k].facts.bucket, hash)
    ensures forall n :: i <= n < |run| ==> !run[n].OpenDispatcher?
    ensures forall n :: k < n < |run| ==> run[n].Crash? || run[n].SetFrozen?
  {
    var v := After(s, run, hash);
    RunHasHistory(s, run, hash);
    i, j, k :| Begun(v, run, i) && ConfirmedAt(v, run, i, j) && VerifiedAt(v, run, j, k, hash);
  }

  /** While the API is not open, the dispatcher cannot be opened; and the API opens only in a
      verification that passes. */
  lemma OnlyPassingVerificationOpens(s: State, run: seq<Action>, a: Action, hash: Bytes -> Sha)
    requires Initial(s) && Legal(s, run, hash) && Enabled(After(s, run, hash), a)
    ensures var before := After(s, run, hash); var v := Apply(before, a, hash);
            && (!before.stage.ApiOpen? ==>
                  (v.stage.ApiOpen? <==>
                     a.Verify? && before.verifying.Some? && Passes(before.verifying.value, a.facts, hash)))
            && (!before.stage.StageOpen? && v.stage.StageOpen? ==>
                  before.stage.ApiOpen? && a == OpenDispatcher(before.id.value))
  {
    RunHasHistory(s, run, hash);
  }

  /** Repeating `recover` with the same manifest while recovering changes nothing, in particular
      not the confirmation; with any other manifest it is refused, and so is the manifest just recovered. */
  lemma RecoverAgain(s: State, m: Manifest, hash: Bytes -> Sha)
    requires s.frozen && s.verifying.None? && s.restricted
    ensures s.stage.Recovering? ==>
              (Enabled(s, Recover(m)) <==> Matches(s, m)) && (Matches(s, m) ==> Apply(s, Recover(m), hash) == s)
    ensures s.stage.StageOpen? && Matches(s, m) ==> !Enabled(s, Recover(m))
    ensures s.stage.ApiOpen? ==> !Enabled(s, Recover(m))
  {
  }

  // ----- The outbox sees the same stages -----

  /** The outbox action of a recovery step that commits, or none if it leaves the stage alone. */
  function OutboxAction(s: State, a: Action, hash: Bytes -> Sha): Option<Outbox.Action>
    requires Enabled(s, a)
  {
    if a.Recover? then Some(Outbox.BeginRecovery)
    else if a.OpenDispatcher? then Some(Outbox.OpenDispatcher)
    else if Apply(s, a, hash).stage.ApiOpen? && !s.stage.ApiOpen? then Some(Outbox.VerifyAndOpenApi)
    else None
  }

  /** Every recovery step is a step of the outbox model, or none: what holds for all outbox runs
      holds for the runs that these commands drive. */
  lemma OutboxFollows(s: State, run: seq<Action>, a: Action, w: Outbox.World, hash: Bytes -> Sha)
    requires Initial(s) && Legal(s, run, hash) && Enabled(After(s, run, hash), a)
    requires w.stage == After(s, run, hash).stage
    ensures var before := After(s, run, hash);
            match OutboxAction(before, a, hash)
            case Some(o) => Outbox.Enabled(w, o) && Outbox.Apply(w, o).stage == Apply(before, a, hash).stage
            case None => Apply(before, a, hash).stage == w.stage
  {
    RunHasHistory(s, run, hash);
  }
}
