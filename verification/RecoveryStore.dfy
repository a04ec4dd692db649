/**
 The recovery commands, statement by statement, over the singleton state row and the audit, and
 the comparison of manifest, database and bucket.
 */
module RecoveryStore {
  import opened Base
  import opened Text
  import opened ObjectDigest
  import opened Recovery
  import Outbox

  const CHUNK := 64 * 1024

  datatype Phase = DeploymentFreeze | Request | StateRefused | Verification | Objects

  datatype Result = AwaitsConfirmation | ApiIsOpen | IsOpen | Failure(phase: Phase)

  datatype Event =
    | RecoveryStarted | RestrictedConverged | AccessConfirmed | IntegrityVerified | ApiReady
    | VerificationFailed | DispatcherOpened

  /** What the object storage answers: `down` are the keys that cannot be opened. */
  datatype Storage = Storage(listable: bool, bucket: map<string, Bytes>, down: set<string>)

  predicate IsIdChar(c: char) { 'a' <= c <= 'z' || 'A' <= c <= 'Z' || '0' <= c <= '9' || c in "._-" }

  predicate RecoveryId(id: string) {
    1 <= |id| <= 128 && (forall k :: 0 <= k < |id| ==> IsIdChar(id[k])) && id[0] !in "._-"
  }

  predicate Authorised(operator: string, reason: string) {
    Required(operator, 128).Some? && Required(reason, 256).Some?
  }

  /** Reads an object to its end, chunk by chunk. */
  method ReadObject(content: Bytes, hash: Bytes -> Sha) returns (size: nat, digest: Sha)
    ensures size == |content| && digest == hash(content)
  {
    var digested: Bytes, rest := [], content;
    size := 0;
    while rest != []
      invariant digested + rest == content && size == |digested|
      decreases |rest|
    {
      // A read returns at least one byte and at most a chunk.
      var n :| 1 <= n <= |rest| && n <= CHUNK;
      var chunk := rest[..n];
      rest := rest[n..];
      digested := digested + chunk;
      size := size + |chunk|;
    }
    assert digested == content;
    digest := hash(digested);
  }

  predicate Reachable(objects: seq<Object>, storage: Storage) {
    storage.listable && forall k :: 0 <= k < |objects| ==> objects[k].key !in storage.down
  }

  /** Passes exactly if storage answers and manifest, ready files and bucket agree. */
  method ObjectChecks(objects: seq<Object>, files: set<Stored>, storage: Storage, hash: Bytes -> Sha) returns (ok: bool)
    ensures ok <==> Reachable(objects, storage) && Agrees(objects, files, storage.bucket, hash)
  {
    if !storage.listable || !SameKeys(objects, files, storage.bucket) { return false; }
    for n := 0 to |objects|
      invariant forall k :: 0 <= k < n ==>
        objects[k].key !in storage.down && EntryAgrees(objects[k], files, storage.bucket, hash)
    {
      var o := objects[n];
      assert o.key in KeysOf(objects);
      if !RowAgrees(o, files) {
        assert !EntryAgrees(o, files, storage.bucket, hash);
        return false;
      }
      if o.key in storage.down { return false; }
      var size, digest := ReadObject(storage.bucket[o.key], hash);
      if size != o.size || digest != o.sha {
        assert !EntryAgrees(o, files, storage.bucket, hash);
        return false;
      }
    }
    ok := true;
  }

  class Service {
    var frozen: bool
    var stage: Stage
    var id: Option<string>
    var raw: Option<Sha>
    var restricted: bool
    var confirmedAt: Option<int>
    var verifiedAt: Option<int>
    var operator: Option<string>
    var audit: seq<(Event, string)>

    function View(): State
      reads this
    {
      State(frozen, stage, id, raw, restricted, confirmedAt.Some?, verifiedAt.Some?, None)
    }

    constructor (frozen: bool)
      ensures Initial(View()) && this.frozen == frozen && audit == []
    {
      this.frozen := frozen;
      stage, id, raw, restricted := Outbox.StageOpen, None, None, false;
      confirmedAt, verifiedAt, operator, audit := None, None, None, [];
    }

    method StartRecovery(m: Manifest, who: string)
      modifies this
      ensures View() == State(old(frozen), Outbox.Recovering, Some(m.id), Some(m.raw), true, false, false, None)
      ensures operator == Some(Trimmed(who)) && audit == old(audit) + [(RecoveryStarted, m.id)]
    {
      stage := Outbox.Recovering;
      id, raw := Some(m.id), Some(m.raw);
      restricted := true;
      confirmedAt, verifiedAt := None, None;
      operator := Some(Trimmed(who));
      audit := audit + [(RecoveryStarted, m.id)];
    }

    /** Suppression of the outbox and revocation of sessions belong to the same transaction; the
        outbox part is `SuppressForRestrictedRecovery`. */
    method RecoverTo(m: Manifest, who: string, reason: string) returns (r: Result)
      modifies this
      ensures r.AwaitsConfirmation? <==>
        RecoveryId(m.id) && Authorised(who, reason) && Enabled(old(View()), Recover(m))
      ensures r.AwaitsConfirmation? || r.Failure?
      ensures r.AwaitsConfirmation? ==>
        forall hash :: View() == Apply(old(View()), Recover(m), hash)
      ensures r.AwaitsConfirmation? ==>
        audit == old(audit) + (if old(stage).StageOpen? then [(RecoveryStarted, m.id)] else [])
                 + [(RestrictedConverged, m.id)]
      ensures operator == if r.AwaitsConfirmation? && old(stage).StageOpen? then Some(Trimmed(who)) else old(operator)
      ensures r.Failure? ==> View() == old(View()) && audit == old(audit)
    {
      if !frozen { return Failure(DeploymentFreeze); }
      if !RecoveryId(m.id) || !Authorised(who, reason) { return Failure(Request); }
      match stage {
      case ApiOpen => return Failure(StateRefused);
      case Recovering =>
        if id != Some(m.id) || raw != Some(m.raw) || !restricted { return Failure(StateRefused); }
      case StageOpen =>
        if id == Some(m.id) { return Failure(StateRefused); }
        StartRecovery(m, who);
      }
      audit := audit + [(RestrictedConverged, m.id)];
      r := AwaitsConfirmation;
    }

    method RecordFailure(recovery: string)
      modifies this
      ensures View() == old(View()).(stage := if old(id) == Some(recovery) then Outbox.Recovering else old(stage))
      ensures audit == old(audit) + if old(id) == Some(recovery) then [(VerificationFailed, recovery)] else []
    {
      if id == Some(recovery) {
        stage := Outbox.Recovering;
        audit := audit + [(VerificationFailed, recovery)];
      }
    }

    /** The second transaction of a confirmation. */
    method VerifyAndOpen(m: Manifest, counts: map<string, nat>, files: set<Stored>, storage: Storage,
                         hash: Bytes -> Sha, now: int) returns (r: Result)
      modifies this
      ensures r.ApiIsOpen? <==>
        && MayVerify(old(View()), m) && Reachable(m.objects, storage)
        && Passes(m, Facts(counts, files, storage.bucket), hash)
      ensures View() == if r.ApiIsOpen? then old(View()).(stage := Outbox.ApiOpen, verified := true)
                        else Failed(old(View()), m)
      ensures audit == old(audit) + if r.ApiIsOpen? then [(IntegrityVerified, m.id), (ApiReady, m.id)]
                                    else if old(id) == Some(m.id) then [(VerificationFailed, m.id)] else []
      ensures r.ApiIsOpen? || r.Failure?
    {
      if !stage.Recovering? || id != Some(m.id) || raw != Some(m.raw) || !restricted || confirmedAt.None? {
        RecordFailure(m.id);
        return Failure(StateRefused);
      }
      if !AllZero(counts) {
        RecordFailure(m.id);
        return Failure(Verification);
      }
      var agree := ObjectChecks(m.objects, files, storage, hash);
      if !agree {
        RecordFailure(m.id);
        return Failure(Objects);
      }
      stage := Outbox.ApiOpen;
      verifiedAt := Some(now);
      audit := audit + [(IntegrityVerified, m.id)];
      audit := audit + [(ApiReady, m.id)];
      r := ApiIsOpen;
    }

    /** Both transactions of a confirmation; storage that does not answer is a failed verification. */
    method ConfirmRestrictedAccess(
        m: Manifest, who: string, reason: string, counts: map<string, nat>, files: set<Stored>, storage: Storage,
        hash: Bytes -> Sha, now: int) returns (r: Result)
      modifies this
      ensures RecoveryId(m.id) && Authorised(who, reason) && Enabled(old(View()), Confirm(m)) ==>
        var facts := Facts(counts, files, storage.bucket);
        && (r.ApiIsOpen? <==> Reachable(m.objects, storage) && Passes(m, facts, hash))
        && (r.ApiIsOpen? ==> View() == Apply(Apply(old(View()), Confirm(m), hash), Verify(facts), hash))
        && (!r.ApiIsOpen? ==> View() == old(View()).(confirmed := true))
      ensures !(RecoveryId(m.id) && Authorised(who, reason) && Enabled(old(View()), Confirm(m))) ==>
        r.Failure? && View() == old(View()) && audit == old(audit)
    {
      if !frozen { return Failure(DeploymentFreeze); }
      if !RecoveryId(m.id) || !Authorised(who, reason) { return Failure(Request); }
      if !stage.Recovering? || id != Some(m.id) || raw != Some(m.raw) || !restricted { return Failure(StateRefused); }
      if confirmedAt.None? {
        confirmedAt := Some(now);
        audit := audit + [(AccessConfirmed, m.id)];
      }
      r := VerifyAndOpen(m, counts, files, storage, hash, now);
    }

    method DispatcherOpen(recovery: string, who: string, reason: string) returns (r: Result)
      modifies this
      ensures r.IsOpen? <==>
        RecoveryId(recovery) && Authorised(who, reason) && Enabled(old(View()), OpenDispatcher(recovery))
      ensures View() == if r.IsOpen? then old(View()).(stage := Outbox.StageOpen) else old(View())
      ensures audit == old(audit) + if r.IsOpen? then [(Event.DispatcherOpened, recovery)] else []
    {
      if frozen { return Failure(DeploymentFreeze); }
      if !RecoveryId(recovery) || !Authorised(who, reason) { return Failure(Request); }
      if !stage.ApiOpen? || id != Some(recovery) { return Failure(StateRefused); }
      stage := Outbox.StageOpen;
      audit := audit + [(Event.DispatcherOpened, recovery)];
      r := IsOpen;
    }
  }
}
