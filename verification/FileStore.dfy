/** The file service over its tables: spooling, reservation, and the recovery of one work. */
module FileStore {
  import opened Base
  import opened Files

  type Bytes = seq<nat>

  const CHUNK := 64 * 1024

  datatype Spooled = TooLarge | Spooled(data: Bytes, size: nat, digest: Digest)

  /** Answers of storage and of the access check to one reconciliation. */
  datatype Answers = Answers(readable: bool, deletable: bool, allowed: bool)

  datatype Reconciled = Nothing | BecameReady | BecameFailed | Retryable | Forbidden

  /** Copies an upload chunk by chunk; stops as soon as the limit is exceeded. */
  method SpoolUpload(source: Bytes, limit: nat, hash: Bytes -> Digest) returns (r: Spooled)
    ensures r.TooLarge? <==> |source| > limit
    ensures r.Spooled? ==> r == Spooled(source, |source|, hash(source))
  {
    var data: Bytes, digested: Bytes, size := [], [], 0;
    var rest := source;
    while rest != []
      invariant data + rest == source && digested == data && size == |data| <= limit
      decreases |rest|
    {
      // A read returns at least one byte and at most a chunk.
      var n :| 1 <= n <= |rest| && n <= CHUNK;
      var chunk := rest[..n];
      rest := rest[n..];
      size := size + |chunk|;
      if size > limit { return TooLarge; }
      digested := digested + chunk;
      data := data + chunk;
    }
    assert data == source;
    r := Spooled(data, size, hash(digested));
  }

  function Pendings(files: map<Id, File>, work: Id, kind: Kind, cutoff: int): set<Id> {
    set f | f in files && files[f].work == work && files[f].kind == kind && files[f].status.Pending?
            && files[f].createdAt <= cutoff
  }

  /** The object read back has the recorded type, size and digest. */
  predicate Stored(objects: map<Id, Content>, f: File) {
    f.key in objects && Matches(f, objects[f.key])
  }

  predicate KeysDiffer(files: map<Id, File>) {
    forall f, g :: f in files && g in files && f != g ==> files[f].key != files[g].key
  }

  class Store {
    const ttl: nat
    var files: map<Id, File>
    var objects: map<Id, Content>

    constructor (ttl: nat)
      ensures this.ttl == ttl && files == map[] && objects == map[]
    {
      this.ttl := ttl;
      files, objects := map[], map[];
    }

    /** Number and total size of the live files, added up row by row. */
    method CountLive(work: Id, kind: Kind) returns (count: nat, total: nat)
      ensures count == |Live(files, work, kind)|
      ensures total == TotalSize(files, Live(files, work, kind))
    {
      var rest := Live(files, work, kind);
      count, total := 0, 0;
      while rest != {}
        invariant rest <= Live(files, work, kind)
        invariant count + |rest| == |Live(files, work, kind)|
        invariant total + TotalSize(files, rest) == TotalSize(files, Live(files, work, kind))
      {
        var f :| f in rest;
        TotalSplit(files, rest, f);
        count, total := count + 1, total + files[f].meta.size;
        rest := rest - {f};
      }
    }

    method ReserveFile(f: Id, file: File) returns (reserved: bool)
      requires f !in files && file.status.Pending?
      modifies this`files
      ensures reserved <==> Fits(old(files), file)
      ensures files == if reserved then old(files)[f := file] else old(files)
    {
      var count, total := CountLive(file.work, file.kind);
      if count >= MaxCount(file.kind) || total + file.meta.size > MaxTotal(file.kind) { return false; }
      files := files[f := file];
      reserved := true;
    }

    method MarkCompleted(f: Id, to: FileStatus) returns (updated: bool)
      requires f in files
      modifies this`files
      ensures updated <==> old(files)[f].status.Pending?
      ensures files == if updated then old(files)[f := old(files)[f].(status := to)] else old(files)
    {
      updated := files[f].status.Pending?;
      if updated { files := files[f := files[f].(status := to)]; }
    }

    /** Settles one pending row under the work's lock. */
    method ReconcilePending(f: Id, answers: Answers) returns (result: Reconciled)
      requires f in files
      modifies this`files, this`objects
      ensures var was := old(files)[f];
        && (result.Nothing? <==> !was.status.Pending?)
        && (result.BecameReady? <==>
              was.status.Pending? && answers.readable && Stored(old(objects), was) && answers.allowed)
        && (result.BecameFailed? <==>
              was.status.Pending? && answers.readable && !Stored(old(objects), was) && answers.deletable)
        && (result.Forbidden? <==>
              was.status.Pending? && answers.readable && Stored(old(objects), was) && !answers.allowed)
      ensures files == match result
        case BecameReady => old(files)[f := old(files)[f].(status := Ready)]
        case BecameFailed => old(files)[f := old(files)[f].(status := Failed)]
        case Forbidden => old(files)[f := old(files)[f].(status := Failed)]
        case _ => old(files)
      ensures objects == (if result.BecameFailed? || (result.Forbidden? && answers.deletable)
                          then old(objects) - {old(files)[f].key} else old(objects))
    {
      var file := files[f];
      if !file.status.Pending? { return Nothing; }
      if !answers.readable { return Retryable; }
      if !Stored(objects, file) {
        if !answers.deletable { return Retryable; }
        objects := objects - {file.key};
        var updated := MarkCompleted(f, Failed);
        return BecameFailed;
      }
      if answers.allowed {
        var updated := MarkCompleted(f, Ready);
        return BecameReady;
      }
      var updated := MarkCompleted(f, Failed);
      if updated && answers.deletable { objects := objects - {file.key}; }
      result := Forbidden;
    }

    /** One row is settled, or its reconciliation fails; no other row or object is touched. */
    method SettlePending(f: Id, answers: Answers) returns (ok: bool)
      requires KeysDiffer(files) && f in files && files[f].status.Pending?
      modifies this`files, this`objects
      ensures ok <==>
        answers.readable && (if Stored(old(objects), old(files)[f]) then answers.allowed else answers.deletable)
      ensures KeysDiffer(files) && files.Keys == old(files).Keys
      ensures if ok then Settled(old(files)[f], old(objects), files[f], objects)
              else Interrupted(old(files)[f], old(objects), files[f])
      ensures forall g :: g in files && g != f ==> Kept(old(files)[g], old(objects), files[g], objects)
    {
      var result := ReconcilePending(f, answers);
      ok := result.BecameReady? || result.BecameFailed?;
    }

    /** Settles the old pending rows of a work, one transaction after the other, up to the first
        one at which storage does not answer or access is refused. */
    method RecoverPending(work: Id, kind: Kind, now: int, answers: Id -> Answers)
      returns (failed: Option<Id>, ghost settled: set<Id>)
      requires KeysDiffer(files)
      modifies this`files, this`objects
      ensures var rows := Pendings(old(files), work, kind, now - ttl);
        && settled <= rows && (failed.None? ==> settled == rows)
        && (failed.Some? ==> failed.value in rows - settled && failed.value in files
                             && answers(failed.value) != Answers(true, true, true)
                             && Interrupted(old(files)[failed.value], old(objects), files[failed.value]))
        && PartlySettled(old(files), old(objects), files, objects, settled, failed)
    {
      var rows := Pendings(files, work, kind, now - ttl);
      var rest := rows;
      settled, failed := {}, None;
      while rest != {}
        invariant settled + rest == rows && settled !! rest && KeysDiffer(files)
        invariant PartlySettled(old(files), old(objects), files, objects, settled, None)
        invariant forall f :: f in rest ==> f in files && files[f].status.Pending? && files[f] == old(files)[f]
      {
        var f :| f in rest;
        ghost var files0, objects0 := files, objects;
        var ok := SettlePending(f, answers(f));
        if !ok {
          StopAt(old(files), old(objects), files0, objects0, files, objects, settled, f);
          return Some(f), settled;
        }
        SettleMore(old(files), old(objects), files0, objects0, files, objects, settled, f);
        rest, settled := rest - {f}, settled + {f};
      }
    }
  }

  /** The rows in `done` are settled, and no others are touched except perhaps `failed`. */
  ghost predicate PartlySettled(
      files: map<Id, File>, objects: map<Id, Content>, files': map<Id, File>, objects': map<Id, Content>,
      done: set<Id>, failed: Option<Id>)
  {
    && files'.Keys == files.Keys
    && forall f :: f in files && failed != Some(f) ==>
         if f in done then Settled(files[f], objects, files'[f], objects')
         else Kept(files[f], objects, files'[f], objects')
  }

  lemma SettleMore(
      files: map<Id, File>, objects: map<Id, Content>, files1: map<Id, File>, objects1: map<Id, Content>,
      files2: map<Id, File>, objects2: map<Id, Content>, done: set<Id>, f: Id)
    requires PartlySettled(files, objects, files1, objects1, done, None) && f in files && f !in done
    requires files2.Keys == files1.Keys && Settled(files1[f], objects1, files2[f], objects2)
    requires forall g :: g in files1 && g != f ==> Kept(files1[g], objects1, files2[g], objects2)
    ensures PartlySettled(files, objects, files2, objects2, done + {f}, None)
  {
  }

  lemma StopAt(
      files: map<Id, File>, objects: map<Id, Content>, files1: map<Id, File>, objects1: map<Id, Content>,
      files2: map<Id, File>, objects2: map<Id, Content>, done: set<Id>, f: Id)
    requires PartlySettled(files, objects, files1, objects1, done, None) && f in files && f !in done
    requires files2.Keys == files1.Keys && Interrupted(files1[f], objects1, files2[f])
    requires forall g :: g in files1 && g != f ==> Kept(files1[g], objects1, files2[g], objects2)
    ensures PartlySettled(files, objects, files2, objects2, done, Some(f))
    ensures Interrupted(files[f], objects, files2[f])
  {
  }

  /** A failed reconciliation leaves the row pending, or failed if the object matched and access was refused. */
  predicate Interrupted(f: File, objects: map<Id, Content>, f': File) {
    f' == f || (Stored(objects, f) && f' == f.(status := Failed))
  }

  /** The row is as before, and its object matches if it did. */
  predicate Kept(f: File, objects: map<Id, Content>, f': File, objects': map<Id, Content>) {
    f' == f && (Stored(objects', f) <==> Stored(objects, f)) && (f.key in objects' <==> f.key in objects)
  }

  /** A matching object makes the row ready; otherwise the row fails and the object is gone. */
  predicate Settled(f: File, objects: map<Id, Content>, f': File, objects': map<Id, Content>) {
    && f' == f.(status := if Stored(objects, f) then Ready else Failed)
    && (if Stored(objects, f) then Stored(objects', f) else f.key !in objects')
  }
}
