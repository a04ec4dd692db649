/**
 File uploads and the recovery of interrupted ones. A file is a database row and an object in
 a store without transactions; uploaders and any number of recoverers work on both, may crash
 between any two steps, and may find the store unavailable at any step.

 A recoverer holds the work's advisory lock from loading a pending row until its transaction
 ends. `Timely` is the deployment assumption: an uploader takes no step on a row that is old
 enough to be recovered.
 */
module Files {
  import opened Base

  datatype Kind = Image | Material

  datatype FileStatus = Pending | Ready | Failed

  type Digest = seq<nat>

  /** What reading an object back finds: content type, size and digest. */
  datatype Meta = Meta(contentType: string, size: nat, digest: Digest)

  datatype File = File(work: Id, kind: Kind, meta: Meta, key: Id, status: FileStatus, createdAt: int)

  /** A stored object; its content may fail the type and size checks when read back. */
  type Content = Option<Meta>

  datatype Phase =
    | Put | Read | MakeReady | Drop(strict: bool) | Fail   // uploader; recoverers share Read to Fail
    | WaitLock | LateFail | Cleanup                        // recoverer only

  datatype Actor = Actor(file: Id, recovers: bool, phase: Phase)

  datatype Sys = Sys(
    ttl: nat,
    now: int,
    files: map<Id, File>,
    objects: map<Id, Content>,
    locks: map<Id, Id>,
    actors: map<Id, Actor>)

  /** What the outside world answers to one step. `left` is what a failed write left behind. */
  datatype Reply = Reply(ok: bool, left: Option<Content>)

  datatype Action =
    | Tick(to: int)
    | Reserve(a: Id, f: Id, file: File)
    | Recover(a: Id, f: Id)
    | Step(a: Id, reply: Reply)
    | Crash(a: Id)

  predicate Matches(f: File, c: Content) { c == Some(f.meta) }

  predicate HasObject(y: Sys, f: File) { f.key in y.objects && Matches(f, y.objects[f.key]) }

  predicate Recoverable(y: Sys, f: File) { f.createdAt + y.ttl <= y.now }

  ghost predicate Enabled(y: Sys, a: Action) {
    match a
    case Tick(to) => y.now <= to
    case Reserve(a, f, file) =>
      && a !in y.actors && f !in y.files && file.status.Pending? && file.createdAt == y.now
      && file.work !in y.locks && file.key !in y.objects && Fits(y.files, file)
      && forall g :: g in y.files ==> y.files[g].key != file.key
    case Recover(a, f) =>
      && a !in y.actors && f in y.files && y.files[f].status.Pending? && Recoverable(y, y.files[f])
      && forall w :: w in y.locks ==> y.locks[w] != a
    case Step(a, _) =>
      && a in y.actors && y.actors[a].file in y.files
      && (y.actors[a].phase.WaitLock? ==> y.files[y.actors[a].file].work !in y.locks)
    case Crash(a) => a in y.actors
  }

  /** The assumption on deployments: no upload step once the row may be recovered. */
  predicate Timely(y: Sys, a: Action) {
    a.Step? && a.a in y.actors && !y.actors[a.a].recovers && y.actors[a.a].file in y.files
    ==> !Recoverable(y, y.files[y.actors[a.a].file])
  }

  datatype ObjectChange = KeepObject | StoreObject(content: Content) | DeleteObject

  datatype LockChange = KeepLock | TakeLock | ReleaseLock

  /** One step of an actor: its next phase, or none when it ends; the status it writes if the row
      is still pending; what it does to the object and to the work's lock. */
  datatype Effect = Effect(next: Option<Phase>, writes: Option<FileStatus>, change: ObjectChange, lock: LockChange)

  function Next(p: Phase): Effect { Effect(Some(p), None, KeepObject, KeepLock) }

  const STOP := Effect(None, None, KeepObject, ReleaseLock)

  function EffectOf(y: Sys, k: Actor, f: File, r: Reply): Effect {
    match k.phase
    case Put =>
      var change := if r.left.Some? && f.key !in y.objects then StoreObject(r.left.value) else KeepObject;
      if r.ok && f.key !in y.objects then Next(Read).(change := change) else STOP.(change := change)
    case WaitLock => if f.status.Pending? then Next(Read).(lock := TakeLock) else STOP
    case Read => if !r.ok then STOP else Next(if HasObject(y, f) then MakeReady else Drop(true))
    case Drop(strict) =>
      if r.ok then Next(Fail).(change := DeleteObject) else if strict then STOP else Next(Fail)
    case Fail => STOP.(writes := Some(Failed))
    case MakeReady =>
      if r.ok then STOP.(writes := Some(Ready))
      else if k.recovers then Next(LateFail).(lock := ReleaseLock)
      else Next(Drop(false))
    case LateFail => if f.status.Pending? then Next(Cleanup).(writes := Some(Failed)) else STOP
    case Cleanup => STOP.(change := if r.ok then DeleteObject else KeepObject)
  }

  function Unlocked(locks: map<Id, Id>, a: Id): map<Id, Id> { map w | w in locks && locks[w] != a :: locks[w] }

  function ActorStep(y: Sys, a: Id, r: Reply): Sys
    requires a in y.actors && y.actors[a].file in y.files
  {
    var k := y.actors[a];
    var f := y.files[k.file];
    var e := EffectOf(y, k, f, r);
    y.(actors := if e.next.Some? then y.actors[a := k.(phase := e.next.value)] else y.actors - {a},
       files := if e.writes.Some? && f.status.Pending?
                then y.files[k.file := f.(status := e.writes.value)] else y.files,
       objects := match e.change
         case KeepObject => y.objects
         case StoreObject(content) => y.objects[f.key := content]
         case DeleteObject => y.objects - {f.key},
       locks := match e.lock
         case KeepLock => y.locks
         case TakeLock => y.locks[f.work := a]
         case ReleaseLock => Unlocked(y.locks, a))
  }

  function Apply(y: Sys, a: Action): Sys
    requires Enabled(y, a)
  {
    match a
    case Tick(to) => y.(now := to)
    case Reserve(a, f, file) => y.(files := y.files[f := file], actors := y.actors[a := Actor(f, false, Put)])
    case Recover(a, f) => y.(actors := y.actors[a := Actor(f, true, WaitLock)])
    case Step(a, r) => ActorStep(y, a, r)
    case Crash(a) => y.(actors := y.actors - {a}, locks := Unlocked(y.locks, a))
  }

  ghost predicate Legal(y: Sys, run: seq<Action>)
    decreases |run|
  {
    run == [] || (Enabled(y, run[0]) && Legal(Apply(y, run[0]), run[1..]))
  }

  ghost function After(y: Sys, run: seq<Action>): Sys
    requires Legal(y, run)
    decreases |run|
  {
    if run == [] then y else After(Apply(y, run[0]), run[1..])
  }

  ghost predicate TimelyRun(y: Sys, run: seq<Action>)
    requires Legal(y, run)
    decreases |run|
  {
    run == [] || (Timely(y, run[0]) && TimelyRun(Apply(y, run[0]), run[1..]))
  }

  // ----- Quota -----

  const MAX_IMAGES := 12
  const MAX_IMAGE_BYTES := 30 * 1024 * 1024
  const MAX_MATERIALS := 8
  const MAX_MATERIAL_BYTES := 32 * 1024 * 1024

  function MaxCount(kind: Kind): nat { if kind.Material? then MAX_MATERIALS else MAX_IMAGES }

  function MaxTotal(kind: Kind): nat { if kind.Material? then MAX_MATERIAL_BYTES else MAX_IMAGE_BYTES }

  /** The files that count against the limits of a work: pending and ready ones. */
  function Live(files: map<Id, File>, work: Id, kind: Kind): set<Id> {
    set f | f in files && files[f].work == work && files[f].kind == kind && !files[f].status.Failed?
  }

  ghost function TotalSize(files: map<Id, File>, s: set<Id>): nat
    requires s <= files.Keys
  {
    if s == {} then 0 else var f :| f in s; files[f].meta.size + TotalSize(files, s - {f})
  }

  /** The checks of a reservation, made under the work's lock. */
  ghost predicate Fits(files: map<Id, File>, file: File) {
    var live := Live(files, file.work, file.kind);
    |live| < MaxCount(file.kind) && TotalSize(files, live) + file.meta.size <= MaxTotal(file.kind)
  }

  lemma {:induction false} TotalSplit(files: map<Id, File>, s: set<Id>, f: Id)
    requires s <= files.Keys && f in s
    ensures TotalSize(files, s) == files[f].meta.size + TotalSize(files, s - {f})
  {
    var g :| g in s && TotalSize(files, s) == files[g].meta.size + TotalSize(files, s - {g});
    if g == f {
    } else {
      TotalSplit(files, s - {g}, f);
      TotalSplit(files, s - {f}, g);
      assert s - {g} - {f} == s - {f} - {g};
    }
  }

  /** Fewer files with the same sizes take no more room. */
  lemma {:induction false} TotalShrinks(files: map<Id, File>, s: set<Id>, files': map<Id, File>, s': set<Id>)
    requires s <= files.Keys && s' <= files'.Keys && s' <= s
    requires forall f :: f in s' ==> files'[f].meta == files[f].meta
    ensures TotalSize(files', s') <= TotalSize(files, s)
  {
    if s' == {} {
    } else {
      var f :| f in s';
      TotalSplit(files, s, f);
      TotalSplit(files', s', f);
      TotalShrinks(files, s - {f}, files', s' - {f});
    }
  }

  ghost predicate WorkWithin(files: map<Id, File>, work: Id, kind: Kind) {
    |Live(files, work, kind)| <= MaxCount(kind) && TotalSize(files, Live(files, work, kind)) <= MaxTotal(kind)
  }

  ghost predicate WithinQuota(y: Sys) {
    forall work, kind :: WorkWithin(y.files, work, kind)
  }

  lemma FittingFileKeepsQuota(files: map<Id, File>, f: Id, file: File)
    requires f !in files && file.status.Pending? && Fits(files, file)
    ensures WorkWithin(files[f := file], file.work, file.kind)
  {
    var was, live := Live(files, file.work, file.kind), Live(files[f := file], file.work, file.kind);
    assert live == was + {f} && live - {f} == was;
    TotalSplit(files[f := file], live, f);
    TotalShrinks(files, was, files[f := file], was);
  }

  lemma OtherFileKeepsQuota(files: map<Id, File>, f: Id, file: File, work: Id, kind: Kind)
    requires f !in files && WorkWithin(files, work, kind) && (file.work != work || file.kind != kind)
    ensures WorkWithin(files[f := file], work, kind)
  {
    var was := Live(files, work, kind);
    assert Live(files[f := file], work, kind) == was;
    TotalShrinks(files, was, files[f := file], was);
  }

  lemma StepKeepsQuota(y: Sys, a: Action)
    requires WithinQuota(y) && Enabled(y, a)
    ensures WithinQuota(Apply(y, a))
  {
    var z := Apply(y, a);
    forall work, kind
      ensures WorkWithin(z.files, work, kind)
    {
      assert WorkWithin(y.files, work, kind);
      if a.Reserve? {
        if a.file.work == work && a.file.kind == kind { FittingFileKeepsQuota(y.files, a.f, a.file); }
        else { OtherFileKeepsQuota(y.files, a.f, a.file, work, kind); }
      } else {
        assert z.files.Keys == y.files.Keys;
        forall f | f in y.files ensures f in z.files && z.files[f].(status := y.files[f].status) == y.files[f]
          && (!y.files[f].status.Pending? ==> z.files[f] == y.files[f])
        {
          StepKeepsFiles(y, a, f);
        }
        SubsetSize(Live(z.files, work, kind), Live(y.files, work, kind));
        TotalShrinks(y.files, Live(y.files, work, kind), z.files, Live(z.files, work, kind));
      }
    }
  }

  /** Under every interleaving, crash and storage failure, the live files of a work stay within
      the count and size limits of their kind. */
  lemma {:induction false} QuotaHolds(y: Sys, run: seq<Action>)
    requires WithinQuota(y) && Legal(y, run)
    ensures WithinQuota(After(y, run))
    decreases |run|
  {
    if run == [] {
    } else {
      StepKeepsQuota(y, run[0]);
      QuotaHolds(Apply(y, run[0]), run[1..]);
    }
  }

  // ----- A file leaves `Pending` at most once, whatever happens -----

  lemma StepKeepsFiles(y: Sys, a: Action, f: Id)
    requires Enabled(y, a) && f in y.files
    ensures var z := Apply(y, a);
            f in z.files && z.files[f].(status := y.files[f].status) == y.files[f]
            && (!y.files[f].status.Pending? ==> z.files[f] == y.files[f])
  {
  }

  lemma {:induction false} LeavesPendingOnce(y: Sys, run: seq<Action>, f: Id)
    requires Legal(y, run) && f in y.files && !y.files[f].status.Pending?
    ensures f in After(y, run).files && After(y, run).files[f] == y.files[f]
    decreases |run|
  {
    if run == [] {
    } else {
      StepKeepsFiles(y, run[0], f);
      LeavesPendingOnce(Apply(y, run[0]), run[1..], f);
    }
  }

  // ----- Every ready file has its object -----

  predicate Locked(p: Phase) { p.Read? || p.Drop? || p.Fail? || p.MakeReady? }

  ghost predicate ActorOk(y: Sys, a: Id)
    requires a in y.actors
  {
    var k := y.actors[a];
    && k.file in y.files
    && var f := y.files[k.file];
       if k.recovers then
         && Recoverable(y, f) && !k.phase.Put? && k.phase != Drop(false)
         && (Locked(k.phase) ==> f.work in y.locks && y.locks[f.work] == a && !f.status.Ready?)
         && (k.phase.MakeReady? && f.status.Pending? ==> HasObject(y, f))
         && (k.phase.Cleanup? ==> f.status.Failed?)
       else
         && (k.phase.Put? || Locked(k.phase))
         && (!Recoverable(y, f) ==> f.status.Pending? && (k.phase.MakeReady? ==> HasObject(y, f)))
  }

  ghost predicate OneUploader(y: Sys) {
    forall a, b :: a in y.actors && b in y.actors && a != b && !y.actors[a].recovers && !y.actors[b].recovers ==>
      y.actors[a].file != y.actors[b].file
  }

  ghost predicate KeysUnique(y: Sys) {
    forall f, g :: f in y.files && g in y.files && f != g ==> y.files[f].key != y.files[g].key
  }

  ghost predicate ReadyHasObject(y: Sys) {
    forall f :: f in y.files && y.files[f].status.Ready? ==> HasObject(y, y.files[f])
  }

  ghost predicate Inv(y: Sys) {
    KeysUnique(y) && ReadyHasObject(y) && OneUploader(y) && forall a :: a in y.actors ==> ActorOk(y, a)
  }

  // What one actor's step leaves alone.

  lemma StepFramesFiles(y: Sys, a: Id, r: Reply)
    requires a in y.actors && y.actors[a].file in y.files
    ensures var z, f := ActorStep(y, a, r), y.actors[a].file;
            && z.ttl == y.ttl && z.now == y.now && z.files.Keys == y.files.Keys
            && (forall g :: g in y.files && g != f ==> z.files[g] == y.files[g])
  {
  }

  lemma StepFramesObjects(y: Sys, a: Id, r: Reply, k: Id)
    requires a in y.actors && y.actors[a].file in y.files && k != y.files[y.actors[a].file].key
    ensures k in ActorStep(y, a, r).objects <==> k in y.objects
    ensures k in y.objects ==> ActorStep(y, a, r).objects[k] == y.objects[k]
  {
  }

  lemma StepFramesActor(y: Sys, a: Id, r: Reply, b: Id)
    requires a in y.actors && y.actors[a].file in y.files
    ensures b in ActorStep(y, a, r).actors ==> b in y.actors
    ensures b in y.actors && b != a ==> b in ActorStep(y, a, r).actors && ActorStep(y, a, r).actors[b] == y.actors[b]
    ensures b == a && a in ActorStep(y, a, r).actors ==>
      ActorStep(y, a, r).actors[a] == y.actors[a].(phase := ActorStep(y, a, r).actors[a].phase)
  {
  }

  lemma StepFramesLocks(y: Sys, a: Id, r: Reply, w: Id)
    requires a in y.actors && y.actors[a].file in y.files && w in y.locks && y.locks[w] != a
    requires !(y.actors[a].phase.WaitLock? && w == y.files[y.actors[a].file].work)
    ensures w in ActorStep(y, a, r).locks && ActorStep(y, a, r).locks[w] == y.locks[w]
  {
  }

  /** The part of the state that other files' actors look at is untouched. */
  lemma OtherFileOk(y: Sys, a: Id, r: Reply, b: Id)
    requires Inv(y) && a in y.actors && y.actors[a].file in y.files && b != a
    requires b in y.actors && y.actors[b].file in y.files && y.actors[b].file != y.actors[a].file
    requires y.actors[a].phase.WaitLock? ==> y.files[y.actors[a].file].work !in y.locks
    ensures b in ActorStep(y, a, r).actors && ActorOk(ActorStep(y, a, r), b)
  {
    assert ActorOk(y, b);
    var f := y.files[y.actors[b].file];
    StepFramesFiles(y, a, r);
    StepFramesActor(y, a, r, b);
    StepFramesObjects(y, a, r, f.key);
    if f.work in y.locks && y.locks[f.work] == b { StepFramesLocks(y, a, r, f.work); }
  }

  lemma SameFileOk(y: Sys, a: Id, r: Reply, b: Id)
    requires Inv(y) && Enabled(y, Step(a, r)) && Timely(y, Step(a, r)) && b != a
    requires b in y.actors && y.actors[b].file == y.actors[a].file
    ensures b in ActorStep(y, a, r).actors && ActorOk(ActorStep(y, a, r), b)
  {
    assert ActorOk(y, a) && ActorOk(y, b);
  }

  lemma UploaderOk(y: Sys, a: Id, r: Reply)
    requires Inv(y) && Enabled(y, Step(a, r)) && Timely(y, Step(a, r)) && !y.actors[a].recovers
    ensures a in ActorStep(y, a, r).actors ==> ActorOk(ActorStep(y, a, r), a)
  {
    assert ActorOk(y, a);
  }

  lemma RecovererOk(y: Sys, a: Id, r: Reply)
    requires Inv(y) && Enabled(y, Step(a, r)) && y.actors[a].recovers
    ensures a in ActorStep(y, a, r).actors ==> ActorOk(ActorStep(y, a, r), a)
  {
    assert ActorOk(y, a);
  }

  /** Only its own recoverer or a timely uploader touches the object of a pending file, and
      nobody touches the object of a ready one. */
  lemma ObjectsOk(y: Sys, a: Id, r: Reply, f: Id)
    requires Inv(y) && Enabled(y, Step(a, r)) && Timely(y, Step(a, r)) && f in y.files
    requires ActorStep(y, a, r).files[f].status.Ready?
    ensures HasObject(ActorStep(y, a, r), y.files[f])
  {
    assert ActorOk(y, a);
    StepFramesFiles(y, a, r);
    if f != y.actors[a].file { StepFramesObjects(y, a, r, y.files[f].key); }
  }

  lemma ActorStepKeepsInv(y: Sys, a: Id, r: Reply)
    requires Inv(y) && Enabled(y, Step(a, r)) && Timely(y, Step(a, r))
    ensures Inv(ActorStep(y, a, r))
  {
    var z := ActorStep(y, a, r);
    StepFramesFiles(y, a, r);
    forall b | b in z.actors
      ensures ActorOk(z, b) && b in y.actors
      ensures z.actors[b].recovers == y.actors[b].recovers && z.actors[b].file == y.actors[b].file
    {
      StepFramesActor(y, a, r, b);
      if b == a { if y.actors[a].recovers { RecovererOk(y, a, r); } else { UploaderOk(y, a, r); } }
      else if y.actors[b].file == y.actors[a].file { SameFileOk(y, a, r, b); }
      else { assert ActorOk(y, b); OtherFileOk(y, a, r, b); }
    }
    forall f | f in z.files && z.files[f].status.Ready? ensures HasObject(z, z.files[f]) {
      StepKeepsFiles(y, Step(a, r), f);
      ObjectsOk(y, a, r, f);
    }
    forall f, g | f in z.files && g in z.files && f != g ensures z.files[f].key != z.files[g].key {
      StepKeepsFiles(y, Step(a, r), f);
      StepKeepsFiles(y, Step(a, r), g);
    }
  }

  lemma StepKeepsInv(y: Sys, a: Action)
    requires Inv(y) && Enabled(y, a) && Timely(y, a)
    ensures Inv(Apply(y, a))
  {
    match a
    case Step(k, r) => ActorStepKeepsInv(y, k, r);
    case Reserve(k, f, file) => ReserveKeepsInv(y, k, f, file);
    case _ => OtherStepKeepsInv(y, a);
  }

  lemma OtherStepKeepsInv(y: Sys, a: Action)
    requires Inv(y) && Enabled(y, a) && (a.Tick? || a.Recover? || a.Crash?)
    ensures Inv(Apply(y, a))
  {
    var z := Apply(y, a);
    forall b | b in z.actors ensures ActorOk(z, b) { if b in y.actors { assert ActorOk(y, b); } }
  }

  lemma ReserveKeepsInv(y: Sys, a: Id, f: Id, file: File)
    requires Inv(y) && Enabled(y, Reserve(a, f, file))
    ensures Inv(Apply(y, Reserve(a, f, file)))
  {
    var z := Apply(y, Reserve(a, f, file));
    forall b | b in z.actors ensures ActorOk(z, b) { if b != a { assert ActorOk(y, b); } }
    forall b | b in y.actors ensures y.actors[b].file != f { assert ActorOk(y, b); }
  }

  lemma {:induction false} RunKeepsInv(y: Sys, run: seq<Action>)
    requires Inv(y) && Legal(y, run) && TimelyRun(y, run)
    ensures Inv(After(y, run))
    decreases |run|
  {
    if run == [] {
    } else {
      StepKeepsInv(y, run[0]);
      RunKeepsInv(Apply(y, run[0]), run[1..]);
    }
  }

  /** In every timely run every ready file has a stored object with the recorded type, size and digest. */
  lemma ReadyFilesHaveTheirObject(ttl: nat, run: seq<Action>, f: Id)
    requires Legal(Sys(ttl, 0, map[], map[], map[], map[]), run)
    requires TimelyRun(Sys(ttl, 0, map[], map[], map[], map[]), run)
    requires var y := After(Sys(ttl, 0, map[], map[], map[], map[]), run);
             f in y.files && y.files[f].status.Ready?
    ensures var y := After(Sys(ttl, 0, map[], map[], map[], map[]), run);
            y.files[f].key in y.objects && y.objects[y.files[f].key] == Some(y.files[f].meta)
  {
    RunKeepsInv(Sys(ttl, 0, map[], map[], map[], map[]), run);
  }
}
