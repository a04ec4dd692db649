/** What a late uploader can do: exactly when a file can still become ready and lose its object. */
module FileLoss {
  import opened Base
  import opened Files

  predicate Lost(y: Sys, f: Id) {
    f in y.files && y.files[f].status.Ready? && !HasObject(y, y.files[f])
  }

  /** Some continuation, timely or not, loses the object. */
  ghost predicate MayLose(y: Sys, f: Id) {
    exists run :: Legal(y, run) && Lost(After(y, run), f)
  }

  lemma LosePrepend(y: Sys, a: Action, f: Id)
    requires Enabled(y, a) && MayLose(Apply(y, a), f)
    ensures MayLose(y, f)
  {
    var rest :| Legal(Apply(y, a), rest) && Lost(After(Apply(y, a), rest), f);
    var run := [a] + rest;
    assert run[0] == a && run[1..] == rest;
    assert Legal(y, run) && After(y, run) == After(Apply(y, a), rest);
  }

  predicate Uploads(y: Sys, u: Id, f: Id) {
    u in y.actors && !y.actors[u].recovers && y.actors[u].file == f
  }

  predicate Recovers(y: Sys, a: Id, f: Id) {
    a in y.actors && y.actors[a].recovers && y.actors[a].file == f
  }

  /** The uploader has yet to store the object, or holds on to one that matches. */
  predicate Dangerous(y: Sys, u: Id, f: Id)
    requires f in y.files
  {
    && Uploads(y, u, f)
    && (y.actors[u].phase.Put?
        || (HasObject(y, y.files[f])
            && (y.actors[u].phase.Read? || y.actors[u].phase.MakeReady? || y.actors[u].phase == Drop(false))))
  }

  predicate Endangered(y: Sys, f: Id) {
    f in y.files && !y.files[f].status.Failed? && exists u :: u in y.actors && Dangerous(y, u, f)
  }

  // ----- What timely runs keep besides -----

  /** What an actor knows about the object of a file that has not failed. */
  ghost predicate Knows(y: Sys, a: Id)
    requires a in y.actors && y.actors[a].file in y.files
  {
    var k, f := y.actors[a], y.files[y.actors[a].file];
    !f.status.Failed? ==>
      && (k.phase.Put? ==> f.key !in y.objects)
      && (!k.recovers && (k.phase.MakeReady? || k.phase == Drop(false)) ==> HasObject(y, f))
      && (k.phase == Drop(true) ==> !HasObject(y, f))
      && (k.recovers && k.phase.Fail? ==> !HasObject(y, f))
  }

  ghost predicate LocksHeld(y: Sys) {
    forall w :: w in y.locks ==> y.locks[w] in y.actors && y.actors[y.locks[w]].recovers
  }

  ghost predicate Aware(y: Sys) {
    LocksHeld(y) && forall a :: a in y.actors && y.actors[a].file in y.files ==> Knows(y, a)
  }

  /** Only a recoverer takes a lock, and none leaves with one. */
  lemma StepTakesLock(y: Sys, a: Id, r: Reply, w: Id)
    requires Enabled(y, Step(a, r)) && ActorOk(y, a) && w in ActorStep(y, a, r).locks
    ensures var z := ActorStep(y, a, r);
            if z.locks[w] == a then a in z.actors && (y.actors[a].recovers || (w in y.locks && y.locks[w] == a))
            else w in y.locks && z.locks[w] == y.locks[w]
  {
  }

  lemma ActorStepKeepsLocks(y: Sys, a: Id, r: Reply, w: Id)
    requires Inv(y) && LocksHeld(y) && Enabled(y, Step(a, r)) && w in ActorStep(y, a, r).locks
    ensures var z := ActorStep(y, a, r); z.locks[w] in z.actors && z.actors[z.locks[w]].recovers
  {
    assert ActorOk(y, a);
    StepTakesLock(y, a, r, w);
    StepFramesActor(y, a, r, ActorStep(y, a, r).locks[w]);
  }

  lemma StepKeepsLocks(y: Sys, a: Action)
    requires Inv(y) && LocksHeld(y) && Enabled(y, a)
    ensures LocksHeld(Apply(y, a))
  {
    if a.Step? {
      forall w | w in Apply(y, a).locks
        ensures Apply(y, a).locks[w] in Apply(y, a).actors && Apply(y, a).actors[Apply(y, a).locks[w]].recovers
      {
        ActorStepKeepsLocks(y, a.a, a.reply, w);
      }
    }
  }

  lemma OtherFileKnows(y: Sys, a: Id, r: Reply, b: Id)
    requires Inv(y) && Enabled(y, Step(a, r)) && b in y.actors && y.actors[b].file != y.actors[a].file && Knows(y, b)
    requires y.actors[b].file in y.files && b in ActorStep(y, a, r).actors
    ensures y.actors[b] == ActorStep(y, a, r).actors[b] && Knows(ActorStep(y, a, r), b)
  {
    StepFramesFiles(y, a, r);
    StepFramesActor(y, a, r, b);
    StepFramesObjects(y, a, r, y.files[y.actors[b].file].key);
  }

  lemma SameFileKnows(y: Sys, a: Id, r: Reply, b: Id)
    requires Inv(y) && Aware(y) && Enabled(y, Step(a, r)) && Timely(y, Step(a, r))
    requires b in ActorStep(y, a, r).actors && b in y.actors && y.actors[b].file == y.actors[a].file
    ensures ActorStep(y, a, r).actors[b].file == y.actors[b].file && Knows(ActorStep(y, a, r), b)
  {
    assert ActorOk(y, a) && ActorOk(y, b) && Knows(y, a) && Knows(y, b);
    StepFramesActor(y, a, r, b);
  }

  lemma ActorStepKeepsAware(y: Sys, a: Id, r: Reply)
    requires Inv(y) && Aware(y) && Enabled(y, Step(a, r)) && Timely(y, Step(a, r))
    ensures Aware(ActorStep(y, a, r))
  {
    var z := ActorStep(y, a, r);
    StepKeepsLocks(y, Step(a, r));
    forall b | b in z.actors ensures z.actors[b].file in z.files && Knows(z, b) {
      StepFramesActor(y, a, r, b);
      StepFramesFiles(y, a, r);
      assert ActorOk(y, b);
      if y.actors[b].file == y.actors[a].file { SameFileKnows(y, a, r, b); } else { OtherFileKnows(y, a, r, b); }
    }
  }

  lemma StepKeepsAware(y: Sys, a: Action)
    requires Inv(y) && Aware(y) && Enabled(y, a) && Timely(y, a)
    ensures Aware(Apply(y, a))
  {
    var z := Apply(y, a);
    StepKeepsLocks(y, a);
    if a.Step? {
      ActorStepKeepsAware(y, a.a, a.reply);
    } else {
      forall b | b in z.actors && z.actors[b].file in z.files ensures Knows(z, b) {
        if b in y.actors { assert ActorOk(y, b) && Knows(y, b); }
      }
    }
  }

  lemma {:induction false} RunKeepsAware(y: Sys, run: seq<Action>)
    requires Inv(y) && Aware(y) && Legal(y, run) && TimelyRun(y, run)
    ensures Inv(After(y, run)) && Aware(After(y, run))
    decreases |run|
  {
    if run == [] {
      assert After(y, run) == y;
    } else {
      StepKeepsInv(y, run[0]);
      StepKeepsAware(y, run[0]);
      RunKeepsAware(Apply(y, run[0]), run[1..]);
    }
  }

  // ----- Without a dangerous uploader nothing is lost, timely or not -----

  ghost predicate Harmless(y: Sys, f: Id, a: Id)
    requires f in y.files && a in y.actors
  {
    var k, row := y.actors[a], y.files[f];
    k.file == f ==>
      if !k.recovers then k.phase.Fail? || ((k.phase.Read? || k.phase == Drop(true)) && !HasObject(y, row))
      else
        && !k.phase.Put? && k.phase != Drop(false) && !k.phase.Cleanup?
        && (Locked(k.phase) ==> row.work in y.locks && y.locks[row.work] == a && !row.status.Ready?)
        && (k.phase.MakeReady? ==> HasObject(y, row))
        && (k.phase.Drop? || k.phase.Fail? ==> !HasObject(y, row))
  }

  ghost predicate Safe(y: Sys, f: Id) {
    && KeysUnique(y) && f in y.files && (forall a :: a in y.actors ==> y.actors[a].file in y.files)
    && (y.files[f].status.Failed?
        || ((y.files[f].status.Ready? ==> HasObject(y, y.files[f]))
            && forall a :: a in y.actors ==> Harmless(y, f, a)))
  }

  lemma OwnStepKeepsHarmless(y: Sys, f: Id, a: Id, r: Reply, b: Id)
    requires Safe(y, f) && Enabled(y, Step(a, r)) && y.actors[a].file == f
    requires b in ActorStep(y, a, r).actors && b in y.actors && !ActorStep(y, a, r).files[f].status.Failed?
    ensures Harmless(ActorStep(y, a, r), f, b)
  {
    assert Harmless(y, f, a) && Harmless(y, f, b);
    StepFramesActor(y, a, r, b);
  }

  lemma OtherStepKeepsHarmless(y: Sys, f: Id, a: Id, r: Reply, b: Id)
    requires Safe(y, f) && Enabled(y, Step(a, r)) && y.actors[a].file != f && !y.files[f].status.Failed?
    requires b in ActorStep(y, a, r).actors && b in y.actors
    ensures Harmless(ActorStep(y, a, r), f, b)
  {
    assert Harmless(y, f, b);
    StepFramesFiles(y, a, r);
    StepFramesActor(y, a, r, b);
    StepFramesObjects(y, a, r, y.files[f].key);
    if b != a && y.files[f].work in y.locks && y.locks[y.files[f].work] == b {
      StepFramesLocks(y, a, r, y.files[f].work);
    }
  }

  lemma ActorStepKeepsObject(y: Sys, f: Id, a: Id, r: Reply)
    requires Safe(y, f) && Enabled(y, Step(a, r)) && ActorStep(y, a, r).files[f].status.Ready?
    ensures HasObject(ActorStep(y, a, r), y.files[f]) && ActorStep(y, a, r).files[f].key == y.files[f].key
    ensures ActorStep(y, a, r).files[f].meta == y.files[f].meta
  {
    StepFramesFiles(y, a, r);
    if y.actors[a].file == f { assert Harmless(y, f, a); } else { StepFramesObjects(y, a, r, y.files[f].key); }
  }

  lemma StepKeepsKeys(y: Sys, a: Action)
    requires KeysUnique(y) && Enabled(y, a)
    ensures KeysUnique(Apply(y, a))
  {
    if a.Step? { StepFramesFiles(y, a.a, a.reply); }
  }

  lemma ActorStepKeepsSafe(y: Sys, f: Id, a: Id, r: Reply)
    requires Safe(y, f) && Enabled(y, Step(a, r))
    ensures Safe(ActorStep(y, a, r), f)
  {
    var z := ActorStep(y, a, r);
    StepKeepsKeys(y, Step(a, r));
    StepFramesFiles(y, a, r);
    StepKeepsFiles(y, Step(a, r), f);
    forall b | b in z.actors
      ensures b in y.actors && z.actors[b].file in z.files
      ensures !z.files[f].status.Failed? ==> Harmless(z, f, b)
    {
      StepFramesActor(y, a, r, b);
      if !z.files[f].status.Failed? {
        if y.actors[a].file == f {
          OwnStepKeepsHarmless(y, f, a, r, b);
        } else {
          OtherStepKeepsHarmless(y, f, a, r, b);
        }
      }
    }
    if z.files[f].status.Ready? { ActorStepKeepsObject(y, f, a, r); }
  }

  lemma StepKeepsSafe(y: Sys, f: Id, a: Action)
    requires Safe(y, f) && Enabled(y, a)
    ensures Safe(Apply(y, a), f)
  {
    var z := Apply(y, a);
    if a.Step? {
      ActorStepKeepsSafe(y, f, a.a, a.reply);
    } else {
      StepKeepsKeys(y, a);
      forall b | b in z.actors && !z.files[f].status.Failed? ensures Harmless(z, f, b) {
        if b in y.actors { assert Harmless(y, f, b); }
      }
    }
  }

  lemma {:induction false} SafeForever(y: Sys, run: seq<Action>, f: Id)
    requires Safe(y, f) && Legal(y, run)
    ensures !Lost(After(y, run), f)
    decreases |run|
  {
    if run == [] {
      assert After(y, run) == y;
    } else {
      StepKeepsSafe(y, f, run[0]);
      SafeForever(Apply(y, run[0]), run[1..], f);
    }
  }

  lemma NotEndangeredIsSafe(y: Sys, f: Id)
    requires Inv(y) && Aware(y) && f in y.files && !Endangered(y, f)
    ensures Safe(y, f)
  {
    forall a | a in y.actors ensures y.actors[a].file in y.files && (!y.files[f].status.Failed? ==> Harmless(y, f, a)) {
      assert ActorOk(y, a) && Knows(y, a) && (!y.files[f].status.Failed? ==> !Dangerous(y, a, f));
    }
  }

  // ----- A dangerous uploader can lose the object -----

  const YES := Reply(true, None)

  const NO := Reply(false, None)

  /** The uploader's deletion comes after the row was made ready. */
  lemma ReadyDropLoses(y: Sys, f: Id, u: Id)
    requires f in y.files && y.files[f].status.Ready? && Uploads(y, u, f) && y.actors[u].phase == Drop(false)
    ensures MayLose(y, f)
  {
    var z := Apply(y, Step(u, YES));
    assert Legal(z, []) && After(z, []) == z && Lost(z, f);
    LosePrepend(y, Step(u, YES), f);
  }

  /** The uploader is about to delete the matching object of a row that is still pending. */
  predicate Poised(y: Sys, f: Id, u: Id) {
    && f in y.files && y.files[f].status.Pending? && HasObject(y, y.files[f])
    && Uploads(y, u, f) && y.actors[u].phase == Drop(false)
  }

  lemma RecovererReadyLoses(y: Sys, f: Id, u: Id, a: Id)
    requires Poised(y, f, u) && Recovers(y, a, f) && y.actors[a].phase.MakeReady?
    ensures MayLose(y, f)
  {
    assert Apply(y, Step(a, YES)).actors[u] == y.actors[u];
    ReadyDropLoses(Apply(y, Step(a, YES)), f, u);
    LosePrepend(y, Step(a, YES), f);
  }

  lemma RecovererReadLoses(y: Sys, f: Id, u: Id, a: Id)
    requires Poised(y, f, u) && Recovers(y, a, f) && y.actors[a].phase.Read?
    ensures MayLose(y, f)
  {
    var z := Apply(y, Step(a, YES));
    assert z.actors[u] == y.actors[u] && z.actors[a] == y.actors[a].(phase := MakeReady);
    RecovererReadyLoses(z, f, u, a);
    LosePrepend(y, Step(a, YES), f);
  }

  lemma RecovererWaitLoses(y: Sys, f: Id, u: Id, a: Id)
    requires Poised(y, f, u) && Recovers(y, a, f) && y.actors[a].phase.WaitLock? && y.files[f].work !in y.locks
    ensures MayLose(y, f)
  {
    var z := Apply(y, Step(a, YES));
    assert z.actors[u] == y.actors[u] && z.actors[a] == y.actors[a].(phase := Phase.Read);
    RecovererReadLoses(z, f, u, a);
    LosePrepend(y, Step(a, YES), f);
  }

  lemma RecoverableLoses(y: Sys, f: Id, u: Id)
    requires Poised(y, f, u) && LocksHeld(y) && Recoverable(y, y.files[f]) && y.files[f].work !in y.locks
    ensures MayLose(y, f)
  {
    var a := FreshId(y.actors.Keys);
    assert forall w :: w in y.locks ==> y.locks[w] != a;
    var z := Apply(y, Recover(a, f));
    assert z.actors[u] == y.actors[u] && Recovers(z, a, f);
    RecovererWaitLoses(z, f, u, a);
    LosePrepend(y, Recover(a, f), f);
  }

  lemma UnlockedLoses(y: Sys, f: Id, u: Id)
    requires Poised(y, f, u) && LocksHeld(y) && y.files[f].work !in y.locks
    ensures MayLose(y, f)
  {
    var later := if y.now <= y.files[f].createdAt + y.ttl then y.files[f].createdAt + y.ttl else y.now;
    RecoverableLoses(Apply(y, Tick(later)), f, u);
    LosePrepend(y, Tick(later), f);
  }

  /** Whoever holds the work's lock may crash. */
  lemma PoisedLoses(y: Sys, f: Id, u: Id)
    requires Poised(y, f, u) && LocksHeld(y)
    ensures MayLose(y, f)
  {
    if y.files[f].work in y.locks {
      var b := y.locks[y.files[f].work];
      var z := Apply(y, Crash(b));
      assert u != b && z.actors[u] == y.actors[u];
      UnlockedLoses(z, f, u);
      LosePrepend(y, Crash(b), f);
    } else {
      UnlockedLoses(y, f, u);
    }
  }

  /** The uploader is about to mark the file ready, and loses access. */
  lemma MakingReadyLoses(y: Sys, f: Id, u: Id)
    requires LocksHeld(y) && f in y.files && !y.files[f].status.Failed? && HasObject(y, y.files[f])
    requires Uploads(y, u, f) && y.actors[u].phase.MakeReady?
    ensures MayLose(y, f)
  {
    var z := Apply(y, Step(u, NO));
    assert z == y.(actors := y.actors[u := y.actors[u].(phase := Drop(false))]);
    if y.files[f].status.Ready? { ReadyDropLoses(z, f, u); } else { PoisedLoses(z, f, u); }
    LosePrepend(y, Step(u, NO), f);
  }

  lemma ReadingLoses(y: Sys, f: Id, u: Id)
    requires LocksHeld(y) && f in y.files && !y.files[f].status.Failed? && HasObject(y, y.files[f])
    requires Uploads(y, u, f) && y.actors[u].phase.Read?
    ensures MayLose(y, f)
  {
    var z := Apply(y, Step(u, YES));
    assert z == y.(actors := y.actors[u := y.actors[u].(phase := MakeReady)]);
    MakingReadyLoses(z, f, u);
    LosePrepend(y, Step(u, YES), f);
  }

  /** The uploader has still to store the object, and stores a matching one. */
  lemma PuttingLoses(y: Sys, f: Id, u: Id)
    requires LocksHeld(y) && f in y.files && !y.files[f].status.Failed? && y.files[f].key !in y.objects
    requires Uploads(y, u, f) && y.actors[u].phase.Put?
    ensures MayLose(y, f)
  {
    var stored := Reply(true, Some(Some(y.files[f].meta)));
    var z := Apply(y, Step(u, stored));
    assert z == y.(actors := y.actors[u := y.actors[u].(phase := Phase.Read)],
                   objects := y.objects[y.files[f].key := Some(y.files[f].meta)]);
    ReadingLoses(z, f, u);
    LosePrepend(y, Step(u, stored), f);
  }

  lemma EndangeredLoses(y: Sys, f: Id)
    requires Inv(y) && Aware(y) && Endangered(y, f)
    ensures MayLose(y, f)
  {
    var u :| u in y.actors && Dangerous(y, u, f);
    assert Knows(y, u);
    match y.actors[u].phase
    case Put => PuttingLoses(y, f, u);
    case Read => ReadingLoses(y, f, u);
    case MakeReady => MakingReadyLoses(y, f, u);
    case Drop(_) => if y.files[f].status.Ready? { ReadyDropLoses(y, f, u); } else { PoisedLoses(y, f, u); }
  }

  /** In every state that a timely run reaches: a file can still become ready and lose its object
      if and only if it has not failed and some uploader of it has yet to store the object, or
      holds on to the matching one. */
  lemma LossIffEndangered(ttl: nat, run: seq<Action>, f: Id)
    requires Legal(Sys(ttl, 0, map[], map[], map[], map[]), run)
    requires TimelyRun(Sys(ttl, 0, map[], map[], map[], map[]), run)
    ensures var y := After(Sys(ttl, 0, map[], map[], map[], map[]), run);
            f in y.files ==> (MayLose(y, f) <==> Endangered(y, f))
  {
    var y := After(Sys(ttl, 0, map[], map[], map[], map[]), run);
    RunKeepsAware(Sys(ttl, 0, map[], map[], map[], map[]), run);
    if f in y.files {
      if Endangered(y, f) {
        EndangeredLoses(y, f);
      } else {
        NotEndangeredIsSafe(y, f);
        forall more | Legal(y, more) ensures !Lost(After(y, more), f) { SafeForever(y, more, f); }
      }
    }
  }

  const LATE_FILE := File(7, Image, Meta("image/png", 10, [1]), 5, Pending, 0)

  /** The first reservation in an empty system already endangers its file. */
  lemma LateUploadMayLoseObject()
    ensures MayLose(Sys(2, 0, map[], map[], map[], map[]), 0)
  {
    var y := Sys(2, 0, map[], map[], map[], map[]);
    assert Live(map[], 7, Image) == {};
    var z := Apply(y, Reserve(0, 0, LATE_FILE));
    StepKeepsInv(y, Reserve(0, 0, LATE_FILE));
    StepKeepsAware(y, Reserve(0, 0, LATE_FILE));
    assert Dangerous(z, 0, 0);
    EndangeredLoses(z, 0);
    LosePrepend(y, Reserve(0, 0, LATE_FILE), 0);
  }
}
