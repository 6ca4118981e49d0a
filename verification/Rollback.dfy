/** A sweep that is rolled back leaves no trace: whatever the local store and its client did in
between, the folder ends as if the sweep had never happened. */
module Rollback {
  import opened Wrappers
  import opened Manifests
  import opened StoreOperations
  import opened Replicas

  /** What the device itself may do between a sweep and its rollback. */
  datatype Activity = Calling(call: Call) | Polling

  ghost function Act(digest: Digest, r: Replica, a: Activity): Replica {
    match a
    case Calling(call) => CallStep(digest, r, call)
    case Polling => PollStep(r)
  }

  ghost function Acts(digest: Digest, r: Replica, trace: seq<Activity>): Replica
    decreases |trace|
  {
    if trace == [] then r else Acts(digest, Act(digest, r, trace[0]), trace[1..])
  }

  /** Every caller resolves a conflict to one of the heads it lists. */
  predicate ResolvesToListed(a: Activity) {
    a.Calling? && a.call.Begin? && a.call.resolution.Some? ==>
      forall id | id in a.call.base :: id in a.call.resolution.value
  }

  /** A resolution that begins with a swept manifest as its base: the one thing a sweep can be told
  by. */
  predicate DeadBegin(plain: Replica, trash: Directory, a: Activity) {
    && a.Calling? && a.call.Begin? && a.call.op !in plain.operations && a.call.resolution.Some?
    && BeginOperation(plain.present, a.call.base, a.call.resolution, a.call.minimum).Ok?
    && a.call.base != [] && a.call.base[0] in trash
  }

  /** No resolution of the trace does so. */
  ghost predicate NoDeadBegin(digest: Digest, plain: Replica, trash: Directory, trace: seq<Activity>)
    decreases |trace|
  {
    trace == []
    || (!DeadBegin(plain, trash, trace[0])
        && NoDeadBegin(digest, Act(digest, plain, trace[0]), trash, trace[1..]))
  }

  predicate Begins(a: Activity, op: nat) { a.Calling? && a.call.Begin? && a.call.op == op }

  /** Each operation has a handle of its own. */
  ghost predicate OwnHandles(trace: seq<Activity>) {
    forall i, j, op | 0 <= i < j < |trace| && Begins(trace[i], op) :: !Begins(trace[j], op)
  }

  /** `swept` is `plain` with `trash` taken away, and nothing else differs. */
  ghost predicate Without(history: Directory, swept: Replica, plain: Replica, trash: Directory) {
    && Held(history, plain.present)
    && plain.present == trash + swept.present && trash.Keys !! swept.present.Keys
    && Alike(swept.present, plain.present)
    && swept.operations == plain.operations && GoodOperations(plain.operations)
    && swept.client == plain.client
  }

  lemma BeginAgrees(
    a: Directory, b: Directory, base: seq<Id>, resolution: Option<seq<Id>>, minimum: nat)
    requires Alike(a, b) && Held(b, a)
    requires !(&& resolution.Some? && BeginOperation(b, base, resolution, minimum).Ok?
               && base != [] && base[0] !in a)
    ensures BeginOperation(a, base, resolution, minimum)
            == BeginOperation(b, base, resolution, minimum)
  {
    hide BlobsOf, Heads, Current, MaxRevision, NormalizedHeadIds;
    assert Current(a) == Current(b) by { AlikeViews(a, b, 0, 0); }
  }

  lemma BaseIsPresent(d: Directory, base: seq<Id>, resolution: Option<seq<Id>>, minimum: nat)
    ensures resolution.Some? && BeginOperation(d, base, resolution, minimum).Ok? ==>
              |base| == 1 && base[0] in d
  {
    hide BlobsOf, Heads, NormalizedHeadIds;
  }

  /** A listed head is never a swept manifest. */
  lemma ListedIsAlive(swept: Directory, plain: Directory, base: seq<Id>, heads: seq<Id>, minimum: nat)
    requires Alike(swept, plain) && BeginOperation(plain, base, Some(heads), minimum).Ok?
    requires forall id | id in base :: id in heads
    ensures base != [] && base[0] in swept
  {
    hide BlobsOf, MaxRevision;
    assert base[0] in base && base[0] in Heads(plain);
  }

  lemma AlikeAfterPublish(a: Directory, b: Directory, id: Id, m: Manifest)
    requires Alike(a, b) && id !in a && id !in b && !HasChild(a, id) && !HasChild(b, id)
    requires m.parents == Heads(b)
    ensures Alike(a[id := m], b[id := m])
  {
    hide Heads, HasChild, MaxRevision;
    CoveringManifest(a, id, m);
    CoveringManifest(b, id, m);
    MaxOfExtension(a, id, m);
    MaxOfExtension(b, id, m);
  }

  lemma FewerChildren(a: Directory, b: Directory, id: Id)
    requires Held(b, a) && !HasChild(b, id)
    ensures !HasChild(a, id)
  {
  }

  /** Committing on both directories keeps the difference to exactly the trash. */
  lemma DirectoriesAgree(
    digest: Digest, history: Directory, swept: Directory, plain: Directory, trash: Directory,
    op: Operation, files: Files, author: Identity, now: nat)
    requires CollisionFree(digest) && GoodHistory(digest, history) && Held(history, plain)
    requires plain == trash + swept && trash.Keys !! swept.Keys && Alike(swept, plain)
    requires op.parents == op.expectedHeads
    ensures var what := Decide(digest, plain, op, files, author, now);
            var plain', swept' := DirectoryAfter(digest, plain, what),
                                  DirectoryAfter(digest, swept, what);
            && plain' == trash + swept' && trash.Keys !! swept'.Keys && Alike(swept', plain')
            && Held(history + plain', history) && Held(history + plain', plain')
            && GoodHistory(digest, history + plain')
  {
    hide CollisionFree, GoodHistory, Alike, Heads, HasChild, Decide, MaxRevision;
    var what := Decide(digest, plain, op, files, author, now);
    if what.Publish? {
      var m := what.manifest;
      var id := digest(m);
      CommitPublishes(digest, history, plain, op, files, author, now);
      PublishedUnnamed(digest, history, plain, op, files, author, now);
      FewerChildren(swept, plain, id);
      AlikeAfterPublish(swept, plain, id, m);
      HeadsArePresent(plain);
      PublishKeepsHistory(digest, history, plain, m);
      TrashApart(history, swept, plain, trash, id, m);
    } else {
      assert history + plain == history;
    }
  }

  lemma HeadsArePresent(d: Directory)
    ensures Heads(d) <= d.Keys
  {
  }

  lemma TrashApart(
    history: Directory, swept: Directory, plain: Directory, trash: Directory, id: Id, m: Manifest)
    requires Held(history, plain) && id !in plain
    requires plain == trash + swept && trash.Keys !! swept.Keys
    ensures plain[id := m] == trash + swept[id := m] && trash.Keys !! swept[id := m].Keys
    ensures history + plain[id := m] == history[id := m]
    ensures Held(history[id := m], plain[id := m])
  {
  }

  lemma CommitAgrees(digest: Digest, history: Directory, swept: Replica, plain: Replica,
                     trash: Directory, c: Call)
    requires CollisionFree(digest) && GoodHistory(digest, history)
    requires Without(history, swept, plain, trash) && c.Commit? && c.op in plain.operations
    ensures var after := CallStep(digest, plain, c);
            && Held(history + after.present, history)
            && GoodHistory(digest, history + after.present)
            && Without(history + after.present, CallStep(digest, swept, c), after, trash)
  {
    hide CollisionFree, GoodHistory, MergedFiles, Alike, Decide, OperationAfter, DirectoryAfter;
    var op := plain.operations[c.op];
    var files := MergedFiles(op.originalFiles, c.staged, c.deleted);
    assert Held(history, swept.present);
    AlikeCommits(digest, history, swept.present, plain.present, op, files, c.author, c.now);
    DirectoriesAgree(
      digest, history, swept.present, plain.present, trash, op, files, c.author, c.now);
    CallKeepsOperations(digest, plain, c);
  }

  lemma PublishedUnnamed(
    digest: Digest, history: Directory, d: Directory, op: Operation, files: Files,
    author: Identity, now: nat)
    requires CollisionFree(digest) && GoodHistory(digest, history) && Held(history, d)
    requires Decide(digest, d, op, files, author, now).Publish?
    ensures !HasChild(d, digest(Decide(digest, d, op, files, author, now).manifest))
  {
    NewManifestIsNew(digest, history, d, op, files, author, now);
  }

  lemma ActAgrees(digest: Digest, history: Directory, swept: Replica, plain: Replica,
                  trash: Directory, a: Activity)
    requires CollisionFree(digest) && GoodHistory(digest, history)
    requires Without(history, swept, plain, trash) && !DeadBegin(plain, trash, a)
    ensures var after := Act(digest, plain, a);
            && Held(history + after.present, history)
            && GoodHistory(digest, history + after.present)
            && Without(history + after.present, Act(digest, swept, a), after, trash)
  {
    hide CollisionFree, GoodHistory, Alike, BeginOperation, Decide, Heads, ChangesSince;
    if a.Polling? {
      AlikeViews(swept.present, plain.present, plain.client.synced, 0);
    } else if a.call.Begin? {
      if a.call.op !in plain.operations {
        BaseIsPresent(plain.present, a.call.base, a.call.resolution, a.call.minimum);
        BeginAgrees(swept.present, plain.present, a.call.base, a.call.resolution, a.call.minimum);
      }
      CallKeepsOperations(digest, plain, a.call);
    } else if a.call.Commit? && a.call.op in plain.operations {
      CommitAgrees(digest, history, swept, plain, trash, a.call);
    } else {
      CallKeepsOperations(digest, plain, a.call);
    }
    if !(a.Calling? && a.call.Commit? && a.call.op in plain.operations) {
      assert history + plain.present == history;
    }
  }

  lemma {:induction false} ActsAgree(
    digest: Digest, history: Directory, swept: Replica, plain: Replica, trash: Directory,
    trace: seq<Activity>)
    requires CollisionFree(digest) && GoodHistory(digest, history)
    requires Without(history, swept, plain, trash) && NoDeadBegin(digest, plain, trash, trace)
    ensures exists wider ::
              GoodHistory(digest, wider)
              && Without(wider, Acts(digest, swept, trace), Acts(digest, plain, trace), trash)
    decreases |trace|
  {
    hide CollisionFree, GoodHistory, Without, Act, DeadBegin;
    if trace != [] {
      var a := trace[0];
      ActAgrees(digest, history, swept, plain, trash, a);
      var after := Act(digest, plain, a);
      ActsAgree(digest, history + after.present, Act(digest, swept, a), after, trash, trace[1..]);
    }
  }

  /** With listed heads as bases there is no such begin. */
  lemma {:induction false} ListedHasNoDead(
    digest: Digest, history: Directory, swept: Replica, plain: Replica, trash: Directory,
    trace: seq<Activity>)
    requires CollisionFree(digest) && GoodHistory(digest, history)
    requires Without(history, swept, plain, trash)
    requires forall i | 0 <= i < |trace| :: ResolvesToListed(trace[i])
    ensures NoDeadBegin(digest, plain, trash, trace)
    decreases |trace|
  {
    if trace != [] {
      var a := trace[0];
      assert ResolvesToListed(a);
      if DeadBegin(plain, trash, a) {
        ListedIsAlive(swept.present, plain.present, a.call.base, a.call.resolution.value,
                      a.call.minimum);
      }
      hide CollisionFree, GoodHistory, Without, Act, DeadBegin, ResolvesToListed;
      ActAgrees(digest, history, swept, plain, trash, a);
      var after := Act(digest, plain, a);
      assert forall i | 0 <= i < |trace[1..]| :: trace[1..][i] == trace[i + 1];
      ListedHasNoDead(digest, history + after.present, Act(digest, swept, a), after, trash, trace[1..]);
    }
  }

  lemma {:induction false} NeverBegun(digest: Digest, r: Replica, trace: seq<Activity>, op: nat)
    requires op !in r.operations && forall i | 0 <= i < |trace| :: !Begins(trace[i], op)
    ensures op !in Acts(digest, r, trace).operations
    decreases |trace|
  {
    if trace != [] {
      assert !Begins(trace[0], op);
      assert op !in Act(digest, r, trace[0]).operations by {
        hide BeginOperation, Decide, MergedFiles, ChangesSince, OperationAfter;
      }
      hide Act, Begins;
      assert forall i | 0 <= i < |trace[1..]| :: trace[1..][i] == trace[i + 1];
      NeverBegun(digest, Act(digest, r, trace[0]), trace[1..], op);
    }
  }

  lemma {:induction false} StaysBegun(digest: Digest, r: Replica, trace: seq<Activity>, op: nat)
    requires op in r.operations
    ensures op in Acts(digest, r, trace).operations
    decreases |trace|
  {
    if trace != [] {
      assert op in Act(digest, r, trace[0]).operations by {
        hide BeginOperation, Decide, MergedFiles, ChangesSince, OperationAfter;
      }
      hide Act;
      StaysBegun(digest, Act(digest, r, trace[0]), trace[1..], op);
    }
  }

  /** A begin on a swept base succeeds without the sweep and fails with it. */
  lemma DeadShows(digest: Digest, history: Directory, swept: Replica, plain: Replica,
                  trash: Directory, a: Activity)
    requires Without(history, swept, plain, trash) && DeadBegin(plain, trash, a)
    ensures a.Calling? && a.call.Begin? && Begins(a, a.call.op)
    ensures a.call.op in Act(digest, plain, a).operations
    ensures a.call.op !in Act(digest, swept, a).operations
  {
    hide BlobsOf, Heads, MaxRevision, NormalizedHeadIds, Alike, Decide, MergedFiles;
  }

  lemma {:induction false} DeadTellsThemApart(
    digest: Digest, history: Directory, swept: Replica, plain: Replica, trash: Directory,
    trace: seq<Activity>)
    requires CollisionFree(digest) && GoodHistory(digest, history)
    requires Without(history, swept, plain, trash) && OwnHandles(trace)
    requires !NoDeadBegin(digest, plain, trash, trace)
    ensures Acts(digest, swept, trace).operations != Acts(digest, plain, trace).operations
    decreases |trace|
  {
    hide CollisionFree, GoodHistory, Without, Act, DeadBegin, Begins, OwnHandles;
    var a, rest := trace[0], trace[1..];
    if DeadBegin(plain, trash, a) {
      DeadShows(digest, history, swept, plain, trash, a);
      HandleIsOwn(trace, a.call.op);
      NeverBegun(digest, Act(digest, swept, a), rest, a.call.op);
      StaysBegun(digest, Act(digest, plain, a), rest, a.call.op);
    } else {
      OwnTail(trace);
      ActAgrees(digest, history, swept, plain, trash, a);
      var after := Act(digest, plain, a);
      DeadTellsThemApart(digest, history + after.present, Act(digest, swept, a), after, trash, rest);
    }
  }

  lemma OwnTail(trace: seq<Activity>)
    requires OwnHandles(trace) && trace != []
    ensures OwnHandles(trace[1..])
  {
    var rest := trace[1..];
    assert forall i | 0 <= i < |rest| :: rest[i] == trace[i + 1];
  }

  lemma HandleIsOwn(trace: seq<Activity>, op: nat)
    requires OwnHandles(trace) && trace != [] && Begins(trace[0], op)
    ensures forall i | 0 <= i < |trace[1..]| :: !Begins(trace[1..][i], op)
  {
    var rest := trace[1..];
    assert forall i | 0 <= i < |rest| :: rest[i] == trace[i + 1];
  }

  /** What the sweep of a replica leaves, against the replica. */
  lemma SweptIsWithout(digest: Digest, history: Directory, r: Replica)
    requires CollisionFree(digest) && GoodHistory(digest, history) && GoodReplica(history, r)
    requires CollectStep(history, r, Sweep).collector.Trashed? && r.collector.Inspected?
    ensures var swept := CollectStep(history, r, Sweep);
            Without(history, swept, r, swept.collector.trash)
  {
    var swept := CollectStep(history, r, Sweep);
    SweepRemovesCandidates(history, r);
    SweepIsAlike(digest, history, r.present);
  }

  /** The folder, the operations and the client after sweeping, acting and rolling back are those
  after acting alone. */
  ghost predicate NoTrace(digest: Digest, history: Directory, r: Replica, trace: seq<Activity>) {
    var rolled := CollectStep(
                    history, Acts(digest, CollectStep(history, r, Sweep), trace), Restore);
    var plain := Acts(digest, r, trace);
    && rolled.present == plain.present && rolled.operations == plain.operations
    && rolled.client == plain.client && rolled.collector == Idle
  }

  /** Sweep, let the device act in any way, and roll back: this leaves no trace exactly when no
  resolution began with a swept manifest as its base. */
  lemma RollbackLeavesNoTraceIff(
    digest: Digest, history: Directory, r: Replica, trace: seq<Activity>)
    requires CollisionFree(digest) && GoodHistory(digest, history) && GoodReplica(history, r)
    requires CollectStep(history, r, Sweep).collector.Trashed? && r.collector.Inspected?
    requires OwnHandles(trace)
    ensures NoTrace(digest, history, r, trace) <==>
              NoDeadBegin(digest, r, CollectStep(history, r, Sweep).collector.trash, trace)
  {
    var swept := CollectStep(history, r, Sweep);
    var trash := swept.collector.trash;
    SweptIsWithout(digest, history, r);
    CollectorUntouched(digest, swept, trace);
    hide GoodReplica, GoodHistory, CollisionFree, NoDeadBegin, OwnHandles;
    if NoDeadBegin(digest, r, trash, trace) {
      ActsAgree(digest, history, swept, r, trash, trace);
    } else {
      hide Without;
      DeadTellsThemApart(digest, history, swept, r, trash, trace);
    }
  }

  /** So it leaves none when every resolution picks one of the heads it lists, as callers do. */
  lemma RollbackLeavesNoTrace(
    digest: Digest, history: Directory, r: Replica, trace: seq<Activity>)
    requires CollisionFree(digest) && GoodHistory(digest, history) && GoodReplica(history, r)
    requires CollectStep(history, r, Sweep).collector.Trashed? && r.collector.Inspected?
    requires forall i | 0 <= i < |trace| :: ResolvesToListed(trace[i])
    ensures NoTrace(digest, history, r, trace)
  {
    var swept := CollectStep(history, r, Sweep);
    var trash := swept.collector.trash;
    SweptIsWithout(digest, history, r);
    CollectorUntouched(digest, swept, trace);
    hide GoodReplica, GoodHistory, CollisionFree, NoDeadBegin, ResolvesToListed;
    ListedHasNoDead(digest, history, swept, r, trash, trace);
    ActsAgree(digest, history, swept, r, trash, trace);
  }

  lemma {:induction false} CollectorUntouched(digest: Digest, r: Replica, trace: seq<Activity>)
    ensures Acts(digest, r, trace).collector == r.collector
    decreases |trace|
  {
    if trace != [] {
      CollectorUntouched(digest, Act(digest, r, trace[0]), trace[1..]);
    }
  }

  /** Without that caller discipline the two can differ: a resolution whose base is a dead
  manifest begins on the unswept folder and fails on the swept one. */
  lemma DeadBaseTellsThemApart()
    ensures exists d: Directory, base: seq<Id>, heads: seq<Id> ::
              && BeginOperation(d, base, Some(heads), 0).Ok?
              && BeginOperation(Swept(d), base, Some(heads), 0) == Err(Permanent)
  {
    hide BeginOperation, Swept;
    var who := Identity(1, "deck");
    var d: Directory := map[
      1 := Manifest(1, {}, who, 0, map[]),
      2 := Manifest(2, {1}, who, 0, map[]),
      3 := Manifest(3, {2}, who, 0, map[]),
      4 := Manifest(3, {2}, who, 1, map[])];
    assert 1 in d[2].parents && 2 in d[3].parents && 2 in d[4].parents;
    assert HasChild(d, 1) && HasChild(d, 2) && !HasChild(d, 3) && !HasChild(d, 4);
    assert Heads(d) == {3, 4};
    DeadBase(d, 1, 3, 4);
  }

  lemma DeadBase(d: Directory, dead: Id, a: Id, b: Id)
    requires Heads(d) == {a, b} && a != b
    requires dead in d && dead !in Heads(d) && dead !in d[a].parents && dead !in d[b].parents
    ensures BeginOperation(d, [dead], Some([a, b]), 0).Ok?
    ensures BeginOperation(Swept(d), [dead], Some([a, b]), 0) == Err(Permanent)
  {
    hide Heads, BlobsOf;
    SweepKeepsHeads(d);
    assert dead in Candidates(d);
    assert (set id | id in [a, b]) == {a, b};
    assert |{a, b}| == 2;
    assert dead in d && dead !in Swept(d);
  }
}
